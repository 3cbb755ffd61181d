/** The variant of createKeycloakGroups in src/utils.ts: below the project group
    `<organization>-<project>` it creates a `metrics` child with four leaves and
    puts the owner in all four, unless `metrics` is already there. */
module Utils {
  import opened Wrappers
  import opened Identity
  import Naming
  import Keycloak

  const METRICS := "metrics"
  const METRICS_LEAVES := ["grafana-prod-view", "grafana-prod-edit", "grafana-hprod-view", "grafana-hprod-edit"]

  /** What this variant throws: a missing project group, reported with the
      message text it builds from the lookup result, i.e. "undefined"; or an
      error answered by the admin API. */
  datatype MetricsError = ParentGroupMissing(shown: string) | Api(cause: ApiError)

  /** getKeycloakGroupByName (src/utils.ts:36-39): the first answer of the
      search whose name is exactly `name`, with the children the server lists. */
  method GetKeycloakGroupByName(kc: Store, name: string) returns (r: Option<GroupRep>)
    requires kc.Valid()
    ensures r == SearchNamed(kc.State(), kc.unlisted, name)
  {
    var groupSearch := kc.Find(name);
    r := FindNamed(groupSearch, name);
  }

  /** The `metrics` child is looked for in the search answer, which lists
      the children the server chooses to show (`unlisted` are left out). */
  function CreateMetricsGroupsSpec(s: KcState, unlisted: set<GroupId>, organization: string, project: string,
                                   owner: UserId): (r: (Outcome<MetricsError>, KcState))
    requires WellFormed(s)
    ensures WellFormed(r.1) && Grows(s, r.1) && s.members <= r.1.members
    ensures TopLevelNamed(s, Naming.ProjectGroupName(organization, project)).None? ==>
      r == (Fail(ParentGroupMissing("undefined")), s)
  {
    match SearchNamed(s, unlisted, Naming.ProjectGroupName(organization, project))
    case None => (Fail(ParentGroupMissing("undefined")), s)
    case Some(projectGroup) =>
      if FindNamed(projectGroup.subGroups, METRICS).Some? then (Pass, s)
      else CreateMetricsUnder(s, projectGroup.id, owner)
  }

  /** The project group exists and the search answer lists its `metrics` child. */
  ghost predicate MetricsListed(s: KcState, unlisted: set<GroupId>, projectName: string)
    requires WellFormed(s)
  {
    var pg := TopLevelNamed(s, projectName);
    pg.Some? && exists c :: IsChildNamed(s, pg.value.id, c, METRICS) && c !in unlisted
  }

  /** The lookup of `metrics` in the answer succeeds exactly when it is listed. */
  lemma MetricsLookup(s: KcState, unlisted: set<GroupId>, projectName: string)
    requires WellFormed(s) && TopLevelNamed(s, projectName).Some?
    ensures FindNamed(SearchNamed(s, unlisted, projectName).value.subGroups, METRICS).Some?
        <==> MetricsListed(s, unlisted, projectName)
  {
    ListedChildLookup(s, TopLevelNamed(s, projectName).value.id, unlisted, METRICS);
  }

  /** The steps taken when the project group has no `metrics` child. */
  function CreateMetricsUnder(s: KcState, projectId: GroupId, owner: UserId): (r: (Outcome<MetricsError>, KcState))
    requires WellFormed(s)
    ensures WellFormed(r.1) && Grows(s, r.1) && s.members <= r.1.members
  {
    var group := CreateChildSpec(s, projectId, METRICS);
    match group.0
    case Failure(e) => (Fail(Api(e)), group.1)
    case Success(metricsId) =>
      var filled := FillMetrics(group.1, metricsId, owner);
      GrowsTrans(s, group.1, filled.1);
      filled
  }

  /** The four leaves under the new `metrics` group, then the owner in each. */
  function FillMetrics(s: KcState, metricsId: GroupId, owner: UserId): (r: (Outcome<MetricsError>, KcState))
    requires WellFormed(s)
    ensures WellFormed(r.1) && Grows(s, r.1) && s.members <= r.1.members
  {
    var created := CreateChildren(s, metricsId, METRICS_LEAVES);
    match created.0
    case Failure(e) => (Fail(Api(e)), created.1)
    case Success(ids) =>
      var added := AddAll(created.1, owner, ids);
      GrowsTrans(s, created.1, added.1);
      match added.0
      case Fail(e) => (Fail(Api(e)), added.1)
      case Pass => (Pass, added.1)
  }

  /** An existing `metrics` child means nothing is created and no membership
      changes. The call succeeds exactly when the search answer lists that
      child; otherwise the attempt to create it again is answered 409. */
  lemma MetricsPresentNoChange(s: KcState, unlisted: set<GroupId>, organization: string, project: string, owner: UserId)
    requires WellFormed(s)
    requires var pg := TopLevelNamed(s, Naming.ProjectGroupName(organization, project));
      pg.Some? && HasChildNamed(s, pg.value.id, METRICS)
    ensures var r := CreateMetricsGroupsSpec(s, unlisted, organization, project, owner);
      && r.1 == s
      && (r.0 == Pass <==> MetricsListed(s, unlisted, Naming.ProjectGroupName(organization, project)))
      && (r.0 != Pass ==> r.0 == Fail(Api(Conflict)))
  {
    var name := Naming.ProjectGroupName(organization, project);
    var pg := TopLevelNamed(s, name).value;
    var answer := SearchNamed(s, unlisted, name);
    assert answer == Some(Answered(pg, unlisted));
    MetricsLookup(s, unlisted, name);
    if !MetricsListed(s, unlisted, name) {
      assert FindNamed(answer.value.subGroups, METRICS).None?;
      assert CreateChildSpec(s, pg.id, METRICS) == (Failure(Conflict), s);
      assert CreateMetricsUnder(s, pg.id, owner) == (Fail(Api(Conflict)), s);
    }
  }

  /** `l` is a group absent from `s0` that in `u` is the child `leaf` of `m` and holds `owner`. */
  ghost predicate HoldsNewMetricsLeaf(s0: KcState, u: KcState, m: GroupId, leaf: string, owner: UserId) {
    exists l :: l !in s0.groups && IsChildNamed(u, m, l, leaf) && (owner, l) in u.members
  }

  ghost predicate HoldsNewMetricsLeaves(s0: KcState, u: KcState, m: GroupId, names: seq<string>, owner: UserId) {
    forall i :: 0 <= i < |names| ==> HoldsNewMetricsLeaf(s0, u, m, names[i], owner)
  }

  lemma MetricsLeavesHeld(s0: KcState, s: KcState, t: KcState, u: KcState, m: GroupId,
                          ids: seq<GroupId>, names: seq<string>, owner: UserId)
    requires s0.groups.Keys <= s.groups.Keys
    requires CreatedUnder(s, t, m, ids, names) && u.groups == t.groups
    requires MemberOfAll(u, owner, ids)
    ensures HoldsNewMetricsLeaves(s0, u, m, names, owner)
  {
    forall i | 0 <= i < |names|
      ensures HoldsNewMetricsLeaf(s0, u, m, names[i], owner)
    {
      assert IsChildNamed(u, m, ids[i], names[i]);
      assert ids[i] !in s0.groups && (owner, ids[i]) in u.members;
    }
  }

  /** A successful call on a project without `metrics` leaves a new `metrics`
      child of the project group whose four leaves are new and hold the owner. */
  lemma MetricsCreated(s: KcState, unlisted: set<GroupId>, organization: string, project: string, owner: UserId)
    requires WellFormed(s)
    requires var pg := TopLevelNamed(s, Naming.ProjectGroupName(organization, project));
      pg.Some? && !HasChildNamed(s, pg.value.id, METRICS)
    ensures var pg := TopLevelNamed(s, Naming.ProjectGroupName(organization, project)).value.id;
      var r := CreateMetricsGroupsSpec(s, unlisted, organization, project, owner);
      r.0.Pass? ==> r.1.groups.Keys >= {s.nextId} && IsChildNamed(r.1, pg, s.nextId, METRICS)
                    && s.nextId !in s.groups
                    && HoldsNewMetricsLeaves(s, r.1, s.nextId, METRICS_LEAVES, owner)
  {
    var pg := TopLevelNamed(s, Naming.ProjectGroupName(organization, project)).value;
    MetricsLookup(s, unlisted, Naming.ProjectGroupName(organization, project));
    UnderCreated(s, pg.id, owner);
  }

  lemma UnderCreated(s: KcState, projectId: GroupId, owner: UserId)
    requires WellFormed(s) && projectId in s.groups && !HasChildNamed(s, projectId, METRICS)
    ensures var r := CreateMetricsUnder(s, projectId, owner);
      r.0.Pass? ==> r.1.groups.Keys >= {s.nextId} && IsChildNamed(r.1, projectId, s.nextId, METRICS)
                    && s.nextId !in s.groups
                    && HoldsNewMetricsLeaves(s, r.1, s.nextId, METRICS_LEAVES, owner)
  {
    var group := CreateChildSpec(s, projectId, METRICS);
    CreateChildMakesChild(s, projectId, METRICS);
    var m := group.0.value;
    var r := FillMetrics(group.1, m, owner);
    if r.0.Pass? {
      var created := CreateChildren(group.1, m, METRICS_LEAVES);
      CreateChildrenCreates(group.1, m, METRICS_LEAVES);
      var ids := created.0.value;
      AddAllEffect(created.1, owner, ids);
      GrowsTrans(group.1, created.1, r.1);
      ChildStays(group.1, r.1, projectId, m);
      MetricsLeavesHeld(s, group.1, created.1, r.1, m, ids, METRICS_LEAVES, owner);
    }
  }

  /** The only memberships a call adds are of the owner in a leaf of the
      project's `metrics` child. */
  lemma MetricsOnlyOwnerAdded(s: KcState, unlisted: set<GroupId>, organization: string, project: string, owner: UserId,
                              p: (UserId, GroupId))
    requires WellFormed(s)
    requires var r := CreateMetricsGroupsSpec(s, unlisted, organization, project, owner);
      p in r.1.members && p !in s.members
    ensures var pg := TopLevelNamed(s, Naming.ProjectGroupName(organization, project)).value.id;
      var r := CreateMetricsGroupsSpec(s, unlisted, organization, project, owner);
      p.0 == owner && IsChildNamed(r.1, pg, s.nextId, METRICS)
      && exists i :: 0 <= i < |METRICS_LEAVES| && IsChildNamed(r.1, s.nextId, p.1, METRICS_LEAVES[i])
  {
    var pg := TopLevelNamed(s, Naming.ProjectGroupName(organization, project)).value;
    UnderOnlyOwnerAdded(s, pg.id, owner, p);
  }

  lemma UnderOnlyOwnerAdded(s: KcState, projectId: GroupId, owner: UserId, p: (UserId, GroupId))
    requires WellFormed(s)
    requires var r := CreateMetricsUnder(s, projectId, owner);
      p in r.1.members && p !in s.members
    ensures var r := CreateMetricsUnder(s, projectId, owner);
      p.0 == owner && IsChildNamed(r.1, projectId, s.nextId, METRICS)
      && exists i :: 0 <= i < |METRICS_LEAVES| && IsChildNamed(r.1, s.nextId, p.1, METRICS_LEAVES[i])
  {
    var group := CreateChildSpec(s, projectId, METRICS);
    CreateChildMakesChild(s, projectId, METRICS);
    var m := group.0.value;
    FillOnlyOwnerAdded(group.1, m, owner, p);
    ChildStays(group.1, FillMetrics(group.1, m, owner).1, projectId, m);
  }

  lemma FillOnlyOwnerAdded(s: KcState, metricsId: GroupId, owner: UserId, p: (UserId, GroupId))
    requires WellFormed(s)
    requires var r := FillMetrics(s, metricsId, owner);
      p in r.1.members && p !in s.members
    ensures var r := FillMetrics(s, metricsId, owner);
      p.0 == owner
      && exists i :: 0 <= i < |METRICS_LEAVES| && IsChildNamed(r.1, metricsId, p.1, METRICS_LEAVES[i])
  {
    var r := FillMetrics(s, metricsId, owner);
    var created := CreateChildren(s, metricsId, METRICS_LEAVES);
    assert created.0.Success?;
    var ids := created.0.value;
    var added := AddAll(created.1, owner, ids);
    assert r.1 == added.1;
    CreateChildrenCreates(s, metricsId, METRICS_LEAVES);
    AddAllEffect(created.1, owner, ids);
    LeafOfCreated(s, created.1, r.1, metricsId, ids, METRICS_LEAVES, p.1);
  }

  lemma LeafOfCreated(s: KcState, t: KcState, u: KcState, m: GroupId, ids: seq<GroupId>, names: seq<string>, l: GroupId)
    requires CreatedUnder(s, t, m, ids, names) && u.groups == t.groups && l in ids
    ensures exists i :: 0 <= i < |names| && IsChildNamed(u, m, l, names[i])
  {
    var i :| 0 <= i < |ids| && ids[i] == l;
    assert IsChildNamed(u, m, l, names[i]);
  }

  /** After a successful call a second one, for any owner, changes neither
      the group tree nor the memberships. It succeeds exactly when the search
      answer lists the `metrics` child; otherwise it answers the 409 of the
      repeated create. */
  lemma MetricsTwice(s: KcState, unlisted: set<GroupId>, organization: string, project: string, owner: UserId,
                     nextOwner: UserId)
    requires WellFormed(s)
    ensures var first := CreateMetricsGroupsSpec(s, unlisted, organization, project, owner);
      var second := CreateMetricsGroupsSpec(first.1, unlisted, organization, project, nextOwner);
      first.0.Pass? ==>
        && second.1 == first.1
        && (second.0 == Pass <==> MetricsListed(first.1, unlisted, Naming.ProjectGroupName(organization, project)))
        && (second.0 != Pass ==> second.0 == Fail(Api(Conflict)))
  {
    var name := Naming.ProjectGroupName(organization, project);
    var first := CreateMetricsGroupsSpec(s, unlisted, organization, project, owner);
    if first.0.Pass? {
      var pg := TopLevelNamed(s, name).value.id;
      TopLevelNamedStable(s, first.1, name);
      if HasChildNamed(s, pg, METRICS) {
        var c :| c in s.groups[pg].subGroups && c in s.groups && s.groups[c].name == METRICS;
        ChildStays(s, first.1, pg, c);
        assert IsChildNamed(first.1, pg, c, METRICS);
      } else {
        MetricsCreated(s, unlisted, organization, project, owner);
        assert IsChildNamed(first.1, pg, s.nextId, METRICS);
      }
      assert HasChildNamed(first.1, pg, METRICS);
      MetricsPresentNoChange(first.1, unlisted, organization, project, nextOwner);
    }
  }

  /** createKeycloakGroups of src/utils.ts:41-66. */
  method CreateKeycloakGroups(kc: Store, organization: string, project: string, owner: UserId) returns (r: Outcome<MetricsError>)
    requires kc.Valid()
    modifies kc
    ensures kc.Valid()
    ensures (r, kc.State()) == CreateMetricsGroupsSpec(old(kc.State()), kc.unlisted, organization, project, owner)
  {
    var projectName := Naming.ProjectGroupName(organization, project);
    var projectGroup := GetKeycloakGroupByName(kc, projectName);
    if projectGroup.None? {
      return Fail(ParentGroupMissing("undefined"));
    }
    var group := FindNamed(projectGroup.value.subGroups, METRICS);
    if group.None? {
      var created := kc.CreateChildGroup(projectGroup.value.id, METRICS);
      match created {
        case Failure(e) => return Fail(Api(e));
        case Success(metricsId) =>
          ghost var s0 := kc.State();
          var leaves := Keycloak.CreateChildGroups(kc, metricsId, METRICS_LEAVES);
          match leaves {
            case Failure(e) => return Fail(Api(e));
            case Success(ids) =>
              CreateChildrenCreates(s0, metricsId, METRICS_LEAVES);
              var added := Keycloak.AddOwnerToLeaves(kc, owner, ids);
              match added {
                case Fail(e) => return Fail(Api(e));
                case Pass => return Pass;
              }
          }
      }
    }
    return Pass;
  }
}
