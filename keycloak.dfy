/** src/keycloak.ts over the identity store: lookups of the project group and
    of its `grafana` leaves, get-or-create of a child group, stage permissions,
    and creation and deletion of the four leaves. Each operation is a method on
    the store whose effect equals a function on the snapshot; what the source
    promises is proved about those functions. */
module Keycloak {
  import opened Wrappers
  import opened Identity
  import opened Hooks

  const GRAFANA := "grafana"

  /** The four leaves createKeycloakGroups creates, in its order (src/keycloak.ts:145-148). */
  const STAGE_LEAVES := ["prod-RO", "prod-RW", "hprod-RO", "hprod-RW"]

  /** The record getOrCreateChildGroup returns. */
  datatype ChildGroup = ChildGroup(id: GroupId, name: string, subGroups: seq<GroupRep>, subGroupCount: nat)

  /** The errors the functions of src/keycloak.ts throw. */
  datatype GroupError =
    | Api(cause: ApiError)                    // an admin API call answered an error
    | ParentGroupMissing(projectName: string) // "Unable to find parent group for ..."
    | ProjectGroupMissing                     // getSubGroup: no group with the project id
    | GrafanaGroupMissing                     // getSubGroup: no `grafana` child
    | NoSubGroups                             // getSubGroup: `grafana` has no children
    | NoMatchingSubGroup(subGroupName: string)

  /** `l` is the child named `leaf` of the `grafana` child of the top-level group `projectName`. */
  ghost predicate LeafOf(s: KcState, projectName: string, leaf: string, l: GroupId) {
    exists p: GroupId, g: GroupId :: IsRoot(s, p) && s.groups[p].name == projectName && IsChildNamed(s, p, g, GRAFANA)
                      && IsChildNamed(s, g, l, leaf)
  }

  /** `user` belongs to the leaf `leaf` of the project. */
  ghost predicate LeafMember(s: KcState, projectName: string, leaf: string, user: UserId) {
    exists l: GroupId :: LeafOf(s, projectName, leaf, l) && (user, l) in s.members
  }

  /** The leaf is the one reached from the project group that the top-level lookup returns. */
  lemma LeafOfVia(s: KcState, projectName: string, pg: GroupId, g: GroupId, leaf: string, l: GroupId)
    requires WellFormed(s) && TopLevelNamed(s, projectName).Some? && TopLevelNamed(s, projectName).value.id == pg
    requires IsChildNamed(s, pg, g, GRAFANA) && IsChildNamed(s, g, l, leaf)
    ensures LeafOf(s, projectName, leaf, l)
    ensures forall m :: LeafOf(s, projectName, leaf, m) ==> m == l
  {
    forall m | LeafOf(s, projectName, leaf, m)
      ensures m == l
    {
      var p', g' :| IsRoot(s, p') && s.groups[p'].name == projectName && IsChildNamed(s, p', g', GRAFANA) && IsChildNamed(s, g', m, leaf);
      assert p' == pg;
      ChildNamedUnique(s, pg, g, g');
      ChildNamedUnique(s, g, l, m);
    }
  }

  // ---------------------------------------------------------------------------
  // getProjectGroupByName (src/keycloak.ts:22-25)

  method GetProjectGroupByName(kc: Store, name: string) returns (r: Option<GroupRep>)
    requires kc.Valid()
    ensures r == SearchNamed(kc.State(), kc.unlisted, name)
  {
    var groupSearch := kc.Find(name);
    r := FindNamed(groupSearch, name);
  }

  // ---------------------------------------------------------------------------
  // getOrCreateChildGroup (src/keycloak.ts:27-57)

  /** The record returned for a group that already exists. */
  function Described(g: GroupRep, name: string): ChildGroup {
    ChildGroup(g.id, name, g.subGroups, |g.subGroups|)
  }

  /** The caller-supplied list does not settle the answer. */
  predicate NoSuppliedMatch(subGroups: seq<GroupRep>, name: string) {
    |subGroups| == 0 || FindNamed(subGroups, name).None?
  }

  function GetOrCreateSpec(s: KcState, parentId: GroupId, name: string, subGroups: seq<GroupRep>): (r: (Result<ChildGroup, ApiError>, KcState))
    requires WellFormed(s)
    ensures WellFormed(r.1) && Grows(s, r.1) && r.1.members == s.members && r.1.nextId >= s.nextId
    ensures !NoSuppliedMatch(subGroups, name) ==> r == (Success(Described(FindNamed(subGroups, name).value, name)), s)
    ensures NoSuppliedMatch(subGroups, name) && parentId !in s.groups ==> r == (Failure(NotFound), s)
    ensures NoSuppliedMatch(subGroups, name) && parentId in s.groups ==>
      && r.0.Success? && r.0.value.name == name && IsChildNamed(r.1, parentId, r.0.value.id, name)
      && (HasChildNamed(s, parentId, name) ==> r.1 == s && IsChildNamed(s, parentId, r.0.value.id, name))
      && (!HasChildNamed(s, parentId, name) ==> r.1 == Attached(s, parentId, name) && r.0.value == ChildGroup(s.nextId, name, [], 0))
  {
    if !NoSuppliedMatch(subGroups, name) then (Success(Described(FindNamed(subGroups, name).value, name)), s)
    else if parentId !in s.groups then (Failure(NotFound), s)
    else
      ChildLookup(s, parentId, name);
      var existing := FindNamed(RepOf(s, parentId).subGroups, name);
      if existing.Some? then (Success(Described(existing.value, name)), s)
      else
        var created := CreateChildSpec(s, parentId, name);
        match created.0
        case Success(id) => (Success(ChildGroup(id, name, [], 0)), created.1)
        case Failure(e) => (Failure(e), created.1)
  }

  method GetOrCreateChildGroup(kc: Store, parentId: GroupId, name: string, subGroups: seq<GroupRep>) returns (r: Result<ChildGroup, ApiError>)
    requires kc.Valid()
    modifies kc
    ensures kc.Valid()
    ensures (r, kc.State()) == GetOrCreateSpec(old(kc.State()), parentId, name, subGroups)
  {
    if |subGroups| > 0 {
      var matchingGroup := FindNamed(subGroups, name);
      if matchingGroup.Some? {
        return Success(Described(matchingGroup.value, name));
      }
    }
    var existingGroup := kc.FindOne(parentId);
    var matchingGroup := if existingGroup.Some? then FindNamed(existingGroup.value.subGroups, name) else None;
    if matchingGroup.None? {
      var newGroup := kc.CreateChildGroup(parentId, name);
      if newGroup.Failure? {
        return Failure(newGroup.error);
      }
      return Success(ChildGroup(newGroup.value, name, [], 0));
    }
    return Success(Described(matchingGroup.value, name));
  }

  /** A second call with the same arguments returns the same group and creates nothing. */
  lemma GetOrCreateIdempotent(s: KcState, parentId: GroupId, name: string)
    requires WellFormed(s)
    ensures var first := GetOrCreateSpec(s, parentId, name, []);
      GetOrCreateSpec(first.1, parentId, name, []) == first
  {
    var first := GetOrCreateSpec(s, parentId, name, []);
    if parentId in s.groups && !HasChildNamed(s, parentId, name) {
      var t := first.1;
      var id := s.nextId;
      assert IsChildNamed(t, parentId, id, name);
      assert HasChildNamed(t, parentId, name);
      var second := GetOrCreateSpec(t, parentId, name, []);
      ChildNamedUnique(t, parentId, second.0.value.id, id);
      ChildLookup(t, parentId, name);
      assert |RepOf(t, id).subGroups| == 0;
    }
  }

  // ---------------------------------------------------------------------------
  // getSubGroup (src/keycloak.ts:59-68)

  function GetSubGroupSpec(s: KcState, projectId: GroupId, subGroupName: string): (r: Result<GroupRep, GroupError>)
    requires WellFormed(s)
    ensures r.Success? ==> exists g :: IsChildNamed(s, projectId, g, GRAFANA) && IsChildNamed(s, g, r.value.id, subGroupName)
                                       && r.value == RepOf(s, r.value.id)
  {
    if projectId !in s.groups then Failure(ProjectGroupMissing)
    else
      ChildLookup(s, projectId, GRAFANA);
      match FindNamed(RepOf(s, projectId).subGroups, GRAFANA)
      case None => Failure(GrafanaGroupMissing)
      case Some(grafana) =>
        if |grafana.subGroups| == 0 then Failure(NoSubGroups)
        else
          ChildLookup(s, grafana.id, subGroupName);
          match FindNamed(grafana.subGroups, subGroupName)
          case None => Failure(NoMatchingSubGroup(subGroupName))
          case Some(subGroup) =>
            assert IsChildNamed(s, projectId, grafana.id, GRAFANA);
            assert IsChildNamed(s, grafana.id, subGroup.id, subGroupName);
            Success(subGroup)
  }

  /** getSubGroup fails in exactly four distinct ways, each with its own cause. */
  lemma GetSubGroupCases(s: KcState, projectId: GroupId, subGroupName: string)
    requires WellFormed(s)
    ensures var r := GetSubGroupSpec(s, projectId, subGroupName);
      && (r.Failure? ==> r.error in {ProjectGroupMissing, GrafanaGroupMissing, NoSubGroups, NoMatchingSubGroup(subGroupName)})
      && (r == Failure(ProjectGroupMissing) <==> projectId !in s.groups)
      && (r == Failure(GrafanaGroupMissing) <==> projectId in s.groups && !HasChildNamed(s, projectId, GRAFANA))
      && (r == Failure(NoSubGroups) <==> exists g :: IsChildNamed(s, projectId, g, GRAFANA) && s.groups[g].subGroups == [])
      && (r == Failure(NoMatchingSubGroup(subGroupName)) <==>
            exists g :: IsChildNamed(s, projectId, g, GRAFANA) && s.groups[g].subGroups != [] && !HasChildNamed(s, g, subGroupName))
  {
    if projectId in s.groups {
      ChildLookup(s, projectId, GRAFANA);
      var f := FindNamed(RepOf(s, projectId).subGroups, GRAFANA);
      if f.Some? {
        var g := f.value.id;
        GrafanaChildUnique(s, projectId, g);
        ChildLookup(s, g, subGroupName);
        assert |f.value.subGroups| == |s.groups[g].subGroups|;
        assert IsChildNamed(s, projectId, g, GRAFANA);
      } else {
        assert forall g :: !IsChildNamed(s, projectId, g, GRAFANA);
      }
    }
  }

  lemma GrafanaChildUnique(s: KcState, projectId: GroupId, g: GroupId)
    requires WellFormed(s) && IsChildNamed(s, projectId, g, GRAFANA)
    ensures forall h :: IsChildNamed(s, projectId, h, GRAFANA) ==> h == g
  {
    forall h | IsChildNamed(s, projectId, h, GRAFANA)
      ensures h == g
    {
      ChildNamedUnique(s, projectId, h, g);
    }
  }

  method GetSubGroup(kc: Store, projectId: GroupId, subGroupName: string) returns (r: Result<GroupRep, GroupError>)
    requires kc.Valid()
    ensures r == GetSubGroupSpec(kc.State(), projectId, subGroupName)
  {
    var projectGroup := kc.FindOne(projectId);
    if projectGroup.None? {
      return Failure(ProjectGroupMissing);
    }
    var grafanaGroup := FindNamed(projectGroup.value.subGroups, GRAFANA);
    if grafanaGroup.None? {
      return Failure(GrafanaGroupMissing);
    }
    if |grafanaGroup.value.subGroups| == 0 {
      return Failure(NoSubGroups);
    }
    var subGroup := FindNamed(grafanaGroup.value.subGroups, subGroupName);
    if subGroup.None? {
      return Failure(NoMatchingSubGroup(subGroupName));
    }
    return Success(subGroup.value);
  }

  // ---------------------------------------------------------------------------
  // manageKeycloakPermission (src/keycloak.ts:70-131)

  /** The leaves holding a stage's permissions: `prod` has its own, every other
      stage shares the hors-prod ones. */
  function RwLeaf(stage: string): string {
    if stage == "prod" then "prod-RW" else "hprod-RW"
  }

  function RoLeaf(stage: string): string {
    if stage == "prod" then "prod-RO" else "hprod-RO"
  }

  /** The reply of the catch branch: KO, "Failed" and the error. */
  function Failed(e: GroupError): Reply<GroupError> {
    Reply(Status(KO, Some("Failed")), Some(e))
  }

  const Succeeded: Reply<GroupError> := Reply(Status(OK, None), None)

  /** Two getOrCreateChildGroup calls under one parent, in order; on success
      the ids of the children with the two names. */
  function LeavesSpec(s: KcState, parentId: GroupId, first: string, second: string): (r: (Result<(GroupId, GroupId), ApiError>, KcState))
    requires WellFormed(s)
    ensures WellFormed(r.1) && Grows(s, r.1) && r.1.members == s.members
    ensures r.0.Success? ==> IsChildNamed(r.1, parentId, r.0.value.0, first) && IsChildNamed(r.1, parentId, r.0.value.1, second)
  {
    var a := GetOrCreateSpec(s, parentId, first, []);
    if a.0.Failure? then (Failure(a.0.error), a.1)
    else
      var b := GetOrCreateSpec(a.1, parentId, second, []);
      GrowsTrans(s, a.1, b.1);
      if b.0.Failure? then (Failure(b.0.error), b.1)
      else
        assert NoSuppliedMatch([], first) && NoSuppliedMatch([], second);
        ChildStays(a.1, b.1, parentId, a.0.value.id);
        (Success((a.0.value.id, b.0.value.id)), b.1)
  }

  /** Both calls succeed exactly when the parent exists; a missing parent
      changes nothing. */
  lemma LeavesCases(s: KcState, parentId: GroupId, first: string, second: string)
    requires WellFormed(s)
    ensures var r := LeavesSpec(s, parentId, first, second);
      && (parentId !in s.groups ==> r == (Failure(NotFound), s))
      && (parentId in s.groups ==> r.0.Success?)
  {
  }

  /** The two addToGroup calls of the flagged permissions, rw before ro. */
  function AddFlagged(s: KcState, user: UserId, rw: GroupId, ro: GroupId, permissions: Permissions): (r: (Outcome<ApiError>, KcState))
    requires WellFormed(s)
    ensures WellFormed(r.1) && Grows(s, r.1) && r.1.groups == s.groups && s.members <= r.1.members
    ensures r.0.Pass? <==> (permissions.rw ==> user in s.users && rw in s.groups) && (permissions.ro ==> user in s.users && ro in s.groups)
    ensures r.0.Pass? && permissions.rw ==> (user, rw) in r.1.members
    ensures r.0.Pass? && permissions.ro ==> (user, ro) in r.1.members
    ensures forall p :: p in r.1.members && p !in s.members ==> p.0 == user && ((permissions.rw && p.1 == rw) || (permissions.ro && p.1 == ro))
  {
    var c := if permissions.rw then AddToGroupSpec(s, user, rw) else (Pass, s);
    if c.0.Fail? then c
    else
      var d := if permissions.ro then AddToGroupSpec(c.1, user, ro) else (Pass, c.1);
      GrowsTrans(s, c.1, d.1);
      d
  }

  /** Under the `grafana` group: get or create both leaves of the stage (RW
      first for prod, RO first otherwise), then add the user to the RW leaf when
      `rw` is set and to the RO leaf when `ro` is set. A cleared flag only logs:
      nothing is ever removed. On success the user belongs to each flagged leaf,
      and every membership added is the user's, in a flagged leaf. */
  function GrantSpec(s: KcState, grafanaId: GroupId, user: UserId, permissions: Permissions, stage: string): (r: (Outcome<ApiError>, KcState))
    requires WellFormed(s)
    ensures WellFormed(r.1) && Grows(s, r.1) && s.members <= r.1.members
    ensures r.0.Pass? && permissions.rw ==> exists l: GroupId :: IsChildNamed(r.1, grafanaId, l, RwLeaf(stage)) && (user, l) in r.1.members
    ensures r.0.Pass? && permissions.ro ==> exists l: GroupId :: IsChildNamed(r.1, grafanaId, l, RoLeaf(stage)) && (user, l) in r.1.members
    ensures forall p :: p in r.1.members && p !in s.members ==>
      p.0 == user && ((permissions.rw && IsChildNamed(r.1, grafanaId, p.1, RwLeaf(stage)))
                      || (permissions.ro && IsChildNamed(r.1, grafanaId, p.1, RoLeaf(stage))))
  {
    var leaves := if stage == "prod" then LeavesSpec(s, grafanaId, "prod-RW", "prod-RO")
                  else LeavesSpec(s, grafanaId, "hprod-RO", "hprod-RW");
    match leaves.0
    case Failure(e) => (Fail(e), leaves.1)
    case Success(ids) =>
      var rw := if stage == "prod" then ids.0 else ids.1;
      var ro := if stage == "prod" then ids.1 else ids.0;
      assert IsChildNamed(leaves.1, grafanaId, rw, RwLeaf(stage)) && IsChildNamed(leaves.1, grafanaId, ro, RoLeaf(stage));
      var added := AddFlagged(leaves.1, user, rw, ro, permissions);
      GrowsTrans(s, leaves.1, added.1);
      added
  }

  /** The grant step succeeds exactly when the grafana group exists and the
      user is known or nothing is to be added. */
  lemma GrantSucceeds(s: KcState, grafanaId: GroupId, user: UserId, permissions: Permissions, stage: string)
    requires WellFormed(s)
    ensures GrantSpec(s, grafanaId, user, permissions, stage).0.Pass? <==>
      grafanaId in s.groups && (user in s.users || (!permissions.rw && !permissions.ro))
  {
    if stage == "prod" {
      LeavesCases(s, grafanaId, "prod-RW", "prod-RO");
    } else {
      LeavesCases(s, grafanaId, "hprod-RO", "hprod-RW");
    }
  }

  /** manageKeycloakPermission: find the project group, get or create its
      `grafana` child, then the grant step. Every error ends in the catch
      branch's KO reply; the realm only grows. The reply is OK exactly when the
      project group exists and the user is known (or no flag is set). On an OK reply the user belongs
      to the project's leaf of each flagged permission, and every membership
      added is the user's, in such a leaf. */
  function ManagePermissionSpec(s: KcState, projectName: string, user: UserId, permissions: Permissions, stage: string): (r: (Reply<GroupError>, KcState))
    requires WellFormed(s)
    ensures WellFormed(r.1) && Grows(s, r.1) && s.members <= r.1.members
    ensures r.0 == Succeeded || exists e :: r.0 == Failed(e)
    ensures TopLevelNamed(s, projectName).None? ==> r == (Failed(ParentGroupMissing(projectName)), s)
    ensures r.0 == Succeeded <==> TopLevelNamed(s, projectName).Some? && (user in s.users || (!permissions.rw && !permissions.ro))
    ensures r.0 == Succeeded && permissions.rw ==> LeafMember(r.1, projectName, RwLeaf(stage), user)
    ensures r.0 == Succeeded && permissions.ro ==> LeafMember(r.1, projectName, RoLeaf(stage), user)
    ensures forall p :: p in r.1.members && p !in s.members ==>
      p.0 == user && ((permissions.rw && LeafOf(r.1, projectName, RwLeaf(stage), p.1))
                      || (permissions.ro && LeafOf(r.1, projectName, RoLeaf(stage), p.1)))
  {
    match TopLevelNamed(s, projectName)
    case None => (Failed(ParentGroupMissing(projectName)), s)
    case Some(projectGroup) =>
      var grafana := GetOrCreateSpec(s, projectGroup.id, GRAFANA, []);
      match grafana.0
      case Failure(e) => (Failed(Api(e)), grafana.1)
      case Success(grafanaGroup) =>
        var g := grafanaGroup.id;
        var grant := GrantSpec(grafana.1, g, user, permissions, stage);
        assert NoSuppliedMatch([], GRAFANA);
        GrantSucceeds(grafana.1, g, user, permissions, stage);
        GrowsTrans(s, grafana.1, grant.1);
        ChildStays(grafana.1, grant.1, projectGroup.id, g);
        assert IsRoot(grant.1, projectGroup.id) && IsChildNamed(grant.1, projectGroup.id, g, GRAFANA);
        assert forall l :: IsChildNamed(grant.1, g, l, RwLeaf(stage)) ==> LeafOf(grant.1, projectName, RwLeaf(stage), l);
        assert forall l :: IsChildNamed(grant.1, g, l, RoLeaf(stage)) ==> LeafOf(grant.1, projectName, RoLeaf(stage), l);
        if grant.0.Fail? then (Failed(Api(grant.0.error)), grant.1)
        else (Succeeded, grant.1)
  }

  method GetOrCreateLeaves(kc: Store, parentId: GroupId, first: string, second: string) returns (r: Result<(GroupId, GroupId), ApiError>)
    requires kc.Valid()
    modifies kc
    ensures kc.Valid()
    ensures (r, kc.State()) == LeavesSpec(old(kc.State()), parentId, first, second)
  {
    var a := GetOrCreateChildGroup(kc, parentId, first, []);
    if a.Failure? {
      return Failure(a.error);
    }
    var b := GetOrCreateChildGroup(kc, parentId, second, []);
    if b.Failure? {
      return Failure(b.error);
    }
    return Success((a.value.id, b.value.id));
  }

  method AddFlaggedMembers(kc: Store, user: UserId, rw: GroupId, ro: GroupId, permissions: Permissions) returns (r: Outcome<ApiError>)
    requires kc.Valid()
    modifies kc
    ensures kc.Valid()
    ensures (r, kc.State()) == AddFlagged(old(kc.State()), user, rw, ro, permissions)
  {
    if permissions.rw {
      r := kc.AddToGroup(user, rw);
      if r.Fail? {
        return;
      }
    }
    if permissions.ro {
      r := kc.AddToGroup(user, ro);
      return;
    }
    return Pass;
  }

  /** The grant step of manageKeycloakPermission (src/keycloak.ts:85-115). */
  method Grant(kc: Store, grafanaId: GroupId, user: UserId, permissions: Permissions, stage: string) returns (r: Outcome<ApiError>)
    requires kc.Valid()
    modifies kc
    ensures kc.Valid()
    ensures (r, kc.State()) == GrantSpec(old(kc.State()), grafanaId, user, permissions, stage)
  {
    var leaves;
    if stage == "prod" {
      leaves := GetOrCreateLeaves(kc, grafanaId, "prod-RW", "prod-RO");
    } else {
      leaves := GetOrCreateLeaves(kc, grafanaId, "hprod-RO", "hprod-RW");
    }
    match leaves {
      case Failure(e) => return Fail(e);
      case Success(ids) =>
        var rwId := if stage == "prod" then ids.0 else ids.1;
        var roId := if stage == "prod" then ids.1 else ids.0;
        r := AddFlaggedMembers(kc, user, rwId, roId, permissions);
    }
  }

  method ManageKeycloakPermission(kc: Store, projectName: string, user: UserId, permissions: Permissions, stage: string)
    returns (r: Reply<GroupError>)
    requires kc.Valid()
    modifies kc
    ensures kc.Valid()
    ensures (r, kc.State()) == ManagePermissionSpec(old(kc.State()), projectName, user, permissions, stage)
  {
    var projectGroup := GetProjectGroupByName(kc, projectName);
    if projectGroup.None? {
      return Failed(ParentGroupMissing(projectName));
    }
    var grafanaGroup := GetOrCreateChildGroup(kc, projectGroup.value.id, GRAFANA, []);
    match grafanaGroup {
      case Failure(e) => return Failed(Api(e));
      case Success(g) =>
        var granted := Grant(kc, g.id, user, permissions, stage);
        match granted {
          case Fail(e) => return Failed(Api(e));
          case Pass => return Succeeded;
        }
    }
  }

  // ---------------------------------------------------------------------------
  // createKeycloakGroups (src/keycloak.ts:133-154)

  /** Find the project group, get or create its `grafana` child, create the
      four stage leaves under it (unconditionally, in the order of
      STAGE_LEAVES) and add the owner to each. Errors propagate to the caller.
      On success each leaf is a new group of the project and holds the owner. */
  function CreateKeycloakGroupsSpec(s: KcState, projectName: string, owner: UserId): (r: (Outcome<GroupError>, KcState))
    requires WellFormed(s)
    ensures WellFormed(r.1) && Grows(s, r.1) && s.members <= r.1.members
    ensures TopLevelNamed(s, projectName).None? ==> r == (Fail(ParentGroupMissing(projectName)), s)
  {
    match TopLevelNamed(s, projectName)
    case None => (Fail(ParentGroupMissing(projectName)), s)
    case Some(projectGroup) =>
      var grafana := GetOrCreateSpec(s, projectGroup.id, GRAFANA, []);
      match grafana.0
      case Failure(e) => (Fail(Api(e)), grafana.1)
      case Success(subGroup) =>
        var created := CreateChildren(grafana.1, subGroup.id, STAGE_LEAVES);
        GrowsTrans(s, grafana.1, created.1);
        CreateChildrenCreates(grafana.1, subGroup.id, STAGE_LEAVES);
        match created.0
        case Failure(e) => (Fail(Api(e)), created.1)
        case Success(ids) =>
          var added := AddAll(created.1, owner, ids);
          GrowsTrans(s, created.1, added.1);
          match added.0
          case Fail(e) => (Fail(Api(e)), added.1)
          case Pass => (Pass, added.1)
  }

  /** The project has in `u` a leaf `leaf`, absent from `s0`, that holds `owner`. */
  ghost predicate HoldsNewLeaf(s0: KcState, u: KcState, projectName: string, leaf: string, owner: UserId) {
    exists l: GroupId :: l !in s0.groups && LeafOf(u, projectName, leaf, l) && (owner, l) in u.members
  }

  ghost predicate HoldsNewLeaves(s0: KcState, u: KcState, projectName: string, names: seq<string>, owner: UserId) {
    forall i :: 0 <= i < |names| ==> HoldsNewLeaf(s0, u, projectName, names[i], owner)
  }

  /** Groups created under the `grafana` child of the project and holding the
      owner are new leaves of the project that hold the owner. */
  lemma NewLeavesHeld(s0: KcState, s: KcState, t: KcState, u: KcState, projectName: string, p: GroupId, g: GroupId,
                      ids: seq<GroupId>, names: seq<string>, owner: UserId)
    requires s0.groups.Keys <= s.groups.Keys
    requires IsRoot(u, p) && u.groups[p].name == projectName && IsChildNamed(u, p, g, GRAFANA)
    requires CreatedUnder(s, t, g, ids, names) && u.groups == t.groups
    requires MemberOfAll(u, owner, ids)
    ensures HoldsNewLeaves(s0, u, projectName, names, owner)
  {
    forall i | 0 <= i < |names|
      ensures HoldsNewLeaf(s0, u, projectName, names[i], owner)
    {
      assert IsChildNamed(u, g, ids[i], names[i]);
      assert LeafOf(u, projectName, names[i], ids[i]);
      assert ids[i] !in s0.groups && (owner, ids[i]) in u.members;
    }
  }

  method CreateKeycloakGroups(kc: Store, projectName: string, owner: UserId) returns (r: Outcome<GroupError>)
    requires kc.Valid()
    modifies kc
    ensures kc.Valid()
    ensures (r, kc.State()) == CreateKeycloakGroupsSpec(old(kc.State()), projectName, owner)
  {
    var projectGroup := GetProjectGroupByName(kc, projectName);
    if projectGroup.None? {
      return Fail(ParentGroupMissing(projectName));
    }
    var subGroup := GetOrCreateChildGroup(kc, projectGroup.value.id, GRAFANA, []);
    match subGroup {
      case Failure(e) => return Fail(Api(e));
      case Success(g) =>
        ghost var s0 := kc.State();
        var created := CreateChildGroups(kc, g.id, STAGE_LEAVES);
        match created {
          case Failure(e) => return Fail(Api(e));
          case Success(ids) =>
            CreateChildrenCreates(s0, g.id, STAGE_LEAVES);
            var added := AddOwnerToLeaves(kc, owner, ids);
            match added {
              case Fail(e) => return Fail(Api(e));
              case Pass => return Pass;
            }
        }
    }
  }

  /** The createChildGroup calls of src/keycloak.ts:145-148, one name after the
      other, stopping at the first error. */
  method CreateChildGroups(kc: Store, parentId: GroupId, names: seq<string>) returns (r: Result<seq<GroupId>, ApiError>)
    requires kc.Valid()
    modifies kc
    ensures kc.Valid()
    ensures (r, kc.State()) == CreateChildren(old(kc.State()), parentId, names)
    decreases |names|
  {
    if names == [] {
      return Success([]);
    }
    var first := kc.CreateChildGroup(parentId, names[0]);
    if first.Failure? {
      return Failure(first.error);
    }
    var rest := CreateChildGroups(kc, parentId, names[1..]);
    if rest.Failure? {
      return Failure(rest.error);
    }
    return Success([first.value] + rest.value);
  }

  /** The four addToGroup calls of src/keycloak.ts:150-153, in order. */
  method AddOwnerToLeaves(kc: Store, owner: UserId, ids: seq<GroupId>) returns (r: Outcome<ApiError>)
    requires kc.Valid() && |ids| == 4
    modifies kc
    ensures kc.Valid()
    ensures (r, kc.State()) == AddAll(old(kc.State()), owner, ids)
  {
    AddAllFour(kc.State(), owner, ids);
    r := kc.AddToGroup(owner, ids[0]);
    if r.Fail? {
      return;
    }
    r := kc.AddToGroup(owner, ids[1]);
    if r.Fail? {
      return;
    }
    r := kc.AddToGroup(owner, ids[2]);
    if r.Fail? {
      return;
    }
    r := kc.AddToGroup(owner, ids[3]);
  }

  /** After a successful createKeycloakGroups each of the four leaves is a new
      group of the project that holds the owner. */
  lemma CreateGroupsEffect(s: KcState, projectName: string, owner: UserId)
    requires WellFormed(s)
    ensures var r := CreateKeycloakGroupsSpec(s, projectName, owner);
      r.0.Pass? ==> HoldsNewLeaves(s, r.1, projectName, STAGE_LEAVES, owner)
  {
    var r := CreateKeycloakGroupsSpec(s, projectName, owner);
    if r.0.Pass? {
      var projectGroup := TopLevelNamed(s, projectName).value;
      var grafana := GetOrCreateSpec(s, projectGroup.id, GRAFANA, []);
      var subGroup := grafana.0.value;
      var created := CreateChildren(grafana.1, subGroup.id, STAGE_LEAVES);
      CreateChildrenCreates(grafana.1, subGroup.id, STAGE_LEAVES);
      var ids := created.0.value;
      var added := AddAll(created.1, owner, ids);
      AddAllEffect(created.1, owner, ids);
      assert added.0.Pass? && r.1 == added.1;
      assert NoSuppliedMatch([], GRAFANA);
      ChildStays(grafana.1, r.1, projectGroup.id, subGroup.id);
      NewLeavesHeld(s, grafana.1, created.1, r.1, projectName, projectGroup.id, subGroup.id, ids, STAGE_LEAVES, owner);
    }
  }

  /** Once the project has its `prod-RO` leaf, createKeycloakGroups answers
      Conflict and changes nothing: a second initialisation of a project fails. */
  lemma CreateGroupsConflictsOnceCreated(s: KcState, projectName: string, owner: UserId, l: GroupId)
    requires WellFormed(s) && LeafOf(s, projectName, "prod-RO", l)
    ensures CreateKeycloakGroupsSpec(s, projectName, owner) == (Fail(Api(Conflict)), s)
  {
    var p, g :| IsRoot(s, p) && s.groups[p].name == projectName && IsChildNamed(s, p, g, GRAFANA) && IsChildNamed(s, g, l, "prod-RO");
    var pg := TopLevelNamed(s, projectName);
    assert pg.value.id == p;
    assert HasChildNamed(s, p, GRAFANA);
    var grafana := GetOrCreateSpec(s, p, GRAFANA, []);
    assert NoSuppliedMatch([], GRAFANA);
    ChildNamedUnique(s, p, grafana.0.value.id, g);
    assert HasChildNamed(s, g, STAGE_LEAVES[0]);
    assert CreateChildren(s, g, STAGE_LEAVES) == (Failure(Conflict), s);
  }

  /** createKeycloakGroups run twice on a project: the second run fails with
      Conflict and leaves the realm as the first run left it. */
  lemma CreateGroupsTwice(s: KcState, projectName: string, owner: UserId, nextOwner: UserId)
    requires WellFormed(s)
    ensures var first := CreateKeycloakGroupsSpec(s, projectName, owner);
      first.0.Pass? ==> CreateKeycloakGroupsSpec(first.1, projectName, nextOwner) == (Fail(Api(Conflict)), first.1)
  {
    var first := CreateKeycloakGroupsSpec(s, projectName, owner);
    if first.0.Pass? {
      assert STAGE_LEAVES[0] == "prod-RO";
      CreateGroupsEffect(s, projectName, owner);
      assert HoldsNewLeaf(s, first.1, projectName, STAGE_LEAVES[0], owner);
      var l: GroupId :| l !in s.groups && LeafOf(first.1, projectName, STAGE_LEAVES[0], l) && (owner, l) in first.1.members;
      CreateGroupsConflictsOnceCreated(first.1, projectName, nextOwner, l);
    }
  }

  // ---------------------------------------------------------------------------
  // deleteKeycloakGroups (src/keycloak.ts:156-185)

  /** One branch of deleteKeycloakGroups: look up the leaf `first`, delete it,
      look up the leaf `second`, then delete `second` when `deleteSecond` holds
      and `first` once more otherwise (the hors-prod branch passes the id of
      its RO leaf to the second deletion as well). The deletions are not
      awaited, so their errors never reach the caller. */
  function DeletePair(t: KcState, projectId: GroupId, first: string, second: string, deleteSecond: bool): (r: (Outcome<GroupError>, KcState))
    requires WellFormed(t)
    ensures WellFormed(r.1) && r.1.users == t.users && r.1.groups.Keys <= t.groups.Keys
  {
    match GetSubGroupSpec(t, projectId, first)
    case Failure(e) => (Fail(e), t)
    case Success(x) =>
      var afterFirst := DelSpec(t, x.id).1;
      match GetSubGroupSpec(afterFirst, projectId, second)
      case Failure(e) => (Fail(e), afterFirst)
      case Success(y) => (Pass, DelSpec(afterFirst, if deleteSecond then y.id else x.id).1)
  }

  /** getSubGroup below a project whose `grafana` child is `g` finds exactly
      the child of `g` of that name, and fails only for want of one. */
  lemma LookupUnder(t: KcState, projectId: GroupId, g: GroupId, name: string)
    requires WellFormed(t) && IsChildNamed(t, projectId, g, GRAFANA)
    ensures var r := GetSubGroupSpec(t, projectId, name);
      && (r.Success? <==> HasChildNamed(t, g, name))
      && (r.Success? ==> IsChildNamed(t, g, r.value.id, name) && forall l :: IsChildNamed(t, g, l, name) ==> l == r.value.id)
      && (r.Failure? ==> r.error in {NoSubGroups, NoMatchingSubGroup(name)})
  {
    GrafanaChildUnique(t, projectId, g);
    GetSubGroupCases(t, projectId, name);
    var r := GetSubGroupSpec(t, projectId, name);
    if r.Success? {
      assert IsChildNamed(t, g, r.value.id, name);
      forall l | IsChildNamed(t, g, l, name)
        ensures l == r.value.id
      {
        ChildNamedUnique(t, g, l, r.value.id);
      }
    }
  }

  /** Deleting a leaf `x` of the `grafana` child `g` removes that one group and
      keeps `g` and its other children. */
  lemma DeleteLeaf(t: KcState, projectId: GroupId, g: GroupId, x: GroupId, name: string, other: string)
    requires WellFormed(t) && IsChildNamed(t, projectId, g, GRAFANA) && IsChildNamed(t, g, x, name) && other != name
    ensures var u := DelSpec(t, x).1;
      && u.groups.Keys == t.groups.Keys - {x}
      && IsChildNamed(u, projectId, g, GRAFANA)
      && (forall l :: IsChildNamed(u, g, l, other) <==> IsChildNamed(t, g, l, other))
      && (HasChildNamed(u, g, other) <==> HasChildNamed(t, g, other))
  {
    var u := DelSpec(t, x).1;
    DelChildFacts(t, x);
    assert ChildrenOk(t, projectId) && ChildrenOk(t, g);
    if HasChildNamed(t, g, other) {
      var c :| c in t.groups[g].subGroups && c in t.groups && t.groups[c].name == other;
      assert IsChildNamed(t, g, c, other);
      assert IsChildNamed(u, g, c, other);
    }
    if HasChildNamed(u, g, other) {
      var c :| c in u.groups[g].subGroups && c in u.groups && u.groups[c].name == other;
      assert IsChildNamed(u, g, c, other);
    }
  }

  /** How a branch ends, given the project's `grafana` child `g`: it succeeds
      exactly when both leaves exist, fails only for a missing leaf, and
      changes nothing when the leaf `first` is missing. */
  lemma DeletePairOutcome(t: KcState, projectId: GroupId, g: GroupId, first: string, second: string, deleteSecond: bool)
    requires WellFormed(t) && IsChildNamed(t, projectId, g, GRAFANA) && first != second
    ensures var r := DeletePair(t, projectId, first, second, deleteSecond);
      && (r.0.Pass? <==> HasChildNamed(t, g, first) && HasChildNamed(t, g, second))
      && (r.0.Fail? ==> r.0.error in {NoSubGroups, NoMatchingSubGroup(first), NoMatchingSubGroup(second)})
      && (!HasChildNamed(t, g, first) ==> r.1 == t)
  {
    LookupUnder(t, projectId, g, first);
    match GetSubGroupSpec(t, projectId, first)
    case Failure(e) =>
    case Success(x) =>
      DeleteLeaf(t, projectId, g, x.id, first, second);
      LookupUnder(DelSpec(t, x.id).1, projectId, g, second);
  }

  /** A branch removes only the leaf `first` and, when `deleteSecond`, the leaf
      `second` of the project's `grafana` child `g`. */
  lemma DeletePairOnlyLeaves(t: KcState, projectId: GroupId, g: GroupId, first: string, second: string, deleteSecond: bool, l: GroupId)
    requires WellFormed(t) && IsChildNamed(t, projectId, g, GRAFANA) && first != second
    requires l in t.groups && l !in DeletePair(t, projectId, first, second, deleteSecond).1.groups
    ensures IsChildNamed(t, g, l, first) || (deleteSecond && IsChildNamed(t, g, l, second))
  {
    LookupUnder(t, projectId, g, first);
    match GetSubGroupSpec(t, projectId, first)
    case Failure(e) =>
    case Success(x) =>
      var afterFirst := DelSpec(t, x.id).1;
      DeleteLeaf(t, projectId, g, x.id, first, second);
      LookupUnder(afterFirst, projectId, g, second);
      if l != x.id {
        assert l in afterFirst.groups;
        match GetSubGroupSpec(afterFirst, projectId, second)
        case Failure(e) =>
        case Success(y) =>
          if deleteSecond {
            assert l == y.id;
          }
      }
  }

  /** A branch keeps the project group and its `grafana` child. */
  lemma DeletePairKeepsGrafana(t: KcState, projectId: GroupId, g: GroupId, first: string, second: string, deleteSecond: bool)
    requires WellFormed(t) && IsChildNamed(t, projectId, g, GRAFANA) && first != second
    ensures var r := DeletePair(t, projectId, first, second, deleteSecond);
      && IsChildNamed(r.1, projectId, g, GRAFANA)
      && r.1.groups[projectId].name == t.groups[projectId].name
      && r.1.groups[projectId].parentId == t.groups[projectId].parentId
  {
    LookupUnder(t, projectId, g, first);
    match GetSubGroupSpec(t, projectId, first)
    case Failure(e) =>
    case Success(x) =>
      var afterFirst := DelSpec(t, x.id).1;
      DeleteLeaf(t, projectId, g, x.id, first, second);
      LookupUnder(afterFirst, projectId, g, second);
      match GetSubGroupSpec(afterFirst, projectId, second)
      case Failure(e) =>
      case Success(y) =>
        if deleteSecond {
          DeleteLeaf(afterFirst, projectId, g, y.id, second, first);
        } else {
          assert DelSpec(afterFirst, x.id).1 == afterFirst;
        }
  }

  /** What a branch removes, given the project's `grafana` child `g`: the leaf
      `first` whenever it exists, even when the lookup of `second` then fails;
      after a success with `deleteSecond` the leaf `second` too. Without
      `deleteSecond` the leaf `second` survives. */
  lemma DeletePairRemoves(t: KcState, projectId: GroupId, g: GroupId, first: string, second: string, deleteSecond: bool)
    requires WellFormed(t) && IsChildNamed(t, projectId, g, GRAFANA) && first != second
    ensures var r := DeletePair(t, projectId, first, second, deleteSecond);
      forall l :: IsChildNamed(t, g, l, first) ==> l !in r.1.groups
    ensures var r := DeletePair(t, projectId, first, second, deleteSecond);
      r.0.Pass? && deleteSecond ==> forall l :: IsChildNamed(t, g, l, second) ==> l !in r.1.groups
    ensures var r := DeletePair(t, projectId, first, second, deleteSecond);
      !deleteSecond ==> forall l :: IsChildNamed(t, g, l, second) ==> IsChildNamed(r.1, g, l, second)
  {
    LookupUnder(t, projectId, g, first);
    match GetSubGroupSpec(t, projectId, first)
    case Failure(e) =>
    case Success(x) =>
      var afterFirst := DelSpec(t, x.id).1;
      DeleteLeaf(t, projectId, g, x.id, first, second);
      LookupUnder(afterFirst, projectId, g, second);
      match GetSubGroupSpec(afterFirst, projectId, second)
      case Failure(e) =>
      case Success(y) =>
        if deleteSecond {
          DeleteLeaf(afterFirst, projectId, g, y.id, second, first);
        } else {
          assert DelSpec(afterFirst, x.id).1 == afterFirst;
        }
  }

  /** deleteKeycloakGroups on the realm: find the project group, get or create
      its `grafana` child, then run the branch of the stage. The `prod` branch
      deletes `prod-RO` and `prod-RW`; the other branch deletes `hprod-RO` and
      then passes the id of `hprod-RO` to the second deletion again. */
  function DeleteKeycloakGroupsSpec(s: KcState, projectName: string, stage: string): (r: (Outcome<GroupError>, KcState))
    requires WellFormed(s)
    ensures WellFormed(r.1) && r.1.users == s.users
    ensures TopLevelNamed(s, projectName).None? ==> r == (Fail(ParentGroupMissing(projectName)), s)
  {
    match TopLevelNamed(s, projectName)
    case None => (Fail(ParentGroupMissing(projectName)), s)
    case Some(projectGroup) =>
      var grafana := GetOrCreateSpec(s, projectGroup.id, GRAFANA, []);
      match grafana.0
      case Failure(e) => (Fail(Api(e)), grafana.1)
      case Success(subGroup) => DeletePair(grafana.1, projectGroup.id, RoLeaf(stage), RwLeaf(stage), stage == "prod")
  }

  /** The project has a leaf `leaf`. */
  ghost predicate HasLeaf(s: KcState, projectName: string, leaf: string) {
    exists l: GroupId :: LeafOf(s, projectName, leaf, l)
  }

  /** Where the branch of deleteKeycloakGroups runs: the `grafana` child that
      getOrCreateChildGroup returns holds exactly the project's leaves (none
      when it had to be created). */
  lemma DeleteContext(s: KcState, projectName: string, leaf: string, l: GroupId)
    requires WellFormed(s) && TopLevelNamed(s, projectName).Some?
    ensures var pg := TopLevelNamed(s, projectName).value.id;
      var grafana := GetOrCreateSpec(s, pg, GRAFANA, []);
      && grafana.0.Success? && IsChildNamed(grafana.1, pg, grafana.0.value.id, GRAFANA)
      && IsRoot(grafana.1, pg) && grafana.1.groups[pg].name == projectName
      && (LeafOf(s, projectName, leaf, l) <==> IsChildNamed(grafana.1, grafana.0.value.id, l, leaf))
  {
    var pg := TopLevelNamed(s, projectName).value.id;
    var grafana := GetOrCreateSpec(s, pg, GRAFANA, []);
    assert NoSuppliedMatch([], GRAFANA);
    var g := grafana.0.value.id;
    if LeafOf(s, projectName, leaf, l) {
      var p', g' :| IsRoot(s, p') && s.groups[p'].name == projectName && IsChildNamed(s, p', g', GRAFANA) && IsChildNamed(s, g', l, leaf);
      assert p' == pg;
      assert HasChildNamed(s, pg, GRAFANA);
      GrafanaChildUnique(s, pg, g);
    }
    if HasChildNamed(s, pg, GRAFANA) {
      if IsChildNamed(s, g, l, leaf) {
        LeafOfVia(s, projectName, pg, g, leaf, l);
      }
    } else {
      assert grafana.1.groups[g].subGroups == [];
    }
  }

  lemma HasLeafContext(s: KcState, projectName: string, leaf: string)
    requires WellFormed(s) && TopLevelNamed(s, projectName).Some?
    ensures var pg := TopLevelNamed(s, projectName).value.id;
      var grafana := GetOrCreateSpec(s, pg, GRAFANA, []);
      grafana.0.Success? && (HasLeaf(s, projectName, leaf) <==> HasChildNamed(grafana.1, grafana.0.value.id, leaf))
  {
    var pg := TopLevelNamed(s, projectName).value.id;
    var grafana := GetOrCreateSpec(s, pg, GRAFANA, []);
    DeleteContext(s, projectName, leaf, 0);
    var g := grafana.0.value.id;
    if HasLeaf(s, projectName, leaf) {
      var l: GroupId :| LeafOf(s, projectName, leaf, l);
      DeleteContext(s, projectName, leaf, l);
      assert IsChildNamed(grafana.1, g, l, leaf);
    }
    if HasChildNamed(grafana.1, g, leaf) {
      var c :| c in grafana.1.groups[g].subGroups && c in grafana.1.groups && grafana.1.groups[c].name == leaf;
      DeleteContext(s, projectName, leaf, c);
    }
  }

  /** How deleteKeycloakGroups ends: it succeeds exactly when the project has
      both leaves of the stage, and otherwise names what is missing. */
  lemma DeleteGroupsOutcome(s: KcState, projectName: string, stage: string)
    requires WellFormed(s)
    ensures var r := DeleteKeycloakGroupsSpec(s, projectName, stage);
      r.0.Pass? <==> HasLeaf(s, projectName, RoLeaf(stage)) && HasLeaf(s, projectName, RwLeaf(stage))
    ensures var r := DeleteKeycloakGroupsSpec(s, projectName, stage);
      r.0.Fail? ==> r.0.error in {ParentGroupMissing(projectName), NoSubGroups,
                                  NoMatchingSubGroup(RoLeaf(stage)), NoMatchingSubGroup(RwLeaf(stage))}
  {
    match TopLevelNamed(s, projectName)
    case None =>
      assert !HasLeaf(s, projectName, RoLeaf(stage));
    case Some(projectGroup) =>
      var grafana := GetOrCreateSpec(s, projectGroup.id, GRAFANA, []);
      HasLeafContext(s, projectName, RoLeaf(stage));
      HasLeafContext(s, projectName, RwLeaf(stage));
      DeletePairOutcome(grafana.1, projectGroup.id, grafana.0.value.id, RoLeaf(stage), RwLeaf(stage), stage == "prod");
  }

  /** deleteKeycloakGroups removes no group other than the project's RO leaf of
      the stage and, for `prod`, its `prod-RW` leaf. */
  lemma DeleteGroupsOnlyLeaves(s: KcState, projectName: string, stage: string, l: GroupId)
    requires WellFormed(s) && l in s.groups && l !in DeleteKeycloakGroupsSpec(s, projectName, stage).1.groups
    ensures LeafOf(s, projectName, RoLeaf(stage), l) || (stage == "prod" && LeafOf(s, projectName, "prod-RW", l))
  {
    var projectGroup := TopLevelNamed(s, projectName).value;
    var grafana := GetOrCreateSpec(s, projectGroup.id, GRAFANA, []);
    var g := grafana.0.value.id;
    DeleteContext(s, projectName, RoLeaf(stage), l);
    DeleteContext(s, projectName, RwLeaf(stage), l);
    DeletePairOnlyLeaves(grafana.1, projectGroup.id, g, RoLeaf(stage), RwLeaf(stage), stage == "prod", l);
  }

  /** The RO leaf of the stage goes whenever it exists, even when the call then
      fails; `prod-RW` goes when a `prod` call succeeds. */
  lemma DeleteGroupsRemoves(s: KcState, projectName: string, stage: string, l: GroupId)
    requires WellFormed(s)
    ensures var r := DeleteKeycloakGroupsSpec(s, projectName, stage);
      LeafOf(s, projectName, RoLeaf(stage), l) ==> l !in r.1.groups
    ensures var r := DeleteKeycloakGroupsSpec(s, projectName, stage);
      stage == "prod" && r.0.Pass? && LeafOf(s, projectName, "prod-RW", l) ==> l !in r.1.groups
  {
    match TopLevelNamed(s, projectName)
    case None =>
    case Some(projectGroup) =>
      var grafana := GetOrCreateSpec(s, projectGroup.id, GRAFANA, []);
      DeleteContext(s, projectName, RoLeaf(stage), l);
      DeleteContext(s, projectName, RwLeaf(stage), l);
      DeletePairRemoves(grafana.1, projectGroup.id, grafana.0.value.id, RoLeaf(stage), RwLeaf(stage), stage == "prod");
  }

  /** `hprod-RW` is never deleted: the hors-prod branch passes the id of
      `hprod-RO` to both deletions. */
  lemma DeleteGroupsKeepsHorsProdRw(s: KcState, projectName: string, stage: string, l: GroupId)
    requires WellFormed(s) && stage != "prod" && LeafOf(s, projectName, "hprod-RW", l)
    ensures LeafOf(DeleteKeycloakGroupsSpec(s, projectName, stage).1, projectName, "hprod-RW", l)
  {
    var projectGroup := TopLevelNamed(s, projectName).value;
    var grafana := GetOrCreateSpec(s, projectGroup.id, GRAFANA, []);
    var g := grafana.0.value.id;
    var r := DeleteKeycloakGroupsSpec(s, projectName, stage);
    assert r == DeletePair(grafana.1, projectGroup.id, "hprod-RO", "hprod-RW", false);
    DeleteContext(s, projectName, "hprod-RW", l);
    DeletePairRemoves(grafana.1, projectGroup.id, g, "hprod-RO", "hprod-RW", false);
    DeletePairKeepsGrafana(grafana.1, projectGroup.id, g, "hprod-RO", "hprod-RW", false);
    assert IsChildNamed(r.1, g, l, "hprod-RW");
    assert IsRoot(r.1, projectGroup.id) && r.1.groups[projectGroup.id].name == projectName;
  }

  /** On a project without a `grafana` child, deleteKeycloakGroups creates an
      empty one and then fails, since it has no leaves to look up. */
  lemma DeleteGroupsWithoutGrafana(s: KcState, projectName: string, stage: string)
    requires WellFormed(s) && TopLevelNamed(s, projectName).Some?
    requires !HasChildNamed(s, TopLevelNamed(s, projectName).value.id, GRAFANA)
    ensures DeleteKeycloakGroupsSpec(s, projectName, stage) ==
      (Fail(NoSubGroups), Attached(s, TopLevelNamed(s, projectName).value.id, GRAFANA))
  {
    var pg := TopLevelNamed(s, projectName).value.id;
    var grafana := GetOrCreateSpec(s, pg, GRAFANA, []);
    assert NoSuppliedMatch([], GRAFANA);
    var g := grafana.0.value.id;
    assert IsChildNamed(grafana.1, pg, g, GRAFANA) && grafana.1.groups[g].subGroups == [];
    GetSubGroupCases(grafana.1, pg, RoLeaf(stage));
  }

  method DeleteKeycloakGroups(kc: Store, projectName: string, stage: string) returns (r: Outcome<GroupError>)
    requires kc.Valid()
    modifies kc
    ensures kc.Valid()
    ensures (r, kc.State()) == DeleteKeycloakGroupsSpec(old(kc.State()), projectName, stage)
  {
    var projectGroup := GetProjectGroupByName(kc, projectName);
    if projectGroup.None? {
      return Fail(ParentGroupMissing(projectName));
    }
    var subGroup := GetOrCreateChildGroup(kc, projectGroup.value.id, GRAFANA, []);
    match subGroup {
      case Failure(e) => return Fail(Api(e));
      case Success(_) =>
        if stage == "prod" {
          r := DeleteLeafPair(kc, projectGroup.value.id, "prod-RO", "prod-RW", true);
        } else {
          r := DeleteLeafPair(kc, projectGroup.value.id, "hprod-RO", "hprod-RW", false);
        }
    }
  }

  /** One branch of src/keycloak.ts:168-184: two getSubGroup lookups, each
      followed by a groups.del whose answer is dropped. */
  method DeleteLeafPair(kc: Store, projectId: GroupId, first: string, second: string, deleteSecond: bool) returns (r: Outcome<GroupError>)
    requires kc.Valid()
    modifies kc
    ensures kc.Valid()
    ensures (r, kc.State()) == DeletePair(old(kc.State()), projectId, first, second, deleteSecond)
  {
    var firstGroup := GetSubGroup(kc, projectId, first);
    match firstGroup {
      case Failure(e) => return Fail(e);
      case Success(x) =>
        var _ := kc.Del(x.id);
        var secondGroup := GetSubGroup(kc, projectId, second);
        match secondGroup {
          case Failure(e) => return Fail(e);
          case Success(y) =>
            var _ := kc.Del(if deleteSecond then y.id else x.id);
            return Pass;
        }
    }
  }
}
