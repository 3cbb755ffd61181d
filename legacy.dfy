/** The older handlers of src/index.ts. initGrafanaInstance creates the
    `metrics` groups of src/utils.ts and then, per present stage, the instance
    and its two datasources with the role expressions written inline.
    deleteGrafanaInstance first removes the deleted environment from the
    payload's list in place, then removes each stage that the trimmed list no
    longer contains. Both always answer `result: 'OK'`. */
module Legacy {
  import opened Wrappers
  import opened Settings
  import opened Naming
  import opened Hooks
  import opened Identity
  import opened Utils
  import opened Cluster
  import opened Kubernetes
  import opened Resources
  import opened Stages

  const CREATED := "Created"
  const CREATE_FAILED := "Something happend while creating gafana instance"

  // ---------------------------------------------------------------------------
  // The environment list and its in-place removal (src/index.ts:79-84)

  /** `k` is the index of the first element named `environment`, or -1 when there is none. */
  predicate IsFirstMatch(items: seq<Environment>, environment: string, k: int) {
    if k == -1 then forall i :: 0 <= i < |items| ==> items[i].environment != environment
    else 0 <= k < |items| && items[k].environment == environment
         && forall j :: 0 <= j < k ==> items[j].environment != environment
  }

  /** What `findIndex(objet => objet.environment === environment)` answers. */
  function FirstMatch(items: seq<Environment>, environment: string): (k: int)
    ensures IsFirstMatch(items, environment, k)
    decreases |items|
  {
    if items == [] then -1
    else if items[0].environment == environment then 0
    else
      var rest := FirstMatch(items[1..], environment);
      assert forall j :: 1 <= j < |items| ==> items[j] == items[1..][j - 1];
      if rest == -1 then -1 else rest + 1
  }

  /** The answer is determined: exactly one index is the first match. */
  lemma FirstMatchUnique(items: seq<Environment>, environment: string, k: int)
    requires IsFirstMatch(items, environment, k)
    ensures k == FirstMatch(items, environment)
  {
  }

  /** The list after the splice: the first element named `environment` is
      dropped when there is one. */
  function Trimmed(items: seq<Environment>, environment: string): seq<Environment> {
    var k := FirstMatch(items, environment);
    if k == -1 then items else items[..k] + items[k + 1..]
  }

  /** A list with no element of that name is left as it is; otherwise exactly
      one element goes. */
  lemma TrimmedLength(items: seq<Environment>, environment: string)
    ensures (forall i :: 0 <= i < |items| ==> items[i].environment != environment) ==> Trimmed(items, environment) == items
    ensures (exists i :: 0 <= i < |items| && items[i].environment == environment) ==> |Trimmed(items, environment)| == |items| - 1
  {
    var k := FirstMatch(items, environment);
    if exists i :: 0 <= i < |items| && items[i].environment == environment {
      var i :| 0 <= i < |items| && items[i].environment == environment;
      assert k != -1;
    }
  }

  /** The element removed is the first one named `environment`; the elements
      before it stay in place and the ones after it move up by one, in order. */
  lemma TrimmedKeepsOrder(items: seq<Environment>, environment: string)
    ensures var k := FirstMatch(items, environment);
      var r := Trimmed(items, environment);
      k != -1 ==> (forall i :: 0 <= i < k ==> r[i] == items[i]) && (forall i :: k <= i < |r| ==> r[i] == items[i + 1])
  {
  }

  /** As multisets, the list loses the removed element and nothing else, so a
      later element with the same name is kept. */
  lemma TrimmedMultiset(items: seq<Environment>, environment: string)
    ensures var k := FirstMatch(items, environment);
      k != -1 ==> multiset(items) == multiset(Trimmed(items, environment)) + multiset{items[k]}
  {
    var k := FirstMatch(items, environment);
    if k != -1 {
      assert items == items[..k] + [items[k]] + items[k + 1..];
    }
  }

  /** The list of environments the payload carries; the handler changes it in place. */
  class EnvList {
    var items: seq<Environment>

    constructor (initial: seq<Environment>)
      ensures items == initial
    {
      items := initial;
    }

    method FindIndex(environment: string) returns (idx: int)
      ensures idx == FirstMatch(items, environment)
    {
      var i := 0;
      while i < |items|
        invariant 0 <= i <= |items|
        invariant forall j :: 0 <= j < i ==> items[j].environment != environment
      {
        if items[i].environment == environment {
          FirstMatchUnique(items, environment, i);
          return i;
        }
        i := i + 1;
      }
      FirstMatchUnique(items, environment, -1);
      return -1;
    }

    /** `splice(start, 1)`. */
    method Splice(start: nat)
      requires start < |items|
      modifies this
      ensures items == old(items[..start] + items[start + 1..])
    {
      items := items[..start] + items[start + 1..];
    }
  }

  // ---------------------------------------------------------------------------
  // initGrafanaInstance (src/index.ts:12-75)

  /** The clauses of the production role expression written inline at
      src/index.ts:30, rendered `contains(groups[*], '<group>') && '<role>'`
      and joined by ` || ` as the source text reads. */
  function ProdRules(projectName: string): seq<RoleRule> {
    [ RoleRule("/" + projectName + "/metrics/grafana-prod-edit", "Editor"),
      RoleRule("/" + projectName + "/metrics/grafana-prod-view", "Viewer") ]
  }

  /** The clauses of src/index.ts:47: its doubled quote puts a quote at the
      start of the view group. */
  function HorsProdRules(projectName: string): seq<RoleRule> {
    [ RoleRule("/" + projectName + "/metrics/grafana-hors-prod-edit", "Editor"),
      RoleRule("'/" + projectName + "/metrics/grafana-hors-prod-view", "Viewer") ]
  }

  function ProdRole(projectName: string): string {
    RenderRules(ProdRules(projectName))
  }

  function HorsProdRole(projectName: string): string {
    RenderRules(HorsProdRules(projectName))
  }

  /** The production expression is the one handleInit builds for stage `prod`. */
  lemma ProdRoleAsHandleInit(projectName: string)
    ensures ProdRole(projectName) == RoleAttributePath(projectName, "prod")
  {
    var rules := StageRules(projectName, "prod");
    assert rules[0].group == "/" + projectName + "/metrics/grafana-prod-edit";
    assert rules[1].group == "/" + projectName + "/metrics/grafana-prod-view";
    assert ProdRules(projectName) == rules;
  }

  /** Because of the quote, a user in the non-production view group
      `/<project>/metrics/grafana-hors-prod-view` and not in the edit group is
      given no role, where the expression without it gives Viewer. */
  lemma HorsProdViewerGetsNoRole(projectName: string)
    ensures var view := "/" + projectName + "/metrics/grafana-hors-prod-view";
      GrantedRole(HorsProdRules(projectName), {view}) == None
      && GrantedRole(StageRules(projectName, "hors-prod"), {view}) == Some("Viewer")
  {
    var view := "/" + projectName + "/metrics/grafana-hors-prod-view";
    var edit := "/" + projectName + "/metrics/grafana-hors-prod-edit";
    var quoted := "'" + view;
    assert edit[|projectName| + 28] == 'e' && view[|projectName| + 28] == 'v';
    assert quoted[0] != view[0];
    assert HorsProdRules(projectName)[1].group == quoted;
    assert HorsProdRules(projectName) == [RoleRule(edit, "Editor"), RoleRule(quoted, "Viewer")];
    var rules := StageRules(projectName, "hors-prod");
    assert rules[0].group == edit && rules[1].group == view;
    assert rules == [RoleRule(edit, "Editor"), RoleRule(view, "Viewer")];
    StageRoleMapping(projectName, "hors-prod", {view});
    assert HorsProdRules(projectName)[1..][0].group !in {view};
  }

  /** What the inline reconciliation does to the cluster: the production
      instance with its inline expression, then the non-production one with
      stage label `hors-prod`. */
  function InitCluster(m: Objects, refused: set<ObjectKey>, cfg: Config, classifier: StageClassifier,
                       project: string, projectName: string, environments: seq<Environment>): Objects
  {
    InitStages(m, refused, cfg, project, classifier.containsProd(environments), classifier.containsHorsProd(environments),
               ProdRole(projectName), HorsProdRole(projectName), "prod", "hors-prod")
  }

  /** The `metrics` groups first; when that throws, the catch branch answers and
      the cluster is untouched. Otherwise each present stage is reconciled, the
      non-production one with stage label `hors-prod`. */
  function InitSpec(s: KcState, unlisted: set<GroupId>, m: Objects, refused: set<ObjectKey>, cfg: Config,
                    classifier: StageClassifier, organization: string, project: string,
                    environments: seq<Environment>, owner: UserId)
    : (r: (Reply<MetricsError>, KcState, Objects))
    requires WellFormed(s)
    ensures WellFormed(r.1) && Grows(s, r.1)
    ensures r.0.status.result == OK
    ensures r.0.status.message == Some(CREATED) || r.0.status.message == Some(CREATE_FAILED)
  {
    var projectName := ProjectGroupName(organization, project);
    var groups := CreateMetricsGroupsSpec(s, unlisted, organization, project, owner);
    match groups.0
    case Fail(e) => (Reply(Status(OK, Some(CREATE_FAILED)), Some(e)), groups.1, m)
    case Pass =>
      (Reply(Status(OK, Some(CREATED)), None), groups.1, InitCluster(m, refused, cfg, classifier, project, projectName, environments))
  }

  method InitGrafanaInstance(kc: Store, cluster: ClusterStore, cfg: Config, classifier: StageClassifier,
                             organization: string, project: string, environments: seq<Environment>, owner: UserId)
    returns (r: Reply<MetricsError>)
    requires kc.Valid()
    modifies kc, cluster
    ensures kc.Valid()
    ensures (r, kc.State(), cluster.objects)
         == InitSpec(old(kc.State()), kc.unlisted, old(cluster.objects), cluster.refused, cfg, classifier, organization, project, environments, owner)
  {
    var grafanaNameProd := ProdInstanceName(project);
    var grafanaNameHorsProd := HorsProdInstanceName(project);
    var prodIsPresent := classifier.containsProd(environments);
    var projectName := ProjectGroupName(organization, project);
    var horsProdIsPresent := classifier.containsHorsProd(environments);
    var created := CreateKeycloakGroups(kc, organization, project, owner);
    if created.Fail? {
      return Reply(Status(OK, Some(CREATE_FAILED)), Some(created.error));
    }
    if prodIsPresent {
      ReconcileInstance(cluster, cfg, grafanaNameProd, project, ProdRole(projectName), "prod");
    }
    if horsProdIsPresent {
      ReconcileInstance(cluster, cfg, grafanaNameHorsProd, project, HorsProdRole(projectName), "hors-prod");
    }
    return Reply(Status(OK, Some(CREATED)), None);
  }

  /** The reply says Created exactly when the `metrics` groups were set up;
      otherwise the cluster is untouched and the error is in the reply. */
  lemma InitReply(s: KcState, unlisted: set<GroupId>, m: Objects, refused: set<ObjectKey>, cfg: Config,
                  classifier: StageClassifier, organization: string, project: string,
                  environments: seq<Environment>, owner: UserId)
    requires WellFormed(s)
    ensures var groups := CreateMetricsGroupsSpec(s, unlisted, organization, project, owner);
      var r := InitSpec(s, unlisted, m, refused, cfg, classifier, organization, project, environments, owner);
      (r.0.status.message == Some(CREATED) <==> groups.0.Pass?) && (groups.0.Fail? ==> r.2 == m && r.0.error == Some(groups.0.error))
  {
  }

  /** An object of no present stage, and every other project's object, is
      left exactly as it was, whether or not the `metrics` step succeeded. */
  lemma InitTouchesOnlyPresentStages(s: KcState, unlisted: set<GroupId>, m: Objects, refused: set<ObjectKey>, cfg: Config,
                                     classifier: StageClassifier, organization: string, project: string,
                                     environments: seq<Environment>, owner: UserId,
                                     k: ObjectKey)
    requires WellFormed(s)
    requires OwnedBy(k, ProdInstanceName(project)) ==> !classifier.containsProd(environments)
    requires OwnedBy(k, HorsProdInstanceName(project)) ==> !classifier.containsHorsProd(environments)
    ensures var r := InitSpec(s, unlisted, m, refused, cfg, classifier, organization, project, environments, owner);
      (k in r.2 <==> k in m) && (k in m ==> r.2[k] == m[k])
  {
    var pn := ProjectGroupName(organization, project);
    InitStagesTouchesOnlyPresentStages(m, refused, cfg, project, classifier.containsProd(environments),
      classifier.containsHorsProd(environments), ProdRole(pn), HorsProdRole(pn), "prod", "hors-prod", k);
  }

  /** When the `metrics` step succeeds, every object of a present stage exists
      afterwards unless the server refused it, and nothing that existed is
      replaced. */
  lemma InitCreatesPresentStages(s: KcState, unlisted: set<GroupId>, m: Objects, refused: set<ObjectKey>, cfg: Config,
                                 classifier: StageClassifier, organization: string, project: string,
                                 environments: seq<Environment>, owner: UserId,
                                 k: ObjectKey)
    requires WellFormed(s)
    requires CreateMetricsGroupsSpec(s, unlisted, organization, project, owner).0.Pass?
    ensures var r := InitSpec(s, unlisted, m, refused, cfg, classifier, organization, project, environments, owner);
      k !in refused && ((classifier.containsProd(environments) && OwnedBy(k, ProdInstanceName(project)))
                        || (classifier.containsHorsProd(environments) && OwnedBy(k, HorsProdInstanceName(project))))
      ==> k in r.2
    ensures var r := InitSpec(s, unlisted, m, refused, cfg, classifier, organization, project, environments, owner);
      k in m ==> k in r.2 && r.2[k] == m[k]
  {
    var pn := ProjectGroupName(organization, project);
    var prod, horsProd := classifier.containsProd(environments), classifier.containsHorsProd(environments);
    if k !in refused && ((prod && OwnedBy(k, ProdInstanceName(project))) || (horsProd && OwnedBy(k, HorsProdInstanceName(project)))) {
      InitStagesCreates(m, refused, cfg, project, prod, horsProd, ProdRole(pn), HorsProdRole(pn), "prod", "hors-prod", k);
    }
    if k in m {
      InitStagesNeverOverwrites(m, refused, cfg, project, prod, horsProd, ProdRole(pn), HorsProdRole(pn), "prod", "hors-prod", k);
    }
  }

  /** Unlike its successor, this handler can be run again: the `metrics`
      step changes nothing the second time, and it succeeds exactly when the
      search answer lists the `metrics` child. Then the cluster is reconciled
      once more and a create refused the first time can now happen; otherwise
      the repeated create of `metrics` is answered 409, the reply is
      CreateFailed and the cluster is left alone. */
  lemma InitRerunReconciles(s: KcState, unlisted: set<GroupId>, m: Objects, refused: set<ObjectKey>, cfg: Config,
                            classifier: StageClassifier, organization: string, project: string,
                            environments: seq<Environment>, owner: UserId,
                            laterRefused: set<ObjectKey>, laterEnvironments: seq<Environment>, laterOwner: UserId)
    requires WellFormed(s)
    ensures var first := InitSpec(s, unlisted, m, refused, cfg, classifier, organization, project, environments, owner);
      var second := InitSpec(first.1, unlisted, first.2, laterRefused, cfg, classifier, organization, project, laterEnvironments, laterOwner);
      first.0.status.message == Some(CREATED) ==>
        && second.1 == first.1
        && (second.0.status.message == Some(CREATED) <==> MetricsListed(first.1, unlisted, ProjectGroupName(organization, project)))
        && (second.0.status.message != Some(CREATED) ==> second.2 == first.2 && second.0.error == Some(Api(Conflict)))
  {
    MetricsTwice(s, unlisted, organization, project, owner, laterOwner);
  }

  // ---------------------------------------------------------------------------
  // deleteGrafanaInstance (src/index.ts:77-128)

  /** handleDelete's body for each stage that is gone: the instance and the
      prometheus datasource go, the alertmanager check deletes the prometheus
      name a second time. */
  function DeleteStages(m: Objects, faults: Faults, project: string, prodGone: bool, horsProdGone: bool): Objects {
    var m1 := if prodGone then DeleteEffect(m, faults, false, ProdInstanceName(project)) else m;
    if horsProdGone then DeleteEffect(m1, faults, false, HorsProdInstanceName(project)) else m1
  }

  /** `newList` is `environments` itself, so the presence checks read the list
      after the splice. The handler always answers `OK`/`OK`. */
  method DeleteGrafanaInstance(cluster: ClusterStore, classifier: StageClassifier, project: string,
                               environment: string, environments: EnvList) returns (r: Reply<MetricsError>)
    modifies cluster, environments
    ensures environments.items == Trimmed(old(environments.items), environment)
    ensures cluster.objects == DeleteStages(old(cluster.objects), cluster.faults, project, !classifier.containsProd(environments.items),
                                            !classifier.containsHorsProd(environments.items))
    ensures r == Reply(Status(OK, Some("OK")), None)
  {
    var newList := environments;
    ghost var before := environments.items;
    var idx := newList.FindIndex(environment);
    if idx != -1 {
      newList.Splice(idx);
    }
    assert environments.items == Trimmed(before, environment);
    RemoveGoneStages(cluster, classifier, project, newList);
    return Reply(Status(OK, Some("OK")), None);
  }

  /** The two presence checks on the spliced list, each repeated inside
      itself; the deletes are guarded by them and swallow their errors. The
      calls are those of src/kubernetes.ts, without the leading `cluster`
      argument src/index.ts passes. */
  method RemoveGoneStages(cluster: ClusterStore, classifier: StageClassifier, project: string, environments: EnvList)
    modifies cluster
    ensures cluster.objects == DeleteStages(old(cluster.objects), cluster.faults, project, !classifier.containsProd(environments.items),
                                            !classifier.containsHorsProd(environments.items))
  {
    var grafanaNameProd := ProdInstanceName(project);
    var grafanaNameHorsProd := HorsProdInstanceName(project);
    ghost var m0 := cluster.objects;
    var prodIsPresent := classifier.containsProd(environments.items);
    var horsProdIsPresent := classifier.containsHorsProd(environments.items);
    if !prodIsPresent {
      var prodStillPresent := classifier.containsProd(environments.items);
      if !prodStillPresent {
        RemoveInstance(cluster, grafanaNameProd);
      }
    }
    ghost var m1 := cluster.objects;
    assert m1 == if !prodIsPresent then DeleteEffect(m0, cluster.faults, false, grafanaNameProd) else m0;
    if !horsProdIsPresent {
      var horsProdStillPresent := classifier.containsHorsProd(environments.items);
      if !horsProdStillPresent {
        RemoveInstance(cluster, grafanaNameHorsProd);
      }
    }
  }

  /** When the server answers and accepts the deletes, the cluster loses
      exactly the instance and the prometheus datasource of each stage that is gone. */
  lemma DeleteStagesRemoves(m: Objects, faults: Faults, project: string, prodGone: bool, horsProdGone: bool)
    requires prodGone ==> Cooperates(faults, ProdInstanceName(project))
    requires horsProdGone ==> Cooperates(faults, HorsProdInstanceName(project))
    ensures DeleteStages(m, faults, project, prodGone, horsProdGone)
         == m - (if prodGone then {InstanceKey(ProdInstanceName(project)), PromKey(ProdInstanceName(project))} else {})
              - (if horsProdGone then {InstanceKey(HorsProdInstanceName(project)), PromKey(HorsProdInstanceName(project))} else {})
  {
    var p, h := ProdInstanceName(project), HorsProdInstanceName(project);
    var m1 := if prodGone then DeleteEffect(m, faults, false, p) else m;
    if prodGone {
      DeleteRemovesInstanceAndProm(m, faults, p);
    }
    if horsProdGone {
      DeleteRemovesInstanceAndProm(m1, faults, h);
    }
  }

  /** Both alertmanager datasources survive every call, whatever the server refuses. */
  lemma DeleteStagesKeepsAlertmanagers(m: Objects, faults: Faults, project: string, prodGone: bool, horsProdGone: bool, k: ObjectKey)
    requires k == AmKey(ProdInstanceName(project)) || k == AmKey(HorsProdInstanceName(project))
    ensures var r := DeleteStages(m, faults, project, prodGone, horsProdGone);
      (k in r <==> k in m) && (k in m ==> r[k] == m[k])
  {
    var p, h := ProdInstanceName(project), HorsProdInstanceName(project);
    OwnedKeysDistinct(p);
    OwnedKeysDistinct(h);
    StageObjectsDisjoint(project, k);
    assert OwnedBy(k, p) || OwnedBy(k, h);
    assert k != InstanceKey(p) && k != PromKey(p) && k != InstanceKey(h) && k != PromKey(h);
    var m1 := if prodGone then DeleteEffect(m, faults, false, p) else m;
    if prodGone {
      DeleteLeavesAlertmanager(m, faults, p);
    }
    if horsProdGone {
      DeleteLeavesAlertmanager(m1, faults, h);
    }
  }
}
