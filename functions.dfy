/** The three hook handlers of src/functions.ts. Each runs its steps against
    the identity store and the cluster, and always answers `result: 'OK'`:
    an error thrown by a step is caught and reported in the message and the
    `error` field, never as KO. */
module Functions {
  import opened Wrappers
  import opened Settings
  import opened Naming
  import opened Hooks
  import opened Identity
  import opened Keycloak
  import opened Cluster
  import opened Kubernetes
  import opened Resources
  import opened Stages

  const CREATED := "Created"
  const DELETED := "Deleted"
  const CREATE_FAILED := "An error happend while creating Grafana instance"
  const DELETE_FAILED := "An error happend while deleting Grafana instance"

  /** The message of updatePermission once manageKeycloakPermission has returned. */
  function PermissionMessage(user: UserId, projectName: string): string {
    "Permission added to user " + user + " on '" + projectName + "'"
  }

  // ---------------------------------------------------------------------------
  // initGrafanaInstance (src/functions.ts:6-42)

  /** What the two handleInit calls do to the cluster: the production instance
      (role paths of stage `prod`) when the environments contain production,
      then the non-production one (stage `hprod`). */
  function InitCluster(m: Objects, refused: set<ObjectKey>, cfg: Config, classifier: StageClassifier,
                       project: string, projectName: string, environments: seq<Environment>): Objects
  {
    InitStages(m, refused, cfg, project, classifier.containsProd(environments), classifier.containsHorsProd(environments),
               RoleAttributePath(projectName, "prod"), RoleAttributePath(projectName, "hprod"), "prod", "hprod")
  }

  /** The identity groups come first; when createKeycloakGroups throws, the
      handleInit calls are skipped and the catch branch answers. */
  function InitSpec(s: KcState, m: Objects, refused: set<ObjectKey>, cfg: Config, classifier: StageClassifier,
                    organization: string, project: string, environments: seq<Environment>, owner: UserId)
    : (r: (Reply<GroupError>, KcState, Objects))
    requires WellFormed(s)
    ensures WellFormed(r.1) && Grows(s, r.1)
    ensures r.0.status.result == OK
    ensures r.0.status.message == Some(CREATED) || r.0.status.message == Some(CREATE_FAILED)
  {
    var projectName := ProjectGroupName(organization, project);
    var groups := CreateKeycloakGroupsSpec(s, projectName, owner);
    match groups.0
    case Fail(e) => (Reply(Status(OK, Some(CREATE_FAILED)), Some(e)), groups.1, m)
    case Pass => (Reply(Status(OK, Some(CREATED)), None), groups.1,
                  InitCluster(m, refused, cfg, classifier, project, projectName, environments))
  }

  method InitGrafanaInstance(kc: Store, cluster: ClusterStore, cfg: Config, classifier: StageClassifier,
                             organization: string, project: string, environments: seq<Environment>, owner: UserId)
    returns (r: Reply<GroupError>)
    requires kc.Valid()
    modifies kc, cluster
    ensures kc.Valid()
    ensures (r, kc.State(), cluster.objects)
         == InitSpec(old(kc.State()), old(cluster.objects), cluster.refused, cfg, classifier, organization, project, environments, owner)
  {
    var projectName := ProjectGroupName(organization, project);
    var created := CreateKeycloakGroups(kc, projectName, owner);
    if created.Fail? {
      return Reply(Status(OK, Some(CREATE_FAILED)), Some(created.error));
    }
    var grafanaNameProd := ProdInstanceName(project);
    var grafanaNameHorsProd := HorsProdInstanceName(project);
    var isProd := classifier.containsProd(environments);
    var isNotProd := classifier.containsHorsProd(environments);
    if isProd {
      HandleInit(cluster, cfg, grafanaNameProd, project, projectName, "prod");
    }
    if isNotProd {
      HandleInit(cluster, cfg, grafanaNameHorsProd, project, projectName, "hprod");
    }
    return Reply(Status(OK, Some(CREATED)), None);
  }

  /** The reply says Created exactly when createKeycloakGroups succeeded; when
      it failed the cluster is untouched and the error is carried in the reply. */
  lemma InitReply(s: KcState, m: Objects, refused: set<ObjectKey>, cfg: Config, classifier: StageClassifier,
                  organization: string, project: string, environments: seq<Environment>, owner: UserId)
    requires WellFormed(s)
    ensures var groups := CreateKeycloakGroupsSpec(s, ProjectGroupName(organization, project), owner);
      var r := InitSpec(s, m, refused, cfg, classifier, organization, project, environments, owner);
      (r.0.status.message == Some(CREATED) <==> groups.0.Pass?) && (r.0.error.None? <==> groups.0.Pass?)
    ensures var groups := CreateKeycloakGroupsSpec(s, ProjectGroupName(organization, project), owner);
      var r := InitSpec(s, m, refused, cfg, classifier, organization, project, environments, owner);
      groups.0.Fail? ==> r.2 == m && r.0.error == Some(groups.0.error)
  {
  }

  /** A project whose group is missing gets no instance at all. */
  lemma InitWithoutProjectGroup(s: KcState, m: Objects, refused: set<ObjectKey>, cfg: Config, classifier: StageClassifier,
                                organization: string, project: string, environments: seq<Environment>, owner: UserId)
    requires WellFormed(s) && TopLevelNamed(s, ProjectGroupName(organization, project)).None?
    ensures InitSpec(s, m, refused, cfg, classifier, organization, project, environments, owner)
         == (Reply(Status(OK, Some(CREATE_FAILED)), Some(ParentGroupMissing(ProjectGroupName(organization, project)))), s, m)
  {
  }

  /** On success the objects of a stage the environments do not contain, and
      every object of other instances, are left as they were. */
  lemma InitTouchesOnlyPresentStages(s: KcState, m: Objects, refused: set<ObjectKey>, cfg: Config, classifier: StageClassifier,
                                     organization: string, project: string, environments: seq<Environment>, owner: UserId,
                                     k: ObjectKey)
    requires WellFormed(s)
    requires OwnedBy(k, ProdInstanceName(project)) ==> !classifier.containsProd(environments)
    requires OwnedBy(k, HorsProdInstanceName(project)) ==> !classifier.containsHorsProd(environments)
    ensures var r := InitSpec(s, m, refused, cfg, classifier, organization, project, environments, owner);
      (k in r.2 <==> k in m) && (k in m ==> r.2[k] == m[k])
  {
    InitStagesTouchesOnlyPresentStages(m, refused, cfg, project, classifier.containsProd(environments),
      classifier.containsHorsProd(environments), RoleAttributePath(ProjectGroupName(organization, project), "prod"),
      RoleAttributePath(ProjectGroupName(organization, project), "hprod"), "prod", "hprod", k);
  }

  /** On success every object of a present stage exists afterwards unless the
      server refused it, and nothing that existed is replaced. */
  lemma InitCreatesPresentStages(s: KcState, m: Objects, refused: set<ObjectKey>, cfg: Config, classifier: StageClassifier,
                                 organization: string, project: string, environments: seq<Environment>, owner: UserId,
                                 k: ObjectKey)
    requires WellFormed(s)
    requires CreateKeycloakGroupsSpec(s, ProjectGroupName(organization, project), owner).0.Pass?
    ensures var r := InitSpec(s, m, refused, cfg, classifier, organization, project, environments, owner);
      k !in refused && ((classifier.containsProd(environments) && OwnedBy(k, ProdInstanceName(project)))
                        || (classifier.containsHorsProd(environments) && OwnedBy(k, HorsProdInstanceName(project))))
      ==> k in r.2
    ensures var r := InitSpec(s, m, refused, cfg, classifier, organization, project, environments, owner);
      k in m ==> k in r.2 && r.2[k] == m[k]
  {
    var pn := ProjectGroupName(organization, project);
    var prod, horsProd := classifier.containsProd(environments), classifier.containsHorsProd(environments);
    if k !in refused && ((prod && OwnedBy(k, ProdInstanceName(project))) || (horsProd && OwnedBy(k, HorsProdInstanceName(project)))) {
      InitStagesCreates(m, refused, cfg, project, prod, horsProd, RoleAttributePath(pn, "prod"), RoleAttributePath(pn, "hprod"), "prod", "hprod", k);
    }
    if k in m {
      InitStagesNeverOverwrites(m, refused, cfg, project, prod, horsProd, RoleAttributePath(pn, "prod"), RoleAttributePath(pn, "hprod"), "prod", "hprod", k);
    }
  }

  /** Once a project has been initialised, initGrafanaInstance can never
      reconcile it again: createKeycloakGroups answers Conflict, so a later
      call, whatever its environments, changes neither the realm nor the
      cluster, even where a create of the first run was refused. */
  lemma InitRetryNeverReconciles(s: KcState, m: Objects, refused: set<ObjectKey>, cfg: Config, classifier: StageClassifier,
                                 organization: string, project: string, environments: seq<Environment>, owner: UserId,
                                 laterEnvironments: seq<Environment>, laterOwner: UserId)
    requires WellFormed(s)
    ensures var first := InitSpec(s, m, refused, cfg, classifier, organization, project, environments, owner);
      first.0.status.message == Some(CREATED) ==>
        InitSpec(first.1, first.2, refused, cfg, classifier, organization, project, laterEnvironments, laterOwner)
        == (Reply(Status(OK, Some(CREATE_FAILED)), Some(Api(Conflict))), first.1, first.2)
  {
    CreateGroupsTwice(s, ProjectGroupName(organization, project), owner, laterOwner);
  }

  // ---------------------------------------------------------------------------
  // deleteGrafanaInstance (src/functions.ts:44-83)

  /** Whether an environment of the payload's stage remains: `prod` asks
      containsProd, every other stage containsHorsProd. */
  function StageRemains(classifier: StageClassifier, environments: seq<Environment>, stage: string): bool {
    if stage == "prod" then classifier.containsProd(environments) else classifier.containsHorsProd(environments)
  }

  /** The call handleDelete(grafanaName, label) of src/functions.ts:56,63: its
      parameters are (stageStillPresent, grafanaName, stage), so the instance
      name lands in the boolean (as JavaScript truthiness), the stage label in the
      instance name, and the stage is undefined. */
  function ShiftedHandleDelete(m: Objects, faults: Faults, grafanaName: string, stageLabel: string): (r: Objects)
    ensures grafanaName != "" ==> r == m
  {
    DeleteEffect(m, faults, Truthy(Some(grafanaName)), stageLabel)
  }

  function DeleteSpec(s: KcState, m: Objects, faults: Faults, classifier: StageClassifier, organization: string, project: string,
                      environments: seq<Environment>, stage: string): (r: (Reply<GroupError>, KcState, Objects))
    requires WellFormed(s)
    ensures WellFormed(r.1) && r.1.users == s.users
    ensures r.0.status.result == OK
    ensures r.0.status.message == Some(DELETED) || r.0.status.message == Some(DELETE_FAILED)
  {
    if StageRemains(classifier, environments, stage) then (Reply(Status(OK, Some(DELETED)), None), s, m)
    else
      var m1 := if stage == "prod" then ShiftedHandleDelete(m, faults, ProdInstanceName(project), "prod")
                else ShiftedHandleDelete(m, faults, HorsProdInstanceName(project), "hprod");
      var groups := DeleteKeycloakGroupsSpec(s, ProjectGroupName(organization, project), stage);
      match groups.0
      case Fail(e) => (Reply(Status(OK, Some(DELETE_FAILED)), Some(e)), groups.1, m1)
      case Pass => (Reply(Status(OK, Some(DELETED)), None), groups.1, m1)
  }

  method DeleteGrafanaInstance(kc: Store, cluster: ClusterStore, classifier: StageClassifier, organization: string,
                               project: string, environments: seq<Environment>, stage: string)
    returns (r: Reply<GroupError>)
    requires kc.Valid()
    modifies kc, cluster
    ensures kc.Valid()
    ensures (r, kc.State(), cluster.objects)
         == DeleteSpec(old(kc.State()), old(cluster.objects), cluster.faults, classifier, organization, project, environments, stage)
  {
    var projectName := ProjectGroupName(organization, project);
    var grafanaNameProd := ProdInstanceName(project);
    var grafanaNameHorsProd := HorsProdInstanceName(project);
    if stage == "prod" {
      var isRemainingProdEnv := classifier.containsProd(environments);
      if !isRemainingProdEnv {
        HandleDelete(cluster, Truthy(Some(grafanaNameProd)), "prod", None);
        var deleted := DeleteKeycloakGroups(kc, projectName, stage);
        if deleted.Fail? {
          return Reply(Status(OK, Some(DELETE_FAILED)), Some(deleted.error));
        }
      }
    } else {
      var isRemainingHProdEnv := classifier.containsHorsProd(environments);
      if !isRemainingHProdEnv {
        HandleDelete(cluster, Truthy(Some(grafanaNameHorsProd)), "hprod", None);
        var deleted := DeleteKeycloakGroups(kc, projectName, stage);
        if deleted.Fail? {
          return Reply(Status(OK, Some(DELETE_FAILED)), Some(deleted.error));
        }
      }
    }
    return Reply(Status(OK, Some(DELETED)), None);
  }

  /** Because of the shifted arguments, the instance name is always a non-empty
      string, so handleDelete always returns at its guard: deleteGrafanaInstance
      never removes a cluster object. */
  lemma DeleteNeverTouchesCluster(s: KcState, m: Objects, faults: Faults, classifier: StageClassifier, organization: string,
                                  project: string, environments: seq<Environment>, stage: string)
    requires WellFormed(s)
    ensures DeleteSpec(s, m, faults, classifier, organization, project, environments, stage).2 == m
  {
    assert ProdInstanceName(project)[|project|] == '-';
    assert HorsProdInstanceName(project)[|project|] == '-';
  }

  /** While an environment of the stage remains, nothing changes and the reply is Deleted. */
  lemma DeleteWhileStageRemains(s: KcState, m: Objects, faults: Faults, classifier: StageClassifier, organization: string,
                                project: string, environments: seq<Environment>, stage: string)
    requires WellFormed(s) && StageRemains(classifier, environments, stage)
    ensures DeleteSpec(s, m, faults, classifier, organization, project, environments, stage)
         == (Reply(Status(OK, Some(DELETED)), None), s, m)
  {
  }

  /** Once the stage's last environment is gone the reply says Deleted exactly
      when the project has both leaves of the stage; otherwise it carries one
      of the lookup errors. */
  lemma DeleteReply(s: KcState, m: Objects, faults: Faults, classifier: StageClassifier, organization: string,
                    project: string, environments: seq<Environment>, stage: string)
    requires WellFormed(s) && !StageRemains(classifier, environments, stage)
    ensures var pn := ProjectGroupName(organization, project);
      var r := DeleteSpec(s, m, faults, classifier, organization, project, environments, stage);
      r.0.status.message == Some(DELETED) <==> HasLeaf(s, pn, RoLeaf(stage)) && HasLeaf(s, pn, RwLeaf(stage))
    ensures var pn := ProjectGroupName(organization, project);
      var r := DeleteSpec(s, m, faults, classifier, organization, project, environments, stage);
      r.0.error.Some? ==> r.0.error.value in {ParentGroupMissing(pn), NoSubGroups,
                                              NoMatchingSubGroup(RoLeaf(stage)), NoMatchingSubGroup(RwLeaf(stage))}
  {
    DeleteGroupsOutcome(s, ProjectGroupName(organization, project), stage);
  }

  /** The only groups removed are leaves of the payload's stage: the RO leaf,
      and for `prod` also `prod-RW`. The other stage's leaves and `grafana`
      itself stay. */
  lemma DeleteOnlyStageLeaves(s: KcState, m: Objects, faults: Faults, classifier: StageClassifier, organization: string,
                              project: string, environments: seq<Environment>, stage: string, l: GroupId)
    requires WellFormed(s) && l in s.groups
    requires l !in DeleteSpec(s, m, faults, classifier, organization, project, environments, stage).1.groups
    ensures var pn := ProjectGroupName(organization, project);
      !StageRemains(classifier, environments, stage)
      && (LeafOf(s, pn, RoLeaf(stage), l) || (stage == "prod" && LeafOf(s, pn, "prod-RW", l)))
  {
    var pn := ProjectGroupName(organization, project);
    if !StageRemains(classifier, environments, stage) {
      assert DeleteSpec(s, m, faults, classifier, organization, project, environments, stage).1
          == DeleteKeycloakGroupsSpec(s, pn, stage).1;
      DeleteGroupsOnlyLeaves(s, pn, stage, l);
    }
  }

  /** Once the stage's last environment is gone its RO leaf is removed, and on
      a successful `prod` call so is `prod-RW`; `hprod-RW` always survives. */
  lemma DeleteRemovesStageLeaves(s: KcState, m: Objects, faults: Faults, classifier: StageClassifier, organization: string,
                                 project: string, environments: seq<Environment>, stage: string, l: GroupId)
    requires WellFormed(s) && !StageRemains(classifier, environments, stage)
    ensures var pn := ProjectGroupName(organization, project);
      var r := DeleteSpec(s, m, faults, classifier, organization, project, environments, stage);
      LeafOf(s, pn, RoLeaf(stage), l) ==> l !in r.1.groups
    ensures var pn := ProjectGroupName(organization, project);
      var r := DeleteSpec(s, m, faults, classifier, organization, project, environments, stage);
      stage == "prod" && r.0.status.message == Some(DELETED) && LeafOf(s, pn, "prod-RW", l) ==> l !in r.1.groups
    ensures var pn := ProjectGroupName(organization, project);
      var r := DeleteSpec(s, m, faults, classifier, organization, project, environments, stage);
      stage != "prod" && LeafOf(s, pn, "hprod-RW", l) ==> LeafOf(r.1, pn, "hprod-RW", l)
  {
    var pn := ProjectGroupName(organization, project);
    DeleteGroupsRemoves(s, pn, stage, l);
    if stage != "prod" && LeafOf(s, pn, "hprod-RW", l) {
      DeleteGroupsKeepsHorsProdRw(s, pn, stage, l);
    }
  }

  // ---------------------------------------------------------------------------
  // updatePermission (src/functions.ts:85-107)

  /** manageKeycloakPermission catches its own errors, so its reply, KO or
      not, is dropped and the handler reports the permission as added. */
  function UpdatePermissionSpec(s: KcState, organization: string, project: string, user: UserId,
                                permissions: Permissions, stage: string): (r: (Reply<GroupError>, KcState))
    requires WellFormed(s)
    ensures WellFormed(r.1) && Grows(s, r.1)
  {
    var projectName := ProjectGroupName(organization, project);
    var managed := ManagePermissionSpec(s, projectName, user, permissions, stage);
    (Reply(Status(OK, Some(PermissionMessage(user, projectName))), None), managed.1)
  }

  method UpdatePermission(kc: Store, organization: string, project: string, user: UserId,
                          permissions: Permissions, stage: string) returns (r: Reply<GroupError>)
    requires kc.Valid()
    modifies kc
    ensures kc.Valid()
    ensures (r, kc.State()) == UpdatePermissionSpec(old(kc.State()), organization, project, user, permissions, stage)
  {
    var projectName := ProjectGroupName(organization, project);
    var _ := ManageKeycloakPermission(kc, projectName, user, permissions, stage);
    return Reply(Status(OK, Some(PermissionMessage(user, projectName))), None);
  }

  /** The reply is the same whatever manageKeycloakPermission answered: OK,
      naming the user and the project, and no error, even after a KO. */
  lemma UpdatePermissionIgnoresOutcome(s: KcState, organization: string, project: string, user: UserId,
                                       permissions: Permissions, stage: string)
    requires WellFormed(s)
    ensures var pn := ProjectGroupName(organization, project);
      var r := UpdatePermissionSpec(s, organization, project, user, permissions, stage);
      && r.0 == Reply(Status(OK, Some(PermissionMessage(user, pn))), None)
      && r.1 == ManagePermissionSpec(s, pn, user, permissions, stage).1
  {
  }

  /** So a project without its group is told the permission was added while
      the realm is unchanged and the user is in no new group. */
  lemma UpdatePermissionReportsUnmadeChange(s: KcState, organization: string, project: string, user: UserId,
                                            permissions: Permissions, stage: string)
    requires WellFormed(s) && TopLevelNamed(s, ProjectGroupName(organization, project)).None?
    ensures var r := UpdatePermissionSpec(s, organization, project, user, permissions, stage);
      ManagePermissionSpec(s, ProjectGroupName(organization, project), user, permissions, stage).0.status.result == KO
      && r.0.status.result == OK && r.1 == s
  {
  }

  /** Permissions are only ever added: a cleared flag removes nothing, and the
      only new memberships are the user's in the stage's flagged leaves. */
  lemma UpdatePermissionAddOnly(s: KcState, organization: string, project: string, user: UserId,
                                permissions: Permissions, stage: string, p: (UserId, GroupId))
    requires WellFormed(s)
    ensures var r := UpdatePermissionSpec(s, organization, project, user, permissions, stage);
      s.members <= r.1.members
    ensures var pn := ProjectGroupName(organization, project);
      var r := UpdatePermissionSpec(s, organization, project, user, permissions, stage);
      p in r.1.members && p !in s.members ==>
        p.0 == user && ((permissions.rw && LeafOf(r.1, pn, RwLeaf(stage), p.1))
                        || (permissions.ro && LeafOf(r.1, pn, RoLeaf(stage), p.1)))
  {
  }
}
