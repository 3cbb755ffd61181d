/** The store-facing half of src/kubernetes.ts: existence checks, creates and
    deletes of the instance and its two datasources, and the two reconcilers
    handleInit and handleDelete built from them. The configuration that the
    source reads through `getConfig()` is a parameter. */
module Kubernetes {
  import opened Wrappers
  import opened Settings
  import opened Naming
  import opened Resources
  import opened Cluster

  function InstanceKey(grafanaName: string): ObjectKey {
    ObjectKey(Grafanas, grafanaName)
  }

  function DatasourceKey(datasourceName: string): ObjectKey {
    ObjectKey(GrafanaDatasources, datasourceName)
  }

  /** The three keys a Grafana instance name owns. */
  function PromKey(grafanaName: string): ObjectKey {
    DatasourceKey(PromDatasourceName(grafanaName))
  }

  function AmKey(grafanaName: string): ObjectKey {
    DatasourceKey(AmDatasourceName(grafanaName))
  }

  /** The instance createGrafanaInstance builds for `grafanaName` (src/kubernetes.ts:204-228). */
  function InstanceFor(cfg: Config, grafanaName: string, roleAttributePath: string): CustomObject {
    InstanceBody(GrafanaObject(cfg, grafanaName, roleAttributePath, ContainersSpec(cfg)))
  }

  function PromFor(cfg: Config, project: string, grafanaName: string, stage: string): CustomObject {
    DatasourceBody(PrometheusDataSourceObject(cfg, project, grafanaName, PromDatasourceName(grafanaName), stage))
  }

  function AmFor(cfg: Config, project: string, grafanaName: string, stage: string): CustomObject {
    DatasourceBody(AlertManagerDataSourceObject(cfg, project, grafanaName, AmDatasourceName(grafanaName), stage))
  }

  lemma OwnedKeysDistinct(grafanaName: string)
    ensures InstanceKey(grafanaName) != PromKey(grafanaName)
    ensures InstanceKey(grafanaName) != AmKey(grafanaName)
    ensures PromKey(grafanaName) != AmKey(grafanaName)
  {
    DatasourceKindsDistinct(grafanaName, grafanaName);
  }

  // ---------------------------------------------------------------------------
  // Store operations (src/kubernetes.ts:204-315)

  /** createGrafanaInstance: builds the container list and the body, then creates. */
  method CreateGrafanaInstance(store: ClusterStore, cfg: Config, instanceName: string, roleAttributePath: string)
    modifies store
    ensures store.objects == CreateSpec(old(store.objects), store.refused, InstanceKey(instanceName),
                                        InstanceBody(GrafanaObject(cfg, instanceName, roleAttributePath, ContainersSpec(cfg))))
  {
    var containers := ContainersSpec(cfg);
    store.Create(InstanceKey(instanceName), InstanceBody(GrafanaObject(cfg, instanceName, roleAttributePath, containers)));
  }

  method CreateDataSourcePrometheus(store: ClusterStore, cfg: Config, project: string, grafanaName: string, datasourceName: string, stage: string)
    modifies store
    ensures store.objects == CreateSpec(old(store.objects), store.refused, DatasourceKey(datasourceName),
                                        DatasourceBody(PrometheusDataSourceObject(cfg, project, grafanaName, datasourceName, stage)))
  {
    store.Create(DatasourceKey(datasourceName), DatasourceBody(PrometheusDataSourceObject(cfg, project, grafanaName, datasourceName, stage)));
  }

  method CreateDataSourceAlertmanager(store: ClusterStore, cfg: Config, project: string, grafanaName: string, datasourceName: string, stage: string)
    modifies store
    ensures store.objects == CreateSpec(old(store.objects), store.refused, DatasourceKey(datasourceName),
                                        DatasourceBody(AlertManagerDataSourceObject(cfg, project, grafanaName, datasourceName, stage)))
  {
    store.Create(DatasourceKey(datasourceName), DatasourceBody(AlertManagerDataSourceObject(cfg, project, grafanaName, datasourceName, stage)));
  }

  /** A failed read, for whatever reason, is answered as "does not exist". */
  method GrafanaExist(store: ClusterStore, instanceName: string) returns (exists_: bool)
    ensures exists_ <==> InstanceKey(instanceName) in store.objects && InstanceKey(instanceName) !in store.faults.unreadable
  {
    exists_ := store.Get(InstanceKey(instanceName));
  }

  method DatasourceExist(store: ClusterStore, datasource: string) returns (exists_: bool)
    ensures exists_ <==> DatasourceKey(datasource) in store.objects && DatasourceKey(datasource) !in store.faults.unreadable
  {
    exists_ := store.Get(DatasourceKey(datasource));
  }

  /** A rejected delete is only logged: the object stays. */
  method DeleteGrafana(store: ClusterStore, grafanaName: string)
    modifies store
    ensures store.objects == DeleteSpec(old(store.objects), store.faults.undeletable, InstanceKey(grafanaName))
  {
    store.Delete(InstanceKey(grafanaName));
  }

  method DeleteDatasource(store: ClusterStore, datasource: string)
    modifies store
    ensures store.objects == DeleteSpec(old(store.objects), store.faults.undeletable, DatasourceKey(datasource))
  {
    store.Delete(DatasourceKey(datasource));
  }

  // ---------------------------------------------------------------------------
  // handleInit (src/kubernetes.ts:317-338)

  /** The three checks run first, against the store as it was on entry; each
      create is then guarded by its own check. A check whose read failed
      answers "absent" although the object may be there; the create it then
      triggers meets a taken name and changes nothing, so read faults do not
      show in the effect. The older copy of this sequence
      in src/index.ts:23-39 and 42-56 differs only in the role expression and
      the stage label it passes, hence the two parameters. */
  function InitEffect(m: Objects, refused: set<ObjectKey>, cfg: Config, grafanaName: string, project: string,
                      roleAttributePath: string, stage: string): Objects
  {
    var m1 := if InstanceKey(grafanaName) in m then m
              else CreateSpec(m, refused, InstanceKey(grafanaName), InstanceFor(cfg, grafanaName, roleAttributePath));
    var m2 := if PromKey(grafanaName) in m then m1
              else CreateSpec(m1, refused, PromKey(grafanaName), PromFor(cfg, project, grafanaName, stage));
    if AmKey(grafanaName) in m then m2
    else CreateSpec(m2, refused, AmKey(grafanaName), AmFor(cfg, project, grafanaName, stage))
  }

  method HandleInit(store: ClusterStore, cfg: Config, grafanaName: string, project: string, projectName: string, stage: string)
    modifies store
    ensures store.objects == InitEffect(old(store.objects), store.refused, cfg, grafanaName, project,
                                        RoleAttributePath(projectName, stage), stage)
  {
    ReconcileInstance(store, cfg, grafanaName, project, RoleAttributePath(projectName, stage), stage);
  }

  /** The body of handleInit once the role expression is chosen: three
      existence checks, then each object reported missing is created. */
  method ReconcileInstance(store: ClusterStore, cfg: Config, grafanaName: string, project: string,
                           roleAttributePath: string, stage: string)
    modifies store
    ensures store.objects == InitEffect(old(store.objects), store.refused, cfg, grafanaName, project, roleAttributePath, stage)
  {
    var grafanaCrdExist := GrafanaExist(store, grafanaName);
    var datasourcePromExist := DatasourceExist(store, PromDatasourceName(grafanaName));
    var datasourceAlertExist := DatasourceExist(store, AmDatasourceName(grafanaName));
    if !grafanaCrdExist {
      CreateGrafanaInstance(store, cfg, grafanaName, roleAttributePath);
    }
    if !datasourcePromExist {
      CreateDataSourcePrometheus(store, cfg, project, grafanaName, PromDatasourceName(grafanaName), stage);
    }
    if !datasourceAlertExist {
      CreateDataSourceAlertmanager(store, cfg, project, grafanaName, AmDatasourceName(grafanaName), stage);
    }
  }

  /** An object present before handleInit is left exactly as it was: nothing is re-created. */
  lemma InitNeverOverwrites(m: Objects, refused: set<ObjectKey>, cfg: Config, grafanaName: string, project: string,
                            roleAttributePath: string, stage: string, k: ObjectKey)
    requires k in m
    ensures var r := InitEffect(m, refused, cfg, grafanaName, project, roleAttributePath, stage);
      k in r && r[k] == m[k]
  {
    OwnedKeysDistinct(grafanaName);
  }

  /** When the server accepts the creates, all three objects exist afterwards,
      and each one that was missing now holds the body built for it. */
  lemma InitCreatesAll(m: Objects, refused: set<ObjectKey>, cfg: Config, grafanaName: string, project: string,
                       roleAttributePath: string, stage: string)
    requires InstanceKey(grafanaName) !in refused && PromKey(grafanaName) !in refused && AmKey(grafanaName) !in refused
    ensures var r := InitEffect(m, refused, cfg, grafanaName, project, roleAttributePath, stage);
      && InstanceKey(grafanaName) in r && PromKey(grafanaName) in r && AmKey(grafanaName) in r
      && (InstanceKey(grafanaName) !in m ==> r[InstanceKey(grafanaName)] == InstanceFor(cfg, grafanaName, roleAttributePath))
      && (PromKey(grafanaName) !in m ==> r[PromKey(grafanaName)] == PromFor(cfg, project, grafanaName, stage))
      && (AmKey(grafanaName) !in m ==> r[AmKey(grafanaName)] == AmFor(cfg, project, grafanaName, stage))
  {
    OwnedKeysDistinct(grafanaName);
  }

  /** handleInit touches only the three keys of its instance name. */
  lemma InitFrame(m: Objects, refused: set<ObjectKey>, cfg: Config, grafanaName: string, project: string,
                  roleAttributePath: string, stage: string, k: ObjectKey)
    requires k != InstanceKey(grafanaName) && k != PromKey(grafanaName) && k != AmKey(grafanaName)
    ensures var r := InitEffect(m, refused, cfg, grafanaName, project, roleAttributePath, stage);
      (k in r <==> k in m) && (k in m ==> r[k] == m[k])
  {
  }

  /** Running handleInit a second time changes nothing. */
  lemma InitIdempotent(m: Objects, refused: set<ObjectKey>, cfg: Config, grafanaName: string, project: string,
                       roleAttributePath: string, stage: string)
    ensures var r := InitEffect(m, refused, cfg, grafanaName, project, roleAttributePath, stage);
      InitEffect(r, refused, cfg, grafanaName, project, roleAttributePath, stage) == r
  {
    OwnedKeysDistinct(grafanaName);
    var r := InitEffect(m, refused, cfg, grafanaName, project, roleAttributePath, stage);
    var keys := {InstanceKey(grafanaName), PromKey(grafanaName), AmKey(grafanaName)};
    assert forall k :: k in keys && k !in r ==> k in refused;
  }

  // ---------------------------------------------------------------------------
  // handleDelete (src/kubernetes.ts:340-356)

  /** As written: the check for the alertmanager datasource guards a second
      delete of the prometheus name. A read that fails counts as "absent", and
      a rejected delete leaves its object. */
  function DeleteEffect(m: Objects, faults: Faults, stageStillPresent: bool, grafanaName: string): Objects {
    if stageStillPresent then m
    else
      var m1 := if Found(m, faults, PromKey(grafanaName)) then DeleteSpec(m, faults.undeletable, PromKey(grafanaName)) else m;
      var m2 := if Found(m, faults, AmKey(grafanaName)) then DeleteSpec(m1, faults.undeletable, PromKey(grafanaName)) else m1;
      if Found(m, faults, InstanceKey(grafanaName)) then DeleteSpec(m2, faults.undeletable, InstanceKey(grafanaName)) else m2
  }

  /** `stage` is only printed. */
  method HandleDelete(store: ClusterStore, stageStillPresent: bool, grafanaName: string, stage: Option<string>)
    modifies store
    ensures store.objects == DeleteEffect(old(store.objects), store.faults, stageStillPresent, grafanaName)
  {
    if stageStillPresent {
      return;
    }
    RemoveInstance(store, grafanaName);
  }

  /** The body of handleDelete past its guard: three existence checks, then
      the deletes they guard. */
  method RemoveInstance(store: ClusterStore, grafanaName: string)
    modifies store
    ensures store.objects == DeleteEffect(old(store.objects), store.faults, false, grafanaName)
  {
    var grafanaCrdExist := GrafanaExist(store, grafanaName);
    var datasourcePromExist := DatasourceExist(store, PromDatasourceName(grafanaName));
    var datasourceAlertExist := DatasourceExist(store, AmDatasourceName(grafanaName));
    if datasourcePromExist {
      DeleteDatasource(store, PromDatasourceName(grafanaName));
    }
    if datasourceAlertExist {
      DeleteDatasource(store, PromDatasourceName(grafanaName));
    }
    if grafanaCrdExist {
      DeleteGrafana(store, grafanaName);
    }
  }

  /** While the stage is still present handleDelete changes nothing. */
  lemma DeleteWhileStagePresent(m: Objects, faults: Faults, grafanaName: string)
    ensures DeleteEffect(m, faults, true, grafanaName) == m
  {
  }

  /** Otherwise the instance goes unless its read or its delete failed; the
      prometheus datasource goes when one of the two datasource reads found
      an object and its delete went through; the alertmanager datasource is
      exactly as it was (it survives the delete), and so is every object left. */
  lemma DeleteLeavesAlertmanager(m: Objects, faults: Faults, grafanaName: string)
    ensures var r := DeleteEffect(m, faults, false, grafanaName);
      && (InstanceKey(grafanaName) in r <==>
            InstanceKey(grafanaName) in m
            && (InstanceKey(grafanaName) in faults.unreadable || InstanceKey(grafanaName) in faults.undeletable))
      && (PromKey(grafanaName) in r <==>
            PromKey(grafanaName) in m
            && (PromKey(grafanaName) in faults.undeletable
                || (!Found(m, faults, PromKey(grafanaName)) && !Found(m, faults, AmKey(grafanaName)))))
      && (AmKey(grafanaName) in r <==> AmKey(grafanaName) in m)
      && (forall k :: k in r ==> k in m && r[k] == m[k])
      && (forall k :: k != InstanceKey(grafanaName) && k != PromKey(grafanaName) && k in m ==> k in r)
  {
    OwnedKeysDistinct(grafanaName);
  }

  /** The server answers the reads of the instance and of its prometheus
      datasource and accepts their deletes. */
  predicate Cooperates(faults: Faults, grafanaName: string) {
    && InstanceKey(grafanaName) !in faults.unreadable && InstanceKey(grafanaName) !in faults.undeletable
    && PromKey(grafanaName) !in faults.unreadable && PromKey(grafanaName) !in faults.undeletable
  }

  /** Then the effect is removing the instance key and the prometheus key. */
  lemma DeleteRemovesInstanceAndProm(m: Objects, faults: Faults, grafanaName: string)
    requires Cooperates(faults, grafanaName)
    ensures DeleteEffect(m, faults, false, grafanaName) == m - {InstanceKey(grafanaName), PromKey(grafanaName)}
  {
    var r := DeleteEffect(m, faults, false, grafanaName);
    var expected := m - {InstanceKey(grafanaName), PromKey(grafanaName)};
    DeleteLeavesAlertmanager(m, faults, grafanaName);
    assert forall k :: k in r <==> k in expected;
  }

  /** So after handleInit and then handleDelete of the same instance the
      alertmanager datasource is still there whenever its create was accepted,
      and the instance only survives a failed read or delete. */
  lemma InitThenDeleteLeavesOrphan(m: Objects, refused: set<ObjectKey>, faults: Faults, cfg: Config, grafanaName: string,
                                   project: string, roleAttributePath: string, stage: string)
    requires AmKey(grafanaName) !in refused
    ensures var r := DeleteEffect(InitEffect(m, refused, cfg, grafanaName, project, roleAttributePath, stage), faults, false, grafanaName);
      && AmKey(grafanaName) in r
      && (InstanceKey(grafanaName) in r ==>
            InstanceKey(grafanaName) in faults.unreadable || InstanceKey(grafanaName) in faults.undeletable)
  {
    OwnedKeysDistinct(grafanaName);
    var i := InitEffect(m, refused, cfg, grafanaName, project, roleAttributePath, stage);
    assert AmKey(grafanaName) in i;
    DeleteLeavesAlertmanager(i, faults, grafanaName);
  }
}
