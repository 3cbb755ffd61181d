/** What both orchestrators (src/functions.ts and its older copy src/index.ts)
    do to the cluster per stage: a project has a production instance
    `<project>-prod` and a non-production instance `<project>-hors-prod`, and
    the handlers reconcile or remove the one of each stage they are told to. */
module Stages {
  import opened Settings
  import opened Naming
  import opened Cluster
  import opened Kubernetes

  /** `k` is one of the three objects of the instance `grafanaName`. */
  predicate OwnedBy(k: ObjectKey, grafanaName: string) {
    k == InstanceKey(grafanaName) || k == PromKey(grafanaName) || k == AmKey(grafanaName)
  }

  /** The two instances of a project own disjoint sets of objects. */
  lemma StageObjectsDisjoint(project: string, k: ObjectKey)
    ensures !(OwnedBy(k, ProdInstanceName(project)) && OwnedBy(k, HorsProdInstanceName(project)))
  {
    var p, h := ProdInstanceName(project), HorsProdInstanceName(project);
    StageInstancesDistinct(project);
    DatasourceKindsDistinct(p, h);
    DatasourceKindsDistinct(h, p);
    if PromKey(p) == PromKey(h) {
      PromDatasourceNameInjective(p, h);
    }
    if AmKey(p) == AmKey(h) {
      AmDatasourceNameInjective(p, h);
    }
  }

  /** Reconciliation of the production instance when `prod` holds, then of
      the non-production one when `horsProd` holds, each with its own role
      expression and stage label. */
  function InitStages(m: Objects, refused: set<ObjectKey>, cfg: Config, project: string, prod: bool, horsProd: bool,
                      prodRole: string, horsProdRole: string, prodLabel: string, horsProdLabel: string): Objects
  {
    var m1 := if prod then InitEffect(m, refused, cfg, ProdInstanceName(project), project, prodRole, prodLabel) else m;
    if horsProd then InitEffect(m1, refused, cfg, HorsProdInstanceName(project), project, horsProdRole, horsProdLabel)
    else m1
  }

  /** An object that belongs to no reconciled stage is left exactly as it was:
      an absent stage and every other project's objects are not touched. */
  lemma InitStagesTouchesOnlyPresentStages(m: Objects, refused: set<ObjectKey>, cfg: Config, project: string,
                                           prod: bool, horsProd: bool, prodRole: string, horsProdRole: string,
                                           prodLabel: string, horsProdLabel: string, k: ObjectKey)
    requires OwnedBy(k, ProdInstanceName(project)) ==> !prod
    requires OwnedBy(k, HorsProdInstanceName(project)) ==> !horsProd
    ensures var r := InitStages(m, refused, cfg, project, prod, horsProd, prodRole, horsProdRole, prodLabel, horsProdLabel);
      (k in r <==> k in m) && (k in m ==> r[k] == m[k])
  {
    var m1 := if prod then InitEffect(m, refused, cfg, ProdInstanceName(project), project, prodRole, prodLabel) else m;
    if prod {
      InitFrame(m, refused, cfg, ProdInstanceName(project), project, prodRole, prodLabel, k);
    }
    if horsProd {
      InitFrame(m1, refused, cfg, HorsProdInstanceName(project), project, horsProdRole, horsProdLabel, k);
    }
  }

  /** An object present beforehand is never re-created or replaced. */
  lemma InitStagesNeverOverwrites(m: Objects, refused: set<ObjectKey>, cfg: Config, project: string,
                                  prod: bool, horsProd: bool, prodRole: string, horsProdRole: string,
                                  prodLabel: string, horsProdLabel: string, k: ObjectKey)
    requires k in m
    ensures var r := InitStages(m, refused, cfg, project, prod, horsProd, prodRole, horsProdRole, prodLabel, horsProdLabel);
      k in r && r[k] == m[k]
  {
    var m1 := if prod then InitEffect(m, refused, cfg, ProdInstanceName(project), project, prodRole, prodLabel) else m;
    if prod {
      InitNeverOverwrites(m, refused, cfg, ProdInstanceName(project), project, prodRole, prodLabel, k);
    }
    if horsProd {
      InitNeverOverwrites(m1, refused, cfg, HorsProdInstanceName(project), project, horsProdRole, horsProdLabel, k);
    }
  }

  /** A reconciled stage whose creates the server accepts has all three of its
      objects afterwards. */
  lemma InitStagesCreates(m: Objects, refused: set<ObjectKey>, cfg: Config, project: string,
                          prod: bool, horsProd: bool, prodRole: string, horsProdRole: string,
                          prodLabel: string, horsProdLabel: string, k: ObjectKey)
    requires k !in refused
    requires (prod && OwnedBy(k, ProdInstanceName(project))) || (horsProd && OwnedBy(k, HorsProdInstanceName(project)))
    ensures k in InitStages(m, refused, cfg, project, prod, horsProd, prodRole, horsProdRole, prodLabel, horsProdLabel)
  {
    var p, h := ProdInstanceName(project), HorsProdInstanceName(project);
    var m1 := if prod then InitEffect(m, refused, cfg, p, project, prodRole, prodLabel) else m;
    if prod && OwnedBy(k, p) {
      InitCreatesOwned(m, refused, cfg, p, project, prodRole, prodLabel, k);
      if horsProd {
        InitNeverOverwrites(m1, refused, cfg, h, project, horsProdRole, horsProdLabel, k);
      }
    } else {
      InitCreatesOwned(m1, refused, cfg, h, project, horsProdRole, horsProdLabel, k);
    }
  }

  /** Each object of the instance whose create the server accepts exists afterwards. */
  lemma InitCreatesOwned(m: Objects, refused: set<ObjectKey>, cfg: Config, grafanaName: string, project: string,
                         roleAttributePath: string, stage: string, k: ObjectKey)
    requires k !in refused && OwnedBy(k, grafanaName)
    ensures k in InitEffect(m, refused, cfg, grafanaName, project, roleAttributePath, stage)
  {
    OwnedKeysDistinct(grafanaName);
  }
}
