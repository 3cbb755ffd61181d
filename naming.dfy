/** The deterministic names the handlers derive from a project: the identity
    group of the project (src/functions.ts:9), the two Grafana instances
    (src/functions.ts:15-16, src/index.ts:16-17) and the two datasources of an
    instance (src/kubernetes.ts:324-325). */
module Naming {

  function ProjectGroupName(organization: string, project: string): string {
    organization + "-" + project
  }

  function ProdInstanceName(project: string): string {
    project + "-prod"
  }

  function HorsProdInstanceName(project: string): string {
    project + "-hors-prod"
  }

  function PromDatasourceName(grafanaName: string): string {
    "datasource-prom-" + grafanaName
  }

  function AmDatasourceName(grafanaName: string): string {
    "datasource-am-" + grafanaName
  }

  /** Two projects never share a production instance name. */
  lemma ProdInstanceNameInjective(p: string, q: string)
    requires ProdInstanceName(p) == ProdInstanceName(q)
    ensures p == q
  {
    assert p == ProdInstanceName(p)[..|p|];
    assert q == ProdInstanceName(q)[..|q|];
  }

  /** Two projects never share a non-production instance name. */
  lemma HorsProdInstanceNameInjective(p: string, q: string)
    requires HorsProdInstanceName(p) == HorsProdInstanceName(q)
    ensures p == q
  {
    assert p == HorsProdInstanceName(p)[..|p|];
    assert q == HorsProdInstanceName(q)[..|q|];
  }

  /** The two stages of one project get different instances. */
  lemma StageInstancesDistinct(p: string)
    ensures ProdInstanceName(p) != HorsProdInstanceName(p)
  {
    var a, b := ProdInstanceName(p), HorsProdInstanceName(p);
    if a == b {
      assert |a| == |p| + 5 && |b| == |p| + 10;
    }
  }

  /** Across projects the suffix scheme is ambiguous: the production instance of
      project `p-hors` is the non-production instance of project `p`. */
  lemma ProdNameCollidesAcrossProjects(p: string)
    ensures ProdInstanceName(p + "-hors") == HorsProdInstanceName(p)
  {
  }

  /** The prometheus and alertmanager datasources of any two instances never collide. */
  lemma DatasourceKindsDistinct(a: string, b: string)
    ensures PromDatasourceName(a) != AmDatasourceName(b)
  {
    assert PromDatasourceName(a)[11] == 'p';
    assert AmDatasourceName(b)[11] == 'a';
  }

  lemma PromDatasourceNameInjective(a: string, b: string)
    requires PromDatasourceName(a) == PromDatasourceName(b)
    ensures a == b
  {
    assert a == PromDatasourceName(a)[16..];
    assert b == PromDatasourceName(b)[16..];
  }

  lemma AmDatasourceNameInjective(a: string, b: string)
    requires AmDatasourceName(a) == AmDatasourceName(b)
    ensures a == b
  {
    assert a == AmDatasourceName(a)[14..];
    assert b == AmDatasourceName(b)[14..];
  }
}
