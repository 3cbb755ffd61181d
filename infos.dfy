/** The service description the console shows for the plugin (src/infos.ts):
    for each project, one link per stage to the Grafana instance the
    handlers create for it. */
module Infos {
  import opened Wrappers
  import opened Naming

  const NAME := "Metrique"
  const HOST := "https://grafana.apps.c7.numerique-interieur.com/"
  const HORS_PROD_TITLE := "Metrics hors Prod"
  const PROD_TITLE := "Metrics Prod"

  datatype Link = Link(to: string, title: string)

  /** `to({ project })`: the non-production link first, then the production one. */
  function ServiceLinks(project: string): seq<Link> {
    [ Link(HOST + HorsProdInstanceName(project), HORS_PROD_TITLE),
      Link(HOST + ProdInstanceName(project), PROD_TITLE) ]
  }

  /** The instance a link points at: the path after the host, when the URL is on it. */
  function LinkedInstance(url: string): (r: Option<string>)
    ensures r.Some? <==> HOST <= url
    ensures r.Some? ==> url == HOST + r.value
  {
    if HOST <= url then Some(url[|HOST|..]) else None
  }

  /** Each link leads to the instance of its stage, and the titles say which. */
  lemma LinksLeadToInstances(project: string)
    ensures var r := ServiceLinks(project);
      |r| == 2
      && LinkedInstance(r[0].to) == Some(HorsProdInstanceName(project)) && r[0].title == HORS_PROD_TITLE
      && LinkedInstance(r[1].to) == Some(ProdInstanceName(project)) && r[1].title == PROD_TITLE
  {
    var r := ServiceLinks(project);
    assert HOST <= r[0].to && r[0].to[|HOST|..] == HorsProdInstanceName(project);
    assert HOST <= r[1].to && r[1].to[|HOST|..] == ProdInstanceName(project);
  }

  /** The two links of a project never lead to the same instance. */
  lemma LinksDistinct(project: string)
    ensures ServiceLinks(project)[0].to != ServiceLinks(project)[1].to
  {
    LinksLeadToInstances(project);
    StageInstancesDistinct(project);
  }

  /** Different projects get different links, for either stage. */
  lemma LinksInjective(p: string, q: string, i: nat)
    requires i < 2
    requires ServiceLinks(p)[i].to == ServiceLinks(q)[i].to
    ensures p == q
  {
    LinksLeadToInstances(p);
    LinksLeadToInstances(q);
    if i == 0 {
      HorsProdInstanceNameInjective(p, q);
    } else {
      ProdInstanceNameInjective(p, q);
    }
  }
}
