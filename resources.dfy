/** The custom-resource bodies the plugin sends to the cluster's Grafana operator
    (src/kubernetes.ts:5-202): the `Grafana` instance, its two `GrafanaDatasource`
    objects, the container list of the instance deployment, and the role-mapping
    expression Grafana evaluates at login. All pure construction. */
module Resources {
  import opened Wrappers
  import opened Settings

  const API_VERSION := "grafana.integreatly.org/v1beta1"
  const NAMESPACE := "infra-grafana"
  const MANAGED_BY := "app.kubernetes.io/managed-by"
  const CONSOLE := "dso-console"
  const TENANT_HEADER := "X-Scope-OrgID"
  const CREDENTIALS := "credentials"

  datatype Metadata = Metadata(name: string, namespace: string, labels: map<string, string>)

  datatype EnvVar = EnvVar(name: string, value: string)

  /** A container entry; `env` is absent unless the proxy settings are present. */
  datatype Container = Container(image: string, name: string, env: Option<seq<EnvVar>>)

  datatype GenericOAuth = GenericOAuth(
    apiUrl: string,
    authUrl: string,
    clientId: string,
    clientSecret: Option<string>,
    emailAttributePath: string,
    groupsAttributePath: string,
    enabled: string,
    roleAttributePath: string,
    roleAttributeStrict: string,
    scopes: string,
    tlsSkipVerifyInsecure: string,
    tokenUrl: string)

  datatype GrafanaConfig = GrafanaConfig(
    oauthAllowInsecureEmailLookup: string,
    genericOAuth: GenericOAuth,
    rootUrl: string,
    serveFromSubPath: string)

  datatype RouteSpec = RouteSpec(
    host: string,
    path: string,
    targetPort: int,
    tlsTermination: string,
    toKind: string,
    toName: string,
    toWeight: int,
    wildcardPolicy: string)

  datatype GrafanaSpec = GrafanaSpec(config: GrafanaConfig, containers: seq<Container>, route: RouteSpec)

  datatype Grafana = Grafana(apiVersion: string, kind: string, metadata: Metadata, spec: GrafanaSpec)

  /** One `valuesFrom` entry: copy key `key` of secret `secretName` into `targetPath`. */
  datatype SecretRef = SecretRef(targetPath: string, key: string, secretName: string)

  datatype DatasourceSettings = DatasourceSettings(
    access: string,
    basicAuth: bool,
    basicAuthUser: string,
    isDefault: bool,
    httpHeaderName1: string,
    name: string,
    basicAuthPassword: string,
    httpHeaderValue1: string,
    dsType: string,
    uid: string,
    url: string)

  datatype DatasourceSpec = DatasourceSpec(
    datasource: DatasourceSettings,
    matchLabels: map<string, string>,
    valuesFrom: seq<SecretRef>)

  datatype GrafanaDatasource = GrafanaDatasource(
    apiVersion: string,
    kind: string,
    metadata: Metadata,
    spec: DatasourceSpec)

  /** `${keycloakUrl?.replace(/\/$/, '')}/realms/${keycloakRealm}/protocol/openid-connect/` */
  function OpenIdPrefix(cfg: Config): string {
    StrippedUrl(cfg.keycloakUrl) + "/realms/" + Interp(cfg.keycloakRealm) + "/protocol/openid-connect/"
  }

  /** getGrafanaObject (src/kubernetes.ts:5-72). */
  function GrafanaObject(cfg: Config, instanceName: string, roleAttributePath: string, containers: seq<Container>): (r: Grafana)
    ensures r.spec.containers == containers
  {
    Grafana(
      API_VERSION,
      "Grafana",
      Metadata(instanceName, NAMESPACE, map["app" := instanceName, "dashboards" := "default", MANAGED_BY := CONSOLE]),
      GrafanaSpec(
        GrafanaConfig(
          "true",
          GenericOAuth(
            OpenIdPrefix(cfg) + "userinfo",
            OpenIdPrefix(cfg) + "auth",
            "grafana-projects",
            cfg.keycloakClientSecret,
            "email",
            "group",
            "true",
            roleAttributePath,
            "true",
            "profile, group, email, openid",
            "true",
            OpenIdPrefix(cfg) + "token"),
          Interp(cfg.grafanaUrl) + "/" + instanceName + "/",
          "true"),
        containers,
        RouteSpec(Interp(cfg.grafanaHost), "/" + instanceName, 3000, "edge", "Service", instanceName + "-service", 100, "None")))
  }

  /** What distinguishes the two datasource kinds; everything else is common. */
  datatype DatasourceKind = Prometheus | Alertmanager

  /** The body shared by getGrafanaPrometheusDataSourceObject and
      getGrafanaAlertManagerDataSourceObject (src/kubernetes.ts:74-202). */
  function DatasourceObject(kind: DatasourceKind, cfg: Config, project: string, grafanaName: string, datasourceName: string, stage: string): GrafanaDatasource {
    GrafanaDatasource(
      API_VERSION,
      "GrafanaDatasource",
      Metadata(datasourceName, NAMESPACE, map[MANAGED_BY := CONSOLE]),
      DatasourceSpec(
        DatasourceSettings(
          "proxy",
          true,
          "${PROMETHEUS_USERNAME}",
          kind == Prometheus,
          TENANT_HEADER,
          if kind == Prometheus then "Prometheus" else "Alertmanager",
          "${PROMETHEUS_PASSWORD}",
          stage + "-" + project,
          if kind == Prometheus then "prometheus" else "alertmanager",
          if kind == Prometheus then "prometheus" else "alertmanager",
          if kind == Prometheus then Interp(cfg.mimirUrl) + "/prometheus" else Interp(cfg.mimirUrl)),
        map["app" := grafanaName],
        [ SecretRef("basicAuthUser", "PROMETHEUS_USERNAME", CREDENTIALS),
          SecretRef("secureJsonData.basicAuthPassword", "PROMETHEUS_PASSWORD", CREDENTIALS) ]))
  }

  /** getGrafanaPrometheusDataSourceObject (src/kubernetes.ts:74-137). */
  function PrometheusDataSourceObject(cfg: Config, project: string, grafanaName: string, datasourceName: string, stage: string): GrafanaDatasource {
    DatasourceObject(Prometheus, cfg, project, grafanaName, datasourceName, stage)
  }

  /** getGrafanaAlertManagerDataSourceObject (src/kubernetes.ts:139-202). */
  function AlertManagerDataSourceObject(cfg: Config, project: string, grafanaName: string, datasourceName: string, stage: string): GrafanaDatasource {
    DatasourceObject(Alertmanager, cfg, project, grafanaName, datasourceName, stage)
  }

  /** The container list built in createGrafanaInstance (src/kubernetes.ts:207-227):
      `...(HTTP_PROXY && HTTPS_PROXY) && { env: [...] }` spreads the proxy
      variables only when both proxy settings are truthy. */
  function ContainersSpec(cfg: Config): (r: seq<Container>)
    ensures |r| == 1 && r[0].image == "grafana/grafana:9.5.5" && r[0].name == "grafana"
    ensures r[0].env.Some? <==> Truthy(cfg.httpProxy) && Truthy(cfg.httpsProxy)
  {
    var proxied := Truthy(cfg.httpProxy) && Truthy(cfg.httpsProxy);
    [ Container(
        "grafana/grafana:9.5.5",
        "grafana",
        if proxied then
          Some([ EnvVar("HTTP_PROXY", Interp(cfg.httpProxy)),
                 EnvVar("HTTPS_PROXY", Interp(cfg.httpsProxy)),
                 EnvVar("NO_PROXY", Interp(cfg.noProxy)) ])
        else None) ]
  }

  // ---------------------------------------------------------------------------
  // Role mapping

  /** One clause `contains(groups[*], '<group>') && '<role>'` of a role expression. */
  datatype RoleRule = RoleRule(group: string, role: string)

  function Clause(rule: RoleRule): string {
    "contains(groups[*], '" + rule.group + "') && '" + rule.role + "'"
  }

  /** Clauses joined by ` || `. */
  function RenderRules(rules: seq<RoleRule>): string
    decreases |rules|
  {
    if rules == [] then ""
    else if |rules| == 1 then Clause(rules[0])
    else Clause(rules[0]) + " || " + RenderRules(rules[1..])
  }

  /** How Grafana reads such an expression at login: `a && 'R' || b && 'S'` gives
      the role of the first clause whose group the user belongs to, and nothing
      when there is none; with `role_attribute_strict: 'true'` nothing means the
      login is refused. */
  function GrantedRole(rules: seq<RoleRule>, memberOf: set<string>): (r: Option<string>)
    ensures r.None? <==> forall i :: 0 <= i < |rules| ==> rules[i].group !in memberOf
    ensures r.Some? ==> exists i :: 0 <= i < |rules| && rules[i].group in memberOf && rules[i].role == r.value
                                    && forall j :: 0 <= j < i ==> rules[j].group !in memberOf
  {
    if rules == [] then None
    else if rules[0].group in memberOf then Some(rules[0].role)
    else
      var rest := GrantedRole(rules[1..], memberOf);
      assert forall i :: 1 <= i < |rules| ==> rules[i] == rules[1..][i - 1];
      rest
  }

  /** The edit and view groups a stage's instance maps to Editor and Viewer. */
  function StageRules(projectName: string, stage: string): seq<RoleRule> {
    [ RoleRule("/" + projectName + "/metrics/grafana-" + stage + "-edit", "Editor"),
      RoleRule("/" + projectName + "/metrics/grafana-" + stage + "-view", "Viewer") ]
  }

  /** The expression handleInit hands to createGrafanaInstance (src/kubernetes.ts:328):
      `contains(groups[*], '/<project>/metrics/grafana-<stage>-edit') && 'Editor' ||
       contains(groups[*], '/<project>/metrics/grafana-<stage>-view') && 'Viewer'`. */
  function RoleAttributePath(projectName: string, stage: string): string {
    RenderRules(StageRules(projectName, stage))
  }

  // ---------------------------------------------------------------------------
  // Properties of the builders

  /** The instance is named after its argument and carries that name as its `app`
      label, which is what datasources select on, plus the console's managed-by marker. */
  lemma GrafanaIdentifiedByName(cfg: Config, instanceName: string, roleAttributePath: string, containers: seq<Container>)
    ensures var g := GrafanaObject(cfg, instanceName, roleAttributePath, containers);
      && g.apiVersion == API_VERSION && g.kind == "Grafana"
      && g.metadata.name == instanceName && g.metadata.namespace == NAMESPACE
      && "app" in g.metadata.labels && g.metadata.labels["app"] == g.metadata.name
      && MANAGED_BY in g.metadata.labels && g.metadata.labels[MANAGED_BY] == CONSOLE
  {
  }

  /** Several instances share one host: each is routed under `/<name>`, sends the
      route to `<name>-service`, and its public root URL ends with that same sub-path. */
  lemma GrafanaServedUnderItsName(cfg: Config, instanceName: string, roleAttributePath: string, containers: seq<Container>)
    ensures var g := GrafanaObject(cfg, instanceName, roleAttributePath, containers);
      && g.spec.route.path == "/" + instanceName
      && g.spec.config.rootUrl == Interp(cfg.grafanaUrl) + g.spec.route.path + "/"
      && g.spec.config.serveFromSubPath == "true"
      && g.spec.route.toName == instanceName + "-service"
      && g.spec.route.host == Interp(cfg.grafanaHost)
      && g.spec.containers == containers
  {
  }

  /** The three OAuth endpoints of the realm differ only in their last segment. */
  lemma OAuthEndpointsShareRealm(cfg: Config, instanceName: string, roleAttributePath: string, containers: seq<Container>)
    ensures var o := GrafanaObject(cfg, instanceName, roleAttributePath, containers).spec.config.genericOAuth;
      && o.apiUrl == OpenIdPrefix(cfg) + "userinfo"
      && o.authUrl == OpenIdPrefix(cfg) + "auth"
      && o.tokenUrl == OpenIdPrefix(cfg) + "token"
  {
  }

  /** The Keycloak URL may be configured with or without its trailing slash: both
      spellings give the same endpoints, with a single slash before `realms`. */
  lemma OpenIdPrefixIgnoresTrailingSlash(cfg: Config, base: string)
    requires base == [] || base[|base| - 1] != '/'
    requires cfg.keycloakUrl == Some(base) || cfg.keycloakUrl == Some(base + "/")
    ensures OpenIdPrefix(cfg) == base + "/realms/" + Interp(cfg.keycloakRealm) + "/protocol/openid-connect/"
  {
    if cfg.keycloakUrl == Some(base + "/") {
      StripTrailingSlashRemovesOne(base);
    }
  }

  /** The role expression is passed through untouched and strictly enforced; the
      OAuth client secret, unlike the datasource credentials, is written into the
      body itself. */
  lemma RoleMappingVerbatim(cfg: Config, instanceName: string, roleAttributePath: string, containers: seq<Container>)
    ensures var o := GrafanaObject(cfg, instanceName, roleAttributePath, containers).spec.config.genericOAuth;
      && o.roleAttributePath == roleAttributePath
      && o.roleAttributeStrict == "true"
      && o.clientId == "grafana-projects"
      && o.clientSecret == cfg.keycloakClientSecret
  {
  }

  /** Each datasource attaches to the instance built under the same name: its
      instance selector asks for exactly that instance's `app` label. */
  lemma DatasourceSelectsInstance(kind: DatasourceKind, cfg: Config, project: string, grafanaName: string,
                                  datasourceName: string, stage: string, roleAttributePath: string, containers: seq<Container>)
    ensures var d := DatasourceObject(kind, cfg, project, grafanaName, datasourceName, stage);
            var g := GrafanaObject(cfg, grafanaName, roleAttributePath, containers);
      && d.spec.matchLabels.Keys == {"app"}
      && d.spec.matchLabels["app"] == g.metadata.labels["app"]
      && d.metadata.name == datasourceName
      && d.metadata.labels == map[MANAGED_BY := CONSOLE]
  {
  }

  /** Both datasources scope queries to a tenant `<stage>-<project>`. */
  lemma DatasourceTenant(kind: DatasourceKind, cfg: Config, project: string, grafanaName: string, datasourceName: string, stage: string)
    ensures var s := DatasourceObject(kind, cfg, project, grafanaName, datasourceName, stage).spec.datasource;
      s.httpHeaderName1 == TENANT_HEADER && s.httpHeaderValue1 == stage + "-" + project
  {
  }

  /** The stage labels the code uses: 'prod' and 'hprod' (src/functions.ts) and
      'hors-prod' (src/index.ts). */
  predicate KnownStage(stage: string) {
    stage == "prod" || stage == "hprod" || stage == "hors-prod"
  }

  /** No stage label followed by `-` is a prefix of another one. */
  lemma StagePrefixFree(s1: string, s2: string, rest1: string, rest2: string)
    requires KnownStage(s1) && KnownStage(s2)
    requires s1 + "-" + rest1 == s2 + "-" + rest2
    ensures s1 == s2
  {
    var a, b := s1 + "-" + rest1, s2 + "-" + rest2;
    assert a[0] == s1[0] && a[1] == s1[1] && a[4] == (if |s1| == 4 then '-' else s1[4]);
    assert b[0] == s2[0] && b[1] == s2[1] && b[4] == (if |s2| == 4 then '-' else s2[4]);
  }

  /** With the stage labels in use, distinct (stage, project) pairs never share a
      tenant: one project cannot read another project's metrics, nor one stage the other's. */
  lemma TenantHeaderInjective(s1: string, p1: string, s2: string, p2: string)
    requires KnownStage(s1) && KnownStage(s2)
    requires s1 + "-" + p1 == s2 + "-" + p2
    ensures s1 == s2 && p1 == p2
  {
    StagePrefixFree(s1, s2, p1, p2);
    var a := s1 + "-" + p1;
    assert p1 == a[|s1| + 1..];
    assert p2 == (s2 + "-" + p2)[|s2| + 1..];
  }

  /** Credentials are never inlined: the user and password fields hold placeholders
      filled from the `credentials` secret, and the body depends on the configuration
      only through the metrics backend URL, so no secret setting can leak into it. */
  lemma CredentialsOnlyByReference(kind: DatasourceKind, cfg1: Config, cfg2: Config, project: string,
                                   grafanaName: string, datasourceName: string, stage: string)
    requires cfg1.mimirUrl == cfg2.mimirUrl
    ensures DatasourceObject(kind, cfg1, project, grafanaName, datasourceName, stage)
         == DatasourceObject(kind, cfg2, project, grafanaName, datasourceName, stage)
    ensures var d := DatasourceObject(kind, cfg1, project, grafanaName, datasourceName, stage);
      && d.spec.datasource.basicAuth
      && d.spec.datasource.basicAuthUser == "${PROMETHEUS_USERNAME}"
      && d.spec.datasource.basicAuthPassword == "${PROMETHEUS_PASSWORD}"
      && d.spec.valuesFrom == [ SecretRef("basicAuthUser", "PROMETHEUS_USERNAME", CREDENTIALS),
                                SecretRef("secureJsonData.basicAuthPassword", "PROMETHEUS_PASSWORD", CREDENTIALS) ]
  {
  }

  /** Prometheus is the default datasource and is reached under `/prometheus` of the
      backend; Alertmanager is not the default and uses the backend URL itself. */
  lemma PrometheusAndAlertmanagerDiffer(cfg: Config, project: string, grafanaName: string, stage: string, promName: string, amName: string)
    ensures var p := PrometheusDataSourceObject(cfg, project, grafanaName, promName, stage).spec.datasource;
            var a := AlertManagerDataSourceObject(cfg, project, grafanaName, amName, stage).spec.datasource;
      && p.isDefault && !a.isDefault
      && p.url == a.url + "/prometheus"
      && a.url == Interp(cfg.mimirUrl)
      && p.dsType == "prometheus" && a.dsType == "alertmanager"
      && p.uid != a.uid
  {
  }

  /** When the proxy variables are passed, they are the three proxy settings, and an
      unset NO_PROXY arrives as the text "undefined". */
  lemma ProxyEnvironment(cfg: Config)
    requires Truthy(cfg.httpProxy) && Truthy(cfg.httpsProxy)
    ensures ContainersSpec(cfg)[0].env == Some([ EnvVar("HTTP_PROXY", cfg.httpProxy.value),
                                                 EnvVar("HTTPS_PROXY", cfg.httpsProxy.value),
                                                 EnvVar("NO_PROXY", Interp(cfg.noProxy)) ])
    ensures cfg.noProxy.None? ==> ContainersSpec(cfg)[0].env.value[2].value == "undefined"
  {
  }

  /** Write access wins over read access; read access alone gives Viewer; a user in
      neither group gets no role, so the login is refused. */
  lemma StageRoleMapping(projectName: string, stage: string, memberOf: set<string>)
    ensures var rules := StageRules(projectName, stage);
      && (rules[0].group in memberOf ==> GrantedRole(rules, memberOf) == Some("Editor"))
      && (rules[0].group !in memberOf && rules[1].group in memberOf ==> GrantedRole(rules, memberOf) == Some("Viewer"))
      && (rules[0].group !in memberOf && rules[1].group !in memberOf ==> GrantedRole(rules, memberOf) == None)
  {
    var rules := StageRules(projectName, stage);
    if rules[0].group !in memberOf && rules[1].group in memberOf {
      assert rules[1..][0] == rules[1];
    }
  }
}
