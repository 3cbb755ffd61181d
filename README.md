# Grafana console plugin: a Dafny model

This project models the Grafana plugin of the cloud-native console. The
console's hook runner calls the plugin when a project's environments are
created or deleted and when a user's permissions change. The plugin keeps two
external systems in step with the console:

- a Keycloak realm, which holds a group tree per project. Under the project
  group there is a `grafana` group (the older copy uses `metrics`), and under
  that four leaf groups whose members get edit or view rights on each stage's
  dashboards;
- the cluster's Grafana operator, which holds per project one Grafana
  instance and two datasources (Prometheus, Alertmanager) for each stage,
  production (`<project>-prod`) and non-production (`<project>-hors-prod`).

The model has these parts:

- **Stores.** The realm is a class `Identity.Store` and the cluster a class
  `Cluster.ClusterStore`. Each admin-client call is a method on its store.
  Each method is proved equal to a specification function over the store's
  state. What a server may answer beyond the program's control is a
  parameter of its store. The cluster may refuse a create, fail a read
  (which the code takes for "absent") or reject a delete (which the code
  only logs). A Keycloak search may leave some children out of the
  `subGroups` lists of its answer.
- **Body builders.** The resource-body builders of `src/kubernetes.ts` are
  pure functions (`Resources`).
- **Handlers.** The handlers of `src/keycloak.ts`, `src/kubernetes.ts`,
  `src/functions.ts`, the older `src/index.ts` with its `src/utils.ts`, and
  the service links of `src/infos.ts` are methods.
- **Proofs.** Each method `ensures` that the new state and its reply match a
  specification function of the old state. Lemmas then state what the
  handlers promise. For example: what is created and what never is; which
  groups a delete removes; that a rerun changes nothing; and that a user's
  permissions only ever grow.

The model follows the code as written, including:

- **Errors.** The error replies say `result: 'OK'`; none says `'KO'`.
- **Permissions.** A cleared permission flag removes nothing. The code only
  logs it.
- **Order of calls.** Calls run one after the other rather than concurrently.
- **Datasources.** There is no list, dedupe or patch logic for datasources.
  An existing object is simply never touched.

Several defects of the code are reproduced as written, and lemmas state what
they cause:

- the second prometheus delete of `handleDelete`;
- the shifted `handleDelete` arguments in `src/functions.ts`;
- the repeated `hprod-RO` id in `deleteKeycloakGroups`;
- the doubled quote in the non-production role expression of `src/index.ts`;
- the in-place splice of the environment list.

Modules:

- **Wrappers:** `Option`, `Result`, `Outcome`.
- **Settings:** the configuration record and JavaScript conversions.
- **Naming:** instance and datasource names.
- **Resources:** the custom-resource bodies and the role expression.
- **Cluster:** the operator's object store.
- **Kubernetes:** `src/kubernetes.ts`.
- **Stages:** the reconciliation shared by both orchestrators.
- **Hooks:** the payload and reply shapes.
- **Identity:** the Keycloak realm and admin client.
- **Keycloak:** `src/keycloak.ts`.
- **Utils:** `src/utils.ts`.
- **Functions:** `src/functions.ts`.
- **Legacy:** `src/index.ts`.
- **Infos:** `src/infos.ts`.

## Model

| member | source | states |
|---|---|---|
| Settings.StripTrailingSlash | src/kubernetes.ts:24 | `replace(/\/$/, '')` removes at most one character, and only a final slash |
| Settings.StripTrailingSlashRemovesOne | src/kubernetes.ts:24-25 | a URL configured with a trailing slash loses exactly that slash |
| Settings.StripTrailingSlashKeepsBare | src/kubernetes.ts:24-25 | a URL without a trailing slash is unchanged |
| Naming.ProjectGroupName | src/functions.ts:9 | the project group is named `<organization>-<project>` |
| Naming.ProdInstanceName | src/functions.ts:15 | the production instance is named `<project>-prod`; injective by ProdInstanceNameInjective |
| Naming.HorsProdInstanceName | src/functions.ts:16 | the non-production instance is named `<project>-hors-prod`; injective by HorsProdInstanceNameInjective |
| Naming.PromDatasourceName | src/kubernetes.ts:324 | the prometheus datasource of an instance is `datasource-prom-<instance>` |
| Naming.AmDatasourceName | src/kubernetes.ts:325 | the alertmanager datasource of an instance is `datasource-am-<instance>` |
| Naming.ProdInstanceNameInjective | src/functions.ts:15 | two projects never share a production instance name |
| Naming.HorsProdInstanceNameInjective | src/functions.ts:16 | two projects never share a non-production instance name |
| Naming.StageInstancesDistinct | src/functions.ts:15-16 | the two stages of a project get different instances |
| Naming.ProdNameCollidesAcrossProjects | src/functions.ts:15-16 | the suffix scheme is ambiguous across projects: project `p-hors` has as production instance the non-production instance of `p` |
| Naming.DatasourceKindsDistinct | src/kubernetes.ts:324-325 | a prometheus datasource name never equals an alertmanager one |
| Naming.PromDatasourceNameInjective | src/kubernetes.ts:324 | distinct instances get distinct prometheus datasource names |
| Naming.AmDatasourceNameInjective | src/kubernetes.ts:325 | distinct instances get distinct alertmanager datasource names |
| Resources.ContainersSpec | src/kubernetes.ts:207-227 | the container carries proxy variables exactly when both HTTP_PROXY and HTTPS_PROXY are truthy |
| Resources.GrafanaObject | src/kubernetes.ts:5-72 | the instance body runs exactly the given containers; its name, routing, sign-in endpoints and role mapping are stated by the four lemmas below |
| Resources.PrometheusDataSourceObject | src/kubernetes.ts:74-137 | the Prometheus datasource body; what it shares with the Alertmanager one and how they differ is stated by the datasource lemmas below |
| Resources.AlertManagerDataSourceObject | src/kubernetes.ts:139-202 | the Alertmanager datasource body, stated by the same lemmas |
| Resources.ProxyEnvironment | src/kubernetes.ts:212-225 | the proxy variables are the three proxy settings, with an unset NO_PROXY written as "undefined" |
| Resources.GrafanaIdentifiedByName | src/kubernetes.ts:9-16 | the instance is named after its argument, labelled `app: <name>`, marked as managed by the console, in `infra-grafana` |
| Resources.GrafanaServedUnderItsName | src/kubernetes.ts:37-68 | the instance is routed on the shared host under `/<name>` to `<name>-service`, and its root URL ends in the same sub-path |
| Resources.OAuthEndpointsShareRealm | src/kubernetes.ts:23-36 | the userinfo, auth and token endpoints share one realm prefix and differ in their last segment |
| Resources.OpenIdPrefixIgnoresTrailingSlash | src/kubernetes.ts:24-35 | a Keycloak URL with or without trailing slash gives the same endpoints |
| Resources.RoleMappingVerbatim | src/kubernetes.ts:26-32 | the role expression is passed through unchanged with strict role checking, and the client secret is inlined |
| Resources.DatasourceSelectsInstance | src/kubernetes.ts:110-114 | each datasource selects exactly the instance of the same name by its `app` label |
| Resources.DatasourceTenant | src/kubernetes.ts:98-104 | both datasources scope queries to the tenant `<stage>-<project>` |
| Resources.StagePrefixFree | src/kubernetes.ts:104 | no known stage label plus `-` is a prefix of another |
| Resources.TenantHeaderInjective | src/kubernetes.ts:104 | distinct (stage, project) pairs never share a tenant |
| Resources.CredentialsOnlyByReference | src/kubernetes.ts:93-134 | credentials are placeholders filled from the `credentials` secret; the body depends on the configuration only through the metrics URL |
| Resources.PrometheusAndAlertmanagerDiffer | src/kubernetes.ts:96-108 | Prometheus is the default datasource under `/prometheus`; Alertmanager is not the default and uses the bare backend URL |
| Resources.GrantedRole | src/kubernetes.ts:328 | the role Grafana grants is the one of the first clause whose group the user is in, and none when there is no such clause |
| Resources.StageRoleMapping | src/kubernetes.ts:328 | edit access gives Editor, view access alone gives Viewer, neither gives no role |
| Resources.RoleAttributePath | src/kubernetes.ts:328 | the expression handleInit builds for a stage; StageRoleMapping states the roles it grants |
| Cluster.CreateSpec | src/kubernetes.ts:228-261 | a create stores the body under a free name unless the server refuses it; a taken name and every other key are left unchanged |
| Cluster.DeleteSpec | src/kubernetes.ts:298-309 | after a delete the key is absent unless the server rejected the delete, in which case the object is as it was; every other key is unchanged |
| Cluster.ClusterStore.constructor | src/k8sApi.ts:1-17 | the store starts with the given objects, refused creates and failing reads and deletes |
| Cluster.ClusterStore.Get | src/kubernetes.ts:272-285 | a get succeeds exactly when the object exists and the read goes through |
| Cluster.ClusterStore.Create | src/kubernetes.ts:228 | the new objects are CreateSpec of the old |
| Cluster.ClusterStore.Delete | src/kubernetes.ts:298 | the new objects are DeleteSpec of the old under the store's rejected deletes |
| Kubernetes.OwnedKeysDistinct | src/kubernetes.ts:323-325 | an instance's three object keys are pairwise distinct |
| Kubernetes.CreateGrafanaInstance | src/kubernetes.ts:204-234 | the cluster becomes CreateSpec of the old for the instance key and the body built for the name |
| Kubernetes.CreateDataSourcePrometheus | src/kubernetes.ts:236-251 | creates the prometheus datasource body under its name |
| Kubernetes.CreateDataSourceAlertmanager | src/kubernetes.ts:253-267 | creates the alertmanager datasource body under its name |
| Kubernetes.GrafanaExist | src/kubernetes.ts:269-280 | true exactly when the instance exists and the read goes through; every failed read answers false |
| Kubernetes.DatasourceExist | src/kubernetes.ts:282-293 | true exactly when the datasource exists and the read goes through; every failed read answers false |
| Kubernetes.DeleteGrafana | src/kubernetes.ts:295-304 | the instance key is gone unless the server rejects the delete, which is only logged and leaves the object |
| Kubernetes.DeleteDatasource | src/kubernetes.ts:306-315 | the datasource key is gone unless the server rejects the delete, which is only logged and leaves the object |
| Kubernetes.HandleInit | src/kubernetes.ts:317-338 | the cluster becomes InitEffect of the old one, with the stage's role expression |
| Kubernetes.ReconcileInstance | src/kubernetes.ts:323-337 | checks against the entry state, then creates each object reported missing; after a failed read the create meets a taken name, so read faults leave the effect InitEffect |
| Kubernetes.InitEffect | src/kubernetes.ts:323-337 | the three checks on the entry state and the creates they guard; its properties are the four Init lemmas below |
| Kubernetes.InitNeverOverwrites | src/kubernetes.ts:326-337 | an object present before handleInit is unchanged |
| Kubernetes.InitCreatesAll | src/kubernetes.ts:326-337 | with no refusals all three objects exist, each missing one holding the body built for it |
| Kubernetes.InitFrame | src/kubernetes.ts:317-338 | no key other than the instance's three changes |
| Kubernetes.InitIdempotent | src/kubernetes.ts:317-338 | a second handleInit changes nothing |
| Kubernetes.HandleDelete | src/kubernetes.ts:340-356 | the cluster becomes DeleteEffect of the old one under the store's read and delete faults |
| Kubernetes.DeleteEffect | src/kubernetes.ts:350-355 | the three checks, failed reads counting as absent, then the prometheus delete twice and the instance delete; its properties are the Delete lemmas below |
| Kubernetes.RemoveInstance | src/kubernetes.ts:350-355 | the three checks, then the prometheus delete twice and the instance delete |
| Kubernetes.DeleteWhileStagePresent | src/kubernetes.ts:345-348 | while the stage is still present nothing changes |
| Kubernetes.DeleteLeavesAlertmanager | src/kubernetes.ts:350-355 | the instance goes unless its read or delete fails; the prometheus datasource goes when either datasource read finds an object and its delete is accepted; the alertmanager datasource and every other object stay, and nothing left is modified |
| Kubernetes.DeleteRemovesInstanceAndProm | src/kubernetes.ts:350-355 | when the server answers those reads and accepts those deletes, the effect is exactly removing the instance and prometheus keys |
| Kubernetes.InitThenDeleteLeavesOrphan | src/kubernetes.ts:317-356 | after init then delete of an instance its alertmanager datasource remains, and the instance only survives a failed read or delete |
| Stages.StageObjectsDisjoint | src/functions.ts:15-23 | the two stages of a project own disjoint objects |
| Stages.InitStagesTouchesOnlyPresentStages | src/functions.ts:19-24 | an object of no reconciled stage is unchanged |
| Stages.InitStagesNeverOverwrites | src/functions.ts:19-24 | an existing object is never replaced |
| Stages.InitStagesCreates | src/functions.ts:19-24 | a reconciled stage's objects exist afterwards unless refused |
| Stages.InitCreatesOwned | src/kubernetes.ts:326-337 | each accepted object of the instance exists after handleInit |
| Identity.TopLevelNamed | src/keycloak.ts:22-25 | the lookup answers a top-level group whose name is that name |
| Identity.TopLevel | src/keycloak.ts:23 | the full answer lists every top-level group, each with its whole subtree |
| Identity.Listed | src/utils.ts:48 | a search answer's child list holds exactly the children the server does not leave out |
| Identity.SearchAnswer | src/utils.ts:37 | the answer shows each top-level group in order, with its children as listed |
| Identity.FindNamedAnswer | src/utils.ts:37-38 | the exact-name lookup in the answer finds the answered form of the group found in the full list |
| Identity.SearchNamed | src/utils.ts:36-39 | the looked-up group exists exactly when the top-level group of that name does, and is that group with its children as listed |
| Identity.ListedChildLookup | src/utils.ts:48 | a child lookup by name in the answer finds one exactly when the child of that name exists and is listed |
| Identity.TopLevelLookup | src/keycloak.ts:22-25 | the lookup finds the top-level group of that name when there is one, and nothing otherwise |
| Identity.TopLevelNamedStable | src/keycloak.ts:22-25 | the lookup gives the same group as the realm grows |
| Identity.FindNamed | src/keycloak.ts:29 | the answer is the first entry with that name, or none when no entry has it |
| Identity.ChildLookup | src/keycloak.ts:41 | looking a child up by name finds the child of that name, or nothing |
| Identity.ChildNamedUnique | src/keycloak.ts:41 | a parent has at most one child of a given name |
| Identity.CreateChildSpec | src/keycloak.ts:43 | 404 for a missing parent, 409 for a taken sibling name, else a fresh empty child appended under the parent |
| Identity.AddToGroupSpec | src/keycloak.ts:89 | 404 for an unknown user or group, else the membership holds and nothing else changes |
| Identity.DelSpec | src/keycloak.ts:171 | 404 for a missing group, else the group, its memberships and its listing under the parent are gone |
| Identity.CreateChildren | src/keycloak.ts:145-148 | several creates in order, stopping at the first error: the realm stays well-formed and only grows, memberships are unchanged, and a taken first name fails with Conflict and changes nothing |
| Identity.CreateChildMakesChild | src/keycloak.ts:43 | a successful create gives a new child with the requested name |
| Identity.CreateChildrenCreates | src/keycloak.ts:145-148 | on success every name is a new child of the parent, in order |
| Identity.AddAll | src/keycloak.ts:150-153 | several addToGroup calls in order, stopping at the first error |
| Identity.AddAllEffect | src/keycloak.ts:150-153 | all succeed exactly when user and groups exist; the only memberships added are the user's in those groups |
| Identity.Store.constructor | src/keycloak.ts:7-20 | the client starts on the given well-formed realm |
| Identity.Store.Find | src/keycloak.ts:23 | answers every top-level group with its subtree, each with the children the server lists |
| Identity.Store.FindOne | src/keycloak.ts:40 | answers the group with that id, or undefined |
| Identity.Store.CreateChildGroup | src/keycloak.ts:43 | the realm becomes CreateChildSpec of the old |
| Identity.Store.AddToGroup | src/keycloak.ts:89 | the realm becomes AddToGroupSpec of the old |
| Identity.Store.Del | src/keycloak.ts:171 | the realm becomes DelSpec of the old |
| Keycloak.GetProjectGroupByName | src/keycloak.ts:22-25 | answers the top-level group with exactly that name, as the search answer shows it |
| Keycloak.GetOrCreateSpec | src/keycloak.ts:27-57 | a supplied match is returned as is, else an existing child, else a new one is created; a missing parent is an error |
| Keycloak.GetOrCreateChildGroup | src/keycloak.ts:27-57 | the reply and new realm are GetOrCreateSpec of the old |
| Keycloak.GetOrCreateIdempotent | src/keycloak.ts:27-57 | a second call returns the same group and creates nothing |
| Keycloak.GetSubGroupSpec | src/keycloak.ts:59-68 | on success the answer is the child named `subGroupName` of the project's `grafana` child |
| Keycloak.GetSubGroupCases | src/keycloak.ts:59-68 | each of the four errors occurs exactly when its own cause holds |
| Keycloak.GetSubGroup | src/keycloak.ts:59-68 | the answer is GetSubGroupSpec and the realm is unchanged |
| Keycloak.LeavesSpec | src/keycloak.ts:86-102 | two get-or-create calls; on success the ids of the two named children |
| Keycloak.LeavesCases | src/keycloak.ts:86-102 | both succeed exactly when the parent exists; a missing parent changes nothing |
| Keycloak.AddFlagged | src/keycloak.ts:88-99 | the user is added to the RW leaf when `rw` is set and to the RO leaf when `ro` is set |
| Keycloak.GrantSpec | src/keycloak.ts:85-115 | on success the user belongs to each flagged leaf of the stage; nothing is removed |
| Keycloak.GrantSucceeds | src/keycloak.ts:85-115 | the grant succeeds exactly when `grafana` exists and the user is known or no flag is set |
| Keycloak.ManagePermissionSpec | src/keycloak.ts:70-131 | any error ends in KO/"Failed"; OK exactly when the project group exists and the user is known or no flag is set; the realm only grows |
| Keycloak.GetOrCreateLeaves | src/keycloak.ts:86-87 | the answer and realm are LeavesSpec of the old |
| Keycloak.AddFlaggedMembers | src/keycloak.ts:88-99 | the answer and realm are AddFlagged of the old |
| Keycloak.Grant | src/keycloak.ts:85-115 | the answer and realm are GrantSpec of the old |
| Keycloak.ManageKeycloakPermission | src/keycloak.ts:70-131 | the reply and realm are ManagePermissionSpec of the old |
| Keycloak.CreateKeycloakGroupsSpec | src/keycloak.ts:133-154 | the realm stays well-formed and only grows, no membership is lost, and a missing project group fails with ParentGroupMissing and changes nothing |
| Keycloak.CreateKeycloakGroups | src/keycloak.ts:133-154 | the outcome and realm are CreateKeycloakGroupsSpec of the old |
| Keycloak.CreateChildGroups | src/keycloak.ts:145-148 | the answer and realm are CreateChildren of the old |
| Keycloak.AddOwnerToLeaves | src/keycloak.ts:150-153 | the answer and realm are AddAll of the old |
| Keycloak.CreateGroupsEffect | src/keycloak.ts:145-153 | after success each of the four leaves is a new group of the project holding the owner |
| Keycloak.CreateGroupsConflictsOnceCreated | src/keycloak.ts:145 | once `prod-RO` exists the call fails with Conflict and changes nothing |
| Keycloak.CreateGroupsTwice | src/keycloak.ts:133-154 | a second run fails with Conflict and leaves the realm as the first run left it |
| Keycloak.DeletePair | src/keycloak.ts:168-184 | one branch keeps the realm well-formed and its users, and only removes groups |
| Keycloak.DeletePairOutcome | src/keycloak.ts:168-184 | a branch succeeds exactly when both leaves exist and changes nothing when the first is missing |
| Keycloak.DeletePairOnlyLeaves | src/keycloak.ts:168-184 | a branch removes only the first leaf and, when asked, the second |
| Keycloak.DeletePairKeepsGrafana | src/keycloak.ts:168-184 | a branch keeps the project group and its `grafana` child |
| Keycloak.DeletePairRemoves | src/keycloak.ts:168-184 | a branch removes the first leaf whenever it exists, the second on success when asked, and otherwise keeps the second |
| Keycloak.DeleteKeycloakGroupsSpec | src/keycloak.ts:156-185 | a missing project group fails with ParentGroupMissing and changes nothing; the realm stays well-formed and keeps its users |
| Keycloak.DeleteGroupsOutcome | src/keycloak.ts:156-185 | success exactly when the project has both leaves of the stage; otherwise the error names what is missing |
| Keycloak.DeleteGroupsOnlyLeaves | src/keycloak.ts:168-184 | no group goes other than the stage's RO leaf and, for `prod`, `prod-RW` |
| Keycloak.DeleteGroupsRemoves | src/keycloak.ts:168-184 | the RO leaf goes whenever it exists; `prod-RW` goes when a `prod` call succeeds |
| Keycloak.DeleteGroupsKeepsHorsProdRw | src/keycloak.ts:181-183 | `hprod-RW` is never deleted |
| Keycloak.DeleteGroupsWithoutGrafana | src/keycloak.ts:165-169 | without a `grafana` child the call creates an empty one and then fails |
| Keycloak.DeleteKeycloakGroups | src/keycloak.ts:156-185 | the outcome and realm are DeleteKeycloakGroupsSpec of the old |
| Keycloak.DeleteLeafPair | src/keycloak.ts:168-184 | the outcome and realm are DeletePair of the old |
| Utils.GetKeycloakGroupByName | src/utils.ts:36-39 | answers the top-level group with exactly that name, with the children the search lists |
| Utils.CreateMetricsGroupsSpec | src/utils.ts:41-66 | a missing project group throws with "undefined" in the message and changes nothing; the realm stays well-formed, only grows and loses no membership |
| Utils.MetricsLookup | src/utils.ts:48 | looking `metrics` up in the answer succeeds exactly when the project has a `metrics` child and the search lists it |
| Utils.MetricsPresentNoChange | src/utils.ts:48-65 | with a `metrics` child present the realm is unchanged; the call succeeds exactly when the search lists that child, and otherwise fails with the 409 of the repeated create |
| Utils.MetricsCreated | src/utils.ts:49-62 | success without `metrics` leaves a new `metrics` child whose four leaves are new and hold the owner |
| Utils.MetricsOnlyOwnerAdded | src/utils.ts:59-62 | the only memberships added are the owner's in leaves of the project's `metrics` child |
| Utils.MetricsTwice | src/utils.ts:41-66 | after a success a second call, for any owner, changes neither groups nor memberships; it succeeds exactly when the search lists `metrics`, and otherwise fails with 409 |
| Utils.CreateKeycloakGroups | src/utils.ts:41-66 | the outcome and realm are CreateMetricsGroupsSpec of the old |
| Functions.InitSpec | src/functions.ts:6-42 | the reply is OK with Created or the creation-failed message; the realm only grows |
| Functions.InitGrafanaInstance | src/functions.ts:6-42 | the reply, realm and cluster are InitSpec of the old |
| Functions.InitReply | src/functions.ts:13-40 | Created exactly when createKeycloakGroups succeeded; otherwise the cluster is untouched and the error is in the reply |
| Functions.InitWithoutProjectGroup | src/functions.ts:13 | a project whose group is missing gets no instance |
| Functions.InitTouchesOnlyPresentStages | src/functions.ts:17-24 | objects of absent stages and of other instances are unchanged |
| Functions.InitCreatesPresentStages | src/functions.ts:17-24 | on success a present stage's objects exist unless refused, and nothing existing is replaced |
| Functions.InitRetryNeverReconciles | src/functions.ts:13-24 | after a successful run a later call changes neither realm nor cluster |
| Functions.ShiftedHandleDelete | src/functions.ts:56 | the call lands the instance name in the boolean: any non-empty name makes handleDelete return at its guard, so nothing changes |
| Functions.DeleteSpec | src/functions.ts:44-83 | the reply is OK with Deleted or the deletion-failed message; the realm stays well-formed |
| Functions.DeleteGrafanaInstance | src/functions.ts:44-83 | the reply, realm and cluster are DeleteSpec of the old |
| Functions.DeleteNeverTouchesCluster | src/functions.ts:56-63 | the shifted handleDelete arguments mean no cluster object is ever removed |
| Functions.DeleteWhileStageRemains | src/functions.ts:52-66 | while an environment of the stage remains nothing changes and the reply is Deleted |
| Functions.DeleteReply | src/functions.ts:52-82 | once the stage is gone, Deleted exactly when the project has both leaves of the stage |
| Functions.DeleteOnlyStageLeaves | src/functions.ts:57-64 | the only groups removed are the stage's RO leaf and, for `prod`, `prod-RW` |
| Functions.DeleteRemovesStageLeaves | src/functions.ts:57-64 | the RO leaf goes once the stage is gone; `prod-RW` on a successful `prod` call; `hprod-RW` always stays |
| Functions.UpdatePermissionSpec | src/functions.ts:85-107 | the realm stays well-formed and only grows |
| Functions.UpdatePermission | src/functions.ts:85-107 | the reply and realm are UpdatePermissionSpec of the old |
| Functions.UpdatePermissionIgnoresOutcome | src/functions.ts:90-97 | the reply is the same whatever manageKeycloakPermission answered |
| Functions.UpdatePermissionReportsUnmadeChange | src/functions.ts:90-97 | a project without its group is told the permission was added while nothing changed |
| Functions.UpdatePermissionAddOnly | src/functions.ts:90 | no membership is removed, and new ones are the user's in the stage's flagged leaves |
| Legacy.FirstMatch | src/index.ts:80 | the index of the first element with that name, or -1 when there is none |
| Legacy.FirstMatchUnique | src/index.ts:80 | exactly one index satisfies the first-match condition |
| Legacy.Trimmed | src/index.ts:80-84 | the list after the first match is spliced out; its properties are the three Trimmed lemmas below |
| Legacy.TrimmedLength | src/index.ts:81-84 | no match leaves the list; a match removes exactly one element |
| Legacy.TrimmedKeepsOrder | src/index.ts:83 | elements before the match stay in place and those after it move up by one |
| Legacy.TrimmedMultiset | src/index.ts:83 | the list loses the matched element and nothing else |
| Legacy.EnvList.constructor | src/index.ts:78 | the list starts as the payload's environments |
| Legacy.EnvList.FindIndex | src/index.ts:80 | answers FirstMatch of the items |
| Legacy.EnvList.Splice | src/index.ts:83 | the item at the index is removed in place |
| Legacy.ProdRole | src/index.ts:30 | the inline production expression; ProdRoleAsHandleInit proves it equal to the one handleInit builds |
| Legacy.HorsProdRole | src/index.ts:47 | the inline non-production expression with its doubled quote; HorsProdViewerGetsNoRole states the consequence |
| Legacy.ProdRoleAsHandleInit | src/index.ts:30 | the inline production expression is the one handleInit builds for `prod` |
| Legacy.HorsProdViewerGetsNoRole | src/index.ts:47 | because of the doubled quote a view-only non-production user gets no role, where the intended expression gives Viewer |
| Legacy.InitSpec | src/index.ts:12-75 | the reply is OK with Created or the creation-failed message; the realm only grows |
| Legacy.InitGrafanaInstance | src/index.ts:12-75 | the reply, realm and cluster are InitSpec of the old |
| Legacy.InitReply | src/index.ts:21-73 | Created exactly when the `metrics` step succeeded; otherwise the cluster is untouched and the error is in the reply |
| Legacy.InitTouchesOnlyPresentStages | src/index.ts:22-57 | objects of absent stages and of other instances are unchanged |
| Legacy.InitCreatesPresentStages | src/index.ts:22-57 | on success a present stage's objects exist unless refused, and nothing existing is replaced |
| Legacy.InitRerunReconciles | src/index.ts:21-73 | after a successful run a rerun leaves the realm unchanged; it answers Created, reconciling the cluster again, exactly when the search lists `metrics`, and otherwise CreateFailed with the 409 and the cluster untouched |
| Legacy.DeleteGrafanaInstance | src/index.ts:77-128 | the list is trimmed in place, each stage the trimmed list lacks is removed, and the reply is OK/OK |
| Legacy.RemoveGoneStages | src/index.ts:91-118 | the cluster becomes DeleteStages for the stages the list no longer contains |
| Legacy.DeleteStages | src/index.ts:93-118 | handleDelete's body for each gone stage under the server's faults; its properties are the two lemmas below |
| Legacy.DeleteStagesRemoves | src/index.ts:93-118 | when the server answers the reads and accepts the deletes of the gone stages, the cluster loses exactly the instance and prometheus datasource of each gone stage |
| Legacy.DeleteStagesKeepsAlertmanagers | src/index.ts:101-115 | both alertmanager datasources survive every call, whatever the server refuses |
| Infos.LinkedInstance | src/infos.ts:10-14 | a URL on the Grafana host is the host followed by the linked path |
| Infos.ServiceLinks | src/infos.ts:7-18 | one link per stage to its instance on the Grafana host, as LinksLeadToInstances states |
| Infos.LinksLeadToInstances | src/infos.ts:7-18 | two links, non-production first, each leading to its stage's instance with its title |
| Infos.LinksDistinct | src/infos.ts:7-18 | a project's two links differ |
| Infos.LinksInjective | src/infos.ts:7-18 | different projects get different links for each stage |

## Left out

- Client setup: `getkcClient`, `createCustomObjectsApi` (`src/k8sApi.ts`) and the plugin registration in `src/init.ts`. They are I/O. Each handler instead receives its store, already authenticated.
- Reading the process environment. The configuration is the `Settings.Config` parameter, with each setting optional.
- Logging, and `JSON.stringify` of thrown values. The reply carries the error value itself.
- `generateNamespaceName` (src/index.ts:130-136). It is an HMAC digest that no handler calls.
- `containsProd` and `containsHorsProd`: `src/functions.ts:4` imports them from `./utils.js` and `src/index.ts:5` from `./kubernetes.js`, and neither file defines them. They are abstract function parameters with no assumed behaviour.
- Keycloak's search matching inside `groups.find`. The answer holds every top-level group, and every caller keeps only the exact name match. Which children the server leaves out of the answer's child lists is one set per store (`unlisted`), not a function of the search string. Deeper levels of the answer are given in full; no caller reads them.
- Keycloak behaviour not in the modelled calls: top-level group names and sibling names are assumed unique, and group ids are natural numbers allocated in increasing order.
- The `groups.del` calls of deleteKeycloakGroups are not awaited. They are modelled as completed in program order, with their errors dropped. A real interleaving or an error arriving later is not modelled.
- Deleting a group does not model Keycloak's removal of its descendants. Only leaf groups are ever deleted.
- The `!x?.id` checks after a successful lookup or create cannot fail, because every group has an id. The model has no branch for them.
- The four `createChildGroup` calls of `src/keycloak.ts:145-148` are one loop over a list of names. So are the four `addToGroup` calls.
- Keycloak.ManagePermissionSpec: models only what the code does, adding memberships. The commented-out removals are not modelled.
- Functions.UpdatePermissionSpec: the catch branch of `src/functions.ts:98-106` is not modelled. manageKeycloakPermission catches every error itself, so the branch is dead.
- `src/index.ts` passes a leading `cluster` argument to grafanaExist, datasourceExist, deleteDatasource, deleteGrafana and the three create functions. No file of the repository declares them with such a parameter. The model reads these calls as the `src/kubernetes.ts` functions with that argument dropped, errors swallowed as there. So the repeated delete at `src/index.ts:102` cannot throw into the catch at `src/index.ts:119`. Taken literally against `src/kubernetes.ts`, every argument would shift by one, with the cluster object as the instance name; that reading is not modelled.
- Resources.GrantedRole: models how Grafana reads an expression of `contains(...) && 'Role'` clauses, as a rule list. It does not model a JMESPath parser.
- Legacy.HorsProdRole: the doubled quote of `src/index.ts:47` is modelled as a quote at the start of the view group's name. Read as JMESPath, the expression does not parse. With strict role checking Grafana would then give no user a role, editors included. The rule-list reading still grants Editor to editors, so Legacy.HorsProdViewerGetsNoRole covers only the view-only user.
- Whether the groups a role expression names exist in the realm is not proved.
- The service metadata of `src/infos.ts` (name, title, image, description) is constant data. Only the link builder is modelled.
