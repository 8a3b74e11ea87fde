/** The application engine and the snapshot reconciler as a transition system over one cluster. A pass is the effect of
    one `reconcile` call; between passes workflows change phase, objects are edited and the surroundings change. */
module EngineModel {
  import opened Text
  import opened Wrappers
  import Names
  import Secrets = ScopedSecrets

  /** A namespaced object. */
  datatype Id = Id(namespace: string, name: string)

  // ---- specs ----

  datatype Source = Source(repository: string, ref: string, contextPath: string, dockerfile: string, baseImage: string)
  datatype Restore = Restore(snapshot: string, sanitize: Option<bool>)
  datatype DatabaseRef = DatabaseRef(name: string, server: string, secret: string)
  datatype SsoEntry = SsoEntry(name: string, protocol: string, secret: string)

  /** `settings` stands for the parts that only flow into the chart values: replicas, env, values. */
  datatype AppSpec = AppSpec(environment: string, appType: string, domain: string, host: string,
                             source: Option<Source>, restoreFrom: Option<Restore>,
                             databases: seq<DatabaseRef>, sso: seq<SsoEntry>, settings: string)

  // ---- what the engine only reads ----

  datatype EnvironmentSpec = EnvironmentSpec(clientRef: string, class_: string)
  datatype ClientSpec = ClientSpec(slug: string, organizationRef: string)
  datatype Organization = Organization(name: string, baseDomain: string, odooRepository: string, odooTag: string)
  datatype Repository = Repository(url: string, defaultBranch: string)
  datatype Config = Config(baseDomain: string, harborHost: string, harborProject: string, harborPushEndpoint: string,
                           harborPassword: string, odooRepository: string, odooTag: string, authentikUrl: string,
                           s3Ready: bool, s3Bucket: string, secretsPrefix: string)

  datatype World = World(
    environments: map<Id, EnvironmentSpec>,
    clients: map<Id, ClientSpec>,
    organizations: seq<Organization>,
    charts: map<string, string>,
    domains: map<Id, string>,
    repositories: map<Id, Repository>,
    serverHosts: map<Id, string>,          // DatabaseServers and the host they have published ("" until then)
    ssoClientIds: map<Id, string>,         // SSOApplications and the client id they have published ("" until then)
    credentialSecrets: set<Id>,            // delivered database credential Secrets
    openbao: Secrets.KV,
    config: Config)

  // ---- the modelled cluster ----

  datatype Phase = Unreported | Pending | Running | Succeeded | Failed | Error

  datatype Connection = Connection(host: string, database: string, secret: Id)

  datatype Parameters =
    | BuildParameters(repoUrl: string, ref: string, contextPath: string, dockerfile: string, baseImage: string,
                      outputImage: string, insecurePush: bool)
    | DumpParameters(source: Connection, key: string)
    | RestoreParameters(target: Connection, key: string, image: string, sanitize: bool)

  datatype Workflow = Workflow(parameters: Parameters, phase: Phase)

  datatype Reason = InvalidSpec | DependencyNotMet | BackendError | Reconciling

  datatype Ready = Unset | NotReady(reason: Reason) | IsReady

  datatype AppPhase = NoPhase | Building | BuildFailed | Restoring | RestoreFailed | Deployed

  datatype AppStatus = AppStatus(namespace: string, phase: AppPhase, buildWorkflow: string, restoreWorkflow: string,
                                 restoredFrom: string, builtImage: string, url: string, argoApplication: string,
                                 ready: Ready, observedGeneration: nat)

  datatype App = App(spec: AppSpec, generation: nat, status: AppStatus)

  datatype SnapshotPhase = NotStarted | Dumping | Completed | DumpFailed

  datatype SnapshotStatus = SnapshotStatus(phase: SnapshotPhase, workflow: string, location: string, ready: Ready)

  datatype Snapshot = Snapshot(application: string, status: SnapshotStatus)

  datatype Oidc = Oidc(clientId: string, secret: string)

  /** The chart values of a deployed application. */
  datatype Values = Values(client: string, chart: string, image: string, host: string, oidc: Option<Oidc>,
                           envFromSecret: string, spec: AppSpec)

  datatype ArgoApp = ArgoApp(values: Values, destination: string, finalizers: set<string>)

  /** What has happened so far. An apply remembers the build that its spec asked for, if it has a source. */
  datatype Event =
    | Submitted(owner: Id, workflow: string, parameters: Parameters)
    | Finished(workflow: string, parameters: Parameters)
    | Applied(owner: Id, namespace: string, spec: AppSpec, build: Option<Parameters>)

  datatype Cluster = Cluster(
    apps: map<Id, App>,
    snapshots: map<Id, Snapshot>,
    workflows: map<string, Workflow>,
    argo: map<string, ArgoApp>,
    externalSecrets: map<(string, string), seq<string>>,
    namespaces: set<string>,
    world: World,
    history: seq<Event>)

  /** What a pass meets that the cluster does not determine: which backend calls succeed, and what a workflow reports
      between its submission and the reading of its phase. */
  datatype Oracle = Oracle(namespaces: bool, buildSecrets: bool, buildSubmit: bool, buildNews: Option<Phase>,
                           jobSecrets: bool, jobSubmit: bool, jobNews: Option<Phase>, openbao: bool, argo: bool)

  /** Every call goes through, and no workflow reports meanwhile. */
  const ALL_WELL: Oracle := Oracle(true, true, true, None, true, true, None, true, true)

  const NO_STATUS: AppStatus := AppStatus("", NoPhase, "", "", "", "", "", "", Unset, 0)
  const NO_SNAPSHOT_STATUS: SnapshotStatus := SnapshotStatus(NotStarted, "", "", Unset)
  const ARGO_FINALIZER: string := "resources-finalizer.argocd.argoproj.io"
  const MAX_NAME: nat := 253

  // ---- names ----

  function BuildName(namespace: string, app: string, ref: string): string {
    Clip("build-" + namespace + "-" + app + "-" + Names.SanitizeTag(ref), MAX_NAME)
  }

  function RestoreName(namespace: string, app: string, snapshot: string): string {
    Clip("restore-" + namespace + "-" + app + "-" + snapshot, MAX_NAME)
  }

  function DumpName(snapshot: Id): string {
    Clip("snapshot-" + snapshot.namespace + "-" + snapshot.name, MAX_NAME)
  }

  function DumpKey(snapshot: Id): string {
    "snapshots/" + snapshot.namespace + "/" + snapshot.name + ".pgdump"
  }

  function ImageRef(config: Config, clientSlug: string, app: string, ref: string): string {
    config.harborHost + "/" + config.harborProject + "/" + clientSlug + "-" + app + ":" + Names.SanitizeTag(ref)
  }

  function LowerRun(s: string): nat {
    if s != "" && 'a' <= s[0] <= 'z' then 1 + LowerRun(s[1..]) else 0
  }

  /** An endpoint without its scheme. */
  function AfterScheme(s: string): string
  {
    var n := LowerRun(s);
    if 0 < n <= |s| && "://" <= s[n..] then s[n + 3..] else s
  }

  /** What follows the first slash. */
  function AfterSlash(s: string): string {
    if s == "" then "" else if s[0] == '/' then s[1..] else AfterSlash(s[1..])
  }

  /** The push endpoint without blanks around it and slashes at its end. */
  function Endpoint(endpoint: string): string {
    RStrip(Strip(endpoint, WHITESPACE), {'/'})
  }

  /** The name under which an image is pushed: through the internal endpoint, if one is configured. */
  function PushRef(image: string, endpoint: string): string {
    if Endpoint(endpoint) == "" then image else AfterScheme(Endpoint(endpoint)) + "/" + AfterSlash(image)
  }

  // ---- resolving the references of an application ----

  datatype Effective = Effective(namespace: string, clientSlug: string, environment: string, class_: string,
                                 app: string, host: string, chart: string, platformImage: string,
                                 secretPaths: seq<string>)

  datatype Resolved = Unresolved(reason: Reason) | Resolved(effective: Effective)

  function FirstOf(a: string, b: string): string {
    if a != "" then a else b
  }

  function FindOrganization(orgs: seq<Organization>, name: string): Option<Organization> {
    if orgs == [] then None else if orgs[0].name == name then Some(orgs[0]) else FindOrganization(orgs[1..], name)
  }

  function Host(spec: AppSpec, app: string, environment: string, clientSlug: string, baseDomain: string): string {
    var host, base := Strip(spec.host, WHITESPACE), Strip(baseDomain, WHITESPACE);
    if host == "" && base != "" then Names.HostLabel(app, environment, clientSlug) + "." + base else host
  }

  function Resolve(w: World, id: Id, spec: AppSpec): Resolved {
    var environmentId := Id(id.namespace, spec.environment);
    if spec.environment == "" || spec.appType == "" then Unresolved(InvalidSpec)
    else if environmentId !in w.environments then Unresolved(DependencyNotMet)
    else
      var environment := w.environments[environmentId];
      var clientId := Id(id.namespace, environment.clientRef);
      if clientId !in w.clients then Unresolved(DependencyNotMet)
      else
        var client := w.clients[clientId];
        var named := FindOrganization(w.organizations, client.organizationRef);
        if client.organizationRef != "" && named == None then Unresolved(DependencyNotMet)
        else if spec.appType !in w.charts then Unresolved(DependencyNotMet)
        else if spec.domain != "" && Id(id.namespace, spec.domain) !in w.domains then Unresolved(DependencyNotMet)
        else
          var org := if client.organizationRef != "" then named.value
                     else if |w.organizations| == 1 then w.organizations[0] else Organization("", "", "", "");
          var domain := if spec.domain != "" then w.domains[Id(id.namespace, spec.domain)] else "";
          var slug := Strip(FirstOf(client.slug, environment.clientRef), WHITESPACE);
          Resolved(Effective(
            Names.NamespaceName(slug, spec.environment), slug, spec.environment,
            FirstOf(environment.class_, "development"), id.name,
            Host(spec, id.name, spec.environment, slug, FirstOf(domain, FirstOf(org.baseDomain, w.config.baseDomain))),
            w.charts[spec.appType],
            FirstOf(org.odooRepository, w.config.odooRepository) + ":" + FirstOf(org.odooTag, w.config.odooTag),
            Secrets.ControllerPaths(w.config.secretsPrefix, org.name, slug, spec.environment, id.name)))
  }

  /** The connection of an application's first database, once its server has published a host. */
  function ConnectionOf(w: World, namespace: string, databases: seq<DatabaseRef>, appNamespace: string): Option<Connection> {
    if databases == [] || databases[0].server == "" then None
    else
      var server := Id(namespace, databases[0].server);
      if server !in w.serverHosts || w.serverHosts[server] == "" then None
      else Some(Connection(w.serverHosts[server], databases[0].name,
                           Id(FirstOf(appNamespace, namespace), databases[0].secret)))
  }

  /** The Secrets a dump or restore job needs can be made: object-store credentials, and the database password. */
  predicate JobSecretsPresent(w: World, conn: Connection) {
    w.config.s3Ready && conn.secret in w.credentialSecrets
  }

  /** The OIDC descriptor to inject, and whether nothing is left to wait for. */
  function ResolveOidc(w: World, spec: AppSpec, namespace: string): (Option<Oidc>, bool) {
    if spec.sso == [] || FirstOf(spec.sso[0].protocol, "oauth2") != "oauth2" then (None, true)
    else if spec.sso[0].secret == "" || w.config.authentikUrl == "" then (None, true)
    else
      var sso := Id(namespace, spec.sso[0].name);
      if sso !in w.ssoClientIds || w.ssoClientIds[sso] == "" then (None, false)
      else (Some(Oidc(w.ssoClientIds[sso], spec.sso[0].secret)), true)
  }

  // ---- workflows ----

  /** Submitting creates a workflow only if none has the name. */
  function Submit(c: Cluster, owner: Id, name: string, parameters: Parameters): Cluster {
    if name in c.workflows then c
    else c.(workflows := c.workflows[name := Workflow(parameters, Unreported)],
            history := c.history + [Submitted(owner, name, parameters)])
  }

  /** A workflow reports a phase. */
  function Report(c: Cluster, name: string, phase: Phase): Cluster {
    if name !in c.workflows then c
    else
      var parameters := c.workflows[name].parameters;
      c.(workflows := c.workflows[name := Workflow(parameters, phase)],
         history := c.history + if phase == Succeeded then [Finished(name, parameters)] else [])
  }

  function Hear(c: Cluster, name: string, news: Option<Phase>): Cluster {
    if news.Some? then Report(c, name, news.value) else c
  }

  /** Submit if absent, then listen until the phase is read. */
  function Ask(c: Cluster, owner: Id, name: string, parameters: Parameters, news: Option<Phase>): Cluster {
    Hear(Submit(c, owner, name, parameters), name, news)
  }

  function PhaseOf(c: Cluster, name: string): Phase {
    if name in c.workflows then c.workflows[name].phase else Unreported
  }

  // ---- one pass of the application engine, stage by stage ----

  /** A stage either holds the pass back or lets it go on. */
  datatype Gate = Held(reason: Reason) | Open(image: string, build: Option<Parameters>)

  datatype Staged = Staged(cluster: Cluster, status: AppStatus, gate: Gate)

  /** What a build workflow is asked to do. */
  function BuildRequest(w: World, repo: Repository, source: Source, eff: Effective, ref: string): Parameters {
    BuildParameters(repo.url, ref, FirstOf(source.contextPath, "."), FirstOf(source.dockerfile, "Dockerfile"),
                    FirstOf(source.baseImage, eff.platformImage),
                    PushRef(ImageRef(w.config, eff.clientSlug, eff.app, ref), w.config.harborPushEndpoint),
                    "http://" <= Endpoint(w.config.harborPushEndpoint))
  }

  /** The build stage: from submission to the phase that is read back. */
  function AfterBuild(c: Cluster, wf: string, image: string, request: Parameters, st: AppStatus): Staged {
    match PhaseOf(c, wf)
    case Succeeded => Staged(c, st, Open(image, Some(request)))
    case Failed => Staged(c, st.(phase := BuildFailed), Held(BackendError))
    case Error => Staged(c, st.(phase := BuildFailed), Held(BackendError))
    case _ => Staged(c, st.(phase := Building), Held(Reconciling))
  }

  function BuildWith(c: Cluster, id: Id, repo: Repository, source: Source, ref: string, eff: Effective, st: AppStatus,
                     o: Oracle): Staged
  {
    var image := ImageRef(c.world.config, eff.clientSlug, eff.app, ref);
    var wf, request := BuildName(eff.namespace, eff.app, ref), BuildRequest(c.world, repo, source, eff, ref);
    AfterBuild(Ask(c, id, wf, request, o.buildNews), wf, image, request, st.(buildWorkflow := wf))
  }

  /** Why a build cannot be submitted, if so. */
  function BuildBlocked(w: World, repoId: Id, o: Oracle): Option<Reason> {
    if repoId.name == "" then Some(InvalidSpec)
    else if repoId !in w.repositories || w.repositories[repoId].url == "" then Some(DependencyNotMet)
    else if w.config.harborHost == "" then Some(InvalidSpec)
    else if w.config.harborPassword == "" then Some(DependencyNotMet)
    else if !o.buildSecrets || !o.buildSubmit then Some(BackendError)
    else None
  }

  /** The git ref a build uses. */
  function GitRef(repo: Repository, source: Source): string {
    FirstOf(source.ref, FirstOf(repo.defaultBranch, "main"))
  }

  function BuildGate(c: Cluster, id: Id, source: Source, eff: Effective, st: AppStatus, o: Oracle): Staged {
    var repoId := Id(id.namespace, source.repository);
    var blocked := BuildBlocked(c.world, repoId, o);
    if blocked.Some? then Staged(c, st, Held(blocked.value))
    else
      var repo := c.world.repositories[repoId];
      BuildWith(c, id, repo, source, GitRef(repo, source), eff, st, o)
  }

  /** The restore stage: from submission to the phase that is read back. */
  function AfterRestore(c: Cluster, wf: string, snapshot: string, st: AppStatus): Staged {
    match PhaseOf(c, wf)
    case Succeeded => Staged(c, st.(restoredFrom := snapshot), Open("", None))
    case Failed => Staged(c, st.(phase := RestoreFailed), Held(BackendError))
    case Error => Staged(c, st.(phase := RestoreFailed), Held(BackendError))
    case _ => Staged(c, st.(phase := Restoring), Held(Reconciling))
  }

  function RestoreWith(c: Cluster, id: Id, conn: Connection, restore: Restore, eff: Effective, image: string, st: AppStatus,
                       o: Oracle): Staged
  {
    var wf := RestoreName(eff.namespace, eff.app, restore.snapshot);
    var sanitize := if restore.sanitize.Some? then restore.sanitize.value else eff.class_ != "production";
    var parameters := RestoreParameters(conn, DumpKey(Id(id.namespace, restore.snapshot)), FirstOf(image, eff.platformImage),
                                        sanitize);
    AfterRestore(Ask(c, id, wf, parameters, o.jobNews), wf, restore.snapshot, st.(restoreWorkflow := wf))
  }

  /** The snapshot's dump is there to be restored. */
  predicate DumpReady(c: Cluster, snapshot: Id) {
    snapshot in c.snapshots && c.snapshots[snapshot].status.phase == Completed && c.snapshots[snapshot].status.location != ""
  }

  function RestoreGate(c: Cluster, id: Id, spec: AppSpec, restore: Restore, eff: Effective, image: string, st: AppStatus,
                       o: Oracle): Staged
  {
    var conn := ConnectionOf(c.world, id.namespace, spec.databases, eff.namespace);
    if conn.None? then Staged(c, st, Held(DependencyNotMet))
    else if restore.snapshot == "" then Staged(c, st, Held(InvalidSpec))
    else if st.restoredFrom == restore.snapshot then Staged(c, st, Open("", None))
    else if !DumpReady(c, Id(id.namespace, restore.snapshot)) then Staged(c, st, Held(DependencyNotMet))
    else if !JobSecretsPresent(c.world, conn.value) || !o.jobSecrets || !o.jobSubmit then Staged(c, st, Held(BackendError))
    else RestoreWith(c, id, conn.value, restore, eff, image, st, o)
  }

  function DeliveredSecret(w: World, eff: Effective, answers: bool): string {
    if answers && Secrets.KeptPaths(w.openbao, eff.secretPaths) != [] then Secrets.ScopedSecretName(eff.app) else ""
  }

  /** The ExternalSecrets after the delivery step. */
  function DeliveredSecrets(w: World, eff: Effective, answers: bool, present: map<(string, string), seq<string>>):
    map<(string, string), seq<string>>
  {
    var kept, at := Secrets.KeptPaths(w.openbao, eff.secretPaths), (eff.namespace, Secrets.ScopedSecretName(eff.app));
    if !answers then present else if kept == [] then present - {at} else present[at := kept]
  }

  function DeliverSecrets(c: Cluster, eff: Effective, answers: bool): Cluster {
    c.(externalSecrets := DeliveredSecrets(c.world, eff, answers, c.externalSecrets))
  }

  /** Creating or replacing the Argo CD Application keeps the finalizers that others have added. */
  function ApplyArgo(argo: map<string, ArgoApp>, name: string, values: Values, destination: string): map<string, ArgoApp> {
    var kept := if name in argo then argo[name].finalizers else {};
    argo[name := ArgoApp(values, destination, kept + {ARGO_FINALIZER})]
  }

  function DeployedValues(w: World, spec: AppSpec, eff: Effective, image: string, o: Oracle): Values {
    Values(eff.clientSlug, eff.chart, image, eff.host, ResolveOidc(w, spec, eff.namespace).0,
           DeliveredSecret(w, eff, o.openbao), spec)
  }

  function DeployStage(c: Cluster, id: Id, spec: AppSpec, eff: Effective, image: string, build: Option<Parameters>,
                       st: AppStatus, o: Oracle): Staged
  {
    var name := Names.ArgoAppName(eff.namespace, eff.app);
    var c1 := DeliverSecrets(c, eff, o.openbao);
    if !o.argo then Staged(c1, st, Held(BackendError))
    else
      var c2 := c1.(argo := ApplyArgo(c1.argo, name, DeployedValues(c.world, spec, eff, image, o), eff.namespace),
                    history := c1.history + [Applied(id, eff.namespace, spec, build)]);
      var st1 := st.(url := "https://" + eff.host, argoApplication := name, phase := Deployed,
                     builtImage := if image != "" then image else st.builtImage);
      Staged(c2, st1, if ResolveOidc(c.world, spec, eff.namespace).1 then Open(image, build) else Held(Reconciling))
  }

  /** The pass ends: the collected status is written, with the outcome as the Ready condition. */
  function Finish(s: Staged, id: Id): Cluster {
    if id !in s.cluster.apps then s.cluster
    else
      var app := s.cluster.apps[id];
      var ready := if s.gate.Held? then NotReady(s.gate.reason) else IsReady;
      s.cluster.(apps := s.cluster.apps[id := app.(status := s.status.(ready := ready, observedGeneration := app.generation))])
  }

  function Gated(c: Cluster, id: Id, spec: AppSpec, eff: Effective, st: AppStatus, o: Oracle): Staged {
    var built := if spec.source.Some? then BuildGate(c, id, spec.source.value, eff, st, o) else Staged(c, st, Open("", None));
    if built.gate.Held? then built
    else
      var image, build := built.gate.image, built.gate.build;
      var restored := if spec.restoreFrom.Some?
                      then RestoreGate(built.cluster, id, spec, spec.restoreFrom.value, eff, image, built.status, o)
                      else built;
      if restored.gate.Held? then restored
      else DeployStage(restored.cluster, id, spec, eff, image, build, restored.status, o)
  }

  /** Everything a pass does before its status is written. */
  function PassStages(c: Cluster, id: Id, app: App, o: Oracle): Staged {
    var resolved := Resolve(c.world, id, app.spec);
    if resolved.Unresolved? then Staged(c, app.status, Held(resolved.reason))
    else
      var eff := resolved.effective;
      if eff.host == "" then Staged(c, app.status, Held(InvalidSpec))
      else
        var st := app.status.(namespace := eff.namespace);
        if !o.namespaces then Staged(c, st, Held(BackendError))
        else Gated(c.(namespaces := c.namespaces + {eff.namespace}), id, app.spec, eff, st, o)
  }

  function ApplicationPass(c: Cluster, id: Id, o: Oracle): Cluster {
    if id !in c.apps then c else Finish(PassStages(c, id, c.apps[id], o), id)
  }

  // ---- one pass of the snapshot reconciler ----

  function FinishSnapshot(c: Cluster, id: Id, status: SnapshotStatus, ready: Ready): Cluster
    requires id in c.snapshots
  {
    c.(snapshots := c.snapshots[id := c.snapshots[id].(status := status.(ready := ready))])
  }

  function AfterDump(c: Cluster, id: Id, wf: string, st: SnapshotStatus): Cluster
    requires id in c.snapshots
  {
    match PhaseOf(c, wf)
    case Succeeded => FinishSnapshot(c, id, st.(phase := Completed), IsReady)
    case Failed => FinishSnapshot(c, id, st.(phase := DumpFailed), NotReady(BackendError))
    case Error => FinishSnapshot(c, id, st.(phase := DumpFailed), NotReady(BackendError))
    case _ => FinishSnapshot(c, id, st.(phase := Dumping), NotReady(Reconciling))
  }

  function DumpWith(c: Cluster, id: Id, conn: Connection, st: SnapshotStatus, o: Oracle): Cluster
    requires id in c.snapshots
  {
    var wf := DumpName(id);
    AfterDump(Ask(c, id, wf, DumpParameters(conn, DumpKey(id)), o.jobNews), id, wf,
              st.(workflow := wf, location := "s3://" + c.world.config.s3Bucket + "/" + DumpKey(id)))
  }

  function SnapshotPass(c: Cluster, id: Id, o: Oracle): Cluster {
    if id !in c.snapshots then c
    else
      var snapshot := c.snapshots[id];
      var st, appId := snapshot.status, Id(id.namespace, snapshot.application);
      if snapshot.application == "" then FinishSnapshot(c, id, st, NotReady(InvalidSpec))
      else if appId !in c.apps then FinishSnapshot(c, id, st, NotReady(DependencyNotMet))
      else
        var app := c.apps[appId];
        var conn := ConnectionOf(c.world, id.namespace, app.spec.databases, app.status.namespace);
        if conn.None? then FinishSnapshot(c, id, st, NotReady(DependencyNotMet))
        else if !JobSecretsPresent(c.world, conn.value) || !o.jobSecrets || !o.jobSubmit then
          FinishSnapshot(c, id, st, NotReady(BackendError))
        else DumpWith(c, id, conn.value, st, o)
  }

  // ---- everything that can happen ----

  /** The flags of a deletion say which of its finalizer's best-effort deletions went through. */
  datatype Step =
    | Surroundings(world: World)
    | PutApp(id: Id, spec: AppSpec)
    | DeleteApp(id: Id, argoGone: bool, buildGone: bool, restoreGone: bool)
    | PutSnapshot(id: Id, application: string)
    | DeleteSnapshot(id: Id, cleaned: bool)
    | ReconcileApp(id: Id, oracle: Oracle)
    | ReconcileSnapshot(id: Id, oracle: Oracle)
    | WorkflowReports(workflow: string, phase: Phase)
    | WorkflowVanishes(workflow: string)

  function FinalizeApp(c: Cluster, id: Id, argoGone: bool, buildGone: bool, restoreGone: bool): Cluster {
    if id !in c.apps then c
    else
      var st := c.apps[id].status;
      c.(apps := c.apps - {id},
         argo := if argoGone && st.argoApplication != "" then c.argo - {st.argoApplication} else c.argo,
         workflows := c.workflows - (if buildGone && st.buildWorkflow != "" then {st.buildWorkflow} else {})
                      - if restoreGone && st.restoreWorkflow != "" then {st.restoreWorkflow} else {})
  }

  function FinalizeSnapshot(c: Cluster, id: Id, cleaned: bool): Cluster {
    if id !in c.snapshots then c
    else
      var wf := FirstOf(c.snapshots[id].status.workflow, DumpName(id));
      var gone := c.(snapshots := c.snapshots - {id});
      if cleaned then gone.(workflows := gone.workflows - {wf}) else gone
  }

  function Take(c: Cluster, s: Step): Cluster {
    match s
    case Surroundings(w) => c.(world := w)
    case PutApp(id, spec) =>
      c.(apps := c.apps[id := if id in c.apps then App(spec, c.apps[id].generation + 1, c.apps[id].status)
                              else App(spec, 1, NO_STATUS)])
    case DeleteApp(id, argoGone, buildGone, restoreGone) => FinalizeApp(c, id, argoGone, buildGone, restoreGone)
    case PutSnapshot(id, application) =>
      c.(snapshots := c.snapshots[id := if id in c.snapshots then c.snapshots[id].(application := application)
                                        else Snapshot(application, NO_SNAPSHOT_STATUS)])
    case DeleteSnapshot(id, cleaned) => FinalizeSnapshot(c, id, cleaned)
    case ReconcileApp(id, o) => ApplicationPass(c, id, o)
    case ReconcileSnapshot(id, o) => SnapshotPass(c, id, o)
    case WorkflowReports(wf, phase) => Report(c, wf, phase)
    case WorkflowVanishes(wf) => c.(workflows := c.workflows - {wf})
  }

  function Run(c: Cluster, steps: seq<Step>): Cluster
    decreases |steps|
  {
    if steps == [] then c else Run(Take(c, steps[0]), steps[1..])
  }

  function Fresh(w: World): Cluster {
    Cluster(map[], map[], map[], map[], map[], {}, w, [])
  }
}
