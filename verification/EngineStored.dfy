/** What one pass of the application engine leaves behind, from any cluster and whatever its calls meet, told from the
    objects themselves: the Argo CD Application that is stored, the workflows that are submitted, and the status. And
    exactly when the image that is stored is the one that the application's own build has pushed. */
module EngineStored {
  import opened Text
  import opened Wrappers
  import opened EngineModel
  import opened EngineSafety
  import opened EngineBuilds
  import opened EngineImages
  import Names
  import Secrets = ScopedSecrets

  // ---- what is stored ----

  /** The client id that the first SSO entry of an application waits for, if it waits for one. */
  predicate AwaitsClientId(w: World, spec: AppSpec) {
    && spec.sso != [] && spec.sso[0].protocol in {"", "oauth2"} && spec.sso[0].secret != "" && w.config.authentikUrl != ""
  }

  predicate Published(w: World, spec: AppSpec, namespace: string) {
    spec.sso != [] && var sso := Id(namespace, spec.sso[0].name); sso in w.ssoClientIds && w.ssoClientIds[sso] != ""
  }

  /** The descriptor is there exactly when it is wanted and published, and holds the published client id. */
  predicate OidcFits(w: World, spec: AppSpec, namespace: string, oidc: Option<Oidc>) {
    && (oidc.Some? <==> AwaitsClientId(w, spec) && Published(w, spec, namespace))
    && (oidc.Some? ==> oidc == Some(Oidc(w.ssoClientIds[Id(namespace, spec.sso[0].name)], spec.sso[0].secret)))
  }

  /** The image is the one that the build pushes; without a source there is neither. */
  predicate ImageFits(w: World, id: Id, spec: AppSpec, image: string, build: Option<Parameters>) {
    if spec.source.None? then image == "" && build == None
    else image != "" && build.Some? && build.value.BuildParameters? && AskedBuild(w, id, spec, build.value)
         && build.value.outputImage == PushRef(image, w.config.harborPushEndpoint)
  }

  /** OpenBao has secrets at this path. */
  predicate Holds(w: World, path: string) {
    Secrets.Get(w.openbao, Secrets.Key(path)) != map[]
  }

  /** The values name a delivered Secret exactly when OpenBao answers and some scope has secrets; it is then delivered from
      exactly the scopes that have. */
  ghost predicate SecretFits(c: Cluster, eff: Effective, answers: bool, name: string) {
    && (name != "" <==> answers && exists p :: p in eff.secretPaths && Holds(c.world, p))
    && (name != "" ==>
          && (eff.namespace, name) in c.externalSecrets
          && forall p :: p in c.externalSecrets[(eff.namespace, name)] <==> p in eff.secretPaths && Holds(c.world, p))
  }

  /** The Argo CD Application that the pass from `c` to `c'` has stored for this apply, and the status beside it. */
  ghost predicate Stored(c: Cluster, c': Cluster, id: Id, e: Event, o: Oracle)
    requires e.Applied?
  {
    && id in c.apps && id in c'.apps && e.owner == id && e.spec == c.apps[id].spec
    && var w, before, spec, st := c.world, c.apps[id].status, c.apps[id].spec, c'.apps[id].status;
    && Resolve(w, id, spec).Resolved?
    && var eff := Resolve(w, id, spec).effective;
    && eff.namespace == e.namespace == st.namespace && e.namespace in c'.namespaces
    && st.argoApplication in c'.argo && c'.argo - {st.argoApplication} == c.argo - {st.argoApplication}
    && StoredApp(c, c', id, spec, eff, c'.argo[st.argoApplication], e.build, o)
    && (st.argoApplication in c.argo ==>
          c'.argo[st.argoApplication].finalizers == c.argo[st.argoApplication].finalizers + {ARGO_FINALIZER})
    && StatusBeside(w, spec, before, st, c'.argo[st.argoApplication].values)
  }

  ghost predicate StoredApp(c: Cluster, c': Cluster, id: Id, spec: AppSpec, eff: Effective, stored: ArgoApp, build: Option<Parameters>,
                            o: Oracle) {
    && stored.destination == eff.namespace && ARGO_FINALIZER in stored.finalizers
    && var v := stored.values;
    && v.spec == spec && v.client == eff.clientSlug && v.chart == eff.chart && v.host == eff.host
    && ImageFits(c.world, id, spec, v.image, build)
    && OidcFits(c.world, spec, eff.namespace, v.oidc) && SecretFits(c', eff, o.openbao, v.envFromSecret)
  }

  predicate StatusBeside(w: World, spec: AppSpec, before: AppStatus, st: AppStatus, v: Values) {
    && v.host != "" && st.url == "https://" + v.host
    && st.builtImage == (if spec.source.Some? then v.image else before.builtImage)
    && st.phase == Deployed
    && st.ready == if AwaitsClientId(w, spec) && v.oidc.None? then NotReady(Reconciling) else IsReady
  }

  /** What is asked of a workflow that a pass submits, told from the objects that it reads. */
  predicate AskedFor(c: Cluster, id: Id, e: Event)
    requires e.Submitted?
  {
    && id in c.apps && e.owner == id
    && match e.parameters
       case BuildParameters(_, _, _, _, _, _, _) => AskedBuild(c.world, id, c.apps[id].spec, e.parameters)
       case RestoreParameters(_, _, _, _) => AskedRestore(c, id, c.apps[id].spec, e.parameters)
       case DumpParameters(_, _) => false
  }

  predicate Given(field: string, given: string, default: string) {
    (given != "" ==> field == given) && (given == "" ==> field == default)
  }

  /** The build takes repository and ref of the source, and its recipe with the defaults of each field. */
  predicate AskedBuild(w: World, id: Id, spec: AppSpec, p: Parameters)
    requires p.BuildParameters?
  {
    && spec.source.Some?
    && var source := spec.source.value;
    && var at := Id(id.namespace, source.repository);
    && at in w.repositories && p.repoUrl == w.repositories[at].url != ""
    && (source.ref != "" ==> p.ref == source.ref)
    && (source.ref == "" ==> Given(p.ref, w.repositories[at].defaultBranch, "main"))
    && Given(p.contextPath, source.contextPath, ".") && Given(p.dockerfile, source.dockerfile, "Dockerfile")
    && (source.baseImage != "" ==> p.baseImage == source.baseImage)
    && w.config.harborHost != "" && w.config.harborPassword != ""
    && (p.insecurePush <==> "http://" <= Endpoint(w.config.harborPushEndpoint))
  }

  /** The restore reads the dump of the completed snapshot into the application's first database, and neutralizes it unless
      the environment is a production one or the spec says so. */
  predicate AskedRestore(c: Cluster, id: Id, spec: AppSpec, p: Parameters)
    requires p.RestoreParameters? && id in c.apps
  {
    && spec.restoreFrom.Some?
    && var restore, w := spec.restoreFrom.value, c.world;
    && var snapshot, at := Id(id.namespace, restore.snapshot), Id(id.namespace, spec.environment);
    && p.key == DumpKey(snapshot) && snapshot in c.snapshots && c.snapshots[snapshot].status.phase == Completed
    && c.apps[id].status.restoredFrom != restore.snapshot
    && (restore.sanitize.Some? ==> p.sanitize == restore.sanitize.value)
    && (restore.sanitize.None? ==> at in w.environments && (p.sanitize <==> w.environments[at].class_ != "production"))
    && spec.databases != []
    && var d := spec.databases[0];
    && var server := Id(id.namespace, d.server);
    && server in w.serverHosts && p.target.host == w.serverHosts[server] != ""
    && p.target.database == d.name && p.target.secret.name == d.secret && p.target.secret in w.credentialSecrets && w.config.s3Ready
    && (spec.source.Some? ==> Tagged(p.image, spec.source.value.ref))
  }

  /** The image is tagged by this ref, if one is given. */
  predicate Tagged(image: string, ref: string) {
    ref != "" ==> var tag := ":" + Names.SanitizeTag(ref); |tag| <= |image| && image[|image| - |tag|..] == tag
  }

  // ---- the stages, one by one ----

  /** Nothing was applied, and what was submitted was asked for. */
  ghost predicate Quiet(c: Cluster, id: Id, h: seq<Event>, h': seq<Event>) {
    && h <= h'
    && forall i :: |h| <= i < |h'| ==> !h'[i].Applied? && (h'[i].Submitted? ==> AskedFor(c, id, h'[i]))
  }

  lemma NothingIsQuiet(c: Cluster, id: Id, h: seq<Event>)
    ensures Quiet(c, id, h, h)
  {
  }

  lemma QuietTogether(c: Cluster, id: Id, h: seq<Event>, h': seq<Event>, h'': seq<Event>)
    requires Quiet(c, id, h, h') && Quiet(c, id, h', h'')
    ensures Quiet(c, id, h, h'')
  {
    hide AskedFor;
  }

  /** The gates change workflows and the history only, and of the status their own fields. */
  ghost predicate GateOnly(c0: Cluster, id: Id, c: Cluster, st: AppStatus, s: Staged) {
    && s.cluster == c.(workflows := s.cluster.workflows, history := s.cluster.history)
    && Quiet(c0, id, c.history, s.cluster.history)
    && s.status == st.(buildWorkflow := s.status.buildWorkflow, restoreWorkflow := s.status.restoreWorkflow,
                       restoredFrom := s.status.restoredFrom, phase := s.status.phase)
  }

  lemma AskIsQuiet(c0: Cluster, id: Id, c: Cluster, name: string, p: Parameters, news: Option<Phase>)
    requires AskedFor(c0, id, Submitted(id, name, p))
    ensures var c' := Ask(c, id, name, p, news);
            c' == c.(workflows := c'.workflows, history := c'.history) && Quiet(c0, id, c.history, c'.history)
  {
    hide AskedFor;
  }

  lemma ImageIsNamed(config: Config, client: string, app: string, ref: string)
    ensures ImageRef(config, client, app, ref) != "" && Tagged(ImageRef(config, client, app, ref), ref)
  {
    hide Names.SanitizeTag;
    var front, tag := config.harborHost + "/" + config.harborProject + "/" + client + "-" + app, ":" + Names.SanitizeTag(ref);
    assert ImageRef(config, client, app, ref) == front + tag;
    assert (front + tag)[|front|..] == tag;
  }

  lemma BuildAsked(w: World, id: Id, spec: AppSpec, source: Source, eff: Effective)
    requires spec.source == Some(source) && BuildBlocked(w, Id(id.namespace, source.repository), ALL_WELL) == None
    ensures var repo := w.repositories[Id(id.namespace, source.repository)];
            AskedBuild(w, id, spec, BuildRequest(w, repo, source, eff, GitRef(repo, source)))
  {
    hide ImageRef, PushRef, Endpoint;
  }

  lemma BuildGateTells(c0: Cluster, c: Cluster, id: Id, source: Source, eff: Effective, st: AppStatus, o: Oracle)
    requires id in c0.apps && c0.apps[id].spec.source == Some(source) && c.world == c0.world
    ensures var s := BuildGate(c, id, source, eff, st, o);
            && GateOnly(c0, id, c, st, s)
            && (s.gate.Open? ==> ImageFits(c.world, id, c0.apps[id].spec, s.gate.image, s.gate.build)
                                 && Tagged(s.gate.image, source.ref))
            && s.status.restoredFrom == st.restoredFrom
  {
    var repoId := Id(id.namespace, source.repository);
    if BuildBlocked(c.world, repoId, o) == None {
      var repo := c.world.repositories[repoId];
      var ref := GitRef(repo, source);
      var image := ImageRef(c.world.config, eff.clientSlug, eff.app, ref);
      var wf, request := BuildName(eff.namespace, eff.app, ref), BuildRequest(c.world, repo, source, eff, ref);
      BuildAsked(c.world, id, c0.apps[id].spec, source, eff);
      hide Names.SanitizeTag, PushRef, Endpoint, BuildName, AskedBuild, Ask, Quiet, ImageRef, Tagged;
      AskIsQuiet(c0, id, c, wf, request, o.buildNews);
      ImageIsNamed(c.world.config, eff.clientSlug, eff.app, ref);
    }
  }

  lemma ResolvedParts(w: World, id: Id, spec: AppSpec)
    requires Resolve(w, id, spec).Resolved?
    ensures var eff, at := Resolve(w, id, spec).effective, Id(id.namespace, spec.environment);
            && eff.app == id.name && spec.appType in w.charts && eff.chart == w.charts[spec.appType]
            && at in w.environments
            && (eff.class_ != "production" <==> w.environments[at].class_ != "production")
  {
  }

  lemma RestoreAsked(c0: Cluster, c: Cluster, id: Id, spec: AppSpec, restore: Restore, eff: Effective, conn: Connection,
                     image: string)
    requires id in c0.apps && c0.apps[id].spec == spec && spec.restoreFrom == Some(restore)
    requires c.world == c0.world && c.snapshots == c0.snapshots
    requires Resolve(c0.world, id, spec) == Resolved(eff)
    requires ConnectionOf(c.world, id.namespace, spec.databases, eff.namespace) == Some(conn)
    requires c0.apps[id].status.restoredFrom != restore.snapshot && DumpReady(c, Id(id.namespace, restore.snapshot))
    requires JobSecretsPresent(c.world, conn)
    requires spec.source.Some? ==> image != "" && Tagged(image, spec.source.value.ref)
    ensures var sanitize := if restore.sanitize.Some? then restore.sanitize.value else eff.class_ != "production";
            AskedRestore(c0, id, spec, RestoreParameters(conn, DumpKey(Id(id.namespace, restore.snapshot)),
                                                         FirstOf(image, eff.platformImage), sanitize))
  {
    ResolvedParts(c0.world, id, spec);
    hide Resolve, DumpKey, Tagged;
  }

  lemma RestoreGateTells(c0: Cluster, c: Cluster, id: Id, spec: AppSpec, restore: Restore, eff: Effective, image: string,
                         st: AppStatus, o: Oracle)
    requires id in c0.apps && c0.apps[id].spec == spec && spec.restoreFrom == Some(restore)
    requires c.world == c0.world && c.snapshots == c0.snapshots && st.restoredFrom == c0.apps[id].status.restoredFrom
    requires Resolve(c0.world, id, spec) == Resolved(eff)
    requires spec.source.Some? ==> image != "" && Tagged(image, spec.source.value.ref)
    ensures GateOnly(c0, id, c, st, RestoreGate(c, id, spec, restore, eff, image, st, o))
  {
    NothingIsQuiet(c0, id, c.history);
    hide Resolve, Tagged, DumpKey, RestoreName, ConnectionOf, AskedRestore, Ask, Quiet;
    var conn := ConnectionOf(c.world, id.namespace, spec.databases, eff.namespace);
    var snapshot := Id(id.namespace, restore.snapshot);
    if conn.Some? && restore.snapshot != "" && st.restoredFrom != restore.snapshot && DumpReady(c, snapshot)
       && JobSecretsPresent(c.world, conn.value) {
      RestoreAsked(c0, c, id, spec, restore, eff, conn.value, image);
      hide DumpReady, JobSecretsPresent;
      var sanitize := if restore.sanitize.Some? then restore.sanitize.value else eff.class_ != "production";
      var p := RestoreParameters(conn.value, DumpKey(snapshot), FirstOf(image, eff.platformImage), sanitize);
      AskIsQuiet(c0, id, c, RestoreName(eff.namespace, eff.app, restore.snapshot), p, o.jobNews);
    }
  }

  lemma {:induction false} KeptAreHeld(w: World, paths: seq<string>)
    ensures var kept := Secrets.KeptPaths(w.openbao, paths);
            && (forall p :: p in kept <==> p in paths && Holds(w, p))
            && (kept != [] <==> exists p :: p in paths && Holds(w, p))
  {
    hide Secrets.Get, Secrets.Key;
    if paths != [] {
      KeptAreHeld(w, paths[1..]);
      assert forall p :: p in paths <==> p == paths[0] || p in paths[1..];
      var kept := Secrets.KeptPaths(w.openbao, paths);
      if kept != [] { assert kept[0] in kept; }
    }
  }

  lemma SecretNamed(app: string)
    ensures Secrets.ScopedSecretName(app) != ""
  {
  }

  lemma DeliveryFits(c: Cluster, eff: Effective, answers: bool)
    ensures SecretFits(DeliverSecrets(c, eff, answers), eff, answers, DeliveredSecret(c.world, eff, answers))
  {
    SecretNamed(eff.app);
    KeptAreHeld(c.world, eff.secretPaths);
    hide Secrets.ScopedSecretName, Secrets.KeptPaths, Holds;
  }

  lemma OidcIsFit(w: World, spec: AppSpec, namespace: string)
    ensures OidcFits(w, spec, namespace, ResolveOidc(w, spec, namespace).0)
    ensures ResolveOidc(w, spec, namespace).1 <==> !AwaitsClientId(w, spec) || ResolveOidc(w, spec, namespace).0.Some?
  {
  }

  /** The deployment either stores and logs its apply last, or leaves Argo CD as it was. */
  lemma DeployTells(c: Cluster, id: Id, spec: AppSpec, eff: Effective, image: string, build: Option<Parameters>, st: AppStatus,
                    o: Oracle)
    requires ImageFits(c.world, id, spec, image, build)
    ensures var s := DeployStage(c, id, spec, eff, image, build, st, o);
            && s.cluster.apps == c.apps && s.cluster.namespaces == c.namespaces
            && s.cluster.snapshots == c.snapshots && s.cluster.world == c.world
            && if !o.argo then
                 s.gate == Held(BackendError) && s.cluster.argo == c.argo && s.cluster.history == c.history && s.status == st
               else
                 var at := s.status.argoApplication;
                 && s.cluster.history == c.history + [Applied(id, eff.namespace, spec, build)]
                 && at in s.cluster.argo && s.cluster.argo - {at} == c.argo - {at}
                 && StoredApp(c, s.cluster, id, spec, eff, s.cluster.argo[at], build, o)
                 && (at in c.argo ==> s.cluster.argo[at].finalizers == c.argo[at].finalizers + {ARGO_FINALIZER})
                 && s.status == st.(url := "https://" + eff.host, argoApplication := at, phase := Deployed,
                                    builtImage := if spec.source.Some? then s.cluster.argo[at].values.image else st.builtImage)
                 && (s.gate.Held? ==> s.gate.reason == Reconciling)
                 && (s.gate.Held? <==> AwaitsClientId(c.world, spec) && s.cluster.argo[at].values.oidc.None?)
  {
    DeliveryFits(c, eff, o.openbao);
    OidcIsFit(c.world, spec, eff.namespace);
    hide ResolveOidc, DeliveredSecret, DeliveredSecrets, Names.ArgoAppName, OidcFits, PushRef, AwaitsClientId;
    SecretFitsAlike(DeliverSecrets(c, eff, o.openbao), DeployStage(c, id, spec, eff, image, build, st, o).cluster, eff, o.openbao,
                    DeliveredSecret(c.world, eff, o.openbao));
    hide SecretFits;
  }

  lemma SecretFitsAlike(c: Cluster, c': Cluster, eff: Effective, answers: bool, name: string)
    requires SecretFits(c, eff, answers, name) && c'.world == c.world && c'.externalSecrets == c.externalSecrets
    ensures SecretFits(c', eff, answers, name)
  {
    hide Holds;
  }

  // ---- the whole pass ----

  /** The stages end without an apply: Argo CD is as it was, and the pass is held back. */
  ghost predicate Withheld(c0: Cluster, id: Id, c: Cluster, s: Staged) {
    && Quiet(c0, id, c.history, s.cluster.history) && s.gate.Held?
    && s.cluster.argo == c.argo && s.cluster.apps == c.apps
    && s.cluster.snapshots == c.snapshots && s.cluster.world == c.world
  }

  /** The stages end with an apply, and its Argo CD Application stored. */
  ghost predicate Deploys(c0: Cluster, id: Id, c: Cluster, spec: AppSpec, eff: Effective, st: AppStatus, s: Staged, o: Oracle) {
    && |s.cluster.history| > |c.history|
    && var n, at := |s.cluster.history| - 1, s.status.argoApplication;
    && var e := s.cluster.history[n];
    && Quiet(c0, id, c.history, s.cluster.history[..n])
    && e.Applied? && e == Applied(id, eff.namespace, spec, e.build)
    && s.cluster.apps == c.apps && s.cluster.namespaces == c.namespaces
    && s.cluster.snapshots == c.snapshots && s.cluster.world == c.world
    && at in s.cluster.argo && s.cluster.argo - {at} == c.argo - {at}
    && StoredApp(c, s.cluster, id, spec, eff, s.cluster.argo[at], e.build, o)
    && (at in c.argo ==> s.cluster.argo[at].finalizers == c.argo[at].finalizers + {ARGO_FINALIZER})
    && s.status.namespace == st.namespace && s.status.url == "https://" + eff.host && s.status.phase == Deployed
    && s.status.builtImage == (if spec.source.Some? then s.cluster.argo[at].values.image else st.builtImage)
    && s.gate.Held? == (AwaitsClientId(c.world, spec) && s.cluster.argo[at].values.oidc.None?)
    && (s.gate.Held? ==> s.gate.reason == Reconciling)
  }

  ghost predicate Ends(c0: Cluster, id: Id, c: Cluster, spec: AppSpec, eff: Effective, st: AppStatus, s: Staged, o: Oracle) {
    Withheld(c0, id, c, s) || Deploys(c0, id, c, spec, eff, st, s, o)
  }

  lemma HeldEnds(c0: Cluster, id: Id, c: Cluster, spec: AppSpec, eff: Effective, st: AppStatus, s: Staged, o: Oracle)
    requires GateOnly(c0, id, c, st, s) && s.gate.Held?
    ensures Ends(c0, id, c, spec, eff, st, s, o)
  {
    hide Quiet;
  }

  lemma GatesTogether(c0: Cluster, id: Id, c: Cluster, st: AppStatus, s: Staged, s': Staged)
    requires GateOnly(c0, id, c, st, s) && GateOnly(c0, id, s.cluster, s.status, s')
    ensures GateOnly(c0, id, c, st, s')
  {
    hide Quiet;
    QuietTogether(c0, id, c.history, s.cluster.history, s'.cluster.history);
  }

  lemma DeployEnds(c0: Cluster, id: Id, c: Cluster, spec: AppSpec, eff: Effective, st: AppStatus, g: Staged, image: string,
                   build: Option<Parameters>, o: Oracle)
    requires GateOnly(c0, id, c, st, g) && ImageFits(c.world, id, spec, image, build)
    ensures Ends(c0, id, c, spec, eff, st, DeployStage(g.cluster, id, spec, eff, image, build, g.status, o), o)
  {
    hide DeployStage, Quiet, ImageFits, AwaitsClientId, StoredApp;
    DeployTells(g.cluster, id, spec, eff, image, build, g.status, o);
    var s := DeployStage(g.cluster, id, spec, eff, image, build, g.status, o);
    if o.argo {
      assert s.cluster.history[..|s.cluster.history| - 1] == g.cluster.history;
      assert c.history <= g.cluster.history by { QuietGrows(c0, id, c.history, g.cluster.history); }
      StoredAppAlike(g.cluster, c, s.cluster, id, spec, eff, s.cluster.argo[s.status.argoApplication],
                     s.cluster.history[|s.cluster.history| - 1].build, o);
    }
  }

  lemma QuietGrows(c0: Cluster, id: Id, h: seq<Event>, h': seq<Event>)
    requires Quiet(c0, id, h, h')
    ensures h <= h'
  {
  }

  lemma StoredAppAlike(c: Cluster, d: Cluster, c': Cluster, id: Id, spec: AppSpec, eff: Effective, stored: ArgoApp,
                       build: Option<Parameters>, o: Oracle)
    requires StoredApp(c, c', id, spec, eff, stored, build, o) && c.world == d.world
    ensures StoredApp(d, c', id, spec, eff, stored, build, o)
  {
    hide SecretFits, OidcFits, ImageFits;
  }

  lemma GatedEnds(c0: Cluster, c: Cluster, id: Id, spec: AppSpec, eff: Effective, st: AppStatus, o: Oracle)
    requires id in c0.apps && c0.apps[id].spec == spec && c.world == c0.world && c.snapshots == c0.snapshots
    requires Resolve(c0.world, id, spec) == Resolved(eff) && st.restoredFrom == c0.apps[id].status.restoredFrom
    ensures Ends(c0, id, c, spec, eff, st, Gated(c, id, spec, eff, st, o), o)
  {
    NothingIsQuiet(c0, id, c.history);
    hide Resolve, BuildGate, RestoreGate, DeployStage, Ends, Quiet, Tagged, PushRef;
    var start := Staged(c, st, Open("", None));
    var built := start;
    if spec.source.Some? {
      built := BuildGate(c, id, spec.source.value, eff, st, o);
      BuildGateTells(c0, c, id, spec.source.value, eff, st, o);
    }
    if built.gate.Held? {
      HeldEnds(c0, id, c, spec, eff, st, built, o);
    } else {
      BuiltEnds(c0, c, id, spec, eff, st, built, o);
    }
  }

  /** The rest of a pass whose build gate let it through. */
  lemma BuiltEnds(c0: Cluster, c: Cluster, id: Id, spec: AppSpec, eff: Effective, st: AppStatus, built: Staged, o: Oracle)
    requires id in c0.apps && c0.apps[id].spec == spec && c.world == c0.world && c.snapshots == c0.snapshots
    requires Resolve(c0.world, id, spec) == Resolved(eff) && st.restoredFrom == c0.apps[id].status.restoredFrom
    requires GateOnly(c0, id, c, st, built) && built.gate.Open? && ImageFits(c.world, id, spec, built.gate.image, built.gate.build)
    requires spec.source.Some? ==> Tagged(built.gate.image, spec.source.value.ref)
    requires built.status.restoredFrom == st.restoredFrom
    ensures var image := built.gate.image;
            var restored := if spec.restoreFrom.Some?
                            then RestoreGate(built.cluster, id, spec, spec.restoreFrom.value, eff, image, built.status, o)
                            else built;
            Ends(c0, id, c, spec, eff, st,
                 if restored.gate.Held? then restored
                 else DeployStage(restored.cluster, id, spec, eff, image, built.gate.build, restored.status, o), o)
  {
    hide Resolve, RestoreGate, DeployStage, Ends, Quiet, Tagged, PushRef;
    var restored := built;
    if spec.restoreFrom.Some? {
      restored := RestoreGate(built.cluster, id, spec, spec.restoreFrom.value, eff, built.gate.image, built.status, o);
      RestoreGateTells(c0, built.cluster, id, spec, spec.restoreFrom.value, eff, built.gate.image, built.status, o);
      GatesTogether(c0, id, c, st, built, restored);
    }
    if restored.gate.Held? {
      HeldEnds(c0, id, c, spec, eff, st, restored, o);
    } else {
      DeployEnds(c0, id, c, spec, eff, st, restored, built.gate.image, built.gate.build, o);
    }
  }

  predicate AppliesLast(h: seq<Event>, h': seq<Event>) {
    |h'| > |h| && h'[|h'| - 1].Applied?
  }

  /** What a pass from `c` to `c'` may do. */
  ghost predicate PassTells(c: Cluster, c': Cluster, id: Id, o: Oracle) {
    && id in c.apps && id in c'.apps
    && c'.apps == c.apps[id := c.apps[id].(status := c'.apps[id].status)]
    && c'.apps[id].status.observedGeneration == c.apps[id].generation
    && c'.snapshots == c.snapshots && c'.world == c.world && c.history <= c'.history
    && (forall i :: |c.history| <= i < |c'.history| ==>
          && (c'.history[i].Submitted? ==> AskedFor(c, id, c'.history[i]))
          && (c'.history[i].Applied? ==> i == |c'.history| - 1 && Stored(c, c', id, c'.history[i], o)))
    && (!AppliesLast(c.history, c'.history) ==> c'.argo == c.argo && c'.apps[id].status.ready.NotReady?)
  }

  lemma FinishWithheld(c: Cluster, id: Id, s: Staged, o: Oracle)
    requires id in c.apps && Quiet(c, id, c.history, s.cluster.history) && s.gate.Held?
    requires s.cluster.argo == c.argo && s.cluster.apps == c.apps
    requires s.cluster.snapshots == c.snapshots && s.cluster.world == c.world
    ensures PassTells(c, Finish(s, id), id, o)
  {
    hide AskedFor, Stored;
  }

  lemma QuietThenApply(c: Cluster, id: Id, h: seq<Event>, h': seq<Event>)
    requires |h'| > |h| && Quiet(c, id, h, h'[..|h'| - 1]) && h'[|h'| - 1].Applied?
    ensures h <= h'
    ensures forall i :: |h| <= i < |h'| ==> (h'[i].Submitted? ==> AskedFor(c, id, h'[i])) && (h'[i].Applied? ==> i == |h'| - 1)
  {
    hide AskedFor;
    var front := h'[..|h'| - 1];
    forall i | |h| <= i < |h'| - 1 ensures !h'[i].Applied? && (h'[i].Submitted? ==> AskedFor(c, id, h'[i])) {
      assert front[i] == h'[i];
    }
    assert h <= front <= h';
  }

  lemma DeployedIsStored(c: Cluster, c1: Cluster, id: Id, eff: Effective, st: AppStatus, s: Staged, o: Oracle)
    requires id in c.apps && c1 == c.(namespaces := c.namespaces + {eff.namespace})
    requires Resolve(c.world, id, c.apps[id].spec) == Resolved(eff) && eff.host != ""
    requires st == c.apps[id].status.(namespace := eff.namespace)
    requires Deploys(c, id, c1, c.apps[id].spec, eff, st, s, o)
    ensures var e := s.cluster.history[|s.cluster.history| - 1]; e.Applied? && Stored(c, Finish(s, id), id, e, o)
  {
    var c' := Finish(s, id);
    var e := s.cluster.history[|s.cluster.history| - 1];
    hide Resolve, Finish, AwaitsClientId, Quiet, StoredApp, StatusBeside;
    FinishKeepsObjects(s, id);
    DeployedApp(c, c1, id, eff, st, s, o);
    DeployedStatus(c, c1, id, eff, st, s, o);
  }

  lemma DeployedApp(c: Cluster, c1: Cluster, id: Id, eff: Effective, st: AppStatus, s: Staged, o: Oracle)
    requires id in c.apps && c1 == c.(namespaces := c.namespaces + {eff.namespace})
    requires Deploys(c, id, c1, c.apps[id].spec, eff, st, s, o)
    ensures var e := s.cluster.history[|s.cluster.history| - 1];
            StoredApp(c, Finish(s, id), id, c.apps[id].spec, eff, s.cluster.argo[s.status.argoApplication], e.build, o)
  {
    hide Finish, AwaitsClientId, Quiet, StoredApp;
    FinishKeepsObjects(s, id);
    StoredAppFinished(c1, s.cluster, c, Finish(s, id), id, c.apps[id].spec, eff, s.cluster.argo[s.status.argoApplication],
                      s.cluster.history[|s.cluster.history| - 1].build, o);
  }

  lemma DeployedStatus(c: Cluster, c1: Cluster, id: Id, eff: Effective, st: AppStatus, s: Staged, o: Oracle)
    requires id in c.apps && c1 == c.(namespaces := c.namespaces + {eff.namespace}) && eff.host != ""
    requires st == c.apps[id].status.(namespace := eff.namespace)
    requires Deploys(c, id, c1, c.apps[id].spec, eff, st, s, o)
    ensures StatusBeside(c.world, c.apps[id].spec, c.apps[id].status, Finish(s, id).apps[id].status,
                         s.cluster.argo[s.status.argoApplication].values)
  {
    hide Finish, AwaitsClientId, Quiet, StoredApp;
    FinishKeepsObjects(s, id);
    StoredHost(c1, s.cluster, id, c.apps[id].spec, eff, s.cluster.argo[s.status.argoApplication],
               s.cluster.history[|s.cluster.history| - 1].build, o);
  }

  lemma FinishKeepsObjects(s: Staged, id: Id)
    requires id in s.cluster.apps
    ensures var c' := Finish(s, id);
            && c' == s.cluster.(apps := c'.apps) && id in c'.apps
            && c'.apps[id].status == s.status.(ready := if s.gate.Held? then NotReady(s.gate.reason) else IsReady,
                                               observedGeneration := s.cluster.apps[id].generation)
  {
  }

  lemma StoredHost(c: Cluster, c': Cluster, id: Id, spec: AppSpec, eff: Effective, stored: ArgoApp, build: Option<Parameters>,
                   o: Oracle)
    requires StoredApp(c, c', id, spec, eff, stored, build, o)
    ensures stored.values.host == eff.host
  {
  }

  lemma FinishDeployed(c: Cluster, c1: Cluster, id: Id, eff: Effective, st: AppStatus, s: Staged, o: Oracle)
    requires id in c.apps && c1 == c.(namespaces := c.namespaces + {eff.namespace})
    requires Resolve(c.world, id, c.apps[id].spec) == Resolved(eff) && eff.host != ""
    requires st == c.apps[id].status.(namespace := eff.namespace)
    requires Deploys(c, id, c1, c.apps[id].spec, eff, st, s, o)
    ensures PassTells(c, Finish(s, id), id, o)
  {
    hide Resolve, AskedFor, Quiet, StoredApp, AwaitsClientId, Stored;
    QuietThenApply(c, id, c.history, s.cluster.history);
    DeployedIsStored(c, c1, id, eff, st, s, o);
  }

  lemma StoredAppFinished(c: Cluster, c1: Cluster, d: Cluster, d1: Cluster, id: Id, spec: AppSpec, eff: Effective,
                          stored: ArgoApp, build: Option<Parameters>, o: Oracle)
    requires StoredApp(c, c1, id, spec, eff, stored, build, o)
    requires d.world == c.world && d1.world == c1.world && d1.externalSecrets == c1.externalSecrets
    ensures StoredApp(d, d1, id, spec, eff, stored, build, o)
  {
    hide OidcFits, ImageFits, Holds;
  }

  /** One pass, from any cluster and whatever its calls meet: each workflow that it submits is asked for what the objects say,
      an apply is the last thing it logs and its Argo CD Application is stored as asked, and a pass without an apply leaves
      Argo CD as it was and the application not Ready. */
  lemma PassStores(c: Cluster, id: Id, o: Oracle)
    requires id in c.apps
    ensures PassTells(c, ApplicationPass(c, id, o), id, o)
  {
    hide Resolve, Gated, PassTells, Finish, Quiet, Deploys;
    var app := c.apps[id];
    var resolved := Resolve(c.world, id, app.spec);
    var s := PassStages(c, id, app, o);
    NothingIsQuiet(c, id, c.history);
    if resolved.Resolved? && resolved.effective.host != "" && o.namespaces {
      var eff := resolved.effective;
      var c1, st := c.(namespaces := c.namespaces + {eff.namespace}), app.status.(namespace := eff.namespace);
      GatedEnds(c, c1, id, app.spec, eff, st, o);
      if Withheld(c, id, c1, s) {
        FinishWithheld(c, id, s, o);
      } else {
        FinishDeployed(c, c1, id, eff, st, s, o);
      }
    } else {
      FinishWithheld(c, id, s, o);
    }
  }

  // ---- the stored image ----

  /** The image that the Argo CD Application names is the one that exactly the build asked for has pushed last. */
  predicate NamesOwnImage(c: Cluster, c': Cluster, id: Id, build: Option<Parameters>)
    requires id in c.apps
  {
    && id in c'.apps && c'.apps[id].status.argoApplication in c'.argo
    && var image := c'.argo[c'.apps[id].status.argoApplication].values.image;
    && image != "" && build.Some? && build.value.BuildParameters? && AskedBuild(c.world, id, c.apps[id].spec, build.value)
    && LastBuild(c'.history, PushRef(image, c.world.config.harborPushEndpoint)) == build
  }

  /** So it is right after a pass that applies an application with a source. */
  predicate OwnImageStored(c: Cluster, c': Cluster, id: Id)
    requires id in c.apps
  {
    c.apps[id].spec.source.Some? && AppliesLast(c.history, c'.history) ==>
      NamesOwnImage(c, c', id, c'.history[|c'.history| - 1].build)
  }

  predicate StoresOwnImage(c: Cluster, s: Step) {
    s.ReconcileApp? && s.id in c.apps ==> OwnImageStored(c, Take(c, s), s.id)
  }

  ghost predicate RunStoresOwn(c: Cluster, steps: seq<Step>)
    decreases |steps|
  {
    steps != [] ==> StoresOwnImage(c, steps[0]) && RunStoresOwn(Take(c, steps[0]), steps[1..])
  }

  ghost predicate AlwaysStoresOwn(uses: set<BuildUse>) {
    forall w, steps :: UsesOfRun(Fresh(w), steps).builds <= uses ==> RunStoresOwn(Fresh(w), steps)
  }

  /** Nothing between `h` and `h'` is an apply, except perhaps the last event. */
  ghost predicate LastAtMost(h: seq<Event>, h': seq<Event>) {
    h <= h' && forall i :: |h| <= i < |h'| && h'[i].Applied? ==> i == |h'| - 1
  }

  lemma ImagesGrow(h: seq<Event>, h': seq<Event>)
    requires LastAtMost(h, h')
    ensures ImagesOk(h') <==>
            ImagesOk(h) && (AppliesLast(h, h') ==> FromOwnImage(h'[..|h'| - 1], h'[|h'| - 1]))
  {
    hide LastBuild;
    assert forall i :: 0 <= i < |h| ==> h'[i] == h[i] && h'[..i] == h[..i];
    if ImagesOk(h) && (AppliesLast(h, h') ==> FromOwnImage(h'[..|h'| - 1], h'[|h'| - 1])) {
      forall i | 0 <= i < |h'| ensures FromOwnImage(h'[..i], h'[i]) {
        if i < |h| { assert FromOwnImage(h[..i], h[i]); }
      }
    }
    if ImagesOk(h') {
      forall i | 0 <= i < |h| ensures FromOwnImage(h[..i], h[i]) { assert FromOwnImage(h'[..i], h'[i]); }
    }
  }

  lemma ApplyWritesNothing(h: seq<Event>, image: string)
    requires h != [] && h[|h| - 1].Applied?
    ensures LastBuild(h, image) == LastBuild(h[..|h| - 1], image)
  {
  }

  lemma PassLastAtMost(c: Cluster, c': Cluster, id: Id, o: Oracle)
    requires PassTells(c, c', id, o)
    ensures LastAtMost(c.history, c'.history)
  {
    hide AskedFor, Stored;
  }

  lemma PassApplied(c: Cluster, c': Cluster, id: Id, e: Event, o: Oracle)
    requires PassTells(c, c', id, o) && AppliesLast(c.history, c'.history) && e == c'.history[|c'.history| - 1]
    ensures e.Applied? && Stored(c, c', id, e, o)
  {
    hide AskedFor, Stored;
  }

  lemma StoredImage(c: Cluster, c': Cluster, id: Id, e: Event, o: Oracle)
    requires e.Applied? && Stored(c, c', id, e, o) && c.apps[id].spec.source.Some?
    ensures id in c'.apps && c'.apps[id].status.argoApplication in c'.argo && e.spec == c.apps[id].spec
    ensures ImageFits(c.world, id, c.apps[id].spec, c'.argo[c'.apps[id].status.argoApplication].values.image, e.build)
  {
    hide Resolve, OidcFits, SecretFits, StatusBeside, ImageFits;
  }

  /** A pass applies from the application's own image if and only if it stores that image. */
  lemma PassOwnImage(c: Cluster, c': Cluster, id: Id, o: Oracle)
    requires id in c.apps && PassTells(c, c', id, o)
    ensures OwnImageStored(c, c', id) <==>
            (AppliesLast(c.history, c'.history) ==> FromOwnImage(c'.history[..|c'.history| - 1], c'.history[|c'.history| - 1]))
  {
    hide PassTells, Stored, LastBuild, AskedBuild, PushRef;
    if AppliesLast(c.history, c'.history) {
      var e := c'.history[|c'.history| - 1];
      PassApplied(c, c', id, e, o);
      AppliedSpec(c, c', id, e, o);
      if e.spec.source.Some? {
        StoredImage(c, c', id, e, o);
        ApplyWritesNothing(c'.history, e.build.value.outputImage);
      }
    }
  }

  lemma AppliedSpec(c: Cluster, c': Cluster, id: Id, e: Event, o: Oracle)
    requires e.Applied? && Stored(c, c', id, e, o)
    ensures e.spec == c.apps[id].spec
  {
    hide Resolve, StoredApp, StatusBeside;
  }

  lemma SubmitApplies(c: Cluster, owner: Id, name: string, p: Parameters)
    ensures var h := Submit(c, owner, name, p).history; LastAtMost(c.history, h) && !AppliesLast(c.history, h)
  {
  }

  lemma HearApplies(c: Cluster, name: string, news: Option<Phase>)
    ensures var h := Hear(c, name, news).history; LastAtMost(c.history, h) && !AppliesLast(c.history, h)
  {
  }

  lemma NothingAppliesTwice(a: seq<Event>, b: seq<Event>, c: seq<Event>)
    requires LastAtMost(a, b) && !AppliesLast(a, b) && LastAtMost(b, c) && !AppliesLast(b, c)
    ensures LastAtMost(a, c) && !AppliesLast(a, c)
  {
    forall i | |a| <= i < |c| ensures !c[i].Applied? {
      if i < |b| { assert c[i] == b[i]; }
    }
  }

  lemma AskApplies(c: Cluster, owner: Id, name: string, p: Parameters, news: Option<Phase>)
    ensures var h := Ask(c, owner, name, p, news).history; LastAtMost(c.history, h) && !AppliesLast(c.history, h)
  {
    hide Submit, Hear, LastAtMost, AppliesLast;
    SubmitApplies(c, owner, name, p);
    HearApplies(Submit(c, owner, name, p), name, news);
    NothingAppliesTwice(c.history, Submit(c, owner, name, p).history, Ask(c, owner, name, p, news).history);
  }

  /** No step but a pass over an application logs an apply. */
  lemma OthersApplyNothing(c: Cluster, s: Step)
    requires !s.ReconcileApp?
    ensures LastAtMost(c.history, Take(c, s).history) && !AppliesLast(c.history, Take(c, s).history)
  {
    hide DumpName, DumpKey, ConnectionOf, JobSecretsPresent, Ask;
    if s.ReconcileSnapshot? {
      SnapshotAppliesNothing(c, s.id, s.oracle);
      hide SnapshotPass;
    }
  }

  lemma SnapshotAppliesNothing(c: Cluster, id: Id, o: Oracle)
    ensures var h := SnapshotPass(c, id, o).history; LastAtMost(c.history, h) && !AppliesLast(c.history, h)
  {
    hide DumpName, DumpKey, ConnectionOf, JobSecretsPresent, Ask, LastAtMost, AppliesLast;
    NothingApplies(c.history);
    if id in c.snapshots {
      var appId := Id(id.namespace, c.snapshots[id].application);
      if appId in c.apps {
        var conn := ConnectionOf(c.world, id.namespace, c.apps[appId].spec.databases, c.apps[appId].status.namespace);
        if conn.Some? { AskApplies(c, id, DumpName(id), DumpParameters(conn.value, DumpKey(id)), o.jobNews); }
      }
    }
  }

  lemma NothingApplies(h: seq<Event>)
    ensures LastAtMost(h, h) && !AppliesLast(h, h)
  {
  }

  lemma TakesPass(c: Cluster, id: Id, o: Oracle)
    ensures Take(c, ReconcileApp(id, o)) == ApplicationPass(c, id, o)
  {
    hide ApplicationPass;
  }

  lemma TakesNothing(c: Cluster, id: Id, o: Oracle)
    requires id !in c.apps
    ensures Take(c, ReconcileApp(id, o)) == c && LastAtMost(c.history, c.history) && !AppliesLast(c.history, c.history)
  {
    hide PassStages;
  }

  lemma StepOwnImage(c: Cluster, s: Step)
    ensures ImagesOk(Take(c, s).history) <==> ImagesOk(c.history) && StoresOwnImage(c, s)
  {
    hide ImagesOk, FromOwnImage, ApplicationPass, LastAtMost, PassTells, OwnImageStored;
    var c' := Take(c, s);
    if s.ReconcileApp? && s.id in c.apps {
      TakesPass(c, s.id, s.oracle);
      PassStores(c, s.id, s.oracle);
      PassLastAtMost(c, c', s.id, s.oracle);
      PassOwnImage(c, c', s.id, s.oracle);
    } else if !s.ReconcileApp? {
      OthersApplyNothing(c, s);
    } else {
      TakesNothing(c, s.id, s.oracle);
    }
    hide Take, AppliesLast;
    ImagesGrow(c.history, c'.history);
  }

  lemma {:induction false} RunOwnImage(c: Cluster, steps: seq<Step>)
    ensures ImagesOk(Run(c, steps).history) <==> ImagesOk(c.history) && RunStoresOwn(c, steps)
    decreases |steps|
  {
    hide ImagesOk, StoresOwnImage, Take;
    if steps != [] {
      StepOwnImage(c, steps[0]);
      RunOwnImage(Take(c, steps[0]), steps[1..]);
    }
  }

  /** Over all runs, every pass that applies an application with a source stores the image that exactly the build asked for
      has pushed last, if and only if the names of the build workflows and the image references both tell the builds
      apart. */
  lemma OwnImageIff(uses: set<BuildUse>)
    requires forall u :: u in uses ==> Buildable(u)
    ensures AlwaysStoresOwn(uses) <==> BuildsTell(uses) && ImagesTell(uses)
  {
    hide Run, UsesOfRun, Buildable, BuildsTell, ImagesTell, ImagesOk, RunStoresOwn;
    AppliedImageIff(uses);
    forall w, steps ensures ImagesOk(Run(Fresh(w), steps).history) <==> RunStoresOwn(Fresh(w), steps) {
      RunOwnImage(Fresh(w), steps);
      FreshOwnImage(w);
    }
  }

  lemma FreshOwnImage(w: World)
    ensures ImagesOk(Fresh(w).history)
  {
  }
}
