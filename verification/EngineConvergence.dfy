/** Convergence, pass by pass: with its references in place and backends that answer, every answered pass brings an
    application a stage further until it is Ready, and from then on a pass changes nothing. */
module EngineConvergence {
  import opened Wrappers
  import opened EngineModel
  import Names
  import Secrets = ScopedSecrets

  // ---- what stays fixed ----

  /** The backends answer; a workflow that reports in the middle of a pass reports success. */
  predicate Answering(o: Oracle) {
    && o.namespaces && o.buildSecrets && o.buildSubmit && o.jobSecrets && o.jobSubmit && o.openbao && o.argo
    && o.buildNews in {None, Some(Succeeded)} && o.jobNews in {None, Some(Succeeded)}
  }

  function RepoOf(id: Id, source: Source): Id {
    Id(id.namespace, source.repository)
  }

  /** The git ref a build uses. */
  function RefOf(w: World, id: Id, source: Source): string {
    var repo := RepoOf(id, source);
    FirstOf(source.ref, FirstOf(if repo in w.repositories then w.repositories[repo].defaultBranch else "", "main"))
  }

  function BuildOf(w: World, id: Id, source: Source, eff: Effective): string {
    BuildName(eff.namespace, eff.app, RefOf(w, id, source))
  }

  function ImageOf(w: World, id: Id, source: Source, eff: Effective): string {
    ImageRef(w.config, eff.clientSlug, eff.app, RefOf(w, id, source))
  }

  function RestoreOf(restore: Restore, eff: Effective): string {
    RestoreName(eff.namespace, eff.app, restore.snapshot)
  }

  predicate Recorded(spec: AppSpec, st: AppStatus) {
    spec.restoreFrom.Some? ==> st.restoredFrom == spec.restoreFrom.value.snapshot
  }

  /** The restore can run: a database connection, a completed snapshot, and the job's Secrets. */
  predicate Restorable(c: Cluster, id: Id, spec: AppSpec, eff: Effective)
    requires spec.restoreFrom.Some?
  {
    var conn := ConnectionOf(c.world, id.namespace, spec.databases, eff.namespace);
    && conn.Some?
    && DumpReady(c, Id(id.namespace, spec.restoreFrom.value.snapshot)) && JobSecretsPresent(c.world, conn.value)
  }

  /** What the build and restore gates look up is there. */
  predicate Usable(c: Cluster, id: Id, spec: AppSpec, eff: Effective, st: AppStatus) {
    && (spec.source.Some? ==> BuildBlocked(c.world, RepoOf(id, spec.source.value), ALL_WELL) == None)
    && (spec.restoreFrom.Some? ==>
          && spec.restoreFrom.value.snapshot != ""
          && ConnectionOf(c.world, id.namespace, spec.databases, eff.namespace).Some?
          && (Recorded(spec, st) || Restorable(c, id, spec, eff)))
  }

  /** The references an application needs are present: everything its passes look up resolves. */
  predicate Present(c: Cluster, id: Id, spec: AppSpec, eff: Effective) {
    && id in c.apps && c.apps[id].spec == spec
    && Resolve(c.world, id, spec) == Resolved(eff) && eff.host != ""
    && Usable(c, id, spec, eff, c.apps[id].status)
  }

  // ---- how far an application has come ----

  function Argo(eff: Effective): string {
    Names.ArgoAppName(eff.namespace, eff.app)
  }

  function DesiredImage(w: World, id: Id, spec: AppSpec, eff: Effective): string {
    if spec.source.Some? then ImageOf(w, id, spec.source.value, eff) else ""
  }

  function DesiredValues(w: World, id: Id, spec: AppSpec, eff: Effective): Values {
    DeployedValues(w, spec, eff, DesiredImage(w, id, spec, eff), ALL_WELL)
  }

  /** The status of a deployed application. */
  predicate StatusDeployed(w: World, id: Id, spec: AppSpec, eff: Effective, st: AppStatus) {
    && st.namespace == eff.namespace && st.url == "https://" + eff.host && st.argoApplication == Argo(eff)
    && st.phase == Deployed
    && (spec.source.Some? ==>
          && st.buildWorkflow == BuildOf(w, id, spec.source.value, eff)
          && st.builtImage == ImageOf(w, id, spec.source.value, eff))
    && Recorded(spec, st)
  }

  /** The cluster objects of a finished application. */
  predicate ObjectsSettled(c: Cluster, id: Id, spec: AppSpec, eff: Effective) {
    && eff.namespace in c.namespaces
    && Argo(eff) in c.argo
    && c.argo[Argo(eff)].values == DesiredValues(c.world, id, spec, eff)
    && c.argo[Argo(eff)].destination == eff.namespace && ARGO_FINALIZER in c.argo[Argo(eff)].finalizers
    && DeliveredSecrets(c.world, eff, true, c.externalSecrets) == c.externalSecrets
  }

  predicate BuildDone(c: Cluster, id: Id, spec: AppSpec, eff: Effective) {
    spec.source.Some? ==> PhaseOf(c, BuildOf(c.world, id, spec.source.value, eff)) == Succeeded
  }

  predicate SsoDone(c: Cluster, spec: AppSpec, eff: Effective) {
    ResolveOidc(c.world, spec, eff.namespace).1
  }

  /** Ready, with everything deployed as the spec asks. */
  predicate Settled(c: Cluster, id: Id, spec: AppSpec, eff: Effective) {
    && id in c.apps && StatusDeployed(c.world, id, spec, eff, c.apps[id].status)
    && c.apps[id].status.ready == IsReady && c.apps[id].status.observedGeneration == c.apps[id].generation
    && ObjectsSettled(c, id, spec, eff) && BuildDone(c, id, spec, eff) && SsoDone(c, spec, eff)
  }

  function BuildLeft(c: Cluster, id: Id, spec: AppSpec, eff: Effective): nat {
    if spec.source.Some? && BuildOf(c.world, id, spec.source.value, eff) !in c.workflows then 1 else 0
  }

  function RestoreLeft(c: Cluster, id: Id, spec: AppSpec, eff: Effective): nat {
    if id in c.apps && !Recorded(spec, c.apps[id].status) && RestoreOf(spec.restoreFrom.value, eff) !in c.workflows
    then 1 else 0
  }

  function DeployLeft(c: Cluster, id: Id, spec: AppSpec, eff: Effective): nat {
    if Argo(eff) !in c.argo then 2 else if Settled(c, id, spec, eff) then 0 else 1
  }

  /** The stages still to pass: the build, the restore, the deployment and the SSO credentials. */
  function Remaining(c: Cluster, id: Id, spec: AppSpec, eff: Effective): (n: nat)
    ensures n <= 4
  {
    BuildLeft(c, id, spec, eff) + RestoreLeft(c, id, spec, eff) + DeployLeft(c, id, spec, eff)
  }

  /** The surroundings have done what the application is waiting for: submitted workflows have succeeded, and once the
      chart is deployed the SSO client id is published. */
  predicate Answered(c: Cluster, id: Id, spec: AppSpec, eff: Effective) {
    && id in c.apps
    && (BuildLeft(c, id, spec, eff) == 0 ==> BuildDone(c, id, spec, eff))
    && (!Recorded(spec, c.apps[id].status) && RestoreLeft(c, id, spec, eff) == 0 ==>
          PhaseOf(c, RestoreOf(spec.restoreFrom.value, eff)) == Succeeded)
    && (Argo(eff) in c.argo ==> SsoDone(c, spec, eff))
  }

  // ---- the stages ----

  /** The stage may add workflows and events, and lets no workflow that has succeeded go. */
  ghost predicate Moves(c: Cluster, c': Cluster) {
    && c'.(workflows := c.workflows, history := c.history) == c
    && forall n :: n in c.workflows ==>
         n in c'.workflows && (c.workflows[n].phase == Succeeded ==> c'.workflows[n] == c.workflows[n])
  }

  lemma AskMoves(c: Cluster, owner: Id, name: string, p: Parameters, news: Option<Phase>)
    requires news in {None, Some(Succeeded)}
    ensures var c' := Ask(c, owner, name, p, news);
            && Moves(c, c') && name in c'.workflows
            && (PhaseOf(c, name) == Succeeded ==> PhaseOf(c', name) == Succeeded && c'.workflows == c.workflows)
  {
  }

  lemma BuildMoves(c: Cluster, id: Id, spec: AppSpec, eff: Effective, st: AppStatus, o: Oracle)
    requires Answering(o) && spec.source.Some? && BuildBlocked(c.world, RepoOf(id, spec.source.value), ALL_WELL) == None
    ensures var s := BuildGate(c, id, spec.source.value, eff, st, o);
            var wf := BuildOf(c.world, id, spec.source.value, eff);
            && Moves(c, s.cluster) && wf in s.cluster.workflows
            && (PhaseOf(c, wf) == Succeeded ==> s.gate.Open? && s.cluster.workflows == c.workflows)
            && s.status.restoredFrom == st.restoredFrom && s.status.namespace == st.namespace
            && (s.gate.Open? ==>
                  && s.gate.image == ImageOf(c.world, id, spec.source.value, eff)
                  && BuildDone(s.cluster, id, spec, eff) && s.status == st.(buildWorkflow := wf))
  {
    hide ImageRef, PushRef, Endpoint, BuildName, Ask;
    var repo := c.world.repositories[RepoOf(id, spec.source.value)];
    var ref := RefOf(c.world, id, spec.source.value);
    assert BuildBlocked(c.world, RepoOf(id, spec.source.value), o) == None;
    var source := spec.source.value;
    AskMoves(c, id, BuildName(eff.namespace, eff.app, ref), BuildRequest(c.world, repo, source, eff, ref), o.buildNews);
    assert BuildGate(c, id, source, eff, st, o) == BuildWith(c, id, repo, source, ref, eff, st, o);
  }

  lemma RestoreWithMoves(c: Cluster, id: Id, conn: Connection, restore: Restore, eff: Effective, image: string,
                         st: AppStatus, o: Oracle)
    requires Answering(o)
    ensures var s := RestoreWith(c, id, conn, restore, eff, image, st, o);
            && Moves(c, s.cluster) && RestoreOf(restore, eff) in s.cluster.workflows
            && (PhaseOf(c, RestoreOf(restore, eff)) == Succeeded ==> s.gate.Open?)
            && (s.gate.Held? ==> s.status.restoredFrom == st.restoredFrom)
            && (s.gate.Open? ==>
                  s.status == st.(restoreWorkflow := RestoreOf(restore, eff), restoredFrom := restore.snapshot))
  {
    hide RestoreName, DumpKey, Ask;
    var wf := RestoreName(eff.namespace, eff.app, restore.snapshot);
    var sanitize := if restore.sanitize.Some? then restore.sanitize.value else eff.class_ != "production";
    AskMoves(c, id, wf, RestoreParameters(conn, DumpKey(Id(id.namespace, restore.snapshot)), FirstOf(image, eff.platformImage), sanitize),
             o.jobNews);
  }

  /** The restore gate, when its references are there. */
  lemma RestoreMoves(c: Cluster, id: Id, spec: AppSpec, eff: Effective, image: string, st: AppStatus, o: Oracle)
    requires Answering(o) && spec.restoreFrom.Some? && spec.restoreFrom.value.snapshot != ""
    requires ConnectionOf(c.world, id.namespace, spec.databases, eff.namespace).Some?
    requires Recorded(spec, st) || Restorable(c, id, spec, eff)
    ensures var s := RestoreGate(c, id, spec, spec.restoreFrom.value, eff, image, st, o);
            var wf := RestoreOf(spec.restoreFrom.value, eff);
            && Moves(c, s.cluster) && s.status.(phase := st.phase, restoreWorkflow := st.restoreWorkflow, restoredFrom := st.restoredFrom) == st
            && (Recorded(spec, st) ==> s == Staged(c, st, Open("", None)))
            && (!Recorded(spec, st) ==> wf in s.cluster.workflows && (PhaseOf(c, wf) == Succeeded ==> s.gate.Open?))
            && (s.gate.Open? ==> Recorded(spec, s.status))
            && (s.gate.Held? ==> s.status.restoredFrom == st.restoredFrom)
  {
    hide RestoreName, RestoreWith, ConnectionOf, JobSecretsPresent, DumpReady;
    var restore, conn := spec.restoreFrom.value, ConnectionOf(c.world, id.namespace, spec.databases, eff.namespace);
    RestoreWithMoves(c, id, conn.value, restore, eff, image, st, o);
    RestoreKeepsStatus(c, id, conn.value, restore, eff, image, st, o);
  }

  lemma RestoreKeepsStatus(c: Cluster, id: Id, conn: Connection, restore: Restore, eff: Effective, image: string,
                           st: AppStatus, o: Oracle)
    ensures var s := RestoreWith(c, id, conn, restore, eff, image, st, o);
            s.status.(phase := st.phase, restoreWorkflow := st.restoreWorkflow, restoredFrom := st.restoredFrom) == st
  {
    hide Ask, RestoreName, DumpKey;
  }

  /** The deployment puts every object and the status in place; it is Ready when the SSO client id is there. */
  lemma DeployLands(c: Cluster, id: Id, spec: AppSpec, eff: Effective, build: Option<Parameters>, st: AppStatus, o: Oracle)
    requires Answering(o) && eff.namespace in c.namespaces && st.namespace == eff.namespace
    requires BuildDone(c, id, spec, eff) && Recorded(spec, st)
    requires spec.source.Some? ==> st.buildWorkflow == BuildOf(c.world, id, spec.source.value, eff)
    ensures var s := DeployStage(c, id, spec, eff, DesiredImage(c.world, id, spec, eff), build, st, o);
            && s.cluster.(argo := c.argo, externalSecrets := c.externalSecrets, history := c.history) == c
            && c.argo.Keys <= s.cluster.argo.Keys
            && ObjectsSettled(s.cluster, id, spec, eff) && BuildDone(s.cluster, id, spec, eff)
            && StatusDeployed(c.world, id, spec, eff, s.status)
            && (s.gate.Open? <==> SsoDone(c, spec, eff))
  {
    hide BuildName, Names.ArgoAppName, Names.SanitizeTag, ResolveOidc;
  }

  /** A deployment of what is deployed already writes the same objects and the same status. */
  lemma DeployAgain(c: Cluster, id: Id, spec: AppSpec, eff: Effective, build: Option<Parameters>, st: AppStatus, o: Oracle)
    requires Answering(o) && ObjectsSettled(c, id, spec, eff) && StatusDeployed(c.world, id, spec, eff, st)
    ensures var s := DeployStage(c, id, spec, eff, DesiredImage(c.world, id, spec, eff), build, st, o);
            s.cluster.(history := c.history) == c && s.status == st
  {
    hide BuildName, Names.ArgoAppName, Names.SanitizeTag, ResolveOidc;
    var name := Argo(eff);
    var a := c.argo[name];
    assert a.finalizers + {ARGO_FINALIZER} == a.finalizers;
    assert c.argo[name := a] == c.argo;
  }

  /** The gates and the deployment touch nothing else, and take no workflow success and no Argo object away. */
  ghost predicate Onward(c: Cluster, c': Cluster) {
    && c'.(workflows := c.workflows, history := c.history, argo := c.argo, externalSecrets := c.externalSecrets) == c
    && c.argo.Keys <= c'.argo.Keys
    && forall n :: n in c.workflows ==>
         n in c'.workflows && (c.workflows[n].phase == Succeeded ==> c'.workflows[n] == c.workflows[n])
  }

  /** The restore is behind: recorded, or its workflow has succeeded. */
  predicate RestoreDone(c: Cluster, spec: AppSpec, eff: Effective, st: AppStatus) {
    Recorded(spec, st) || PhaseOf(c, RestoreOf(spec.restoreFrom.value, eff)) == Succeeded
  }

  /** What the gates and the deployment together achieve, by how far the application had come. */
  ghost predicate Achieves(c: Cluster, id: Id, spec: AppSpec, eff: Effective, st: AppStatus, s: Staged) {
    && Onward(c, s.cluster)
    && BuildLeft(s.cluster, id, spec, eff) == 0
    && (Recorded(spec, st) ==> Recorded(spec, s.status))
    && (Recorded(spec, s.status) || s.status.restoredFrom == st.restoredFrom)
    && (BuildDone(c, id, spec, eff) ==>
          Recorded(spec, s.status) || RestoreOf(spec.restoreFrom.value, eff) in s.cluster.workflows)
    && (BuildDone(c, id, spec, eff) && RestoreDone(c, spec, eff, st) ==>
          && ObjectsSettled(s.cluster, id, spec, eff) && BuildDone(s.cluster, id, spec, eff)
          && StatusDeployed(c.world, id, spec, eff, s.status)
          && (SsoDone(c, spec, eff) ==> s.gate.Open?))
  }

  /** The part after the build gate. */
  lemma AfterBuildAchieves(built: Staged, id: Id, spec: AppSpec, eff: Effective, o: Oracle)
    requires Answering(o) && eff.namespace in built.cluster.namespaces && built.status.namespace == eff.namespace
    requires Usable(built.cluster, id, spec, eff, built.status)
    requires built.gate.Open? && built.gate.image == DesiredImage(built.cluster.world, id, spec, eff)
    requires BuildDone(built.cluster, id, spec, eff)
    requires spec.source.Some? ==> built.status.buildWorkflow == BuildOf(built.cluster.world, id, spec.source.value, eff)
    ensures var restored := if spec.restoreFrom.Some?
                            then RestoreGate(built.cluster, id, spec, spec.restoreFrom.value, eff, built.gate.image, built.status, o)
                            else built;
            var s := if restored.gate.Held? then restored
                     else DeployStage(restored.cluster, id, spec, eff, built.gate.image, built.gate.build, restored.status, o);
            Achieves(built.cluster, id, spec, eff, built.status, s)
  {
    hide BuildName, RestoreName, Names.ArgoAppName, ObjectsSettled, ResolveOidc, RestoreGate, DeployStage,
         BuildBlocked, ConnectionOf, DesiredImage, Restorable;
    var restored := built;
    if spec.restoreFrom.Some? {
      RestoreMoves(built.cluster, id, spec, eff, built.gate.image, built.status, o);
      restored := RestoreGate(built.cluster, id, spec, spec.restoreFrom.value, eff, built.gate.image, built.status, o);
    }
    if restored.gate.Open? {
      DeployLands(restored.cluster, id, spec, eff, built.gate.build, restored.status, o);
    }
  }

  lemma OnwardFrom(c: Cluster, c1: Cluster, c2: Cluster)
    requires Moves(c, c1) && Onward(c1, c2)
    ensures Onward(c, c2)
  {
  }

  lemma GatedAchieves(c: Cluster, id: Id, spec: AppSpec, eff: Effective, st: AppStatus, o: Oracle)
    requires Answering(o) && eff.namespace in c.namespaces && st.namespace == eff.namespace
    requires Usable(c, id, spec, eff, st)
    ensures Achieves(c, id, spec, eff, st, Gated(c, id, spec, eff, st, o))
  {
    hide BuildName, RestoreName, Names.ArgoAppName, ObjectsSettled, RestoreGate, DeployStage, BuildGate, BuildBlocked,
         ConnectionOf, JobSecretsPresent, ImageRef, ResolveOidc, RefOf;
    var built := if spec.source.Some? then BuildGate(c, id, spec.source.value, eff, st, o) else Staged(c, st, Open("", None));
    if spec.source.Some? { BuildMoves(c, id, spec, eff, st, o); }
    if built.gate.Open? {
      AfterBuildAchieves(built, id, spec, eff, o);
      OnwardFrom(c, built.cluster, Gated(c, id, spec, eff, st, o).cluster);
    }
  }

  // ---- whole passes ----

  function Entered(c: Cluster, eff: Effective): Cluster {
    c.(namespaces := c.namespaces + {eff.namespace})
  }

  function EnteredStatus(c: Cluster, id: Id, eff: Effective): AppStatus
    requires id in c.apps
  {
    c.apps[id].status.(namespace := eff.namespace)
  }

  /** With its references present, a pass is its gates and its deployment. */
  lemma PassIsGated(c: Cluster, id: Id, spec: AppSpec, eff: Effective, o: Oracle)
    requires Answering(o) && Present(c, id, spec, eff)
    ensures var s := Gated(Entered(c, eff), id, spec, eff, EnteredStatus(c, id, eff), o);
            && ApplicationPass(c, id, o) == Finish(s, id)
            && Achieves(Entered(c, eff), id, spec, eff, EnteredStatus(c, id, eff), s)
  {
    GatedAchieves(Entered(c, eff), id, spec, eff, EnteredStatus(c, id, eff), o) by {
      hide Resolve, ConnectionOf, JobSecretsPresent, BuildBlocked;
    }
    hide Gated, Resolve, Achieves;
  }

  lemma FinishedStatus(s: Staged, id: Id)
    requires id in s.cluster.apps
    ensures var c' := Finish(s, id);
            && c'.(apps := s.cluster.apps) == s.cluster && id in c'.apps
            && c'.apps[id].spec == s.cluster.apps[id].spec && c'.apps[id].generation == s.cluster.apps[id].generation
            && c'.apps[id].status.(ready := s.status.ready, observedGeneration := s.status.observedGeneration) == s.status
            && c'.apps[id].status.observedGeneration == c'.apps[id].generation
            && (s.gate.Open? ==> c'.apps[id].status.ready == IsReady)
  {
  }

  lemma PassKeepsPresent(c: Cluster, id: Id, spec: AppSpec, eff: Effective, o: Oracle)
    requires Answering(o) && Present(c, id, spec, eff)
    ensures var c' := ApplicationPass(c, id, o); c'.world == c.world && Present(c', id, spec, eff)
  {
    hide Resolve, ConnectionOf, JobSecretsPresent, BuildBlocked, Gated, ApplicationPass, Finish, BuildName, RestoreName,
         Names.ArgoAppName, ObjectsSettled, StatusDeployed, ResolveOidc, ImageOf, RefOf;
    PassIsGated(c, id, spec, eff, o);
    FinishedStatus(Gated(Entered(c, eff), id, spec, eff, EnteredStatus(c, id, eff), o), id);
  }

  /** A pass leaves the references present and never undoes a stage. Once the surroundings have answered, it passes a
      further stage, if one is left. */
  lemma PassDescends(c: Cluster, id: Id, spec: AppSpec, eff: Effective, o: Oracle)
    requires Answering(o) && Present(c, id, spec, eff)
    ensures var c' := ApplicationPass(c, id, o);
            && Present(c', id, spec, eff)
            && Remaining(c', id, spec, eff) <= Remaining(c, id, spec, eff)
            && (Answered(c, id, spec, eff) && !Settled(c, id, spec, eff) ==>
                  Remaining(c', id, spec, eff) < Remaining(c, id, spec, eff))
            && (Settled(c, id, spec, eff) ==> Settled(c', id, spec, eff))
  {
    hide Resolve, ConnectionOf, JobSecretsPresent, BuildBlocked, Gated, ApplicationPass, Finish, BuildName, RestoreName,
         Names.ArgoAppName, DesiredValues, ResolveOidc, ImageOf, RefOf, Usable, DeliveredSecrets;
    PassKeepsPresent(c, id, spec, eff, o);
    PassIsGated(c, id, spec, eff, o);
    FinishedStatus(Gated(Entered(c, eff), id, spec, eff, EnteredStatus(c, id, eff), o), id);
  }

  lemma AskOnly(c: Cluster, owner: Id, name: string, p: Parameters, news: Option<Phase>)
    ensures Ask(c, owner, name, p, news).(workflows := c.workflows, history := c.history) == c
  {
  }

  lemma BuildHoldsBack(c: Cluster, id: Id, spec: AppSpec, eff: Effective, st: AppStatus, o: Oracle)
    ensures var s := if spec.source.Some? then BuildGate(c, id, spec.source.value, eff, st, o) else Staged(c, st, Open("", None));
            && s.cluster.argo == c.argo && s.cluster.apps == c.apps && s.cluster.world == c.world
            && s.status.restoredFrom == st.restoredFrom
  {
    hide BuildName, ImageRef, PushRef, Endpoint, Ask, PhaseOf;
    if spec.source.Some? && BuildBlocked(c.world, RepoOf(id, spec.source.value), o).None? {
      var repo := c.world.repositories[RepoOf(id, spec.source.value)];
      var ref := GitRef(repo, spec.source.value);
      AskOnly(c, id, BuildName(eff.namespace, eff.app, ref), BuildRequest(c.world, repo, spec.source.value, eff, ref), o.buildNews);
    }
  }

  // ---- a finished application stays as it is ----

  lemma SettledGated(c: Cluster, id: Id, spec: AppSpec, eff: Effective, st: AppStatus, o: Oracle)
    requires Answering(o) && Usable(c, id, spec, eff, st)
    requires StatusDeployed(c.world, id, spec, eff, st) && ObjectsSettled(c, id, spec, eff)
    requires BuildDone(c, id, spec, eff) && SsoDone(c, spec, eff)
    ensures var s := Gated(c, id, spec, eff, st, o);
            s.cluster.(history := c.history) == c && s.status == st && s.gate.Open?
  {
    hide BuildName, RestoreName, Names.ArgoAppName, RestoreGate, DeployStage, BuildGate, BuildBlocked, ConnectionOf,
         JobSecretsPresent, ImageRef, ResolveOidc, RefOf, DesiredValues, DeliveredSecrets;
    var built := if spec.source.Some? then BuildGate(c, id, spec.source.value, eff, st, o) else Staged(c, st, Open("", None));
    if spec.source.Some? { BuildMoves(c, id, spec, eff, st, o); }
    assert built.cluster.(history := c.history) == c && built.status == st;
    if spec.restoreFrom.Some? { RestoreMoves(built.cluster, id, spec, eff, built.gate.image, st, o); }
    DeployLands(built.cluster, id, spec, eff, built.gate.build, st, o);
    DeployAgain(built.cluster, id, spec, eff, built.gate.build, st, o);
  }

  lemma SettledEntered(c: Cluster, id: Id, spec: AppSpec, eff: Effective)
    requires Settled(c, id, spec, eff)
    ensures Entered(c, eff) == c && EnteredStatus(c, id, eff) == c.apps[id].status
  {
    hide DesiredValues, DeliveredSecrets, BuildName, RestoreName, Names.ArgoAppName, Names.SanitizeTag, ResolveOidc;
    assert c.namespaces + {eff.namespace} == c.namespaces;
  }

  lemma FinishSame(c: Cluster, id: Id, s: Staged)
    requires id in c.apps && s.cluster.(history := c.history) == c && s.gate.Open? && s.status == c.apps[id].status
    requires s.status.ready == IsReady && s.status.observedGeneration == c.apps[id].generation
    ensures Finish(s, id).(history := c.history) == c
  {
    var app := c.apps[id];
    assert app.(status := app.status.(ready := IsReady, observedGeneration := app.generation)) == app;
    assert c.apps[id := app] == c.apps;
  }

  /** Once the application is Ready, a further pass only adds to the history. */
  lemma SettledIsStable(c: Cluster, id: Id, spec: AppSpec, eff: Effective, o: Oracle)
    requires Answering(o) && Present(c, id, spec, eff) && Settled(c, id, spec, eff)
    ensures ApplicationPass(c, id, o).(history := c.history) == c
  {
    hide Resolve, Gated, Achieves, ApplicationPass, ObjectsSettled, StatusDeployed, BuildDone, Usable, Entered,
         EnteredStatus, Finish, ResolveOidc;
    SettledEntered(c, id, spec, eff);
    PassIsGated(c, id, spec, eff, o);
    SettledGated(c, id, spec, eff, c.apps[id].status, o);
    FinishSame(c, id, Gated(c, id, spec, eff, c.apps[id].status, o));
  }

  // ---- what may happen between two passes ----

  /** The application's passes read the same from both surroundings, and no Secret or client id they wait for has gone. */
  predicate ReadsSame(w: World, w': World, id: Id, spec: AppSpec, eff: Effective) {
    && Resolve(w', id, spec) == Resolve(w, id, spec)
    && (spec.source.Some? ==>
          && BuildBlocked(w', RepoOf(id, spec.source.value), ALL_WELL) == BuildBlocked(w, RepoOf(id, spec.source.value), ALL_WELL)
          && RefOf(w', id, spec.source.value) == RefOf(w, id, spec.source.value)
          && ImageOf(w', id, spec.source.value, eff) == ImageOf(w, id, spec.source.value, eff))
    && (spec.restoreFrom.Some? ==>
          var conn := ConnectionOf(w, id.namespace, spec.databases, eff.namespace);
          && ConnectionOf(w', id.namespace, spec.databases, eff.namespace) == conn
          && (conn.Some? && JobSecretsPresent(w, conn.value) ==> JobSecretsPresent(w', conn.value)))
    && (ResolveOidc(w, spec, eff.namespace).1 ==> ResolveOidc(w', spec, eff.namespace) == ResolveOidc(w, spec, eff.namespace))
    && Secrets.KeptPaths(w'.openbao, eff.secretPaths) == Secrets.KeptPaths(w.openbao, eff.secretPaths)
  }

  lemma ReadsItself(w: World, id: Id, spec: AppSpec, eff: Effective)
    ensures ReadsSame(w, w, id, spec, eff)
  {
    hide Resolve, BuildBlocked, ConnectionOf, ResolveOidc, Secrets.KeptPaths, ImageOf, RefOf;
  }

  /** The application and everything it has reached are as they were, or further. */
  ghost predicate Undisturbed(c: Cluster, c': Cluster, id: Id, spec: AppSpec, eff: Effective) {
    && id in c.apps && id in c'.apps && c'.apps[id] == c.apps[id]
    && ReadsSame(c.world, c'.world, id, spec, eff)
    && (eff.namespace in c.namespaces ==> eff.namespace in c'.namespaces)
    && ArgoKept(c, c', eff)
    && SecretsKept(c, c', eff)
    && (spec.source.Some? ==> KeepsWorkflow(c, c', BuildOf(c.world, id, spec.source.value, eff)))
    && (!Recorded(spec, c.apps[id].status) ==>
          && KeepsWorkflow(c, c', RestoreOf(spec.restoreFrom.value, eff))
          && KeepsDump(c, c', Id(id.namespace, spec.restoreFrom.value.snapshot)))
  }

  /** The Argo CD Application is kept; others may add finalizers. */
  predicate ArgoKept(c: Cluster, c': Cluster, eff: Effective) {
    Argo(eff) in c.argo ==>
      && Argo(eff) in c'.argo && c.argo[Argo(eff)].finalizers <= c'.argo[Argo(eff)].finalizers
      && c'.argo[Argo(eff)].(finalizers := c.argo[Argo(eff)].finalizers) == c.argo[Argo(eff)]
  }

  /** The ExternalSecret stays as the delivery step leaves it. */
  predicate SecretsKept(c: Cluster, c': Cluster, eff: Effective) {
    DeliveredSecrets(c.world, eff, true, c.externalSecrets) == c.externalSecrets ==>
      DeliveredSecrets(c.world, eff, true, c'.externalSecrets) == c'.externalSecrets
  }

  predicate KeepsWorkflow(c: Cluster, c': Cluster, name: string) {
    name in c.workflows ==> name in c'.workflows && (c.workflows[name].phase == Succeeded ==> PhaseOf(c', name) == Succeeded)
  }

  predicate KeepsDump(c: Cluster, c': Cluster, snapshot: Id) {
    DumpReady(c, snapshot) ==> DumpReady(c', snapshot)
  }

  lemma SameDelivered(w: World, w': World, eff: Effective, present: map<(string, string), seq<string>>)
    requires Secrets.KeptPaths(w'.openbao, eff.secretPaths) == Secrets.KeptPaths(w.openbao, eff.secretPaths)
    ensures DeliveredSecrets(w', eff, true, present) == DeliveredSecrets(w, eff, true, present)
    ensures DeliveredSecret(w', eff, true) == DeliveredSecret(w, eff, true)
  {
  }

  lemma StillPresent(c: Cluster, c': Cluster, id: Id, spec: AppSpec, eff: Effective)
    requires Present(c, id, spec, eff) && Undisturbed(c, c', id, spec, eff)
    ensures Present(c', id, spec, eff)
  {
    hide Resolve, BuildBlocked, BuildName, RestoreName, Names.ArgoAppName, Names.SanitizeTag, DeliveredSecrets, ArgoKept,
      SecretsKept, ConnectionOf, JobSecretsPresent, ResolveOidc, RefOf, ImageOf, Secrets.KeptPaths;
  }

  lemma StillSettled(c: Cluster, c': Cluster, id: Id, spec: AppSpec, eff: Effective)
    requires Settled(c, id, spec, eff) && Undisturbed(c, c', id, spec, eff)
    ensures Settled(c', id, spec, eff)
  {
    hide Resolve, ResolveOidc, BuildName, RestoreName, Names.ArgoAppName, ImageOf, RefOf, DeliveredSecrets, DeliveredSecret,
      ConnectionOf, JobSecretsPresent, BuildBlocked, Secrets.KeptPaths;
    SameDelivered(c.world, c'.world, eff, c'.externalSecrets);
  }

  /** Such interference keeps the references present and every stage passed. */
  lemma UndisturbedKeeps(c: Cluster, c': Cluster, id: Id, spec: AppSpec, eff: Effective)
    requires Present(c, id, spec, eff) && Undisturbed(c, c', id, spec, eff)
    ensures Present(c', id, spec, eff)
    ensures Remaining(c', id, spec, eff) <= Remaining(c, id, spec, eff)
  {
    hide Present, Settled, BuildName, RestoreName, Names.ArgoAppName, Names.SanitizeTag, DeliveredSecrets, Resolve,
      ConnectionOf, JobSecretsPresent, BuildBlocked, ImageOf, RefOf, ResolveOidc;
    StillPresent(c, c', id, spec, eff);
    if Settled(c, id, spec, eff) { StillSettled(c, c', id, spec, eff); }
  }

  lemma ZeroIffSettled(c: Cluster, id: Id, spec: AppSpec, eff: Effective)
    requires Present(c, id, spec, eff)
    ensures Remaining(c, id, spec, eff) == 0 <==> Settled(c, id, spec, eff)
  {
    hide Present, BuildName, RestoreName, Names.ArgoAppName, Names.SanitizeTag, DeliveredSecrets, DesiredValues, ResolveOidc;
  }
}
