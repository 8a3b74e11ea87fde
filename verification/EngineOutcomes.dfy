/** What the outcome of a pass says: every reason and phase that a pass reports has its cause, from any cluster and whatever
    its calls meet; what an application resolves to, layer by layer; and what a deletion leaves. */
module EngineOutcomes {
  import opened Text
  import opened Wrappers
  import opened EngineModel
  import opened EngineSafety
  import EngineStored
  import Names
  import Secrets = ScopedSecrets

  // ---- an application's pass ----

  predicate Broken(phase: Phase) {
    phase == Failed || phase == Error
  }

  predicate Unfinished(phase: Phase) {
    phase != Succeeded && !Broken(phase)
  }

  /** Where a build stands, as its gate reports it. */
  predicate BuildTold(w: World, id: Id, source: Source, o: Oracle, c: Cluster, st: AppStatus, gate: Gate) {
    var at := Id(id.namespace, source.repository);
    match gate
    case Open(_, _) => PhaseOf(c, st.buildWorkflow) == Succeeded
    case Held(Reconciling) => st.phase == Building && Unfinished(PhaseOf(c, st.buildWorkflow))
    case Held(BackendError) =>
      !o.buildSecrets || !o.buildSubmit || (st.phase == BuildFailed && Broken(PhaseOf(c, st.buildWorkflow)))
    case Held(InvalidSpec) => source.repository == "" || w.config.harborHost == ""
    case Held(DependencyNotMet) => at !in w.repositories || w.repositories[at].url == "" || w.config.harborPassword == ""
  }

  /** The first database is there, and its server has published a host. */
  predicate Connected(w: World, id: Id, spec: AppSpec) {
    && spec.databases != [] && spec.databases[0].server != ""
    && var server := Id(id.namespace, spec.databases[0].server);
    server in w.serverHosts && w.serverHosts[server] != ""
  }

  /** Where a restore stands, as its gate reports it. */
  predicate RestoreTold(w: World, id: Id, spec: AppSpec, restore: Restore, o: Oracle, c: Cluster, st: AppStatus, gate: Gate) {
    match gate
    case Open(_, _) => st.restoredFrom == restore.snapshot != ""
    case Held(Reconciling) =>
      st.phase == Restoring && st.restoredFrom != restore.snapshot && Unfinished(PhaseOf(c, st.restoreWorkflow))
    case Held(BackendError) =>
      || !o.jobSecrets || !o.jobSubmit || (st.phase == RestoreFailed && Broken(PhaseOf(c, st.restoreWorkflow)))
      || !w.config.s3Ready || (spec.databases != []
          && Id(if st.namespace != "" then st.namespace else id.namespace, spec.databases[0].secret) !in w.credentialSecrets)
    case Held(InvalidSpec) => restore.snapshot == ""
    case Held(DependencyNotMet) =>
      var snapshot := Id(id.namespace, restore.snapshot);
      || !Connected(w, id, spec)
      || snapshot !in c.snapshots || c.snapshots[snapshot].status.phase != Completed || c.snapshots[snapshot].status.location == ""
  }

  predicate WaitsForSso(w: World, spec: AppSpec, namespace: string) {
    && spec.sso != [] && spec.sso[0].protocol in {"", "oauth2"} && spec.sso[0].secret != "" && w.config.authentikUrl != ""
    && var sso := Id(namespace, spec.sso[0].name);
    sso !in w.ssoClientIds || w.ssoClientIds[sso] == ""
  }

  predicate GatesPassed(c: Cluster, spec: AppSpec, st: AppStatus) {
    && (spec.source.Some? ==> PhaseOf(c, st.buildWorkflow) == Succeeded)
    && (spec.restoreFrom.Some? ==> st.restoredFrom == spec.restoreFrom.value.snapshot != "")
  }

  /** The cause of the outcome that a pass over the application reports. */
  predicate Told(w: World, id: Id, spec: AppSpec, o: Oracle, c: Cluster, st: AppStatus, held: Option<Reason>) {
    if held.None? then GatesPassed(c, spec, st) && st.phase == Deployed && !WaitsForSso(w, spec, st.namespace)
    else
      || (spec.source.Some? && BuildTold(w, id, spec.source.value, o, c, st, Held(held.value)))
      || (spec.restoreFrom.Some? && (spec.source.Some? ==> PhaseOf(c, st.buildWorkflow) == Succeeded)
          && RestoreTold(w, id, spec, spec.restoreFrom.value, o, c, st, Held(held.value)))
      || (held.value == BackendError && (!o.namespaces || !o.argo))
      || (held.value == Reconciling && GatesPassed(c, spec, st) && st.phase == Deployed && WaitsForSso(w, spec, st.namespace))
      || Resolve(w, id, spec) == Unresolved(held.value)
      || (held.value == InvalidSpec && Resolve(w, id, spec).Resolved? && Resolve(w, id, spec).effective.host == "")
  }

  function Outcome(gate: Gate): Option<Reason> {
    if gate.Held? then Some(gate.reason) else None
  }

  lemma SubmitKeepsObjects(c: Cluster, owner: Id, name: string, p: Parameters, other: string)
    ensures var c' := Submit(c, owner, name, p);
            && c' == c.(workflows := c'.workflows, history := c'.history) && name in c'.workflows
            && (other != name ==> PhaseOf(c', other) == PhaseOf(c, other))
  {
  }

  lemma HearKeepsObjects(c: Cluster, name: string, news: Option<Phase>, other: string)
    ensures var c' := Hear(c, name, news);
            && c' == c.(workflows := c'.workflows, history := c'.history) && (name in c.workflows ==> name in c'.workflows)
            && (other != name ==> PhaseOf(c', other) == PhaseOf(c, other))
  {
  }

  lemma AskKeepsObjects(c: Cluster, owner: Id, name: string, p: Parameters, news: Option<Phase>, other: string)
    ensures var c' := Ask(c, owner, name, p, news);
            && c' == c.(workflows := c'.workflows, history := c'.history) && name in c'.workflows
            && (other != name ==> PhaseOf(c', other) == PhaseOf(c, other))
  {
    hide Submit, Hear;
    SubmitKeepsObjects(c, owner, name, p, other);
    HearKeepsObjects(Submit(c, owner, name, p), name, news, other);
  }

  lemma AfterBuildTells(w: World, id: Id, source: Source, c: Cluster, wf: string, image: string, request: Parameters, st: AppStatus,
                        o: Oracle)
    requires st.buildWorkflow == wf
    ensures var s := AfterBuild(c, wf, image, request, st);
            && BuildTold(w, id, source, o, s.cluster, s.status, s.gate)
            && s.cluster == c && s.status.namespace == st.namespace && s.status.buildWorkflow == wf
  {
  }

  lemma BuildBlockedTells(w: World, id: Id, source: Source, c: Cluster, st: AppStatus, o: Oracle)
    ensures var blocked := BuildBlocked(w, Id(id.namespace, source.repository), o);
            blocked.Some? ==> BuildTold(w, id, source, o, c, st, Held(blocked.value))
  {
  }

  lemma BuildGateOutcome(c: Cluster, id: Id, source: Source, eff: Effective, st: AppStatus, o: Oracle)
    ensures var s := BuildGate(c, id, source, eff, st, o);
            && BuildTold(c.world, id, source, o, s.cluster, s.status, s.gate)
            && s.cluster.world == c.world && s.cluster.snapshots == c.snapshots && s.status.namespace == st.namespace
            && (s.gate.Open? ==> s.status.buildWorkflow != "" && s.status.buildWorkflow[0] == 'b')
  {
    hide BuildName, BuildRequest, ImageRef, Ask, BuildTold, AfterBuild;
    var repoId := Id(id.namespace, source.repository);
    BuildBlockedTells(c.world, id, source, c, st, o);
    if BuildBlocked(c.world, repoId, o) == None {
      var repo := c.world.repositories[repoId];
      var ref := GitRef(repo, source);
      var wf, request := BuildName(eff.namespace, eff.app, ref), BuildRequest(c.world, repo, source, eff, ref);
      BuildNameKind(eff.namespace, eff.app, ref);
      AskKeepsObjects(c, id, wf, request, o.buildNews, wf);
      AfterBuildTells(c.world, id, source, Ask(c, id, wf, request, o.buildNews), wf,
                      ImageRef(c.world.config, eff.clientSlug, eff.app, ref), request, st.(buildWorkflow := wf), o);
    }
  }

  lemma RestoreGateOutcome(c: Cluster, id: Id, spec: AppSpec, restore: Restore, eff: Effective, image: string, st: AppStatus,
                           o: Oracle)
    requires st.namespace == eff.namespace
    ensures var s := RestoreGate(c, id, spec, restore, eff, image, st, o);
            && RestoreTold(c.world, id, spec, restore, o, s.cluster, s.status, s.gate)
            && s.cluster.world == c.world && s.status.namespace == st.namespace
            && s.status.buildWorkflow == st.buildWorkflow
            && (st.buildWorkflow != "" && st.buildWorkflow[0] == 'b' ==>
                  PhaseOf(s.cluster, st.buildWorkflow) == PhaseOf(c, st.buildWorkflow))
  {
    hide RestoreWith;
    var conn := ConnectionOf(c.world, id.namespace, spec.databases, eff.namespace);
    if conn.Some? && restore.snapshot != "" && st.restoredFrom != restore.snapshot {
      RestoreWithOutcome(c, id, spec, conn.value, restore, eff, image, st, o);
      hide RestoreTold;
      if DumpReady(c, Id(id.namespace, restore.snapshot)) && JobSecretsPresent(c.world, conn.value) && o.jobSecrets && o.jobSubmit {
      } else {
        RestoreNotTried(c, id, spec, restore, eff, conn.value, image, st, o);
      }
    }
  }

  lemma RestoreNotTried(c: Cluster, id: Id, spec: AppSpec, restore: Restore, eff: Effective, conn: Connection, image: string,
                        st: AppStatus, o: Oracle)
    requires st.namespace == eff.namespace
    requires ConnectionOf(c.world, id.namespace, spec.databases, eff.namespace) == Some(conn)
    requires restore.snapshot != "" && st.restoredFrom != restore.snapshot
    requires !(DumpReady(c, Id(id.namespace, restore.snapshot)) && JobSecretsPresent(c.world, conn) && o.jobSecrets && o.jobSubmit)
    ensures var s := RestoreGate(c, id, spec, restore, eff, image, st, o);
            && s.cluster == c && s.status == st && s.gate.Held?
            && RestoreTold(c.world, id, spec, restore, o, c, st, s.gate)
  {
    hide RestoreWith;
  }

  lemma RestoreWithOutcome(c: Cluster, id: Id, spec: AppSpec, conn: Connection, restore: Restore, eff: Effective, image: string,
                           st: AppStatus, o: Oracle)
    requires restore.snapshot != "" && st.restoredFrom != restore.snapshot
    ensures var s := RestoreWith(c, id, conn, restore, eff, image, st, o);
            && RestoreTold(c.world, id, spec, restore, o, s.cluster, s.status, s.gate)
            && s.cluster.world == c.world && s.status.namespace == st.namespace
            && s.status.buildWorkflow == st.buildWorkflow
            && (st.buildWorkflow != "" && st.buildWorkflow[0] == 'b' ==>
                  PhaseOf(s.cluster, st.buildWorkflow) == PhaseOf(c, st.buildWorkflow))
  {
    hide RestoreName, DumpKey, Ask;
    var sanitize := if restore.sanitize.Some? then restore.sanitize.value else eff.class_ != "production";
    var p := RestoreParameters(conn, DumpKey(Id(id.namespace, restore.snapshot)), FirstOf(image, eff.platformImage), sanitize);
    var wf := RestoreName(eff.namespace, eff.app, restore.snapshot);
    RestoreNameKind(eff.namespace, eff.app, restore.snapshot);
    AskKeepsObjects(c, id, wf, p, o.jobNews, wf);
    AskKeepsObjects(c, id, wf, p, o.jobNews, st.buildWorkflow);
  }

  lemma DeployOutcome(c: Cluster, id: Id, spec: AppSpec, eff: Effective, image: string, build: Option<Parameters>, st: AppStatus,
                      o: Oracle)
    ensures var s := DeployStage(c, id, spec, eff, image, build, st, o);
            && s.cluster.workflows == c.workflows && s.status.namespace == st.namespace
            && s.status.buildWorkflow == st.buildWorkflow && s.status.restoredFrom == st.restoredFrom
            && (s.gate.Open? ==> s.status.phase == Deployed && !WaitsForSso(c.world, spec, eff.namespace))
            && (s.gate.Held? ==>
                  || (s.gate.reason == BackendError && !o.argo)
                  || (s.gate.reason == Reconciling && s.status.phase == Deployed && WaitsForSso(c.world, spec, eff.namespace)))
  {
    hide DeliveredSecret, DeliveredSecrets, Names.ArgoAppName;
  }

  lemma ToldAlike(w: World, id: Id, spec: AppSpec, o: Oracle, c: Cluster, c': Cluster, st: AppStatus, st': AppStatus,
                  held: Option<Reason>)
    requires Told(w, id, spec, o, c, st, held) && c'.workflows == c.workflows && c'.snapshots == c.snapshots
    requires st' == st.(ready := st'.ready, observedGeneration := st'.observedGeneration)
    ensures Told(w, id, spec, o, c', st', held)
  {
    hide Resolve;
  }

  lemma GatedOutcome(c: Cluster, id: Id, spec: AppSpec, eff: Effective, st: AppStatus, o: Oracle)
    requires st.namespace == eff.namespace
    ensures var s := Gated(c, id, spec, eff, st, o);
            Told(c.world, id, spec, o, s.cluster, s.status, Outcome(s.gate)) && s.status.namespace == eff.namespace
  {
    hide Resolve, BuildGate, RestoreGate, DeployStage, BuildTold, RestoreTold, WaitsForSso, Told;
    var built := if spec.source.Some? then BuildGate(c, id, spec.source.value, eff, st, o) else Staged(c, st, Open("", None));
    if spec.source.Some? { BuildGateOutcome(c, id, spec.source.value, eff, st, o); }
    if built.gate.Held? {
      BuildHolds(c, id, spec, built, o);
    } else {
      BuildIsDone(c, id, spec, built, o);
      AfterBuildOutcome(c, id, spec, eff, built, o);
    }
  }

  lemma BuildHolds(c: Cluster, id: Id, spec: AppSpec, built: Staged, o: Oracle)
    requires spec.source.Some? && built.gate.Held?
    requires BuildTold(c.world, id, spec.source.value, o, built.cluster, built.status, built.gate)
    ensures Told(c.world, id, spec, o, built.cluster, built.status, Some(built.gate.reason))
  {
    hide Resolve, BuildTold, RestoreTold;
  }

  lemma BuildIsDone(c: Cluster, id: Id, spec: AppSpec, built: Staged, o: Oracle)
    requires built.gate.Open?
    requires spec.source.Some? ==> BuildTold(c.world, id, spec.source.value, o, built.cluster, built.status, built.gate)
    ensures spec.source.Some? ==> PhaseOf(built.cluster, built.status.buildWorkflow) == Succeeded
  {
  }

  /** The rest of a pass whose build gate let it through. */
  lemma AfterBuildOutcome(c: Cluster, id: Id, spec: AppSpec, eff: Effective, built: Staged, o: Oracle)
    requires built.gate.Open? && built.cluster.world == c.world && built.status.namespace == eff.namespace
    requires spec.source.Some? ==>
               && PhaseOf(built.cluster, built.status.buildWorkflow) == Succeeded
               && built.status.buildWorkflow != "" && built.status.buildWorkflow[0] == 'b'
    ensures var restored := if spec.restoreFrom.Some?
                            then RestoreGate(built.cluster, id, spec, spec.restoreFrom.value, eff, built.gate.image, built.status, o)
                            else built;
            var s := if restored.gate.Held? then restored
                     else DeployStage(restored.cluster, id, spec, eff, built.gate.image, built.gate.build, restored.status, o);
            Told(c.world, id, spec, o, s.cluster, s.status, Outcome(s.gate)) && s.status.namespace == eff.namespace
  {
    hide Resolve, RestoreGate, DeployStage, BuildTold, RestoreTold, WaitsForSso;
    var image := built.gate.image;
    var restored := built;
    if spec.restoreFrom.Some? {
      restored := RestoreGate(built.cluster, id, spec, spec.restoreFrom.value, eff, image, built.status, o);
      RestoreGateOutcome(built.cluster, id, spec, spec.restoreFrom.value, eff, image, built.status, o);
      if restored.gate.Open? { RestoreIsDone(c.world, id, spec, restored, o); }
    }
    if restored.gate.Open? {
      DeployOutcome(restored.cluster, id, spec, eff, image, built.gate.build, restored.status, o);
    }
  }

  lemma RestoreIsDone(w: World, id: Id, spec: AppSpec, restored: Staged, o: Oracle)
    requires spec.restoreFrom.Some? && restored.gate.Open?
    requires RestoreTold(w, id, spec, spec.restoreFrom.value, o, restored.cluster, restored.status, restored.gate)
    ensures restored.status.restoredFrom == spec.restoreFrom.value.snapshot != ""
  {
  }

  function HeldFor(ready: Ready): Option<Reason> {
    if ready.NotReady? then Some(ready.reason) else None
  }

  lemma StillThere(c: Cluster, id: Id, o: Oracle)
    requires id in c.apps
    ensures id in ApplicationPass(c, id, o).apps && id in PassStages(c, id, c.apps[id], o).cluster.apps
  {
    EngineStored.PassStores(c, id, o);
    hide PassStages, EngineStored.Stored, EngineStored.AskedFor;
  }

  /** The Ready condition that a pass writes has its cause, and a Ready application has passed its gates. */
  lemma OutcomeTells(c: Cluster, id: Id, o: Oracle)
    requires id in c.apps
    ensures var c' := ApplicationPass(c, id, o);
            && id in c'.apps && !c'.apps[id].status.ready.Unset?
            && Told(c.world, id, c.apps[id].spec, o, c', c'.apps[id].status, HeldFor(c'.apps[id].status.ready))
  {
    hide Resolve, Gated, Told;
    var app := c.apps[id];
    var resolved := Resolve(c.world, id, app.spec);
    var s := PassStages(c, id, app, o);
    if resolved.Resolved? && resolved.effective.host != "" && o.namespaces {
      var eff := resolved.effective;
      GatedOutcome(c.(namespaces := c.namespaces + {eff.namespace}), id, app.spec, eff, app.status.(namespace := eff.namespace), o);
    } else {
      EarlyOutcome(c, id, app, o);
    }
    StillThere(c, id, o);
    var c' := Finish(s, id);
    ToldAlike(c.world, id, app.spec, o, s.cluster, c', s.status, c'.apps[id].status, Outcome(s.gate));
  }

  lemma EarlyOutcome(c: Cluster, id: Id, app: App, o: Oracle)
    requires var resolved := Resolve(c.world, id, app.spec);
             resolved.Unresolved? || resolved.effective.host == "" || !o.namespaces
    ensures var s := PassStages(c, id, app, o); Told(c.world, id, app.spec, o, s.cluster, s.status, Outcome(s.gate))
  {
    hide Resolve, Gated, BuildTold, RestoreTold;
  }

  // ---- a snapshot's pass ----

  /** The connection that a snapshot of the application dumps from. */
  predicate DumpsFrom(w: World, id: Id, app: App, conn: Connection) {
    && Connected(w, id, app.spec)
    && conn.host == w.serverHosts[Id(id.namespace, app.spec.databases[0].server)]
    && conn.database == app.spec.databases[0].name
    && conn.secret == Id(if app.status.namespace != "" then app.status.namespace else id.namespace, app.spec.databases[0].secret)
  }

  /** The cause of the outcome that a pass over a snapshot reports, and what it has asked for. */
  predicate SnapshotTold(c: Cluster, c': Cluster, id: Id, o: Oracle)
    requires id in c.snapshots && id in c'.snapshots
  {
    var st, application := c'.snapshots[id].status, Id(id.namespace, c.snapshots[id].application);
    match st.ready
    case Unset => false
    case IsReady => st.phase == Completed && st.workflow == DumpName(id) && PhaseOf(c', st.workflow) == Succeeded && Located(c, id, st)
    case NotReady(Reconciling) => st.phase == Dumping && Unfinished(PhaseOf(c', st.workflow)) && Located(c, id, st)
    case NotReady(BackendError) =>
      || (st.phase == DumpFailed && Broken(PhaseOf(c', st.workflow)) && Located(c, id, st))
      || (st == c.snapshots[id].status.(ready := st.ready)
          && (!o.jobSecrets || !o.jobSubmit || !c.world.config.s3Ready
              || (application in c.apps && c.apps[application].spec.databases != []
                  && Id(FirstOf(c.apps[application].status.namespace, id.namespace), c.apps[application].spec.databases[0].secret)
                     !in c.world.credentialSecrets)))
    case NotReady(InvalidSpec) => c.snapshots[id].application == ""
    case NotReady(DependencyNotMet) => application !in c.apps || !Connected(c.world, id, c.apps[application].spec)
  }

  predicate Located(c: Cluster, id: Id, st: SnapshotStatus) {
    st.location == "s3://" + c.world.config.s3Bucket + "/" + DumpKey(id)
  }

  /** A pass over a snapshot submits a dump of its application's database, or nothing. */
  predicate DumpAsked(c: Cluster, id: Id, e: Event)
    requires id in c.snapshots && e.Submitted?
  {
    var application := Id(id.namespace, c.snapshots[id].application);
    && e.owner == id && e.workflow == DumpName(id) && e.parameters.DumpParameters? && e.parameters.key == DumpKey(id)
    && application in c.apps && DumpsFrom(c.world, id, c.apps[application], e.parameters.source)
    && e.parameters.source.secret in c.world.credentialSecrets && c.world.config.s3Ready
  }

  ghost predicate OnlyDumps(c: Cluster, id: Id, h: seq<Event>, h': seq<Event>)
    requires id in c.snapshots
  {
    && h <= h'
    && forall i :: |h| <= i < |h'| ==> !h'[i].Applied? && (h'[i].Submitted? ==> DumpAsked(c, id, h'[i]))
  }

  lemma AskOnlyDumps(c: Cluster, id: Id, p: Parameters, news: Option<Phase>)
    requires id in c.snapshots && DumpAsked(c, id, Submitted(id, DumpName(id), p))
    ensures OnlyDumps(c, id, c.history, Ask(c, id, DumpName(id), p, news).history)
  {
    hide DumpAsked;
  }

  lemma SnapshotTells(c: Cluster, id: Id, o: Oracle)
    requires id in c.snapshots
    ensures var c' := SnapshotPass(c, id, o);
            && c'.snapshots.Keys == c.snapshots.Keys && c'.apps == c.apps && c'.argo == c.argo && c'.world == c.world
            && c'.snapshots[id].application == c.snapshots[id].application
            && SnapshotTold(c, c', id, o) && OnlyDumps(c, id, c.history, c'.history)
  {
    hide DumpWith, DumpName, DumpKey, SnapshotTold, OnlyDumps, DumpsFrom, ConnectionOf, JobSecretsPresent, DumpAsked;
    var appId := Id(id.namespace, c.snapshots[id].application);
    var conn := if appId !in c.apps then None
                else ConnectionOf(c.world, id.namespace, c.apps[appId].spec.databases, c.apps[appId].status.namespace);
    if c.snapshots[id].application != "" && conn.Some? && JobSecretsPresent(c.world, conn.value) && o.jobSecrets && o.jobSubmit {
      DumpIsAsked(c, id, c.apps[appId], conn.value);
      DumpTells(c, id, conn.value, o);
    } else {
      NotDumped(c, id, o);
    }
  }

  lemma DumpIsAsked(c: Cluster, id: Id, app: App, conn: Connection)
    requires id in c.snapshots && Id(id.namespace, c.snapshots[id].application) in c.apps
    requires app == c.apps[Id(id.namespace, c.snapshots[id].application)]
    requires ConnectionOf(c.world, id.namespace, app.spec.databases, app.status.namespace) == Some(conn)
    requires JobSecretsPresent(c.world, conn)
    ensures DumpAsked(c, id, Submitted(id, DumpName(id), DumpParameters(conn, DumpKey(id))))
  {
    hide DumpName, DumpKey;
  }

  lemma HeldSnapshot(c: Cluster, id: Id, reason: Reason)
    requires id in c.snapshots
    ensures var c', st := FinishSnapshot(c, id, c.snapshots[id].status, NotReady(reason)), c.snapshots[id].status;
            && c' == c.(snapshots := c'.snapshots) && c'.snapshots.Keys == c.snapshots.Keys
            && c'.snapshots[id] == c.snapshots[id].(status := st.(ready := NotReady(reason)))
            && OnlyDumps(c, id, c.history, c'.history)
  {
    hide DumpAsked;
  }

  lemma NotDumped(c: Cluster, id: Id, o: Oracle)
    requires id in c.snapshots
    requires var appId := Id(id.namespace, c.snapshots[id].application);
             var conn := if appId !in c.apps then None
                         else ConnectionOf(c.world, id.namespace, c.apps[appId].spec.databases, c.apps[appId].status.namespace);
             !(c.snapshots[id].application != "" && conn.Some? && JobSecretsPresent(c.world, conn.value) && o.jobSecrets && o.jobSubmit)
    ensures var c' := SnapshotPass(c, id, o);
            && c'.snapshots.Keys == c.snapshots.Keys && c'.apps == c.apps && c'.argo == c.argo && c'.world == c.world
            && c'.snapshots[id].application == c.snapshots[id].application
            && SnapshotTold(c, c', id, o) && OnlyDumps(c, id, c.history, c'.history)
  {
    hide DumpWith, DumpName, DumpKey, FinishSnapshot, OnlyDumps;
    HeldSnapshot(c, id, InvalidSpec);
    HeldSnapshot(c, id, DependencyNotMet);
    HeldSnapshot(c, id, BackendError);
  }

  lemma DumpTells(c: Cluster, id: Id, conn: Connection, o: Oracle)
    requires id in c.snapshots
    requires DumpAsked(c, id, Submitted(id, DumpName(id), DumpParameters(conn, DumpKey(id))))
    ensures var c' := DumpWith(c, id, conn, c.snapshots[id].status, o);
            && c'.snapshots.Keys == c.snapshots.Keys && c'.apps == c.apps && c'.argo == c.argo && c'.world == c.world
            && c'.snapshots[id].application == c.snapshots[id].application
            && SnapshotTold(c, c', id, o) && OnlyDumps(c, id, c.history, c'.history)
  {
    hide DumpName, DumpKey, Ask, OnlyDumps, DumpAsked;
    var p := DumpParameters(conn, DumpKey(id));
    AskOnlyDumps(c, id, p, o.jobNews);
    AskKeepsObjects(c, id, DumpName(id), p, o.jobNews, DumpName(id));
  }

  // ---- what an application resolves to ----

  /** The organization of a client: the one it names, or the only one. */
  predicate IsOrganization(w: World, client: ClientSpec, org: Organization) {
    if client.organizationRef != "" then org in w.organizations && org.name == client.organizationRef
    else if |w.organizations| == 1 then org == w.organizations[0]
    else org == Organization("", "", "", "")
  }

  lemma {:induction false} FoundIsNamed(orgs: seq<Organization>, name: string)
    ensures var found := FindOrganization(orgs, name);
            && (found.Some? ==> found.value in orgs && found.value.name == name)
            && (found.None? ==> forall o :: o in orgs ==> o.name != name)
  {
    if orgs != [] { FoundIsNamed(orgs[1..], name); }
  }

  /** The first of three that is given. */
  predicate Nearest(chosen: string, a: string, b: string, c: string) {
    && (a != "" ==> chosen == a) && (a == "" && b != "" ==> chosen == b) && (a == "" && b == "" ==> chosen == c)
  }

  /** The host of the spec comes first. Without one, it is a label below the base domain: that of the application's Domain, of
      its organization, or of the platform, whichever is given first. */
  predicate HostFits(spec: AppSpec, host: string, name: string, base: string) {
    && (Strip(spec.host, WHITESPACE) != "" ==> host == Strip(spec.host, WHITESPACE))
    && (Strip(spec.host, WHITESPACE) == "" ==>
          host == if Strip(base, WHITESPACE) != "" then name + "." + Strip(base, WHITESPACE) else "")
  }

  predicate BaseFits(w: World, id: Id, spec: AppSpec, org: Organization, base: string) {
    if spec.domain == "" then Nearest(base, "", org.baseDomain, w.config.baseDomain)
    else Id(id.namespace, spec.domain) in w.domains
         && Nearest(base, w.domains[Id(id.namespace, spec.domain)], org.baseDomain, w.config.baseDomain)
  }

  /** Each layer decides what the nearer ones leave open. */
  ghost predicate Layered(w: World, id: Id, spec: AppSpec, eff: Effective, environment: EnvironmentSpec, client: ClientSpec,
                          org: Organization) {
    && eff.environment == spec.environment && eff.app == id.name
    && spec.appType in w.charts && eff.chart == w.charts[spec.appType]
    && eff.clientSlug == Strip(if client.slug != "" then client.slug else environment.clientRef, WHITESPACE)
    && eff.namespace == Names.NamespaceName(eff.clientSlug, spec.environment)
    && eff.class_ == (if environment.class_ != "" then environment.class_ else "development")
    && (exists base :: BaseFits(w, id, spec, org, base)
                       && HostFits(spec, eff.host, Names.HostLabel(id.name, spec.environment, eff.clientSlug), base))
    && (exists repository, tag ::
          && Nearest(repository, org.odooRepository, "", w.config.odooRepository)
          && Nearest(tag, org.odooTag, "", w.config.odooTag)
          && eff.platformImage == repository + ":" + tag)
    && eff.secretPaths == Secrets.ControllerPaths(w.config.secretsPrefix, org.name, eff.clientSlug, spec.environment, id.name)
  }

  /** The environment and the client that an application refers to. */
  predicate Parents(w: World, id: Id, spec: AppSpec, environment: EnvironmentSpec, client: ClientSpec) {
    && Id(id.namespace, spec.environment) in w.environments && environment == w.environments[Id(id.namespace, spec.environment)]
    && Id(id.namespace, environment.clientRef) in w.clients && client == w.clients[Id(id.namespace, environment.clientRef)]
  }

  /** What an application resolves to is what its parents say, the nearest first. */
  lemma LayersDecide(w: World, id: Id, spec: AppSpec) returns (environment: EnvironmentSpec, client: ClientSpec, org: Organization)
    requires Resolve(w, id, spec).Resolved?
    ensures Parents(w, id, spec, environment, client) && IsOrganization(w, client, org)
    ensures Layered(w, id, spec, Resolve(w, id, spec).effective, environment, client, org)
  {
    environment := w.environments[Id(id.namespace, spec.environment)];
    client := w.clients[Id(id.namespace, environment.clientRef)];
    FoundIsNamed(w.organizations, client.organizationRef);
    hide Strip, FindOrganization, Names.NamespaceName, Names.HostLabel, Secrets.ControllerPaths;
    org := if client.organizationRef != "" then FindOrganization(w.organizations, client.organizationRef).value
           else if |w.organizations| == 1 then w.organizations[0] else Organization("", "", "", "");
    var domain := if spec.domain != "" then w.domains[Id(id.namespace, spec.domain)] else "";
    assert BaseFits(w, id, spec, org, FirstOf(domain, FirstOf(org.baseDomain, w.config.baseDomain)));
    assert Nearest(FirstOf(org.odooRepository, w.config.odooRepository), org.odooRepository, "", w.config.odooRepository);
    assert Nearest(FirstOf(org.odooTag, w.config.odooTag), org.odooTag, "", w.config.odooTag);
  }

  /** An application resolves if and only if its environment and type are named and every reference leads somewhere; a name
      that is missing is told from a reference that is. */
  lemma ResolvesIff(w: World, id: Id, spec: AppSpec)
    ensures Resolve(w, id, spec) == Unresolved(InvalidSpec) <==> spec.environment == "" || spec.appType == ""
    ensures Resolve(w, id, spec).Resolved? <==>
            && spec.environment != "" && spec.appType in w.charts && spec.appType != ""
            && (spec.domain != "" ==> Id(id.namespace, spec.domain) in w.domains)
            && exists environment, client ::
                 && Parents(w, id, spec, environment, client)
                 && (client.organizationRef != "" ==> exists org :: org in w.organizations && org.name == client.organizationRef)
    ensures Resolve(w, id, spec).Unresolved? ==> Resolve(w, id, spec).reason in {InvalidSpec, DependencyNotMet}
  {
    hide Strip, Host, FindOrganization, Names.NamespaceName, Names.HostLabel, Secrets.ControllerPaths;
    var at := Id(id.namespace, spec.environment);
    if at in w.environments {
      var environment := w.environments[at];
      var clientAt := Id(id.namespace, environment.clientRef);
      if clientAt in w.clients {
        assert Parents(w, id, spec, environment, w.clients[clientAt]);
        FoundIsNamed(w.organizations, w.clients[clientAt].organizationRef);
      }
    }
  }

  // ---- deletions ----

  /** Removing an application removes what its status names, as far as the deletions go through, and nothing else. */
  lemma TeardownIsExact(c: Cluster, id: Id, argoGone: bool, buildGone: bool, restoreGone: bool)
    requires id in c.apps
    ensures var c', st := Take(c, DeleteApp(id, argoGone, buildGone, restoreGone)), c.apps[id].status;
            && c' == c.(apps := c'.apps, argo := c'.argo, workflows := c'.workflows)
            && (forall i :: i in c'.apps <==> i in c.apps && i != id)
            && (forall i :: i in c'.apps ==> c'.apps[i] == c.apps[i])
            && (forall n :: n in c'.argo <==> n in c.argo && !(argoGone && n == st.argoApplication != ""))
            && (forall n :: n in c'.argo ==> c'.argo[n] == c.argo[n])
            && (forall n :: n in c'.workflows <==>
                  && n in c.workflows && !(buildGone && n == st.buildWorkflow != "")
                  && !(restoreGone && n == st.restoreWorkflow != ""))
            && (forall n :: n in c'.workflows ==> c'.workflows[n] == c.workflows[n])
  {
  }

  /** Removing a snapshot removes its workflow, whether or not the status has recorded it. */
  lemma SnapshotTeardownIsExact(c: Cluster, id: Id, cleaned: bool)
    requires id in c.snapshots
    ensures var c', recorded := Take(c, DeleteSnapshot(id, cleaned)), c.snapshots[id].status.workflow;
            && c' == c.(snapshots := c.snapshots - {id}, workflows := c'.workflows)
            && (forall n :: n in c'.workflows <==>
                  n in c.workflows && !(cleaned && n == if recorded != "" then recorded else DumpName(id)))
            && (forall n :: n in c'.workflows ==> c'.workflows[n] == c.workflows[n])
  {
    hide DumpName;
  }

  // ---- the name an image is pushed under ----

  lemma {:induction false} AfterFirstSlash(host: string, path: string)
    requires SlashFree(host)
    ensures AfterSlash(host + "/" + path) == path
  {
    var s := host + "/" + path;
    if host == "" {
      assert s[1..] == path;
    } else {
      assert s[1..] == host[1..] + "/" + path;
      AfterFirstSlash(host[1..], path);
    }
  }

  lemma {:induction false} SchemeIsRun(scheme: string, rest: string)
    requires (forall i :: 0 <= i < |scheme| ==> 'a' <= scheme[i] <= 'z') && (rest == "" || !('a' <= rest[0] <= 'z'))
    ensures LowerRun(scheme + rest) == |scheme|
  {
    if scheme == "" {
      assert scheme + rest == rest;
    } else {
      assert (scheme + rest)[1..] == scheme[1..] + rest;
      SchemeIsRun(scheme[1..], rest);
    }
  }

  /** An endpoint's scheme is dropped. */
  lemma SchemeIsDropped(scheme: string, host: string)
    requires scheme != "" && forall i :: 0 <= i < |scheme| ==> 'a' <= scheme[i] <= 'z'
    ensures AfterScheme(scheme + "://" + host) == host
  {
    var s := scheme + "://" + host;
    assert s == scheme + ("://" + host);
    SchemeIsRun(scheme, "://" + host);
    assert s[|scheme|..] == "://" + host && s[|scheme| + 3..] == host;
  }

  lemma EndpointIs(endpoint: string)
    requires endpoint != "" && !IsSpace(endpoint[0]) && !IsSpace(endpoint[|endpoint| - 1]) && endpoint[|endpoint| - 1] != '/'
    ensures Endpoint(endpoint) == endpoint
  {
  }

  /** With an internal endpoint an image is pushed to its host, under the path it is pulled by; without one it is pushed where
      it is pulled. */
  lemma PushedUnderItsPath(registry: string, path: string, scheme: string, host: string)
    requires SlashFree(registry) && scheme != "" && host != "" && forall i :: 0 <= i < |scheme| ==> 'a' <= scheme[i] <= 'z'
    requires !IsSpace(host[|host| - 1]) && host[|host| - 1] != '/'
    ensures PushRef(registry + "/" + path, scheme + "://" + host) == host + "/" + path
    ensures PushRef(registry + "/" + path, "") == registry + "/" + path
  {
    var endpoint := scheme + "://" + host;
    assert endpoint[0] == scheme[0] && endpoint[|endpoint| - 1] == host[|host| - 1] && !IsSpace(scheme[0]);
    EndpointIs(endpoint);
    hide Endpoint, AfterScheme, AfterSlash, IsSpace;
    SchemeIsDropped(scheme, host);
    AfterFirstSlash(registry, path);
    NoEndpoint();
  }

  lemma NoEndpoint() ensures Endpoint("") == "" {}

  // ---- names that tell ----

  lemma TwoDashedParts(prefix: string, a: string, x: string, b: string, y: string)
    requires '-' !in a && '-' !in b && prefix + a + "-" + x == prefix + b + "-" + y
    ensures a == b && x == y
  {
    assert prefix + a + "-" + x == prefix + (a + ['-'] + x) && prefix + b + "-" + y == prefix + (b + ['-'] + y);
    SameBehind(prefix, a + ['-'] + x, b + ['-'] + y);
    CutAlike('-', a, x, b, y);
  }

  lemma ThreeDashedParts(prefix: string, a: string, b: string, x: string, c: string, d: string, y: string)
    requires '-' !in a && '-' !in b && '-' !in c && '-' !in d && prefix + a + "-" + b + "-" + x == prefix + c + "-" + d + "-" + y
    ensures a == c && b == d && x == y
  {
    assert prefix + a + "-" + b + "-" + x == prefix + a + "-" + (b + "-" + x);
    assert prefix + c + "-" + d + "-" + y == prefix + c + "-" + (d + "-" + y);
    TwoDashedParts(prefix, a, b + "-" + x, c, d + "-" + y);
    CutAlike('-', b, x, d, y);
  }

  /** Without dashes in their parts, and as far as nothing is cut off, the names of workflows tell everything they are made of:
      namespace, application and tag, or snapshot, or namespace and snapshot. */
  lemma DashFreeNamesTell(n: string, a: string, x: string, m: string, b: string, y: string)
    requires '-' !in n && '-' !in a && '-' !in m && '-' !in b
    requires |n| + |a| + |x| <= 200 && |m| + |b| + |y| <= 200
    ensures RestoreName(n, a, x) == RestoreName(m, b, y) <==> n == m && a == b && x == y
    ensures DumpName(Id(n, x)) == DumpName(Id(m, y)) <==> n == m && x == y
  {
    if RestoreName(n, a, x) == RestoreName(m, b, y) { ThreeDashedParts("restore-", n, a, x, m, b, y); }
    if DumpName(Id(n, x)) == DumpName(Id(m, y)) { TwoDashedParts("snapshot-", n, x, m, y); }
  }

  lemma DashFreeBuildsTell(n: string, a: string, ref: string, m: string, b: string, other: string)
    requires '-' !in n && '-' !in a && '-' !in m && '-' !in b
    requires |n| + |a| <= 100 && |m| + |b| <= 100
    ensures BuildName(n, a, ref) == BuildName(m, b, other) <==>
            n == m && a == b && Names.SanitizeTag(ref) == Names.SanitizeTag(other)
  {
    Names.SanitizedTagIsValid(ref);
    Names.SanitizedTagIsValid(other);
    hide Names.SanitizeTag;
    if BuildName(n, a, ref) == BuildName(m, b, other) {
      ThreeDashedParts("build-", n, a, Names.SanitizeTag(ref), m, b, Names.SanitizeTag(other));
    }
  }
}
