/** Convergence over the runs of the whole system: exactly which steps leave an application alone, and that it becomes Ready
    whatever else happens that does. */
module EngineRuns {
  import opened Wrappers
  import opened EngineModel
  import opened EngineConvergence
  import EngineSafety
  import Names
  import Secrets = ScopedSecrets

  /** The workflows that an application still counts on. */
  function Own(c: Cluster, id: Id, spec: AppSpec, eff: Effective): set<string>
    requires id in c.apps
  {
    (if spec.source.Some? then {BuildOf(c.world, id, spec.source.value, eff)} else {})
    + if Recorded(spec, c.apps[id].status) then {} else {RestoreOf(spec.restoreFrom.value, eff)}
  }

  /** The snapshot that an application still has to restore. */
  predicate Awaits(c: Cluster, id: Id, spec: AppSpec, snapshot: Id)
    requires id in c.apps
  {
    !Recorded(spec, c.apps[id].status) && snapshot == Id(id.namespace, spec.restoreFrom.value.snapshot)
  }

  function SecretKey(eff: Effective): (string, string) {
    (eff.namespace, Secrets.ScopedSecretName(eff.app))
  }

  /** Both applications want the same ExternalSecret, or have two. */
  predicate SecretsAgree(w: World, eff: Effective, eff2: Effective) {
    SecretKey(eff2) == SecretKey(eff) ==>
      Secrets.KeptPaths(w.openbao, eff2.secretPaths) == Secrets.KeptPaths(w.openbao, eff.secretPaths)
  }

  /** The workflows that a pass over an application may submit. */
  function AsksFor(w: World, id: Id, spec: AppSpec, eff: Effective): set<string> {
    (if spec.source.Some? then {BuildOf(w, id, spec.source.value, eff)} else {})
    + if spec.restoreFrom.Some? then {RestoreOf(spec.restoreFrom.value, eff)} else {}
  }

  /** What workflows report during the pass takes no success back. */
  predicate Gentle(o: Oracle) {
    o.buildNews in {None, Some(Succeeded)} && o.jobNews in {None, Some(Succeeded)}
  }

  /** A pass over another application goes for other objects: another Argo CD Application, another ExternalSecret or the
      same with the same paths, and other workflows, unless the reports are gentle. */
  predicate GoesElsewhere(c: Cluster, id: Id, spec: AppSpec, eff: Effective, other: Id, o: Oracle)
    requires id in c.apps
  {
    other in c.apps && Resolve(c.world, other, c.apps[other].spec).Resolved? ==>
      var eff2 := Resolve(c.world, other, c.apps[other].spec).effective;
      && Argo(eff2) != Argo(eff) && SecretsAgree(c.world, eff, eff2)
      && (Gentle(o) || AsksFor(c.world, other, c.apps[other].spec, eff2) !! Own(c, id, spec, eff))
  }

  /** A snapshot pass gets as far as its dump. */
  predicate ReachesDump(c: Cluster, snapshot: Id, o: Oracle) {
    && snapshot in c.snapshots && c.snapshots[snapshot].application != ""
    && var appId := Id(snapshot.namespace, c.snapshots[snapshot].application);
    && appId in c.apps
    && var conn := ConnectionOf(c.world, snapshot.namespace, c.apps[appId].spec.databases, c.apps[appId].status.namespace);
    && conn.Some? && JobSecretsPresent(c.world, conn.value) && o.jobSecrets && o.jobSubmit
  }

  /** There it finds the dump succeeded. */
  predicate FindsDump(c: Cluster, snapshot: Id, o: Oracle) {
    o.jobNews == Some(Succeeded) || (o.jobNews == None && PhaseOf(c, DumpName(snapshot)) == Succeeded)
  }

  /** The step leaves the application alone. */
  predicate Harmless(c: Cluster, s: Step, id: Id, spec: AppSpec, eff: Effective)
    requires id in c.apps
  {
    var own := Own(c, id, spec, eff);
    match s
    case Surroundings(w) => ReadsSame(c.world, w, id, spec, eff)
    case PutApp(other, _) => other != id
    case DeleteApp(other, argoGone, buildGone, restoreGone) =>
      && other != id
      && (other in c.apps ==>
            var st := c.apps[other].status;
            && (argoGone && st.argoApplication != "" && st.argoApplication in c.argo ==> st.argoApplication != Argo(eff))
            && (buildGone && st.buildWorkflow != "" && st.buildWorkflow in c.workflows ==> st.buildWorkflow !in own)
            && (restoreGone && st.restoreWorkflow != "" && st.restoreWorkflow in c.workflows ==> st.restoreWorkflow !in own))
    case PutSnapshot(_, _) => true
    case DeleteSnapshot(snapshot, cleaned) =>
      snapshot in c.snapshots ==>
        var wf := FirstOf(c.snapshots[snapshot].status.workflow, DumpName(snapshot));
        && !(Awaits(c, id, spec, snapshot) && DumpReady(c, snapshot))
        && (cleaned && wf in c.workflows ==> wf !in own)
    case ReconcileApp(other, o) => other != id && GoesElsewhere(c, id, spec, eff, other, o)
    case ReconcileSnapshot(snapshot, o) =>
      Awaits(c, id, spec, snapshot) && DumpReady(c, snapshot) && ReachesDump(c, snapshot, o) ==> FindsDump(c, snapshot, o)
    case WorkflowReports(wf, phase) => wf in own && PhaseOf(c, wf) == Succeeded ==> phase == Succeeded
    case WorkflowVanishes(wf) => wf in own ==> wf !in c.workflows
  }

  // ---- every other step ----

  lemma EditedIff(c: Cluster, s: Step, id: Id, spec: AppSpec, eff: Effective)
    requires id in c.apps && (s.Surroundings? || s.PutApp? || s.PutSnapshot?)
    ensures Undisturbed(c, Take(c, s), id, spec, eff) <==> Harmless(c, s, id, spec, eff)
  {
    hide Resolve, BuildBlocked, ConnectionOf, ResolveOidc, Secrets.KeptPaths, ImageOf, RefOf, BuildName, RestoreName, DumpName,
      Names.ArgoAppName, ReadsSame, ApplicationPass, SnapshotPass, DeliveredSecrets, Report, FinalizeApp, FinalizeSnapshot;
    ReadsItself(c.world, id, spec, eff);
  }

  lemma DeletedAppIff(c: Cluster, s: Step, id: Id, spec: AppSpec, eff: Effective)
    requires id in c.apps && s.DeleteApp?
    ensures Undisturbed(c, Take(c, s), id, spec, eff) <==> Harmless(c, s, id, spec, eff)
  {
    hide Resolve, BuildBlocked, ConnectionOf, ResolveOidc, Secrets.KeptPaths, ImageOf, RefOf, BuildName, RestoreName, DumpName,
      Names.ArgoAppName, ReadsSame, ApplicationPass, SnapshotPass, DeliveredSecrets, Report, FinalizeSnapshot;
    ReadsItself(c.world, id, spec, eff);
  }

  lemma DeletedSnapshotIff(c: Cluster, s: Step, id: Id, spec: AppSpec, eff: Effective)
    requires id in c.apps && s.DeleteSnapshot?
    ensures Undisturbed(c, Take(c, s), id, spec, eff) <==> Harmless(c, s, id, spec, eff)
  {
    hide Resolve, BuildBlocked, ConnectionOf, ResolveOidc, Secrets.KeptPaths, ImageOf, RefOf, BuildName, RestoreName, DumpName,
      Names.ArgoAppName, ReadsSame, ApplicationPass, SnapshotPass, DeliveredSecrets, Report, FinalizeApp;
    ReadsItself(c.world, id, spec, eff);
  }

  lemma ReportedIff(c: Cluster, s: Step, id: Id, spec: AppSpec, eff: Effective)
    requires id in c.apps && (s.WorkflowReports? || s.WorkflowVanishes?)
    ensures Undisturbed(c, Take(c, s), id, spec, eff) <==> Harmless(c, s, id, spec, eff)
  {
    hide Resolve, BuildBlocked, ConnectionOf, ResolveOidc, Secrets.KeptPaths, ImageOf, RefOf, BuildName, RestoreName, DumpName,
      Names.ArgoAppName, ReadsSame, ApplicationPass, SnapshotPass, DeliveredSecrets, FinalizeApp, FinalizeSnapshot;
    ReadsItself(c.world, id, spec, eff);
  }

  /** Edits, deletions, reports and changes of the surroundings disturb an application exactly when they are not harmless. */
  lemma DisturbedIff(c: Cluster, s: Step, id: Id, spec: AppSpec, eff: Effective)
    requires id in c.apps && !s.ReconcileApp? && !s.ReconcileSnapshot?
    ensures Undisturbed(c, Take(c, s), id, spec, eff) <==> Harmless(c, s, id, spec, eff)
  {
    hide Undisturbed, Harmless, Take;
    match s
    case DeleteApp(_, _, _, _) => DeletedAppIff(c, s, id, spec, eff);
    case DeleteSnapshot(_, _) => DeletedSnapshotIff(c, s, id, spec, eff);
    case WorkflowReports(_, _) => ReportedIff(c, s, id, spec, eff);
    case WorkflowVanishes(_) => ReportedIff(c, s, id, spec, eff);
    case _ => EditedIff(c, s, id, spec, eff);
  }

  // ---- a snapshot pass ----

  lemma NotADump(c: Cluster, id: Id, spec: AppSpec, eff: Effective, snapshot: Id)
    requires id in c.apps
    ensures DumpName(snapshot) !in Own(c, id, spec, eff)
  {
    EngineSafety.DumpNameKind(snapshot);
    if spec.source.Some? { EngineSafety.BuildNameKind(eff.namespace, eff.app, RefOf(c.world, id, spec.source.value)); }
    if spec.restoreFrom.Some? { EngineSafety.RestoreNameKind(eff.namespace, eff.app, spec.restoreFrom.value.snapshot); }
    hide DumpName, BuildName, RestoreName;
  }

  /** What a snapshot pass changes: its own snapshot, and its own workflow. */
  lemma SnapshotTouches(c: Cluster, snapshot: Id, o: Oracle)
    requires snapshot in c.snapshots
    ensures var c' := SnapshotPass(c, snapshot, o);
            && c'.(snapshots := c.snapshots, workflows := c.workflows, history := c.history) == c
            && (forall s :: s in c.snapshots && s != snapshot ==> s in c'.snapshots && c'.snapshots[s] == c.snapshots[s])
            && (forall n :: n != DumpName(snapshot) ==> KeepsWorkflow(c, c', n))
            && (DumpReady(c, snapshot) ==>
                  (DumpReady(c', snapshot) <==> (ReachesDump(c, snapshot, o) ==> FindsDump(c, snapshot, o))))
  {
    hide ConnectionOf, JobSecretsPresent, DumpWith;
    if ReachesDump(c, snapshot, o) {
      var appId := Id(snapshot.namespace, c.snapshots[snapshot].application);
      var conn := ConnectionOf(c.world, snapshot.namespace, c.apps[appId].spec.databases, c.apps[appId].status.namespace);
      DumpTouches(c, snapshot, conn.value, c.snapshots[snapshot].status, o);
    }
  }

  /** After asking, a workflow has the phase it reported meanwhile, or the one it had. */
  lemma AskedPhase(c: Cluster, owner: Id, name: string, p: Parameters, news: Option<Phase>)
    ensures var c' := Ask(c, owner, name, p, news);
            && c'.(workflows := c.workflows, history := c.history) == c
            && (forall n :: n != name ==> KeepsWorkflow(c, c', n))
            && PhaseOf(c', name) == if news.Some? then news.value else PhaseOf(c, name)
  {
    AskOnly(c, owner, name, p, news);
    AskedOthers(c, owner, name, p, news);
  }

  lemma AskedOthers(c: Cluster, owner: Id, name: string, p: Parameters, news: Option<Phase>)
    ensures forall n :: n != name ==> KeepsWorkflow(c, Ask(c, owner, name, p, news), n)
  {
  }

  lemma DumpTouches(c: Cluster, snapshot: Id, conn: Connection, st: SnapshotStatus, o: Oracle)
    requires snapshot in c.snapshots
    ensures var c' := DumpWith(c, snapshot, conn, st, o);
            && c'.(snapshots := c.snapshots, workflows := c.workflows, history := c.history) == c
            && (forall s :: s in c.snapshots && s != snapshot ==> s in c'.snapshots && c'.snapshots[s] == c.snapshots[s])
            && (forall n :: n != DumpName(snapshot) ==> KeepsWorkflow(c, c', n))
            && (DumpReady(c', snapshot) <==> FindsDump(c, snapshot, o))
  {
    hide DumpName, DumpKey, Ask, KeepsWorkflow, PhaseOf;
    var wf, p := DumpName(snapshot), DumpParameters(conn, DumpKey(snapshot));
    AskedPhase(c, snapshot, wf, p, o.jobNews);
    var c1 := Ask(c, snapshot, wf, p, o.jobNews);
    var st1 := st.(workflow := wf, location := "s3://" + c.world.config.s3Bucket + "/" + DumpKey(snapshot));
    DumpFinished(c1, snapshot, wf, st1);
    KeptOn(c, c1, AfterDump(c1, snapshot, wf, st1));
  }

  lemma DumpFinished(c: Cluster, snapshot: Id, wf: string, st: SnapshotStatus)
    requires snapshot in c.snapshots && st.location != ""
    ensures var c' := AfterDump(c, snapshot, wf, st);
            && c'.(snapshots := c.snapshots) == c
            && (forall s :: s in c.snapshots && s != snapshot ==> s in c'.snapshots && c'.snapshots[s] == c.snapshots[s])
            && (DumpReady(c', snapshot) <==> PhaseOf(c, wf) == Succeeded)
  {
  }

  lemma KeptOn(c: Cluster, c1: Cluster, c2: Cluster)
    requires c2.workflows == c1.workflows
    ensures forall n :: KeepsWorkflow(c, c1, n) ==> KeepsWorkflow(c, c2, n)
  {
  }

  /** A snapshot pass disturbs an application exactly when it is not harmless. */
  lemma SnapshotPassIff(c: Cluster, id: Id, spec: AppSpec, eff: Effective, snapshot: Id, o: Oracle)
    requires id in c.apps
    ensures Undisturbed(c, Take(c, ReconcileSnapshot(snapshot, o)), id, spec, eff)
            <==> Harmless(c, ReconcileSnapshot(snapshot, o), id, spec, eff)
  {
    ReadsItself(c.world, id, spec, eff);
    hide Resolve, BuildBlocked, ConnectionOf, ResolveOidc, Secrets.KeptPaths, ImageOf, RefOf, BuildName, RestoreName, DumpName,
      Names.ArgoAppName, ReadsSame, ApplicationPass, SnapshotPass, DeliveredSecrets, FinalizeApp, FinalizeSnapshot, ReachesDump,
      FindsDump, DumpReady, KeepsWorkflow, Report;
    if snapshot in c.snapshots {
      SnapshotTouches(c, snapshot, o);
      NotADump(c, id, spec, eff, snapshot);
      OtherDumps(c, SnapshotPass(c, snapshot, o), snapshot);
    } else {
      NoSnapshot(c, snapshot, o);
      SameKeeps(c);
    }
  }

  lemma OtherDumps(c: Cluster, c': Cluster, snapshot: Id)
    requires forall s :: s in c.snapshots && s != snapshot ==> s in c'.snapshots && c'.snapshots[s] == c.snapshots[s]
    ensures forall s :: s != snapshot ==> KeepsDump(c, c', s)
  {
  }

  lemma NoSnapshot(c: Cluster, snapshot: Id, o: Oracle)
    requires snapshot !in c.snapshots
    ensures SnapshotPass(c, snapshot, o) == c && !DumpReady(c, snapshot)
  {
  }

  lemma SameKeeps(c: Cluster)
    ensures (forall n :: KeepsWorkflow(c, c, n)) && forall s :: KeepsDump(c, c, s)
  {
  }

  // ---- a pass over another application ----

  /** What a stage of a pass over another application may change. */
  ghost predicate Touches(c: Cluster, c': Cluster, eff: Effective, asked: set<string>, gentle: bool) {
    && c'.world == c.world && c'.snapshots == c.snapshots && c.namespaces <= c'.namespaces
    && (forall n :: n !in asked || gentle ==> KeepsWorkflow(c, c', n))
    && (forall n :: n != Argo(eff) && n in c.argo ==> n in c'.argo && c'.argo[n] == c.argo[n])
    && (c'.externalSecrets == c.externalSecrets
        || c'.externalSecrets == DeliveredSecrets(c.world, eff, true, c.externalSecrets))
  }

  lemma TouchesOn(c: Cluster, c1: Cluster, c2: Cluster, eff: Effective, asked: set<string>, gentle: bool)
    requires Touches(c, c1, eff, asked, gentle) && Touches(c1, c2, eff, asked, gentle)
    ensures Touches(c, c2, eff, asked, gentle)
  {
    DeliveredTwice(c.world, eff, c.externalSecrets);
    hide Argo, DeliveredSecrets;
  }

  lemma DeliveredTwice(w: World, eff: Effective, present: map<(string, string), seq<string>>)
    ensures var once := DeliveredSecrets(w, eff, true, present); DeliveredSecrets(w, eff, true, once) == once
  {
    hide Secrets.KeptPaths, Secrets.ScopedSecretName;
  }

  lemma DeliveredElsewhere(w: World, eff: Effective, present: map<(string, string), seq<string>>, k: (string, string))
    requires k != SecretKey(eff)
    ensures var once := DeliveredSecrets(w, eff, true, present);
            (k in once <==> k in present) && (k in present ==> once[k] == present[k])
  {
    hide Secrets.KeptPaths, Secrets.ScopedSecretName;
  }

  /** The delivery for one application keeps what the other one's has delivered. */
  lemma DeliveryKeeps(w: World, eff: Effective, eff2: Effective, present: map<(string, string), seq<string>>)
    requires SecretsAgree(w, eff, eff2) && DeliveredSecrets(w, eff, true, present) == present
    ensures var once := DeliveredSecrets(w, eff2, true, present); DeliveredSecrets(w, eff, true, once) == once
  {
    var once := DeliveredSecrets(w, eff2, true, present);
    if SecretKey(eff2) == SecretKey(eff) {
      SecretsSettled(w, eff, once);
      SecretsSettled(w, eff2, once);
      DeliveredTwice(w, eff2, present);
    } else {
      DeliveredElsewhere(w, eff2, present, SecretKey(eff));
      SecretsAlike(w, eff, present, once);
    }
    hide DeliveredSecrets, Secrets.KeptPaths;
  }

  lemma AskTouches(c: Cluster, owner: Id, name: string, p: Parameters, news: Option<Phase>, eff: Effective, asked: set<string>,
                   gentle: bool)
    requires name in asked && (gentle ==> news in {None, Some(Succeeded)})
    ensures Touches(c, Ask(c, owner, name, p, news), eff, asked, gentle) && Ask(c, owner, name, p, news).apps == c.apps
  {
    hide Argo;
  }

  lemma BuildTouches(c: Cluster, id: Id, spec: AppSpec, eff: Effective, st: AppStatus, o: Oracle)
    requires spec.source.Some?
    ensures var s := BuildGate(c, id, spec.source.value, eff, st, o);
            Touches(c, s.cluster, eff, AsksFor(c.world, id, spec, eff), Gentle(o)) && s.cluster.apps == c.apps
  {
    hide BuildName, ImageRef, PushRef, Endpoint, Touches, Ask, PhaseOf;
    var source := spec.source.value;
    Untouched(c, eff, AsksFor(c.world, id, spec, eff), Gentle(o));
    if BuildBlocked(c.world, RepoOf(id, source), o).None? {
      var repo := c.world.repositories[RepoOf(id, source)];
      var ref := GitRef(repo, source);
      assert BuildName(eff.namespace, eff.app, ref) == BuildOf(c.world, id, source, eff);
      AskTouches(c, id, BuildName(eff.namespace, eff.app, ref), BuildRequest(c.world, repo, source, eff, ref), o.buildNews, eff,
                 AsksFor(c.world, id, spec, eff), Gentle(o));
    }
  }

  lemma Untouched(c: Cluster, eff: Effective, asked: set<string>, gentle: bool)
    ensures Touches(c, c, eff, asked, gentle)
  {
    hide Argo;
  }

  lemma RestoreTouches(c: Cluster, id: Id, spec: AppSpec, eff: Effective, image: string, st: AppStatus, o: Oracle)
    requires spec.restoreFrom.Some?
    ensures var s := RestoreGate(c, id, spec, spec.restoreFrom.value, eff, image, st, o);
            Touches(c, s.cluster, eff, AsksFor(c.world, id, spec, eff), Gentle(o)) && s.cluster.apps == c.apps
  {
    hide RestoreName, DumpKey, Touches, Ask, PhaseOf, ConnectionOf, JobSecretsPresent, DumpReady;
    var restore, conn := spec.restoreFrom.value, ConnectionOf(c.world, id.namespace, spec.databases, eff.namespace);
    Untouched(c, eff, AsksFor(c.world, id, spec, eff), Gentle(o));
    if conn.Some? {
      var sanitize := if restore.sanitize.Some? then restore.sanitize.value else eff.class_ != "production";
      var p := RestoreParameters(conn.value, DumpKey(Id(id.namespace, restore.snapshot)), FirstOf(image, eff.platformImage), sanitize);
      AskTouches(c, id, RestoreOf(restore, eff), p, o.jobNews, eff, AsksFor(c.world, id, spec, eff), Gentle(o));
    }
  }

  lemma DeployTouches(c: Cluster, id: Id, spec: AppSpec, eff: Effective, image: string, build: Option<Parameters>, st: AppStatus,
                      o: Oracle, asked: set<string>, gentle: bool)
    ensures var s := DeployStage(c, id, spec, eff, image, build, st, o);
            Touches(c, s.cluster, eff, asked, gentle) && s.cluster.apps == c.apps
  {
    hide ResolveOidc, DeliveredSecret, Secrets.KeptPaths, Names.ArgoAppName, Secrets.ScopedSecretName;
  }

  lemma GatedTouches(c: Cluster, id: Id, spec: AppSpec, eff: Effective, st: AppStatus, o: Oracle)
    ensures var s := Gated(c, id, spec, eff, st, o);
            Touches(c, s.cluster, eff, AsksFor(c.world, id, spec, eff), Gentle(o)) && s.cluster.apps == c.apps
  {
    hide BuildGate, RestoreGate, DeployStage, Touches, AsksFor;
    var asked := AsksFor(c.world, id, spec, eff);
    if spec.source.Some? { BuildTouches(c, id, spec, eff, st, o); }
    var built := if spec.source.Some? then BuildGate(c, id, spec.source.value, eff, st, o) else Staged(c, st, Open("", None));
    Untouched(c, eff, asked, Gentle(o));
    SameWorld(c, built.cluster, eff, asked, Gentle(o));
    if built.gate.Open? {
      var restored := built;
      Untouched(built.cluster, eff, asked, Gentle(o));
      if spec.restoreFrom.Some? {
        RestoreTouches(built.cluster, id, spec, eff, built.gate.image, built.status, o);
        restored := RestoreGate(built.cluster, id, spec, spec.restoreFrom.value, eff, built.gate.image, built.status, o);
      }
      TouchesOn(c, built.cluster, restored.cluster, eff, asked, Gentle(o));
      if restored.gate.Open? {
        DeployTouches(restored.cluster, id, spec, eff, built.gate.image, built.gate.build, restored.status, o, asked, Gentle(o));
        TouchesOn(c, restored.cluster, Gated(c, id, spec, eff, st, o).cluster, eff, asked, Gentle(o));
      }
    }
  }

  lemma SameWorld(c: Cluster, c': Cluster, eff: Effective, asked: set<string>, gentle: bool)
    requires Touches(c, c', eff, asked, gentle)
    ensures c'.world == c.world
  {
  }

  lemma OtherPassTouches(c: Cluster, other: Id, o: Oracle)
    requires other in c.apps
    ensures var c' := ApplicationPass(c, other, o);
            && (forall a :: a in c.apps && a != other ==> a in c'.apps && c'.apps[a] == c.apps[a])
            && match Resolve(c.world, other, c.apps[other].spec)
               case Unresolved(_) => c'.(apps := c.apps) == c
               case Resolved(eff2) => Touches(c, c', eff2, AsksFor(c.world, other, c.apps[other].spec, eff2), Gentle(o))
  {
    hide Gated, Resolve, AsksFor, Touches;
    var r, app := Resolve(c.world, other, c.apps[other].spec), c.apps[other];
    if r.Resolved? {
      var eff2 := r.effective;
      var c1 := c.(namespaces := c.namespaces + {eff2.namespace});
      GatedTouches(c1, other, app.spec, eff2, app.status.(namespace := eff2.namespace), o);
      TouchesEntered(c, c1, eff2, AsksFor(c.world, other, app.spec, eff2), Gentle(o));
      TouchesFinished(c, PassStages(c, other, app, o), other, eff2, AsksFor(c.world, other, app.spec, eff2), Gentle(o)) by {
        TouchesOn(c, c1, Gated(c1, other, app.spec, eff2, app.status.(namespace := eff2.namespace), o).cluster, eff2,
                  AsksFor(c.world, other, app.spec, eff2), Gentle(o));
        Untouched(c, eff2, AsksFor(c.world, other, app.spec, eff2), Gentle(o));
      }
    }
  }

  lemma TouchesEntered(c: Cluster, c1: Cluster, eff: Effective, asked: set<string>, gentle: bool)
    requires c1 == c.(namespaces := c.namespaces + {eff.namespace})
    ensures Touches(c, c1, eff, asked, gentle)
  {
    hide Argo;
  }

  lemma TouchesFinished(c: Cluster, s: Staged, id: Id, eff: Effective, asked: set<string>, gentle: bool)
    requires Touches(c, s.cluster, eff, asked, gentle)
    ensures Touches(c, Finish(s, id), eff, asked, gentle)
  {
    hide Argo;
  }

  lemma SecretsAlike(w: World, eff: Effective, a: map<(string, string), seq<string>>, b: map<(string, string), seq<string>>)
    requires SecretKey(eff) in a <==> SecretKey(eff) in b
    requires SecretKey(eff) in a ==> a[SecretKey(eff)] == b[SecretKey(eff)]
    ensures DeliveredSecrets(w, eff, true, a) == a <==> DeliveredSecrets(w, eff, true, b) == b
  {
    SecretsSettled(w, eff, a);
    SecretsSettled(w, eff, b);
  }

  /** The delivery step leaves the ExternalSecrets alone exactly when its own is as it should be. */
  lemma SecretsSettled(w: World, eff: Effective, present: map<(string, string), seq<string>>)
    ensures var kept, at := Secrets.KeptPaths(w.openbao, eff.secretPaths), SecretKey(eff);
            DeliveredSecrets(w, eff, true, present) == present
            <==> if kept == [] then at !in present else at in present && present[at] == kept
  {
    hide Secrets.KeptPaths, Secrets.ScopedSecretName;
    var kept, at := Secrets.KeptPaths(w.openbao, eff.secretPaths), SecretKey(eff);
    if kept == [] {
      assert at !in present - {at};
    } else {
      assert present[at := kept][at] == kept;
    }
  }

  /** Changes for other objects leave the application alone. */
  lemma ElsewhereUndisturbed(c: Cluster, c': Cluster, id: Id, spec: AppSpec, eff: Effective, eff2: Effective,
                             asked: set<string>, gentle: bool)
    requires id in c.apps && id in c'.apps && c'.apps[id] == c.apps[id] && Touches(c, c', eff2, asked, gentle)
    requires Argo(eff2) != Argo(eff) && SecretsAgree(c.world, eff, eff2)
    requires gentle || asked !! Own(c, id, spec, eff)
    ensures Undisturbed(c, c', id, spec, eff)
  {
    ReadsItself(c.world, id, spec, eff);
    if DeliveredSecrets(c.world, eff, true, c.externalSecrets) == c.externalSecrets {
      DeliveryKeeps(c.world, eff, eff2, c.externalSecrets);
    }
    SnapshotsKeep(c, c');
    hide Resolve, ReadsSame, Argo, SecretsAgree, DeliveredSecrets, KeepsWorkflow, KeepsDump, BuildOf, RestoreOf;
    assert forall n :: n in Own(c, id, spec, eff) ==> KeepsWorkflow(c, c', n);
  }

  /** A pass that goes elsewhere leaves the application alone. */
  lemma OtherPassHarmless(c: Cluster, id: Id, spec: AppSpec, eff: Effective, other: Id, o: Oracle)
    requires id in c.apps && Harmless(c, ReconcileApp(other, o), id, spec, eff)
    ensures Undisturbed(c, Take(c, ReconcileApp(other, o)), id, spec, eff)
  {
    ReconcilesOther(c, other, o);
    hide Resolve, Argo, SecretKey, ApplicationPass, AsksFor, Gentle, Own, Undisturbed, Touches, Take;
    if other in c.apps {
      OtherPassTouches(c, other, o);
      var r, app := Resolve(c.world, other, c.apps[other].spec), c.apps[other];
      var c' := ApplicationPass(c, other, o);
      if r.Resolved? {
        ElsewhereUndisturbed(c, c', id, spec, eff, r.effective, AsksFor(c.world, other, app.spec, r.effective), Gentle(o));
      } else {
        OnlyAppsUndisturbed(c, c', id, spec, eff);
      }
    } else {
      OnlyAppsUndisturbed(c, c, id, spec, eff);
    }
  }

  lemma ReconcilesOther(c: Cluster, other: Id, o: Oracle)
    ensures Take(c, ReconcileApp(other, o)) == ApplicationPass(c, other, o)
    ensures other !in c.apps ==> ApplicationPass(c, other, o) == c
  {
    hide PassStages;
  }

  lemma OnlyAppsUndisturbed(c: Cluster, c': Cluster, id: Id, spec: AppSpec, eff: Effective)
    requires id in c.apps && id in c'.apps && c'.apps[id] == c.apps[id] && c'.(apps := c.apps) == c
    ensures Undisturbed(c, c', id, spec, eff)
  {
    ReadsItself(c.world, id, spec, eff);
    hide Resolve, ReadsSame, Argo, DeliveredSecrets, BuildOf, RestoreOf;
  }

  lemma SnapshotsKeep(c: Cluster, c': Cluster)
    requires c'.snapshots == c.snapshots
    ensures forall s :: KeepsDump(c, c', s)
  {
  }

  // ---- runs ----

  /** The application's own pass, with backends that answer, or a step that leaves it alone. */
  predicate Along(c: Cluster, s: Step, id: Id, spec: AppSpec, eff: Effective)
    requires id in c.apps
  {
    if s.ReconcileApp? && s.id == id then Answering(s.oracle) else Harmless(c, s, id, spec, eff)
  }

  predicate RunsAlong(c: Cluster, steps: seq<Step>, id: Id, spec: AppSpec, eff: Effective)
    decreases |steps|
  {
    steps != [] ==> id in c.apps && Along(c, steps[0], id, spec, eff) && RunsAlong(Take(c, steps[0]), steps[1..], id, spec, eff)
  }

  /** How many of the application's passes met answered surroundings. */
  function AnsweredPasses(c: Cluster, steps: seq<Step>, id: Id, spec: AppSpec, eff: Effective): nat
    decreases |steps|
  {
    if steps == [] then 0
    else (if steps[0].ReconcileApp? && steps[0].id == id && Answered(c, id, spec, eff) then 1 else 0)
         + AnsweredPasses(Take(c, steps[0]), steps[1..], id, spec, eff)
  }

  /** A harmless step does leave the application undisturbed. */
  lemma HarmlessUndisturbs(c: Cluster, s: Step, id: Id, spec: AppSpec, eff: Effective)
    requires id in c.apps && Harmless(c, s, id, spec, eff)
    ensures Undisturbed(c, Take(c, s), id, spec, eff)
  {
    hide Harmless, Undisturbed, Take;
    match s
    case ReconcileApp(other, o) => OtherPassHarmless(c, id, spec, eff, other, o);
    case ReconcileSnapshot(snapshot, o) => SnapshotPassIff(c, id, spec, eff, snapshot, o);
    case _ => DisturbedIff(c, s, id, spec, eff);
  }

  lemma StepDescends(c: Cluster, s: Step, id: Id, spec: AppSpec, eff: Effective)
    requires Present(c, id, spec, eff) && id in c.apps && Along(c, s, id, spec, eff)
    ensures var c' := Take(c, s);
            && Present(c', id, spec, eff) && Remaining(c', id, spec, eff) <= Remaining(c, id, spec, eff)
            && (s.ReconcileApp? && s.id == id && Answered(c, id, spec, eff) && Remaining(c, id, spec, eff) > 0 ==>
                  Remaining(c', id, spec, eff) < Remaining(c, id, spec, eff))
  {
    hide Present, Settled, Remaining, Answered, Harmless, Undisturbed, Take;
    ZeroIffSettled(c, id, spec, eff);
    if s.ReconcileApp? && s.id == id {
      PassDescends(c, id, spec, eff, s.oracle);
      ReconcilesOther(c, id, s.oracle);
    } else {
      HarmlessUndisturbs(c, s, id, spec, eff);
      UndisturbedKeeps(c, Take(c, s), id, spec, eff);
    }
  }

  lemma {:induction false} RunDescends(c: Cluster, steps: seq<Step>, id: Id, spec: AppSpec, eff: Effective)
    requires Present(c, id, spec, eff) && RunsAlong(c, steps, id, spec, eff)
    ensures var c' := Run(c, steps);
            && Present(c', id, spec, eff)
            && (Remaining(c', id, spec, eff) == 0
                || Remaining(c', id, spec, eff) + AnsweredPasses(c, steps, id, spec, eff) <= Remaining(c, id, spec, eff))
    decreases |steps|
  {
    hide Present, Settled, Remaining, Answered, Along, Take;
    if steps != [] {
      StepDescends(c, steps[0], id, spec, eff);
      RunDescends(Take(c, steps[0]), steps[1..], id, spec, eff);
      ZeroStays(Take(c, steps[0]), steps[1..], id, spec, eff);
    }
  }

  lemma {:induction false} ZeroStays(c: Cluster, steps: seq<Step>, id: Id, spec: AppSpec, eff: Effective)
    requires Present(c, id, spec, eff) && RunsAlong(c, steps, id, spec, eff)
    ensures Remaining(c, id, spec, eff) == 0 ==> Remaining(Run(c, steps), id, spec, eff) == 0
    decreases |steps|
  {
    hide Present, Settled, Remaining, Answered, Along, Take;
    if steps != [] {
      StepDescends(c, steps[0], id, spec, eff);
      ZeroStays(Take(c, steps[0]), steps[1..], id, spec, eff);
    }
  }

  /** Convergence: in every run of the system whose other steps leave the application alone, four answered passes make the
      application Ready with everything deployed as its spec asks, wherever they come and whatever comes after; and from
      then on every further pass changes nothing. */
  lemma Converges(c: Cluster, steps: seq<Step>, id: Id, spec: AppSpec, eff: Effective, o: Oracle)
    requires Present(c, id, spec, eff) && RunsAlong(c, steps, id, spec, eff) && Answering(o)
    requires AnsweredPasses(c, steps, id, spec, eff) >= 4
    ensures var c' := Run(c, steps);
            && Settled(c', id, spec, eff) && c'.apps[id].status.ready == IsReady
            && ApplicationPass(c', id, o).(history := c'.history) == c'
  {
    RunDescends(c, steps, id, spec, eff);
    var c' := Run(c, steps);
    ZeroIffSettled(c', id, spec, eff);
    SettledIsStable(c', id, spec, eff, o);
    hide *;
  }
}
