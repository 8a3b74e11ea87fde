/** The one reference that the chart itself delivers: a fresh database's credential Secret, for which an application that is
    to restore into it waits before its chart is applied. */
module EngineHeld {
  import opened Wrappers
  import opened EngineModel
  import opened EngineConvergence
  import opened EngineRuns
  import Names

  // ---- who applies ----

  /** From `h` to `h'` no application has been applied, or, if `applies`, only this one. */
  ghost predicate AppliedBy(h: seq<Event>, h': seq<Event>, owner: Id, applies: bool) {
    && h <= h'
    && forall i :: |h| <= i < |h'| && h'[i].Applied? ==> applies && h'[i].owner == owner
  }

  ghost predicate NoApplyBy(h: seq<Event>, h': seq<Event>, id: Id) {
    h <= h' && forall i :: |h| <= i < |h'| && h'[i].Applied? ==> h'[i].owner != id
  }

  lemma AskApplies(c: Cluster, owner: Id, name: string, p: Parameters, news: Option<Phase>)
    ensures AppliedBy(c.history, Ask(c, owner, name, p, news).history, owner, false)
  {
  }

  lemma BuildApplies(c: Cluster, id: Id, source: Source, eff: Effective, st: AppStatus, o: Oracle)
    ensures AppliedBy(c.history, BuildGate(c, id, source, eff, st, o).cluster.history, id, false)
  {
    hide BuildName, ImageRef, PushRef, Endpoint, Ask, PhaseOf;
    if BuildBlocked(c.world, RepoOf(id, source), o).None? {
      var repo := c.world.repositories[RepoOf(id, source)];
      var ref := GitRef(repo, source);
      AskApplies(c, id, BuildName(eff.namespace, eff.app, ref), BuildRequest(c.world, repo, source, eff, ref), o.buildNews);
    }
  }

  lemma RestoreApplies(c: Cluster, id: Id, spec: AppSpec, restore: Restore, eff: Effective, image: string, st: AppStatus, o: Oracle)
    ensures AppliedBy(c.history, RestoreGate(c, id, spec, restore, eff, image, st, o).cluster.history, id, false)
  {
    hide RestoreName, DumpKey, Ask, PhaseOf, ConnectionOf, JobSecretsPresent, DumpReady;
    var conn := ConnectionOf(c.world, id.namespace, spec.databases, eff.namespace);
    if conn.Some? {
      var sanitize := if restore.sanitize.Some? then restore.sanitize.value else eff.class_ != "production";
      var p := RestoreParameters(conn.value, DumpKey(Id(id.namespace, restore.snapshot)), FirstOf(image, eff.platformImage), sanitize);
      AskApplies(c, id, RestoreOf(restore, eff), p, o.jobNews);
    }
  }

  lemma GatedApplies(c: Cluster, id: Id, spec: AppSpec, eff: Effective, st: AppStatus, o: Oracle)
    ensures AppliedBy(c.history, Gated(c, id, spec, eff, st, o).cluster.history, id, true)
  {
    hide BuildGate, RestoreGate, DeliverSecrets, ResolveOidc, DeployedValues, Names.ArgoAppName;
    if spec.source.Some? { BuildApplies(c, id, spec.source.value, eff, st, o); }
    var built := if spec.source.Some? then BuildGate(c, id, spec.source.value, eff, st, o) else Staged(c, st, Open("", None));
    if built.gate.Open? {
      var restored := built;
      if spec.restoreFrom.Some? {
        RestoreApplies(built.cluster, id, spec, spec.restoreFrom.value, eff, built.gate.image, built.status, o);
        restored := RestoreGate(built.cluster, id, spec, spec.restoreFrom.value, eff, built.gate.image, built.status, o);
      }
      DeployApplied(restored.cluster, id, spec, eff, built.gate.image, built.gate.build, restored.status, o);
    }
  }

  lemma DeployApplied(c: Cluster, id: Id, spec: AppSpec, eff: Effective, image: string, build: Option<Parameters>, st: AppStatus,
                      o: Oracle)
    ensures AppliedBy(c.history, DeployStage(c, id, spec, eff, image, build, st, o).cluster.history, id, true)
  {
    assert DeliverSecrets(c, eff, o.openbao).history == c.history;
    hide DeliverSecrets, ResolveOidc, DeployedValues, Names.ArgoAppName;
  }

  lemma PassApplies(c: Cluster, id: Id, o: Oracle)
    requires id in c.apps
    ensures AppliedBy(c.history, ApplicationPass(c, id, o).history, id, true)
  {
    hide Gated, Resolve;
    var r, app := Resolve(c.world, id, c.apps[id].spec), c.apps[id];
    if r.Resolved? {
      var eff := r.effective;
      GatedApplies(c.(namespaces := c.namespaces + {eff.namespace}), id, app.spec, eff, app.status.(namespace := eff.namespace), o);
    }
  }

  lemma SnapshotApplies(c: Cluster, snapshot: Id, o: Oracle)
    ensures SnapshotPass(c, snapshot, o).apps == c.apps
    ensures AppliedBy(c.history, SnapshotPass(c, snapshot, o).history, snapshot, false)
  {
    hide ConnectionOf, JobSecretsPresent, DumpWith;
    if snapshot in c.snapshots {
      var appId := Id(snapshot.namespace, c.snapshots[snapshot].application);
      if appId in c.apps {
        var conn := ConnectionOf(c.world, snapshot.namespace, c.apps[appId].spec.databases, c.apps[appId].status.namespace);
        if conn.Some? { DumpApplies(c, snapshot, conn.value, c.snapshots[snapshot].status, o); }
      }
    }
  }

  lemma DumpApplies(c: Cluster, snapshot: Id, conn: Connection, st: SnapshotStatus, o: Oracle)
    requires snapshot in c.snapshots
    ensures DumpWith(c, snapshot, conn, st, o).apps == c.apps
    ensures AppliedBy(c.history, DumpWith(c, snapshot, conn, st, o).history, snapshot, false)
  {
    var p := DumpParameters(conn, DumpKey(snapshot));
    AskOnly(c, snapshot, DumpName(snapshot), p, o.jobNews);
    AskApplies(c, snapshot, DumpName(snapshot), p, o.jobNews);
    hide Ask, DumpName, DumpKey;
  }

  // ---- as long as the Secret is missing ----

  /** The database that the application restores into has no credential Secret yet. */
  predicate SecretMissing(w: World, id: Id, spec: AppSpec) {
    Resolve(w, id, spec).Resolved? ==>
      var conn := ConnectionOf(w, id.namespace, spec.databases, Resolve(w, id, spec).effective.namespace);
      conn.Some? ==> conn.value.secret !in w.credentialSecrets
  }

  /** The application is kept with its `restoreFrom`, and the Secret is missing whenever it is reconciled. */
  predicate Waits(c: Cluster, steps: seq<Step>, id: Id, spec: AppSpec)
    decreases |steps|
  {
    steps != [] ==>
      && ((steps[0].PutApp? || steps[0].DeleteApp?) ==> steps[0].id != id)
      && (steps[0].ReconcileApp? && steps[0].id == id ==> SecretMissing(c.world, id, spec))
      && Waits(Take(c, steps[0]), steps[1..], id, spec)
  }

  predicate Unrestored(c: Cluster, id: Id, spec: AppSpec) {
    id in c.apps && c.apps[id].spec == spec && spec.restoreFrom.Some? && !Recorded(spec, c.apps[id].status)
  }

  lemma RestoreHeld(c: Cluster, id: Id, spec: AppSpec, eff: Effective, image: string, st: AppStatus, o: Oracle)
    requires spec.restoreFrom.Some? && !Recorded(spec, st)
    requires var conn := ConnectionOf(c.world, id.namespace, spec.databases, eff.namespace);
             conn.Some? ==> conn.value.secret !in c.world.credentialSecrets
    ensures var s := RestoreGate(c, id, spec, spec.restoreFrom.value, eff, image, st, o);
            s.gate.Held? && s.cluster == c && s.status == st
  {
    hide ConnectionOf, RestoreWith, DumpReady;
  }

  lemma HeldPass(c: Cluster, id: Id, spec: AppSpec, o: Oracle)
    requires Unrestored(c, id, spec) && SecretMissing(c.world, id, spec)
    ensures var c' := ApplicationPass(c, id, o);
            Unrestored(c', id, spec) && NoApplyBy(c.history, c'.history, id)
  {
    hide Resolve, ConnectionOf, BuildGate, RestoreGate, DeployStage;
    var r, st := Resolve(c.world, id, spec), c.apps[id].status;
    if r.Resolved? {
      var eff := r.effective;
      var c1, st1 := c.(namespaces := c.namespaces + {eff.namespace}), st.(namespace := eff.namespace);
      BuildHoldsBack(c1, id, spec, eff, st1, o);
      var built := if spec.source.Some? then BuildGate(c1, id, spec.source.value, eff, st1, o) else Staged(c1, st1, Open("", None));
      if spec.source.Some? { BuildApplies(c1, id, spec.source.value, eff, st1, o); }
      if built.gate.Open? { RestoreHeld(built.cluster, id, spec, eff, built.gate.image, built.status, o); }
    }
  }

  lemma HeldStep(c: Cluster, s: Step, id: Id, spec: AppSpec)
    requires Unrestored(c, id, spec) && ((s.PutApp? || s.DeleteApp?) ==> s.id != id)
    requires s.ReconcileApp? && s.id == id ==> SecretMissing(c.world, id, spec)
    ensures Unrestored(Take(c, s), id, spec) && NoApplyBy(c.history, Take(c, s).history, id)
  {
    hide SecretMissing, ApplicationPass, SnapshotPass;
    match s
    case ReconcileApp(other, o) =>
      if other == id {
        HeldPass(c, id, spec, o);
      } else if other in c.apps {
        PassApplies(c, other, o);
        OtherPassTouches(c, other, o);
      } else {
        ReconcilesOther(c, other, o);
      }
    case ReconcileSnapshot(snapshot, o) => SnapshotApplies(c, snapshot, o);
    case _ =>
  }

  /** Over every run, as long as the Secret is missing whenever the application is reconciled, the application is neither
      restored nor applied: since its chart is what delivers the Secret, it waits for itself. */
  lemma {:induction false} FreshRestoreWaits(c: Cluster, steps: seq<Step>, id: Id, spec: AppSpec)
    requires Unrestored(c, id, spec) && Waits(c, steps, id, spec)
    ensures Unrestored(Run(c, steps), id, spec) && NoApplyBy(c.history, Run(c, steps).history, id)
    decreases |steps|
  {
    hide Take, Unrestored, SecretMissing;
    if steps != [] {
      HeldStep(c, steps[0], id, spec);
      FreshRestoreWaits(Take(c, steps[0]), steps[1..], id, spec);
    }
  }

  /** With everything else in place, the next pass submits the restore exactly when the Secret is there. */
  lemma RestoreProceedsIff(c: Cluster, id: Id, spec: AppSpec, eff: Effective, o: Oracle)
    requires Unrestored(c, id, spec) && Resolve(c.world, id, spec) == Resolved(eff) && eff.host != "" && Answering(o)
    requires spec.source.Some? ==>
               BuildBlocked(c.world, RepoOf(id, spec.source.value), ALL_WELL) == None && BuildDone(c, id, spec, eff)
    requires spec.restoreFrom.value.snapshot != "" && DumpReady(c, Id(id.namespace, spec.restoreFrom.value.snapshot))
    requires ConnectionOf(c.world, id.namespace, spec.databases, eff.namespace).Some? && c.world.config.s3Ready
    requires RestoreOf(spec.restoreFrom.value, eff) !in c.workflows
    ensures RestoreOf(spec.restoreFrom.value, eff) in ApplicationPass(c, id, o).workflows
            <==> ConnectionOf(c.world, id.namespace, spec.databases, eff.namespace).value.secret in c.world.credentialSecrets
  {
    hide Resolve, ConnectionOf, BuildGate, RestoreGate, DeployStage, BuildName, RestoreName, BuildBlocked, ImageOf, RefOf;
    var c1, st := Entered(c, eff), EnteredStatus(c, id, eff);
    var conn := ConnectionOf(c.world, id.namespace, spec.databases, eff.namespace);
    if spec.source.Some? { BuildMoves(c1, id, spec, eff, st, o); }
    var built := if spec.source.Some? then BuildGate(c1, id, spec.source.value, eff, st, o) else Staged(c1, st, Open("", None));
    if conn.value.secret in c.world.credentialSecrets {
      RestoreMoves(built.cluster, id, spec, eff, built.gate.image, built.status, o);
      DeployKeepsWorkflows(RestoreGate(built.cluster, id, spec, spec.restoreFrom.value, eff, built.gate.image, built.status, o).cluster,
                           id, spec, eff, built.gate.image, built.gate.build,
                           RestoreGate(built.cluster, id, spec, spec.restoreFrom.value, eff, built.gate.image, built.status, o).status, o);
    } else {
      RestoreHeld(built.cluster, id, spec, eff, built.gate.image, built.status, o);
    }
  }

  lemma DeployKeepsWorkflows(c: Cluster, id: Id, spec: AppSpec, eff: Effective, image: string, build: Option<Parameters>,
                             st: AppStatus, o: Oracle)
    ensures DeployStage(c, id, spec, eff, image, build, st, o).cluster.workflows == c.workflows
  {
    hide ResolveOidc, DeployedValues, DeliveredSecrets, Names.ArgoAppName;
  }
}
