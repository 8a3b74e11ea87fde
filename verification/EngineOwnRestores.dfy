/** Exactly when an application that restores is applied after its own restore of its own snapshot: when the names of the
    restore workflows tell the applications and the snapshots apart. */
module EngineOwnRestores {
  import opened Text
  import opened Wrappers
  import opened EngineModel
  import opened EngineSafety
  import opened EngineRestores
  import opened EngineBuilds
  import Names

  const RESTORES: Trust := Trust(false, true, false)

  /** Over every run whose passes ask for these restores only, an application that restores is applied only after a restore
      of that snapshot that it submitted itself. */
  ghost predicate AlwaysRestored(uses: set<RestoreUse>) {
    forall w, steps :: UsesOfRun(Fresh(w), steps).restores <= uses ==> HistoryOk(Run(Fresh(w), steps).history, RESTORES)
  }

  /** Some pass can ask for the restore, with a database to restore into. */
  ghost predicate Restorable(u: RestoreUse) {
    exists w, spec :: Restores(w, spec, u)
  }

  predicate Restores(w: World, spec: AppSpec, u: RestoreUse) {
    && u in RestoreOfPass(w, u.app, spec) && u.snapshot != "" && u.app.name != ""
    && ConnectionOf(w, u.app.namespace, spec.databases, u.namespace).Some?
  }

  // ---- everything in place ----

  /** Nothing stands in the way of dumping the application's database and restoring it. */
  predicate InPlace(w: World, spec: AppSpec, u: RestoreUse, eff: Effective) {
    && spec.source.None? && spec.restoreFrom.Some? && spec.restoreFrom.value.snapshot == u.snapshot
    && u.snapshot != "" && u.app.name != ""
    && Resolve(w, u.app, spec) == Resolved(eff) && eff.host != "" && eff.namespace == u.namespace && eff.app == u.app.name
    && ConnectionOf(w, u.app.namespace, spec.databases, u.namespace).Some?
    && w.config.s3Ready
    && Id(FirstOf(u.namespace, u.app.namespace), spec.databases[0].secret) in w.credentialSecrets
    && Id(u.app.namespace, spec.databases[0].secret) in w.credentialSecrets
  }

  function Equipped(w: World, spec: AppSpec, u: RestoreUse): World
    requires spec.databases != []
  {
    var secret := spec.databases[0].secret;
    w.(config := w.config.(s3Ready := true),
       credentialSecrets := w.credentialSecrets + {Id(FirstOf(u.namespace, u.app.namespace), secret), Id(u.app.namespace, secret)})
  }

  lemma EquippedResolves(w: World, spec: AppSpec, u: RestoreUse, id: Id, spec': AppSpec)
    requires spec.databases != []
    ensures Resolve(Equipped(w, spec, u), id, spec') == Resolve(w, id, spec')
  {
  }

  lemma CanBeInPlace(w: World, spec: AppSpec, u: RestoreUse) returns (w': World, spec': AppSpec, eff: Effective)
    requires Restores(w, spec, u)
    ensures InPlace(w', spec', u, eff)
  {
    spec', w' := spec.(source := None), Equipped(w, spec, u);
    SameReferences(w, u.app, spec, spec');
    EquippedResolves(w, spec, u, u.app, spec');
    ResolvedApp(w, u.app, spec);
    hide Resolve;
    eff := Resolve(w, u.app, spec).effective;
  }

  lemma RestoreIsOne(w: World, spec: AppSpec, u: RestoreUse, eff: Effective)
    requires InPlace(w, spec, u, eff)
    ensures RestoreOfPass(w, u.app, spec) == {u}
  {
    hide Resolve, ConnectionOf;
  }

  // ---- the run of one restore ----

  /** From `h` to `h'` nothing but this restore has been submitted, if at all. */
  ghost predicate OnlyRestore(h: seq<Event>, h': seq<Event>, u: RestoreUse, submits: bool) {
    && h <= h'
    && forall i :: |h| <= i < |h'| && h'[i].Submitted? && h'[i].parameters.RestoreParameters? ==>
         submits && h'[i].owner == u.app && h'[i].parameters.key == u.Key()
  }

  function SnapshotOf(u: RestoreUse): Id { Id(u.app.namespace, u.snapshot) }

  /** A workflow that is submitted if absent, and reports success at once. */
  lemma PromptAsk(c: Cluster, owner: Id, name: string, p: Parameters)
    ensures var c', q := Ask(c, owner, name, p, Some(Succeeded)), if name in c.workflows then c.workflows[name].parameters else p;
            && c'.(workflows := c.workflows, history := c.history) == c && PhaseOf(c', name) == Succeeded
            && c'.workflows.Keys == c.workflows.Keys + {name}
            && c'.history == c.history + (if name in c.workflows then [] else [Submitted(owner, name, p)]) + [Finished(name, q)]
  {
  }

  lemma AskedOnly(c: Cluster, owner: Id, name: string, p: Parameters, u: RestoreUse)
    requires p.RestoreParameters? ==> owner == u.app && p.key == u.Key()
    ensures OnlyRestore(c.history, Ask(c, owner, name, p, Some(Succeeded)).history, u, p.RestoreParameters? && name !in c.workflows)
  {
    PromptAsk(c, owner, name, p);
    hide Ask, DumpKey;
  }

  lemma PromptDump(c: Cluster, id: Id, conn: Connection, st: SnapshotStatus, u: RestoreUse)
    requires id in c.snapshots
    ensures var c' := DumpWith(c, id, conn, st, PROMPT);
            && c'.apps == c.apps && c'.world == c.world && c'.snapshots.Keys == c.snapshots.Keys && DumpReady(c', id)
            && c'.workflows.Keys == c.workflows.Keys + {DumpName(id)}
            && OnlyRestore(c.history, c'.history, u, false)
  {
    hide DumpName, DumpKey, Ask, OnlyRestore, PhaseOf;
    var p := DumpParameters(conn, DumpKey(id));
    PromptAsk(c, id, DumpName(id), p);
    AskedOnly(c, id, DumpName(id), p, u);
  }

  lemma PromptSnapshot(c: Cluster, spec: AppSpec, u: RestoreUse, eff: Effective)
    requires InPlace(c.world, spec, u, eff) && c.apps == map[u.app := App(spec, 1, NO_STATUS)]
    requires c.snapshots == map[SnapshotOf(u) := Snapshot(u.app.name, NO_SNAPSHOT_STATUS)]
    ensures var c' := SnapshotPass(c, SnapshotOf(u), PROMPT);
            && c'.apps == c.apps && c'.world == c.world && c'.snapshots.Keys == c.snapshots.Keys && DumpReady(c', SnapshotOf(u))
            && c'.workflows.Keys == c.workflows.Keys + {DumpName(SnapshotOf(u))}
            && OnlyRestore(c.history, c'.history, u, false)
  {
    var conn := ConnectionOf(c.world, u.app.namespace, spec.databases, "");
    assert JobReady(c, SnapshotOf(u), conn.value) by { hide Resolve; }
    hide JobReady, InPlace, DumpWith, DumpReady, OnlyRestore, DumpName, SnapshotPass;
    PassIsDump(c, SnapshotOf(u), conn.value);
    PromptDump(c, SnapshotOf(u), conn.value, NO_SNAPSHOT_STATUS, u);
  }

  lemma PassIsDump(c: Cluster, id: Id, conn: Connection)
    requires JobReady(c, id, conn)
    ensures SnapshotPass(c, id, PROMPT) == DumpWith(c, id, conn, c.snapshots[id].status, PROMPT)
  {
    hide DumpWith, ConnectionOf, JobSecretsPresent;
  }

  lemma PromptRestore(c: Cluster, conn: Connection, restore: Restore, eff: Effective, st: AppStatus, u: RestoreUse)
    requires eff.namespace == u.namespace && eff.app == u.app.name && restore.snapshot == u.snapshot
    ensures var s := RestoreWith(c, u.app, conn, restore, eff, "", st, PROMPT);
            && s.gate.Open? && s.cluster.(workflows := c.workflows, history := c.history) == c
            && s.cluster.workflows.Keys == c.workflows.Keys + {u.Name()}
            && OnlyRestore(c.history, s.cluster.history, u, u.Name() !in c.workflows)
  {
    hide RestoreName, DumpKey, Ask, OnlyRestore, PhaseOf;
    var sanitize := if restore.sanitize.Some? then restore.sanitize.value else eff.class_ != "production";
    var p := RestoreParameters(conn, DumpKey(SnapshotOf(u)), eff.platformImage, sanitize);
    PromptAsk(c, u.app, u.Name(), p);
    AskedOnly(c, u.app, u.Name(), p, u);
  }

  lemma GatedRestores(c: Cluster, spec: AppSpec, u: RestoreUse, eff: Effective, st: AppStatus)
    requires InPlace(c.world, spec, u, eff) && DumpReady(c, SnapshotOf(u)) && st.restoredFrom == ""
    ensures var s := Gated(c, u.app, spec, eff, st, PROMPT);
            && s.cluster.apps == c.apps && s.cluster.snapshots == c.snapshots && s.cluster.world == c.world
            && s.cluster.workflows.Keys == c.workflows.Keys + {u.Name()}
            && Applies(c.history, s.cluster.history, spec, u, u.Name() !in c.workflows)
  {
    var conn := GateIsRestore(c, spec, u, eff, st);
    hide InPlace, RestoreGate, RestoreWith, DeployStage, DumpReady, OnlyRestore;
    PromptRestore(c, conn, spec.restoreFrom.value, eff, st, u);
    var restored := RestoreGate(c, u.app, spec, spec.restoreFrom.value, eff, "", st, PROMPT);
    DeployApplies(restored.cluster, u.app, spec, eff, "", None, restored.status);
  }

  lemma GateIsRestore(c: Cluster, spec: AppSpec, u: RestoreUse, eff: Effective, st: AppStatus) returns (conn: Connection)
    requires InPlace(c.world, spec, u, eff) && DumpReady(c, SnapshotOf(u)) && st.restoredFrom == ""
    ensures spec.source.None? && spec.restoreFrom.Some? && spec.restoreFrom.value.snapshot == u.snapshot
    ensures eff.namespace == u.namespace && eff.app == u.app.name
    ensures RestoreGate(c, u.app, spec, spec.restoreFrom.value, eff, "", st, PROMPT)
            == RestoreWith(c, u.app, conn, spec.restoreFrom.value, eff, "", st, PROMPT)
  {
    var found := ConnectionOf(c.world, u.app.namespace, spec.databases, eff.namespace);
    conn := found.value;
    assert JobSecretsPresent(c.world, conn);
    hide Resolve, RestoreWith, DumpReady, ConnectionOf;
  }

  /** Nothing but this restore has been submitted, and then the application was applied. */
  ghost predicate Applies(h: seq<Event>, h': seq<Event>, spec: AppSpec, u: RestoreUse, submits: bool) {
    && h < h' && OnlyRestore(h, h'[..|h'| - 1], u, submits)
    && h'[|h'| - 1] == Applied(u.app, u.namespace, spec, None)
  }

  lemma RestorePass(c: Cluster, spec: AppSpec, u: RestoreUse, eff: Effective)
    requires InPlace(c.world, spec, u, eff) && c.apps == map[u.app := App(spec, 1, NO_STATUS)] && DumpReady(c, SnapshotOf(u))
    ensures var c' := ApplicationPass(c, u.app, PROMPT);
            && c'.apps.Keys == c.apps.Keys && c'.snapshots == c.snapshots
            && c'.workflows.Keys == c.workflows.Keys + {u.Name()}
            && Applies(c.history, c'.history, spec, u, u.Name() !in c.workflows)
  {
    hide Resolve, Gated, ApplicationPass, Finish, Applies, DumpReady, ConnectionOf;
    var c1 := c.(namespaces := c.namespaces + {eff.namespace});
    StillReady(c, c1, SnapshotOf(u));
    PassIsGated(c, u.app, spec, eff, PROMPT);
    GatedRestores(c1, spec, u, eff, NO_STATUS.(namespace := eff.namespace));
  }

  lemma StillReady(c: Cluster, c': Cluster, id: Id)
    requires DumpReady(c, id) && c'.snapshots == c.snapshots
    ensures DumpReady(c', id)
  {
  }

  lemma Snapshots(c: Cluster, id: Id, application: string)
    requires c.snapshots == map[]
    ensures Take(c, PutSnapshot(id, application)) == c.(snapshots := map[id := Snapshot(application, NO_SNAPSHOT_STATUS)])
    ensures UsesOf(c, PutSnapshot(id, application)).restores == {}
    ensures forall c1 :: Take(c1, ReconcileSnapshot(id, PROMPT)) == SnapshotPass(c1, id, PROMPT)
                         && UsesOf(c1, ReconcileSnapshot(id, PROMPT)) == Uses({}, {}, {})
  {
    hide SnapshotPass;
  }

  lemma SnapshotGoes(c: Cluster, id: Id)
    requires c.snapshots.Keys == {id}
    ensures Take(c, DeleteSnapshot(id, false)) == c.(snapshots := map[])
    ensures UsesOf(c, DeleteSnapshot(id, false)) == Uses({}, {}, {})
  {
    assert c.snapshots - {id} == map[];
  }

  /** From a cluster without applications and snapshots: an application and a snapshot of it are created and dumped. */
  lemma DumpFirst(c: Cluster, w: World, spec: AppSpec, u: RestoreUse, eff: Effective) returns (s: seq<Step>)
    requires c.apps == map[] && c.snapshots == map[] && InPlace(w, spec, u, eff)
    ensures UsesOfRun(c, s).restores == {}
    ensures var c' := Run(c, s);
            && c'.world == w && c'.apps == map[u.app := App(spec, 1, NO_STATUS)] && c'.snapshots.Keys == {SnapshotOf(u)}
            && DumpReady(c', SnapshotOf(u)) && (u.Name() in c'.workflows <==> u.Name() in c.workflows)
            && c.workflows.Keys <= c'.workflows.Keys && OnlyRestore(c.history, c'.history, u, false)
  {
    hide Take, UsesOf, SnapshotPass, Run, UsesOfRun, InPlace, OnlyRestore, DumpReady;
    var x, y, z := Surroundings(w), PutApp(u.app, spec), PutSnapshot(SnapshotOf(u), u.app.name);
    var d := ReconcileSnapshot(SnapshotOf(u), PROMPT);
    var c1 := c.(world := w);
    var c2 := c1.(apps := c1.apps[u.app := App(spec, 1, NO_STATUS)]);
    var c3 := c2.(snapshots := map[SnapshotOf(u) := Snapshot(u.app.name, NO_SNAPSHOT_STATUS)]);
    FourSteps(c, x, y, z, d);
    s := [x] + [y] + [z] + [d];
    Arrives(c, w, u.app, spec);
    Snapshots(c2, SnapshotOf(u), u.app.name);
    assert c2.apps == map[u.app := App(spec, 1, NO_STATUS)];
    PromptSnapshot(c3, spec, u, eff);
    DumpNameKind(SnapshotOf(u));
    RestoreNameKind(u.namespace, u.app.name, u.snapshot);
    assert u.Name() != DumpName(SnapshotOf(u));
  }

  lemma ThreeSteps(c: Cluster, x: Step, y: Step, z: Step)
    ensures var c1 := Take(c, x);
            var c2 := Take(c1, y);
            var s := [x] + [y] + [z];
            && Run(c, s) == Take(c2, z)
            && UsesOfRun(c, s) == Union(Union(Union(Uses({}, {}, {}), UsesOf(c, x)), UsesOf(c1, y)), UsesOf(c2, z))
  {
    hide Take, UsesOf;
    Nothing(c);
    assert [] + [x] == [x];
    OneMore(c, [], x);
    OneMore(c, [x], y);
    OneMore(c, [x] + [y], z);
  }

  /** Then it restores and is applied, and both are deleted again. */
  lemma RestoreAndGo(c: Cluster, spec: AppSpec, u: RestoreUse, eff: Effective) returns (s: seq<Step>)
    requires InPlace(c.world, spec, u, eff) && c.apps == map[u.app := App(spec, 1, NO_STATUS)]
    requires c.snapshots.Keys == {SnapshotOf(u)} && DumpReady(c, SnapshotOf(u))
    ensures UsesOfRun(c, s).restores <= {u}
    ensures var c' := Run(c, s);
            && c'.apps == map[] && c'.snapshots == map[] && c'.workflows.Keys == c.workflows.Keys + {u.Name()}
            && Applies(c.history, c'.history, spec, u, u.Name() !in c.workflows)
  {
    hide Take, UsesOf, ApplicationPass, BuildOfPass, RestoreOfPass, Run, UsesOfRun, InPlace, Applies, DumpReady;
    var x, y := ReconcileApp(u.app, PROMPT), DeleteSnapshot(SnapshotOf(u), false);
    var z := DeleteApp(u.app, false, false, false);
    ThreeSteps(c, x, y, z);
    s := [x] + [y] + [z];
    Reconciles(c, u.app, PROMPT);
    RestorePass(c, spec, u, eff);
    RestoreIsOne(c.world, spec, u, eff);
    var c1 := ApplicationPass(c, u.app, PROMPT);
    SnapshotGoes(c1, SnapshotOf(u));
    Leaves(c1.(snapshots := map[]), u.app);
  }

  lemma WholeRestore(c: Cluster, w: World, spec: AppSpec, u: RestoreUse, eff: Effective) returns (s: seq<Step>)
    requires c.apps == map[] && c.snapshots == map[] && InPlace(w, spec, u, eff)
    ensures UsesOfRun(c, s).restores <= {u}
    ensures var c' := Run(c, s);
            && c'.apps == map[] && c'.snapshots == map[] && u.Name() in c'.workflows && c.workflows.Keys <= c'.workflows.Keys
            && Applies(c.history, c'.history, spec, u, u.Name() !in c.workflows)
  {
    hide Run, UsesOfRun, InPlace, DumpReady;
    var front := DumpFirst(c, w, spec, u, eff);
    var back := RestoreAndGo(Run(c, front), spec, u, eff);
    Joined(c, front, back);
    s := front + back;
    AppliesAfter(c.history, Run(c, front).history, Run(c, s).history, spec, u, u.Name() !in c.workflows);
  }

  lemma AppliesAfter(h: seq<Event>, h1: seq<Event>, h2: seq<Event>, spec: AppSpec, u: RestoreUse, submits: bool)
    requires OnlyRestore(h, h1, u, false) && Applies(h1, h2, spec, u, submits)
    ensures Applies(h, h2, spec, u, submits)
  {
  }

  // ---- exactly when ----

  lemma KeysTell(u: RestoreUse, v: RestoreUse)
    requires u.app == v.app && u.Key() == v.Key()
    ensures u.snapshot == v.snapshot
  {
    var a, b := u.snapshot + ".pgdump", v.snapshot + ".pgdump";
    assert u.Key() == ("snapshots/" + u.app.namespace + "/") + a && v.Key() == ("snapshots/" + u.app.namespace + "/") + b;
    var n := |"snapshots/" + u.app.namespace + "/"|;
    assert a == u.Key()[n..] == v.Key()[n..] == b;
    assert u.snapshot == a[..|a| - 7] == b[..|b| - 7] == v.snapshot;
  }

  /** The second of two restores of one name is never submitted, and its application is applied all the same. */
  lemma SharedRestoreUnjustified(h: seq<Event>, h': seq<Event>, u: RestoreUse, v: RestoreUse, specU: AppSpec, specV: AppSpec)
    requires Applies([], h, specU, u, true) && Applies(h, h', specV, v, false)
    requires u.app != v.app || u.snapshot != v.snapshot
    requires specV.restoreFrom.Some? && specV.restoreFrom.value.snapshot == v.snapshot
    ensures !HistoryOk(h', RESTORES)
  {
    var before, last := h'[..|h'| - 1], h'[|h'| - 1];
    assert h' == before + [last];
    OnlyTheFirst(h, h', u, v, specU, specV);
    if u.app == v.app && u.Key() == v.Key() { KeysTell(u, v); }
    forall workflow, p ensures !RestoreRan(before, v.app, v.Key(), workflow, p) {}
    assert !RestoredBy(before, v.app, v.Key());
    assert !Justified(before, last, RESTORES);
    LastUnjustified(before, last, RESTORES);
  }

  lemma OnlyTheFirst(h: seq<Event>, h': seq<Event>, u: RestoreUse, v: RestoreUse, specU: AppSpec, specV: AppSpec)
    requires Applies([], h, specU, u, true) && Applies(h, h', specV, v, false)
    ensures forall e :: e in h'[..|h'| - 1] && e.Submitted? && e.parameters.RestoreParameters? ==>
              e.owner == u.app && e.parameters.key == u.Key()
  {
    var before := h'[..|h'| - 1];
    assert before[|h| - 1] == h[|h| - 1];
    forall i | 0 <= i < |before| && before[i].Submitted? && before[i].parameters.RestoreParameters?
      ensures before[i].owner == u.app && before[i].parameters.key == u.Key()
    {
      if i < |h| - 1 { assert before[i] == h[..|h| - 1][i]; }
    }
  }

  lemma SharedRestoreBreaks(u: RestoreUse, v: RestoreUse, uses: set<RestoreUse>)
    requires Restorable(u) && Restorable(v) && u in uses && v in uses
    requires u.Name() == v.Name() && (u.app != v.app || u.snapshot != v.snapshot)
    ensures !AlwaysRestored(uses)
  {
    hide Run, UsesOfRun, Restores, InPlace, RestoreName, HistoryOk, AlwaysRestored, Applies, DumpKey;
    var wu0, specU0 :| Restores(wu0, specU0, u);
    var wv0, specV0 :| Restores(wv0, specV0, v);
    var wu, specU, effU := CanBeInPlace(wu0, specU0, u);
    var wv, specV, effV := CanBeInPlace(wv0, specV0, v);
    RestoresFromIt(wv, specV, v, effV);
    var c := Fresh(wu);
    var s := WholeRestore(c, wu, specU, u, effU);
    var t := WholeRestore(Run(c, s), wv, specV, v, effV);
    Joined(c, s, t);
    SharedRestoreUnjustified(Run(c, s).history, Run(c, s + t).history, u, v, specU, specV);
    BreaksRestored(wu, s + t, uses);
  }

  lemma RestoresFromIt(w: World, spec: AppSpec, u: RestoreUse, eff: Effective)
    requires InPlace(w, spec, u, eff)
    ensures spec.restoreFrom.Some? && spec.restoreFrom.value.snapshot == u.snapshot
  {
  }

  lemma BreaksRestored(w: World, steps: seq<Step>, uses: set<RestoreUse>)
    requires UsesOfRun(Fresh(w), steps).restores <= uses && !HistoryOk(Run(Fresh(w), steps).history, RESTORES)
    ensures !AlwaysRestored(uses)
  {
  }

  lemma TellingRestores(w: World, steps: seq<Step>, uses: set<RestoreUse>)
    requires RestoresTell(uses) && UsesOfRun(Fresh(w), steps).restores <= uses
    ensures HistoryOk(Run(Fresh(w), steps).history, RESTORES)
  {
    hide Run, HistoryOk, UsesOfRun, BuildName, RestoreName, Distinct;
    GateSafety(w, steps);
    LessTrust(Run(Fresh(w), steps).history, TrustIn(UsesOfRun(Fresh(w), steps)), RESTORES);
  }

  /** Over all runs, every application that restores is applied after its own restore of its own snapshot, if and only if
      the name of a restore workflow tells the application and the snapshot. */
  lemma RestoredItselfIff(uses: set<RestoreUse>)
    requires forall u :: u in uses ==> Restorable(u)
    ensures AlwaysRestored(uses) <==> RestoresTell(uses)
  {
    hide Run, UsesOfRun, HistoryOk, Restorable, RestoreName, TrustIn, DumpKey;
    if RestoresTell(uses) {
      forall w, steps | UsesOfRun(Fresh(w), steps).restores <= uses ensures HistoryOk(Run(Fresh(w), steps).history, RESTORES) {
        TellingRestores(w, steps, uses);
      }
    } else {
      var u, v :| u in uses && v in uses && u.Name() == v.Name() && (u.app != v.app || u.snapshot != v.snapshot);
      SharedRestoreBreaks(u, v, uses);
    }
  }

  /** Ordinary names do collide: application `x` restoring `y-z` and application `x-y` restoring `z`, wherever they can. */
  lemma RestoreNamesCollide(namespace: string, inside: string)
    requires var u, v := RestoreUse(namespace, Id(inside, "x"), "y-z"), RestoreUse(namespace, Id(inside, "x-y"), "z");
             Restorable(u) && Restorable(v)
    ensures !AlwaysRestored({RestoreUse(namespace, Id(inside, "x"), "y-z"), RestoreUse(namespace, Id(inside, "x-y"), "z")})
  {
    var u, v := RestoreUse(namespace, Id(inside, "x"), "y-z"), RestoreUse(namespace, Id(inside, "x-y"), "z");
    SameRestoreName(namespace);
    hide Restorable, RestoreName, AlwaysRestored;
    SharedRestoreBreaks(u, v, {u, v});
  }

  lemma SameRestoreName(namespace: string)
    ensures RestoreName(namespace, "x", "y-z") == RestoreName(namespace, "x-y", "z")
  {
    var front := "restore-" + namespace + "-";
    assert front + "x" + "-" + "y-z" == front + ("x" + "-" + "y-z") && front + "x-y" + "-" + "z" == front + ("x-y" + "-" + "z");
    assert "x" + "-" + "y-z" == "x-y" + "-" + "z";
  }
}
