/** Restores: at most once per recorded snapshot, and exactly when they can read a dump that was never written. */
module EngineRestores {
  import opened Text
  import opened Wrappers
  import opened EngineModel
  import opened EngineSafety
  import Names

  // ---- once recorded, never again ----

  /** From `h` to `h'` workflows were submitted by `owner` only, restores only if `restores`. */
  ghost predicate OnlyBy(h: seq<Event>, h': seq<Event>, owner: Id, restores: bool) {
    && h <= h'
    && forall i :: |h| <= i < |h'| && h'[i].Submitted? ==>
                     h'[i].owner == owner && (h'[i].parameters.RestoreParameters? ==> restores)
  }

  /** The stages touch no application object. */
  ghost predicate StageBy(c: Cluster, s: Staged, owner: Id, restores: bool) {
    s.cluster.apps == c.apps && OnlyBy(c.history, s.cluster.history, owner, restores)
  }

  lemma SubmitBy(c: Cluster, owner: Id, name: string, p: Parameters)
    ensures Submit(c, owner, name, p).apps == c.apps
    ensures OnlyBy(c.history, Submit(c, owner, name, p).history, owner, p.RestoreParameters?)
  {
  }

  lemma HearBy(c: Cluster, h: seq<Event>, owner: Id, name: string, news: Option<Phase>, restores: bool)
    requires OnlyBy(h, c.history, owner, restores)
    ensures Hear(c, name, news).apps == c.apps
    ensures OnlyBy(h, Hear(c, name, news).history, owner, restores)
  {
  }

  lemma AskBy(c: Cluster, owner: Id, name: string, p: Parameters, news: Option<Phase>)
    ensures Ask(c, owner, name, p, news).apps == c.apps
    ensures OnlyBy(c.history, Ask(c, owner, name, p, news).history, owner, p.RestoreParameters?)
  {
    SubmitBy(c, owner, name, p);
    HearBy(Submit(c, owner, name, p), c.history, owner, name, news, p.RestoreParameters?);
  }

  lemma BuildWithBy(c: Cluster, id: Id, repo: Repository, source: Source, ref: string, eff: Effective, st: AppStatus, o: Oracle)
    ensures var s := BuildWith(c, id, repo, source, ref, eff, st, o);
            StageBy(c, s, id, false) && s.status.restoredFrom == st.restoredFrom
  {
    AskBy(c, id, BuildName(eff.namespace, eff.app, ref), BuildRequest(c.world, repo, source, eff, ref), o.buildNews);
  }

  lemma BuildGateBy(c: Cluster, id: Id, source: Source, eff: Effective, st: AppStatus, o: Oracle)
    ensures var s := BuildGate(c, id, source, eff, st, o);
            StageBy(c, s, id, false) && s.status.restoredFrom == st.restoredFrom
  {
    var repoId := Id(id.namespace, source.repository);
    if BuildBlocked(c.world, repoId, o).None? {
      var repo := c.world.repositories[repoId];
      BuildWithBy(c, id, repo, source, GitRef(repo, source), eff, st, o);
    }
  }

  lemma RestoreWithBy(c: Cluster, id: Id, conn: Connection, restore: Restore, eff: Effective, image: string, st: AppStatus, o: Oracle)
    ensures StageBy(c, RestoreWith(c, id, conn, restore, eff, image, st, o), id, true)
  {
    var wf := RestoreName(eff.namespace, eff.app, restore.snapshot);
    var sanitize := if restore.sanitize.Some? then restore.sanitize.value else eff.class_ != "production";
    var key := DumpKey(Id(id.namespace, restore.snapshot));
    AskBy(c, id, wf, RestoreParameters(conn, key, FirstOf(image, eff.platformImage), sanitize), o.jobNews);
  }

  lemma RestoreGateBy(c: Cluster, id: Id, spec: AppSpec, restore: Restore, eff: Effective, image: string, st: AppStatus, o: Oracle)
    ensures var s := RestoreGate(c, id, spec, restore, eff, image, st, o);
            && StageBy(c, s, id, st.restoredFrom != restore.snapshot)
            && (st.restoredFrom == restore.snapshot ==> s.status.restoredFrom == st.restoredFrom)
  {
    var conn := ConnectionOf(c.world, id.namespace, spec.databases, eff.namespace);
    if conn.Some? && st.restoredFrom != restore.snapshot {
      RestoreWithBy(c, id, conn.value, restore, eff, image, st, o);
    }
  }

  lemma DeployBy(c: Cluster, id: Id, spec: AppSpec, eff: Effective, image: string, build: Option<Parameters>,
                 st: AppStatus, o: Oracle)
    ensures var s := DeployStage(c, id, spec, eff, image, build, st, o);
            StageBy(c, s, id, false) && s.status.restoredFrom == st.restoredFrom
  {
    assert DeliverSecrets(c, eff, o.openbao).history == c.history;
  }

  /** The application restores from this snapshot, and its status says that this has been done. */
  ghost predicate Settled(app: App, snapshot: string) {
    && app.spec.restoreFrom.Some? && app.spec.restoreFrom.value.snapshot == snapshot
    && app.status.restoredFrom == snapshot
  }

  lemma GatedBy(c: Cluster, id: Id, spec: AppSpec, eff: Effective, st: AppStatus, o: Oracle, snapshot: string)
    ensures var s := Gated(c, id, spec, eff, st, o);
            && StageBy(c, s, id, true)
            && (Settled(App(spec, 0, st), snapshot) ==> StageBy(c, s, id, false) && s.status.restoredFrom == snapshot)
  {
    if spec.source.Some? { BuildGateBy(c, id, spec.source.value, eff, st, o); }
    var built := if spec.source.Some? then BuildGate(c, id, spec.source.value, eff, st, o) else Staged(c, st, Open("", None));
    if built.gate.Open? {
      AfterBuildBy(c, built, id, spec, eff, o, snapshot);
    }
  }

  lemma AfterBuildBy(c: Cluster, built: Staged, id: Id, spec: AppSpec, eff: Effective, o: Oracle, snapshot: string)
    requires StageBy(c, built, id, false) && built.gate.Open?
    ensures var image := built.gate.image;
            var restored := if spec.restoreFrom.Some?
                            then RestoreGate(built.cluster, id, spec, spec.restoreFrom.value, eff, image, built.status, o)
                            else built;
            var deployed := DeployStage(restored.cluster, id, spec, eff, image, built.gate.build, restored.status, o);
            && StageBy(c, restored, id, true) && StageBy(c, deployed, id, true)
            && (Settled(App(spec, 0, built.status), snapshot) ==>
                  && StageBy(c, restored, id, false) && restored.status.restoredFrom == snapshot
                  && StageBy(c, deployed, id, false) && deployed.status.restoredFrom == snapshot)
  {
    var restored := built;
    if spec.restoreFrom.Some? {
      RestoreGateBy(built.cluster, id, spec, spec.restoreFrom.value, eff, built.gate.image, built.status, o);
      restored := RestoreGate(built.cluster, id, spec, spec.restoreFrom.value, eff, built.gate.image, built.status, o);
    }
    DeployBy(restored.cluster, id, spec, eff, built.gate.image, built.gate.build, restored.status, o);
  }

  lemma PassStagesBy(c: Cluster, id: Id, app: App, o: Oracle, snapshot: string)
    ensures var s := PassStages(c, id, app, o);
            && StageBy(c, s, id, true)
            && (Settled(app, snapshot) ==> StageBy(c, s, id, false) && s.status.restoredFrom == snapshot)
  {
    var resolved := Resolve(c.world, id, app.spec);
    if resolved.Resolved? {
      var eff := resolved.effective;
      var c1 := c.(namespaces := c.namespaces + {eff.namespace});
      GatedBy(c1, id, app.spec, eff, app.status.(namespace := eff.namespace), o, snapshot);
    }
  }

  lemma PassBy(c: Cluster, id: Id, o: Oracle, snapshot: string)
    requires id in c.apps
    ensures var c' := ApplicationPass(c, id, o);
            && OnlyBy(c.history, c'.history, id, true)
            && c'.apps.Keys == c.apps.Keys && (forall other :: other in c.apps && other != id ==> c'.apps[other] == c.apps[other])
            && (Settled(c.apps[id], snapshot) ==>
                  OnlyBy(c.history, c'.history, id, false) && Settled(c'.apps[id], snapshot))
  {
    PassStagesBy(c, id, c.apps[id], o, snapshot);
  }

  /** The step leaves the application's `restoreFrom` alone. */
  ghost predicate KeepsRestore(s: Step, id: Id, snapshot: string) {
    && (s.DeleteApp? ==> s.id != id)
    && (s.PutApp? && s.id == id ==> s.spec.restoreFrom.Some? && s.spec.restoreFrom.value.snapshot == snapshot)
  }

  /** No restore was submitted by `id` between the two histories. */
  ghost predicate NoRestoreBy(h: seq<Event>, h': seq<Event>, id: Id) {
    && h <= h'
    && forall i :: |h| <= i < |h'| && h'[i].Submitted? && h'[i].owner == id ==> !h'[i].parameters.RestoreParameters?
  }

  lemma AfterDumpBy(c: Cluster, id: Id, wf: string, st: SnapshotStatus)
    requires id in c.snapshots
    ensures AfterDump(c, id, wf, st).apps == c.apps && AfterDump(c, id, wf, st).history == c.history
  {
  }

  lemma DumpWithBy(c: Cluster, id: Id, conn: Connection, st: SnapshotStatus, o: Oracle)
    requires id in c.snapshots
    ensures DumpWith(c, id, conn, st, o).apps == c.apps
    ensures OnlyBy(c.history, DumpWith(c, id, conn, st, o).history, id, false)
  {
    var wf, p := DumpName(id), DumpParameters(conn, DumpKey(id));
    AskBy(c, id, wf, p, o.jobNews);
    AfterDumpBy(Ask(c, id, wf, p, o.jobNews), id, wf,
                st.(workflow := wf, location := "s3://" + c.world.config.s3Bucket + "/" + DumpKey(id)));
  }

  lemma SnapshotPassBy(c: Cluster, id: Id, o: Oracle)
    ensures SnapshotPass(c, id, o).apps == c.apps
    ensures OnlyBy(c.history, SnapshotPass(c, id, o).history, id, false)
  {
    hide DumpWith, ConnectionOf, JobSecretsPresent;
    if id in c.snapshots {
      var appId := Id(id.namespace, c.snapshots[id].application);
      if appId in c.apps {
        var conn := ConnectionOf(c.world, id.namespace, c.apps[appId].spec.databases, c.apps[appId].status.namespace);
        if conn.Some? { DumpWithBy(c, id, conn.value, c.snapshots[id].status, o); }
      }
    }
  }

  lemma StepBy(c: Cluster, s: Step, id: Id, snapshot: string)
    requires id in c.apps && Settled(c.apps[id], snapshot) && KeepsRestore(s, id, snapshot)
    ensures var c' := Take(c, s);
            id in c'.apps && Settled(c'.apps[id], snapshot) && NoRestoreBy(c.history, c'.history, id)
  {
    hide PassStages, SnapshotPass;
    match s
    case ReconcileApp(other, o) =>
      if other in c.apps {
        PassBy(c, other, o, snapshot);
      }
    case ReconcileSnapshot(other, o) => SnapshotPassBy(c, other, o);
    case _ =>
  }

  /** Once `restoredFrom` records the snapshot and `restoreFrom` keeps naming it, no run submits another restore for the
      application, whatever happens to the finished workflow. */
  lemma {:induction false} RestoredOnce(c: Cluster, steps: seq<Step>, id: Id, snapshot: string)
    requires id in c.apps && Settled(c.apps[id], snapshot)
    requires forall s :: s in steps ==> KeepsRestore(s, id, snapshot)
    ensures NoRestoreBy(c.history, Run(c, steps).history, id)
    decreases |steps|
  {
    if steps != [] {
      StepBy(c, steps[0], id, snapshot);
      RestoredOnce(Take(c, steps[0]), steps[1..], id, snapshot);
    }
  }

  // ---- exactly when every restore reads a written dump ----

  /** Object names as the cluster allows them. */
  predicate ObjectId(id: Id) {
    id.name != "" && SlashFree(id.namespace) && SlashFree(id.name)
  }

  /** The snapshots that a run may create. */
  ghost predicate Creates(steps: seq<Step>, ids: set<Id>) {
    forall s :: s in steps && s.PutSnapshot? ==> s.id in ids
  }

  const DUMPS: Trust := Trust(false, false, true)

  /** Over every run that creates only these snapshots, a restore is submitted only for a key that a successful dump wrote. */
  ghost predicate AlwaysTraced(ids: set<Id>) {
    forall w, steps :: Creates(steps, ids) ==> HistoryOk(Run(Fresh(w), steps).history, DUMPS)
  }

  lemma {:induction false} DumpsOfRun(c: Cluster, steps: seq<Step>, ids: set<Id>)
    requires Creates(steps, ids)
    ensures UsesOfRun(c, steps).dumps <= ids
    decreases |steps|
  {
    hide Take, BuildOfPass, RestoreOfPass;
    if steps != [] {
      assert steps[0] in steps && forall s :: s in steps[1..] ==> s in steps;
      DumpsOfRun(Take(c, steps[0]), steps[1..], ids);
    }
  }

  /** When no two snapshots share a workflow name, every restore reads a key that a successful dump wrote. */
  lemma RestoresReadDumps(w: World, steps: seq<Step>, ids: set<Id>)
    requires Creates(steps, ids) && Distinct(ids)
    ensures HistoryOk(Run(Fresh(w), steps).history, DUMPS)
  {
    hide Run, HistoryOk, UsesOfRun;
    DumpsOfRun(Fresh(w), steps, ids);
    GateSafety(w, steps);
    LessTrust(Run(Fresh(w), steps).history, TrustIn(UsesOfRun(Fresh(w), steps)), DUMPS);
  }

  lemma DumpKeysInjective(a: Id, b: Id)
    requires ObjectId(a) && ObjectId(b) && DumpKey(a) == DumpKey(b)
    ensures a == b
  {
    var u, v := "/" + (a.name + ".pgdump"), "/" + (b.name + ".pgdump");
    KeyParts(a);
    KeyParts(b);
    assert a.namespace + u == b.namespace + v;
    SlashSplit(a.namespace, u, b.namespace, v);
    assert a.name + ".pgdump" == u[1..] == v[1..] == b.name + ".pgdump";
    assert |a.name| == |b.name|;
    assert a.name == (a.name + ".pgdump")[..|a.name|] == b.name;
  }

  lemma KeyParts(a: Id)
    ensures |"snapshots/"| <= |DumpKey(a)| && DumpKey(a)[|"snapshots/"|..] == a.namespace + ("/" + (a.name + ".pgdump"))
  {
    assert DumpKey(a) == "snapshots/" + (a.namespace + ("/" + (a.name + ".pgdump")));
  }

  lemma {:induction false} RunSnoc(c: Cluster, steps: seq<Step>, s: Step)
    ensures Run(c, steps + [s]) == Take(Run(c, steps), s)
    decreases |steps|
  {
    if steps == [] {
      assert (steps + [s])[1..] == [];
    } else {
      assert (steps + [s])[1..] == steps[1..] + [s];
      RunSnoc(Take(c, steps[0]), steps[1..], s);
    }
  }

  /** The connection a snapshot's job would use, with its Secrets in place. */
  ghost predicate JobReady(c: Cluster, id: Id, conn: Connection) {
    && id in c.snapshots && c.snapshots[id].application != ""
    && var appId := Id(id.namespace, c.snapshots[id].application);
    && appId in c.apps
    && ConnectionOf(c.world, id.namespace, c.apps[appId].spec.databases, c.apps[appId].status.namespace) == Some(conn)
    && JobSecretsPresent(c.world, conn)
  }

  lemma SnapshotSubmits(c: Cluster, id: Id, conn: Connection)
    requires JobReady(c, id, conn) && DumpName(id) !in c.workflows
    ensures var c', p := SnapshotPass(c, id, ALL_WELL), DumpParameters(conn, DumpKey(id));
            && c'.history == c.history + [Submitted(id, DumpName(id), p)]
            && c'.workflows == c.workflows[DumpName(id) := Workflow(p, Unreported)]
            && c'.apps == c.apps && c'.world == c.world
            && c'.snapshots.Keys == c.snapshots.Keys
            && forall s :: s in c.snapshots ==> c'.snapshots[s].application == c.snapshots[s].application
  {
    DumpSubmits(c, id, conn, c.snapshots[id].status);
  }

  lemma DumpSubmits(c: Cluster, id: Id, conn: Connection, st: SnapshotStatus)
    requires id in c.snapshots && DumpName(id) !in c.workflows
    ensures var c', p := DumpWith(c, id, conn, st, ALL_WELL), DumpParameters(conn, DumpKey(id));
            && c'.history == c.history + [Submitted(id, DumpName(id), p)]
            && c'.workflows == c.workflows[DumpName(id) := Workflow(p, Unreported)]
            && c'.apps == c.apps && c'.world == c.world
            && c'.snapshots.Keys == c.snapshots.Keys
            && forall s :: s in c.snapshots ==> c'.snapshots[s].application == c.snapshots[s].application
  {
  }

  lemma SnapshotCompletes(c: Cluster, id: Id, conn: Connection)
    requires JobReady(c, id, conn) && PhaseOf(c, DumpName(id)) == Succeeded
    ensures var c' := SnapshotPass(c, id, ALL_WELL);
            && c'.history == c.history && c'.workflows == c.workflows && c'.apps == c.apps && c'.world == c.world
            && DumpReady(c', id)
  {
    DumpCompletes(c, id, conn, c.snapshots[id].status);
  }

  lemma DumpCompletes(c: Cluster, id: Id, conn: Connection, st: SnapshotStatus)
    requires id in c.snapshots && PhaseOf(c, DumpName(id)) == Succeeded
    ensures var c' := DumpWith(c, id, conn, st, ALL_WELL);
            && c'.history == c.history && c'.workflows == c.workflows && c'.apps == c.apps && c'.world == c.world
            && DumpReady(c', id)
  {
  }

  /** An application without a source that restores from `restore`, with everything it needs in place. */
  ghost predicate RestoreReady(c: Cluster, id: Id, restore: Restore, eff: Effective, conn: Connection) {
    && id in c.apps && c.apps[id].spec.source.None? && c.apps[id].spec.restoreFrom == Some(restore)
    && restore.snapshot != "" && c.apps[id].status.restoredFrom == ""
    && Resolve(c.world, id, c.apps[id].spec) == Resolved(eff) && eff.host != ""
    && ConnectionOf(c.world, id.namespace, c.apps[id].spec.databases, eff.namespace) == Some(conn)
    && JobSecretsPresent(c.world, conn)
    && DumpReady(c, Id(id.namespace, restore.snapshot))
    && RestoreName(eff.namespace, eff.app, restore.snapshot) !in c.workflows
  }

  lemma RestoreSubmits(c: Cluster, id: Id, restore: Restore, eff: Effective, conn: Connection)
    requires RestoreReady(c, id, restore, eff, conn)
    ensures var c' := ApplicationPass(c, id, ALL_WELL);
            && |c'.history| == |c.history| + 1 && c.history <= c'.history
            && var e := c'.history[|c.history|];
            && e.Submitted? && e.parameters.RestoreParameters?
            && e.parameters.key == DumpKey(Id(id.namespace, restore.snapshot))
  {
    var st := c.apps[id].status.(namespace := eff.namespace);
    var c1 := c.(namespaces := c.namespaces + {eff.namespace});
    RestoreWithSubmits(c1, id, conn, restore, eff, st);
    GateSubmits(c1, id, c.apps[id].spec, restore, eff, conn, st);
    assert PassStages(c, id, c.apps[id], ALL_WELL) == RestoreWith(c1, id, conn, restore, eff, "", st, ALL_WELL);
  }

  lemma RestoreWithSubmits(c: Cluster, id: Id, conn: Connection, restore: Restore, eff: Effective, st: AppStatus)
    requires RestoreName(eff.namespace, eff.app, restore.snapshot) !in c.workflows
    ensures var s := RestoreWith(c, id, conn, restore, eff, "", st, ALL_WELL);
            && s.gate.Held?
            && |s.cluster.history| == |c.history| + 1 && c.history <= s.cluster.history
            && var e := s.cluster.history[|c.history|];
            && e.Submitted? && e.parameters.RestoreParameters?
            && e.parameters.key == DumpKey(Id(id.namespace, restore.snapshot))
  {
  }

  lemma GateSubmits(c: Cluster, id: Id, spec: AppSpec, restore: Restore, eff: Effective, conn: Connection, st: AppStatus)
    requires spec.source.None? && spec.restoreFrom == Some(restore) && restore.snapshot != "" && st.restoredFrom == ""
    requires ConnectionOf(c.world, id.namespace, spec.databases, eff.namespace) == Some(conn)
    requires JobSecretsPresent(c.world, conn) && DumpReady(c, Id(id.namespace, restore.snapshot))
    requires RestoreWith(c, id, conn, restore, eff, "", st, ALL_WELL).gate.Held?
    ensures Gated(c, id, spec, eff, st, ALL_WELL) == RestoreWith(c, id, conn, restore, eff, "", st, ALL_WELL)
  {
    assert RestoreGate(c, id, spec, restore, eff, "", st, ALL_WELL) == RestoreWith(c, id, conn, restore, eff, "", st, ALL_WELL);
  }

  // The run that breaks the property: two snapshots share a workflow name, the second one finds the first one's
  // finished dump, calls itself completed, and an application restores from it.

  function CollidingSpec(snapshot: string): AppSpec {
    AppSpec("e", "t", "", "h", None, Some(Restore(snapshot, None)), [DatabaseRef("d", "d", "p")], [], "")
  }

  const EMPTY_CONFIG: Config := Config("", "", "", "", "", "", "", "", true, "", "")

  function CollidingWorld(a: Id, b: Id, ns: string): World {
    World(map[Id(b.namespace, "e") := EnvironmentSpec("c", "")], map[Id(b.namespace, "c") := ClientSpec("", "")], [],
          map["t" := ""], map[], map[], map[Id(a.namespace, "d") := "h", Id(b.namespace, "d") := "h"], map[],
          {Id(a.namespace, "p"), Id(b.namespace, "p"), Id(ns, "p")}, map[], EMPTY_CONFIG)
  }

  /** Two applications and two snapshots of them. */
  lemma SetUp(w: World, a: Id, b: Id) returns (s: seq<Step>)
    ensures Creates(s, {a, b})
    ensures var c := Run(Fresh(w), s);
            && c.world == w && c.workflows == map[] && c.history == []
            && a in c.snapshots && b in c.snapshots
            && c.snapshots[a].application == "x" && c.snapshots[b].application == "x"
            && (forall ns :: ns == a.namespace || ns == b.namespace ==>
                  && Id(ns, "x") in c.apps && c.apps[Id(ns, "x")].spec == CollidingSpec(b.name)
                  && c.apps[Id(ns, "x")].status == NO_STATUS)
  {
    s := [PutApp(Id(a.namespace, "x"), CollidingSpec(b.name)), PutApp(Id(b.namespace, "x"), CollidingSpec(b.name)),
          PutSnapshot(a, "x"), PutSnapshot(b, "x")];
    var c1 := Take(Fresh(w), s[0]);
    var c2 := Take(c1, s[1]);
    var c3 := Take(c2, s[2]);
    assert s[1..][0] == s[1] && s[1..][1..][0] == s[2] && s[1..][1..][1..][0] == s[3];
    assert s[1..][1..][1..][1..] == [];
    assert Run(Fresh(w), s) == Run(c1, s[1..]) == Run(c2, s[1..][1..]) == Run(c3, s[1..][1..][1..]);
    assert Run(c3, s[1..][1..][1..]) == Run(Take(c3, s[3]), []);
  }

  lemma CollisionResolves(a: Id, b: Id, ns: string)
    ensures var w, id := CollidingWorld(a, b, ns), Id(b.namespace, "x");
            var r := Resolve(w, id, CollidingSpec(b.name));
            && r.Resolved? && r.effective.host != "" && r.effective.namespace == Names.NamespaceName("c", "e")
            && r.effective.app == "x"
  {
    assert !IsSpace('h') && !IsSpace('c');
    assert Strip("h", WHITESPACE) == "h" && Strip("c", WHITESPACE) == "c";
  }

  /** The first snapshot's dump is submitted and succeeds. */
  lemma FirstDumpSucceeds(c: Cluster, a: Id, conn: Connection)
    requires JobReady(c, a, conn) && DumpName(a) !in c.workflows && c.history == []
    ensures var wf, p := DumpName(a), DumpParameters(conn, DumpKey(a));
            var c' := Report(SnapshotPass(c, a, ALL_WELL), wf, Succeeded);
            && c'.history == [Submitted(a, wf, p), Finished(wf, p)]
            && c'.workflows == c.workflows[wf := Workflow(p, Succeeded)]
            && c'.apps == c.apps && c'.world == c.world && c'.snapshots.Keys == c.snapshots.Keys
            && forall s :: s in c.snapshots ==> c'.snapshots[s].application == c.snapshots[s].application
  {
    SnapshotSubmits(c, a, conn);
  }

  /** The second snapshot takes the finished dump of the first for its own. */
  lemma CollidingDumps(c: Cluster, a: Id, b: Id, connA: Connection, connB: Connection)
    requires DumpName(a) == DumpName(b) && c.workflows == map[] && c.history == []
    requires JobReady(c, a, connA) && JobReady(c, b, connB)
    ensures var wf, p := DumpName(a), DumpParameters(connA, DumpKey(a));
            var c' := SnapshotPass(Report(SnapshotPass(c, a, ALL_WELL), wf, Succeeded), b, ALL_WELL);
            && c'.history == [Submitted(a, wf, p), Finished(wf, p)] && c'.workflows.Keys == {wf}
            && c'.apps == c.apps && c'.world == c.world && DumpReady(c', b)
  {
    FirstDumpSucceeds(c, a, connA);
    var c2 := Report(SnapshotPass(c, a, ALL_WELL), DumpName(a), Succeeded);
    SnapshotCompletes(c2, b, connB);
  }

  lemma {:induction false} RunJoin(c: Cluster, front: seq<Step>, back: seq<Step>)
    ensures Run(c, front + back) == Run(Run(c, front), back)
    decreases |front|
  {
    if front == [] {
      assert front + back == back;
    } else {
      assert (front + back)[1..] == front[1..] + back;
      RunJoin(Take(c, front[0]), front[1..], back);
    }
  }

  lemma CollidingDumpRun(c: Cluster, a: Id, b: Id, connA: Connection, connB: Connection) returns (s: seq<Step>)
    requires DumpName(a) == DumpName(b) && c.workflows == map[] && c.history == []
    requires JobReady(c, a, connA) && JobReady(c, b, connB)
    ensures Creates(s, {})
    ensures var wf, p, c' := DumpName(a), DumpParameters(connA, DumpKey(a)), Run(c, s);
            && c'.history == [Submitted(a, wf, p), Finished(wf, p)] && c'.workflows.Keys == {wf}
            && c'.apps == c.apps && c'.world == c.world && DumpReady(c', b)
  {
    hide DumpReady, JobReady, ConnectionOf, DumpKey, SnapshotPass, ApplicationPass, Report, DumpName;
    var x, y, z := ReconcileSnapshot(a, ALL_WELL), WorkflowReports(DumpName(a), Succeeded), ReconcileSnapshot(b, ALL_WELL);
    CollidingDumps(c, a, b, connA, connB);
    s := [x] + [y] + [z];
    RunThree(c, x, y, z);
  }

  lemma RunThree(c: Cluster, x: Step, y: Step, z: Step)
    ensures Run(c, [x] + [y] + [z]) == Take(Take(Take(c, x), y), z)
  {
    hide Take;
    assert [] + [x] == [x];
    RunSnoc(c, [], x);
    RunSnoc(c, [x], y);
    RunSnoc(c, [x] + [y], z);
  }

  lemma CollidingJobs(c: Cluster, a: Id, b: Id, s: Id, ns: string)
    requires c.world == CollidingWorld(a, b, ns) && s in {a, b} && s in c.snapshots && c.snapshots[s].application == "x"
    requires Id(s.namespace, "x") in c.apps && c.apps[Id(s.namespace, "x")].spec == CollidingSpec(b.name)
    requires c.apps[Id(s.namespace, "x")].status == NO_STATUS
    ensures JobReady(c, s, Connection("h", "d", Id(s.namespace, "p")))
  {
  }

  /** The run up to the second snapshot calling itself completed. */
  lemma CollidingRunCompletes(w: World, a: Id, b: Id) returns (s: seq<Step>)
    requires DumpName(a) == DumpName(b) && w == CollidingWorld(a, b, Names.NamespaceName("c", "e"))
    ensures Creates(s, {a, b})
    ensures var wf, p := DumpName(a), DumpParameters(Connection("h", "d", Id(a.namespace, "p")), DumpKey(a));
            var c, app := Run(Fresh(w), s), Id(b.namespace, "x");
            && c.world == w && c.history == [Submitted(a, wf, p), Finished(wf, p)] && c.workflows.Keys == {wf}
            && app in c.apps && c.apps[app].spec == CollidingSpec(b.name) && c.apps[app].status == NO_STATUS
            && DumpReady(c, b)
  {
    var s0 := SetUp(w, a, b);
    var c0 := Run(Fresh(w), s0);
    CollidingJobs(c0, a, b, a, Names.NamespaceName("c", "e"));
    CollidingJobs(c0, a, b, b, Names.NamespaceName("c", "e"));
    var connA, connB := Connection("h", "d", Id(a.namespace, "p")), Connection("h", "d", Id(b.namespace, "p"));
    var s1 := CollidingDumpRun(c0, a, b, connA, connB);
    RunJoin(Fresh(w), s0, s1);
    s := s0 + s1;
  }

  /** After it, an application in the second snapshot's namespace is ready to restore from it. */
  lemma CollisionReady(a: Id, b: Id, c: Cluster) returns (eff: Effective, conn: Connection)
    requires b.name != "" && c.world == CollidingWorld(a, b, Names.NamespaceName("c", "e"))
    requires Id(b.namespace, "x") in c.apps
    requires c.apps[Id(b.namespace, "x")].spec == CollidingSpec(b.name)
    requires c.apps[Id(b.namespace, "x")].status == NO_STATUS
    requires DumpReady(c, b) && c.workflows.Keys == {DumpName(a)}
    ensures RestoreReady(c, Id(b.namespace, "x"), Restore(b.name, None), eff, conn)
  {
    hide Resolve, Names.NamespaceName;
    var ns, app := Names.NamespaceName("c", "e"), Id(b.namespace, "x");
    CollisionResolves(a, b, ns);
    eff := Resolve(c.world, app, CollidingSpec(b.name)).effective;
    conn := Connection("h", "d", Id(FirstOf(ns, b.namespace), "p"));
    DumpNameKind(a);
    RestoreNameKind(eff.namespace, eff.app, b.name);
  }

  lemma ReadyRestores(c: Cluster, id: Id, restore: Restore, eff: Effective, conn: Connection)
    requires RestoreReady(c, id, restore, eff, conn)
    ensures RestoresFrom(c, ReconcileApp(id, ALL_WELL), DumpKey(Id(id.namespace, restore.snapshot)))
  {
    hide ApplicationPass, RestoreReady, DumpKey;
    RestoreSubmits(c, id, restore, eff, conn);
  }

  /** The step submits a restore of this key. */
  ghost predicate RestoresFrom(c: Cluster, last: Step, key: string) {
    var h := Take(c, last).history;
    && c.history < h && h[|c.history|].Submitted?
    && h[|c.history|].parameters.RestoreParameters? && h[|c.history|].parameters.key == key
  }

  /** A history that goes on with a restore of a key nobody has dumped. */
  lemma UntracedRestore(h: seq<Event>, h': seq<Event>, key: string)
    requires h < h' && !Dumped(h, key)
    requires h'[|h|].Submitted? && h'[|h|].parameters.RestoreParameters? && h'[|h|].parameters.key == key
    ensures !HistoryOk(h', DUMPS)
  {
    assert h'[..|h|] == h;
    assert !Justified(h'[..|h|], h'[|h|], DUMPS);
  }

  lemma OneDump(owner: Id, wf: string, p: Parameters, key: string)
    requires p.DumpParameters? && p.key != key
    ensures !Dumped([Submitted(owner, wf, p), Finished(wf, p)], key)
  {
  }

  lemma LastStepBreaks(w: World, steps: seq<Step>, last: Step, key: string, ids: set<Id>)
    requires Creates(steps, ids) && !last.PutSnapshot?
    requires var c := Run(Fresh(w), steps); RestoresFrom(c, last, key) && !Dumped(c.history, key)
    ensures !AlwaysTraced(ids)
  {
    hide Take;
    RunSnoc(Fresh(w), steps, last);
    UntracedRestore(Run(Fresh(w), steps).history, Run(Fresh(w), steps + [last]).history, key);
    assert Creates(steps + [last], ids);
  }

  lemma CollisionBreaks(a: Id, b: Id)
    requires ObjectId(a) && ObjectId(b) && a != b && DumpName(a) == DumpName(b)
    ensures !AlwaysTraced({a, b})
  {
    var w := CollidingWorld(a, b, Names.NamespaceName("c", "e"));
    var steps := CollidingRunCompletes(w, a, b);
    var eff, conn := CollisionReady(a, b, Run(Fresh(w), steps));
    ReadyRestores(Run(Fresh(w), steps), Id(b.namespace, "x"), Restore(b.name, None), eff, conn);
    assert DumpKey(a) != DumpKey(b) by {
      if DumpKey(a) == DumpKey(b) { DumpKeysInjective(a, b); }
    }
    OneDump(a, DumpName(a), DumpParameters(Connection("h", "d", Id(a.namespace, "p")), DumpKey(a)), DumpKey(b));
    LastStepBreaks(w, steps, ReconcileApp(Id(b.namespace, "x"), ALL_WELL), DumpKey(b), {a, b});
  }

  lemma TracedBelow(ids: set<Id>, some: set<Id>)
    requires AlwaysTraced(ids) && some <= ids
    ensures AlwaysTraced(some)
  {
    forall w, steps | Creates(steps, some) ensures HistoryOk(Run(Fresh(w), steps).history, DUMPS) {
      assert Creates(steps, ids);
    }
  }

  /** The restore protocol is safe for a set of snapshots exactly when no two of them share a workflow name. */
  lemma RestoresTracedIff(ids: set<Id>)
    requires forall s :: s in ids ==> ObjectId(s)
    ensures AlwaysTraced(ids) <==> Distinct(ids)
  {
    if Distinct(ids) {
      forall w, steps | Creates(steps, ids) ensures HistoryOk(Run(Fresh(w), steps).history, DUMPS) {
        RestoresReadDumps(w, steps, ids);
      }
    } else {
      var a, b :| a in ids && b in ids && DumpName(a) == DumpName(b) && a != b;
      CollisionBreaks(a, b);
      if AlwaysTraced(ids) { TracedBelow(ids, {a, b}); }
    }
  }

  /** Ordinary names do collide: snapshot `b-c` in namespace `a` and snapshot `c` in namespace `a-b`. */
  lemma SnapshotNamesCollide()
    ensures !AlwaysTraced({Id("a", "b-c"), Id("a-b", "c")})
  {
    var a, b := Id("a", "b-c"), Id("a-b", "c");
    assert "snapshot-" + "a" + "-" + "b-c" == "snapshot-" + "a-b" + "-" + "c";
    CollisionBreaks(a, b);
  }
}
