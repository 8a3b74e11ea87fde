/** Gate safety over every run: nothing is deployed before its build and its restore have succeeded, and a restore only
    ever reads a dump that was written. How much a success says depends on the names of the workflows: two requests of one
    name share one workflow. */
module EngineSafety {
  import opened Wrappers
  import opened EngineModel

  // ---- what the history must show before an event ----

  /** A workflow of this name has succeeded. */
  ghost predicate Ended(h: seq<Event>, workflow: string) {
    exists e :: e in h && e.Finished? && e.workflow == workflow
  }

  /** Some restore workflow of this application and snapshot has succeeded. */
  ghost predicate Restored(h: seq<Event>, app: string, snapshot: string) {
    exists namespace: string :: Ended(h, RestoreName(namespace, app, snapshot))
  }

  /** A restore of this key that the application itself submitted has succeeded. */
  ghost predicate RestoredBy(h: seq<Event>, id: Id, key: string) {
    exists workflow, p :: RestoreRan(h, id, key, workflow, p)
  }

  predicate RestoreRan(h: seq<Event>, id: Id, key: string, workflow: string, p: Parameters) {
    && Submitted(id, workflow, p) in h && Finished(workflow, p) in h
    && p.RestoreParameters? && p.key == key
  }

  /** Some dump that writes this object key has succeeded. */
  ghost predicate Dumped(h: seq<Event>, key: string) {
    exists e :: e in h && e.Finished? && e.parameters.DumpParameters? && e.parameters.key == key
  }

  ghost predicate WasSubmitted(h: seq<Event>, workflow: string, parameters: Parameters) {
    exists e :: e in h && e.Submitted? && e.workflow == workflow && e.parameters == parameters
  }

  /** What the name of a finished workflow can be trusted to say: that this very build was made, that this application
      restored this key, that this snapshot was dumped. */
  datatype Trust = Trust(builds: bool, restores: bool, dumps: bool)

  /** The build that an application with a source is applied with: a workflow of its name has succeeded, and, when builds
      can be trusted, exactly the build that was asked for. */
  ghost predicate BuildJustified(h: seq<Event>, namespace: string, app: string, source: Source, build: Option<Parameters>,
                                 trusted: bool) {
    && build.Some? && build.value.BuildParameters?
    && (source.ref != "" ==> build.value.ref == source.ref)
    && Ended(h, BuildName(namespace, app, build.value.ref))
    && (trusted ==> Finished(BuildName(namespace, app, build.value.ref), build.value) in h)
  }

  ghost predicate RestoreJustified(h: seq<Event>, id: Id, snapshot: string, trusted: bool) {
    && Restored(h, id.name, snapshot)
    && (trusted ==> RestoredBy(h, id, DumpKey(Id(id.namespace, snapshot))))
  }

  /** An application with a source is applied only after its build, one that restores only after its restore; nothing
      finishes that was not submitted; and, when dumps can be trusted, a restore is submitted only for a written dump. */
  ghost predicate Justified(before: seq<Event>, e: Event, t: Trust) {
    match e
    case Applied(id, namespace, spec, build) =>
      && (spec.source.Some? ==> BuildJustified(before, namespace, id.name, spec.source.value, build, t.builds))
      && (spec.restoreFrom.Some? ==> RestoreJustified(before, id, spec.restoreFrom.value.snapshot, t.restores))
    case Submitted(_, _, parameters) =>
      t.dumps && parameters.RestoreParameters? ==> Dumped(before, parameters.key)
    case Finished(workflow, parameters) => WasSubmitted(before, workflow, parameters)
  }

  ghost predicate HistoryOk(h: seq<Event>, t: Trust) {
    forall i :: 0 <= i < |h| ==> Justified(h[..i], h[i], t)
  }

  lemma HistoryGrowsOk(h: seq<Event>, e: Event, t: Trust)
    requires HistoryOk(h, t) && Justified(h, e, t)
    ensures HistoryOk(h + [e], t)
  {
    forall i | 0 <= i < |h + [e]| ensures Justified((h + [e])[..i], (h + [e])[i], t) {
      assert (h + [e])[..i] == h[..i];
      assert h[..|h|] == h;
    }
  }

  /** A history that is fine when more is trusted is fine when less is. */
  lemma LessTrust(h: seq<Event>, t: Trust, u: Trust)
    requires HistoryOk(h, t) && (u.builds ==> t.builds) && (u.restores ==> t.restores) && (u.dumps ==> t.dumps)
    ensures HistoryOk(h, u)
  {
    forall i | 0 <= i < |h| ensures Justified(h[..i], h[i], u) {
      assert Justified(h[..i], h[i], t);
    }
  }

  // ---- the uses of workflow names ----

  /** An application in its effective namespace, and what its pass asks a build workflow for. */
  datatype BuildUse = BuildUse(namespace: string, app: string, request: Parameters) {
    function Name(): string
      requires request.BuildParameters?
    {
      BuildName(namespace, app, request.ref)
    }
  }

  /** An application, the effective namespace it is in, and the snapshot that it restores. */
  datatype RestoreUse = RestoreUse(namespace: string, app: Id, snapshot: string) {
    function Name(): string { RestoreName(namespace, app.name, snapshot) }

    function Key(): string { DumpKey(Id(app.namespace, snapshot)) }
  }

  /** The snapshots, builds and restores of a run. */
  datatype Uses = Uses(dumps: set<Id>, builds: set<BuildUse>, restores: set<RestoreUse>)

  /** No two of these snapshots share a workflow name. */
  ghost predicate Distinct(ids: set<Id>) {
    forall s, t :: s in ids && t in ids && DumpName(s) == DumpName(t) ==> s == t
  }

  /** A build workflow's name tells its request. */
  ghost predicate BuildsTell(uses: set<BuildUse>) {
    forall u, v :: u in uses && v in uses && u.request.BuildParameters? && v.request.BuildParameters? && u.Name() == v.Name()
                   ==> u.request == v.request
  }

  /** A restore workflow's name tells the application and the snapshot. */
  ghost predicate RestoresTell(uses: set<RestoreUse>) {
    forall u, v :: u in uses && v in uses && u.Name() == v.Name() ==> u.app == v.app && u.snapshot == v.snapshot
  }

  ghost function TrustIn(uses: Uses): Trust {
    Trust(BuildsTell(uses.builds), RestoresTell(uses.restores), Distinct(uses.dumps))
  }

  /** The build that a pass over the application asks for, if it gets as far. */
  function BuildOfPass(w: World, id: Id, spec: AppSpec): set<BuildUse> {
    var resolved := Resolve(w, id, spec);
    if resolved.Unresolved? || resolved.effective.host == "" || spec.source.None? then {}
    else
      var source, eff := spec.source.value, resolved.effective;
      var repoId := Id(id.namespace, source.repository);
      if BuildBlocked(w, repoId, ALL_WELL).Some? then {}
      else {BuildUse(eff.namespace, id.name, BuildRequest(w, w.repositories[repoId], source, eff, GitRef(w.repositories[repoId], source)))}
  }

  /** The restore that a pass over the application asks for, if it gets as far. */
  function RestoreOfPass(w: World, id: Id, spec: AppSpec): set<RestoreUse> {
    var resolved := Resolve(w, id, spec);
    if resolved.Unresolved? || resolved.effective.host == "" || spec.restoreFrom.None? then {}
    else {RestoreUse(resolved.effective.namespace, id, spec.restoreFrom.value.snapshot)}
  }

  /** What a step makes use of. */
  function UsesOf(c: Cluster, s: Step): Uses {
    match s
    case PutSnapshot(id, _) => Uses({id}, {}, {})
    case ReconcileApp(id, _) =>
      if id in c.apps then Uses({}, BuildOfPass(c.world, id, c.apps[id].spec), RestoreOfPass(c.world, id, c.apps[id].spec))
      else Uses({}, {}, {})
    case _ => Uses({}, {}, {})
  }

  predicate Within(a: Uses, b: Uses) {
    a.dumps <= b.dumps && a.builds <= b.builds && a.restores <= b.restores
  }

  /** Every step of the run keeps to these uses. */
  predicate Confined(c: Cluster, steps: seq<Step>, uses: Uses)
    decreases |steps|
  {
    steps != [] ==> Within(UsesOf(c, steps[0]), uses) && Confined(Take(c, steps[0]), steps[1..], uses)
  }

  // ---- the invariant ----

  /** The dump of some snapshot of `ids` has this workflow name and this key. */
  ghost predicate MadeForDump(ids: set<Id>, workflow: string, key: string) {
    exists s :: s in ids && workflow == DumpName(s) && key == DumpKey(s)
  }

  ghost predicate MadeForBuild(uses: set<BuildUse>, workflow: string, p: Parameters)
    requires p.BuildParameters?
  {
    exists u :: u in uses && u.request == p && workflow == u.Name()
  }

  /** The workflow was submitted for a restore of some use, by the application of that use. */
  ghost predicate MadeForRestore(uses: set<RestoreUse>, h: seq<Event>, workflow: string, p: Parameters)
    requires p.RestoreParameters?
  {
    exists u :: u in uses && workflow == u.Name() && p.key == u.Key() && Submitted(u.app, workflow, p) in h
  }

  /** The kinds of workflow have different name prefixes, so they never share a name. */
  predicate KindOk(name: string, p: Parameters) {
    name != "" && match p
    case BuildParameters(_, _, _, _, _, _, _) => name[0] == 'b'
    case DumpParameters(_, _) => name[0] == 's'
    case RestoreParameters(_, _, _, _) => name[0] == 'r'
  }

  /** What the workflow was made for is among the uses. */
  ghost predicate MadeFor(h: seq<Event>, name: string, p: Parameters, uses: Uses) {
    match p
    case BuildParameters(_, _, _, _, _, _, _) => MadeForBuild(uses.builds, name, p)
    case DumpParameters(_, key) => MadeForDump(uses.dumps, name, key)
    case RestoreParameters(_, _, _, _) => MadeForRestore(uses.restores, h, name, p)
  }

  ghost predicate WorkflowOk(h: seq<Event>, name: string, w: Workflow, uses: Uses) {
    && KindOk(name, w.parameters)
    && WasSubmitted(h, name, w.parameters)
    && (w.phase == Succeeded ==> Finished(name, w.parameters) in h)
    && MadeFor(h, name, w.parameters, uses)
  }

  ghost predicate StatusOk(h: seq<Event>, id: Id, st: AppStatus, uses: Uses) {
    st.restoredFrom != "" ==> RestoreJustified(h, id, st.restoredFrom, RestoresTell(uses.restores))
  }

  /** A build that has finished is one of the uses. */
  ghost predicate KnownEvent(e: Event, uses: set<BuildUse>) {
    e.Finished? && e.parameters.BuildParameters? ==> exists u :: u in uses && u.request == e.parameters
  }

  ghost predicate Known(h: seq<Event>, uses: set<BuildUse>) {
    forall e :: e in h ==> KnownEvent(e, uses)
  }

  ghost predicate Inv(c: Cluster, uses: Uses) {
    && HistoryOk(c.history, TrustIn(uses)) && Known(c.history, uses.builds)
    && (forall n :: n in c.workflows ==> WorkflowOk(c.history, n, c.workflows[n], uses))
    && (forall id :: id in c.apps ==> StatusOk(c.history, id, c.apps[id].status, uses))
    && (forall s :: s in c.snapshots ==> s in uses.dumps)
    && (forall s :: s in c.snapshots && Distinct(uses.dumps) && c.snapshots[s].status.phase == Completed ==>
                      Dumped(c.history, DumpKey(s)))
  }

  lemma LongerMadeFor(h: seq<Event>, h': seq<Event>, name: string, p: Parameters, uses: Uses)
    requires h <= h' && MadeFor(h, name, p, uses)
    ensures MadeFor(h', name, p, uses)
  {
    assert forall e :: e in h ==> e in h';
  }

  lemma LongerRestore(h: seq<Event>, h': seq<Event>, id: Id, snapshot: string, trusted: bool)
    requires h <= h' && RestoreJustified(h, id, snapshot, trusted)
    ensures RestoreJustified(h', id, snapshot, trusted)
  {
    assert forall e :: e in h ==> e in h';
    var namespace: string :| Ended(h, RestoreName(namespace, id.name, snapshot));
    assert Ended(h', RestoreName(namespace, id.name, snapshot));
    if trusted {
      var key := DumpKey(Id(id.namespace, snapshot));
      var workflow, p :| RestoreRan(h, id, key, workflow, p);
      assert RestoreRan(h', id, key, workflow, p);
    }
  }

  lemma LongerStatus(h: seq<Event>, h': seq<Event>, id: Id, st: AppStatus, uses: Uses)
    requires h <= h' && StatusOk(h, id, st, uses)
    ensures StatusOk(h', id, st, uses)
  {
    if st.restoredFrom != "" { LongerRestore(h, h', id, st.restoredFrom, RestoresTell(uses.restores)); }
  }

  lemma LongerBuilt(h: seq<Event>, h': seq<Event>, namespace: string, app: string, source: Source, build: Option<Parameters>,
                    trusted: bool)
    requires h <= h' && BuildJustified(h, namespace, app, source, build, trusted)
    ensures BuildJustified(h', namespace, app, source, build, trusted)
  {
    assert forall e :: e in h ==> e in h';
  }

  /** Everything the invariant says about a history stays true when the history grows. */
  lemma LongerHistory(c: Cluster, h: seq<Event>, uses: Uses)
    requires Inv(c, uses) && c.history <= h && HistoryOk(h, TrustIn(uses)) && Known(h, uses.builds)
    ensures Inv(c.(history := h), uses)
  {
    hide HistoryOk, MadeFor, StatusOk, KindOk, Known;
    assert forall e :: e in c.history ==> e in h;
    forall id | id in c.apps ensures StatusOk(h, id, c.apps[id].status, uses) {
      LongerStatus(c.history, h, id, c.apps[id].status, uses);
    }
    forall n | n in c.workflows ensures WorkflowOk(h, n, c.workflows[n], uses) {
      LongerMadeFor(c.history, h, n, c.workflows[n].parameters, uses);
    }
  }

  lemma Logged(c: Cluster, e: Event, uses: Uses)
    requires Inv(c, uses) && Justified(c.history, e, TrustIn(uses)) && KnownEvent(e, uses.builds)
    ensures Inv(c.(history := c.history + [e]), uses)
  {
    HistoryGrowsOk(c.history, e, TrustIn(uses));
    hide KnownEvent, HistoryOk, WorkflowOk, StatusOk, Justified;
    LongerHistory(c, c.history + [e], uses);
  }

  // ---- workflows ----

  lemma WorkflowSet(c: Cluster, name: string, w: Workflow, uses: Uses)
    requires Inv(c, uses) && WorkflowOk(c.history, name, w, uses)
    ensures Inv(c.(workflows := c.workflows[name := w]), uses)
  {
    hide HistoryOk, Known, WorkflowOk, StatusOk;
  }

  lemma SubmitKeeps(c: Cluster, owner: Id, name: string, p: Parameters, uses: Uses)
    requires Inv(c, uses) && KindOk(name, p) && Justified(c.history, Submitted(owner, name, p), TrustIn(uses))
    requires MadeFor(c.history + [Submitted(owner, name, p)], name, p, uses)
    ensures Inv(Submit(c, owner, name, p), uses) && c.history <= Submit(c, owner, name, p).history
  {
    hide Inv, MadeFor, KindOk, Justified, WorkflowOk, TrustIn;
    if name !in c.workflows {
      var e := Submitted(owner, name, p);
      Logged(c, e, uses);
      SubmittedOk(c.history, owner, name, p, uses);
      WorkflowSet(c.(history := c.history + [e]), name, Workflow(p, Unreported), uses);
    }
  }

  lemma KnownWorkflow(h: seq<Event>, name: string, p: Parameters, uses: Uses)
    requires MadeFor(h, name, p, uses)
    ensures KnownEvent(Finished(name, p), uses.builds)
  {
  }

  lemma SubmittedOk(h: seq<Event>, owner: Id, name: string, p: Parameters, uses: Uses)
    requires KindOk(name, p) && MadeFor(h + [Submitted(owner, name, p)], name, p, uses)
    ensures WorkflowOk(h + [Submitted(owner, name, p)], name, Workflow(p, Unreported), uses)
  {
    hide KindOk, MadeFor;
    assert Submitted(owner, name, p) in h + [Submitted(owner, name, p)];
  }

  lemma FinishedOk(h: seq<Event>, name: string, w: Workflow, uses: Uses)
    requires WorkflowOk(h, name, w, uses)
    ensures WasSubmitted(h, name, w.parameters) && KnownEvent(Finished(name, w.parameters), uses.builds)
    ensures WorkflowOk(h + [Finished(name, w.parameters)], name, Workflow(w.parameters, Succeeded), uses)
  {
    KnownWorkflow(h, name, w.parameters, uses);
    hide KindOk, MadeFor, KnownEvent;
    var h' := h + [Finished(name, w.parameters)];
    assert forall e :: e in h ==> e in h';
    assert Finished(name, w.parameters) in h';
    LongerMadeFor(h, h', name, w.parameters, uses);
  }

  lemma OtherPhaseOk(h: seq<Event>, name: string, w: Workflow, phase: Phase, uses: Uses)
    requires WorkflowOk(h, name, w, uses) && phase != Succeeded
    ensures WorkflowOk(h, name, Workflow(w.parameters, phase), uses)
  {
    hide KindOk, MadeFor;
  }

  lemma ReportKeeps(c: Cluster, name: string, phase: Phase, uses: Uses)
    requires Inv(c, uses)
    ensures Inv(Report(c, name, phase), uses) && c.history <= Report(c, name, phase).history
  {
    if name in c.workflows {
      var w := c.workflows[name];
      assert WorkflowOk(c.history, name, w, uses);
      hide Inv, WorkflowOk, HistoryOk, TrustIn;
      if phase == Succeeded {
        FinishedOk(c.history, name, w, uses);
        Logged(c, Finished(name, w.parameters), uses);
        WorkflowSet(c.(history := c.history + [Finished(name, w.parameters)]), name, Workflow(w.parameters, phase), uses);
      } else {
        OtherPhaseOk(c.history, name, w, phase, uses);
        assert c.history + [] == c.history;
        WorkflowSet(c, name, Workflow(w.parameters, phase), uses);
      }
    }
  }

  /** Submitting and listening, as both gates and the snapshot reconciler do. */
  lemma AskKeeps(c: Cluster, owner: Id, name: string, p: Parameters, news: Option<Phase>, uses: Uses)
    requires Inv(c, uses) && KindOk(name, p) && Justified(c.history, Submitted(owner, name, p), TrustIn(uses))
    requires MadeFor(c.history + [Submitted(owner, name, p)], name, p, uses)
    ensures Inv(Ask(c, owner, name, p, news), uses) && c.history <= Ask(c, owner, name, p, news).history
  {
    hide Inv, MadeFor, KindOk, Justified;
    SubmitKeeps(c, owner, name, p, uses);
    if news.Some? { ReportKeeps(Submit(c, owner, name, p), name, news.value, uses); }
  }

  /** A workflow that has succeeded: it has finished, and was made for some use. */
  lemma Succeeds(c: Cluster, name: string, uses: Uses) returns (p: Parameters)
    requires Inv(c, uses) && PhaseOf(c, name) == Succeeded
    ensures Ended(c.history, name) && Finished(name, p) in c.history && KindOk(name, p) && MadeFor(c.history, name, p, uses)
  {
    p := c.workflows[name].parameters;
    assert WorkflowOk(c.history, name, c.workflows[name], uses);
  }

  // ---- the stages of an application pass ----

  /** A stage that started from the history `h` keeps the invariant, and its status claims nothing that did not happen. */
  ghost predicate StageOk(s: Staged, h: seq<Event>, id: Id, uses: Uses) {
    && Inv(s.cluster, uses) && h <= s.cluster.history
    && StatusOk(s.cluster.history, id, s.status, uses)
  }

  lemma BuildNameKind(namespace: string, app: string, ref: string)
    ensures BuildName(namespace, app, ref) != "" && BuildName(namespace, app, ref)[0] == 'b'
  {
  }

  lemma RestoreNameKind(namespace: string, app: string, snapshot: string)
    ensures RestoreName(namespace, app, snapshot) != "" && RestoreName(namespace, app, snapshot)[0] == 'r'
  {
  }

  lemma DumpNameKind(id: Id)
    ensures DumpName(id) != "" && DumpName(id)[0] == 's'
  {
  }

  /** A succeeded workflow of a build's name justifies applying that build. */
  lemma SucceededBuild(c: Cluster, use: BuildUse, source: Source, uses: Uses)
    requires Inv(c, uses) && use in uses.builds && use.request.BuildParameters? && PhaseOf(c, use.Name()) == Succeeded
    requires source.ref != "" ==> use.request.ref == source.ref
    ensures BuildJustified(c.history, use.namespace, use.app, source, Some(use.request), BuildsTell(uses.builds))
  {
    hide Inv, BuildName;
    var p := Succeeds(c, use.Name(), uses);
    BuildNameKind(use.namespace, use.app, use.request.ref);
    if BuildsTell(uses.builds) {
      var u :| u in uses.builds && u.request == p && use.Name() == u.Name();
      assert u.request == use.request;
    }
  }

  lemma BuildWithKeeps(c: Cluster, id: Id, repo: Repository, source: Source, eff: Effective, st: AppStatus, o: Oracle, uses: Uses)
    requires StageOk(Staged(c, st, Open("", None)), c.history, id, uses)
    requires BuildUse(eff.namespace, eff.app, BuildRequest(c.world, repo, source, eff, GitRef(repo, source))) in uses.builds
    ensures var s := BuildWith(c, id, repo, source, GitRef(repo, source), eff, st, o);
            && StageOk(s, c.history, id, uses)
            && (s.gate.Open? ==>
                  BuildJustified(s.cluster.history, eff.namespace, eff.app, source, s.gate.build, BuildsTell(uses.builds)))
  {
    hide Inv, BuildName, ImageRef, PushRef, StatusOk, BuildJustified, Ask;
    var ref := GitRef(repo, source);
    var wf, p := BuildName(eff.namespace, eff.app, ref), BuildRequest(c.world, repo, source, eff, ref);
    var use := BuildUse(eff.namespace, eff.app, p);
    BuildNameKind(eff.namespace, eff.app, ref);
    assert use.Name() == wf;
    AskKeeps(c, id, wf, p, o.buildNews, uses);
    var c' := Ask(c, id, wf, p, o.buildNews);
    LongerStatus(c.history, c'.history, id, st, uses);
    StatusOkAlike(c'.history, id, st, st.(buildWorkflow := wf), uses);
    StatusOkAlike(c'.history, id, st, st.(buildWorkflow := wf, phase := BuildFailed), uses);
    StatusOkAlike(c'.history, id, st, st.(buildWorkflow := wf, phase := Building), uses);
    if PhaseOf(c', wf) == Succeeded { SucceededBuild(c', use, source, uses); }
  }

  lemma StatusOkAlike(h: seq<Event>, id: Id, st: AppStatus, st': AppStatus, uses: Uses)
    requires StatusOk(h, id, st, uses) && st'.restoredFrom == st.restoredFrom
    ensures StatusOk(h, id, st', uses)
  {
  }

  lemma BuildGateKeeps(c: Cluster, id: Id, source: Source, eff: Effective, st: AppStatus, o: Oracle, uses: Uses)
    requires StageOk(Staged(c, st, Open("", None)), c.history, id, uses)
    requires UsesBuild(c.world, id, source, eff, uses)
    ensures var s := BuildGate(c, id, source, eff, st, o);
            && StageOk(s, c.history, id, uses)
            && (s.gate.Open? ==>
                  BuildJustified(s.cluster.history, eff.namespace, eff.app, source, s.gate.build, BuildsTell(uses.builds)))
  {
    hide Inv, BuildWith, StatusOk, BuildJustified, BuildRequest;
    var repoId := Id(id.namespace, source.repository);
    if BuildBlocked(c.world, repoId, o).None? {
      BuildWithKeeps(c, id, c.world.repositories[repoId], source, eff, st, o, uses);
    }
  }

  /** The build that the gate may submit is among the uses. */
  predicate UsesBuild(w: World, id: Id, source: Source, eff: Effective, uses: Uses) {
    var repoId := Id(id.namespace, source.repository);
    BuildBlocked(w, repoId, ALL_WELL).None? ==>
      BuildUse(eff.namespace, eff.app,
               BuildRequest(w, w.repositories[repoId], source, eff, GitRef(w.repositories[repoId], source))) in uses.builds
  }

  /** A succeeded workflow of a restore's name justifies recording that restore. */
  lemma SucceededRestore(c: Cluster, use: RestoreUse, uses: Uses)
    requires Inv(c, uses) && use in uses.restores && PhaseOf(c, use.Name()) == Succeeded
    ensures RestoreJustified(c.history, use.app, use.snapshot, RestoresTell(uses.restores))
  {
    hide Inv, RestoreName, DumpKey;
    var name := use.Name();
    var p := Succeeds(c, name, uses);
    RestoreNameKind(use.namespace, use.app.name, use.snapshot);
    if RestoresTell(uses.restores) {
      var u :| u in uses.restores && name == u.Name() && p.key == u.Key() && Submitted(u.app, name, p) in c.history;
      assert RestoreRan(c.history, use.app, use.Key(), name, p);
    }
  }

  lemma RestoreWithKeeps(c: Cluster, id: Id, conn: Connection, restore: Restore, eff: Effective, image: string,
                         st: AppStatus, o: Oracle, uses: Uses)
    requires StageOk(Staged(c, st, Open("", None)), c.history, id, uses) && eff.app == id.name
    requires DumpReady(c, Id(id.namespace, restore.snapshot))
    requires RestoreUse(eff.namespace, id, restore.snapshot) in uses.restores
    ensures var s := RestoreWith(c, id, conn, restore, eff, image, st, o);
            && StageOk(s, c.history, id, uses)
            && (s.gate.Open? ==> RestoreJustified(s.cluster.history, id, restore.snapshot, RestoresTell(uses.restores)))
  {
    var key := DumpKey(Id(id.namespace, restore.snapshot));
    assert Distinct(uses.dumps) ==> Dumped(c.history, key);
    hide Inv, RestoreName, StatusOk, Ask, DumpKey, Dumped, RestoreJustified, DumpReady;
    var wf := RestoreName(eff.namespace, eff.app, restore.snapshot);
    var sanitize := if restore.sanitize.Some? then restore.sanitize.value else eff.class_ != "production";
    var p := RestoreParameters(conn, key, FirstOf(image, eff.platformImage), sanitize);
    var use := RestoreUse(eff.namespace, id, restore.snapshot);
    RestoreNameKind(eff.namespace, eff.app, restore.snapshot);
    assert use.Name() == wf && use.Key() == key;
    assert Submitted(id, wf, p) in c.history + [Submitted(id, wf, p)];
    AskKeeps(c, id, wf, p, o.jobNews, uses);
    var c' := Ask(c, id, wf, p, o.jobNews);
    LongerStatus(c.history, c'.history, id, st, uses);
    StatusOkAlike(c'.history, id, st, st.(restoreWorkflow := wf, phase := RestoreFailed), uses);
    StatusOkAlike(c'.history, id, st, st.(restoreWorkflow := wf, phase := Restoring), uses);
    if PhaseOf(c', wf) == Succeeded {
      SucceededRestore(c', use, uses);
      RestoredStatus(c'.history, id, st.(restoreWorkflow := wf, restoredFrom := restore.snapshot), uses);
    }
  }

  lemma RestoredStatus(h: seq<Event>, id: Id, st: AppStatus, uses: Uses)
    requires RestoreJustified(h, id, st.restoredFrom, RestoresTell(uses.restores))
    ensures StatusOk(h, id, st, uses)
  {
  }

  lemma RestoreGateKeeps(c: Cluster, id: Id, spec: AppSpec, restore: Restore, eff: Effective, image: string,
                         st: AppStatus, o: Oracle, uses: Uses)
    requires StageOk(Staged(c, st, Open("", None)), c.history, id, uses) && eff.app == id.name
    requires RestoreUse(eff.namespace, id, restore.snapshot) in uses.restores
    ensures var s := RestoreGate(c, id, spec, restore, eff, image, st, o);
            && StageOk(s, c.history, id, uses)
            && (s.gate.Open? ==> RestoreJustified(s.cluster.history, id, restore.snapshot, RestoresTell(uses.restores)))
  {
    hide RestoreWith, ConnectionOf, JobSecretsPresent, Inv, RestoreJustified;
    var conn := ConnectionOf(c.world, id.namespace, spec.databases, eff.namespace);
    if conn.Some? && DumpReady(c, Id(id.namespace, restore.snapshot)) {
      RestoreWithKeeps(c, id, conn.value, restore, eff, image, st, o, uses);
    }
  }

  lemma DeliverKeeps(c: Cluster, eff: Effective, answers: bool, uses: Uses)
    requires Inv(c, uses)
    ensures Inv(DeliverSecrets(c, eff, answers), uses) && DeliverSecrets(c, eff, answers).history == c.history
  {
    hide HistoryOk, Known, WorkflowOk, StatusOk, DeliveredSecrets;
  }

  lemma ArgoKeeps(c: Cluster, argo: map<string, ArgoApp>, e: Event, uses: Uses)
    requires Inv(c, uses) && Justified(c.history, e, TrustIn(uses)) && !e.Finished?
    ensures Inv(c.(argo := argo, history := c.history + [e]), uses)
  {
    hide HistoryOk, Known, WorkflowOk, StatusOk, Justified;
    Logged(c, e, uses);
  }

  lemma DeployKeeps(c: Cluster, h: seq<Event>, id: Id, spec: AppSpec, eff: Effective, image: string, build: Option<Parameters>,
                    st: AppStatus, o: Oracle, uses: Uses)
    requires StageOk(Staged(c, st, Open("", None)), h, id, uses)
    requires Justified(c.history, Applied(id, eff.namespace, spec, build), TrustIn(uses))
    ensures StageOk(DeployStage(c, id, spec, eff, image, build, st, o), h, id, uses)
  {
    hide Inv, Justified, StatusOk, DeliverSecrets, ResolveOidc, DeployedValues;
    var s := DeployStage(c, id, spec, eff, image, build, st, o);
    var e := Applied(id, eff.namespace, spec, build);
    DeliverKeeps(c, eff, o.openbao, uses);
    ArgoKeeps(DeliverSecrets(c, eff, o.openbao), s.cluster.argo, e, uses);
    LongerStatus(c.history, c.history + [e], id, st, uses);
    StatusOkAlike(s.cluster.history, id, st, s.status, uses);
  }

  lemma GatedKeeps(c: Cluster, id: Id, spec: AppSpec, eff: Effective, st: AppStatus, o: Oracle, uses: Uses)
    requires StageOk(Staged(c, st, Open("", None)), c.history, id, uses) && eff.app == id.name
    requires spec.source.Some? ==> UsesBuild(c.world, id, spec.source.value, eff, uses)
    requires spec.restoreFrom.Some? ==> RestoreUse(eff.namespace, id, spec.restoreFrom.value.snapshot) in uses.restores
    ensures StageOk(Gated(c, id, spec, eff, st, o), c.history, id, uses)
  {
    hide Inv, StatusOk, BuildGate, RestoreGate, DeployStage, BuildJustified;
    if spec.source.Some? { BuildGateKeeps(c, id, spec.source.value, eff, st, o, uses); }
    var built := if spec.source.Some? then BuildGate(c, id, spec.source.value, eff, st, o) else Staged(c, st, Open("", None));
    if built.gate.Open? {
      AfterBuildGate(c, built, id, spec, eff, o, uses);
    }
  }

  /** The rest of a pass whose build gate let it through. */
  lemma AfterBuildGate(c: Cluster, built: Staged, id: Id, spec: AppSpec, eff: Effective, o: Oracle, uses: Uses)
    requires StageOk(built, c.history, id, uses) && built.gate.Open? && eff.app == id.name
    requires spec.restoreFrom.Some? ==> RestoreUse(eff.namespace, id, spec.restoreFrom.value.snapshot) in uses.restores
    requires spec.source.Some? ==>
               BuildJustified(built.cluster.history, eff.namespace, id.name, spec.source.value, built.gate.build,
                              BuildsTell(uses.builds))
    ensures var image := built.gate.image;
            var restored := if spec.restoreFrom.Some?
                            then RestoreGate(built.cluster, id, spec, spec.restoreFrom.value, eff, image, built.status, o)
                            else built;
            && StageOk(restored, c.history, id, uses)
            && (restored.gate.Open? ==>
                  StageOk(DeployStage(restored.cluster, id, spec, eff, image, built.gate.build, restored.status, o),
                          c.history, id, uses))
  {
    hide Inv, StatusOk, RestoreGate, DeployStage, BuildJustified, RestoreJustified;
    var restored := built;
    if spec.restoreFrom.Some? {
      RestoreGateKeeps(built.cluster, id, spec, spec.restoreFrom.value, eff, built.gate.image, built.status, o, uses);
      restored := RestoreGate(built.cluster, id, spec, spec.restoreFrom.value, eff, built.gate.image, built.status, o);
    }
    if restored.gate.Open? {
      if spec.source.Some? {
        LongerBuilt(built.cluster.history, restored.cluster.history, eff.namespace, id.name, spec.source.value,
                    built.gate.build, BuildsTell(uses.builds));
      }
      DeployKeeps(restored.cluster, c.history, id, spec, eff, built.gate.image, built.gate.build, restored.status, o, uses);
    }
  }

  lemma FinishKeeps(s: Staged, h: seq<Event>, id: Id, uses: Uses)
    requires StageOk(s, h, id, uses)
    ensures Inv(Finish(s, id), uses) && h <= Finish(s, id).history
  {
    hide HistoryOk, Known, WorkflowOk, RestoreJustified;
  }

  lemma PassStagesKeep(c: Cluster, id: Id, app: App, o: Oracle, uses: Uses)
    requires StageOk(Staged(c, app.status, Open("", None)), c.history, id, uses)
    requires BuildOfPass(c.world, id, app.spec) <= uses.builds && RestoreOfPass(c.world, id, app.spec) <= uses.restores
    ensures StageOk(PassStages(c, id, app, o), c.history, id, uses)
  {
    hide Resolve, Gated, Inv, StatusOk, BuildOfPass, RestoreOfPass;
    var resolved := Resolve(c.world, id, app.spec);
    if resolved.Resolved? && resolved.effective.host != "" {
      var eff := resolved.effective;
      ResolvedApp(c.world, id, app.spec);
      UsesOfPass(c.world, id, app.spec, eff, uses);
      var c1, st := c.(namespaces := c.namespaces + {eff.namespace}), app.status.(namespace := eff.namespace);
      NamespacesKeep(c, c1, uses);
      StatusOkAlike(c.history, id, app.status, st, uses);
      GatedKeeps(c1, id, app.spec, eff, st, o, uses);
    }
  }

  lemma NamespacesKeep(c: Cluster, c': Cluster, uses: Uses)
    requires Inv(c, uses) && c' == c.(namespaces := c'.namespaces)
    ensures Inv(c', uses)
  {
    hide HistoryOk, Known, WorkflowOk, StatusOk;
  }

  lemma UsesOfPass(w: World, id: Id, spec: AppSpec, eff: Effective, uses: Uses)
    requires Resolve(w, id, spec) == Resolved(eff) && eff.host != "" && eff.app == id.name
    requires BuildOfPass(w, id, spec) <= uses.builds && RestoreOfPass(w, id, spec) <= uses.restores
    ensures spec.source.Some? ==> UsesBuild(w, id, spec.source.value, eff, uses)
    ensures spec.restoreFrom.Some? ==> RestoreUse(eff.namespace, id, spec.restoreFrom.value.snapshot) in uses.restores
  {
    hide Resolve, BuildRequest, BuildBlocked;
  }

  lemma ResolvedApp(w: World, id: Id, spec: AppSpec)
    requires Resolve(w, id, spec).Resolved?
    ensures Resolve(w, id, spec).effective.app == id.name
  {
  }

  lemma ApplicationPassKeeps(c: Cluster, id: Id, o: Oracle, uses: Uses)
    requires Inv(c, uses) && Within(UsesOf(c, ReconcileApp(id, o)), uses)
    ensures Inv(ApplicationPass(c, id, o), uses) && c.history <= ApplicationPass(c, id, o).history
  {
    hide PassStages, HistoryOk, WorkflowOk, RestoreJustified, BuildOfPass, RestoreOfPass, Finish;
    if id in c.apps {
      PassStagesKeep(c, id, c.apps[id], o, uses);
      FinishKeeps(PassStages(c, id, c.apps[id], o), c.history, id, uses);
    }
  }

  // ---- a snapshot pass, and every other step ----

  lemma DumpedByName(c: Cluster, id: Id, uses: Uses)
    requires Inv(c, uses) && id in uses.dumps && Distinct(uses.dumps)
    requires PhaseOf(c, DumpName(id)) == Succeeded
    ensures Dumped(c.history, DumpKey(id))
  {
    hide Inv, DumpKey;
    var wf := DumpName(id);
    var p := Succeeds(c, wf, uses);
    DumpNameKind(id);
  }

  lemma FinishSnapshotKeeps(c: Cluster, id: Id, st: SnapshotStatus, ready: Ready, uses: Uses)
    requires Inv(c, uses) && id in c.snapshots
    requires Distinct(uses.dumps) && st.phase == Completed ==> Dumped(c.history, DumpKey(id))
    ensures Inv(FinishSnapshot(c, id, st, ready), uses)
  {
    hide HistoryOk, Known, WorkflowOk, StatusOk, DumpKey, Distinct;
  }

  lemma AfterDumpKeeps(c: Cluster, id: Id, st: SnapshotStatus, uses: Uses)
    requires Inv(c, uses) && id in c.snapshots && id in uses.dumps
    ensures Inv(AfterDump(c, id, DumpName(id), st), uses) && AfterDump(c, id, DumpName(id), st).history == c.history
  {
    hide Inv, DumpKey, DumpName;
    if Distinct(uses.dumps) && PhaseOf(c, DumpName(id)) == Succeeded { DumpedByName(c, id, uses); }
    match PhaseOf(c, DumpName(id))
    case Succeeded => FinishSnapshotKeeps(c, id, st.(phase := Completed), IsReady, uses);
    case Failed => FinishSnapshotKeeps(c, id, st.(phase := DumpFailed), NotReady(BackendError), uses);
    case Error => FinishSnapshotKeeps(c, id, st.(phase := DumpFailed), NotReady(BackendError), uses);
    case _ => FinishSnapshotKeeps(c, id, st.(phase := Dumping), NotReady(Reconciling), uses);
  }

  lemma DumpWithKeeps(c: Cluster, id: Id, conn: Connection, st: SnapshotStatus, o: Oracle, uses: Uses)
    requires Inv(c, uses) && id in c.snapshots
    ensures Inv(DumpWith(c, id, conn, st, o), uses) && c.history <= DumpWith(c, id, conn, st, o).history
  {
    assert id in uses.dumps;
    hide Inv, Ask, DumpName, DumpKey, AfterDump;
    var wf, p := DumpName(id), DumpParameters(conn, DumpKey(id));
    assert MadeForDump(uses.dumps, wf, p.key);
    DumpNameKind(id);
    AskKeeps(c, id, wf, p, o.jobNews, uses);
    AskKeepsSnapshots(c, id, wf, p, o.jobNews);
    AfterDumpKeeps(Ask(c, id, wf, p, o.jobNews), id,
                   st.(workflow := wf, location := "s3://" + c.world.config.s3Bucket + "/" + DumpKey(id)), uses);
  }

  lemma AskKeepsSnapshots(c: Cluster, owner: Id, name: string, p: Parameters, news: Option<Phase>)
    ensures Ask(c, owner, name, p, news).snapshots == c.snapshots
  {
  }

  lemma HeldSnapshotKeeps(c: Cluster, id: Id, reason: Reason, uses: Uses)
    requires Inv(c, uses) && id in c.snapshots
    ensures var c' := FinishSnapshot(c, id, c.snapshots[id].status, NotReady(reason));
            Inv(c', uses) && c'.history == c.history
  {
    hide HistoryOk, Known, WorkflowOk, StatusOk;
    FinishSnapshotKeeps(c, id, c.snapshots[id].status, NotReady(reason), uses);
  }

  lemma SnapshotPassKeeps(c: Cluster, id: Id, o: Oracle, uses: Uses)
    requires Inv(c, uses)
    ensures Inv(SnapshotPass(c, id, o), uses) && c.history <= SnapshotPass(c, id, o).history
  {
    hide DumpWith, ConnectionOf, JobSecretsPresent, FinishSnapshot, Inv;
    if id in c.snapshots {
      var appId := Id(id.namespace, c.snapshots[id].application);
      HeldSnapshotKeeps(c, id, InvalidSpec, uses);
      HeldSnapshotKeeps(c, id, DependencyNotMet, uses);
      HeldSnapshotKeeps(c, id, BackendError, uses);
      if appId in c.apps {
        var conn := ConnectionOf(c.world, id.namespace, c.apps[appId].spec.databases, c.apps[appId].status.namespace);
        if conn.Some? { DumpWithKeeps(c, id, conn.value, c.snapshots[id].status, o, uses); }
      }
    }
  }

  /** Editing and deleting objects: no status, workflow or event is made up. */
  ghost predicate Edited(c: Cluster, c': Cluster, ids: set<Id>) {
    && c'.history == c.history
    && (forall n :: n in c'.workflows ==> n in c.workflows && c'.workflows[n] == c.workflows[n])
    && (forall a :: a in c'.apps ==>
          c'.apps[a].status == NO_STATUS || (a in c.apps && c'.apps[a].status == c.apps[a].status))
    && (forall s :: s in c'.snapshots ==> s in ids)
    && (forall s :: s in c'.snapshots ==>
          c'.snapshots[s].status == NO_SNAPSHOT_STATUS || (s in c.snapshots && c'.snapshots[s].status == c.snapshots[s].status))
  }

  lemma EditKeeps(c: Cluster, c': Cluster, uses: Uses)
    requires Inv(c, uses) && Edited(c, c', uses.dumps)
    ensures Inv(c', uses)
  {
    hide HistoryOk, Known, WorkflowOk, RestoreJustified, DumpKey, Distinct;
  }

  lemma FinalizersEdit(c: Cluster, id: Id, argoGone: bool, buildGone: bool, restoreGone: bool, cleaned: bool, ids: set<Id>)
    requires forall t :: t in c.snapshots ==> t in ids
    ensures Edited(c, FinalizeApp(c, id, argoGone, buildGone, restoreGone), ids) && Edited(c, FinalizeSnapshot(c, id, cleaned), ids)
  {
    hide DumpName;
  }

  lemma TakeEdits(c: Cluster, s: Step, ids: set<Id>)
    requires (forall t :: t in c.snapshots ==> t in ids) && (s.PutSnapshot? ==> s.id in ids)
    requires !s.ReconcileApp? && !s.ReconcileSnapshot? && !s.WorkflowReports?
    ensures Edited(c, Take(c, s), ids)
  {
    hide ApplicationPass, SnapshotPass, Report, FinalizeApp, FinalizeSnapshot;
    match s
    case DeleteApp(id, argoGone, buildGone, restoreGone) => FinalizersEdit(c, id, argoGone, buildGone, restoreGone, true, ids);
    case DeleteSnapshot(id, cleaned) => FinalizersEdit(c, id, true, true, true, cleaned, ids);
    case _ =>
  }

  lemma TakeKeeps(c: Cluster, s: Step, uses: Uses)
    requires Inv(c, uses) && Within(UsesOf(c, s), uses)
    ensures Inv(Take(c, s), uses) && c.history <= Take(c, s).history
  {
    match s
    case ReconcileApp(id, o) => ApplicationPassKeeps(c, id, o, uses); hide *;
    case ReconcileSnapshot(id, o) => SnapshotPassKeeps(c, id, o, uses); hide *;
    case WorkflowReports(wf, phase) => ReportKeeps(c, wf, phase, uses); hide *;
    case _ => TakeEdits(c, s, uses.dumps); EditKeeps(c, Take(c, s), uses); hide *;
  }

  lemma {:induction false} RunKeeps(c: Cluster, steps: seq<Step>, uses: Uses)
    requires Inv(c, uses) && Confined(c, steps, uses)
    ensures Inv(Run(c, steps), uses)
    decreases |steps|
  {
    hide Inv, Take, UsesOf;
    if steps != [] {
      TakeKeeps(c, steps[0], uses);
      RunKeeps(Take(c, steps[0]), steps[1..], uses);
    }
  }

  function Union(a: Uses, b: Uses): Uses {
    Uses(a.dumps + b.dumps, a.builds + b.builds, a.restores + b.restores)
  }

  /** Everything a run makes use of. */
  function UsesOfRun(c: Cluster, steps: seq<Step>): Uses
    decreases |steps|
  {
    if steps == [] then Uses({}, {}, {}) else Union(UsesOf(c, steps[0]), UsesOfRun(Take(c, steps[0]), steps[1..]))
  }

  lemma {:induction false} ConfinedMore(c: Cluster, steps: seq<Step>, a: Uses, b: Uses)
    requires Confined(c, steps, a) && Within(a, b)
    ensures Confined(c, steps, b)
    decreases |steps|
  {
    hide Take, UsesOf;
    if steps != [] { ConfinedMore(Take(c, steps[0]), steps[1..], a, b); }
  }

  lemma {:induction false} ConfinedToItself(c: Cluster, steps: seq<Step>)
    ensures Confined(c, steps, UsesOfRun(c, steps))
    decreases |steps|
  {
    hide Take, UsesOf;
    if steps != [] {
      ConfinedToItself(Take(c, steps[0]), steps[1..]);
      ConfinedMore(Take(c, steps[0]), steps[1..], UsesOfRun(Take(c, steps[0]), steps[1..]), UsesOfRun(c, steps));
    }
  }

  lemma FreshInv(w: World, uses: Uses)
    ensures Inv(Fresh(w), uses)
  {
  }

  /** A run that keeps to some uses is as safe as the names of these uses tell. */
  lemma SafeWithin(w: World, steps: seq<Step>, uses: Uses)
    requires Confined(Fresh(w), steps, uses)
    ensures HistoryOk(Run(Fresh(w), steps).history, TrustIn(uses))
  {
    hide Run, HistoryOk, TrustIn, Confined;
    FreshInv(w, uses);
    RunKeeps(Fresh(w), steps, uses);
  }

  /** Every build that finishes in the run is one that some pass of it asked for. */
  lemma FinishedAreKnown(w: World, steps: seq<Step>)
    ensures Known(Run(Fresh(w), steps).history, UsesOfRun(Fresh(w), steps).builds)
  {
    hide Run, HistoryOk, TrustIn, UsesOfRun, Confined, Known;
    var uses := UsesOfRun(Fresh(w), steps);
    ConfinedToItself(Fresh(w), steps);
    FreshInv(w, uses);
    RunKeeps(Fresh(w), steps, uses);
  }

  /** Gate safety of every run: each apply comes after a succeeded build and restore workflow of the right names, and, as
      far as the names of the run's own workflows tell builds, restores and dumps apart, after exactly the build that was
      asked for, a restore of that snapshot by that application, and from a key that was dumped. */
  lemma GateSafety(w: World, steps: seq<Step>)
    ensures HistoryOk(Run(Fresh(w), steps).history, TrustIn(UsesOfRun(Fresh(w), steps)))
  {
    hide Run, HistoryOk, TrustIn, UsesOfRun, Confined;
    ConfinedToItself(Fresh(w), steps);
    SafeWithin(w, steps, UsesOfRun(Fresh(w), steps));
  }
}
