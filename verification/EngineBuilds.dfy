/** Exactly when a succeeded workflow is the build that an application is applied with: when the names of the build workflows
    tell the builds apart. */
module EngineBuilds {
  import opened Text
  import opened Wrappers
  import opened EngineModel
  import opened EngineSafety
  import opened EngineRestores
  import Names

  const BUILDS: Trust := Trust(true, false, false)

  /** Over every run whose passes ask for these builds only, an application with a source is applied only after exactly the
      build that its pass asks for: that repository, ref, recipe and image. */
  ghost predicate AlwaysBuilt(uses: set<BuildUse>) {
    forall w, steps :: UsesOfRun(Fresh(w), steps).builds <= uses ==> HistoryOk(Run(Fresh(w), steps).history, BUILDS)
  }

  // ---- runs, step by step ----

  lemma {:induction false} OneMore(c: Cluster, steps: seq<Step>, s: Step)
    ensures Run(c, steps + [s]) == Take(Run(c, steps), s)
    ensures UsesOfRun(c, steps + [s]) == Union(UsesOfRun(c, steps), UsesOf(Run(c, steps), s))
    decreases |steps|
  {
    hide Take, UsesOf;
    if steps == [] {
      assert (steps + [s])[1..] == [];
      assert UsesOfRun(c, steps + [s]) == Union(UsesOf(c, s), UsesOfRun(Take(c, s), []));
    } else {
      assert (steps + [s])[1..] == steps[1..] + [s];
      OneMore(Take(c, steps[0]), steps[1..], s);
    }
  }

  lemma {:induction false} Joined(c: Cluster, front: seq<Step>, back: seq<Step>)
    ensures Run(c, front + back) == Run(Run(c, front), back)
    ensures UsesOfRun(c, front + back) == Union(UsesOfRun(c, front), UsesOfRun(Run(c, front), back))
    decreases |back|
  {
    hide Take, UsesOf;
    if back == [] {
      assert front + back == front;
    } else {
      var init, last := back[..|back| - 1], back[|back| - 1];
      assert front + back == (front + init) + [last] && back == init + [last];
      Joined(c, front, init);
      OneMore(c, front + init, last);
      OneMore(Run(c, front), init, last);
    }
  }

  // ---- builds ----

  /** Some pass can ask for the build. */
  ghost predicate Buildable(u: BuildUse) {
    exists w, id, spec :: u in BuildOfPass(w, id, spec)
  }

  /** Every call goes through, and each workflow reports success at once. */
  const PROMPT: Oracle := Oracle(true, true, true, Some(Succeeded), true, true, Some(Succeeded), true, true)

  lemma RestoreIsNoMatter(w: World, id: Id, spec: AppSpec)
    ensures BuildOfPass(w, id, spec.(restoreFrom := None)) == BuildOfPass(w, id, spec)
  {
    SameReferences(w, id, spec, spec.(restoreFrom := None));
    hide Resolve;
  }

  lemma SameReferences(w: World, id: Id, spec: AppSpec, spec': AppSpec)
    requires spec' == spec.(restoreFrom := spec'.restoreFrom, source := spec'.source)
    ensures Resolve(w, id, spec') == Resolve(w, id, spec)
  {
  }

  /** The build gate when its workflow succeeds at once, or has succeeded. */
  lemma BuildOpens(c: Cluster, id: Id, source: Source, eff: Effective, st: AppStatus, u: BuildUse)
    requires var repoId := Id(id.namespace, source.repository);
             && BuildBlocked(c.world, repoId, ALL_WELL) == None
             && u == BuildUse(eff.namespace, eff.app, BuildRequest(c.world, c.world.repositories[repoId], source, eff,
                                                                   GitRef(c.world.repositories[repoId], source)))
    ensures var s := BuildGate(c, id, source, eff, st, PROMPT);
            var p := if u.Name() in c.workflows then c.workflows[u.Name()].parameters else u.request;
            && s.gate.Open? && s.gate.build == Some(u.request)
            && s.cluster == c.(workflows := c.workflows[u.Name() := Workflow(p, Succeeded)],
                               history := c.history + (if u.Name() in c.workflows then [] else [Submitted(id, u.Name(), u.request)])
                                          + [Finished(u.Name(), p)])
  {
    hide BuildName, ImageRef, PushRef, Endpoint;
  }

  lemma DeployApplies(c: Cluster, id: Id, spec: AppSpec, eff: Effective, image: string, build: Option<Parameters>, st: AppStatus)
    ensures var s := DeployStage(c, id, spec, eff, image, build, st, PROMPT);
            && s.cluster.history == c.history + [Applied(id, eff.namespace, spec, build)]
            && s.cluster.workflows == c.workflows && s.cluster.apps == c.apps && s.cluster.snapshots == c.snapshots
            && s.cluster.world == c.world
  {
    hide ResolveOidc, DeliveredSecret, DeliveredSecrets, Names.ArgoAppName;
  }

  lemma GatedBuilds(c: Cluster, id: Id, spec: AppSpec, eff: Effective, st: AppStatus, u: BuildUse)
    requires spec.restoreFrom.None? && spec.source.Some?
    requires var repoId := Id(id.namespace, spec.source.value.repository);
             && BuildBlocked(c.world, repoId, ALL_WELL) == None
             && u == BuildUse(eff.namespace, eff.app, BuildRequest(c.world, c.world.repositories[repoId], spec.source.value, eff,
                                                                   GitRef(c.world.repositories[repoId], spec.source.value)))
    ensures var s := Gated(c, id, spec, eff, st, PROMPT);
            s.cluster.apps == c.apps && Built(c, s.cluster, id, spec, u)
  {
    hide BuildGate, DeployStage, BuildRequest, BuildName, BuildBlocked;
    BuildOpens(c, id, spec.source.value, eff, st, u);
    var built := BuildGate(c, id, spec.source.value, eff, st, PROMPT);
    DeployApplies(built.cluster, id, spec, eff, built.gate.image, built.gate.build, built.status);
  }

  /** The build has been asked for, has succeeded, and the application has been applied. */
  ghost predicate Built(c: Cluster, c': Cluster, id: Id, spec: AppSpec, u: BuildUse)
    requires u.request.BuildParameters?
  {
    var p := if u.Name() in c.workflows then c.workflows[u.Name()].parameters else u.request;
    && c'.workflows == c.workflows[u.Name() := Workflow(p, Succeeded)]
    && c'.history == c.history + (if u.Name() in c.workflows then [] else [Submitted(id, u.Name(), u.request)])
                     + [Finished(u.Name(), p)] + [Applied(id, u.namespace, spec, Some(u.request))]
  }

  /** A pass whose application resolves is its gates and its deployment. */
  lemma PassIsGated(c: Cluster, id: Id, spec: AppSpec, eff: Effective, o: Oracle)
    requires id in c.apps && c.apps[id].spec == spec && Resolve(c.world, id, spec) == Resolved(eff) && eff.host != "" && o.namespaces
    ensures var s := Gated(c.(namespaces := c.namespaces + {eff.namespace}), id, spec, eff,
                           c.apps[id].status.(namespace := eff.namespace), o);
            && ApplicationPass(c, id, o) == Finish(s, id)
            && ApplicationPass(c, id, o).workflows == s.cluster.workflows && ApplicationPass(c, id, o).history == s.cluster.history
            && ApplicationPass(c, id, o).snapshots == s.cluster.snapshots
            && (id in s.cluster.apps ==> ApplicationPass(c, id, o).apps.Keys == s.cluster.apps.Keys)
  {
    hide Resolve, Gated;
  }

  lemma BuildFound(w: World, id: Id, spec: AppSpec, u: BuildUse) returns (eff: Effective)
    requires u in BuildOfPass(w, id, spec)
    ensures Resolve(w, id, spec) == Resolved(eff) && eff.host != "" && eff.app == id.name && spec.source.Some?
    ensures var repoId := Id(id.namespace, spec.source.value.repository);
            && BuildBlocked(w, repoId, ALL_WELL) == None
            && u == BuildUse(eff.namespace, eff.app, BuildRequest(w, w.repositories[repoId], spec.source.value, eff,
                                                                  GitRef(w.repositories[repoId], spec.source.value)))
  {
    ResolvedApp(w, id, spec);
    hide Resolve, BuildBlocked, BuildRequest;
    eff := Resolve(w, id, spec).effective;
  }

  /** A pass of an application that is built and does not restore. */
  lemma BuildPass(c: Cluster, id: Id, spec: AppSpec, u: BuildUse)
    requires id in c.apps && c.apps[id].spec == spec && spec.restoreFrom.None?
    requires u in BuildOfPass(c.world, id, spec) && u.request.BuildParameters?
    ensures var c' := ApplicationPass(c, id, PROMPT);
            c'.apps.Keys == c.apps.Keys && Built(c, c', id, spec, u)
  {
    var eff := BuildFound(c.world, id, spec, u);
    hide Resolve, Gated, BuildRequest, BuildName, BuildBlocked, BuildOfPass, ApplicationPass, Finish;
    PassIsGated(c, id, spec, eff, PROMPT);
    GatedBuilds(c.(namespaces := c.namespaces + {eff.namespace}), id, spec, eff,
                c.apps[id].status.(namespace := eff.namespace), u);
  }

  lemma FourSteps(c: Cluster, x: Step, y: Step, z: Step, d: Step)
    ensures var c1 := Take(c, x);
            var c2 := Take(c1, y);
            var c3 := Take(c2, z);
            var s := [x] + [y] + [z] + [d];
            && Run(c, s) == Take(c3, d)
            && UsesOfRun(c, s) == Union(Union(Union(Union(Uses({}, {}, {}), UsesOf(c, x)), UsesOf(c1, y)), UsesOf(c2, z)), UsesOf(c3, d))
  {
    hide Take, UsesOf;
    Nothing(c);
    assert [] + [x] == [x];
    OneMore(c, [], x);
    OneMore(c, [x], y);
    OneMore(c, [x] + [y], z);
    OneMore(c, [x] + [y] + [z], d);
  }

  /** From a cluster without applications: one is created, built, applied and deleted. */
  lemma BuildAndGo(c: Cluster, w: World, id: Id, spec: AppSpec, u: BuildUse) returns (s: seq<Step>)
    requires c.apps == map[] && spec.restoreFrom.None? && u in BuildOfPass(w, id, spec) && u.request.BuildParameters?
    ensures UsesOfRun(c, s).builds <= {u}
    ensures Run(c, s).apps == map[] && Built(c, Run(c, s), id, spec, u)
  {
    hide Take, UsesOf, ApplicationPass, BuildOfPass, RestoreOfPass, Run, UsesOfRun;
    var c1 := c.(world := w);
    var c2 := c1.(apps := c1.apps[id := App(spec, 1, NO_STATUS)]);
    var x, y, z, d := Surroundings(w), PutApp(id, spec), ReconcileApp(id, PROMPT), DeleteApp(id, false, false, false);
    FourSteps(c, x, y, z, d);
    s := [x] + [y] + [z] + [d];
    Arrives(c, w, id, spec);
    Reconciles(c2, id, PROMPT);
    BuildPass(c2, id, spec, u);
    BuildIsOne(w, id, spec, u);
    Leaves(ApplicationPass(c2, id, PROMPT), id);
  }

  lemma Arrives(c: Cluster, w: World, id: Id, spec: AppSpec)
    requires id !in c.apps
    ensures Take(c, Surroundings(w)) == c.(world := w) && UsesOf(c, Surroundings(w)) == Uses({}, {}, {})
    ensures var c1 := c.(world := w);
            && Take(c1, PutApp(id, spec)) == c1.(apps := c1.apps[id := App(spec, 1, NO_STATUS)])
            && UsesOf(c1, PutApp(id, spec)) == Uses({}, {}, {})
  {
  }

  lemma Reconciles(c: Cluster, id: Id, o: Oracle)
    requires id in c.apps
    ensures Take(c, ReconcileApp(id, o)) == ApplicationPass(c, id, o)
    ensures UsesOf(c, ReconcileApp(id, o))
            == Uses({}, BuildOfPass(c.world, id, c.apps[id].spec), RestoreOfPass(c.world, id, c.apps[id].spec))
  {
    hide ApplicationPass, BuildOfPass, RestoreOfPass;
  }

  /** Deleting the only application, with no deletion of its objects going through. */
  lemma Leaves(c: Cluster, id: Id)
    requires c.apps.Keys == {id}
    ensures Take(c, DeleteApp(id, false, false, false)) == c.(apps := map[])
    ensures UsesOf(c, DeleteApp(id, false, false, false)) == Uses({}, {}, {})
  {
    assert c.apps - {id} == map[];
    assert c.workflows - {} - {} == c.workflows;
  }

  lemma Nothing(c: Cluster)
    ensures Run(c, []) == c && UsesOfRun(c, []) == Uses({}, {}, {})
  {
  }

  lemma BuildIsOne(w: World, id: Id, spec: AppSpec, u: BuildUse)
    requires u in BuildOfPass(w, id, spec)
    ensures BuildOfPass(w, id, spec) == {u} && u.request.BuildParameters?
  {
    hide Resolve, BuildBlocked;
  }

  /** The run that breaks the property: the second of two builds of one name finds the first one's workflow succeeded, and
      is applied without having been made. */
  lemma SharedBuildBreaks(u: BuildUse, v: BuildUse, uses: set<BuildUse>)
    requires Buildable(u) && Buildable(v) && u in uses && v in uses
    requires u.request.BuildParameters? && v.request.BuildParameters? && u.Name() == v.Name() && u.request != v.request
    ensures !AlwaysBuilt(uses)
  {
    hide Run, UsesOfRun, BuildOfPass, HistoryOk, BuildName, AlwaysBuilt;
    var wu, idu, specu :| u in BuildOfPass(wu, idu, specu);
    var wv, idv, specv :| v in BuildOfPass(wv, idv, specv);
    RestoreIsNoMatter(wu, idu, specu);
    RestoreIsNoMatter(wv, idv, specv);
    BuildIsOne(wu, idu, specu, u);
    BuildIsOne(wv, idv, specv, v);
    var c := Fresh(wu);
    var s := BuildAndGo(c, wu, idu, specu.(restoreFrom := None), u);
    var t := BuildAndGo(Run(c, s), wv, idv, specv.(restoreFrom := None), v);
    Joined(c, s, t);
    var h := [Submitted(idu, u.Name(), u.request)] + [Finished(u.Name(), u.request)]
             + [Applied(idu, u.namespace, specu.(restoreFrom := None), Some(u.request))] + [Finished(u.Name(), u.request)];
    var e := Applied(idv, v.namespace, specv.(restoreFrom := None), Some(v.request));
    assert Run(c, s + t).history == h + [e];
    SourceThere(wv, idv, specv, v);
    LastUnjustified(h, e, BUILDS);
    BreaksBuilt(wu, s + t, uses);
  }

  lemma SourceThere(w: World, id: Id, spec: AppSpec, u: BuildUse)
    requires u in BuildOfPass(w, id, spec)
    ensures spec.source.Some? && u.app == id.name
  {
    ResolvedApp(w, id, spec);
    hide Resolve, BuildBlocked;
  }

  lemma LastUnjustified(h: seq<Event>, e: Event, t: Trust)
    requires !Justified(h, e, t)
    ensures !HistoryOk(h + [e], t)
  {
    assert (h + [e])[..|h|] == h && (h + [e])[|h|] == e;
  }

  lemma BreaksBuilt(w: World, steps: seq<Step>, uses: set<BuildUse>)
    requires UsesOfRun(Fresh(w), steps).builds <= uses && !HistoryOk(Run(Fresh(w), steps).history, BUILDS)
    ensures !AlwaysBuilt(uses)
  {
  }

  lemma TellingBuilds(w: World, steps: seq<Step>, uses: set<BuildUse>)
    requires BuildsTell(uses) && UsesOfRun(Fresh(w), steps).builds <= uses
    ensures HistoryOk(Run(Fresh(w), steps).history, BUILDS)
  {
    hide Run, HistoryOk, UsesOfRun, BuildName, RestoreName, Distinct;
    GateSafety(w, steps);
    LessTrust(Run(Fresh(w), steps).history, TrustIn(UsesOfRun(Fresh(w), steps)), BUILDS);
  }

  /** Over all runs, every application with a source is applied after exactly the build it asks for, if and only if the name
      of a build workflow tells the build: its repository, ref, recipe and image. */
  lemma BuiltAsAskedIff(uses: set<BuildUse>)
    requires forall u :: u in uses ==> Buildable(u)
    ensures AlwaysBuilt(uses) <==> BuildsTell(uses)
  {
    hide Run, UsesOfRun, HistoryOk, Buildable, BuildName;
    if BuildsTell(uses) {
      forall w, steps | UsesOfRun(Fresh(w), steps).builds <= uses ensures HistoryOk(Run(Fresh(w), steps).history, BUILDS) {
        TellingBuilds(w, steps, uses);
      }
    } else {
      var u, v :| u in uses && v in uses && u.request.BuildParameters? && v.request.BuildParameters?
                  && u.Name() == v.Name() && u.request != v.request;
      SharedBuildBreaks(u, v, uses);
    }
  }

  /** The same application at another source. */
  function At(spec: AppSpec, source: Source): AppSpec {
    spec.(source := Some(source))
  }

  /** Editing the source of an application to one whose tag is the same but whose build is not: the old build is deployed. */
  lemma EditedSourceBreaks(w: World, id: Id, spec: AppSpec, a: Source, b: Source)
    requires BuildOfPass(w, id, At(spec, a)) != {} && BuildOfPass(w, id, At(spec, b)) != {}
    requires forall u, v :: u in BuildOfPass(w, id, At(spec, a)) && v in BuildOfPass(w, id, At(spec, b)) ==>
               && u.request.BuildParameters? && v.request.BuildParameters? && u.request != v.request
               && Names.SanitizeTag(u.request.ref) == Names.SanitizeTag(v.request.ref)
    ensures !AlwaysBuilt(BuildOfPass(w, id, At(spec, a)) + BuildOfPass(w, id, At(spec, b)))
  {
    var u :| u in BuildOfPass(w, id, At(spec, a));
    var v :| v in BuildOfPass(w, id, At(spec, b));
    var effU := BuildFound(w, id, At(spec, a), u);
    var effV := BuildFound(w, id, At(spec, b), v);
    SameReferences(w, id, At(spec, a), At(spec, b));
    hide Resolve, BuildOfPass, AlwaysBuilt, Names.SanitizeTag;
    assert u.Name() == v.Name();
    SharedBuildBreaks(u, v, BuildOfPass(w, id, At(spec, a)) + BuildOfPass(w, id, At(spec, b)));
  }

  /** Ordinary branches do share a build: `feature/x` and `feature-x` of one application, wherever it can be built. */
  lemma BranchesShareABuild(w: World, id: Id, spec: AppSpec, source: Source)
    requires source.ref == "feature/x" && BuildOfPass(w, id, At(spec, source)) != {}
    ensures !AlwaysBuilt(BuildOfPass(w, id, At(spec, source)) + BuildOfPass(w, id, At(spec, source.(ref := "feature-x"))))
  {
    var other := source.(ref := "feature-x");
    var u :| u in BuildOfPass(w, id, At(spec, source));
    var eff := BuildFound(w, id, At(spec, source), u);
    SameReferences(w, id, At(spec, source), At(spec, other));
    BranchBuilds(w, id, At(spec, source), eff);
    BranchBuilds(w, id, At(spec, other), eff);
    hide Resolve, BuildOfPass, AlwaysBuilt, BuildBlocked;
    SameTag();
    EditedSourceBreaks(w, id, spec, source, other);
  }

  lemma BranchBuilds(w: World, id: Id, spec: AppSpec, eff: Effective)
    requires Resolve(w, id, spec) == Resolved(eff) && eff.host != "" && spec.source.Some? && spec.source.value.ref != ""
    requires BuildBlocked(w, Id(id.namespace, spec.source.value.repository), ALL_WELL) == None
    ensures BuildOfPass(w, id, spec) != {}
    ensures forall u :: u in BuildOfPass(w, id, spec) ==> u.request.BuildParameters? && u.request.ref == spec.source.value.ref
  {
    hide Resolve, ImageRef, PushRef, Endpoint;
    var repo := w.repositories[Id(id.namespace, spec.source.value.repository)];
    var u := BuildUse(eff.namespace, id.name, BuildRequest(w, repo, spec.source.value, eff, GitRef(repo, spec.source.value)));
    assert BuildOfPass(w, id, spec) == {u};
  }

  lemma SameTag()
    ensures Names.SanitizeTag("feature/x") == Names.SanitizeTag("feature-x")
  {
    assert Strip("feature/x", WHITESPACE) == "feature/x" && Strip("feature-x", WHITESPACE) == "feature-x";
    assert Names.TagChars("feature/x") == Names.TagChars("feature-x") == "feature-x";
  }
}
