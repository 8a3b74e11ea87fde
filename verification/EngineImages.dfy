/** Exactly when an application is applied with the image that its own build has pushed: when, besides the names of the build
    workflows, the image references tell the builds apart. A reference holds client, application and tag, and no
    environment. */
module EngineImages {
  import opened Wrappers
  import opened EngineModel
  import opened EngineSafety
  import opened EngineBuilds

  /** The build that has written the image last. */
  function LastBuild(h: seq<Event>, image: string): Option<Parameters> {
    if h == [] then None
    else
      var e := h[|h| - 1];
      if e.Finished? && e.parameters.BuildParameters? && e.parameters.outputImage == image then Some(e.parameters)
      else LastBuild(h[..|h| - 1], image)
  }

  /** An application with a source is applied while its image is the one that exactly the build it asks for has pushed. */
  predicate FromOwnImage(before: seq<Event>, e: Event) {
    e.Applied? && e.spec.source.Some? ==>
      e.build.Some? && e.build.value.BuildParameters? && LastBuild(before, e.build.value.outputImage) == e.build
  }

  ghost predicate ImagesOk(h: seq<Event>) {
    forall i :: 0 <= i < |h| ==> FromOwnImage(h[..i], h[i])
  }

  ghost predicate AlwaysOwnImage(uses: set<BuildUse>) {
    forall w, steps :: UsesOfRun(Fresh(w), steps).builds <= uses ==> ImagesOk(Run(Fresh(w), steps).history)
  }

  /** An image reference tells the build that pushes it. */
  ghost predicate ImagesTell(uses: set<BuildUse>) {
    forall u, v :: u in uses && v in uses && u.request.BuildParameters? && v.request.BuildParameters? ==>
      (u.request.outputImage == v.request.outputImage ==> u.request == v.request)
  }

  // ---- when names and references tell ----

  lemma {:induction false} OnlyBuild(h: seq<Event>, name: string, p: Parameters)
    requires p.BuildParameters? && Finished(name, p) in h
    requires forall e :: e in h && e.Finished? && e.parameters.BuildParameters? && e.parameters.outputImage == p.outputImage ==>
               e.parameters == p
    ensures LastBuild(h, p.outputImage) == Some(p)
  {
    var e := h[|h| - 1];
    if !(e.Finished? && e.parameters.BuildParameters? && e.parameters.outputImage == p.outputImage) {
      assert h == h[..|h| - 1] + [e];
      OnlyBuild(h[..|h| - 1], name, p);
    }
  }

  lemma OneImage(before: seq<Event>, name: string, p: Parameters, uses: set<BuildUse>)
    requires p.BuildParameters? && Finished(name, p) in before && Known(before, uses) && ImagesTell(uses)
    ensures LastBuild(before, p.outputImage) == Some(p)
  {
    hide LastBuild;
    assert KnownEvent(Finished(name, p), uses);
    forall e | e in before && e.Finished? && e.parameters.BuildParameters? && e.parameters.outputImage == p.outputImage
      ensures e.parameters == p
    {
      assert KnownEvent(e, uses);
    }
    OnlyBuild(before, name, p);
  }

  lemma KnownPrefix(h: seq<Event>, i: nat, uses: set<BuildUse>)
    requires Known(h, uses) && i <= |h|
    ensures Known(h[..i], uses)
  {
    hide KnownEvent;
    assert forall e :: e in h[..i] ==> e in h;
  }

  lemma TellingImages(w: World, steps: seq<Step>, uses: set<BuildUse>)
    requires BuildsTell(uses) && ImagesTell(uses) && UsesOfRun(Fresh(w), steps).builds <= uses
    ensures ImagesOk(Run(Fresh(w), steps).history)
  {
    hide Run, UsesOfRun, BuildName, LastBuild, ImagesTell, BuildsTell, Known, Ended;
    var h := Run(Fresh(w), steps).history;
    TellingBuilds(w, steps, uses);
    FinishedAreKnown(w, steps);
    KnownMore(h, UsesOfRun(Fresh(w), steps).builds, uses);
    forall i | 0 <= i < |h| ensures FromOwnImage(h[..i], h[i]) {
      assert Justified(h[..i], h[i], BUILDS);
      KnownPrefix(h, i, uses);
      if h[i].Applied? && h[i].spec.source.Some? {
        var p := h[i].build.value;
        OneImage(h[..i], BuildName(h[i].namespace, h[i].owner.name, p.ref), p, uses);
      }
    }
  }

  lemma KnownMore(h: seq<Event>, some: set<BuildUse>, all: set<BuildUse>)
    requires Known(h, some) && some <= all
    ensures Known(h, all)
  {
    forall e | e in h ensures KnownEvent(e, all) { assert KnownEvent(e, some); }
  }

  // ---- the runs that break it ----

  /** The build gate when its workflow has succeeded. */
  lemma OpensAgain(c: Cluster, id: Id, source: Source, eff: Effective, st: AppStatus, u: BuildUse)
    requires var repoId := Id(id.namespace, source.repository);
             && BuildBlocked(c.world, repoId, ALL_WELL) == None
             && u == BuildUse(eff.namespace, eff.app, BuildRequest(c.world, c.world.repositories[repoId], source, eff,
                                                                   GitRef(c.world.repositories[repoId], source)))
    requires PhaseOf(c, u.Name()) == Succeeded
    ensures var s := BuildGate(c, id, source, eff, st, ALL_WELL);
            s.gate.Open? && s.gate.build == Some(u.request) && s.cluster == c
  {
    hide BuildName, ImageRef, PushRef, Endpoint;
  }

  /** The same pass again, over a build that has succeeded: nothing is built, and the application is applied. */
  lemma GatedAgain(c: Cluster, id: Id, spec: AppSpec, eff: Effective, st: AppStatus, u: BuildUse)
    requires spec.restoreFrom.None? && spec.source.Some?
    requires var repoId := Id(id.namespace, spec.source.value.repository);
             && BuildBlocked(c.world, repoId, ALL_WELL) == None
             && u == BuildUse(eff.namespace, eff.app, BuildRequest(c.world, c.world.repositories[repoId], spec.source.value, eff,
                                                                   GitRef(c.world.repositories[repoId], spec.source.value)))
    requires PhaseOf(c, u.Name()) == Succeeded
    ensures var s := Gated(c, id, spec, eff, st, ALL_WELL);
            s.cluster.apps == c.apps && s.cluster.history == c.history + [Applied(id, u.namespace, spec, Some(u.request))]
  {
    hide BuildGate, DeployStage, BuildRequest, BuildName, BuildBlocked;
    OpensAgain(c, id, spec.source.value, eff, st, u);
    var built := BuildGate(c, id, spec.source.value, eff, st, ALL_WELL);
    AppliesAgain(built.cluster, id, spec, eff, built.gate.image, built.gate.build, built.status);
  }

  lemma AppliesAgain(c: Cluster, id: Id, spec: AppSpec, eff: Effective, image: string, build: Option<Parameters>, st: AppStatus)
    ensures var s := DeployStage(c, id, spec, eff, image, build, st, ALL_WELL);
            s.cluster.history == c.history + [Applied(id, eff.namespace, spec, build)] && s.cluster.apps == c.apps
  {
    hide ResolveOidc, DeliveredSecret, DeliveredSecrets;
  }

  lemma PassAgain(c: Cluster, id: Id, spec: AppSpec, u: BuildUse)
    requires id in c.apps && c.apps[id].spec == spec && spec.restoreFrom.None?
    requires u in BuildOfPass(c.world, id, spec) && u.request.BuildParameters? && PhaseOf(c, u.Name()) == Succeeded
    ensures ApplicationPass(c, id, ALL_WELL).history == c.history + [Applied(id, u.namespace, spec, Some(u.request))]
  {
    var eff := BuildFound(c.world, id, spec, u);
    hide Resolve, Gated, BuildRequest, BuildName, BuildBlocked, BuildOfPass, ApplicationPass, Finish;
    PassIsGated(c, id, spec, eff, ALL_WELL);
    GatedAgain(c.(namespaces := c.namespaces + {eff.namespace}), id, spec, eff,
               c.apps[id].status.(namespace := eff.namespace), u);
  }

  /** From a cluster without applications: one is put whose build has succeeded before, and reconciled. */
  lemma ApplyAgain(c: Cluster, w: World, id: Id, spec: AppSpec, u: BuildUse) returns (s: seq<Step>)
    requires c.apps == map[] && spec.restoreFrom.None? && u in BuildOfPass(w, id, spec) && u.request.BuildParameters?
    requires PhaseOf(c, u.Name()) == Succeeded
    ensures UsesOfRun(c, s).builds <= {u}
    ensures Run(c, s).history == c.history + [Applied(id, u.namespace, spec, Some(u.request))]
  {
    hide Take, UsesOf, ApplicationPass, BuildOfPass, RestoreOfPass, Run, UsesOfRun, BuildName;
    var c1 := c.(world := w);
    var c2 := c1.(apps := c1.apps[id := App(spec, 1, NO_STATUS)]);
    var x, y, z := Surroundings(w), PutApp(id, spec), ReconcileApp(id, ALL_WELL);
    ThreeSteps(c, x, y, z);
    s := [x] + [y] + [z];
    Arrives(c, w, id, spec);
    Reconciles(c2, id, ALL_WELL);
    PassAgain(c2, id, spec, u);
    BuildIsOne(w, id, spec, u);
  }

  lemma ThreeSteps(c: Cluster, x: Step, y: Step, z: Step)
    ensures var c1 := Take(c, x);
            var c2 := Take(c1, y);
            var s := [x] + [y] + [z];
            && Run(c, s) == Take(c2, z)
            && UsesOfRun(c, s) == Union(Union(Union(Uses({}, {}, {}), UsesOf(c, x)), UsesOf(c1, y)), UsesOf(c2, z))
  {
    hide Take, UsesOf;
    Nothing(c);
    assert [] + [x] == [x];
    OneMore(c, [], x);
    OneMore(c, [x], y);
    OneMore(c, [x] + [y], z);
  }

  lemma LastUnowned(h: seq<Event>, e: Event)
    requires !FromOwnImage(h, e)
    ensures !ImagesOk(h + [e])
  {
    assert (h + [e])[..|h|] == h && (h + [e])[|h|] == e;
  }

  lemma BreaksImages(w: World, steps: seq<Step>, uses: set<BuildUse>)
    requires UsesOfRun(Fresh(w), steps).builds <= uses && !ImagesOk(Run(Fresh(w), steps).history)
    ensures !AlwaysOwnImage(uses)
  {
  }

  /** After the first build alone, the image of the second one has not been written, or by the first. */
  lemma NotYetWritten(e1: Event, e2: Event, e3: Event, p: Parameters, name: string, q: Parameters)
    requires !e1.Finished? && e2 == Finished(name, p) && !e3.Finished? && p != q && q.BuildParameters?
    ensures LastBuild([e1] + [e2] + [e3] + [Finished(name, p)], q.outputImage) != Some(q)
  {
    var h := [e1] + [e2] + [e3] + [Finished(name, p)];
    assert h[..3] == [e1] + [e2] + [e3] && h[..3][..2] == [e1] + [e2] && h[..3][..2][..1] == [e1] && [e1][..0] == [];
    assert LastBuild([e1], q.outputImage) == None;
    assert LastBuild([e1] + [e2], q.outputImage) != Some(q);
    assert LastBuild([e1] + [e2] + [e3], q.outputImage) != Some(q);
  }

  /** Two builds of one workflow name: the second one is never made, and its image not written. */
  lemma SharedNameBreaks(u: BuildUse, v: BuildUse, uses: set<BuildUse>)
    requires Buildable(u) && Buildable(v) && u in uses && v in uses
    requires u.request.BuildParameters? && v.request.BuildParameters? && u.Name() == v.Name() && u.request != v.request
    ensures !AlwaysOwnImage(uses)
  {
    hide Run, UsesOfRun, BuildOfPass, BuildName, AlwaysOwnImage, ImagesOk, LastBuild;
    var wu, idu, specu :| u in BuildOfPass(wu, idu, specu);
    var wv, idv, specv :| v in BuildOfPass(wv, idv, specv);
    RestoreIsNoMatter(wu, idu, specu);
    RestoreIsNoMatter(wv, idv, specv);
    var c := Fresh(wu);
    var s := BuildAndGo(c, wu, idu, specu.(restoreFrom := None), u);
    var t := BuildAndGo(Run(c, s), wv, idv, specv.(restoreFrom := None), v);
    Joined(c, s, t);
    var e1, e3 := Submitted(idu, u.Name(), u.request), Applied(idu, u.namespace, specu.(restoreFrom := None), Some(u.request));
    var f := Finished(u.Name(), u.request);
    var e := Applied(idv, v.namespace, specv.(restoreFrom := None), Some(v.request));
    assert Run(c, s + t).history == [e1] + [f] + [e3] + [f] + [e];
    SourceThere(wv, idv, specv, v);
    NotYetWritten(e1, f, e3, u.request, u.Name(), v.request);
    LastUnowned([e1] + [f] + [e3] + [f], e);
    BreaksImages(wu, s + t, uses);
  }

  lemma WrittenLast(h: seq<Event>, name: string, p: Parameters, e: Event)
    requires p.BuildParameters? && !e.Finished?
    ensures LastBuild(h + [Finished(name, p)] + [e], p.outputImage) == Some(p)
  {
    var k := h + [Finished(name, p)];
    assert (k + [e])[..|k|] == k;
  }

  /** Two builds with one image: after the second, a pass over the first application finds its own workflow succeeded, and
      applies the image that the second build has pushed. */
  lemma SharedImageBreaks(u: BuildUse, v: BuildUse, uses: set<BuildUse>)
    requires Buildable(u) && Buildable(v) && u in uses && v in uses
    requires u.request.BuildParameters? && v.request.BuildParameters? && u.Name() != v.Name()
    requires u.request.outputImage == v.request.outputImage && u.request != v.request
    ensures !AlwaysOwnImage(uses)
  {
    hide Run, UsesOfRun, BuildOfPass, BuildName, AlwaysOwnImage, ImagesOk, LastBuild;
    var wu, idu, specu :| u in BuildOfPass(wu, idu, specu);
    var wv, idv, specv :| v in BuildOfPass(wv, idv, specv);
    RestoreIsNoMatter(wu, idu, specu);
    RestoreIsNoMatter(wv, idv, specv);
    var c, spec := Fresh(wu), specu.(restoreFrom := None);
    var s := BuildAndGo(c, wu, idu, spec, u);
    var t := BuildAndGo(Run(c, s), wv, idv, specv.(restoreFrom := None), v);
    var r := ApplyAgain(Run(Run(c, s), t), wu, idu, spec, u);
    Joined(c, s, t);
    Joined(c, s + t, r);
    var front := Run(c, s).history + [Submitted(idv, v.Name(), v.request)];
    var e := Applied(idv, v.namespace, specv.(restoreFrom := None), Some(v.request));
    var h := front + [Finished(v.Name(), v.request)] + [e];
    assert Run(Run(c, s), t).history == h;
    SourceThere(wu, idu, specu, u);
    WrittenLast(front, v.Name(), v.request, e);
    LastUnowned(h, Applied(idu, u.namespace, spec, Some(u.request)));
    BreaksImages(wu, s + t + r, uses);
  }

  /** Over all runs, every application with a source is applied while its image is the one its own build has pushed, if and
      only if the names of the build workflows and the image references both tell the builds apart. */
  lemma AppliedImageIff(uses: set<BuildUse>)
    requires forall u :: u in uses ==> Buildable(u)
    ensures AlwaysOwnImage(uses) <==> BuildsTell(uses) && ImagesTell(uses)
  {
    hide Run, UsesOfRun, Buildable, BuildName, ImagesOk;
    if !BuildsTell(uses) {
      var u, v :| u in uses && v in uses && u.request.BuildParameters? && v.request.BuildParameters?
                  && u.Name() == v.Name() && u.request != v.request;
      SharedNameBreaks(u, v, uses);
    } else if !ImagesTell(uses) {
      var u, v :| u in uses && v in uses && u.request.BuildParameters? && v.request.BuildParameters?
                  && u.request.outputImage == v.request.outputImage && u.request != v.request;
      SharedImageBreaks(u, v, uses);
    } else {
      forall w, steps | UsesOfRun(Fresh(w), steps).builds <= uses ensures ImagesOk(Run(Fresh(w), steps).history) {
        TellingImages(w, steps, uses);
      }
    }
  }
}
