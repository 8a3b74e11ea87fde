/** The shared names of the engine at work in one ordinary world: two customers, one of which is called like an environment
    of the other. */
module EngineExamples {
  import opened Text
  import opened Wrappers
  import opened EngineModel
  import opened EngineSafety
  import opened EngineConvergence
  import opened EngineRuns
  import EngineBuilds
  import EngineImages
  import EngineStored
  import EngineNeighbours
  import EngineOutcomes
  import EngineOwnRestores
  import Names

  const ACME: string := "adomi-client-acme"
  const ACME_PROD: string := "adomi-client-acme-prod"

  const CONFIG: Config := Config("", "harbor", "apps", "", "secret", "odoo", "19", "", true, "snapshots", "adomi")

  const WORLD: World := World(
    map[Id(ACME, "prod") := EnvironmentSpec("acme", ""), Id(ACME_PROD, "eu") := EnvironmentSpec("acme-prod", "")],
    map[Id(ACME, "acme") := ClientSpec("acme", ""), Id(ACME_PROD, "acme-prod") := ClientSpec("acme-prod", "")],
    [], map["odoo" := "chart"], map[],
    map[Id(ACME, "shop") := Repository("https://git/shop", "main"), Id(ACME_PROD, "blog") := Repository("https://git/blog", "main")],
    map[Id(ACME, "pg") := "pg.local"], map[], {}, map[], CONFIG)

  /** An application with a host of its own, and nothing else. */
  function Plain(environment: string): AppSpec {
    AppSpec(environment, "odoo", "", "shop.example.org", None, None, [], [], "")
  }

  const BUILT: AppSpec := Plain("prod").(source := Some(Source("shop", "feature/x", "", "", "")))

  function Restoring(snapshot: string): AppSpec {
    Plain("prod").(restoreFrom := Some(Restore(snapshot, None)), databases := [DatabaseRef("db", "pg", "password")])
  }

  lemma HostIsThere()
    ensures Strip("shop.example.org", WHITESPACE) == "shop.example.org"
  {
  }

  lemma Slugs()
    ensures Strip("acme", WHITESPACE) == "acme" && Strip("acme-prod", WHITESPACE) == "acme-prod"
    ensures Names.NamespaceName("acme", "prod") == "acme-prod" && Names.NamespaceName("acme-prod", "eu") == "acme-prod-eu"
  {
    assert "acme" + "-" + "prod" == "acme-prod" && "acme-prod" + "-" + "eu" == "acme-prod-eu";
  }

  lemma Resolves(id: Id, spec: AppSpec) returns (eff: Effective)
    requires spec.appType == "odoo" && spec.domain == "" && spec.host == "shop.example.org"
    requires (id.namespace == ACME && spec.environment == "prod") || (id.namespace == ACME_PROD && spec.environment == "eu")
    ensures Resolve(WORLD, id, spec) == Resolved(eff) && eff.host != "" && eff.app == id.name
    ensures eff.namespace == if id.namespace == ACME then "acme-prod" else "acme-prod-eu"
    ensures eff.clientSlug == if id.namespace == ACME then "acme" else "acme-prod"
  {
    HostIsThere();
    Slugs();
    assert ACME != ACME_PROD by { assert |ACME| != |ACME_PROD|; }
    hide Strip, Names.NamespaceName;
    eff := Resolve(WORLD, id, spec).effective;
  }

  lemma CanBuild()
    ensures BuildOfPass(WORLD, Id(ACME, "web"), BUILT) != {}
  {
    var eff := Resolves(Id(ACME, "web"), BUILT);
    hide Resolve, BuildRequest;
    assert BuildBlocked(WORLD, Id(ACME, "shop"), ALL_WELL) == None;
  }

  /** Two branches of one application, built in this world. */
  lemma BranchesCollide()
    ensures var id, x, y := Id(ACME, "web"), BUILT, BUILT.(source := Some(Source("shop", "feature-x", "", "", "")));
            && BuildOfPass(WORLD, id, x) != {}
            && !EngineBuilds.AlwaysBuilt(BuildOfPass(WORLD, id, x) + BuildOfPass(WORLD, id, y))
  {
    hide BuildOfPass, EngineBuilds.AlwaysBuilt;
    CanBuild();
    EngineBuilds.BranchesShareABuild(WORLD, Id(ACME, "web"), BUILT, Source("shop", "feature/x", "", "", ""));
  }

  // ---- two images ----

  function FromSource(environment: string, repository: string): AppSpec {
    Plain(environment).(source := Some(Source(repository, "main", "", "", "")))
  }

  lemma BuildIs(id: Id, environment: string, repository: string) returns (u: BuildUse)
    requires (id.namespace == ACME && environment == "prod") || (id.namespace == ACME_PROD && environment == "eu")
    requires repository == if id.namespace == ACME then "shop" else "blog"
    ensures BuildOfPass(WORLD, id, FromSource(environment, repository)) == {u} && u.request.BuildParameters?
    ensures u.request.repoUrl == if id.namespace == ACME then "https://git/shop" else "https://git/blog"
    ensures u.request.outputImage
            == ImageRef(CONFIG, if id.namespace == ACME then "acme" else "acme-prod", id.name, "main")
  {
    var spec, url := FromSource(environment, repository), if id.namespace == ACME then "https://git/shop" else "https://git/blog";
    var eff := Resolves(id, spec);
    RepositoryIs(id.namespace, repository, url);
    assert spec.source == Some(Source(repository, "main", "", "", ""));
    OneBuild(WORLD, id, spec, eff, Repository(url, "main"));
    u := BuildUse(eff.namespace, id.name, BuildRequest(WORLD, Repository(url, "main"), spec.source.value, eff, "main"));
    hide *;
    RequestIs(Repository(url, "main"), spec.source.value, eff);
  }

  lemma OneBuild(w: World, id: Id, spec: AppSpec, eff: Effective, repo: Repository)
    requires Resolve(w, id, spec) == Resolved(eff) && eff.host != "" && spec.source.Some? && spec.source.value.ref != ""
    requires var repoId := Id(id.namespace, spec.source.value.repository);
             repoId in w.repositories && w.repositories[repoId] == repo && BuildBlocked(w, repoId, ALL_WELL) == None
    ensures BuildOfPass(w, id, spec)
            == {BuildUse(eff.namespace, id.name, BuildRequest(w, repo, spec.source.value, eff, spec.source.value.ref))}
  {
    hide Resolve, BuildBlocked, BuildRequest;
  }

  lemma RepositoryIs(namespace: string, repository: string, url: string)
    requires (namespace == ACME && repository == "shop" && url == "https://git/shop")
             || (namespace == ACME_PROD && repository == "blog" && url == "https://git/blog")
    ensures Id(namespace, repository) in WORLD.repositories
            && WORLD.repositories[Id(namespace, repository)] == Repository(url, "main")
    ensures BuildBlocked(WORLD, Id(namespace, repository), ALL_WELL) == None
  {
    assert ACME != ACME_PROD by { assert |ACME| != |ACME_PROD|; }
  }

  lemma RequestIs(repo: Repository, source: Source, eff: Effective)
    ensures var request := BuildRequest(WORLD, repo, source, eff, "main");
            && request.BuildParameters? && request.repoUrl == repo.url
            && request.outputImage == ImageRef(CONFIG, eff.clientSlug, eff.app, "main")
  {
    EngineOutcomes.NoEndpoint();
    hide ImageRef, Endpoint;
  }

  lemma SameImage(config: Config, ref: string)
    ensures ImageRef(config, "acme", "prod-web", ref) == ImageRef(config, "acme-prod", "web", ref)
  {
    hide Names.SanitizeTag;
    assert "acme" + "-" + "prod-web" == "acme-prod" + "-" + "web";
    SameInside(config.harborHost + "/" + config.harborProject + "/", "acme", "-", "prod-web", "acme-prod", "web",
               ":" + Names.SanitizeTag(ref));
  }

  lemma SameInside(front: string, a: string, dash: string, b: string, c: string, d: string, tail: string)
    requires a + dash + b == c + dash + d
    ensures front + a + dash + b + tail == front + c + dash + d + tail
  {
    assert front + a + dash + b == front + (a + dash + b);
    assert front + c + dash + d == front + (c + dash + d);
  }

  /** Application `prod-web` of client `acme` and application `web` of client `acme-prod` push to one image. */
  lemma ImagesCollide()
    ensures !EngineStored.AlwaysStoresOwn(BuildOfPass(WORLD, Id(ACME, "prod-web"), FromSource("prod", "shop"))
                                         + BuildOfPass(WORLD, Id(ACME_PROD, "web"), FromSource("eu", "blog")))
  {
    hide BuildOfPass, ImageRef, FromSource, EngineStored.AlwaysStoresOwn;
    assert ACME != ACME_PROD by { assert |ACME| != |ACME_PROD|; }
    var u := BuildIs(Id(ACME, "prod-web"), "prod", "shop");
    var v := BuildIs(Id(ACME_PROD, "web"), "eu", "blog");
    SameImage(CONFIG, "main");
    assert "https://git/shop"[12] != "https://git/blog"[12];
    assert {u} + {v} == {u, v};
    assert EngineBuilds.Buildable(u) && EngineBuilds.Buildable(v);
    assert u in {u, v} && v in {u, v};
    assert !EngineImages.ImagesTell({u, v});
    EngineStored.OwnImageIff({u, v});
  }

  // ---- two restores ----

  lemma OneRestore(w: World, spec: AppSpec, u: RestoreUse, eff: Effective)
    requires Resolve(w, u.app, spec) == Resolved(eff) && eff.host != "" && eff.namespace == u.namespace
    requires spec.restoreFrom.Some? && spec.restoreFrom.value.snapshot == u.snapshot != "" && u.app.name != ""
    requires ConnectionOf(w, u.app.namespace, spec.databases, u.namespace).Some?
    ensures EngineOwnRestores.Restorable(u)
  {
    hide Resolve, ConnectionOf;
    assert EngineOwnRestores.Restores(w, spec, u);
  }

  lemma CanRestore(app: string, snapshot: string)
    requires app != "" && snapshot != ""
    ensures EngineOwnRestores.Restorable(RestoreUse("acme-prod", Id(ACME, app), snapshot))
  {
    var id, spec := Id(ACME, app), Restoring(snapshot);
    var eff := Resolves(id, spec);
    assert ConnectionOf(WORLD, ACME, spec.databases, "acme-prod").Some? by { hide Resolve; }
    assert spec.restoreFrom == Some(Restore(snapshot, None));
    hide Resolve, ConnectionOf, Restoring, EngineOwnRestores.Restorable;
    OneRestore(WORLD, spec, RestoreUse("acme-prod", id, snapshot), eff);
  }

  /** Two applications of one environment, restored in this world. */
  lemma RestoresCollide()
    ensures !EngineOwnRestores.AlwaysRestored({RestoreUse("acme-prod", Id(ACME, "x"), "y-z"),
                                               RestoreUse("acme-prod", Id(ACME, "x-y"), "z")})
  {
    hide *;
    CanRestore("x", "y-z");
    CanRestore("x-y", "z");
    EngineOwnRestores.RestoreNamesCollide("acme-prod", ACME);
  }

  // ---- two neighbours ----

  const SHOP: Id := Id(ACME, "eu-web")
  const OTHER: Id := Id(ACME_PROD, "web")

  /** Both applications are put, and the first is reconciled until nothing is left to do. */
  function Neighbours(): Cluster {
    Run(Fresh(WORLD), EngineNeighbours.Meeting(SHOP, Plain("prod"), OTHER, Plain("eu")))
  }

  lemma NeighboursArePlaced() returns (eff: Effective, eff2: Effective)
    ensures EngineNeighbours.Placed(WORLD, SHOP, Plain("prod"), eff, OTHER, Plain("eu"), eff2)
    ensures EngineNeighbours.IsPlain(Plain("prod")) && EngineNeighbours.IsPlain(Plain("eu"))
    ensures eff.namespace == "acme-prod" && eff.app == "eu-web" && eff2.namespace == "acme-prod-eu" && eff2.app == "web"
  {
    assert SHOP.name[0] == 'e' && OTHER.name[0] == 'w';
    eff := Resolves(SHOP, Plain("prod"));
    eff2 := Resolves(OTHER, Plain("eu"));
    hide Resolve;
  }

  lemma NeighboursAre() returns (eff: Effective, eff2: Effective)
    ensures var c := Neighbours();
            && SHOP != OTHER && SHOP in c.apps && Settled(c, SHOP, Plain("prod"), eff)
            && EngineNeighbours.AboutToDeploy(c, OTHER, Plain("eu"), eff2)
            && eff.namespace == "acme-prod" && eff.app == "eu-web" && eff2.namespace == "acme-prod-eu" && eff2.app == "web"
  {
    hide Settled, Plain, Resolve, Run, EngineNeighbours.AboutToDeploy, EngineNeighbours.Meeting, EngineNeighbours.IsPlain;
    eff, eff2 := NeighboursArePlaced();
    EngineNeighbours.MeetingIs(WORLD, SHOP, Plain("prod"), eff, OTHER, Plain("eu"), eff2);
  }

  /** A finished application of one customer is undone by the next pass over an application of the other. */
  lemma NeighboursCollide()
    ensures exists eff :: Settled(Neighbours(), SHOP, Plain("prod"), eff)
                          && !Settled(Take(Neighbours(), ReconcileApp(OTHER, ALL_WELL)), SHOP, Plain("prod"), eff)
  {
    hide Settled, ApplicationPass, Neighbours, Plain, EngineNeighbours.AboutToDeploy, Resolve;
    var eff, eff2 := NeighboursAre();
    EngineNeighbours.NamesakesFight(Neighbours(), SHOP, Plain("prod"), eff, OTHER, Plain("eu"), eff2, ALL_WELL);
    assert Take(Neighbours(), ReconcileApp(OTHER, ALL_WELL)) == ApplicationPass(Neighbours(), OTHER, ALL_WELL);
  }
}
