/** Whom a parent's fan-out reaches: every application for which the parent decides what it resolves to, and none that
    refers to another environment, type or domain. */
module RequeueHeirs {
  import opened Wrappers
  import opened Requeue
  import Engine = EngineModel
  import Names
  import Secrets = ScopedSecrets

  /** An application as the fan-out sees it. */
  function Seen(spec: Engine.AppSpec, stamp: Option<string>): App {
    App(spec.environment, spec.appType, spec.domain, stamp)
  }

  /** The worlds differ in nothing but this parent. */
  predicate DifferIn(v: Engine.World, w: Engine.World, p: Parent) {
    match p
    case Organization(name) =>
      w == v.(organizations := w.organizations) && |w.organizations| == |v.organizations|
      && forall i :: 0 <= i < |v.organizations| && v.organizations[i].name != name ==> w.organizations[i] == v.organizations[i]
    case ApplicationType(name) => w == v.(charts := w.charts) && w.charts - {name} == v.charts - {name}
    case Client(name, namespace) =>
      w == v.(clients := w.clients) && w.clients - {Engine.Id(namespace, name)} == v.clients - {Engine.Id(namespace, name)}
    case Environment(name, namespace) =>
      && w == v.(environments := w.environments)
      && w.environments - {Engine.Id(namespace, name)} == v.environments - {Engine.Id(namespace, name)}
    case Domain(name, namespace) =>
      w == v.(domains := w.domains) && w.domains - {Engine.Id(namespace, name)} == v.domains - {Engine.Id(namespace, name)}
  }

  lemma SameAt<K, V>(m: map<K, V>, n: map<K, V>, key: K, k: K)
    requires m - {key} == n - {key} && k != key
    ensures Lookup(m, k) == Lookup(n, k)
  {
    assert k in m - {key} <==> k in m;
    assert k in n - {key} <==> k in n;
    if k in m { assert (m - {key})[k] == m[k] && (n - {key})[k] == n[k]; }
  }

  /** The application refers to another parent of the kind, or is in another namespace. */
  predicate RefersElsewhere(p: Parent, id: Id, app: App) {
    match p
    case Organization(_) => false
    case ApplicationType(name) => app.appType != name
    case Client(_, namespace) => id.namespace != namespace
    case Environment(name, namespace) => app.environment != name || id.namespace != namespace
    case Domain(name, namespace) => app.domain != name || id.namespace != namespace
  }

  function Lookup<K, V>(m: map<K, V>, k: K): Option<V> {
    if k in m then Some(m[k]) else None
  }

  /** All that an application's references lead to. */
  lemma SameReferences(v: Engine.World, w: Engine.World, id: Engine.Id, spec: Engine.AppSpec)
    requires v.organizations == w.organizations && v.config == w.config
    requires var at := Engine.Id(id.namespace, spec.environment);
             && Lookup(v.environments, at) == Lookup(w.environments, at)
             && (at in v.environments ==>
                   var client := Engine.Id(id.namespace, v.environments[at].clientRef);
                   Lookup(v.clients, client) == Lookup(w.clients, client))
    requires Lookup(v.charts, spec.appType) == Lookup(w.charts, spec.appType)
    requires var domain := Engine.Id(id.namespace, spec.domain); Lookup(v.domains, domain) == Lookup(w.domains, domain)
    ensures Engine.Resolve(v, id, spec) == Engine.Resolve(w, id, spec)
  {
    hide Engine.Host, Names.NamespaceName, Secrets.ControllerPaths, Engine.FindOrganization, Engine.FirstOf;
  }

  /** A change of a parent that the application does not refer to changes nothing for it. */
  lemma ElsewhereIsSame(v: Engine.World, w: Engine.World, p: Parent, id: Engine.Id, spec: Engine.AppSpec)
    requires DifferIn(v, w, p) && RefersElsewhere(p, Id(id.namespace, id.name), Seen(spec, None))
    ensures Engine.Resolve(v, id, spec) == Engine.Resolve(w, id, spec)
  {
    hide Engine.Resolve;
    var environment, domain := Engine.Id(id.namespace, spec.environment), Engine.Id(id.namespace, spec.domain);
    match p {
      case ApplicationType(name) => SameAt(v.charts, w.charts, name, spec.appType);
      case Client(name, namespace) =>
        if environment in v.environments {
          SameAt(v.clients, w.clients, Engine.Id(namespace, name), Engine.Id(id.namespace, v.environments[environment].clientRef));
        }
      case Environment(name, namespace) => SameAt(v.environments, w.environments, Engine.Id(namespace, name), environment);
      case Domain(name, namespace) => SameAt(v.domains, w.domains, Engine.Id(namespace, name), domain);
    }
    SameReferences(v, w, id, spec);
  }

  /** A change of one parent that changes what an application resolves to is a change of one that the application refers to,
      and inherits from. */
  lemma ChangeIsInherited(v: Engine.World, w: Engine.World, p: Parent, id: Engine.Id, spec: Engine.AppSpec, apps: Apps)
    requires DifferIn(v, w, p) && Engine.Resolve(v, id, spec) != Engine.Resolve(w, id, spec)
    requires var at := Id(id.namespace, id.name); at in apps && apps[at] == Seen(spec, apps[at].stamp)
    ensures var at := Id(id.namespace, id.name); !RefersElsewhere(p, at, apps[at]) && at in Heirs(apps, p)
  {
    hide Engine.Resolve, DifferIn;
    if RefersElsewhere(p, Id(id.namespace, id.name), Seen(spec, None)) { ElsewhereIsSame(v, w, p, id, spec); }
  }

  /** A fan-out stamps exactly the applications that do not refer elsewhere. */
  lemma StampedIff(apps: Apps, p: Parent, generation: nat, id: Id)
    requires id in apps
    ensures var after := Stamped(apps, p, generation, ANSWERED);
            && id in after
            && (RefersElsewhere(p, id, apps[id]) ==> after[id] == apps[id])
            && (!RefersElsewhere(p, id, apps[id]) ==>
                  after[id] == apps[id].(stamp := Some(Revision(Kind(p), p.name, generation))))
  {
    hide Revision, Kind;
  }

  /** In every run that does not remove the parent: when a change of it changes what an application resolves to, the first
      reconcile at its generation that is answered puts the stamp on the application, which did not have it. */
  lemma ChangeReachesApplication(steps: seq<Step>, p: Parent, v: Engine.World, w: Engine.World, id: Engine.Id, spec: Engine.AppSpec)
    requires AllPlain(steps) && Remove(p) !in steps
    requires var s, at := Run(EMPTY, steps), Id(id.namespace, id.name);
             && p in s.parents && MarkOf(s, p) !in s.done && at in s.apps && s.apps[at] == Seen(spec, s.apps[at].stamp)
    requires DifferIn(v, w, p) && Engine.Resolve(v, id, spec) != Engine.Resolve(w, id, spec)
    ensures var s, at := Run(EMPTY, steps), Id(id.namespace, id.name);
            var stamp := Some(RevisionOf(p, s.parents[p].generation));
            && s.apps[at].stamp != stamp
            && Stamped(s.apps, p, s.parents[p].generation, ANSWERED)[at].stamp == stamp
  {
    hide Run, RevisionOf, DifferIn, Engine.Resolve;
    var s := Run(EMPTY, steps);
    ChangeIsInherited(v, w, p, id, spec, s.apps);
    OneLifeReachesAll(steps, p);
  }

  /** What the annotation looks like. */
  lemma RevisionFormat()
    ensures RevisionOf(Client("acme", "adomi-client-acme"), 3) == "client/acme@3"
    ensures RevisionOf(Domain("apex", "adomi-client-acme"), 0) == "domain/apex@0"
    ensures RevisionOf(Environment("production", "adomi-client-acme"), 2) == "environment/production@2"
    ensures RevisionOf(Organization("adomi"), 5) == "organization/adomi@5"
    ensures RevisionOf(ApplicationType("odoo"), 1) == "applicationtype/odoo@1"
  {
    assert Revision("client", "acme", 3) == "client" + "/" + "acme" + "@" + "3";
  }
}
