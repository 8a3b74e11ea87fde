/** The import sweep: every custom resource of the cluster becomes one record of the portal, parents before children, and
    a record only ever takes the status of its own resource. */
module ImportSweep {
  import opened Wrappers

  // ---- the cluster and the portal ----

  /** A Client or ApplicationType resource: known by its name alone. */
  datatype Flat = Flat(name: string, status: string)

  datatype Environment = Environment(namespace: string, name: string, clientRef: string, status: string)

  datatype Application = Application(namespace: string, name: string, environmentRef: string, appType: string, status: string)

  datatype Cluster = Cluster(types: seq<Flat>, clients: seq<Flat>, environments: seq<Environment>, applications: seq<Application>)

  /** Records refer to their parents by position; the sweep deletes none. */
  datatype EnvRecord = EnvRecord(client: nat, name: string, status: string)

  datatype AppRecord = AppRecord(environment: nat, appType: nat, name: string, status: string)

  datatype Portal = Portal(types: seq<Flat>, clients: seq<Flat>, environments: seq<EnvRecord>, applications: seq<AppRecord>)

  /** References point at records that are there. */
  predicate Linked(p: Portal) {
    && (forall i :: 0 <= i < |p.environments| ==> p.environments[i].client < |p.clients|)
    && (forall i :: 0 <= i < |p.applications| ==>
          p.applications[i].environment < |p.environments| && p.applications[i].appType < |p.types|)
  }

  /** The slug in a client namespace's name; "" for any other namespace. */
  function SlugOf(prefix: string, namespace: string): string {
    if prefix != "" && prefix <= namespace then namespace[|prefix|..] else ""
  }

  /** Only a namespace that is the prefix and a slug belongs to a client, and to that one. */
  lemma SlugTells(prefix: string, namespace: string)
    ensures SlugOf(prefix, namespace) != "" <==> prefix != "" && prefix < namespace
    ensures forall slug: string :: slug != "" && prefix != "" ==> (SlugOf(prefix, namespace) == slug <==> namespace == prefix + slug)
  {
    forall slug: string | slug != "" && prefix != "" ensures SlugOf(prefix, namespace) == slug <==> namespace == prefix + slug {
      if namespace == prefix + slug {
        assert prefix <= namespace && namespace[|prefix|..] == slug;
      }
    }
  }

  // ---- identity searches (`limit=1`) ----

  function FindFlat(records: seq<Flat>, name: string): Option<nat> {
    if records == [] then None
    else
      var front := FindFlat(records[..|records| - 1], name);
      if front.Some? then front else if records[|records| - 1].name == name then Some(|records| - 1) else None
  }

  /** The environment's client and name, as its record knows them. */
  function EnvKey(p: Portal, i: nat): (string, string)
    requires Linked(p) && i < |p.environments|
  {
    (p.clients[p.environments[i].client].name, p.environments[i].name)
  }

  /** The record with this client (any, for "") and name, among the first `n`. */
  function FindEnv(p: Portal, client: string, name: string, n: nat): Option<nat>
    requires Linked(p) && n <= |p.environments|
  {
    if n == 0 then None
    else
      var front := FindEnv(p, client, name, n - 1);
      if front.Some? then front
      else if EnvKey(p, n - 1).1 == name && (client == "" || EnvKey(p, n - 1).0 == client) then Some(n - 1) else None
  }

  function AppKey(p: Portal, i: nat): (string, string, string)
    requires Linked(p) && i < |p.applications|
  {
    var e := EnvKey(p, p.applications[i].environment);
    (e.0, e.1, p.applications[i].name)
  }

  function FindApp(p: Portal, client: string, environment: string, name: string, n: nat): Option<nat>
    requires Linked(p) && n <= |p.applications|
  {
    if n == 0 then None
    else
      var front, key := FindApp(p, client, environment, name, n - 1), AppKey(p, n - 1);
      if front.Some? then front
      else if key.2 == name && (client == "" || key.0 == client) && (environment == "" || key.1 == environment) then Some(n - 1)
      else None
  }

  // ---- importing one resource ----

  /** The client that an environment resource is searched under: the one it names, or else that of its namespace. */
  function EnvSlug(prefix: string, r: Environment): string {
    if r.clientRef != "" then r.clientRef else SlugOf(prefix, r.namespace)
  }

  /** Created from the resource, or refreshed with its status. */
  function ImportFlat(records: seq<Flat>, r: Flat): seq<Flat> {
    if r.name == "" then records
    else
      var i := FindFlat(records, r.name);
      if i.Some? && i.value < |records| then records[i.value := records[i.value].(status := r.status)] else records + [r]
  }

  function ImportEnvironment(p: Portal, prefix: string, r: Environment): Portal
    requires Linked(p)
  {
    var slug := EnvSlug(prefix, r);
    if r.name == "" then p
    else
      var i := FindEnv(p, slug, r.name, |p.environments|);
      if i.Some? && i.value < |p.environments| then
        p.(environments := p.environments[i.value := p.environments[i.value].(status := r.status)])
      else
        var client := if r.clientRef != "" then FindFlat(p.clients, r.clientRef) else None;
        if client.None? then p
        else p.(environments := p.environments + [EnvRecord(client.value, r.name, r.status)])
  }

  function ImportApplication(p: Portal, prefix: string, r: Application): Portal
    requires Linked(p)
  {
    var slug := SlugOf(prefix, r.namespace);
    if r.name == "" then p
    else
      var i := FindApp(p, slug, r.environmentRef, r.name, |p.applications|);
      if i.Some? && i.value < |p.applications| then
        p.(applications := p.applications[i.value := p.applications[i.value].(status := r.status)])
      else
        var environment := if r.environmentRef != "" then FindEnv(p, slug, r.environmentRef, |p.environments|) else None;
        var appType := if r.appType != "" then FindFlat(p.types, r.appType) else None;
        if environment.None? || appType.None? then p
        else p.(applications := p.applications + [AppRecord(environment.value, appType.value, r.name, r.status)])
  }

  lemma {:induction false} FindFlatIs(records: seq<Flat>, name: string)
    ensures var i := FindFlat(records, name);
            && (i.Some? ==> i.value < |records| && records[i.value].name == name)
            && (i.None? ==> forall k :: 0 <= k < |records| ==> records[k].name != name)
  {
    if records != [] { FindFlatIs(records[..|records| - 1], name); }
  }

  lemma {:induction false} FindEnvIs(p: Portal, client: string, name: string, n: nat)
    requires Linked(p) && n <= |p.environments|
    ensures var i := FindEnv(p, client, name, n);
            && (i.Some? ==> i.value < n && EnvKey(p, i.value).1 == name && (client != "" ==> EnvKey(p, i.value).0 == client))
            && (i.None? && client != "" ==> forall k :: 0 <= k < n ==> EnvKey(p, k) != (client, name))
  {
    if n > 0 { FindEnvIs(p, client, name, n - 1); }
  }

  lemma {:induction false} FindAppIs(p: Portal, client: string, environment: string, name: string, n: nat)
    requires Linked(p) && n <= |p.applications|
    ensures var i := FindApp(p, client, environment, name, n);
            && (i.Some? ==> i.value < n && AppKey(p, i.value).2 == name
                            && (client != "" ==> AppKey(p, i.value).0 == client)
                            && (environment != "" ==> AppKey(p, i.value).1 == environment))
            && (i.None? && client != "" && environment != "" ==>
                  forall k :: 0 <= k < n ==> AppKey(p, k) != (client, environment, name))
  {
    if n > 0 { FindAppIs(p, client, environment, name, n - 1); }
  }

  lemma EnvironmentKeepsLinks(p: Portal, prefix: string, r: Environment)
    requires Linked(p)
    ensures Linked(ImportEnvironment(p, prefix, r))
  {
    hide FindEnv, FindFlat, SlugOf, EnvKey;
    FindFlatIs(p.clients, r.clientRef);
  }

  lemma ApplicationKeepsLinks(p: Portal, prefix: string, r: Application)
    requires Linked(p)
    ensures Linked(ImportApplication(p, prefix, r))
  {
    hide FindEnv, FindApp, FindFlat, SlugOf, EnvKey, AppKey;
    FindFlatIs(p.types, r.appType);
    FindEnvIs(p, SlugOf(prefix, r.namespace), r.environmentRef, |p.environments|);
  }

  lemma {:induction false} FlatsGrow(records: seq<Flat>, rs: seq<Flat>)
    ensures |records| <= |ImportFlats(records, rs)|
    ensures forall i :: 0 <= i < |records| ==> ImportFlats(records, rs)[i].name == records[i].name
  {
    if rs != [] {
      FlatsGrow(records, rs[..|rs| - 1]);
    }
  }

  lemma CatalogKeepsLinks(p: Portal, c: Cluster)
    requires Linked(p)
    ensures Linked(ImportCatalog(p, c))
  {
    FlatsGrow(p.types, c.types);
    FlatsGrow(p.clients, c.clients);
  }

  // ---- the whole sweep ----

  function ImportFlats(records: seq<Flat>, rs: seq<Flat>): seq<Flat> {
    if rs == [] then records else ImportFlat(ImportFlats(records, rs[..|rs| - 1]), rs[|rs| - 1])
  }

  function ImportEnvironments(p: Portal, prefix: string, rs: seq<Environment>): (q: Portal)
    requires Linked(p)
    ensures Linked(q)
  {
    if rs == [] then p
    else
      var front := ImportEnvironments(p, prefix, rs[..|rs| - 1]);
      EnvironmentKeepsLinks(front, prefix, rs[|rs| - 1]);
      ImportEnvironment(front, prefix, rs[|rs| - 1])
  }

  function ImportApplications(p: Portal, prefix: string, rs: seq<Application>): (q: Portal)
    requires Linked(p)
    ensures Linked(q)
  {
    if rs == [] then p
    else
      var front := ImportApplications(p, prefix, rs[..|rs| - 1]);
      ApplicationKeepsLinks(front, prefix, rs[|rs| - 1]);
      ImportApplication(front, prefix, rs[|rs| - 1])
  }

  function ImportCatalog(p: Portal, c: Cluster): Portal {
    p.(types := ImportFlats(p.types, c.types), clients := ImportFlats(p.clients, c.clients))
  }

  /** Types and clients, then environments, then applications. */
  function Sweep(p: Portal, prefix: string, c: Cluster): (q: Portal)
    requires Linked(p)
    ensures Linked(q)
  {
    CatalogKeepsLinks(p, c);
    ImportApplications(ImportEnvironments(ImportCatalog(p, c), prefix, c.environments), prefix, c.applications)
  }

  // ---- the portal as tables from identity to status ----

  ghost predicate Distinct<K>(keys: seq<K>) {
    forall i, j :: 0 <= i < j < |keys| ==> keys[i] != keys[j]
  }

  /** The table with one row per key. */
  ghost function Rows<K, V>(keys: seq<K>, vals: seq<V>): map<K, V>
    requires |keys| == |vals|
  {
    if keys == [] then map[]
    else Rows(keys[..|keys| - 1], vals[..|vals| - 1])[keys[|keys| - 1] := vals[|vals| - 1]]
  }

  lemma {:induction false} RowsAre<K, V>(keys: seq<K>, vals: seq<V>)
    requires |keys| == |vals| && Distinct(keys)
    ensures Rows(keys, vals).Keys == set k | k in keys
    ensures forall i :: 0 <= i < |keys| ==> Rows(keys, vals)[keys[i]] == vals[i]
  {
    if keys != [] { RowsAre(keys[..|keys| - 1], vals[..|vals| - 1]); }
  }

  lemma RowsSet<K, V>(keys: seq<K>, vals: seq<V>, i: nat, v: V)
    requires |keys| == |vals| && Distinct(keys) && i < |keys|
    ensures Rows(keys, vals[i := v]) == Rows(keys, vals)[keys[i] := v]
  {
    RowsAre(keys, vals);
    RowsAre(keys, vals[i := v]);
    var t, u := Rows(keys, vals)[keys[i] := v], Rows(keys, vals[i := v]);
    assert keys[i] in Rows(keys, vals).Keys;
    assert t.Keys == u.Keys;
    forall k | k in t.Keys ensures t[k] == u[k] {
      assert k in keys;
    }
  }

  lemma RowsAppend<K, V>(keys: seq<K>, vals: seq<V>, k: K, v: V)
    requires |keys| == |vals| && Distinct(keys) && k !in keys
    ensures Distinct(keys + [k]) && Rows(keys + [k], vals + [v]) == Rows(keys, vals)[k := v]
  {
    assert (keys + [k])[..|keys|] == keys && (vals + [v])[..|vals|] == vals;
  }

  ghost function Names(records: seq<Flat>): seq<string> {
    seq(|records|, i requires 0 <= i < |records| => records[i].name)
  }

  ghost function EnvKeys(p: Portal): seq<(string, string)>
    requires Linked(p)
  {
    seq(|p.environments|, i requires 0 <= i < |p.environments| => EnvKey(p, i))
  }

  ghost function AppKeys(p: Portal): seq<(string, string, string)>
    requires Linked(p)
  {
    seq(|p.applications|, i requires 0 <= i < |p.applications| => AppKey(p, i))
  }

  /** No two records of a kind share an identity. */
  ghost predicate WellFormed(p: Portal) {
    && Linked(p) && Distinct(Names(p.types)) && Distinct(Names(p.clients))
    && Distinct(EnvKeys(p)) && Distinct(AppKeys(p))
  }

  ghost function Statuses(records: seq<Flat>): seq<string> {
    seq(|records|, i requires 0 <= i < |records| => records[i].status)
  }

  ghost function FlatTable(records: seq<Flat>): map<string, string> {
    Rows(Names(records), Statuses(records))
  }

  ghost function EnvStatuses(p: Portal): seq<string> {
    seq(|p.environments|, i requires 0 <= i < |p.environments| => p.environments[i].status)
  }

  ghost function EnvTable(p: Portal): map<(string, string), string>
    requires Linked(p)
  {
    Rows(EnvKeys(p), EnvStatuses(p))
  }

  datatype AppRow = AppRow(appType: string, status: string)

  ghost function AppRows(p: Portal): seq<AppRow>
    requires Linked(p)
  {
    seq(|p.applications|, i requires 0 <= i < |p.applications| =>
      AppRow(p.types[p.applications[i].appType].name, p.applications[i].status))
  }

  ghost function AppTable(p: Portal): map<(string, string, string), AppRow>
    requires Linked(p)
  {
    Rows(AppKeys(p), AppRows(p))
  }

  /** In its client's namespace, with `clientRef` naming that client. */
  predicate EnvInPlace(prefix: string, r: Environment) {
    prefix != "" && r.name != "" && r.clientRef != "" && r.namespace == prefix + r.clientRef
  }

  predicate AppInPlace(prefix: string, r: Application) {
    prefix != "" && r.name != "" && r.environmentRef != "" && prefix < r.namespace
  }

  ghost function CrEnvKey(r: Environment): (string, string) { (r.clientRef, r.name) }

  ghost function CrAppKey(prefix: string, r: Application): (string, string, string) {
    (SlugOf(prefix, r.namespace), r.environmentRef, r.name)
  }

  ghost predicate ParentsThere(prefix: string, r: Application, environments: set<(string, string)>, types: set<string>) {
    (SlugOf(prefix, r.namespace), r.environmentRef) in environments && r.appType != "" && r.appType in types
  }

  // ---- one import on the tables ----

  lemma FlatStep(records: seq<Flat>, r: Flat)
    requires Distinct(Names(records)) && r.name != ""
    ensures Distinct(Names(ImportFlat(records, r)))
    ensures FlatTable(ImportFlat(records, r)) == FlatTable(records)[r.name := r.status]
  {
    hide FindFlat, Rows;
    FindFlatIs(records, r.name);
    var statuses := Statuses(records);
    var found := FindFlat(records, r.name);
    if found.Some? {
      RowsSet(Names(records), statuses, found.value, r.status);
      assert Names(ImportFlat(records, r)) == Names(records);
      assert Statuses(ImportFlat(records, r)) == statuses[found.value := r.status];
    } else {
      RowsAppend(Names(records), statuses, r.name, r.status);
      assert Names(ImportFlat(records, r)) == Names(records) + [r.name];
      assert Statuses(ImportFlat(records, r)) == statuses + [r.status];
    }
  }

  // A search for a full key finds its record exactly when the table has the row.

  lemma FlatFound(records: seq<Flat>, name: string)
    requires Distinct(Names(records))
    ensures FindFlat(records, name).Some? <==> name in FlatTable(records)
    ensures var i := FindFlat(records, name); i.Some? ==> i.value < |records| && records[i.value].name == name
  {
    hide FindFlat, Rows;
    FindFlatIs(records, name);
    RowsAre(Names(records), Statuses(records));
    if i :| 0 <= i < |records| && records[i].name == name { assert Names(records)[i] == name; }
  }

  lemma EnvFound(p: Portal, client: string, name: string)
    requires WellFormed(p) && client != ""
    ensures var i := FindEnv(p, client, name, |p.environments|);
            && (i.Some? <==> (client, name) in EnvTable(p))
            && (i.Some? ==> i.value < |p.environments| && EnvKey(p, i.value) == (client, name))
  {
    hide FindEnv, Rows, EnvKey, AppKeys;
    FindEnvIs(p, client, name, |p.environments|);
    RowsAre(EnvKeys(p), EnvStatuses(p));
    if i :| 0 <= i < |p.environments| && EnvKey(p, i) == (client, name) { assert EnvKeys(p)[i] == (client, name); }
  }

  lemma AppFound(p: Portal, client: string, environment: string, name: string)
    requires WellFormed(p) && client != "" && environment != ""
    ensures var i := FindApp(p, client, environment, name, |p.applications|);
            && (i.Some? <==> (client, environment, name) in AppTable(p))
            && (i.Some? ==> i.value < |p.applications| && AppKey(p, i.value) == (client, environment, name))
            && (i.Some? ==> AppTable(p)[(client, environment, name)] == AppRows(p)[i.value])
  {
    hide FindApp, Rows, AppKey, EnvKeys;
    FindAppIs(p, client, environment, name, |p.applications|);
    RowsAre(AppKeys(p), AppRows(p));
    if i :| 0 <= i < |p.applications| && AppKey(p, i) == (client, environment, name) {
      assert AppKeys(p)[i] == (client, environment, name);
    }
  }

  /** Records that keep their client and name, over clients that keep their names, keep their keys. */
  lemma KeysStay(p: Portal, q: Portal)
    requires Linked(p) && Linked(q)
    requires |p.clients| <= |q.clients| && forall i :: 0 <= i < |p.clients| ==> q.clients[i].name == p.clients[i].name
    requires |p.environments| <= |q.environments| && |p.applications| <= |q.applications|
    requires forall i :: 0 <= i < |p.environments| ==>
               q.environments[i].client == p.environments[i].client && q.environments[i].name == p.environments[i].name
    requires forall i :: 0 <= i < |p.applications| ==>
               q.applications[i].environment == p.applications[i].environment && q.applications[i].name == p.applications[i].name
    ensures EnvKeys(q)[..|p.environments|] == EnvKeys(p) && AppKeys(q)[..|p.applications|] == AppKeys(p)
  {
    assert forall i :: 0 <= i < |p.environments| ==> EnvKey(q, i) == EnvKey(p, i);
    assert forall i :: 0 <= i < |p.applications| ==> AppKey(q, i) == AppKey(p, i);
  }

  lemma EnvRefreshed(p: Portal, i: nat, status: string)
    requires WellFormed(p) && i < |p.environments|
    ensures var q := p.(environments := p.environments[i := p.environments[i].(status := status)]);
            WellFormed(q) && EnvTable(q) == EnvTable(p)[EnvKey(p, i) := status] && AppTable(q) == AppTable(p)
  {
    var q := p.(environments := p.environments[i := p.environments[i].(status := status)]);
    KeysStay(p, q);
    hide EnvKey, AppKey, Rows;
    assert EnvKeys(q) == EnvKeys(p) && AppKeys(q) == AppKeys(p);
    assert AppRows(q) == AppRows(p);
    RowsSet(EnvKeys(p), EnvStatuses(p), i, status);
    assert EnvStatuses(q) == EnvStatuses(p)[i := status];
  }

  lemma EnvAdded(p: Portal, r: EnvRecord)
    requires WellFormed(p) && r.client < |p.clients| && (p.clients[r.client].name, r.name) !in EnvKeys(p)
    ensures var q := p.(environments := p.environments + [r]);
            && WellFormed(q) && EnvTable(q) == EnvTable(p)[(p.clients[r.client].name, r.name) := r.status]
            && AppTable(q) == AppTable(p)
  {
    var q := p.(environments := p.environments + [r]);
    var n, key := |p.environments|, (p.clients[r.client].name, r.name);
    KeysStay(p, q);
    assert EnvKey(q, n) == key;
    hide EnvKey, AppKey, Rows;
    assert EnvKeys(q) == EnvKeys(p) + [key] && AppKeys(q) == AppKeys(p);
    assert AppRows(q) == AppRows(p);
    RowsAppend(EnvKeys(p), EnvStatuses(p), key, r.status);
    assert EnvStatuses(q) == EnvStatuses(p) + [r.status];
  }

  lemma AppRefreshed(p: Portal, i: nat, status: string)
    requires WellFormed(p) && i < |p.applications|
    ensures var q := p.(applications := p.applications[i := p.applications[i].(status := status)]);
            && WellFormed(q) && EnvTable(q) == EnvTable(p)
            && AppTable(q) == AppTable(p)[AppKey(p, i) := AppRows(p)[i].(status := status)]
  {
    var q := p.(applications := p.applications[i := p.applications[i].(status := status)]);
    KeysStay(p, q);
    hide EnvKey, AppKey, Rows, Distinct;
    assert EnvKeys(q) == EnvKeys(p);
    assert AppKeys(q) == AppKeys(p);
    assert EnvStatuses(q) == EnvStatuses(p);
    var rows := AppRows(p)[i := AppRows(p)[i].(status := status)];
    assert AppRows(q) == rows;
    RowsSet(AppKeys(p), AppRows(p), i, AppRows(p)[i].(status := status));
  }

  lemma AppAdded(p: Portal, r: AppRecord)
    requires WellFormed(p) && r.environment < |p.environments| && r.appType < |p.types|
    requires var e := EnvKey(p, r.environment); (e.0, e.1, r.name) !in AppKeys(p)
    ensures var q, e := p.(applications := p.applications + [r]), EnvKey(p, r.environment);
            && WellFormed(q) && EnvTable(q) == EnvTable(p)
            && AppTable(q) == AppTable(p)[(e.0, e.1, r.name) := AppRow(p.types[r.appType].name, r.status)]
  {
    var q, e := p.(applications := p.applications + [r]), EnvKey(p, r.environment);
    var key, row := (e.0, e.1, r.name), AppRow(p.types[r.appType].name, r.status);
    KeysStay(p, q);
    assert AppKey(q, |p.applications|) == key;
    hide EnvKey, AppKey, Rows;
    assert EnvKeys(q) == EnvKeys(p) && AppKeys(q) == AppKeys(p) + [key];
    assert EnvStatuses(q) == EnvStatuses(p);
    RowsAppend(AppKeys(p), AppRows(p), key, row);
    assert AppRows(q) == AppRows(p) + [row];
  }

  /** One environment resource: its row is written if it is there or its client is; nothing else changes. */
  lemma EnvironmentStep(p: Portal, prefix: string, r: Environment)
    requires WellFormed(p) && r.name != "" && r.clientRef != ""
    ensures var q := ImportEnvironment(p, prefix, r);
            && WellFormed(q) && q.types == p.types && q.clients == p.clients && AppTable(q) == AppTable(p)
            && EnvTable(q) == if CrEnvKey(r) in EnvTable(p) || r.clientRef in FlatTable(p.clients)
                              then EnvTable(p)[CrEnvKey(r) := r.status] else EnvTable(p)
  {
    FlatFound(p.clients, r.clientRef);
    EnvFound(p, r.clientRef, r.name);
    var i, c := FindEnv(p, r.clientRef, r.name, |p.environments|), FindFlat(p.clients, r.clientRef);
    hide FindEnv, FindFlat, SlugOf, Rows, EnvKey, AppKey, FlatTable;
    if i.Some? {
      EnvRefreshed(p, i.value, r.status);
    } else if c.Some? {
      RowsAre(EnvKeys(p), EnvStatuses(p));
      EnvAdded(p, EnvRecord(c.value, r.name, r.status));
    }
  }

  /** The application's row written, if it is there or its environment and type are. */
  ghost function AppRowSet(
    t: map<(string, string, string), AppRow>, environments: set<(string, string)>, types: set<string>,
    prefix: string, r: Application): map<(string, string, string), AppRow>
  {
    var key := CrAppKey(prefix, r);
    if key in t then t[key := AppRow(t[key].appType, r.status)]
    else if ParentsThere(prefix, r, environments, types) then t[key := AppRow(r.appType, r.status)] else t
  }

  /** One application resource: refreshed if it is there, added if its environment and type are. */
  lemma ApplicationStep(p: Portal, prefix: string, r: Application)
    requires WellFormed(p) && AppInPlace(prefix, r)
    ensures var q := ImportApplication(p, prefix, r);
            && WellFormed(q) && q.types == p.types && q.clients == p.clients && EnvTable(q) == EnvTable(p)
            && AppTable(q) == AppRowSet(AppTable(p), EnvTable(p).Keys, FlatTable(p.types).Keys, prefix, r)
  {
    var slug := SlugOf(prefix, r.namespace);
    FlatFound(p.types, r.appType);
    EnvFound(p, slug, r.environmentRef);
    AppFound(p, slug, r.environmentRef, r.name);
    var i := FindApp(p, slug, r.environmentRef, r.name, |p.applications|);
    var e, t := FindEnv(p, slug, r.environmentRef, |p.environments|), FindFlat(p.types, r.appType);
    hide FindEnv, FindFlat, FindApp, Rows, EnvKey, FlatTable;
    if i.Some? {
      AppRefreshed(p, i.value, r.status);
    } else if e.Some? && r.appType != "" && t.Some? {
      RowsAre(AppKeys(p), AppRows(p));
      AppAdded(p, AppRecord(e.value, t.value, r.name, r.status));
    }
  }

  // ---- a whole sweep on the tables ----

  /** Resources of one kind have distinct identities; the cluster allows no two of a name in a namespace. */
  ghost predicate ClusterInPlace(prefix: string, c: Cluster) {
    && (forall r :: r in c.types || r in c.clients ==> r.name != "")
    && Distinct(Names(c.types)) && Distinct(Names(c.clients))
    && EnvCrsInPlace(prefix, c.environments) && AppCrsInPlace(prefix, c.applications)
  }

  ghost predicate EnvCrsInPlace(prefix: string, rs: seq<Environment>) {
    && (forall r :: r in rs ==> EnvInPlace(prefix, r))
    && forall i, j :: 0 <= i < j < |rs| ==> (rs[i].namespace, rs[i].name) != (rs[j].namespace, rs[j].name)
  }

  ghost predicate AppCrsInPlace(prefix: string, rs: seq<Application>) {
    && (forall r :: r in rs ==> AppInPlace(prefix, r))
    && forall i, j :: 0 <= i < j < |rs| ==> (rs[i].namespace, rs[i].name) != (rs[j].namespace, rs[j].name)
  }

  /** The environment records are the old ones and one for each resource whose client is there; each resource's record
      has its status, and every other record the status it had. */
  ghost predicate EnvironmentsExact(before: map<(string, string), string>, after: map<(string, string), string>,
                                    clients: set<string>, rs: seq<Environment>) {
    && (forall k :: k in after <==> k in before || exists r :: r in rs && r.clientRef in clients && CrEnvKey(r) == k)
    && (forall r :: r in rs && CrEnvKey(r) in after ==> after[CrEnvKey(r)] == r.status)
    && (forall k :: k in before && k in after && (forall r :: r in rs ==> CrEnvKey(r) != k) ==> after[k] == before[k])
  }

  ghost predicate ApplicationsExact(
    before: map<(string, string, string), AppRow>, after: map<(string, string, string), AppRow>,
    environments: set<(string, string)>, types: set<string>, prefix: string, rs: seq<Application>)
  {
    && (forall k :: k in after <==>
                    k in before || exists r :: r in rs && ParentsThere(prefix, r, environments, types) && CrAppKey(prefix, r) == k)
    && (forall r :: r in rs && CrAppKey(prefix, r) in after ==>
                      after[CrAppKey(prefix, r)] ==
                      AppRow(if CrAppKey(prefix, r) in before then before[CrAppKey(prefix, r)].appType else r.appType, r.status))
    && (forall k :: k in before && k in after && (forall r :: r in rs ==> CrAppKey(prefix, r) != k) ==> after[k] == before[k])
  }

  lemma FlatTableNone()
    ensures FlatTable([]) == map[]
  {}

  lemma FlatTableSnoc(front: seq<Flat>, r: Flat)
    ensures FlatTable(front + [r]) == FlatTable(front)[r.name := r.status]
  {
    var rs := front + [r];
    assert Names(rs)[..|rs| - 1] == Names(front) && Statuses(rs)[..|rs| - 1] == Statuses(front);
  }

  lemma {:induction false} FlatsImported(records: seq<Flat>, rs: seq<Flat>)
    requires Distinct(Names(records)) && forall r :: r in rs ==> r.name != ""
    ensures Distinct(Names(ImportFlats(records, rs)))
    ensures FlatTable(ImportFlats(records, rs)) == FlatTable(records) + FlatTable(rs)
  {
    hide ImportFlat, Distinct, Rows;
    if rs != [] {
      var front, last := rs[..|rs| - 1], rs[|rs| - 1];
      FlatsImported(records, front);
      FlatStep(ImportFlats(records, front), last);
      FlatTableSnoc(front, last);
      assert front + [last] == rs;
    } else {
      FlatTableNone();
    }
  }

  lemma EnvironmentsExtend(before: map<(string, string), string>, mid: map<(string, string), string>,
                           clients: set<string>, rs: seq<Environment>, r: Environment)
    requires EnvironmentsExact(before, mid, clients, rs)
    requires forall o :: o in rs ==> CrEnvKey(o) != CrEnvKey(r)
    ensures EnvironmentsExact(before,
                              if CrEnvKey(r) in mid || r.clientRef in clients then mid[CrEnvKey(r) := r.status] else mid,
                              clients, rs + [r])
  {
    var after := if CrEnvKey(r) in mid || r.clientRef in clients then mid[CrEnvKey(r) := r.status] else mid;
    assert r in rs + [r];
    assert forall o :: o in rs ==> o in rs + [r];
    forall k ensures k in after <==> k in before || exists o :: o in rs + [r] && o.clientRef in clients && CrEnvKey(o) == k {}
  }

  lemma EnvCrsApart(prefix: string, front: seq<Environment>, last: Environment)
    requires EnvCrsInPlace(prefix, front + [last])
    ensures EnvCrsInPlace(prefix, front) && EnvInPlace(prefix, last)
    ensures forall o :: o in front ==> CrEnvKey(o) != CrEnvKey(last)
  {
    var rs := front + [last];
    assert last in rs && forall o :: o in front ==> o in rs;
    forall i | 0 <= i < |front| ensures CrEnvKey(front[i]) != CrEnvKey(last) {
      assert rs[i] == front[i] && rs[|front|] == last && front[i] in rs;
    }
    assert forall i :: 0 <= i < |front| ==> rs[i] == front[i];
  }

  lemma {:induction false} EnvironmentsImported(p: Portal, prefix: string, rs: seq<Environment>)
    requires WellFormed(p) && EnvCrsInPlace(prefix, rs)
    ensures var q := ImportEnvironments(p, prefix, rs);
            && WellFormed(q) && q.types == p.types && q.clients == p.clients && AppTable(q) == AppTable(p)
            && EnvironmentsExact(EnvTable(p), EnvTable(q), FlatTable(p.clients).Keys, rs)
  {
    hide ImportEnvironment, Linked, Distinct, EnvKeys, AppKeys, EnvTable, AppTable, FlatTable, EnvironmentsExact, EnvCrsInPlace;
    if rs == [] {
      EnvironmentsNone(EnvTable(p), FlatTable(p.clients).Keys);
    } else {
      var front, last := rs[..|rs| - 1], rs[|rs| - 1];
      assert front + [last] == rs;
      EnvCrsApart(prefix, front, last);
      EnvironmentsImported(p, prefix, front);
      var mid := ImportEnvironments(p, prefix, front);
      EnvironmentStep(mid, prefix, last);
      EnvironmentsExtend(EnvTable(p), EnvTable(mid), FlatTable(p.clients).Keys, front, last);
    }
  }

  lemma EnvironmentsNone(before: map<(string, string), string>, clients: set<string>)
    ensures EnvironmentsExact(before, before, clients, [])
  {}

  lemma ApplicationKeysExtend(
    before: map<(string, string, string), AppRow>, mid: map<(string, string, string), AppRow>,
    environments: set<(string, string)>, types: set<string>, prefix: string, rs: seq<Application>, r: Application,
    k: (string, string, string))
    requires ApplicationsExact(before, mid, environments, types, prefix, rs)
    ensures k in AppRowSet(mid, environments, types, prefix, r) <==>
            (k in before
             || exists o :: o in rs + [r] && ParentsThere(prefix, o, environments, types) && CrAppKey(prefix, o) == k)
  {
    hide ParentsThere, CrAppKey;
    assert r in rs + [r];
    if o :| o in rs && ParentsThere(prefix, o, environments, types) && CrAppKey(prefix, o) == k { assert o in rs + [r]; }
  }

  lemma ApplicationStatusExtends(
    before: map<(string, string, string), AppRow>, mid: map<(string, string, string), AppRow>,
    environments: set<(string, string)>, types: set<string>, prefix: string, rs: seq<Application>, r: Application, o: Application)
    requires ApplicationsExact(before, mid, environments, types, prefix, rs)
    requires forall u :: u in rs ==> CrAppKey(prefix, u) != CrAppKey(prefix, r)
    requires o in rs + [r] && CrAppKey(prefix, o) in AppRowSet(mid, environments, types, prefix, r)
    ensures AppRowSet(mid, environments, types, prefix, r)[CrAppKey(prefix, o)] ==
            AppRow(if CrAppKey(prefix, o) in before then before[CrAppKey(prefix, o)].appType else o.appType, o.status)
  {
    hide ParentsThere, CrAppKey;
    if o in rs {
      assert CrAppKey(prefix, o) != CrAppKey(prefix, r);
    } else {
      assert o == r;
      assert CrAppKey(prefix, r) in mid ==> CrAppKey(prefix, r) in before;
      if CrAppKey(prefix, r) in before { assert mid[CrAppKey(prefix, r)] == before[CrAppKey(prefix, r)]; }
    }
  }

  lemma ApplicationOthersExtend(
    before: map<(string, string, string), AppRow>, mid: map<(string, string, string), AppRow>,
    environments: set<(string, string)>, types: set<string>, prefix: string, rs: seq<Application>, r: Application,
    k: (string, string, string))
    requires ApplicationsExact(before, mid, environments, types, prefix, rs)
    requires k in before && forall o :: o in rs + [r] ==> CrAppKey(prefix, o) != k
    ensures k in AppRowSet(mid, environments, types, prefix, r)
    ensures AppRowSet(mid, environments, types, prefix, r)[k] == before[k]
  {
    hide ParentsThere, CrAppKey;
    assert r in rs + [r] && forall o :: o in rs ==> o in rs + [r];
  }

  lemma ApplicationsExtend(
    before: map<(string, string, string), AppRow>, mid: map<(string, string, string), AppRow>,
    environments: set<(string, string)>, types: set<string>, prefix: string, rs: seq<Application>, r: Application)
    requires ApplicationsExact(before, mid, environments, types, prefix, rs)
    requires forall o :: o in rs ==> CrAppKey(prefix, o) != CrAppKey(prefix, r)
    ensures ApplicationsExact(before, AppRowSet(mid, environments, types, prefix, r), environments, types, prefix, rs + [r])
  {
    hide ParentsThere, CrAppKey;
    var after := AppRowSet(mid, environments, types, prefix, r);
    forall o | o in rs + [r] && CrAppKey(prefix, o) in after
      ensures after[CrAppKey(prefix, o)] ==
              AppRow(if CrAppKey(prefix, o) in before then before[CrAppKey(prefix, o)].appType else o.appType, o.status)
    {
      ApplicationStatusExtends(before, mid, environments, types, prefix, rs, r, o);
    }
    forall k | k in before && k in after && (forall o :: o in rs + [r] ==> CrAppKey(prefix, o) != k)
      ensures after[k] == before[k]
    {
      ApplicationOthersExtend(before, mid, environments, types, prefix, rs, r, k);
    }
    forall k ensures k in after <==>
                     (k in before
                      || exists o :: o in rs + [r] && ParentsThere(prefix, o, environments, types) && CrAppKey(prefix, o) == k)
    {
      ApplicationKeysExtend(before, mid, environments, types, prefix, rs, r, k);
    }
  }

  lemma ApplicationsNone(p: Portal, prefix: string, rs: seq<Application>)
    requires Linked(p) && rs == []
    ensures ApplicationsExact(AppTable(p), AppTable(p), EnvTable(p).Keys, FlatTable(p.types).Keys, prefix, rs)
  {
    hide AppTable, EnvTable, FlatTable;
  }

  lemma SlugsApart(prefix: string, a: Application, b: Application)
    requires AppInPlace(prefix, a) && AppInPlace(prefix, b) && (a.namespace, a.name) != (b.namespace, b.name)
    ensures CrAppKey(prefix, a) != CrAppKey(prefix, b)
  {
    assert a.namespace == prefix + a.namespace[|prefix|..] && b.namespace == prefix + b.namespace[|prefix|..];
  }

  lemma AppCrsApart(prefix: string, front: seq<Application>, last: Application)
    requires AppCrsInPlace(prefix, front + [last])
    ensures AppCrsInPlace(prefix, front) && AppInPlace(prefix, last)
    ensures forall o :: o in front ==> CrAppKey(prefix, o) != CrAppKey(prefix, last)
  {
    hide CrAppKey, AppInPlace;
    var rs := front + [last];
    assert last in rs && forall o :: o in front ==> o in rs;
    forall i | 0 <= i < |front| ensures CrAppKey(prefix, front[i]) != CrAppKey(prefix, last) {
      assert rs[i] == front[i] && rs[|front|] == last;
      SlugsApart(prefix, front[i], last);
    }
    assert forall i :: 0 <= i < |front| ==> rs[i] == front[i];
  }

  lemma {:induction false} ApplicationsImported(p: Portal, prefix: string, rs: seq<Application>)
    requires WellFormed(p) && AppCrsInPlace(prefix, rs)
    ensures var q := ImportApplications(p, prefix, rs);
            && WellFormed(q) && q.types == p.types && q.clients == p.clients && EnvTable(q) == EnvTable(p)
            && ApplicationsExact(AppTable(p), AppTable(q), EnvTable(p).Keys, FlatTable(p.types).Keys, prefix, rs)
  {
    hide ImportApplication, Linked, Distinct, EnvKeys, AppKeys, EnvTable, AppTable, FlatTable, ApplicationsExact;
    hide AppCrsInPlace;
    if rs == [] {
      ApplicationsNone(p, prefix, rs);
    } else {
      var front, last := rs[..|rs| - 1], rs[|rs| - 1];
      assert front + [last] == rs;
      AppCrsApart(prefix, front, last);
      ApplicationsImported(p, prefix, front);
      var mid := ImportApplications(p, prefix, front);
      ApplicationStep(mid, prefix, last);
      ApplicationsExtend(AppTable(p), AppTable(mid), EnvTable(p).Keys, FlatTable(p.types).Keys, prefix, front, last);
    }
  }

  lemma CatalogImported(p: Portal, prefix: string, c: Cluster)
    requires WellFormed(p) && ClusterInPlace(prefix, c)
    ensures var q := ImportCatalog(p, c);
            && WellFormed(q) && EnvTable(q) == EnvTable(p) && AppTable(q) == AppTable(p)
            && FlatTable(q.types) == FlatTable(p.types) + FlatTable(c.types)
            && FlatTable(q.clients) == FlatTable(p.clients) + FlatTable(c.clients)
  {
    var q := ImportCatalog(p, c);
    CatalogKeepsLinks(p, c);
    FlatsGrow(p.types, c.types);
    FlatsGrow(p.clients, c.clients);
    FlatsImported(p.types, c.types);
    FlatsImported(p.clients, c.clients);
    KeysStay(p, q);
    hide ImportFlats, EnvKey, AppKey, Rows, Distinct;
    assert EnvKeys(q) == EnvKeys(p);
    assert AppKeys(q) == AppKeys(p);
    assert EnvStatuses(q) == EnvStatuses(p) && AppRows(q) == AppRows(p);
  }

  /** A sweep leaves no two records of one identity, gives every type and client its record and status, and leaves exactly
      one record for each environment and application whose parents and type are there, each with its own status. */
  lemma SweepIsExact(p: Portal, prefix: string, c: Cluster)
    requires WellFormed(p) && ClusterInPlace(prefix, c)
    ensures var q := Sweep(p, prefix, c);
            && WellFormed(q)
            && FlatTable(q.types) == FlatTable(p.types) + FlatTable(c.types)
            && FlatTable(q.clients) == FlatTable(p.clients) + FlatTable(c.clients)
            && EnvironmentsExact(EnvTable(p), EnvTable(q), FlatTable(q.clients).Keys, c.environments)
            && ApplicationsExact(AppTable(p), AppTable(q), EnvTable(q).Keys, FlatTable(q.types).Keys, prefix, c.applications)
  {
    hide ImportCatalog, ImportEnvironments, ImportApplications, EnvTable, AppTable, FlatTable, EnvironmentsExact,
      ApplicationsExact, EnvCrsInPlace, AppCrsInPlace, EnvKeys, AppKeys, Distinct, Linked;
    CatalogImported(p, prefix, c);
    var p1 := ImportCatalog(p, c);
    EnvironmentsImported(p1, prefix, c.environments);
    ApplicationsImported(ImportEnvironments(p1, prefix, c.environments), prefix, c.applications);
  }

  // ---- the next sweep ----

  lemma {:induction false} FlatsSettled(records: seq<Flat>, rs: seq<Flat>)
    requires Distinct(Names(records))
    requires forall r :: r in rs ==> r.name in FlatTable(records) && FlatTable(records)[r.name] == r.status
    ensures ImportFlats(records, rs) == records
  {
    hide FindFlat, FlatTable, Distinct;
    if rs != [] {
      var r := rs[|rs| - 1];
      assert r in rs;
      FlatsSettled(records, rs[..|rs| - 1]);
      FlatFound(records, r.name);
      FlatRowIs(records, FindFlat(records, r.name).value);
    }
  }

  lemma FlatRowIs(records: seq<Flat>, i: nat)
    requires Distinct(Names(records)) && i < |records|
    ensures records[i].name in FlatTable(records) && FlatTable(records)[records[i].name] == records[i].status
  {
    RowsAre(Names(records), Statuses(records));
    assert Names(records)[i] in Names(records);
  }

  lemma EnvironmentSettled(p: Portal, prefix: string, r: Environment)
    requires WellFormed(p) && r.clientRef != ""
    requires CrEnvKey(r) in EnvTable(p) ==> EnvTable(p)[CrEnvKey(r)] == r.status
    requires CrEnvKey(r) !in EnvTable(p) ==> r.clientRef !in FlatTable(p.clients)
    ensures ImportEnvironment(p, prefix, r) == p
  {
    EnvFound(p, r.clientRef, r.name);
    FlatFound(p.clients, r.clientRef);
    RowsAre(EnvKeys(p), EnvStatuses(p));
    var i := FindEnv(p, r.clientRef, r.name, |p.environments|);
    hide FindEnv, FindFlat, SlugOf, Rows, EnvKey, AppKey, FlatTable;
    if i.Some? { assert EnvKeys(p)[i.value] == CrEnvKey(r); }
  }

  lemma {:induction false} EnvironmentsSettled(p: Portal, prefix: string, rs: seq<Environment>)
    requires WellFormed(p) && forall r :: r in rs ==> EnvInPlace(prefix, r)
    requires EnvironmentsExact(EnvTable(p), EnvTable(p), FlatTable(p.clients).Keys, rs)
    ensures ImportEnvironments(p, prefix, rs) == p
  {
    hide ImportEnvironment, EnvTable, FlatTable, EnvKeys, AppKeys, Distinct, Linked;
    if rs != [] {
      var front, r := rs[..|rs| - 1], rs[|rs| - 1];
      assert r in rs && forall o :: o in front ==> o in rs;
      EnvironmentsSettled(p, prefix, front);
      EnvironmentSettled(p, prefix, r);
    }
  }

  lemma ApplicationSettled(p: Portal, prefix: string, r: Application)
    requires WellFormed(p) && AppInPlace(prefix, r)
    requires CrAppKey(prefix, r) in AppTable(p) ==> AppTable(p)[CrAppKey(prefix, r)].status == r.status
    requires CrAppKey(prefix, r) !in AppTable(p) ==> !ParentsThere(prefix, r, EnvTable(p).Keys, FlatTable(p.types).Keys)
    ensures ImportApplication(p, prefix, r) == p
  {
    var slug := SlugOf(prefix, r.namespace);
    FlatFound(p.types, r.appType);
    EnvFound(p, slug, r.environmentRef);
    AppFound(p, slug, r.environmentRef, r.name);
    hide FindEnv, FindFlat, FindApp, Rows, EnvKey, FlatTable, EnvTable, AppTable;
  }

  lemma {:induction false} ApplicationsSettled(p: Portal, prefix: string, rs: seq<Application>)
    requires WellFormed(p) && forall r :: r in rs ==> AppInPlace(prefix, r)
    requires forall r :: r in rs ==>
               && (CrAppKey(prefix, r) in AppTable(p) ==> AppTable(p)[CrAppKey(prefix, r)].status == r.status)
               && (CrAppKey(prefix, r) !in AppTable(p) ==> !ParentsThere(prefix, r, EnvTable(p).Keys, FlatTable(p.types).Keys))
    ensures ImportApplications(p, prefix, rs) == p
  {
    hide ImportApplication, AppTable, EnvTable, FlatTable, EnvKeys, AppKeys, Distinct, Linked, CrAppKey, ParentsThere, AppInPlace;
    if rs != [] {
      var front, r := rs[..|rs| - 1], rs[|rs| - 1];
      assert r in rs && forall o :: o in front ==> o in rs;
      ApplicationsSettled(p, prefix, front);
      ApplicationSettled(p, prefix, r);
    }
  }

  lemma EnvironmentsExactAgain(before: map<(string, string), string>, after: map<(string, string), string>,
                               clients: set<string>, rs: seq<Environment>)
    requires EnvironmentsExact(before, after, clients, rs)
    ensures EnvironmentsExact(after, after, clients, rs)
  {}

  /** A second sweep of the same cluster changes nothing at all. */
  lemma SweepTwice(p: Portal, prefix: string, c: Cluster)
    requires WellFormed(p) && ClusterInPlace(prefix, c)
    ensures Sweep(Sweep(p, prefix, c), prefix, c) == Sweep(p, prefix, c)
  {
    SweepIsExact(p, prefix, c);
    var q := Sweep(p, prefix, c);
    CatalogAgain(p, prefix, c);
    hide Sweep, EnvTable, AppTable, FlatTable, EnvKeys, AppKeys, Distinct, Linked, EnvironmentsExact, ParentsThere;
    EnvironmentsExactAgain(EnvTable(p), EnvTable(q), FlatTable(q.clients).Keys, c.environments);
    EnvironmentsSettled(q, prefix, c.environments);
    ApplicationsSettled(q, prefix, c.applications);
    SweepOfSettled(q, prefix, c);
  }

  lemma CatalogAgain(p: Portal, prefix: string, c: Cluster)
    requires WellFormed(p) && ClusterInPlace(prefix, c)
    ensures ImportCatalog(Sweep(p, prefix, c), c) == Sweep(p, prefix, c)
  {
    hide Sweep, Rows, Distinct, EnvKeys, AppKeys, Linked, EnvironmentsExact, ApplicationsExact, EnvTable, AppTable;
    SweepIsExact(p, prefix, c);
    var q := Sweep(p, prefix, c);
    FlatRows(c.types);
    FlatRows(c.clients);
    hide FlatTable;
    FlatsSettled(q.types, c.types);
    FlatsSettled(q.clients, c.clients);
  }

  lemma FlatRows(rs: seq<Flat>)
    requires Distinct(Names(rs))
    ensures forall r :: r in rs ==> r.name in FlatTable(rs) && FlatTable(rs)[r.name] == r.status
  {
    forall i | 0 <= i < |rs| ensures rs[i].name in FlatTable(rs) && FlatTable(rs)[rs[i].name] == rs[i].status {
      FlatRowIs(rs, i);
    }
  }

  lemma SweepOfSettled(q: Portal, prefix: string, c: Cluster)
    requires Linked(q) && ImportCatalog(q, c) == q
    requires ImportEnvironments(q, prefix, c.environments) == q && ImportApplications(q, prefix, c.applications) == q
    ensures Sweep(q, prefix, c) == q
  {}

  // ---- whose record takes a status ----

  /** Importing this application resource changes records of client `home` only. */
  ghost predicate StaysHome(p: Portal, prefix: string, r: Application, home: string)
    requires Linked(p)
  {
    forall i :: 0 <= i < |p.applications| ==>
      i < |ImportApplication(p, prefix, r).applications|
      && (ImportApplication(p, prefix, r).applications[i] != p.applications[i] ==> AppKey(p, i).0 == home)
  }

  lemma OwnStatus(p: Portal, prefix: string, r: Application)
    requires Linked(p) && SlugOf(prefix, r.namespace) != ""
    ensures StaysHome(p, prefix, r, SlugOf(prefix, r.namespace))
  {
    var slug := SlugOf(prefix, r.namespace);
    FindAppIs(p, slug, r.environmentRef, r.name, |p.applications|);
    var q, found := ImportApplication(p, prefix, r), FindApp(p, slug, r.environmentRef, r.name, |p.applications|);
    hide FindApp, FindEnv, FindFlat, SlugOf;
    forall i | 0 <= i < |p.applications|
      ensures i < |q.applications| && (q.applications[i] != p.applications[i] ==> AppKey(p, i).0 == slug)
    {
      assert q.applications[i] != p.applications[i] ==> found.Some? && found.value == i;
    }
  }

  /** One record, of client `client`, that the resource's identity search finds. */
  ghost function Bystander(prefix: string, r: Application, client: string): Portal {
    Portal([Flat("type", "")], [Flat(client, "")], [EnvRecord(0, r.environmentRef, "")],
           [AppRecord(0, 0, r.name, if r.status == "" then "Ready" else "")])
  }

  lemma ForeignStatus(prefix: string, r: Application, home: string)
    requires r.name != "" && SlugOf(prefix, r.namespace) != home
    ensures exists p :: WellFormed(p) && !StaysHome(p, prefix, r, home)
  {
    var slug := SlugOf(prefix, r.namespace);
    var p := Bystander(prefix, r, if slug == "" then home + "2" else slug);
    assert EnvKey(p, 0).1 == r.environmentRef;
    assert AppKey(p, 0) == (p.clients[0].name, r.environmentRef, r.name);
    assert FindApp(p, slug, r.environmentRef, r.name, 0) == None;
    assert FindApp(p, slug, r.environmentRef, r.name, 1) == Some(0);
    assert WellFormed(p);
    assert AppKey(p, 0).0 != home;
    assert ImportApplication(p, prefix, r).applications[0] != p.applications[0];
  }

  /** For no portal does an application resource touch another client's record, if and only if its namespace is
      that client's. Outside a client namespace the search takes the first record of the name, whoever owns it. */
  lemma OwnStatusIff(prefix: string, r: Application, home: string)
    requires r.name != "" && home != ""
    ensures (forall p :: WellFormed(p) ==> StaysHome(p, prefix, r, home)) <==> SlugOf(prefix, r.namespace) == home
  {
    if SlugOf(prefix, r.namespace) == home {
      forall p | WellFormed(p) ensures StaysHome(p, prefix, r, home) { OwnStatus(p, prefix, r); }
    } else {
      ForeignStatus(prefix, r, home);
    }
  }

  /** Importing this environment resource changes records of client `home` only. */
  ghost predicate EnvStaysHome(p: Portal, prefix: string, r: Environment, home: string)
    requires Linked(p)
  {
    forall i :: 0 <= i < |p.environments| ==>
      i < |ImportEnvironment(p, prefix, r).environments|
      && (ImportEnvironment(p, prefix, r).environments[i] != p.environments[i] ==> EnvKey(p, i).0 == home)
  }

  lemma OwnEnvStatus(p: Portal, prefix: string, r: Environment)
    requires Linked(p) && EnvSlug(prefix, r) != ""
    ensures EnvStaysHome(p, prefix, r, EnvSlug(prefix, r))
  {
    var slug := EnvSlug(prefix, r);
    FindEnvIs(p, slug, r.name, |p.environments|);
    var q, found := ImportEnvironment(p, prefix, r), FindEnv(p, slug, r.name, |p.environments|);
    hide FindEnv, FindFlat, EnvSlug;
    forall i | 0 <= i < |p.environments|
      ensures i < |q.environments| && (q.environments[i] != p.environments[i] ==> EnvKey(p, i).0 == slug)
    {
      assert q.environments[i] != p.environments[i] ==> found.Some? && found.value == i;
    }
  }

  lemma ForeignEnvStatus(prefix: string, r: Environment, home: string)
    requires r.name != "" && EnvSlug(prefix, r) != home
    ensures exists p :: WellFormed(p) && !EnvStaysHome(p, prefix, r, home)
  {
    var slug := EnvSlug(prefix, r);
    var p := Portal([], [Flat(if slug == "" then home + "2" else slug, "")],
                    [EnvRecord(0, r.name, if r.status == "" then "Ready" else "")], []);
    assert EnvKey(p, 0) == (p.clients[0].name, r.name);
    assert FindEnv(p, slug, r.name, 0) == None;
    assert FindEnv(p, slug, r.name, 1) == Some(0);
    assert WellFormed(p);
    assert EnvKey(p, 0).0 != home;
    assert ImportEnvironment(p, prefix, r).environments[0] != p.environments[0];
  }

  /** The same for environments, whose `clientRef` comes before their namespace: one that sits in a client's namespace and
      names another client writes to that other client's record. */
  lemma OwnEnvStatusIff(prefix: string, r: Environment, home: string)
    requires r.name != "" && home != ""
    ensures (forall p :: WellFormed(p) ==> EnvStaysHome(p, prefix, r, home)) <==>
              (r.clientRef == home || (r.clientRef == "" && SlugOf(prefix, r.namespace) == home))
  {
    if EnvSlug(prefix, r) == home {
      forall p | WellFormed(p) ensures EnvStaysHome(p, prefix, r, home) { OwnEnvStatus(p, prefix, r); }
    } else {
      ForeignEnvStatus(prefix, r, home);
    }
  }

  // ---- the portal's records, changed in place ----

  lemma {:induction false} FindAppNone(p: Portal, client: string, environment: string, name: string, n: nat, k: nat)
    requires Linked(p) && k < n <= |p.applications| && FindApp(p, client, environment, name, n).None?
    ensures !(AppKey(p, k).2 == name && (client == "" || AppKey(p, k).0 == client)
              && (environment == "" || AppKey(p, k).1 == environment))
  {
    if k < n - 1 { FindAppNone(p, client, environment, name, n - 1, k); }
  }

  /** A created application record is one its own resource finds. */
  lemma CreatedIsFound(p: Portal, prefix: string, r: Application, e: nat, t: nat)
    requires Linked(p) && r.environmentRef != "" && FindEnv(p, SlugOf(prefix, r.namespace), r.environmentRef, |p.environments|) == Some(e)
    requires t < |p.types|
    ensures e < |p.environments|
    ensures var q := p.(applications := p.applications + [AppRecord(e, t, r.name, r.status)]);
            Linked(q) && FindApp(q, SlugOf(prefix, r.namespace), r.environmentRef, r.name, |q.applications|).Some?
  {
    var slug := SlugOf(prefix, r.namespace);
    var q := p.(applications := p.applications + [AppRecord(e, t, r.name, r.status)]);
    FindEnvIs(p, slug, r.environmentRef, |p.environments|);
    var key := EnvKey(p, e);
    assert AppKey(q, |p.applications|) == (key.0, key.1, r.name);
    if FindApp(q, slug, r.environmentRef, r.name, |q.applications|).None? {
      FindAppNone(q, slug, r.environmentRef, r.name, |q.applications|, |p.applications|);
    }
  }

  class Management {
    var types: seq<Flat>
    var clients: seq<Flat>
    var environments: seq<EnvRecord>
    var applications: seq<AppRecord>

    function View(): Portal
      reads this
    {
      Portal(types, clients, environments, applications)
    }

    method ImportType(r: Flat)
      modifies this`types
      ensures types == ImportFlat(old(types), r)
    {
      if r.name == "" { return; }
      var found := FindFlat(types, r.name);
      FindFlatIs(types, r.name);
      if found.None? {
        types := types + [r];
      } else {
        types := types[found.value := types[found.value].(status := r.status)];
      }
    }

    method ImportClient(r: Flat)
      modifies this`clients
      ensures clients == ImportFlat(old(clients), r)
    {
      if r.name == "" { return; }
      var found := FindFlat(clients, r.name);
      FindFlatIs(clients, r.name);
      if found.None? {
        clients := clients + [r];
      } else {
        clients := clients[found.value := clients[found.value].(status := r.status)];
      }
    }

    /** True exactly when the resource's own search now finds a record. */
    method ImportOneEnvironment(prefix: string, r: Environment) returns (matched: bool)
      requires Linked(View())
      modifies this`environments
      ensures View() == ImportEnvironment(old(View()), prefix, r) && Linked(View())
      ensures matched <==> r.name != "" && FindEnv(View(), EnvSlug(prefix, r), r.name, |environments|).Some?
    {
      matched := false;
      if r.name == "" { return; }
      EnvironmentKeepsLinks(View(), prefix, r);
      var p, slug := View(), EnvSlug(prefix, r);
      var found := FindEnv(View(), slug, r.name, |environments|);
      FindEnvIs(View(), slug, r.name, |environments|);
      if found.None? {
        var client := if r.clientRef != "" then FindFlat(clients, r.clientRef) else None;
        FindFlatIs(clients, r.clientRef);
        if client.None? { return; }
        environments := environments + [EnvRecord(client.value, r.name, r.status)];
        assert EnvKey(View(), |p.environments|) == (slug, r.name);
        FindEnvIs(View(), slug, r.name, |environments|);
      } else {
        environments := environments[found.value := environments[found.value].(status := r.status)];
        EnvRefreshFinds(p, found.value, r.status, slug, r.name, |environments|);
      }
      matched := true;
    }

    method ImportOneApplication(prefix: string, r: Application) returns (matched: bool)
      requires Linked(View())
      modifies this`applications
      ensures View() == ImportApplication(old(View()), prefix, r) && Linked(View())
      ensures matched <==> r.name != ""
                           && FindApp(View(), SlugOf(prefix, r.namespace), r.environmentRef, r.name, |applications|).Some?
    {
      matched := false;
      if r.name == "" { return; }
      ApplicationKeepsLinks(View(), prefix, r);
      var p, slug := View(), SlugOf(prefix, r.namespace);
      var found := FindApp(View(), slug, r.environmentRef, r.name, |applications|);
      FindAppIs(View(), slug, r.environmentRef, r.name, |applications|);
      if found.None? {
        var environment := if r.environmentRef != "" then FindEnv(View(), slug, r.environmentRef, |environments|) else None;
        if environment.None? { return; }
        var appType := if r.appType != "" then FindFlat(types, r.appType) else None;
        if appType.None? { return; }
        FindFlatIs(types, r.appType);
        CreatedIsFound(p, prefix, r, environment.value, appType.value);
        applications := applications + [AppRecord(environment.value, appType.value, r.name, r.status)];
      } else {
        applications := applications[found.value := applications[found.value].(status := r.status)];
        AppRefreshFinds(p, found.value, r.status, slug, r.environmentRef, r.name, |applications|);
      }
      matched := true;
    }

    method ImportTypes(rs: seq<Flat>)
      modifies this`types
      ensures types == ImportFlats(old(types), rs)
    {
      ghost var start := types;
      for i := 0 to |rs|
        invariant types == ImportFlats(start, rs[..i])
      {
        ImportType(rs[i]);
        assert rs[..i + 1][..i] == rs[..i];
      }
      assert rs[..|rs|] == rs;
    }

    method ImportClients(rs: seq<Flat>)
      modifies this`clients
      ensures clients == ImportFlats(old(clients), rs)
    {
      ghost var start := clients;
      for i := 0 to |rs|
        invariant clients == ImportFlats(start, rs[..i])
      {
        ImportClient(rs[i]);
        assert rs[..i + 1][..i] == rs[..i];
      }
      assert rs[..|rs|] == rs;
    }

    method ImportAllEnvironments(prefix: string, rs: seq<Environment>)
      requires Linked(View())
      modifies this`environments
      ensures View() == ImportEnvironments(old(View()), prefix, rs)
    {
      ghost var start := View();
      for i := 0 to |rs|
        invariant Linked(View()) && View() == ImportEnvironments(start, prefix, rs[..i])
      {
        var _ := ImportOneEnvironment(prefix, rs[i]);
        assert rs[..i + 1][..i] == rs[..i];
      }
      assert rs[..|rs|] == rs;
    }

    method ImportAllApplications(prefix: string, rs: seq<Application>)
      requires Linked(View())
      modifies this`applications
      ensures View() == ImportApplications(old(View()), prefix, rs)
    {
      ghost var start := View();
      for i := 0 to |rs|
        invariant Linked(View()) && View() == ImportApplications(start, prefix, rs[..i])
      {
        var _ := ImportOneApplication(prefix, rs[i]);
        assert rs[..i + 1][..i] == rs[..i];
      }
      assert rs[..|rs|] == rs;
    }

    /** The periodic pass over the whole cluster, kind by kind. */
    method CronSyncAll(prefix: string, c: Cluster)
      requires Linked(View())
      modifies this
      ensures View() == Sweep(old(View()), prefix, c)
    {
      CatalogKeepsLinks(View(), c);
      ImportTypes(c.types);
      ImportClients(c.clients);
      ImportAllEnvironments(prefix, c.environments);
      ImportAllApplications(prefix, c.applications);
    }
  }

  lemma {:induction false} EnvRefreshFinds(p: Portal, i: nat, status: string, client: string, name: string, n: nat)
    requires Linked(p) && i < |p.environments| && n <= |p.environments|
    ensures var q := p.(environments := p.environments[i := p.environments[i].(status := status)]);
            Linked(q) && FindEnv(q, client, name, n) == FindEnv(p, client, name, n)
  {
    if n > 0 {
      var q := p.(environments := p.environments[i := p.environments[i].(status := status)]);
      assert EnvKey(q, n - 1) == EnvKey(p, n - 1);
      EnvRefreshFinds(p, i, status, client, name, n - 1);
    }
  }

  lemma {:induction false} AppRefreshFinds(p: Portal, i: nat, status: string, client: string, environment: string, name: string, n: nat)
    requires Linked(p) && i < |p.applications| && n <= |p.applications|
    ensures var q := p.(applications := p.applications[i := p.applications[i].(status := status)]);
            Linked(q) && FindApp(q, client, environment, name, n) == FindApp(p, client, environment, name, n)
  {
    if n > 0 {
      var q := p.(applications := p.applications[i := p.applications[i].(status := status)]);
      assert AppKey(q, n - 1) == AppKey(p, n - 1);
      AppRefreshFinds(p, i, status, client, environment, name, n - 1);
    }
  }
}
