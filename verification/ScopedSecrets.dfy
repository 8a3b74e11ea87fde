/** Scoped secrets: the API writes them per scope into OpenBao, the controller delivers the merge of four scopes. Both
    sides together refine one table in which the nearest scope wins. */
module ScopedSecrets {
  import opened Text
  import opened Wrappers

  type Secrets = map<string, string>
  type KV = map<string, Secrets>

  const SLASH: set<char> := {'/'}

  /** The four kinds of scope, as the API addresses them. */
  datatype Scope =
    | Org(org: string)
    | Client(client: string)
    | Environment(client: string, environment: string)
    | Application(client: string, environment: string, application: string)

  predicate Name(s: string) {
    s != [] && SlashFree(s)
  }

  predicate Named(s: Scope) {
    match s
    case Org(o) => Name(o)
    case Client(c) => Name(c)
    case Environment(c, e) => Name(c) && Name(e)
    case Application(c, e, a) => Name(c) && Name(e) && Name(a)
  }

  // ---- where a scope is stored ----

  /** "/a/b/c" for the segments a, b, c. */
  function Joined(segments: seq<string>): string {
    if segments == [] then [] else "/" + (segments[0] + Joined(segments[1..]))
  }

  function Segments(s: Scope): seq<string> {
    match s
    case Org(o) => ["org", o]
    case Client(c) => ["clients", c]
    case Environment(c, e) => ["clients", c, "environments", e]
    case Application(c, e, a) => ["clients", c, "environments", e, "applications", a]
  }

  /** The API's path of a scope: the prefix without its outer slashes, then the segments. */
  function ApiPath(prefix: string, s: Scope): string {
    Strip(prefix, SLASH) + Joined(Segments(s))
  }

  /** The controller's paths for one application, least to most specific. */
  function ControllerPaths(prefix: string, org: string, slug: string, environment: string, app: string): seq<string> {
    PathsUnder(Strip(prefix, SLASH), org, slug, environment, app)
  }

  function PathsUnder(p: string, org: string, slug: string, environment: string, app: string): seq<string> {
    (if org != [] then [p + Joined(["org", org])] else [])
    + [p + Joined(["clients", slug]),
       p + Joined(["clients", slug, "environments", environment]),
       p + Joined(["clients", slug, "environments", environment, "applications", app])]
  }

  /** The scopes an application inherits from, least to most specific. */
  function Chain(org: string, client: string, environment: string, app: string): seq<Scope> {
    (if org != [] then [Org(org)] else [])
    + [Client(client), Environment(client, environment), Application(client, environment, app)]
  }

  predicate Good(segments: seq<string>) {
    forall i :: 0 <= i < |segments| ==> Name(segments[i])
  }

  lemma {:induction false} JoinedApart(x: seq<string>, y: seq<string>)
    requires Good(x) && Good(y) && x != y
    ensures Joined(x) != Joined(y)
  {
    if x != [] && y != [] && Joined(x) == Joined(y) {
      assert x[0] + Joined(x[1..]) == Joined(x)[1..];
      assert y[0] + Joined(y[1..]) == Joined(y)[1..];
      SlashSplit(x[0], Joined(x[1..]), y[0], Joined(y[1..]));
      assert x == [x[0]] + x[1..] && y == [y[0]] + y[1..];
      JoinedApart(x[1..], y[1..]);
    }
  }

  lemma SegmentsOfNamed(s: Scope)
    requires Named(s)
    ensures Good(Segments(s)) && Segments(s) != []
  {
    var names := Segments(s);
    forall i | 0 <= i < |names| ensures Name(names[i]) {
      if i == 0 { assert names[0] == "org" || names[0] == "clients"; }
    }
  }

  lemma SegmentsApart(s: Scope, t: Scope)
    requires Segments(s) == Segments(t)
    ensures s == t
  {
    var x, y := Segments(s), Segments(t);
    assert x[0] == y[0] && x[1] == y[1];
    assert s.Org? <==> |x[0]| == 3;
    assert t.Org? <==> |y[0]| == 3;
    if |x| > 2 { assert x[3] == y[3]; }
    if |x| > 4 { assert x[5] == y[5]; }
  }

  function ScopePaths(p: string, scopes: seq<Scope>): (paths: seq<string>)
    ensures |paths| == |scopes| && forall i :: 0 <= i < |scopes| ==> paths[i] == p + Joined(Segments(scopes[i]))
  {
    seq(|scopes|, i requires 0 <= i < |scopes| => p + Joined(Segments(scopes[i])))
  }

  lemma ScopePathsOfChain(p: string, org: string, client: string, environment: string, app: string)
    ensures PathsUnder(p, org, client, environment, app) == ScopePaths(p, Chain(org, client, environment, app))
  {
    var mine, theirs := PathsUnder(p, org, client, environment, app), ScopePaths(p, Chain(org, client, environment, app));
    if org == [] {
      assert |mine| == 3 && |theirs| == 3;
      assert mine[0] == theirs[0] && mine[1] == theirs[1] && mine[2] == theirs[2];
    } else {
      assert |mine| == 4 && |theirs| == 4;
      assert mine[0] == theirs[0] && mine[1] == theirs[1] && mine[2] == theirs[2] && mine[3] == theirs[3];
    }
  }

  lemma OtherSlugOtherPaths(p: string, org: string, slug: string, client: string, environment: string, app: string)
    requires Name(slug) && Name(client) && slug != client
    ensures PathsUnder(p, org, slug, environment, app) != PathsUnder(p, org, client, environment, app)
  {
    var mine, theirs := PathsUnder(p, org, slug, environment, app), PathsUnder(p, org, client, environment, app);
    var k := if org != [] then 1 else 0;
    var x, y := Joined(Segments(Client(slug))), Joined(Segments(Client(client)));
    assert mine[k] == p + x && theirs[k] == p + y;
    SegmentsOfNamed(Client(slug));
    SegmentsOfNamed(Client(client));
    assert Segments(Client(slug))[1] != Segments(Client(client))[1];
    JoinedApart(Segments(Client(slug)), Segments(Client(client)));
    assert (p + x)[|p|..] == x && (p + y)[|p|..] == y;
  }

  /** The API writes where the controller reads exactly when the client's slug is its name. */
  lemma SidesAgreeIffSlugIsName(prefix: string, org: string, slug: string, client: string, environment: string, app: string)
    requires Name(slug) && Name(client)
    ensures ControllerPaths(prefix, org, slug, environment, app)
            == ScopePaths(Strip(prefix, SLASH), Chain(org, client, environment, app))
            <==> slug == client
  {
    ScopePathsOfChain(Strip(prefix, SLASH), org, client, environment, app);
    if slug != client {
      OtherSlugOtherPaths(Strip(prefix, SLASH), org, slug, client, environment, app);
    }
  }

  /** What stays of a path once the store has stripped its outer slashes. */
  function Key(path: string): string {
    Strip(path, SLASH)
  }

  /** Stripping a scope's path only ever removes the slash that an empty prefix leaves in front. */
  lemma StripPlaced(p: string, t: string)
    requires p != [] ==> p[0] != '/'
    requires |t| > 1 && t[0] == '/' && t[1] != '/' && t[|t| - 1] != '/'
    ensures Key(p + t) == if p == [] then t[1..] else p + t
  {
    if p == [] {
      assert p + t == t;
      assert LStrip(t, SLASH) == LStrip(t[1..], SLASH) == t[1..];
    } else {
      assert (p + t)[0] == p[0] && (p + t)[|p + t| - 1] == t[|t| - 1];
    }
  }

  lemma {:induction false} JoinedEnds(segments: seq<string>)
    requires Good(segments) && segments != []
    ensures var t := Joined(segments); |t| > 1 && t[0] == '/' && t[1] != '/' && t[|t| - 1] != '/'
  {
    var rest := Joined(segments[1..]);
    assert Joined(segments)[1] == segments[0][0];
    if segments[1..] != [] {
      JoinedEnds(segments[1..]);
    } else {
      assert segments[0] + rest == segments[0];
    }
  }

  /** Different scopes with slash-free names are stored under different keys, for every prefix. */
  lemma KeysInjective(prefix: string, s: Scope, t: Scope)
    requires Named(s) && Named(t) && s != t
    ensures Key(ApiPath(prefix, s)) != Key(ApiPath(prefix, t))
  {
    SegmentsOfNamed(s);
    SegmentsOfNamed(t);
    if Segments(s) == Segments(t) { SegmentsApart(s, t); }
    JoinedApart(Segments(s), Segments(t));
    JoinedEnds(Segments(s));
    JoinedEnds(Segments(t));
    PlacedApart(Strip(prefix, SLASH), Joined(Segments(s)), Joined(Segments(t)));
  }

  lemma PlacedApart(p: string, x: string, y: string)
    requires p != [] ==> p[0] != '/'
    requires |x| > 1 && x[0] == '/' && x[1] != '/' && x[|x| - 1] != '/'
    requires |y| > 1 && y[0] == '/' && y[1] != '/' && y[|y| - 1] != '/'
    requires x != y
    ensures Key(p + x) != Key(p + y)
  {
    StripPlaced(p, x);
    StripPlaced(p, y);
    if p == [] {
      assert x == "/" + x[1..] && y == "/" + y[1..];
    } else {
      assert (p + x)[|p|..] == x && (p + y)[|p|..] == y;
    }
  }

  // ---- the store, and the table it refines ----

  function Get(kv: KV, key: string): Secrets {
    if key in kv then kv[key] else map[]
  }

  function WithSecret(kv: KV, key: string, name: string, value: string): KV {
    kv[key := Get(kv, key)[name := value]]
  }

  /** Removing the last name removes the whole path. */
  function WithoutSecret(kv: KV, key: string, name: string): KV {
    var rest := Get(kv, key) - {name};
    if name !in Get(kv, key) then kv else if rest == map[] then kv - {key} else kv[key := rest]
  }

  datatype Op =
    | Set(scope: Scope, name: string, value: string)
    | Remove(scope: Scope, name: string)

  /** One API call on a store in which `at` says where each scope lives. */
  function Apply(kv: KV, at: Scope -> string, op: Op): KV {
    match op
    case Set(s, n, v) => WithSecret(kv, at(s), n, v)
    case Remove(s, n) => WithoutSecret(kv, at(s), n)
  }

  function ApplyAll(kv: KV, at: Scope -> string, ops: seq<Op>): KV
    decreases |ops|
  {
    if |ops| == 0 then kv else ApplyAll(Apply(kv, at, ops[0]), at, ops[1..])
  }

  /** The abstract table: what each scope holds. */
  type Table = Scope -> Secrets

  function TableStep(t: Table, op: Op): Table {
    (s: Scope) =>
      if s != op.scope then t(s)
      else match op
        case Set(_, n, v) => t(s)[n := v]
        case Remove(_, n) => t(s) - {n}
  }

  function TableRun(t: Table, ops: seq<Op>): Table {
    if ops == [] then t else TableRun(TableStep(t, ops[0]), ops[1..])
  }

  /** The table that a store holds. */
  function TableOf(kv: KV, at: Scope -> string): Table {
    (s: Scope) => Get(kv, at(s))
  }

  ghost predicate Refines(kv: KV, at: Scope -> string, t: Table) {
    forall s :: Named(s) ==> Get(kv, at(s)) == t(s)
  }

  ghost predicate Apart(at: Scope -> string) {
    forall s, t :: Named(s) && Named(t) && s != t ==> at(s) != at(t)
  }

  predicate AllNamed(ops: seq<Op>) {
    forall i :: 0 <= i < |ops| ==> Named(ops[i].scope)
  }

  lemma ApplyRefines(kv: KV, at: Scope -> string, t: Table, op: Op)
    requires Apart(at) && Refines(kv, at, t) && Named(op.scope)
    ensures Refines(Apply(kv, at, op), at, TableStep(t, op))
  {
  }

  lemma {:induction false} RunRefines(kv: KV, at: Scope -> string, t: Table, ops: seq<Op>)
    requires Apart(at) && Refines(kv, at, t) && AllNamed(ops)
    ensures Refines(ApplyAll(kv, at, ops), at, TableRun(t, ops))
    decreases |ops|
  {
    if ops != [] {
      ApplyRefines(kv, at, t, ops[0]);
      RunRefines(Apply(kv, at, ops[0]), at, TableStep(t, ops[0]), ops[1..]);
    }
  }

  // ---- delivery ----

  /** The keys that hold something, in order. */
  function Existing(kv: KV, keys: seq<string>): (r: seq<string>)
    ensures r == [] <==> forall i :: 0 <= i < |keys| ==> Get(kv, keys[i]) == map[]
  {
    if keys == [] then []
    else (if Get(kv, keys[0]) != map[] then [keys[0]] else []) + Existing(kv, keys[1..])
  }

  /** External Secrets merges the maps at its keys in order; later ones win. */
  function Delivered(kv: KV, keys: seq<string>): Secrets {
    if keys == [] then map[] else Get(kv, keys[0]) + Delivered(kv, keys[1..])
  }

  lemma {:induction false} SkippingEmptyKeys(kv: KV, keys: seq<string>)
    ensures Delivered(kv, Existing(kv, keys)) == Delivered(kv, keys)
  {
    if keys != [] {
      SkippingEmptyKeys(kv, keys[1..]);
      if Get(kv, keys[0]) != map[] {
        assert Existing(kv, keys)[1..] == Existing(kv, keys[1..]);
      } else {
        assert Existing(kv, keys) == Existing(kv, keys[1..]);
      }
    }
  }

  function Lookup(m: Secrets, name: string): Option<string> {
    if name in m then Some(m[name]) else None
  }

  /** The value of the nearest scope of a chain that holds the name. */
  function Nearest(t: Table, chain: seq<Scope>, name: string): Option<string> {
    if chain == [] then None
    else
      var last := chain[|chain| - 1];
      if name in t(last) then Some(t(last)[name]) else Nearest(t, chain[..|chain| - 1], name)
  }

  function KeysOf(at: Scope -> string, chain: seq<Scope>): (keys: seq<string>)
    ensures |keys| == |chain| && forall i :: 0 <= i < |chain| ==> keys[i] == at(chain[i])
  {
    seq(|chain|, i requires 0 <= i < |chain| => at(chain[i]))
  }

  lemma UnionsRegroup(a: Secrets, b: Secrets, c: Secrets)
    ensures a + (b + c) == (a + b) + c
  {
  }

  lemma {:induction false} DeliveredSplit(kv: KV, front: seq<string>, last: string)
    ensures Delivered(kv, front + [last]) == Delivered(kv, front) + Get(kv, last)
  {
    if front == [] {
      assert front + [last] == [last];
      assert Delivered(kv, [last]) == Get(kv, last) + Delivered(kv, []);
    } else {
      assert (front + [last])[1..] == front[1..] + [last];
      DeliveredSplit(kv, front[1..], last);
      UnionsRegroup(Get(kv, front[0]), Delivered(kv, front[1..]), Get(kv, last));
    }
  }

  lemma {:induction false} DeliveredIsNearest(kv: KV, at: Scope -> string, t: Table, chain: seq<Scope>, name: string)
    requires Refines(kv, at, t) && forall i :: 0 <= i < |chain| ==> Named(chain[i])
    ensures Lookup(Delivered(kv, KeysOf(at, chain)), name) == Nearest(t, chain, name)
  {
    if chain != [] {
      var front, last := chain[..|chain| - 1], chain[|chain| - 1];
      assert KeysOf(at, chain) == KeysOf(at, front) + [at(last)];
      DeliveredSplit(kv, KeysOf(at, front), at(last));
      DeliveredIsNearest(kv, at, t, front, name);
    }
  }

  /** Where the API puts each scope, and where the controller looks. */
  function ApiKey(prefix: string): Scope -> string {
    (s: Scope) => Key(ApiPath(prefix, s))
  }

  function StoreKeys(paths: seq<string>): (keys: seq<string>)
    ensures |keys| == |paths| && forall i :: 0 <= i < |paths| ==> keys[i] == Key(paths[i])
  {
    seq(|paths|, i requires 0 <= i < |paths| => Key(paths[i]))
  }

  lemma ApiKeysApart(prefix: string)
    ensures Apart(ApiKey(prefix))
  {
    forall s, t | Named(s) && Named(t) && s != t ensures ApiKey(prefix)(s) != ApiKey(prefix)(t) {
      KeysInjective(prefix, s, t);
    }
  }

  /** The keys the controller reads for one application. */
  function ControllerKeys(prefix: string, org: string, slug: string, environment: string, app: string): seq<string> {
    StoreKeys(ControllerPaths(prefix, org, slug, environment, app))
  }

  lemma ControllerLooksWhereApiWrites(prefix: string, org: string, client: string, environment: string, app: string)
    requires Name(client)
    ensures ControllerKeys(prefix, org, client, environment, app)
            == KeysOf(ApiKey(prefix), Chain(org, client, environment, app))
  {
    SidesAgreeIffSlugIsName(prefix, org, client, client, environment, app);
    StoreKeysOfScopes(prefix, Chain(org, client, environment, app));
  }

  lemma StoreKeysOfScopes(prefix: string, chain: seq<Scope>)
    ensures StoreKeys(ScopePaths(Strip(prefix, SLASH), chain)) == KeysOf(ApiKey(prefix), chain)
  {
  }

  /** The main result: after any run of API calls at any scopes, from any store, the merge of the paths the controller
      keeps gives every name the value of the nearest scope that holds it; and the controller keeps no path exactly
      when no scope of the chain holds a name. */
  lemma ScopedSecretsRefineTable(kv: KV, prefix: string, ops: seq<Op>,
                                 org: string, client: string, environment: string, app: string, name: string)
    requires AllNamed(ops) && SlashFree(org) && Name(client) && Name(environment) && Name(app)
    ensures var now := ApplyAll(kv, ApiKey(prefix), ops);
            var table := TableRun(TableOf(kv, ApiKey(prefix)), ops);
            var chain := Chain(org, client, environment, app);
            var kept := Existing(now, ControllerKeys(prefix, org, client, environment, app));
            && Lookup(Delivered(now, kept), name) == Nearest(table, chain, name)
            && (kept == [] <==> forall s :: s in chain ==> table(s) == map[])
  {
    ApiKeysApart(prefix);
    ControllerLooksWhereApiWrites(prefix, org, client, environment, app);
    ChainNamed(org, client, environment, app);
    RefinesTable(kv, ApiKey(prefix), ops, Chain(org, client, environment, app), name);
  }

  lemma ChainNamed(org: string, client: string, environment: string, app: string)
    requires SlashFree(org) && Name(client) && Name(environment) && Name(app)
    ensures forall i :: 0 <= i < |Chain(org, client, environment, app)| ==> Named(Chain(org, client, environment, app)[i])
  {
  }

  lemma RefinesTable(kv: KV, at: Scope -> string, ops: seq<Op>, chain: seq<Scope>, name: string)
    requires Apart(at) && AllNamed(ops) && forall i :: 0 <= i < |chain| ==> Named(chain[i])
    ensures var now := ApplyAll(kv, at, ops);
            var table := TableRun(TableOf(kv, at), ops);
            var kept := Existing(now, KeysOf(at, chain));
            && Lookup(Delivered(now, kept), name) == Nearest(table, chain, name)
            && (kept == [] <==> forall s :: s in chain ==> table(s) == map[])
  {
    var now, table := ApplyAll(kv, at, ops), TableRun(TableOf(kv, at), ops);
    RunRefines(kv, at, TableOf(kv, at), ops);
    SkippingEmptyKeys(now, KeysOf(at, chain));
    DeliveredIsNearest(now, at, table, chain, name);
    assert forall i :: 0 <= i < |chain| ==> Get(now, KeysOf(at, chain)[i]) == table(chain[i]);
  }

  // ---- the store client and the delivery step ----

  /** The API's OpenBao client. `accepted` are the tokens the server honours at the moment. */
  class SecretsStore {
    var kv: KV
    var token: Option<string>
    var accepted: set<string>

    constructor (kv: KV, accepted: set<string>)
      ensures this.kv == kv && this.accepted == accepted && token == None
    {
      this.kv, this.accepted, this.token := kv, accepted, None;
    }

    /** One request with a single retry: a refused token is dropped and replaced by a freshly minted one. `minted` are
        the tokens that logging in would return at the first and at the second attempt. */
    method Call(minted: (string, string)) returns (allowed: bool)
      modifies this`token
      ensures var first := if old(token).Some? then old(token).value else minted.0;
              allowed <==> first in accepted || minted.1 in accepted
      ensures allowed ==> token.Some? && token.value in accepted
    {
      var attempt := 0;
      while attempt < 2
        invariant attempt == 0 ==> token == old(token)
        invariant attempt >= 1 ==> token == None
        invariant attempt >= 1 ==> (if old(token).Some? then old(token).value else minted.0) !in accepted
        invariant attempt >= 2 ==> minted.1 !in accepted
      {
        if attempt > 0 || token.None? {
          token := Some(if attempt == 0 then minted.0 else minted.1);
        }
        if token.value in accepted {
          return true;
        }
        if attempt > 0 {
          return false;
        }
        token := None;
        attempt := attempt + 1;
      }
      allowed := false;
    }

    /** Sets one secret by reading the scope's map, changing it and writing it back. A request that is refused changes
        nothing; once the read is allowed the write is. */
    method SetSecret(path: string, name: string, value: string, minted: (string, string), again: (string, string))
      returns (stored: bool)
      modifies this`kv, this`token
      ensures var first := if old(token).Some? then old(token).value else minted.0;
              stored <==> first in accepted || minted.1 in accepted
      ensures kv == if stored then WithSecret(old(kv), Key(path), name, value) else old(kv)
    {
      var allowed := Call(minted);
      if !allowed { return false; }
      var data: Secrets := if Key(path) in kv then kv[Key(path)] else map[];
      data := data[name := value];
      stored := Call(again);
      kv := kv[Key(path) := data];
    }

    /** Removes one secret; the last one takes the path with it. */
    method RemoveSecret(path: string, name: string, minted: (string, string), again: (string, string))
      returns (allowed: bool, removed: bool)
      modifies this`kv, this`token
      ensures kv == if allowed then WithoutSecret(old(kv), Key(path), name) else old(kv)
      ensures removed <==> allowed && name in Get(old(kv), Key(path))
    {
      removed := false;
      allowed := Call(minted);
      if !allowed { return; }
      var data: Secrets := if Key(path) in kv then kv[Key(path)] else map[];
      if name !in data { return; }
      data := data - {name};
      allowed := Call(again);
      removed := true;
      if data != map[] {
        kv := kv[Key(path) := data];
      } else {
        kv := kv - {Key(path)};
      }
    }
  }

  /** The paths whose read yields something, as the controller filters them. */
  function KeptPaths(kv: KV, paths: seq<string>): seq<string> {
    if paths == [] then []
    else (if Get(kv, Key(paths[0])) != map[] then [paths[0]] else []) + KeptPaths(kv, paths[1..])
  }

  lemma {:induction false} KeptPathsSplit(kv: KV, front: seq<string>, last: string)
    ensures KeptPaths(kv, front + [last])
            == KeptPaths(kv, front) + if Get(kv, Key(last)) != map[] then [last] else []
  {
    hide Get, Key;
    if front == [] {
      assert front + [last] == [last];
    } else {
      assert (front + [last])[1..] == front[1..] + [last];
      KeptPathsSplit(kv, front[1..], last);
    }
  }

  lemma StoreKeysConcat(x: seq<string>, y: seq<string>)
    ensures StoreKeys(x + y) == StoreKeys(x) + StoreKeys(y)
  {
  }

  lemma {:induction false} KeptPathsAreExisting(kv: KV, paths: seq<string>)
    ensures StoreKeys(KeptPaths(kv, paths)) == Existing(kv, StoreKeys(paths))
  {
    if paths == [] {
      assert StoreKeys(paths) == [];
    } else {
      KeptPathsAreExisting(kv, paths[1..]);
      assert StoreKeys(paths)[1..] == StoreKeys(paths[1..]);
      var head := if Get(kv, Key(paths[0])) != map[] then [paths[0]] else [];
      StoreKeysConcat(head, KeptPaths(kv, paths[1..]));
      assert StoreKeys(head) == if Get(kv, Key(paths[0])) != map[] then [Key(paths[0])] else [];
    }
  }

  const MAX_NAME: nat := 253

  function ScopedSecretName(app: string): string {
    Clip(app + "-scoped-secrets", MAX_NAME)
  }

  /** The delivery step of the application reconciler, and the ExternalSecrets it keeps (the paths each one reads). */
  class Delivery {
    var externalSecrets: map<(string, string), seq<string>>

    constructor ()
      ensures externalSecrets == map[]
    {
      externalSecrets := map[];
    }

    /** Returns the name of the delivered Secret, or "" when nothing is delivered. When OpenBao does not answer, the
        cluster is left as it is. */
    method Reconcile(store: SecretsStore, namespace: string, app: string, paths: seq<string>, answers: bool)
      returns (delivered: string)
      modifies this
      ensures !answers ==> externalSecrets == old(externalSecrets) && delivered == ""
      ensures answers ==>
                var kept := KeptPaths(store.kv, paths);
                var at := (namespace, ScopedSecretName(app));
                && StoreKeys(kept) == Existing(store.kv, StoreKeys(paths))
                && externalSecrets == (if kept == [] then old(externalSecrets) - {at} else old(externalSecrets)[at := kept])
                && delivered == if kept == [] then "" else ScopedSecretName(app)
    {
      if !answers { return ""; }
      var name := ScopedSecretName(app);
      var kept: seq<string> := [];
      for i := 0 to |paths|
        invariant kept == KeptPaths(store.kv, paths[..i])
        invariant externalSecrets == old(externalSecrets)
      {
        KeptPathsSplit(store.kv, paths[..i], paths[i]);
        assert paths[..i + 1] == paths[..i] + [paths[i]];
        var found: Secrets := if Key(paths[i]) in store.kv then store.kv[Key(paths[i])] else map[];
        if found != map[] {
          kept := kept + [paths[i]];
        }
      }
      assert paths[..|paths|] == paths;
      KeptPathsAreExisting(store.kv, paths);
      if kept == [] {
        externalSecrets := externalSecrets - {(namespace, name)};
        return "";
      }
      externalSecrets := externalSecrets[(namespace, name) := kept];
      delivered := name;
    }
  }
}
