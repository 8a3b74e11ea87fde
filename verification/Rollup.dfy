/** The two roll-ups of scoped configuration: the environment that the controller merges for a workload, and the list
    that the portal shows with overridden entries flagged. */
module Rollup {
  import opened Text
  import opened Wrappers
  import Sorting

  // ---- the controller's merge ----

  /** A variable of a scope; a missing value counts as "". */
  datatype Variable = Variable(name: string, value: Option<string>)

  /** An explicit entry of the application's `env`; `body` stands for its value or reference. */
  datatype EnvEntry = EnvEntry(name: string, body: string)

  datatype Item = Plain(name: string, value: string) | Explicit(entry: EnvEntry)

  /** A Python dictionary: keys in order of first insertion. */
  type Dict = seq<(string, Item)>

  predicate DistinctKeys(d: Dict) {
    forall i, j :: 0 <= i < j < |d| ==> d[i].0 != d[j].0
  }

  function Find(d: Dict, key: string): Option<Item> {
    if d == [] then None
    else if d[|d| - 1].0 == key then Some(d[|d| - 1].1) else Find(d[..|d| - 1], key)
  }

  /** `d[key] = item` */
  function Put(d: Dict, key: string, item: Item): Dict {
    if d == [] then [(key, item)]
    else
      var last := d[|d| - 1];
      if last.0 == key then d[..|d| - 1] + [(key, item)] else Put(d[..|d| - 1], key, item) + [last]
  }

  lemma {:induction false} PutFinds(d: Dict, key: string, item: Item, other: string)
    ensures Find(Put(d, key, item), other) == if other == key then Some(item) else Find(d, other)
  {
    if d == [] {
      assert Put(d, key, item)[..0] == [];
    } else {
      var front, last, r := d[..|d| - 1], d[|d| - 1], Put(d, key, item);
      if last.0 == key {
        assert r[..|r| - 1] == front;
      } else {
        assert r[..|r| - 1] == Put(front, key, item);
        PutFinds(front, key, item, other);
      }
    }
  }

  lemma {:induction false} FindsKeys(d: Dict, key: string)
    ensures Find(d, key).Some? <==> exists i :: 0 <= i < |d| && d[i].0 == key
  {
    if d != [] { FindsKeys(d[..|d| - 1], key); }
  }

  lemma {:induction false} PutKeys(d: Dict, key: string, item: Item)
    requires DistinctKeys(d)
    ensures DistinctKeys(Put(d, key, item))
    ensures forall i :: 0 <= i < |Put(d, key, item)| ==>
              Put(d, key, item)[i] == (key, item) || Put(d, key, item)[i] in d
  {
    if d != [] {
      var front, last := d[..|d| - 1], d[|d| - 1];
      PutKeys(front, key, item);
      if last.0 != key {
        var r := Put(front, key, item);
        forall i | 0 <= i < |r| ensures r[i].0 != last.0 {
          if r[i] != (key, item) { assert r[i] in front; }
        }
      }
    }
  }

  function OrEmpty(value: Option<string>): string {
    if value.Some? then value.value else ""
  }

  /** One scope's variables go into the dictionary in order. */
  function AddScope(d: Dict, variables: seq<Variable>): Dict {
    if variables == [] then d
    else
      var front, v := AddScope(d, variables[..|variables| - 1]), variables[|variables| - 1];
      var name := Strip(v.name, WHITESPACE);
      if name != "" then Put(front, name, Plain(name, OrEmpty(v.value))) else front
  }

  function AddScopes(scopes: seq<seq<Variable>>): Dict {
    if scopes == [] then [] else AddScope(AddScopes(scopes[..|scopes| - 1]), scopes[|scopes| - 1])
  }

  function AddEnv(d: Dict, env: seq<EnvEntry>): Dict {
    if env == [] then d
    else
      var front, e := AddEnv(d, env[..|env| - 1]), env[|env| - 1];
      var name := Strip(e.name, WHITESPACE);
      if name != "" then Put(front, name, Explicit(e)) else front
  }

  function Merged(scopes: seq<seq<Variable>>, env: seq<EnvEntry>): Dict {
    AddEnv(AddScopes(scopes), env)
  }

  /** `merged_env`: the dictionary is filled scope by scope, then by the explicit entries; its values are the result. */
  method MergedEnv(scopes: seq<seq<Variable>>, env: seq<EnvEntry>) returns (items: seq<Item>)
    ensures var d := Merged(scopes, env); |items| == |d| && forall i :: 0 <= i < |d| ==> items[i] == d[i].1
  {
    var merged: Dict := [];
    for s := 0 to |scopes|
      invariant merged == AddScopes(scopes[..s])
    {
      var variables := scopes[s];
      assert variables[..0] == [];
      for k := 0 to |variables|
        invariant merged == AddScope(AddScopes(scopes[..s]), variables[..k])
      {
        assert variables[..k + 1][..k] == variables[..k];
        var name := Strip(variables[k].name, WHITESPACE);
        if name != "" {
          merged := Put(merged, name, Plain(name, if variables[k].value.Some? then variables[k].value.value else ""));
        }
      }
      assert variables[..|variables|] == variables;
      assert scopes[..s + 1][..s] == scopes[..s];
    }
    assert scopes[..|scopes|] == scopes;
    for k := 0 to |env|
      invariant merged == AddEnv(AddScopes(scopes), env[..k])
    {
      assert env[..k + 1][..k] == env[..k];
      var name := Strip(env[k].name, WHITESPACE);
      if name != "" {
        merged := Put(merged, name, Explicit(env[k]));
      }
    }
    assert env[..|env|] == env;
    items := seq(|merged|, i requires 0 <= i < |merged| => merged[i].1);
  }

  // ---- who wins ----

  /** The value that a scope gives a name: its last variable of that name. */
  function ScopeValue(variables: seq<Variable>, name: string): Option<string> {
    if variables == [] then None
    else
      var v := variables[|variables| - 1];
      if Strip(v.name, WHITESPACE) == name then Some(OrEmpty(v.value)) else ScopeValue(variables[..|variables| - 1], name)
  }

  /** A variable of this name, after which the scope has no other; one without a value counts as empty. */
  predicate LastOfScope(variables: seq<Variable>, name: string, i: nat, value: string) {
    && i < |variables| && Strip(variables[i].name, WHITESPACE) == name
    && (forall j :: i < j < |variables| ==> Strip(variables[j].name, WHITESPACE) != name)
    && value == if variables[i].value.Some? then variables[i].value.value else ""
  }

  /** A scope gives a name the value of its last variable of that name, and none if it has no such variable. */
  lemma {:induction false} ScopeGivesLast(variables: seq<Variable>, name: string)
    ensures ScopeValue(variables, name).None? <==> forall i :: 0 <= i < |variables| ==> Strip(variables[i].name, WHITESPACE) != name
    ensures ScopeValue(variables, name).Some? ==>
              exists i: nat :: LastOfScope(variables, name, i, ScopeValue(variables, name).value)
  {
    hide Strip;
    if variables != [] {
      var front, n := variables[..|variables| - 1], |variables| - 1;
      ScopeGivesLast(front, name);
      if Strip(variables[n].name, WHITESPACE) == name {
        assert LastOfScope(variables, name, n, OrEmpty(variables[n].value));
      } else if ScopeValue(front, name).Some? {
        var i: nat :| LastOfScope(front, name, i, ScopeValue(front, name).value);
        assert LastOfScope(variables, name, i, ScopeValue(front, name).value);
      }
    }
  }

  /** The nearest scope that holds the name; later scopes are nearer. */
  function NearestScope(scopes: seq<seq<Variable>>, name: string): Option<nat> {
    if scopes == [] then None
    else if ScopeValue(scopes[|scopes| - 1], name).Some? then Some(|scopes| - 1) else NearestScope(scopes[..|scopes| - 1], name)
  }

  lemma {:induction false} NearestHolds(scopes: seq<seq<Variable>>, name: string)
    ensures var n := NearestScope(scopes, name);
            && (n.Some? ==> n.value < |scopes| && ScopeValue(scopes[n.value], name).Some?)
            && forall i :: 0 <= i < |scopes| && ScopeValue(scopes[i], name).Some? ==> n.Some? && i <= n.value
  {
    hide ScopeValue;
    if scopes != [] { NearestHolds(scopes[..|scopes| - 1], name); }
  }

  /** The explicit entry that a name gets, if any. */
  function ExplicitFor(env: seq<EnvEntry>, name: string): Option<EnvEntry> {
    if env == [] then None
    else if Strip(env[|env| - 1].name, WHITESPACE) == name then Some(env[|env| - 1]) else ExplicitFor(env[..|env| - 1], name)
  }

  lemma {:induction false} ScopeWins(d: Dict, variables: seq<Variable>, name: string)
    requires name != ""
    ensures var v := ScopeValue(variables, name);
            Find(AddScope(d, variables), name) == if v.Some? then Some(Plain(name, v.value)) else Find(d, name)
  {
    if variables != [] {
      var front, v := variables[..|variables| - 1], variables[|variables| - 1];
      ScopeWins(d, front, name);
      var key := Strip(v.name, WHITESPACE);
      if key != "" { PutFinds(AddScope(d, front), key, Plain(key, OrEmpty(v.value)), name); }
    }
  }

  lemma {:induction false} ScopesWin(scopes: seq<seq<Variable>>, name: string)
    requires name != ""
    ensures NearestScope(scopes, name).None? ==> Find(AddScopes(scopes), name) == None
    ensures var n := NearestScope(scopes, name);
            n.Some? ==> n.value < |scopes| && ScopeValue(scopes[n.value], name).Some?
                        && Find(AddScopes(scopes), name) == Some(Plain(name, ScopeValue(scopes[n.value], name).value))
  {
    if scopes != [] {
      ScopesWin(scopes[..|scopes| - 1], name);
      ScopeWins(AddScopes(scopes[..|scopes| - 1]), scopes[|scopes| - 1], name);
    }
  }

  lemma {:induction false} ExplicitWins(d: Dict, env: seq<EnvEntry>, name: string)
    requires name != ""
    ensures var e := ExplicitFor(env, name);
            Find(AddEnv(d, env), name) == if e.Some? then Some(Explicit(e.value)) else Find(d, name)
  {
    if env != [] {
      var front, e := env[..|env| - 1], env[|env| - 1];
      ExplicitWins(d, front, name);
      var key := Strip(e.name, WHITESPACE);
      if key != "" { PutFinds(AddEnv(d, front), key, Explicit(e), name); }
    }
  }

  function NameOf(item: Item): string {
    Strip(if item.Plain? then item.name else item.entry.name, WHITESPACE)
  }

  /** Each key is the stripped name of its item. */
  predicate Keyed(d: Dict) {
    forall i :: 0 <= i < |d| ==> d[i].0 != "" && d[i].0 == NameOf(d[i].1)
  }

  lemma StripTwice(s: string)
    ensures Strip(Strip(s, WHITESPACE), WHITESPACE) == Strip(s, WHITESPACE)
  {
    hide RStrip, LStrip;
    var t := Strip(s, WHITESPACE);
    if t == "" { assert Strip("", WHITESPACE) == ""; }
  }

  lemma PutKeyed(d: Dict, key: string, item: Item)
    requires DistinctKeys(d) && Keyed(d) && key != "" && NameOf(item) == key
    ensures DistinctKeys(Put(d, key, item)) && Keyed(Put(d, key, item))
  {
    hide Strip;
    PutKeys(d, key, item);
    var r := Put(d, key, item);
    forall i | 0 <= i < |r| ensures r[i].0 != "" && r[i].0 == NameOf(r[i].1) {
      if r[i] != (key, item) { assert r[i] in d; }
    }
  }

  lemma {:induction false} ScopeKeyed(d: Dict, variables: seq<Variable>)
    requires DistinctKeys(d) && Keyed(d)
    ensures DistinctKeys(AddScope(d, variables)) && Keyed(AddScope(d, variables))
  {
    hide Strip, Put;
    if variables != [] {
      var front, v := AddScope(d, variables[..|variables| - 1]), variables[|variables| - 1];
      ScopeKeyed(d, variables[..|variables| - 1]);
      var name := Strip(v.name, WHITESPACE);
      StripTwice(v.name);
      if name != "" { PutKeyed(front, name, Plain(name, OrEmpty(v.value))); }
    }
  }

  lemma {:induction false} ScopesKeyed(scopes: seq<seq<Variable>>)
    ensures DistinctKeys(AddScopes(scopes)) && Keyed(AddScopes(scopes))
  {
    if scopes != [] {
      ScopesKeyed(scopes[..|scopes| - 1]);
      ScopeKeyed(AddScopes(scopes[..|scopes| - 1]), scopes[|scopes| - 1]);
    }
  }

  lemma {:induction false} EnvKeyed(d: Dict, env: seq<EnvEntry>)
    requires DistinctKeys(d) && Keyed(d)
    ensures DistinctKeys(AddEnv(d, env)) && Keyed(AddEnv(d, env))
  {
    hide Strip, Put;
    if env != [] {
      EnvKeyed(d, env[..|env| - 1]);
      var name := Strip(env[|env| - 1].name, WHITESPACE);
      if name != "" { PutKeyed(AddEnv(d, env[..|env| - 1]), name, Explicit(env[|env| - 1])); }
    }
  }

  /** The merge has one item per name; an explicit entry comes through verbatim and wins; otherwise the nearest scope
      that holds the name gives its value; and no name appears from nowhere. */
  lemma MergeMeaning(scopes: seq<seq<Variable>>, env: seq<EnvEntry>, name: string)
    requires name != ""
    ensures var d := Merged(scopes, env);
            && DistinctKeys(d) && Keyed(d)
            && var explicit, nearest := ExplicitFor(env, name), NearestScope(scopes, name);
            Find(d, name) == if explicit.Some? then Some(Explicit(explicit.value))
                             else if nearest.Some? && nearest.value < |scopes| && ScopeValue(scopes[nearest.value], name).Some?
                             then Some(Plain(name, ScopeValue(scopes[nearest.value], name).value))
                             else None
  {
    hide DistinctKeys, Keyed, Strip;
    ScopesKeyed(scopes);
    EnvKeyed(AddScopes(scopes), env);
    ScopesWin(scopes, name);
    ExplicitWins(AddScopes(scopes), env, name);
  }

  // ---- the portal's list ----

  /** A Variable or Secret record of the portal. */
  datatype Record = Record(id: int, name: string, isSecret: bool, value: Option<string>)

  /** A record and the index of its scope in the chain. */
  datatype Placed = Placed(record: Record, scope: nat)

  function Place(records: seq<Record>, scope: nat): (r: seq<Placed>)
    ensures |r| == |records| && forall i :: 0 <= i < |r| ==> r[i] == Placed(records[i], scope)
  {
    seq(|records|, i requires 0 <= i < |records| => Placed(records[i], scope))
  }

  /** All records of the chain, farthest scope first. */
  function Flat(chain: seq<seq<Record>>): seq<Placed> {
    if chain == [] then [] else Flat(chain[..|chain| - 1]) + Place(chain[|chain| - 1], |chain| - 1)
  }

  /** A later record has the same name. */
  ghost predicate Shadowed(flat: seq<Placed>, i: nat)
    requires i < |flat|
  {
    exists j :: i < j < |flat| && flat[j].record.name == flat[i].record.name
  }

  /** An entry of the list; the flag is flipped when a nearer record of the name turns up. */
  class Entry {
    const placed: Placed
    var overridden: bool

    constructor (placed: Placed)
      ensures this.placed == placed && !overridden
    {
      this.placed, overridden := placed, false;
    }
  }

  /** Some record has the name. */
  ghost predicate Occurs(flat: seq<Placed>, name: string) {
    exists i :: 0 <= i < |flat| && flat[i].record.name == name
  }

  /** The entries, all different, stand for the records, and `winners` holds the last entry of each name. */
  ghost predicate Wins(entries: seq<Entry>, winners: map<string, Entry>, flat: seq<Placed>) {
    && |entries| == |flat|
    && (forall i :: 0 <= i < |flat| ==> entries[i].placed == flat[i])
    && (forall i, j :: 0 <= i < j < |flat| ==> entries[i] != entries[j])
    && (forall n :: n in winners <==> Occurs(flat, n))
    && (forall i :: 0 <= i < |flat| && !Shadowed(flat, i) ==> winners[flat[i].record.name] == entries[i])
  }

  /** The flags say which entries are overridden so far. */
  ghost predicate Flags(entries: seq<Entry>, flat: seq<Placed>)
    requires |entries| == |flat|
    reads entries
  {
    forall i :: 0 <= i < |flat| ==> (entries[i].overridden <==> Shadowed(flat, i))
  }

  ghost predicate Shows(entries: seq<Entry>, winners: map<string, Entry>, flat: seq<Placed>)
    reads entries
  {
    Wins(entries, winners, flat) && Flags(entries, flat)
  }

  lemma ShadowedGrown(flat: seq<Placed>, p: Placed)
    ensures forall i :: 0 <= i < |flat| ==>
              (Shadowed(flat + [p], i) <==> Shadowed(flat, i) || flat[i].record.name == p.record.name)
    ensures !Shadowed(flat + [p], |flat|)
  {
    forall i | 0 <= i < |flat| ensures Shadowed(flat + [p], i) <==> Shadowed(flat, i) || flat[i].record.name == p.record.name {
      if Shadowed(flat, i) {
        var j :| i < j < |flat| && flat[j].record.name == flat[i].record.name;
        assert (flat + [p])[j] == flat[j];
      }
      if flat[i].record.name == p.record.name { assert (flat + [p])[|flat|] == p; }
    }
  }

  /** Some record of the name is the last one. */
  lemma {:induction false} LastOfName(flat: seq<Placed>, name: string) returns (k: nat)
    requires Occurs(flat, name)
    ensures k < |flat| && flat[k].record.name == name && !Shadowed(flat, k)
  {
    k := |flat| - 1;
    while flat[k].record.name != name
      invariant k < |flat|
      invariant forall j :: k < j < |flat| ==> flat[j].record.name != name
      invariant exists i :: 0 <= i <= k && flat[i].record.name == name
      decreases k
    {
      k := k - 1;
    }
  }

  lemma OthersAreShadowed(flat: seq<Placed>, name: string, k: nat)
    requires k < |flat| && flat[k].record.name == name && !Shadowed(flat, k)
    ensures forall i :: 0 <= i < |flat| && i != k && flat[i].record.name == name ==> Shadowed(flat, i)
  {
  }

  lemma WinsGrown(entries: seq<Entry>, winners: map<string, Entry>, flat: seq<Placed>, entry: Entry)
    requires Wins(entries, winners, flat) && entry !in entries
    ensures Wins(entries + [entry], winners[entry.placed.record.name := entry], flat + [entry.placed])
  {
    ShadowedGrown(flat, entry.placed);
    hide Shadowed;
    forall n ensures Occurs(flat + [entry.placed], n) <==> Occurs(flat, n) || n == entry.placed.record.name {
      if Occurs(flat, n) {
        var i :| 0 <= i < |flat| && flat[i].record.name == n;
        assert (flat + [entry.placed])[i] == flat[i];
      }
      assert (flat + [entry.placed])[|flat|] == entry.placed;
    }
  }

  /** The winner of a name is the one entry of it that is not flagged. */
  lemma WinnerOf(entries: seq<Entry>, winners: map<string, Entry>, flat: seq<Placed>, name: string) returns (k: nat)
    requires Wins(entries, winners, flat) && name in winners
    ensures k < |flat| && winners[name] == entries[k] && flat[k].record.name == name
    ensures forall i :: 0 <= i < |flat| && i != k && flat[i].record.name == name ==> Shadowed(flat, i)
  {
    k := LastOfName(flat, name);
    OthersAreShadowed(flat, name, k);
  }

  /** One step of the loop: the entry that was winning is flagged, and the new one wins. */
  method AddRecord(entries: seq<Entry>, winners: map<string, Entry>, ghost flat: seq<Placed>, p: Placed)
    returns (entries': seq<Entry>, winners': map<string, Entry>)
    requires Shows(entries, winners, flat)
    modifies entries
    ensures Shows(entries', winners', flat + [p])
    ensures |entries'| == |entries| + 1 && entries'[..|entries|] == entries && fresh(entries'[|entries|])
  {
    hide Shadowed, Wins;
    DifferentEntries(entries, winners, flat);
    ShadowedGrown(flat, p);
    var entry := new Entry(p);
    WinsGrown(entries, winners, flat, entry);
    if p.record.name in winners {
      ghost var k := WinnerOf(entries, winners, flat, p.record.name);
      winners[p.record.name].overridden := true;
    } else {
      NoneOfName(entries, winners, flat, p.record.name);
    }
    winners' := winners[p.record.name := entry];
    entries' := entries + [entry];
  }

  lemma DifferentEntries(entries: seq<Entry>, winners: map<string, Entry>, flat: seq<Placed>)
    requires Wins(entries, winners, flat)
    ensures |entries| == |flat| && forall i, j :: 0 <= i < |flat| && 0 <= j < |flat| && entries[i] == entries[j] ==> i == j
  {
  }

  lemma NoneOfName(entries: seq<Entry>, winners: map<string, Entry>, flat: seq<Placed>, name: string)
    requires Wins(entries, winners, flat) && name !in winners
    ensures forall i :: 0 <= i < |flat| ==> flat[i].record.name != name
  {
  }

  /** The records of one scope. */
  method AddRecords(entries: seq<Entry>, winners: map<string, Entry>, ghost flat: seq<Placed>, records: seq<Record>, scope: nat)
    returns (entries': seq<Entry>, winners': map<string, Entry>)
    requires Shows(entries, winners, flat)
    modifies entries
    ensures Shows(entries', winners', flat + Place(records, scope))
    ensures |entries'| >= |entries| && entries'[..|entries|] == entries
    ensures forall i :: |entries| <= i < |entries'| ==> fresh(entries'[i])
  {
    hide Shows;
    entries', winners' := entries, winners;
    ghost var placed := Place(records, scope);
    assert flat + placed[..0] == flat;
    for k := 0 to |records|
      invariant Shows(entries', winners', flat + placed[..k])
      invariant |entries'| >= |entries| && entries'[..|entries|] == entries
      invariant forall i :: |entries| <= i < |entries'| ==> fresh(entries'[i])
    {
      assert flat + placed[..k + 1] == flat + placed[..k] + [Placed(records[k], scope)];
      entries', winners' := AddRecord(entries', winners', flat + placed[..k], Placed(records[k], scope));
    }
    assert placed[..|records|] == placed;
  }

  /** What the list is sorted by. */
  ghost function KeysOf(flat: seq<Placed>): (r: seq<Sorting.Key>)
    ensures |r| == |flat|
    ensures forall i :: 0 <= i < |r| ==> r[i] == Sorting.Key(flat[i].record.name, Shadowed(flat, i))
  {
    seq(|flat|, i requires 0 <= i < |flat| => Sorting.Key(flat[i].record.name, Shadowed(flat, i)))
  }

  /** `sorted(entries, key=...)`, by name and then by the flag. */
  method SortEntries(entries: seq<Entry>, ghost flat: seq<Placed>) returns (sorted: seq<Entry>)
    requires |entries| == |flat| && (forall i :: 0 <= i < |flat| ==> entries[i].placed == flat[i]) && Flags(entries, flat)
    ensures var order := Sorting.Order(KeysOf(flat));
            |sorted| == |flat| && forall i :: 0 <= i < |flat| ==> sorted[i] == entries[order[i]]
  {
    hide Shadowed, Sorting.Order;
    var keys: seq<Sorting.Key> := [];
    for i := 0 to |entries|
      invariant |keys| == i && keys == KeysOf(flat)[..i]
    {
      keys := keys + [Sorting.Key(entries[i].placed.record.name, entries[i].overridden)];
    }
    assert keys == KeysOf(flat);
    var order := Sorting.Order(keys);
    sorted := [];
    for i := 0 to |order|
      invariant |sorted| == i && forall k :: 0 <= k < i ==> sorted[k] == entries[order[k]]
    {
      sorted := sorted + [entries[order[i]]];
    }
  }

  /** `get_effective_config` */
  method EffectiveConfig(chain: seq<seq<Record>>) returns (entries: seq<Entry>)
    ensures var flat, order := Flat(chain), Sorting.Order(KeysOf(Flat(chain)));
            && |entries| == |flat|
            && forall i :: 0 <= i < |flat| ==>
                 fresh(entries[i]) && entries[i].placed == flat[order[i]] && (entries[i].overridden <==> Shadowed(flat, order[i]))
    ensures forall i, j :: 0 <= i < j < |entries| ==> entries[i] != entries[j]
  {
    var winners: map<string, Entry> := map[];
    entries := [];
    for s := 0 to |chain|
      invariant Shows(entries, winners, Flat(chain[..s])) && forall i :: 0 <= i < |entries| ==> fresh(entries[i])
    {
      hide Shows;
      assert chain[..s + 1][..s] == chain[..s];
      entries, winners := AddRecords(entries, winners, Flat(chain[..s]), chain[s], s);
    }
    assert chain[..|chain|] == chain;
    hide Shadowed, Sorting.Order;
    ghost var collected := entries;
    DifferentEntries(entries, winners, Flat(chain));
    hide Shows, Flags, Wins, Flat, KeysOf;
    entries := SortEntries(entries, Flat(chain));
    DifferentWhenSorted(collected, entries, Flat(chain));
  }

  lemma DifferentWhenSorted(entries: seq<Entry>, sorted: seq<Entry>, flat: seq<Placed>)
    requires |entries| == |sorted| == |flat|
    requires forall i, j :: 0 <= i < |flat| && 0 <= j < |flat| && entries[i] == entries[j] ==> i == j
    requires forall i :: 0 <= i < |flat| ==> sorted[i] == entries[Sorting.Order(KeysOf(flat))[i]]
    ensures forall i, j :: 0 <= i < j < |sorted| ==> sorted[i] != sorted[j]
  {
    hide Sorting.Order, Shadowed;
    forall i, j | 0 <= i < j < |sorted| ensures sorted[i] != sorted[j] { DifferentPositions(flat, i, j); }
  }

  /** In the list every name has exactly one entry that is not overridden. */
  lemma OneWinnerPerName(flat: seq<Placed>, name: string)
    requires Occurs(flat, name)
    ensures exists k :: 0 <= k < |flat| && flat[k].record.name == name && !Shadowed(flat, k)
                        && LastNamed(flat, name, true) == Some(flat[k])
                        && forall i :: 0 <= i < |flat| && flat[i].record.name == name && !Shadowed(flat, i) ==> i == k
  {
    var k := LastOfName(flat, name);
    LastNamedIs(flat, name, true, k);
    OthersAreShadowed(flat, name, k);
  }

  /** In the sorted list the entries of one name stand together, the winner first and what it overrides after it, farthest
      scope first. */
  lemma WinnerStandsFirst(flat: seq<Placed>, a: nat, b: nat)
    requires a < b < |flat|
    ensures var order := Sorting.Order(KeysOf(flat));
            var x, y := flat[order[a]], flat[order[b]];
            && (x.record.name == y.record.name ==> Shadowed(flat, order[b]))
            && (x.record.name == y.record.name && Shadowed(flat, order[a]) ==> order[a] < order[b])
            && (x.record.name != y.record.name ==> Sorting.Before(x.record.name, y.record.name))
  {
    var keys := KeysOf(flat);
    var order := Sorting.Order(keys);
    Sorting.OrderSorts(keys);
    Sorting.BeforeSelf(keys[order[a]].name);
    assert keys[order[a]] == Sorting.Key(flat[order[a]].record.name, Shadowed(flat, order[a]));
    assert keys[order[b]] == Sorting.Key(flat[order[b]].record.name, Shadowed(flat, order[b]));
    hide Sorting.Order, Sorting.Before;
    if flat[order[a]].record.name == flat[order[b]].record.name && !Shadowed(flat, order[a]) {
      OthersAreShadowed(flat, flat[order[a]].record.name, order[a]);
      DifferentPositions(flat, a, b);
    }
  }

  lemma DifferentPositions(flat: seq<Placed>, a: nat, b: nat)
    requires a < b < |flat|
    ensures Sorting.Order(KeysOf(flat))[a] != Sorting.Order(KeysOf(flat))[b]
  {
    var keys := KeysOf(flat);
    Sorting.OrderSorts(keys);
    Sorting.LessIsStrict(keys[Sorting.Order(keys)[a]], keys[Sorting.Order(keys)[b]]);
    hide Sorting.Order, Sorting.Less;
  }

  // ---- when both agree ----

  predicate Counts(r: Record, name: string, secretsToo: bool) {
    r.name == name && (secretsToo || !r.isSecret)
  }

  /** The last record of the name, of any kind or among the variables. */
  function LastNamed(flat: seq<Placed>, name: string, secretsToo: bool): Option<Placed> {
    if flat == [] then None
    else if Counts(flat[|flat| - 1].record, name, secretsToo) then Some(flat[|flat| - 1])
    else LastNamed(flat[..|flat| - 1], name, secretsToo)
  }

  lemma {:induction false} LastNamedIs(flat: seq<Placed>, name: string, secretsToo: bool, k: nat)
    requires k < |flat| && Counts(flat[k].record, name, secretsToo)
    requires forall j :: k < j < |flat| ==> !Counts(flat[j].record, name, secretsToo)
    ensures LastNamed(flat, name, secretsToo) == Some(flat[k])
  {
    if k < |flat| - 1 { LastNamedIs(flat[..|flat| - 1], name, secretsToo, k); }
  }

  lemma {:induction false} LastNamedAt(flat: seq<Placed>, name: string, secretsToo: bool) returns (k: nat)
    ensures LastNamed(flat, name, secretsToo).None? ==> forall j :: 0 <= j < |flat| ==> !Counts(flat[j].record, name, secretsToo)
    ensures LastNamed(flat, name, secretsToo).Some? ==>
              && k < |flat| && Counts(flat[k].record, name, secretsToo) && LastNamed(flat, name, secretsToo) == Some(flat[k])
              && forall j :: k < j < |flat| ==> !Counts(flat[j].record, name, secretsToo)
  {
    k := 0;
    if flat != [] {
      if Counts(flat[|flat| - 1].record, name, secretsToo) {
        k := |flat| - 1;
      } else {
        k := LastNamedAt(flat[..|flat| - 1], name, secretsToo);
      }
    }
  }

  lemma {:induction false} LastNamedConcat(a: seq<Placed>, b: seq<Placed>, name: string, secretsToo: bool)
    ensures var r := LastNamed(b, name, secretsToo);
            LastNamed(a + b, name, secretsToo) == if r.Some? then r else LastNamed(a, name, secretsToo)
    decreases |b|
  {
    if b == [] {
      assert a + b == a;
    } else {
      assert (a + b)[..|a + b| - 1] == a + b[..|b| - 1];
      LastNamedConcat(a, b[..|b| - 1], name, secretsToo);
    }
  }

  /** The value that the portal's records of one scope give a name. */
  function RecordValue(records: seq<Record>, name: string): Option<string> {
    if records == [] then None
    else if Counts(records[|records| - 1], name, false) then Some(OrEmpty(records[|records| - 1].value))
    else RecordValue(records[..|records| - 1], name)
  }

  lemma {:induction false} PlacedValue(records: seq<Record>, scope: nat, name: string)
    ensures var r := LastNamed(Place(records, scope), name, false);
            && (r.Some? ==> r.value.scope == scope && !r.value.record.isSecret)
            && RecordValue(records, name) == if r.Some? then Some(OrEmpty(r.value.record.value)) else None
  {
    if records != [] {
      PlacedValue(records[..|records| - 1], scope, name);
      assert Place(records, scope)[..|records| - 1] == Place(records[..|records| - 1], scope);
    }
  }

  /** The committed variables of each scope are the portal's variable records of it, as maps. */
  ghost predicate SameScopes(scopes: seq<seq<Variable>>, chain: seq<seq<Record>>) {
    && |scopes| == |chain|
    && forall i, name: string :: 0 <= i < |chain| && name != "" ==> ScopeValue(scopes[i], name) == RecordValue(chain[i], name)
  }

  /** The portal's last variable of a name sits in the scope that the merge takes the value from. */
  lemma {:induction false} LastVariableIsNearest(scopes: seq<seq<Variable>>, chain: seq<seq<Record>>, name: string)
    requires SameScopes(scopes, chain) && name != ""
    ensures var r, n := LastNamed(Flat(chain), name, false), NearestScope(scopes, name);
            && (r.Some? <==> n.Some?)
            && (r.Some? ==> && r.value.scope == n.value < |scopes|
                            && ScopeValue(scopes[n.value], name) == Some(OrEmpty(r.value.record.value)))
  {
    if chain != [] {
      var k := |chain| - 1;
      LastVariableIsNearest(scopes[..k], chain[..k], name);
      PlacedValue(chain[k], k, name);
      LastNamedConcat(Flat(chain[..k]), Place(chain[k], k), name, false);
      assert ScopeValue(scopes[k], name) == RecordValue(chain[k], name);
    }
  }

  /** The portal names the variable that the workload's environment gets: same scope, same value. */
  predicate Agree(scopes: seq<seq<Variable>>, chain: seq<seq<Record>>, env: seq<EnvEntry>, name: string) {
    var shown := LastNamed(Flat(chain), name, true);
    && shown.Some? && !shown.value.record.isSecret
    && NearestScope(scopes, name) == Some(shown.value.scope)
    && Find(Merged(scopes, env), name) == Some(Plain(name, OrEmpty(shown.value.record.value)))
  }

  /** A secret of the name with no variable of the name nearer than it. */
  ghost predicate SecretOnTop(flat: seq<Placed>, name: string) {
    exists i :: 0 <= i < |flat| && flat[i].record.name == name && flat[i].record.isSecret
                && forall j :: i < j < |flat| ==> !Counts(flat[j].record, name, false)
  }

  lemma ShownIsVariableIff(flat: seq<Placed>, name: string)
    requires LastNamed(flat, name, false).Some?
    ensures var shown := LastNamed(flat, name, true);
            && shown.Some? && (!shown.value.record.isSecret <==> !SecretOnTop(flat, name))
            && (!shown.value.record.isSecret ==> shown == LastNamed(flat, name, false))
  {
    var v := LastNamedAt(flat, name, false);
    var k := LastNamedAt(flat, name, true);
    if !flat[k].record.isSecret {
      LastNamedIs(flat, name, false, k);
      forall i | 0 <= i < |flat| && flat[i].record.name == name && flat[i].record.isSecret ensures i < k {
        assert Counts(flat[i].record, name, true);
      }
      assert Counts(flat[k].record, name, false);
    } else {
      assert SecretOnTop(flat, name);
    }
  }

  /** For a name that some scope declares as a variable, the two roll-ups agree exactly when the application's `env` has
      no explicit entry of the name and no secret of the name is on top of the variables. */
  lemma RollupsAgreeIff(scopes: seq<seq<Variable>>, chain: seq<seq<Record>>, env: seq<EnvEntry>, name: string)
    requires SameScopes(scopes, chain) && name != "" && LastNamed(Flat(chain), name, false).Some?
    ensures Agree(scopes, chain, env, name) <==> ExplicitFor(env, name).None? && !SecretOnTop(Flat(chain), name)
  {
    hide DistinctKeys, Keyed, SecretOnTop, SameScopes, Merged;
    MergeMeaning(scopes, env, name);
    LastVariableIsNearest(scopes, chain, name);
    ShownIsVariableIff(Flat(chain), name);
  }

  /** In particular they agree on every name that no secret and no explicit entry uses; and a name that no scope declares
      as a variable is in the environment only as an explicit entry. */
  lemma RollupsAgree(scopes: seq<seq<Variable>>, chain: seq<seq<Record>>, env: seq<EnvEntry>, name: string)
    requires SameScopes(scopes, chain) && name != "" && ExplicitFor(env, name).None?
    requires forall i :: 0 <= i < |Flat(chain)| && Flat(chain)[i].record.name == name ==> !Flat(chain)[i].record.isSecret
    ensures if LastNamed(Flat(chain), name, true).Some? then Agree(scopes, chain, env, name)
            else Find(Merged(scopes, env), name) == None
  {
    hide DistinctKeys, Keyed, SameScopes, Merged;
    var k := LastNamedAt(Flat(chain), name, true);
    if LastNamed(Flat(chain), name, true).Some? {
      LastNamedIs(Flat(chain), name, false, k);
      RollupsAgreeIff(scopes, chain, env, name);
    } else {
      var v := LastNamedAt(Flat(chain), name, false);
      LastVariableIsNearest(scopes, chain, name);
      MergeMeaning(scopes, env, name);
    }
  }
}
