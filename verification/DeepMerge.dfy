/** `deep_merge`: what merging nested dictionaries means path by path, when it is associative, and that the in-place
    loops compute it without touching their inputs. */
module DeepMerge {

  /** A nested configuration value. Lists are leaves: they are replaced, never merged. */
  datatype Value = Leaf(text: string) | Dict(entries: map<string, Value>)

  const EMPTY: Value := Dict(map[])

  /** Two dictionaries merge key by key; in every other case the later value replaces the earlier one. */
  function Merge(a: Value, b: Value): Value {
    if a.Dict? && b.Dict? then
      Dict(map k | k in a.entries.Keys + b.entries.Keys ::
             if k !in b.entries then a.entries[k]
             else if k !in a.entries then b.entries[k]
             else Merge(a.entries[k], b.entries[k]))
    else b
  }

  /** `deep_merge(*layers)` */
  function MergeAll(layers: seq<Value>): Value {
    if layers == [] then EMPTY else Merge(MergeAll(layers[..|layers| - 1]), layers[|layers| - 1])
  }

  lemma {:induction false} MergeWithSelf(a: Value)
    ensures Merge(a, a) == a
  {
    if a.Dict? {
      forall k | k in a.entries ensures Merge(a.entries[k], a.entries[k]) == a.entries[k] {
        MergeWithSelf(a.entries[k]);
      }
    }
  }

  /** The empty dictionary is a unit on both sides, and a layer merged with itself is itself. */
  lemma MergeIdentities(a: Value)
    requires a.Dict?
    ensures Merge(EMPTY, a) == a == Merge(a, EMPTY) == Merge(a, a)
    ensures MergeAll([a]) == a == MergeAll([a, a])
  {
    MergeWithSelf(a);
    assert [a][..0] == [] && [a, a][..1] == [a];
  }

  lemma MergeAllPair(a: Value, b: Value)
    requires a.Dict?
    ensures MergeAll([a, b]) == Merge(a, b)
  {
    MergeIdentities(a);
    assert [a, b][..1] == [a];
  }

  // ---- what a merge holds at a path ----

  /** What one meets when following a path: nothing, a leaf that ends it early, or a value. */
  datatype Sight = Absent | Blocked | There(value: Value)

  function Look(v: Value, path: seq<string>): Sight {
    if path == [] then There(v)
    else if v.Leaf? then Blocked
    else if path[0] !in v.entries then Absent
    else Look(v.entries[path[0]], path[1..])
  }

  datatype Found = Nothing | Found(value: Value)

  function Lookup(v: Value, path: seq<string>): Found {
    match Look(v, path)
    case There(x) => Found(x)
    case _ => Nothing
  }

  /** What the merge holds at a path, from what each side shows there: absence falls through to the earlier layer, a
      leaf of the later layer hides everything below it, and two values merge. */
  function Overlay(earlier: Sight, later: Sight): Found {
    match (earlier, later)
    case (There(x), There(y)) => Found(Merge(x, y))
    case (_, There(y)) => Found(y)
    case (There(x), Absent) => Found(x)
    case _ => Nothing
  }

  lemma {:induction false} PathSemantics(a: Value, b: Value, path: seq<string>)
    requires a.Dict? && b.Dict?
    ensures Lookup(Merge(a, b), path) == Overlay(Look(a, path), Look(b, path))
  {
    if path != [] {
      var k := path[0];
      if k in a.entries && k in b.entries {
        var x, y := a.entries[k], b.entries[k];
        assert Merge(a, b).entries[k] == Merge(x, y);
        if x.Dict? && y.Dict? {
          PathSemantics(x, y, path[1..]);
        }
      }
    }
  }

  /** Every leaf of the last layer survives, wherever the earlier layers put something else. */
  lemma LastLeavesWin(layers: seq<Value>, path: seq<string>, text: string)
    requires layers != [] && forall l :: l in layers ==> l.Dict?
    requires Lookup(layers[|layers| - 1], path) == Found(Leaf(text))
    ensures Lookup(MergeAll(layers), path) == Found(Leaf(text))
  {
    MergeAllIsDict(layers[..|layers| - 1]);
    PathSemantics(MergeAll(layers[..|layers| - 1]), layers[|layers| - 1], path);
  }

  lemma {:induction false} MergeAllIsDict(layers: seq<Value>)
    requires forall l :: l in layers ==> l.Dict?
    ensures MergeAll(layers).Dict?
  {
    if layers != [] { MergeAllIsDict(layers[..|layers| - 1]); }
  }

  // ---- associativity, exactly ----

  /** `c` has a value wherever `a` has one, so merging `a` below `c` adds nothing. */
  predicate Covers(c: Value, a: Value) {
    c.Dict? && a.Dict? ==>
      forall k :: k in a.entries ==> k in c.entries && Covers(c.entries[k], a.entries[k])
  }

  lemma {:induction false} AbsorbedIffCovered(a: Value, c: Value)
    ensures Merge(a, c) == c <==> Covers(c, a)
  {
    if a.Dict? && c.Dict? {
      var m := Merge(a, c);
      forall k | k in a.entries && k in c.entries
        ensures m.entries[k] == c.entries[k] <==> Covers(c.entries[k], a.entries[k])
      {
        AbsorbedIffCovered(a.entries[k], c.entries[k]);
      }
      if Covers(c, a) {
        assert m.entries == c.entries;
      } else {
        var k :| k in a.entries && !(k in c.entries && Covers(c.entries[k], a.entries[k]));
        assert k in m.entries;
      }
    }
  }

  /** Nowhere does `b` put a leaf between a dictionary of `a` and a dictionary of `c` that does not cover it. */
  predicate NoBurial(a: Value, b: Value, c: Value) {
    a.Dict? && c.Dict? ==>
      if b.Leaf? then Covers(c, a)
      else forall k :: k in a.entries && k in b.entries && k in c.entries ==>
                         NoBurial(a.entries[k], b.entries[k], c.entries[k])
  }

  lemma {:induction false} AssociativeIff(a: Value, b: Value, c: Value)
    ensures Merge(Merge(a, b), c) == Merge(a, Merge(b, c)) <==> NoBurial(a, b, c)
  {
    if a.Dict? && c.Dict? && b.Leaf? {
      AbsorbedIffCovered(a, c);
    } else if a.Dict? && b.Dict? && c.Dict? {
      var left, right := Merge(Merge(a, b), c), Merge(a, Merge(b, c));
      forall k | k in a.entries && k in b.entries && k in c.entries
        ensures left.entries[k] == right.entries[k] <==> NoBurial(a.entries[k], b.entries[k], c.entries[k])
      {
        AssociativeIff(a.entries[k], b.entries[k], c.entries[k]);
      }
      assert left.entries.Keys == right.entries.Keys;
      if NoBurial(a, b, c) {
        assert left.entries == right.entries;
      }
    }
  }

  /** The failing shape: at one key a dictionary, then a leaf, then a dictionary that lacks a key of the first. */
  lemma NotAssociative(k: string, x: string, y: string, leaf: Value)
    requires x != y && leaf.Leaf?
    ensures var a, b, c := Dict(map[k := Dict(map[x := leaf])]), Dict(map[k := leaf]), Dict(map[k := Dict(map[y := leaf])]);
            Merge(Merge(a, b), c) != Merge(a, Merge(b, c))
  {
    var ax, cy := Dict(map[x := leaf]), Dict(map[y := leaf]);
    assert x in ax.entries && !Covers(cy, ax);
    var a, b, c := Dict(map[k := ax]), Dict(map[k := leaf]), Dict(map[k := cy]);
    assert k in a.entries && !NoBurial(a, b, c);
    AssociativeIff(a, b, c);
  }

  /** Layers that never disagree on dictionary versus leaf. */
  predicate SameShape(a: Value, b: Value) {
    && a.Dict? == b.Dict?
    && (a.Dict? ==> forall k :: k in a.entries && k in b.entries ==> SameShape(a.entries[k], b.entries[k]))
  }

  lemma {:induction false} SameShapeIsAssociative(a: Value, b: Value, c: Value)
    requires SameShape(a, b) && SameShape(b, c)
    ensures Merge(Merge(a, b), c) == Merge(a, Merge(b, c))
  {
    SameShapeBuriesNothing(a, b, c);
    AssociativeIff(a, b, c);
  }

  lemma {:induction false} SameShapeBuriesNothing(a: Value, b: Value, c: Value)
    requires SameShape(a, b) && SameShape(b, c)
    ensures NoBurial(a, b, c)
  {
    if a.Dict? {
      forall k | k in a.entries && k in b.entries && k in c.entries
        ensures NoBurial(a.entries[k], b.entries[k], c.entries[k])
      {
        SameShapeBuriesNothing(a.entries[k], b.entries[k], c.entries[k]);
      }
    }
  }

  // ---- the loops, on dictionaries in the heap ----

  datatype PyValue = Atom(text: string) | Ref(dict: PyDict)

  /** A mutable dictionary. `rank` bounds how deep it can nest. */
  class PyDict {
    var items: map<string, PyValue>
    ghost const rank: nat

    constructor (ghost rank: nat)
      ensures items == map[] && this.rank == rank
    {
      items := map[];
      this.rank := rank;
    }
  }

  /** Dictionaries that hold only dictionaries of the same set, each of lower rank. */
  ghost predicate Closed(heap: set<PyDict>)
    reads heap
  {
    forall d, k :: d in heap && k in d.items && d.items[k].Ref? ==> Inside(d.items[k], heap, d.rank)
  }

  ghost predicate Inside(v: PyValue, heap: set<PyDict>, rank: nat) {
    v.Ref? ==> v.dict in heap && v.dict.rank < rank
  }

  /** The nested value that a heap value stands for. */
  ghost function Read(v: PyValue, heap: set<PyDict>): Value
    requires Closed(heap) && (v.Ref? ==> v.dict in heap)
    reads heap
    decreases if v.Atom? then 0 else v.dict.rank + 1
  {
    if v.Atom? then Leaf(v.text)
    else Dict(map k | k in v.dict.items :: Read(v.dict.items[k], heap))
  }

  lemma {:induction false} ReadInLargerHeap(v: PyValue, small: set<PyDict>, large: set<PyDict>)
    requires small <= large && Closed(small) && Closed(large)
    requires v.Ref? ==> v.dict in small
    ensures Read(v, small) == Read(v, large)
    decreases if v.Atom? then 0 else v.dict.rank + 1
  {
    if v.Ref? {
      forall k | k in v.dict.items ensures Read(v.dict.items[k], small) == Read(v.dict.items[k], large) {
        ReadInLargerHeap(v.dict.items[k], small, large);
      }
    }
  }

  /** A layer argument; `None` counts as an empty dictionary. */
  ghost function Layer(d: PyDict?, heap: set<PyDict>): Value
    requires Closed(heap) && (d != null ==> d in heap)
    reads heap
  {
    if d == null then EMPTY else Read(Ref(d), heap)
  }

  ghost predicate AreLayers(ds: seq<PyDict?>, values: seq<Value>, heap: set<PyDict>, bound: nat)
    reads heap
  {
    && Closed(heap) && |values| == |ds|
    && forall i :: 0 <= i < |ds| ==> IsLayer(ds[i], values[i], heap, bound)
  }

  ghost predicate IsLayer(d: PyDict?, value: Value, heap: set<PyDict>, bound: nat)
    requires Closed(heap)
    reads heap
  {
    (d != null ==> d in heap && d.rank <= bound) && Layer(d, heap) == value
  }

  /** `out` is a dictionary under construction, outside `heap`, whose items stand for `acc`. */
  ghost predicate Holds(out: PyDict, acc: map<string, Value>, heap: set<PyDict>)
    reads out, heap
  {
    && Closed(heap) && out !in heap
    && out.items.Keys == acc.Keys
    && forall k :: k in out.items ==> Inside(out.items[k], heap, out.rank) && Read(out.items[k], heap) == acc[k]
  }

  lemma HoldsInLargerHeap(out: PyDict, acc: map<string, Value>, small: set<PyDict>, large: set<PyDict>)
    requires Holds(out, acc, small) && small <= large && Closed(large) && out !in large
    ensures Holds(out, acc, large)
  {
    forall k | k in out.items ensures Read(out.items[k], large) == acc[k] {
      ReadInLargerHeap(out.items[k], small, large);
    }
  }

  /** A finished dictionary joins the heap. */
  lemma HoldsDone(out: PyDict, acc: map<string, Value>, heap: set<PyDict>)
    requires Holds(out, acc, heap)
    ensures Closed(heap + {out}) && Read(Ref(out), heap + {out}) == Dict(acc)
  {
    var all := heap + {out};
    assert Closed(all);
    forall k | k in out.items ensures Read(out.items[k], all) == acc[k] {
      ReadInLargerHeap(out.items[k], heap, all);
    }
  }

  /** `deep_merge` itself. It has no `modifies` clause: no dictionary that existed before the call changes. */
  method Run(layers: seq<PyDict?>, ghost values: seq<Value>, ghost heap: set<PyDict>, ghost bound: nat)
    returns (out: PyDict, ghost heap': set<PyDict>)
    requires AreLayers(layers, values, heap, bound)
    ensures fresh(out) && out.rank == bound && fresh(heap' - heap)
    ensures heap <= heap' && Closed(heap') && out in heap'
    ensures Read(Ref(out), heap') == MergeAll(values)
    decreases bound, 3
  {
    out := new PyDict(bound);
    heap' := heap;
    ghost var acc: map<string, Value> := map[];
    for i := 0 to |layers|
      invariant heap <= heap' && fresh(heap' - heap)
      invariant Holds(out, acc, heap')
      invariant Dict(acc) == MergeAll(values[..i])
    {
      assert values[..i + 1][..i] == values[..i];
      assert IsLayer(layers[i], values[i], heap, bound);
      if layers[i] != null {
        ReadInLargerHeap(Ref(layers[i]), heap, heap');
        heap', acc := MergeLayer(out, layers[i], values[i].entries, heap', acc);
      } else {
        MergeIdentities(Dict(acc));
      }
    }
    assert values[..|layers|] == values;
    HoldsDone(out, acc, heap');
    heap' := heap' + {out};
  }

  /** `acc` with the keys `done` of a further layer merged in. */
  ghost function Overlaid(acc: map<string, Value>, layer: map<string, Value>, done: set<string>): map<string, Value>
    requires done <= layer.Keys
  {
    map k | k in acc.Keys + done ::
      if k !in done then acc[k] else if k in acc then Merge(acc[k], layer[k]) else layer[k]
  }

  lemma OverlaidAll(acc: map<string, Value>, layer: map<string, Value>)
    ensures Overlaid(acc, layer, {}) == acc
    ensures Dict(Overlaid(acc, layer, layer.Keys)) == Merge(Dict(acc), Dict(layer))
  {
  }

  ghost function WithItem(acc: map<string, Value>, k: string, v: Value): map<string, Value> {
    acc[k := if k in acc then Merge(acc[k], v) else v]
  }

  lemma OverlaidStep(acc: map<string, Value>, layer: map<string, Value>, done: set<string>, k: string)
    requires done <= layer.Keys && k in layer.Keys - done
    ensures Overlaid(acc, layer, done + {k}) == WithItem(Overlaid(acc, layer, done), k, layer[k])
  {
  }

  /** The inner loop: one layer's items into `out`. */
  method MergeLayer(out: PyDict, layer: PyDict, ghost value: map<string, Value>, ghost heap: set<PyDict>,
                    ghost acc: map<string, Value>)
    returns (ghost heap': set<PyDict>, ghost acc': map<string, Value>)
    requires Holds(out, acc, heap)
    requires layer in heap && layer.rank <= out.rank && Read(Ref(layer), heap) == Dict(value)
    modifies out
    ensures heap <= heap' && fresh(heap' - heap) && Holds(out, acc', heap')
    ensures Dict(acc') == Merge(Dict(acc), Dict(value))
    decreases out.rank, 2
  {
    heap', acc' := heap, acc;
    OverlaidAll(acc, value);
    ghost var done := {};
    assert layer.items.Keys == value.Keys;
    var todo := layer.items.Keys;
    while todo != {}
      invariant done + todo == value.Keys && done !! todo
      invariant heap <= heap' && fresh(heap' - heap) && Holds(out, acc', heap')
      invariant Read(Ref(layer), heap') == Dict(value)
      invariant acc' == Overlaid(acc, value, done)
      decreases todo
    {
      var k :| k in todo;
      OverlaidStep(acc, value, done, k);
      heap' := MergeItem(out, k, layer, value, heap', acc');
      acc' := WithItem(acc', k, value[k]);
      done, todo := done + {k}, todo - {k};
    }
  }

  /** One pass of the inner loop: `out[k] = deep_merge(out[k], v)` for two dictionaries, `out[k] = v` otherwise. */
  method MergeItem(out: PyDict, k: string, layer: PyDict, ghost value: map<string, Value>, ghost heap: set<PyDict>,
                   ghost acc: map<string, Value>)
    returns (ghost heap': set<PyDict>)
    requires Holds(out, acc, heap)
    requires layer in heap && layer.rank <= out.rank && Read(Ref(layer), heap) == Dict(value)
    requires k in value
    modifies out
    ensures heap <= heap' && fresh(heap' - heap)
    ensures Holds(out, WithItem(acc, k, value[k]), heap')
    ensures Read(Ref(layer), heap') == Dict(value)
    decreases out.rank, 1
  {
    var v := layer.items[k];
    assert Read(v, heap) == value[k];
    var item := v;
    heap' := heap;
    if v.Ref? && k in out.items && out.items[k].Ref? {
      var merged;
      merged, heap' := MergePair(out.items[k].dict, v.dict, heap, out.rank);
      item := Ref(merged);
      HoldsInLargerHeap(out, acc, heap, heap');
      ReadInLargerHeap(Ref(layer), heap, heap');
    }
    assert Read(item, heap') == WithItem(acc, k, value[k])[k];
    out.items := out.items[k := item];
  }

  /** The recursive call `deep_merge(out[k], v)`. */
  method MergePair(earlier: PyDict, later: PyDict, ghost heap: set<PyDict>, ghost bound: nat)
    returns (merged: PyDict, ghost heap': set<PyDict>)
    requires Closed(heap) && Inside(Ref(earlier), heap, bound) && Inside(Ref(later), heap, bound)
    ensures fresh(merged) && fresh(heap' - heap)
    ensures heap <= heap' && Closed(heap') && Inside(Ref(merged), heap', bound)
    ensures Read(Ref(merged), heap') == Merge(Read(Ref(earlier), heap), Read(Ref(later), heap))
    decreases bound, 0
  {
    ghost var values := [Read(Ref(earlier), heap), Read(Ref(later), heap)];
    merged, heap' := Run([earlier, later], values, heap, bound - 1);
    MergeAllPair(values[0], values[1]);
  }
}
