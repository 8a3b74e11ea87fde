/** Python's `sorted` over keys of a string and a flag: stable, and ordered by the string and then by the flag. */
module Sorting {

  datatype Key = Key(name: string, flag: bool)

  /** Strings compare by their characters, and a prefix comes first. */
  predicate Before(a: string, b: string) {
    b != "" && (a == "" || a[0] < b[0] || (a[0] == b[0] && Before(a[1..], b[1..])))
  }

  predicate Less(a: Key, b: Key) {
    Before(a.name, b.name) || (a.name == b.name && !a.flag && b.flag)
  }

  lemma {:induction false} BeforeOrders(a: string, b: string)
    ensures !(Before(a, b) && Before(b, a)) && (Before(a, b) || Before(b, a) || a == b) && !Before(a, a)
  {
    if a != "" {
      if b != "" {
        BeforeOrders(a[1..], b[1..]);
        assert a == [a[0]] + a[1..] && b == [b[0]] + b[1..];
      }
      BeforeSelf(a);
    }
  }

  /** The first character in which two strings differ decides, and a proper prefix comes first. */
  lemma {:induction false} FirstDifferenceDecides(front: string, x: char, a: string, y: char, b: string)
    requires x != y
    ensures Before(front + [x] + a, front + [y] + b) <==> x < y
    ensures Before(front, front + [x] + a)
    decreases |front|
  {
    var s, t := front + [x] + a, front + [y] + b;
    if front != "" {
      assert s[1..] == front[1..] + [x] + a && t[1..] == front[1..] + [y] + b;
      FirstDifferenceDecides(front[1..], x, a, y, b);
    }
  }

  lemma {:induction false} BeforeSelf(a: string)
    ensures !Before(a, a)
  {
    if a != "" { BeforeSelf(a[1..]); }
  }

  lemma {:induction false} BeforeTrans(a: string, b: string, c: string)
    requires Before(a, b) && Before(b, c)
    ensures Before(a, c)
  {
    if a != "" && a[0] == b[0] == c[0] { BeforeTrans(a[1..], b[1..], c[1..]); }
  }

  /** The order is total: what is not less goes together along a chain. */
  lemma NotLessTrans(a: Key, b: Key, c: Key)
    requires !Less(b, a) && !Less(c, b)
    ensures !Less(c, a)
  {
    BeforeOrders(a.name, b.name);
    BeforeOrders(b.name, c.name);
    BeforeOrders(a.name, c.name);
    if Before(a.name, b.name) && Before(b.name, c.name) { BeforeTrans(a.name, b.name, c.name); }
  }

  lemma LessIsStrict(a: Key, b: Key)
    ensures !(Less(a, b) && Less(b, a)) && !Less(a, a) && (Less(a, b) || Less(b, a) || a == b)
  {
    BeforeOrders(a.name, b.name);
    BeforeSelf(a.name);
  }

  predicate Within(order: seq<nat>, n: nat) {
    forall k :: 0 <= k < |order| ==> order[k] < n
  }

  /** The last position goes behind all that are not greater. */
  function Insert(order: seq<nat>, keys: seq<Key>, i: nat): (r: seq<nat>)
    requires i < |keys| && Within(order, i)
    ensures |r| == |order| + 1 && Within(r, i + 1) && multiset(r) == multiset(order) + multiset{i}
  {
    var m := |order| - 1;
    if order != [] && Less(keys[i], keys[order[m]]) then
      assert order == order[..m] + [order[m]];
      Insert(order[..m], keys, i) + [order[m]]
    else order + [i]
  }

  /** The positions of the keys in sorted order. */
  function Order(keys: seq<Key>): (r: seq<nat>)
    ensures |r| == |keys| && Within(r, |keys|)
  {
    if keys == [] then [] else Insert(Order(keys[..|keys| - 1]), keys, |keys| - 1)
  }

  /** Sorted, and in the old order where the keys are equal; so no position occurs twice. */
  ghost predicate Sorted(order: seq<nat>, keys: seq<Key>)
    requires Within(order, |keys|)
  {
    forall a, b :: 0 <= a < b < |order| ==>
      Less(keys[order[a]], keys[order[b]]) || (keys[order[a]] == keys[order[b]] && order[a] < order[b])
  }

  lemma {:induction false} InsertSorts(order: seq<nat>, keys: seq<Key>, i: nat)
    requires i < |keys| && Within(order, i) && Sorted(order, keys)
    ensures Sorted(Insert(order, keys, i), keys)
  {
    var m, r := |order| - 1, Insert(order, keys, i);
    if order != [] && Less(keys[i], keys[order[m]]) {
      var front := Insert(order[..m], keys, i);
      InsertSorts(order[..m], keys, i);
      forall a | 0 <= a < |front|
        ensures Less(keys[front[a]], keys[order[m]]) || (keys[front[a]] == keys[order[m]] && front[a] < order[m])
      {
        assert front[a] in multiset(front);
        assert front[a] == i || front[a] in order[..m];
      }
      hide Less, Insert;
    } else {
      hide Less;
      forall a | 0 <= a < |order| ensures Less(keys[order[a]], keys[i]) || (keys[order[a]] == keys[i] && order[a] < i) {
        LessIsStrict(keys[order[a]], keys[order[m]]);
        NotLessTrans(keys[order[a]], keys[order[m]], keys[i]);
        LessIsStrict(keys[order[a]], keys[i]);
      }
    }
  }

  lemma SortedLonger(order: seq<nat>, front: seq<Key>, keys: seq<Key>)
    requires front <= keys && Within(order, |front|) && Sorted(order, front)
    ensures Sorted(order, keys)
  {
    hide Less;
    forall a, b | 0 <= a < b < |order|
      ensures Less(keys[order[a]], keys[order[b]]) || (keys[order[a]] == keys[order[b]] && order[a] < order[b])
    {
      assert keys[order[a]] == front[order[a]] && keys[order[b]] == front[order[b]];
    }
  }

  lemma NothingSorted(keys: seq<Key>)
    ensures Sorted([], keys)
  {
  }

  lemma {:induction false} OrderSorts(keys: seq<Key>)
    ensures Sorted(Order(keys), keys)
  {
    hide Sorted, Insert, Less;
    if keys == [] {
      NothingSorted(keys);
    } else {
      var front := keys[..|keys| - 1];
      OrderSorts(front);
      SortedLonger(Order(front), front, keys);
      InsertSorts(Order(front), keys, |keys| - 1);
    }
  }

  /** Every position is there once. */
  lemma {:induction false} OrderHasAll(keys: seq<Key>, i: nat)
    ensures multiset(Order(keys))[i] == if i < |keys| then 1 else 0
  {
    hide Insert;
    if keys != [] { OrderHasAll(keys[..|keys| - 1], i); }
  }
}
