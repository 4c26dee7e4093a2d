/** Ascending enumerations of sets of identifiers.  A hash set is walked in an
    arbitrary order and then sorted; the result depends on the set alone. */
module Sorting {
  import opened ExecutionModel

  predicate Ascending(items: seq<nat>) {
    forall i, j :: 0 <= i < j < |items| ==> items[i] < items[j]
  }

  predicate SameElements<T(==)>(items: seq<T>, s: set<T>) {
    (forall x <- items :: x in s) && (forall x <- s :: x in items)
  }

  function Insert(x: nat, items: seq<nat>): (r: seq<nat>)
    ensures forall y :: y in r <==> y == x || y in items
    ensures |r| == |items| + 1
  {
    if items == [] || x <= items[0] then [x] + items
    else
      assert items == [items[0]] + items[1..];
      [items[0]] + Insert(x, items[1..])
  }

  lemma {:induction false} InsertAscends(x: nat, items: seq<nat>)
    requires Ascending(items) && x !in items
    ensures Ascending(Insert(x, items))
  {
    if items != [] && x > items[0] {
      InsertAscends(x, items[1..]);
      var rest := Insert(x, items[1..]);
      assert Insert(x, items) == [items[0]] + rest;
      forall k | 0 <= k < |rest|
        ensures items[0] < rest[k]
      {
        assert rest[k] in rest;
      }
    } else {
      assert items != [] ==> x < items[0] by { assert items != [] ==> items[0] in items; }
    }
  }

  function Sort(items: seq<nat>): (r: seq<nat>)
    ensures forall y :: y in r <==> y in items
    ensures |r| == |items|
    ensures Distinct(items) ==> Ascending(r)
  {
    if items == [] then []
    else
      assert items == [items[0]] + items[1..];
      var rest := Sort(items[1..]);
      assert Distinct(items) ==> Ascending(Insert(items[0], rest)) by {
        if Distinct(items) { InsertAscends(items[0], rest); }
      }
      Insert(items[0], rest)
  }

  ghost function Min(s: set<nat>): (m: nat)
    requires s != {}
    ensures m in s && forall x <- s :: m <= x
  {
    var x :| x in s;
    if s == {x} then x
    else
      assert s == {x} + (s - {x});
      var y := Min(s - {x});
      if x < y then x else y
  }

  ghost function Enumerate(s: set<nat>): (r: seq<nat>)
    ensures Ascending(r) && SameElements(r, s)
  {
    if s == {} then [] else [Min(s)] + Enumerate(s - {Min(s)})
  }

  lemma {:induction false} AscendingIsUnique(a: seq<nat>, b: seq<nat>)
    requires Ascending(a) && Ascending(b)
    requires forall x :: x in a <==> x in b
    ensures a == b
  {
    assert b != [] ==> b[0] in b;
    if a != [] {
      assert a[0] in b && b[0] in a;
      assert a == [a[0]] + a[1..] && b == [b[0]] + b[1..];
      assert a[0] !in a[1..] && b[0] !in b[1..];
      forall x
        ensures x in a[1..] <==> x in b[1..]
      {
        assert x in a <==> x == a[0] || x in a[1..];
        assert x in b <==> x == b[0] || x in b[1..];
      }
      AscendingIsUnique(a[1..], b[1..]);
    }
  }

  /** Walks a set in an arbitrary order. */
  method Walk(s: set<nat>) returns (items: seq<nat>)
    ensures Distinct(items) && SameElements(items, s)
  {
    items := [];
    var left := s;
    while left != {}
      invariant left <= s && Distinct(items) && SameElements(items, s - left)
      decreases left
    {
      var x :| x in left;
      items, left := items + [x], left - {x};
    }
  }

  /** Sorting an arbitrary walk of a set. */
  method SortedWalk(s: set<nat>) returns (items: seq<nat>)
    ensures items == Enumerate(s)
  {
    var walked := Walk(s);
    items := Sort(walked);
    AscendingIsUnique(items, Enumerate(s));
  }
}
