/** Byte-string keys in lexicographic order, and the ordered walk of a map over them. */
module KeyOrder {
  import opened Bytes

  type Key = seq<Byte>
  type Values = map<Key, seq<Byte>>

  datatype Entry = Entry(key: Key, value: seq<Byte>)

  predicate Less(a: Key, b: Key) {
    b != [] && (a == [] || a[0] < b[0] || (a[0] == b[0] && Less(a[1..], b[1..])))
  }

  /** The first `k` bytes agree, and there `a` ends or has the smaller byte. */
  ghost predicate FirstDifference(a: Key, b: Key, k: nat) {
    k <= |a| && k < |b| && a[..k] == b[..k] && (k == |a| || a[k] < b[k])
  }

  /** At the first difference the smaller byte comes first, and a proper prefix comes before
      what it is a prefix of. */
  lemma {:induction false} LessMeans(a: Key, b: Key)
    ensures Less(a, b) <==> exists k: nat :: FirstDifference(a, b, k)
  {
    if a == [] || b == [] || a[0] != b[0] {
      if Less(a, b) {
        assert FirstDifference(a, b, 0);
      }
      FirstBytesAgree(a, b);
    } else {
      LessMeans(a[1..], b[1..]);
      if Less(a, b) {
        var k: nat :| FirstDifference(a[1..], b[1..], k);
        assert a[..k + 1] == [a[0]] + a[1..][..k] && b[..k + 1] == [b[0]] + b[1..][..k];
        assert FirstDifference(a, b, k + 1);
      }
      forall k: nat | FirstDifference(a, b, k) ensures Less(a, b) {
        assert k > 0 && a[1..][..k - 1] == a[..k][1..] && b[1..][..k - 1] == b[..k][1..];
        assert FirstDifference(a[1..], b[1..], k - 1);
      }
    }
  }

  lemma FirstBytesAgree(a: Key, b: Key)
    ensures (exists k: nat :: FirstDifference(a, b, k) && k > 0) ==> a != [] && b != [] && a[0] == b[0]
  {
    forall k: nat | FirstDifference(a, b, k) && k > 0 ensures a[0] == b[0] {
      assert a[..k][0] == b[..k][0];
    }
  }

  lemma {:induction false} LessIsStrict(a: Key, b: Key)
    ensures !(Less(a, b) && Less(b, a))
  {
    if a != [] && b != [] {
      LessIsStrict(a[1..], b[1..]);
    }
  }

  lemma {:induction false} LessIsTotal(a: Key, b: Key)
    ensures a == b || Less(a, b) || Less(b, a)
  {
    if a != [] && b != [] {
      LessIsTotal(a[1..], b[1..]);
      assert a == [a[0]] + a[1..] && b == [b[0]] + b[1..];
    }
  }

  lemma {:induction false} LessIsTransitive(a: Key, b: Key, c: Key)
    requires Less(a, b) && Less(b, c)
    ensures Less(a, c)
  {
    if a != [] && a[0] == b[0] && b[0] == c[0] {
      LessIsTransitive(a[1..], b[1..], c[1..]);
    }
  }

  predicate IsLeast(key: Key, keys: set<Key>) {
    key in keys && forall other <- keys :: other == key || Less(key, other)
  }

  lemma {:induction false} LeastExists(keys: set<Key>) returns (least: Key)
    requires keys != {}
    ensures IsLeast(least, keys)
  {
    var key :| key in keys;
    least := key;
    if keys != {key} {
      var others := keys - {key};
      assert keys == others + {key};
      least := LeastExists(others);
      LessIsTotal(key, least);
      if Less(key, least) {
        forall other <- keys
          ensures other == key || Less(key, other)
        {
          if other != key && other != least { LessIsTransitive(key, least, other); }
        }
        least := key;
      }
    }
  }

  lemma LeastIsUnique(a: Key, b: Key, keys: set<Key>)
    requires IsLeast(a, keys) && IsLeast(b, keys)
    ensures a == b
  {
    LessIsStrict(a, b);
  }

  function Least(keys: set<Key>): (r: Key)
    requires keys != {}
    ensures IsLeast(r, keys)
  {
    assert exists key :: IsLeast(key, keys) by { var key := LeastExists(keys); }
    assert forall a, b :: IsLeast(a, keys) && IsLeast(b, keys) ==> a == b by {
      forall a, b | IsLeast(a, keys) && IsLeast(b, keys) ensures a == b { LeastIsUnique(a, b, keys); }
    }
    var key :| IsLeast(key, keys);
    key
  }

  /** The entries in key order, as a walk of the ordered map meets them. */
  function Entries(values: Values): (r: seq<Entry>)
    ensures |r| == |values|
    decreases |values|
  {
    if values == map[] then []
    else
      var key := Least(values.Keys);
      assert |values - {key}| == |values| - 1 by { RemoveOne(values, key); }
      [Entry(key, values[key])] + Entries(values - {key})
  }

  lemma RemoveOne(values: Values, key: Key)
    requires key in values
    ensures |values - {key}| == |values| - 1
  {
    assert values == (values - {key})[key := values[key]];
  }

  predicate Ordered(entries: seq<Entry>) {
    forall i, j :: 0 <= i < j < |entries| ==> Less(entries[i].key, entries[j].key)
  }

  predicate Lists(entries: seq<Entry>, values: Values) {
    && (forall i :: 0 <= i < |entries| ==> entries[i].key in values && values[entries[i].key] == entries[i].value)
    && (forall key <- values :: exists i :: 0 <= i < |entries| && entries[i].key == key)
  }

  /** The walk lists every entry of the map once, in ascending order. */
  lemma {:induction false} EntriesAreOrdered(values: Values)
    ensures Ordered(Entries(values)) && Lists(Entries(values), values)
    decreases |values|
  {
    hide Less, IsLeast, Ordered, Lists;
    if values == map[] {
      NothingListed();
    } else {
      var key := Least(values.Keys);
      assert IsLeast(key, values.Keys);
      LeastIsPresent(values, key);
      RemoveOne(values, key);
      var rest := Entries(values - {key});
      EntriesAreOrdered(values - {key});
      OrderedOneMore(values, key, rest);
      ListsOneMore(values, key, rest);
    }
  }

  lemma NothingListed()
    ensures Ordered([]) && Lists([], map[])
  {
  }

  lemma LeastIsPresent(values: Values, key: Key)
    requires IsLeast(key, values.Keys)
    ensures key in values
  {
  }

  lemma OrderedOneMore(values: Values, key: Key, rest: seq<Entry>)
    requires IsLeast(key, values.Keys) && Lists(rest, values - {key}) && Ordered(rest)
    ensures Ordered([Entry(key, values[key])] + rest)
  {
    hide Less;
    var all := [Entry(key, values[key])] + rest;
    forall j | 0 < j < |all|
      ensures Less(key, all[j].key)
    {
      assert all[j] == rest[j - 1] && all[j].key in values - {key};
    }
  }

  lemma ListsOneMore(values: Values, key: Key, rest: seq<Entry>)
    requires key in values && Lists(rest, values - {key})
    ensures Lists([Entry(key, values[key])] + rest, values)
  {
    var all := [Entry(key, values[key])] + rest;
    forall k <- values
      ensures exists i :: 0 <= i < |all| && all[i].key == k
    {
      if k == key {
        assert all[0].key == k;
      } else {
        assert k in values - {key};
        var i :| 0 <= i < |rest| && rest[i].key == k;
        assert all[i + 1].key == k;
      }
    }
  }

  // ---------------------------------------------------------------------
  // Prefixes
  // ---------------------------------------------------------------------

  predicate HasPrefix(key: Key, prefix: Key) {
    |key| >= |prefix| && key[..|prefix|] == prefix
  }

  /** No key with the prefix lies below the prefix itself. */
  lemma {:induction false} PrefixIsLowest(key: Key, prefix: Key)
    requires HasPrefix(key, prefix)
    ensures !Less(key, prefix)
  {
    if prefix != [] {
      assert key[0] == prefix[0];
      assert key[1..][..|prefix| - 1] == prefix[1..];
      PrefixIsLowest(key[1..], prefix[1..]);
    }
  }

  /** Between the prefix and a key that has it, every key has it. */
  lemma {:induction false} PrefixIsContiguous(prefix: Key, middle: Key, key: Key)
    requires !Less(middle, prefix) && Less(middle, key) && HasPrefix(key, prefix)
    ensures HasPrefix(middle, prefix)
  {
    if prefix != [] {
      assert key[0] == prefix[0];
      assert middle != [] && middle[0] == prefix[0];
      assert key[1..][..|prefix| - 1] == prefix[1..];
      PrefixIsContiguous(prefix[1..], middle[1..], key[1..]);
      assert middle[..|prefix|] == [middle[0]] + middle[1..][..|prefix| - 1];
    }
  }

  /** The simple form of a prefix query. */
  function WithPrefix(entries: seq<Entry>, prefix: Key): seq<Entry> {
    if entries == [] then []
    else (if HasPrefix(entries[0].key, prefix) then [entries[0]] else []) + WithPrefix(entries[1..], prefix)
  }

  lemma {:induction false} WithPrefixMeans(entries: seq<Entry>, prefix: Key)
    ensures forall e :: e in WithPrefix(entries, prefix) <==> e in entries && HasPrefix(e.key, prefix)
  {
    hide HasPrefix;
    if entries != [] {
      WithPrefixMeans(entries[1..], prefix);
      assert entries == [entries[0]] + entries[1..];
    }
  }

  lemma {:induction false} WithPrefixOfRun(entries: seq<Entry>, prefix: Key, low: nat, high: nat)
    requires low <= high <= |entries|
    requires forall i :: 0 <= i < |entries| ==> (HasPrefix(entries[i].key, prefix) <==> low <= i < high)
    ensures WithPrefix(entries, prefix) == entries[low..high]
  {
    hide HasPrefix;
    if entries != [] {
      var rest := entries[1..];
      assert forall i :: 0 <= i < |rest| ==> rest[i] == entries[i + 1];
      if low == 0 && high > 0 {
        WithPrefixOfRun(rest, prefix, 0, high - 1);
        assert entries[0..high] == [entries[0]] + rest[0..high - 1];
      } else if low > 0 {
        WithPrefixOfRun(rest, prefix, low - 1, high - 1);
        assert entries[low..high] == rest[low - 1..high - 1];
      } else {
        WithPrefixOfRun(rest, prefix, 0, 0);
      }
    }
  }

  /** The fast form: from the lower bound of the prefix, while the prefix matches. */
  method Scan(values: Values, prefix: Key) returns (found: seq<Entry>)
    ensures found == WithPrefix(Entries(values), prefix)
  {
    hide HasPrefix, Less, Entries;
    var entries := Entries(values);
    EntriesAreOrdered(values);
    var low := 0;
    while low < |entries| && Less(entries[low].key, prefix)
      invariant low <= |entries|
      invariant forall i :: 0 <= i < low ==> Less(entries[i].key, prefix)
    {
      low := low + 1;
    }
    found := [];
    var next := low;
    while next < |entries| && HasPrefix(entries[next].key, prefix)
      invariant low <= next <= |entries|
      invariant found == entries[low..next]
      invariant forall i :: low <= i < next ==> HasPrefix(entries[i].key, prefix)
    {
      found := found + [entries[next]];
      next := next + 1;
    }
    RunIsComplete(entries, prefix, low, next);
    WithPrefixOfRun(entries, prefix, low, next);
  }

  lemma RunIsComplete(entries: seq<Entry>, prefix: Key, low: nat, high: nat)
    requires Ordered(entries) && low <= high <= |entries|
    requires forall i :: 0 <= i < low ==> Less(entries[i].key, prefix)
    requires low < |entries| ==> !Less(entries[low].key, prefix)
    requires forall i :: low <= i < high ==> HasPrefix(entries[i].key, prefix)
    requires high < |entries| ==> !HasPrefix(entries[high].key, prefix)
    ensures forall i :: 0 <= i < |entries| ==> (HasPrefix(entries[i].key, prefix) <==> low <= i < high)
  {
    hide HasPrefix, Less;
    forall i | 0 <= i < |entries|
      ensures HasPrefix(entries[i].key, prefix) <==> low <= i < high
    {
      if i < low {
        if HasPrefix(entries[i].key, prefix) { PrefixIsLowest(entries[i].key, prefix); }
      } else if i > high && HasPrefix(entries[i].key, prefix) {
        if Less(entries[high].key, prefix) {
          // The entry at `high` is not below the prefix: the one at `low` is not.
          LessIsStrict(entries[low].key, entries[high].key);
          if low < high { LessIsTransitive(entries[low].key, entries[high].key, prefix); }
        }
        PrefixIsContiguous(prefix, entries[high].key, entries[i].key);
      }
    }
  }
}
