/**
 Iterating over hash maps: the iteration order is a parameter, and sorting the keys makes the result
 independent of it.
 */
module Keys {

  /** An iteration order lists every key of a map exactly once. */
  type Order = set<string> -> seq<string>

  ghost predicate Lists(ks: seq<string>, keys: set<string>) {
    (forall k :: k in ks <==> k in keys) && forall i, j :: 0 <= i < j < |ks| ==> ks[i] != ks[j]
  }

  ghost predicate Enumerates(order: Order) {
    forall keys :: Lists(order(keys), keys)
  }

  /** Lexicographic order of strings. */
  predicate Less(a: string, b: string) {
    if b == [] then false
    else if a == [] then true
    else a[0] < b[0] || (a[0] == b[0] && Less(a[1..], b[1..]))
  }

  lemma {:induction false} LessTotal(a: string, b: string)
    ensures a == b || Less(a, b) || Less(b, a)
    ensures !(Less(a, b) && Less(b, a)) && !Less(a, a)
    decreases |a|
  {
    if a != [] {
      LessTotal(a[1..], a[1..]);
      if b != [] {
        LessTotal(a[1..], b[1..]);
        if a[0] == b[0] && a[1..] == b[1..] {
          assert a == [a[0]] + a[1..] && b == [b[0]] + b[1..];
        }
      }
    }
  }

  lemma {:induction false} LessTransitive(a: string, b: string, c: string)
    requires Less(a, b) && Less(b, c)
    ensures Less(a, c)
  {
    if a != [] && a[0] == b[0] && b[0] == c[0] {
      LessTransitive(a[1..], b[1..], c[1..]);
    }
  }

  ghost predicate Sorted(ks: seq<string>) {
    forall i, j :: 0 <= i < j < |ks| ==> Less(ks[i], ks[j])
  }

  function Insert(k: string, ks: seq<string>): seq<string> {
    if ks == [] || Less(k, ks[0]) then [k] + ks else [ks[0]] + Insert(k, ks[1..])
  }

  function Sort(ks: seq<string>): seq<string> {
    if ks == [] then [] else Insert(ks[0], Sort(ks[1..]))
  }

  lemma {:induction false} InsertSorted(k: string, ks: seq<string>)
    requires Sorted(ks) && k !in ks
    ensures Sorted(Insert(k, ks)) && forall x :: x in Insert(k, ks) <==> x == k || x in ks
    decreases |ks|
  {
    if ks == [] {
    } else if Less(k, ks[0]) {
      forall j | 0 <= j < |ks| ensures Less(k, ks[j]) {
        if j > 0 {
          LessTransitive(k, ks[0], ks[j]);
        }
      }
    } else {
      LessTotal(k, ks[0]);
      InsertSorted(k, ks[1..]);
      var r := Insert(k, ks[1..]);
      forall j | 0 <= j < |r| ensures Less(ks[0], r[j]) {
        assert r[j] in r;
        if r[j] != k {
          var i :| 0 <= i < |ks[1..]| && ks[1..][i] == r[j];
        }
      }
    }
  }

  lemma {:induction false} SortSorted(ks: seq<string>)
    requires forall i, j :: 0 <= i < j < |ks| ==> ks[i] != ks[j]
    ensures Sorted(Sort(ks)) && forall x :: x in Sort(ks) <==> x in ks
    decreases |ks|
  {
    if ks != [] {
      SortSorted(ks[1..]);
      InsertSorted(ks[0], Sort(ks[1..]));
    }
  }

  /** A set has only one sorted listing. */
  lemma {:induction false} SortedUnique(a: seq<string>, b: seq<string>)
    requires Sorted(a) && Sorted(b) && forall x :: x in a <==> x in b
    ensures a == b
    decreases |a|
  {
    assert b == [] || b[0] in a;
    if a != [] {
      assert a[0] in b && b != [];
      LessTotal(a[0], b[0]);
      SortedTail(a);
      SortedTail(b);
      SortedUnique(a[1..], b[1..]);
    }
  }

  /** The rest of a sorted listing holds everything but its first key. */
  lemma SortedTail(a: seq<string>)
    requires Sorted(a) && a != []
    ensures Sorted(a[1..]) && forall x :: x in a[1..] <==> x in a && x != a[0]
  {
    LessTotal(a[0], a[0]);
    forall x | x in a[1..] ensures x in a && x != a[0] {
      var i :| 0 <= i < |a[1..]| && a[1..][i] == x;
    }
    assert a == [a[0]] + a[1..];
  }

  /** The sorted keys of a map. */
  function SortedKeys(order: Order, keys: set<string>): seq<string> {
    Sort(order(keys))
  }

  /** The iteration order that visits the keys sorted. */
  function SortedOrder(order: Order): Order {
    keys => SortedKeys(order, keys)
  }

  lemma SortedKeysFacts(order: Order, keys: set<string>)
    requires Enumerates(order)
    ensures Sorted(SortedKeys(order, keys)) && forall k :: k in SortedKeys(order, keys) <==> k in keys
  {
    assert Lists(order(keys), keys);
    SortSorted(order(keys));
  }

  /** Sorting removes the dependence on the iteration order. */
  lemma SortedKeysUnique(order: Order, order': Order, keys: set<string>)
    requires Enumerates(order) && Enumerates(order')
    ensures SortedKeys(order, keys) == SortedKeys(order', keys)
  {
    SortedKeysFacts(order, keys);
    SortedKeysFacts(order', keys);
    SortedUnique(SortedKeys(order, keys), SortedKeys(order', keys));
  }

  lemma SortedOrderEnumerates(order: Order)
    requires Enumerates(order)
    ensures Enumerates(SortedOrder(order))
  {
    forall keys ensures Lists(SortedOrder(order)(keys), keys) {
      SortedKeysFacts(order, keys);
      var ks := SortedKeys(order, keys);
      forall i, j | 0 <= i < j < |ks| ensures ks[i] != ks[j] {
        LessTotal(ks[i], ks[j]);
      }
    }
  }
}
