/**
 Python's sorted(items, key=...) for numeric keys, as a stable insertion sort.
 */
module Sorting {
  predicate Ordered<T>(s: seq<T>, key: T -> nat) {
    forall i, j | 0 <= i < j < |s| :: key(s[i]) <= key(s[j])
  }

  function InsertedAt<T>(sorted: seq<T>, k: nat, x: T): (r: seq<T>)
    requires k <= |sorted|
    ensures |r| == |sorted| + 1
    ensures forall i | 0 <= i < |r| :: r[i] == if i < k then sorted[i] else if i == k then x else sorted[i - 1]
  {
    sorted[..k] + [x] + sorted[k..]
  }

  lemma InsertedOrder<T>(sorted: seq<T>, k: nat, x: T, key: T -> nat)
    requires Ordered(sorted, key) && k <= |sorted| && (0 < k ==> key(sorted[k - 1]) <= key(x))
    requires forall j | k <= j < |sorted| :: key(x) < key(sorted[j])
    ensures Ordered(InsertedAt(sorted, k, x), key)
  {
    hide InsertedAt;
    var r := InsertedAt(sorted, k, x);
    forall i, j | 0 <= i < j < |r| ensures key(r[i]) <= key(r[j]) {
      if j < k {
        assert key(sorted[i]) <= key(sorted[j]);
      } else if j == k {
        assert i == k - 1 || key(sorted[i]) <= key(sorted[k - 1]);
      } else if i == k {
        assert key(x) < key(sorted[j - 1]);
      } else {
        assert key(if i < k then sorted[i] else sorted[i - 1]) <= key(sorted[j - 1]);
      }
    }
  }

  lemma InsertedElements<T>(sorted: seq<T>, k: nat, x: T)
    requires k <= |sorted|
    ensures multiset(InsertedAt(sorted, k, x)) == multiset(sorted) + multiset{x}
  {
    assert sorted == sorted[..k] + sorted[k..];
  }

  // The items with this key, in the order they have in the list.
  function OfKey<T>(s: seq<T>, key: T -> nat, q: nat): seq<T> {
    if s == [] then [] else OfKey(s[..|s| - 1], key, q) + if key(s[|s| - 1]) == q then [s[|s| - 1]] else []
  }

  lemma {:induction false} OfKeyJoins<T>(a: seq<T>, b: seq<T>, key: T -> nat, q: nat)
    ensures OfKey(a + b, key, q) == OfKey(a, key, q) + OfKey(b, key, q)
  {
    if b == [] {
      assert a + b == a;
    } else {
      assert (a + b)[..|a + b| - 1] == a + b[..|b| - 1];
      OfKeyJoins(a, b[..|b| - 1], key, q);
    }
  }

  lemma {:induction false} NoneOfKey<T>(s: seq<T>, key: T -> nat, q: nat)
    requires forall i | 0 <= i < |s| :: key(s[i]) != q
    ensures OfKey(s, key, q) == []
  {
    if s != [] { NoneOfKey(s[..|s| - 1], key, q); }
  }

  lemma OfKeyCut<T>(s: seq<T>, k: nat, key: T -> nat, q: nat)
    requires k <= |s|
    ensures OfKey(s, key, q) == OfKey(s[..k], key, q) + OfKey(s[k..], key, q)
  {
    assert s[..k] + s[k..] == s;
    OfKeyJoins(s[..k], s[k..], key, q);
  }

  lemma OfKeyInserted<T>(s: seq<T>, k: nat, x: T, key: T -> nat, q: nat)
    requires k <= |s|
    ensures OfKey(InsertedAt(s, k, x), key, q) == OfKey(s[..k], key, q) + OfKey([x], key, q) + OfKey(s[k..], key, q)
  {
    OfKeyJoins(s[..k] + [x], s[k..], key, q);
    OfKeyJoins(s[..k], [x], key, q);
  }

  // Inserting after all equals appends to the items of its own key and leaves those of other keys.
  lemma InsertedOfKey<T>(sorted: seq<T>, k: nat, x: T, key: T -> nat, q: nat)
    requires k <= |sorted| && forall j | k <= j < |sorted| :: key(x) < key(sorted[j])
    ensures OfKey(InsertedAt(sorted, k, x), key, q) == OfKey(sorted, key, q) + OfKey([x], key, q)
  {
    hide OfKey, InsertedAt;
    OfKeyCut(sorted, k, key, q);
    OfKeyInserted(sorted, k, x, key, q);
    if key(x) == q {
      NoneOfKey(sorted[k..], key, q);
    } else {
      NoneOfKey([x], key, q);
    }
  }

  // Keeps the order and puts equals after those already there.
  method Insert<T(==)>(sorted: seq<T>, x: T, key: T -> nat) returns (r: seq<T>)
    requires Ordered(sorted, key)
    ensures Ordered(r, key) && multiset(r) == multiset(sorted) + multiset{x}
    ensures forall q: nat :: OfKey(r, key, q) == OfKey(sorted, key, q) + OfKey([x], key, q)
  {
    var k := |sorted|;
    while 0 < k && key(x) < key(sorted[k - 1])
      invariant 0 <= k <= |sorted|
      invariant forall j | k <= j < |sorted| :: key(x) < key(sorted[j])
    {
      k := k - 1;
    }
    InsertedOrder(sorted, k, x, key);
    InsertedElements(sorted, k, x);
    r := InsertedAt(sorted, k, x);
    forall q: nat ensures OfKey(r, key, q) == OfKey(sorted, key, q) + OfKey([x], key, q) {
      InsertedOfKey(sorted, k, x, key, q);
    }
  }

  method Sort<T(==)>(items: seq<T>, key: T -> nat) returns (sorted: seq<T>)
    ensures Ordered(sorted, key) && multiset(sorted) == multiset(items)
    ensures forall q: nat :: OfKey(sorted, key, q) == OfKey(items, key, q)
  {
    sorted := [];
    for i := 0 to |items|
      invariant Ordered(sorted, key) && multiset(sorted) == multiset(items[..i])
      invariant forall q: nat :: OfKey(sorted, key, q) == OfKey(items[..i], key, q)
    {
      assert items[..i + 1] == items[..i] + [items[i]];
      forall q: nat ensures OfKey(items[..i + 1], key, q) == OfKey(items[..i], key, q) + OfKey([items[i]], key, q) {
        OfKeyJoins(items[..i], [items[i]], key, q);
      }
      sorted := Insert(sorted, items[i], key);
    }
    assert items[..|items|] == items;
  }
}
