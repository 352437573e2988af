/**
 * The stable ascending sort of road indices by a real key, as Python's
 * `sorted(roads, key=...)` produces it. Insertion sort is used as the
 * definition; its result is the unique order sorted by key with ties kept in
 * index order, which is what a stable sort returns.
 */
module Sorting {

  /** Item `a` comes strictly before item `b`: smaller key, or same key and smaller index. */
  predicate Before(keys: seq<real>, a: nat, b: nat)
    requires a < |keys| && b < |keys|
  {
    keys[a] < keys[b] || (keys[a] == keys[b] && a < b)
  }

  predicate InRange(order: seq<nat>, n: nat) {
    forall i :: 0 <= i < |order| ==> order[i] < n
  }

  /** Each entry comes Before the next one. */
  predicate LexSorted(keys: seq<real>, order: seq<nat>)
    requires InRange(order, |keys|)
  {
    forall i :: 0 < i < |order| ==> Before(keys, order[i - 1], order[i])
  }

  /** Every earlier entry comes Before every later one. */
  predicate LexOrdered(keys: seq<real>, order: seq<nat>)
    requires InRange(order, |keys|)
  {
    forall i, j :: 0 <= i < j < |order| ==> Before(keys, order[i], order[j])
  }

  /** Ascending by key. */
  predicate SortedByKey(keys: seq<real>, order: seq<nat>)
    requires InRange(order, |keys|)
  {
    forall i, j :: 0 <= i < j < |order| ==> keys[order[i]] <= keys[order[j]]
  }

  /** Items with equal keys keep their original relative order. */
  predicate StableOrder(keys: seq<real>, order: seq<nat>)
    requires InRange(order, |keys|)
  {
    forall i, j :: 0 <= i < j < |order| && keys[order[i]] == keys[order[j]] ==> order[i] < order[j]
  }

  /** `order` lists each of `0..n-1` exactly once. */
  predicate Permutation(order: seq<nat>, n: nat) {
    && |order| == n
    && (forall i :: 0 <= i < |order| ==> order[i] < n)
    && (forall j :: 0 <= j < n ==> j in order)
    && (forall i, j :: 0 <= i < j < |order| ==> order[i] != order[j])
  }

  /** Scan for the first entry whose key exceeds `keys[x]`, starting at `q`. */
  function InsertPosFrom(keys: seq<real>, order: seq<nat>, x: nat, q: nat): (p: nat)
    requires InRange(order, |keys|) && x < |keys| && q <= |order|
    ensures q <= p <= |order|
    decreases |order| - q
  {
    if q == |order| || keys[x] < keys[order[q]] then q else InsertPosFrom(keys, order, x, q + 1)
  }

  /** If no key before `q` exceeds `keys[x]`, none before the position found does, and the one at it does. */
  lemma {:induction false} InsertPosFromCorrect(keys: seq<real>, order: seq<nat>, x: nat, q: nat)
    requires InRange(order, |keys|) && x < |keys| && q <= |order|
    requires forall t :: 0 <= t < q ==> keys[order[t]] <= keys[x]
    ensures var p := InsertPosFrom(keys, order, x, q);
      && (forall t :: 0 <= t < p ==> keys[order[t]] <= keys[x])
      && (p < |order| ==> keys[x] < keys[order[p]])
    decreases |order| - q
  {
    if q < |order| && keys[order[q]] <= keys[x] {
      InsertPosFromCorrect(keys, order, x, q + 1);
    }
  }

  /** Inserts `x` after every entry whose key is at most `keys[x]`. */
  function Insert(keys: seq<real>, order: seq<nat>, x: nat): (r: seq<nat>)
    requires InRange(order, |keys|) && x < |keys|
    ensures |r| == |order| + 1 && InRange(r, |keys|)
  {
    var p := InsertPosFrom(keys, order, x, 0);
    order[..p] + [x] + order[p..]
  }

  /** The first `n` indices, sorted. */
  function SortPrefix(keys: seq<real>, n: nat): (r: seq<nat>)
    requires n <= |keys|
    ensures |r| == n && InRange(r, |keys|)
  {
    if n == 0 then [] else Insert(keys, SortPrefix(keys, n - 1), n - 1)
  }


  /** Inserting keeps every entry and adds `x`, nothing else. */
  lemma {:induction false} InsertMembers(keys: seq<real>, order: seq<nat>, x: nat)
    requires InRange(order, |keys|) && x < |keys|
    ensures forall y: nat :: y in Insert(keys, order, x) <==> y in order || y == x
  {
    var p := InsertPosFrom(keys, order, x, 0);
    assert order == order[..p] + order[p..];
  }

  /** The first `n` indices, each exactly once. */
  lemma {:induction false} SortPrefixMembers(keys: seq<real>, n: nat)
    requires n <= |keys|
    ensures forall y: nat :: y in SortPrefix(keys, n) <==> y < n
  {
    if n > 0 {
      SortPrefixMembers(keys, n - 1);
      InsertMembers(keys, SortPrefix(keys, n - 1), n - 1);
    }
  }

  /** Inserting an index larger than every entry keeps a LexSorted order LexSorted. */
  lemma {:induction false} InsertSorted(keys: seq<real>, order: seq<nat>, x: nat)
    requires InRange(order, |keys|) && x < |keys| && LexSorted(keys, order)
    requires forall y :: y in order ==> y < x
    ensures LexSorted(keys, Insert(keys, order, x))
  {
    var p := InsertPosFrom(keys, order, x, 0);
    InsertPosFromCorrect(keys, order, x, 0);
    var r := Insert(keys, order, x);
    assert r == order[..p] + [x] + order[p..];
    forall i | 0 < i < |r| ensures Before(keys, r[i - 1], r[i]) {
      if i < p {
        assert r[i - 1] == order[i - 1] && r[i] == order[i];
      } else if i == p {
        assert r[i - 1] == order[i - 1] && r[i] == x;
        assert order[i - 1] in order;
      } else if i == p + 1 {
        assert r[i - 1] == x && r[i] == order[p];
      } else {
        assert r[i - 1] == order[i - 2] && r[i] == order[i - 1];
      }
    }
  }

  /** Before is transitive, so adjacent order gives the order of every pair. */
  lemma {:induction false} LexSortedOrdered(keys: seq<real>, order: seq<nat>)
    requires InRange(order, |keys|) && LexSorted(keys, order)
    ensures LexOrdered(keys, order)
  {
    forall i, j | 0 <= i < j < |order| ensures Before(keys, order[i], order[j]) {
      LexSortedFrom(keys, order, i, j);
    }
  }

  lemma {:induction false} LexSortedFrom(keys: seq<real>, order: seq<nat>, i: nat, j: nat)
    requires InRange(order, |keys|) && LexSorted(keys, order) && i < j < |order|
    ensures Before(keys, order[i], order[j])
  {
    if i < j - 1 {
      LexSortedFrom(keys, order, i, j - 1);
      assert Before(keys, order[j - 1], order[j]);
    }
  }

  lemma {:induction false} SortPrefixSorted(keys: seq<real>, n: nat)
    requires n <= |keys|
    ensures LexSorted(keys, SortPrefix(keys, n))
  {
    if n > 0 {
      var s := SortPrefix(keys, n - 1);
      SortPrefixSorted(keys, n - 1);
      SortPrefixMembers(keys, n - 1);
      InsertSorted(keys, s, n - 1);
      assert SortPrefix(keys, n) == Insert(keys, s, n - 1);
    }
  }

  /** Entries of a LexOrdered order are pairwise distinct. */
  lemma {:induction false} LexOrderedDistinct(keys: seq<real>, order: seq<nat>)
    requires InRange(order, |keys|) && LexOrdered(keys, order)
    ensures forall i, j :: 0 <= i < j < |order| ==> order[i] != order[j]
  {
    forall i, j | 0 <= i < j < |order| ensures order[i] != order[j] {
      assert Before(keys, order[i], order[j]);
    }
  }

  /** All indices inserted: every index once, ascending by key, ties in index order. */
  lemma {:induction false} SortPrefixCorrect(keys: seq<real>)
    ensures var order := SortPrefix(keys, |keys|);
      && Permutation(order, |keys|)
      && LexOrdered(keys, order) && SortedByKey(keys, order) && StableOrder(keys, order)
  {
    var order := SortPrefix(keys, |keys|);
    SortPrefixSorted(keys, |keys|);
    SortPrefixMembers(keys, |keys|);
    LexSortedOrdered(keys, order);
    LexOrderedDistinct(keys, order);
    forall i, j | 0 <= i < j < |order| ensures keys[order[i]] <= keys[order[j]] {
      assert Before(keys, order[i], order[j]);
    }
  }

  /**
   * Python's `sorted(range(len(keys)), key=lambda i: keys[i])`: every index
   * once, ascending by key, ties in index order.
   */
  function StableSort(keys: seq<real>): (order: seq<nat>)
    ensures Permutation(order, |keys|) && InRange(order, |keys|)
    ensures LexOrdered(keys, order) && SortedByKey(keys, order) && StableOrder(keys, order)
  {
    SortPrefixCorrect(keys);
    SortPrefix(keys, |keys|)
  }
}
