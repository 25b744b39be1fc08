/**
 * Collection transforms keyed by an id: `find` by id, `filter` out an id,
 * `map` that replaces the records with an id, and the `{ [id]: record }` map
 * built from a list (a later record with the same id overwrites an earlier one).
 */
module Keyed {
  import opened Wrappers

  /** Position of the first element whose key is `k` (`Array.prototype.find`). */
  function FirstIndex<T, K(==)>(xs: seq<T>, key: T -> K, k: K): (r: Option<nat>)
    ensures r.Some? ==> r.value < |xs| && key(xs[r.value]) == k
    ensures r.Some? ==> forall j :: 0 <= j < r.value ==> key(xs[j]) != k
    ensures r.None? <==> forall j :: 0 <= j < |xs| ==> key(xs[j]) != k
  {
    if xs == [] then None
    else if key(xs[0]) == k then Some(0)
    else
      match FirstIndex(xs[1..], key, k)
      case None => None
      case Some(i) => Some(i + 1)
  }

  /** `xs.filter(x => key(x) !== k)`. */
  function RemoveKey<T(!new), K(==)>(xs: seq<T>, key: T -> K, k: K): (r: seq<T>)
    ensures |r| <= |xs|
    ensures forall x :: x in r <==> x in xs && key(x) != k
  {
    if xs == [] then []
    else (if key(xs[0]) == k then [] else [xs[0]]) + RemoveKey(xs[1..], key, k)
  }

  /** Filtering distributes over concatenation: the survivors keep their relative order. */
  lemma {:induction false} RemoveKeyAppend<T(!new), K>(a: seq<T>, b: seq<T>, key: T -> K, k: K)
    ensures RemoveKey(a + b, key, k) == RemoveKey(a, key, k) + RemoveKey(b, key, k)
  {
    if a != [] {
      assert (a + b)[1..] == a[1..] + b;
      RemoveKeyAppend(a[1..], b, key, k);
    } else {
      assert a + b == b;
    }
  }

  /** Filtering out a key no element has changes nothing. */
  lemma {:induction false} RemoveKeyAbsent<T(!new), K>(xs: seq<T>, key: T -> K, k: K)
    requires forall j :: 0 <= j < |xs| ==> key(xs[j]) != k
    ensures RemoveKey(xs, key, k) == xs
  {
    if xs != [] {
      RemoveKeyAbsent(xs[1..], key, k);
      assert xs == [xs[0]] + xs[1..];
    }
  }

  /** Deleting the same id twice ends in the same state as deleting it once. */
  lemma RemoveKeyIdempotent<T(!new), K>(xs: seq<T>, key: T -> K, k: K)
    ensures RemoveKey(RemoveKey(xs, key, k), key, k) == RemoveKey(xs, key, k)
  {
    var r := RemoveKey(xs, key, k);
    forall j | 0 <= j < |r| ensures key(r[j]) != k {
      assert r[j] in r;
    }
    RemoveKeyAbsent(r, key, k);
  }

  /** `xs.map(x => key(x) === key(y) ? y : x)`. */
  function ReplaceKey<T, K(==)>(xs: seq<T>, key: T -> K, y: T): (r: seq<T>)
    ensures |r| == |xs|
  {
    if xs == [] then []
    else [if key(xs[0]) == key(y) then y else xs[0]] + ReplaceKey(xs[1..], key, y)
  }

  /** Each position holds `y` where the key matched, and its old record elsewhere. */
  lemma {:induction false} ReplaceKeyAt<T, K>(xs: seq<T>, key: T -> K, y: T, i: int)
    requires 0 <= i < |xs|
    ensures ReplaceKey(xs, key, y)[i] == if key(xs[i]) == key(y) then y else xs[i]
  {
    if i > 0 {
      ReplaceKeyAt(xs[1..], key, y, i - 1);
    }
  }

  /** Replacing by a key no element has changes nothing. */
  lemma {:induction false} ReplaceKeyAbsent<T, K>(xs: seq<T>, key: T -> K, y: T)
    requires forall j :: 0 <= j < |xs| ==> key(xs[j]) != key(y)
    ensures ReplaceKey(xs, key, y) == xs
  {
    if xs != [] {
      ReplaceKeyAbsent(xs[1..], key, y);
      assert xs == [xs[0]] + xs[1..];
    }
  }

  /** The `{ [key]: x }` map built by visiting `xs` in order: the last `x` with a key wins. */
  function IndexBy<T, K>(xs: seq<T>, key: T -> K): (m: map<K, T>)
    ensures m.Keys == set x | x in xs :: key(x)
    ensures forall k :: k in m ==> key(m[k]) == k && m[k] in xs
  {
    if xs == [] then map[]
    else
      var init := xs[..|xs| - 1];
      assert xs == init + [xs[|xs| - 1]];
      IndexBy(init, key)[key(xs[|xs| - 1]) := xs[|xs| - 1]]
  }

  /** Every element that is the last one with its key is what the map holds for that key. */
  lemma {:induction false} IndexByLastWins<T, K>(xs: seq<T>, key: T -> K, i: int)
    requires 0 <= i < |xs|
    requires forall j :: i < j < |xs| ==> key(xs[j]) != key(xs[i])
    ensures key(xs[i]) in IndexBy(xs, key) && IndexBy(xs, key)[key(xs[i])] == xs[i]
  {
    if i < |xs| - 1 {
      IndexByLastWins(xs[..|xs| - 1], key, i);
    }
  }

  /** Builds the map by assigning `m[key(x)] = x` for each `x` of `xs` in turn. */
  method BuildIndex<T, K>(xs: seq<T>, key: T -> K) returns (m: map<K, T>)
    ensures m == IndexBy(xs, key)
  {
    m := map[];
    var i := 0;
    while i < |xs|
      invariant 0 <= i <= |xs|
      invariant m == IndexBy(xs[..i], key)
    {
      assert xs[..i + 1][..i] == xs[..i];
      m := m[key(xs[i]) := xs[i]];
      i := i + 1;
    }
    assert xs[..i] == xs;
  }

  /** `xs.filter(p)`: the elements satisfying `p`, in their order. */
  function Filter<T(!new)>(p: T -> bool, xs: seq<T>): (r: seq<T>)
    ensures |r| <= |xs|
    ensures forall x :: x in r <==> x in xs && p(x)
  {
    if xs == [] then [] else (if p(xs[0]) then [xs[0]] else []) + Filter(p, xs[1..])
  }

  /** When every element satisfies `p`, filtering keeps the whole sequence. */
  lemma {:induction false} FilterAll<T(!new)>(p: T -> bool, xs: seq<T>)
    requires forall i :: 0 <= i < |xs| ==> p(xs[i])
    ensures Filter(p, xs) == xs
  {
    if xs != [] {
      FilterAll(p, xs[1..]);
    }
  }
}
