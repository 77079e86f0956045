/**
 * Counting occurrences the way `collections.Counter` and a hand-written
 * `counts[k] = counts.get(k, 0) + 1` loop do: an insertion-ordered dictionary
 * whose keys appear in the order they were first seen.
 */
module Tally {

  import opened StableSort

  /** An insertion-ordered dictionary from keys to counts. */
  type Counts<K> = seq<(K, nat)>

  /** The keys of an association list, in order. */
  function Keys<K, V>(t: seq<(K, V)>): (r: seq<K>)
    ensures |r| == |t|
    ensures forall i {:trigger r[i]} :: 0 <= i < |t| ==> r[i] == t[i].0
  {
    if t == [] then [] else [t[0].0] + Keys(t[1..])
  }

  /** No key occurs twice. */
  predicate DistinctKeys<K(==), V>(t: seq<(K, V)>) {
    forall i, j :: 0 <= i < j < |t| ==> t[i].0 != t[j].0
  }

  /** `counts.get(x, 0)` */
  function Lookup<K(==)>(t: Counts<K>, x: K): nat {
    if t == [] then 0 else if t[0].0 == x then t[0].1 else Lookup(t[1..], x)
  }

  /** The sum of all counts. */
  function Total<K>(t: Counts<K>): nat {
    if t == [] then 0 else t[0].1 + Total(t[1..])
  }

  /** `counts[x] = counts.get(x, 0) + 1`: bump an existing key in place, or append a new one. */
  function Bump<K(==)>(t: Counts<K>, x: K): (r: Counts<K>)
    ensures |t| <= |r| <= |t| + 1
    ensures Keys(r) == if x in Keys(t) then Keys(t) else Keys(t) + [x]
    ensures Total(r) == Total(t) + 1
  {
    if t == [] then [(x, 1)]
    else if t[0].0 == x then [(x, t[0].1 + 1)] + t[1..]
    else
      assert Keys(t) == [t[0].0] + Keys(t[1..]);
      [t[0]] + Bump(t[1..], x)
  }

  /** The counts of `xs`, keyed in first-seen order. */
  function Count<K(==)>(xs: seq<K>): Counts<K> {
    if xs == [] then [] else Bump(Count(xs[..|xs| - 1]), xs[|xs| - 1])
  }

  lemma {:induction false} LookupBump<K>(t: Counts<K>, x: K, y: K)
    ensures Lookup(Bump(t, x), y) == Lookup(t, y) + (if x == y then 1 else 0)
  {
    if t != [] && t[0].0 != x {
      LookupBump(t[1..], x, y);
    }
  }

  lemma {:induction false} BumpDistinct<K>(t: Counts<K>, x: K)
    requires DistinctKeys(t)
    ensures DistinctKeys(Bump(t, x))
  {
    var r := Bump(t, x);
    assert Keys(r) == if x in Keys(t) then Keys(t) else Keys(t) + [x];
    forall i, j | 0 <= i < j < |r| ensures r[i].0 != r[j].0 {
      assert Keys(r)[i] == r[i].0 && Keys(r)[j] == r[j].0;
      if j < |t| {
        assert Keys(t)[i] == t[i].0 && Keys(t)[j] == t[j].0;
      } else {
        assert Keys(t)[i] == t[i].0;
      }
    }
  }

  /** Every count is the number of occurrences of its key. */
  lemma {:induction false} CountLookup<K>(xs: seq<K>, x: K)
    ensures Lookup(Count(xs), x) == multiset(xs)[x]
  {
    if xs != [] {
      var init := xs[..|xs| - 1];
      var last := xs[|xs| - 1];
      assert xs == init + [last];
      assert multiset(xs) == multiset(init) + multiset{last};
      calc {
        Lookup(Count(xs), x);
        Lookup(Bump(Count(init), last), x);
        { LookupBump(Count(init), last, x); }
        Lookup(Count(init), x) + (if last == x then 1 else 0);
        { CountLookup(init, x); }
        multiset(init)[x] + multiset{last}[x];
      }
    }
  }

  /** The counts add up to the number of items counted. */
  lemma {:induction false} CountTotal<K>(xs: seq<K>)
    ensures Total(Count(xs)) == |xs|
  {
    if xs != [] {
      CountTotal(xs[..|xs| - 1]);
    }
  }

  /** Each key appears once. */
  lemma {:induction false} CountDistinct<K>(xs: seq<K>)
    ensures DistinctKeys(Count(xs))
  {
    if xs != [] {
      var init := xs[..|xs| - 1];
      CountDistinct(init);
      BumpDistinct(Count(init), xs[|xs| - 1]);
    }
  }

  /** The keys are exactly the items seen. */
  lemma {:induction false} CountKeys<K>(xs: seq<K>)
    ensures forall x :: x in Keys(Count(xs)) <==> x in xs
  {
    if xs != [] {
      var init := xs[..|xs| - 1];
      var last := xs[|xs| - 1];
      CountKeys(init);
      assert Keys(Count(xs)) == Keys(Bump(Count(init), last));
      assert xs == init + [last];
      forall x ensures x in xs <==> x in init || x == last {
      }
    }
  }

  /** With distinct keys, every stored pair is what a lookup of its key finds. */
  lemma {:induction false} LookupStored<K>(t: Counts<K>, i: nat)
    requires DistinctKeys(t) && i < |t|
    ensures Lookup(t, t[i].0) == t[i].1
  {
    if i > 0 {
      assert t[0].0 != t[i].0;
      assert t[1..][i - 1] == t[i];
      LookupStored(t[1..], i - 1);
    }
  }

  /** Reordering the pairs keeps the set of keys. */
  lemma KeysOfPermutation<K, V>(a: seq<(K, V)>, b: seq<(K, V)>)
    requires multiset(a) == multiset(b)
    ensures forall k :: k in Keys(a) ==> k in Keys(b)
  {
    forall k | k in Keys(a) ensures k in Keys(b) {
      var i :| 0 <= i < |a| && Keys(a)[i] == k;
      assert a[i] in multiset(b);
      var j :| 0 <= j < |b| && b[j] == a[i];
      assert Keys(b)[j] == k;
    }
  }

  /** A key's count is positive exactly when it is present. */
  lemma {:induction false} LookupPresent<K>(t: Counts<K>, x: K)
    requires forall i :: 0 <= i < |t| ==> t[i].1 >= 1
    ensures Lookup(t, x) >= 1 <==> x in Keys(t)
  {
    if t != [] {
      LookupPresent(t[1..], x);
      assert Keys(t) == [t[0].0] + Keys(t[1..]);
    }
  }

  // ---------------------------------------------------------------------------
  // Most common first: `Counter(xs).most_common()`, or
  // `dict(sorted(counts.items(), key=lambda x: x[1], reverse=True))`
  // ---------------------------------------------------------------------------

  /** The count of a pair, as a sort key. */
  function CountOf<K>(p: (K, nat)): real {
    p.1 as real
  }

  /** The counts of `xs`, highest first; equal counts stay in first-seen order. */
  function MostCommon<K(==)>(xs: seq<K>): (r: Counts<K>)
    ensures multiset(r) == multiset(Count(xs))
    ensures NonIncreasing(r, CountOf)
  {
    SortDescOrdered(Count(xs), CountOf);
    SortDesc(Count(xs), CountOf)
  }

  /** Every listed pair carries the exact number of occurrences of its key. */
  lemma MostCommonExact<K>(xs: seq<K>)
    ensures forall p :: p in MostCommon(xs) ==> p.1 == multiset(xs)[p.0] >= 1
  {
    var counts := Count(xs);
    CountDistinct(xs);
    CountKeys(xs);
    forall p | p in MostCommon(xs)
      ensures p.1 == multiset(xs)[p.0] >= 1
    {
      assert p in multiset(counts);
      var i :| 0 <= i < |counts| && counts[i] == p;
      LookupStored(counts, i);
      CountLookup(xs, p.0);
      assert Keys(counts)[i] == p.0;
      assert p.0 in xs;
    }
  }

  /** The keys listed are exactly the items counted. */
  lemma MostCommonKeys<K>(xs: seq<K>)
    ensures forall x :: x in Keys(MostCommon(xs)) <==> x in xs
  {
    CountKeys(xs);
    KeysOfPermutation(Count(xs), MostCommon(xs));
    KeysOfPermutation(MostCommon(xs), Count(xs));
  }

  /** Sorting keeps first-seen order among keys with the same count. */
  lemma MostCommonStable<K>(xs: seq<K>, c: real)
    ensures WithKey(MostCommon(xs), CountOf, c) == WithKey(Count(xs), CountOf, c)
  {
    SortDescStable(Count(xs), CountOf, c);
  }

  lemma {:induction false} TotalInsert<K>(t: Counts<K>, p: (K, nat), key: ((K, nat)) -> real)
    ensures Total(Insert(t, p, key)) == Total(t) + p.1
  {
    if t != [] && key(t[0]) >= key(p) {
      TotalInsert(t[1..], p, key);
      assert Insert(t, p, key) == [t[0]] + Insert(t[1..], p, key);
    }
  }

  lemma {:induction false} TotalSorted<K>(t: Counts<K>, key: ((K, nat)) -> real)
    ensures Total(SortDesc(t, key)) == Total(t)
  {
    if t != [] {
      var init, last := t[..|t| - 1], t[|t| - 1];
      calc {
        Total(SortDesc(t, key));
        Total(Insert(SortDesc(init, key), last, key));
        { TotalInsert(SortDesc(init, key), last, key); }
        Total(SortDesc(init, key)) + last.1;
        { TotalSorted(init, key); }
        Total(init) + last.1;
        { TotalSnoc(init, last); }
        Total(init + [last]);
        { assert init + [last] == t; }
        Total(t);
      }
    }
  }

  lemma {:induction false} TotalSnoc<K>(t: Counts<K>, p: (K, nat))
    ensures Total(t + [p]) == Total(t) + p.1
  {
    if t != [] {
      TotalSnoc(t[1..], p);
      assert (t + [p])[1..] == t[1..] + [p];
    }
  }

  /** The counts add up to the number of items counted. */
  lemma MostCommonTotal<K>(xs: seq<K>)
    ensures Total(MostCommon(xs)) == |xs|
  {
    CountTotal(xs);
    TotalSorted(Count(xs), CountOf);
  }

  // ---------------------------------------------------------------------------
  // `max(d, key=d.get)`
  // ---------------------------------------------------------------------------

  /** The value of a pair, as a sort key. */
  function ValueKey<K>(p: (K, real)): real {
    p.1
  }

  /** The position of the first entry holding the largest key. */
  function FirstMax<P>(d: seq<P>, key: P -> real): (i: nat)
    requires |d| >= 1
    ensures i < |d|
    ensures forall j :: 0 <= j < |d| ==> key(d[j]) <= key(d[i])
    ensures forall j :: 0 <= j < i ==> key(d[j]) < key(d[i])
  {
    if |d| == 1 then 0
    else
      var i := FirstMax(d[..|d| - 1], key);
      if key(d[|d| - 1]) > key(d[i]) then |d| - 1 else i
  }

  // ---------------------------------------------------------------------------
  // Grouping: `groups.setdefault(k, []).append(v)` in a loop
  // ---------------------------------------------------------------------------

  /** An insertion-ordered dictionary from keys to the lists of values collected under them. */
  type Groups<K, V> = seq<(K, seq<V>)>

  /** Every key holds at least one value. */
  predicate NonEmptyGroups<K, V>(g: Groups<K, V>) {
    forall i :: 0 <= i < |g| ==> |g[i].1| >= 1
  }

  /** The number of values held under all keys. */
  function Size<K, V>(g: Groups<K, V>): nat {
    if g == [] then 0 else |g[0].1| + Size(g[1..])
  }

  /** The values held under `k`, `[]` when `k` is not a key. */
  function ValuesOf<K(==), V>(g: Groups<K, V>, k: K): seq<V> {
    if g == [] then [] else if g[0].0 == k then g[0].1 else ValuesOf(g[1..], k)
  }

  /** Append `v` to the list under `k`, adding `k` at the end when it is new. */
  function AddTo<K(==), V>(g: Groups<K, V>, k: K, v: V): (r: Groups<K, V>)
    ensures Keys(r) == if k in Keys(g) then Keys(g) else Keys(g) + [k]
    ensures NonEmptyGroups(g) ==> NonEmptyGroups(r)
    ensures Size(r) == Size(g) + 1
  {
    if g == [] then [(k, [v])]
    else if g[0].0 == k then [(k, g[0].1 + [v])] + g[1..]
    else
      assert Keys(g) == [g[0].0] + Keys(g[1..]);
      [g[0]] + AddTo(g[1..], k, v)
  }

  /** Adding under `k` extends `k`'s list by `v` and leaves every other list alone. */
  lemma {:induction false} ValuesOfAddTo<K, V>(g: Groups<K, V>, k: K, v: V, j: K)
    ensures ValuesOf(AddTo(g, k, v), j) == ValuesOf(g, j) + (if j == k then [v] else [])
  {
    if g != [] && g[0].0 != k {
      ValuesOfAddTo(g[1..], k, v, j);
    }
  }

  /** `ValuesOfAddTo` for every key at once. */
  lemma AddToValues<K, V>(g: Groups<K, V>, k: K, v: V)
    ensures forall j :: ValuesOf(AddTo(g, k, v), j) == ValuesOf(g, j) + (if j == k then [v] else [])
  {
    forall j ensures ValuesOf(AddTo(g, k, v), j) == ValuesOf(g, j) + (if j == k then [v] else []) {
      ValuesOfAddTo(g, k, v, j);
    }
  }

  /** Without empty lists, a key is present exactly when it holds values. */
  lemma {:induction false} KeyHoldsValues<K, V>(g: Groups<K, V>, k: K)
    requires NonEmptyGroups(g)
    ensures k in Keys(g) <==> ValuesOf(g, k) != []
  {
    if g != [] {
      assert |g[0].1| >= 1;
      assert NonEmptyGroups(g[1..]) by {
        forall i | 0 <= i < |g[1..]| ensures |g[1..][i].1| >= 1 {
          assert g[1..][i] == g[i + 1];
        }
      }
      KeyHoldsValues(g[1..], k);
      assert Keys(g) == [g[0].0] + Keys(g[1..]);
    }
  }

  /** With distinct keys, every stored list is what `ValuesOf` finds under its key. */
  lemma {:induction false} ValuesOfStored<K, V>(g: Groups<K, V>, i: nat)
    requires DistinctKeys(g) && i < |g|
    ensures ValuesOf(g, g[i].0) == g[i].1
  {
    if i > 0 {
      assert g[0].0 != g[i].0;
      assert g[1..][i - 1] == g[i];
      ValuesOfStored(g[1..], i - 1);
    }
  }

  /** Two tables whose entries carry the same keys, position by position, have the same keys. */
  lemma SameKeys<K, V, W>(a: seq<(K, V)>, b: seq<(K, W)>, k: K)
    requires |a| == |b| && forall i :: 0 <= i < |a| ==> a[i].0 == b[i].0
    ensures k in Keys(a) <==> k in Keys(b)
  {
    assert Keys(a) == Keys(b);
  }

  /** Adding under a key keeps keys distinct. */
  lemma {:induction false} AddToDistinct<K, V>(g: Groups<K, V>, k: K, v: V)
    requires DistinctKeys(g)
    ensures DistinctKeys(AddTo(g, k, v))
  {
    var r := AddTo(g, k, v);
    forall i, j | 0 <= i < j < |r| ensures r[i].0 != r[j].0 {
      assert Keys(r)[i] == r[i].0 && Keys(r)[j] == r[j].0;
      if j < |g| {
        assert Keys(g)[i] == g[i].0 && Keys(g)[j] == g[j].0;
      } else {
        assert Keys(g)[i] == g[i].0;
      }
    }
  }
}
