/**
 * Python's `list.sort(key=..., reverse=True)` and `sorted(..., reverse=True)`:
 * a stable sort by a real-valued key, largest key first. Elements with equal
 * keys keep their original relative order.
 */
module StableSort {

  /** Keys never increase from left to right. */
  predicate NonIncreasing<T>(s: seq<T>, key: T -> real) {
    forall i, j :: 0 <= i < j < |s| ==> key(s[i]) >= key(s[j])
  }

  /** The elements of `s` whose key is `k`, in their order in `s`. */
  function WithKey<T>(s: seq<T>, key: T -> real, k: real): (r: seq<T>)
    ensures |r| <= |s|
    ensures forall x :: x in r ==> x in s && key(x) == k
  {
    if s == [] then []
    else WithKey(s[..|s| - 1], key, k) + (if key(s[|s| - 1]) == k then [s[|s| - 1]] else [])
  }

  /** Put `x` before the first element whose key is smaller than its own. */
  function Insert<T>(s: seq<T>, x: T, key: T -> real): (r: seq<T>)
    ensures multiset(r) == multiset(s) + multiset{x}
    ensures |r| == |s| + 1
  {
    if s == [] then [x]
    else if key(s[0]) < key(x) then [x] + s
    else
      assert s == [s[0]] + s[1..];
      [s[0]] + Insert(s[1..], x, key)
  }

  /** The stable descending sort of `s` by `key`. */
  function SortDesc<T>(s: seq<T>, key: T -> real): (r: seq<T>)
    ensures multiset(r) == multiset(s)
    ensures |r| == |s|
  {
    if s == [] then []
    else
      assert s == s[..|s| - 1] + [s[|s| - 1]];
      Insert(SortDesc(s[..|s| - 1], key), s[|s| - 1], key)
  }

  lemma {:induction false} InsertHead<T>(s: seq<T>, x: T, key: T -> real)
    requires s != []
    ensures Insert(s, x, key)[0] == x || Insert(s, x, key)[0] == s[0]
  {
  }

  lemma {:induction false} InsertKeepsOrder<T>(s: seq<T>, x: T, key: T -> real)
    requires NonIncreasing(s, key)
    ensures NonIncreasing(Insert(s, x, key), key)
  {
    if s != [] && key(s[0]) >= key(x) {
      var rest := Insert(s[1..], x, key);
      InsertKeepsOrder(s[1..], x, key);
      if s[1..] != [] {
        InsertHead(s[1..], x, key);
      }
      var r := [s[0]] + rest;
      forall i, j | 0 <= i < j < |r|
        ensures key(r[i]) >= key(r[j])
      {
        if i == 0 {
          assert r[j] in multiset(s[1..]) + multiset{x} by {
            assert r[j] == rest[j - 1];
            assert r[j] in multiset(rest);
          }
          if r[j] != x {
            assert r[j] in s[1..];
          }
        }
      }
    }
  }

  /** The result of the sort is ordered by key, largest first. */
  lemma {:induction false} SortDescOrdered<T>(s: seq<T>, key: T -> real)
    ensures NonIncreasing(SortDesc(s, key), key)
  {
    if s != [] {
      SortDescOrdered(s[..|s| - 1], key);
      InsertKeepsOrder(SortDesc(s[..|s| - 1], key), s[|s| - 1], key);
    }
  }

  lemma {:induction false} WithKeyConcat<T>(a: seq<T>, b: seq<T>, key: T -> real, k: real)
    ensures WithKey(a + b, key, k) == WithKey(a, key, k) + WithKey(b, key, k)
  {
    if b == [] {
      assert a + b == a;
    } else {
      var init, last := b[..|b| - 1], b[|b| - 1];
      var extra := if key(last) == k then [last] else [];
      assert (a + b)[..|a + b| - 1] == a + init;
      calc {
        WithKey(a + b, key, k);
        WithKey(a + init, key, k) + extra;
        { WithKeyConcat(a, init, key, k); }
        WithKey(a, key, k) + WithKey(init, key, k) + extra;
        WithKey(a, key, k) + (WithKey(init, key, k) + extra);
        WithKey(a, key, k) + WithKey(b, key, k);
      }
    }
  }

  lemma {:induction false} WithKeyNone<T>(s: seq<T>, key: T -> real, k: real)
    requires forall i :: 0 <= i < |s| ==> key(s[i]) != k
    ensures WithKey(s, key, k) == []
  {
    if s != [] {
      WithKeyNone(s[..|s| - 1], key, k);
    }
  }

  lemma WithKeySingle<T>(x: T, key: T -> real, k: real)
    ensures WithKey([x], key, k) == if key(x) == k then [x] else []
  {
    assert [x][..0] == [];
  }

  lemma {:induction false} InsertWithKey<T>(s: seq<T>, x: T, key: T -> real, k: real)
    requires NonIncreasing(s, key)
    ensures WithKey(Insert(s, x, key), key, k)
         == WithKey(s, key, k) + (if key(x) == k then [x] else [])
  {
    if s == [] {
      WithKeySingle(x, key, k);
    } else if key(s[0]) < key(x) {
      InsertFrontWithKey(s, x, key, k);
    } else {
      NonIncreasingTail(s, key);
      InsertWithKey(s[1..], x, key, k);
      InsertBehindWithKey(s, x, key, k);
    }
  }

  /** The step of `InsertWithKey` where `x` goes behind the head. */
  lemma InsertBehindWithKey<T>(s: seq<T>, x: T, key: T -> real, k: real)
    requires s != [] && key(s[0]) >= key(x)
    requires WithKey(Insert(s[1..], x, key), key, k)
          == WithKey(s[1..], key, k) + (if key(x) == k then [x] else [])
    ensures WithKey(Insert(s, x, key), key, k)
         == WithKey(s, key, k) + (if key(x) == k then [x] else [])
  {
    var tail := s[1..];
    var extra := if key(x) == k then [x] else [];
    var rest := Insert(tail, x, key);
    calc {
      WithKey(Insert(s, x, key), key, k);
      WithKey([s[0]] + rest, key, k);
      { WithKeyConcat([s[0]], rest, key, k); }
      WithKey([s[0]], key, k) + WithKey(rest, key, k);
      WithKey([s[0]], key, k) + (WithKey(tail, key, k) + extra);
      (WithKey([s[0]], key, k) + WithKey(tail, key, k)) + extra;
      { WithKeyConcat([s[0]], tail, key, k); assert [s[0]] + tail == s; }
      WithKey(s, key, k) + extra;
    }
  }

  lemma NonIncreasingTail<T>(s: seq<T>, key: T -> real)
    requires s != [] && NonIncreasing(s, key)
    ensures NonIncreasing(s[1..], key)
  {
    var tail := s[1..];
    forall i, j | 0 <= i < j < |tail| ensures key(tail[i]) >= key(tail[j]) {
      assert tail[i] == s[i + 1] && tail[j] == s[j + 1];
    }
  }

  lemma InsertFrontWithKey<T>(s: seq<T>, x: T, key: T -> real, k: real)
    requires NonIncreasing(s, key)
    requires s != [] && key(s[0]) < key(x)
    ensures WithKey([x] + s, key, k) == WithKey(s, key, k) + (if key(x) == k then [x] else [])
  {
    WithKeySingle(x, key, k);
    WithKeyConcat([x], s, key, k);
    if key(x) == k {
      WithKeyNone(s, key, k);
    }
  }

  /** Stability: among equal keys the sort keeps the input order. */
  lemma {:induction false} SortDescStable<T>(s: seq<T>, key: T -> real, k: real)
    ensures WithKey(SortDesc(s, key), key, k) == WithKey(s, key, k)
  {
    if s != [] {
      var init := s[..|s| - 1];
      SortDescStable(init, key, k);
      SortDescOrdered(init, key);
      InsertWithKey(SortDesc(init, key), s[|s| - 1], key, k);
    }
  }

  /** `SortDescStable` for every key at once. */
  lemma SortDescStableAll<T>(s: seq<T>, key: T -> real)
    ensures forall k :: WithKey(SortDesc(s, key), key, k) == WithKey(s, key, k)
  {
    forall k ensures WithKey(SortDesc(s, key), key, k) == WithKey(s, key, k) {
      SortDescStable(s, key, k);
    }
  }

  /** The first `n` elements, or all of them when there are fewer (`s[:n]`). */
  function Take<T>(s: seq<T>, n: nat): (r: seq<T>)
    ensures |r| == if n < |s| then n else |s|
    ensures r == s[..|r|]
  {
    if n < |s| then s[..n] else s
  }

  /** The last `n` elements, or all of them when there are fewer (`s[-n:]` for n >= 1). */
  function TakeLast<T>(s: seq<T>, n: nat): (r: seq<T>)
    ensures |r| == if n < |s| then n else |s|
    ensures r == s[|s| - |r|..]
  {
    if n < |s| then s[|s| - n..] else s
  }
}
