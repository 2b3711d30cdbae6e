/**
 * Python's `list.sort(key=k, reverse=True)` over string keys, as a
 * stable insertion sort: largest key first, and elements with equal keys
 * keep their original relative order.
 */
module Sorting {
  import opened Text

  /** No element's key is smaller than a later element's key. */
  ghost predicate SortedDesc<T>(xs: seq<T>, key: T -> string) {
    forall i, j :: 0 <= i < j < |xs| ==> !StrLess(key(xs[i]), key(xs[j]))
  }

  /** Places `x` in front of the first element of `ys` whose key is not larger than `x`'s key. */
  function InsertDesc<T>(x: T, ys: seq<T>, key: T -> string): (r: seq<T>)
    ensures multiset(r) == multiset(ys) + multiset{x}
    ensures |r| == |ys| + 1
  {
    if ys == [] then [x]
    else if !StrLess(key(x), key(ys[0])) then [x] + ys
    else
      assert ys == [ys[0]] + ys[1..];
      [ys[0]] + InsertDesc(x, ys[1..], key)
  }

  function SortDesc<T>(xs: seq<T>, key: T -> string): (r: seq<T>)
    ensures multiset(r) == multiset(xs)
    ensures |r| == |xs|
  {
    if xs == [] then []
    else
      assert xs == [xs[0]] + xs[1..];
      InsertDesc(xs[0], SortDesc(xs[1..], key), key)
  }

  lemma {:induction false} InsertDescSorted<T>(x: T, ys: seq<T>, key: T -> string)
    requires SortedDesc(ys, key)
    ensures SortedDesc(InsertDesc(x, ys, key), key)
  {
    var r := InsertDesc(x, ys, key);
    if ys == [] {
    } else if !StrLess(key(x), key(ys[0])) {
      forall j | 0 < j < |r| ensures !StrLess(key(r[0]), key(r[j])) {
        assert r[j] == ys[j - 1];
        if j > 1 {
          StrLeTransitive(key(ys[j - 1]), key(ys[0]), key(x));
        }
      }
    } else {
      var tail := InsertDesc(x, ys[1..], key);
      InsertDescSorted(x, ys[1..], key);
      assert r == [ys[0]] + tail;
      StrLessTrichotomy(key(x), key(ys[0]));
      forall j | 0 <= j < |tail| ensures !StrLess(key(ys[0]), key(tail[j])) {
        assert tail[j] in multiset(tail);
        assert tail[j] == x || tail[j] in multiset(ys[1..]);
        if tail[j] != x {
          var k :| 0 <= k < |ys[1..]| && ys[1..][k] == tail[j];
          assert ys[k + 1] == tail[j];
        }
      }
    }
  }

  lemma {:induction false} SortDescSorted<T>(xs: seq<T>, key: T -> string)
    ensures SortedDesc(SortDesc(xs, key), key)
  {
    if xs != [] {
      SortDescSorted(xs[1..], key);
      InsertDescSorted(xs[0], SortDesc(xs[1..], key), key);
    }
  }

  /** The elements of `xs` whose key is `k`, in their order in `xs`. */
  function WithKey<T>(xs: seq<T>, key: T -> string, k: string): seq<T> {
    if xs == [] then []
    else (if key(xs[0]) == k then [xs[0]] else []) + WithKey(xs[1..], key, k)
  }

  lemma WithKeyCons<T>(y: T, t: seq<T>, key: T -> string, k: string)
    ensures WithKey([y] + t, key, k) == (if key(y) == k then [y] else []) + WithKey(t, key, k)
  {
    assert ([y] + t)[1..] == t;
  }

  /** One step of `InsertDesc` passing over an element with a larger key. */
  lemma InsertDescSkips<T>(x: T, ys: seq<T>, key: T -> string, k: string)
    requires ys != [] && StrLess(key(x), key(ys[0]))
    requires WithKey(InsertDesc(x, ys[1..], key), key, k) == (if key(x) == k then [x] else []) + WithKey(ys[1..], key, k)
    ensures WithKey(InsertDesc(x, ys, key), key, k) == (if key(x) == k then [x] else []) + WithKey(ys, key, k)
  {
    var tail := InsertDesc(x, ys[1..], key);
    var here: seq<T> := if key(x) == k then [x] else [];
    var head: seq<T> := if key(ys[0]) == k then [ys[0]] else [];
    var rest := WithKey(ys[1..], key, k);
    assert head + (here + rest) == here + (head + rest) by {
      StrLessTrichotomy(key(x), key(ys[0]));
    }
    calc {
      WithKey(InsertDesc(x, ys, key), key, k);
      WithKey([ys[0]] + tail, key, k);
      { WithKeyCons(ys[0], tail, key, k); }
      head + WithKey(tail, key, k);
      head + (here + rest);
      here + (head + rest);
      { WithKeyCons(ys[0], ys[1..], key, k); assert ys == [ys[0]] + ys[1..]; }
      here + WithKey(ys, key, k);
    }
  }

  lemma {:induction false} InsertDescWithKey<T>(x: T, ys: seq<T>, key: T -> string, k: string)
    ensures WithKey(InsertDesc(x, ys, key), key, k) == (if key(x) == k then [x] else []) + WithKey(ys, key, k)
  {
    if ys == [] {
      WithKeyCons(x, [], key, k);
    } else if !StrLess(key(x), key(ys[0])) {
      WithKeyCons(x, ys, key, k);
    } else {
      InsertDescWithKey(x, ys[1..], key, k);
      InsertDescSkips(x, ys, key, k);
    }
  }

  /** Stability: elements with equal keys keep their original relative order. */
  lemma {:induction false} SortDescStable<T>(xs: seq<T>, key: T -> string, k: string)
    ensures WithKey(SortDesc(xs, key), key, k) == WithKey(xs, key, k)
  {
    if xs != [] {
      SortDescStable(xs[1..], key, k);
      InsertDescWithKey(xs[0], SortDesc(xs[1..], key), key, k);
    }
  }

  /**
   * In a sorted sequence the last of the first `n` elements has no smaller
   * key than any element left behind.
   */
  lemma SortedPrefix<T>(xs: seq<T>, key: T -> string, n: nat)
    requires SortedDesc(xs, key) && 0 < n <= |xs|
    ensures forall e :: e in multiset(xs) - multiset(xs[..n]) ==> !StrLess(key(xs[n - 1]), key(e))
  {
    assert xs == xs[..n] + xs[n..];
    assert multiset(xs) == multiset(xs[..n]) + multiset(xs[n..]);
    forall e | e in multiset(xs) - multiset(xs[..n])
      ensures !StrLess(key(xs[n - 1]), key(e))
    {
      assert e in multiset(xs[n..]);
      var j :| 0 <= j < |xs[n..]| && xs[n..][j] == e;
      assert xs[n + j] == e;
    }
  }

  /**
   * The first `n` of a sorted arrangement `sorted` of `xs`: min(n, |xs|)
   * elements of `xs`, largest key first, and all of `xs` when it has no
   * more than `n`.
   */
  lemma TopOfSorted<T>(sorted: seq<T>, xs: seq<T>, key: T -> string, n: nat)
    requires SortedDesc(sorted, key) && multiset(sorted) == multiset(xs)
    ensures var top := PyUpTo(sorted, n);
      && |top| == Min(n, |xs|)
      && SortedDesc(top, key)
      && multiset(top) <= multiset(xs)
      && (|xs| <= n ==> multiset(top) == multiset(xs))
  {
    var top := PyUpTo(sorted, n);
    assert |sorted| == |xs| by {
      assert |multiset(sorted)| == |multiset(xs)|;
    }
    assert sorted == top + sorted[|top|..];
    assert multiset(sorted) == multiset(top) + multiset(sorted[|top|..]);
  }

  lemma SortDescTop<T>(xs: seq<T>, key: T -> string, n: nat)
    ensures var top := PyUpTo(SortDesc(xs, key), n);
      && |top| == Min(n, |xs|)
      && SortedDesc(top, key)
      && multiset(top) <= multiset(xs)
      && (|xs| <= n ==> multiset(top) == multiset(xs))
  {
    SortDescSorted(xs, key);
    TopOfSorted(SortDesc(xs, key), xs, key, n);
  }

  /** No element left out of the first `n` of the sorted sequence has a larger key than the last one kept. */
  lemma SortDescTopRest<T>(xs: seq<T>, key: T -> string, n: nat)
    ensures var top := PyUpTo(SortDesc(xs, key), n);
      top != [] ==> forall e :: e in multiset(xs) - multiset(top) ==> !StrLess(key(top[|top| - 1]), key(e))
  {
    var sorted := SortDesc(xs, key);
    var top := PyUpTo(sorted, n);
    if top != [] {
      SortDescSorted(xs, key);
      SortedPrefix(sorted, key, |top|);
      assert top == sorted[..|top|];
    }
  }

  /** Membership is unchanged by sorting. */
  lemma SortDescMembers<T>(xs: seq<T>, key: T -> string, x: T)
    ensures x in SortDesc(xs, key) <==> x in xs
  {
    assert x in SortDesc(xs, key) <==> x in multiset(SortDesc(xs, key));
  }
}
