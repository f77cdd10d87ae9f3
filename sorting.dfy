/**
 * The `Array.prototype.sort` calls with a "newest first" comparator (`b.date - a.date`), as an
 * insertion sort on sequences by an integer key.
 */
module Sorting {
  import opened Records

  predicate NonIncreasing<T>(xs: seq<T>, key: T -> int) {
    forall i, j :: 0 <= i < j < |xs| ==> key(xs[i]) >= key(xs[j])
  }

  /** Puts `x` in front of the first element whose key is not larger than its own. */
  function Insert<T>(x: T, xs: seq<T>, key: T -> int): (r: seq<T>)
    ensures |r| == |xs| + 1
    ensures multiset(r) == multiset(xs) + multiset{x}
  {
    if xs == [] || key(xs[0]) <= key(x) then [x] + xs
    else
      assert xs == [xs[0]] + xs[1..];
      [xs[0]] + Insert(x, xs[1..], key)
  }

  /** A bound on the keys of `x` and of every element of `xs` bounds every key of the insertion. */
  lemma {:induction false} InsertBounded<T>(x: T, xs: seq<T>, key: T -> int, b: int)
    requires b >= key(x) && forall i :: 0 <= i < |xs| ==> b >= key(xs[i])
    ensures forall i :: 0 <= i < |Insert(x, xs, key)| ==> b >= key(Insert(x, xs, key)[i])
  {
    var r := Insert(x, xs, key);
    if xs != [] && key(xs[0]) > key(x) {
      InsertBounded(x, xs[1..], key, b);
      forall i | 0 <= i < |r|
        ensures b >= key(r[i])
      {
        if i > 0 {
          assert r[i] == Insert(x, xs[1..], key)[i - 1];
        }
      }
    } else {
      forall i | 0 <= i < |r|
        ensures b >= key(r[i])
      {
        if i > 0 {
          assert r[i] == xs[i - 1];
        }
      }
    }
  }

  /** Inserting into a newest-first list keeps it newest first. */
  lemma {:induction false} InsertKeepsOrder<T>(x: T, xs: seq<T>, key: T -> int)
    requires NonIncreasing(xs, key)
    ensures NonIncreasing(Insert(x, xs, key), key)
  {
    if xs != [] && key(xs[0]) > key(x) {
      var rest := Insert(x, xs[1..], key);
      InsertKeepsOrder(x, xs[1..], key);
      forall i | 0 <= i < |xs[1..]|
        ensures key(xs[0]) >= key(xs[1..][i])
      {
        assert xs[1..][i] == xs[i + 1];
      }
      InsertBounded(x, xs[1..], key, key(xs[0]));
      var r := [xs[0]] + rest;
      forall i, j | 0 <= i < j < |r|
        ensures key(r[i]) >= key(r[j])
      {
        assert r[j] == rest[j - 1];
        if i > 0 {
          assert r[i] == rest[i - 1];
        }
      }
    }
  }

  /** The sorted list: a rearrangement of the input, newest (largest key) first. */
  function SortDesc<T>(xs: seq<T>, key: T -> int): (r: seq<T>)
    ensures |r| == |xs|
    ensures multiset(r) == multiset(xs)
    ensures NonIncreasing(r, key)
  {
    if xs == [] then []
    else
      assert xs == [xs[0]] + xs[1..];
      InsertKeepsOrder(xs[0], SortDesc(xs[1..], key), key);
      Insert(xs[0], SortDesc(xs[1..], key), key)
  }

  /** A list that is already newest first, ties included, comes back unchanged. */
  lemma {:induction false} SortDescSorted<T>(xs: seq<T>, key: T -> int)
    requires NonIncreasing(xs, key)
    ensures SortDesc(xs, key) == xs
  {
    if xs != [] {
      assert NonIncreasing(xs[1..], key) by {
        forall i, j | 0 <= i < j < |xs[1..]|
          ensures key(xs[1..][i]) >= key(xs[1..][j])
        {
          assert xs[1..][i] == xs[i + 1] && xs[1..][j] == xs[j + 1];
        }
      }
      SortDescSorted(xs[1..], key);
      assert xs == [xs[0]] + xs[1..];
    }
  }

  /** The elements whose key is `k`. */
  function KeyIs<T>(key: T -> int, k: int): T -> bool {
    (y: T) => key(y) == k
  }

  /** Insertion only moves `x` past larger keys, so each key's elements stay in order. */
  lemma {:induction false} InsertKeepsTies<T>(x: T, xs: seq<T>, key: T -> int, k: int)
    ensures Filter(Insert(x, xs, key), KeyIs(key, k)) == Filter([x] + xs, KeyIs(key, k))
    decreases |xs|
  {
    if xs != [] && key(xs[0]) > key(x) {
      InsertKeepsTies(x, xs[1..], key, k);
      assert ([xs[0]] + Insert(x, xs[1..], key))[1..] == Insert(x, xs[1..], key);
      assert ([x] + xs[1..])[1..] == xs[1..];
      assert ([x] + xs)[1..] == xs;
    }
  }

  /**
   * The sort is stable, like `Array.prototype.sort`: the elements of each key come out in the order
   * they went in.
   */
  lemma {:induction false} SortDescStable<T>(xs: seq<T>, key: T -> int, k: int)
    ensures Filter(SortDesc(xs, key), KeyIs(key, k)) == Filter(xs, KeyIs(key, k))
    decreases |xs|
  {
    if xs != [] {
      var rest := SortDesc(xs[1..], key);
      SortDescStable(xs[1..], key, k);
      InsertKeepsTies(xs[0], rest, key, k);
      assert ([xs[0]] + rest)[1..] == rest;
      assert xs == [xs[0]] + xs[1..];
    }
  }
}
