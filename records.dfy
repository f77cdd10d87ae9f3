/**
 * The list rules every store and page builds on: `Array.prototype.filter`, `findIndex`/`find`,
 * and the `reduce((max, x) => Math.max(max, x.id), 0) + 1` id generator.
 */
module Records {
  import opened Wrappers

  /** `r` can be obtained from `xs` by deleting elements, keeping the rest in order. */
  ghost predicate IsSubsequence<T>(r: seq<T>, xs: seq<T>)
    decreases |xs|
  {
    r == [] ||
    (xs != [] && ((r[0] == xs[0] && IsSubsequence(r[1..], xs[1..])) || IsSubsequence(r, xs[1..])))
  }

  /** `xs.filter(keep)`: the kept elements, in their original order. */
  function Filter<T>(xs: seq<T>, keep: T -> bool): (r: seq<T>)
    ensures |r| <= |xs|
    ensures forall i :: 0 <= i < |r| ==> keep(r[i])
  {
    if xs == [] then []
    else if keep(xs[0]) then [xs[0]] + Filter(xs[1..], keep)
    else Filter(xs[1..], keep)
  }

  /** Filtering loses no kept element and invents none: each kept value keeps its multiplicity. */
  lemma {:induction false} FilterMultiset<T(!new)>(xs: seq<T>, keep: T -> bool)
    ensures forall x :: multiset(Filter(xs, keep))[x] == if keep(x) then multiset(xs)[x] else 0
    decreases |xs|
  {
    if xs != [] {
      FilterMultiset(xs[1..], keep);
      assert xs == [xs[0]] + xs[1..];
      assert multiset(xs) == multiset{xs[0]} + multiset(xs[1..]);
    }
  }

  /** ... and keeps the original order. */
  lemma {:induction false} FilterSubsequence<T>(xs: seq<T>, keep: T -> bool)
    ensures IsSubsequence(Filter(xs, keep), xs)
    decreases |xs|
  {
    if xs != [] {
      FilterSubsequence(xs[1..], keep);
      if keep(xs[0]) {
        assert ([xs[0]] + Filter(xs[1..], keep))[1..] == Filter(xs[1..], keep);
      }
    }
  }

  lemma FilterMembership<T(!new)>(xs: seq<T>, keep: T -> bool, x: T)
    ensures x in Filter(xs, keep) <==> x in xs && keep(x)
  {
    FilterMultiset(xs, keep);
    assert x in Filter(xs, keep) <==> multiset(Filter(xs, keep))[x] > 0;
  }

  lemma FilterMembers<T(!new)>(xs: seq<T>, keep: T -> bool)
    ensures forall x :: x in Filter(xs, keep) <==> x in xs && keep(x)
  {
    forall x ensures x in Filter(xs, keep) <==> x in xs && keep(x) {
      FilterMembership(xs, keep, x);
    }
  }

  /** Filtering distributes over concatenation: the order of what is kept never changes. */
  lemma {:induction false} FilterAppend<T>(xs: seq<T>, ys: seq<T>, keep: T -> bool)
    ensures Filter(xs + ys, keep) == Filter(xs, keep) + Filter(ys, keep)
    decreases |xs|
  {
    if xs != [] {
      assert (xs + ys)[1..] == xs[1..] + ys;
      FilterAppend(xs[1..], ys, keep);
    } else {
      assert xs + ys == ys;
    }
  }

  /** Filtering keeps everything exactly when every element passes. */
  lemma {:induction false} FilterAll<T>(xs: seq<T>, keep: T -> bool)
    requires forall i :: 0 <= i < |xs| ==> keep(xs[i])
    ensures Filter(xs, keep) == xs
    decreases |xs|
  {
    if xs != [] {
      FilterAll(xs[1..], keep);
    }
  }

  /** Only what `keep` says about the elements present matters. */
  lemma {:induction false} FilterCongruent<T>(xs: seq<T>, p: T -> bool, q: T -> bool)
    requires forall i :: 0 <= i < |xs| ==> p(xs[i]) == q(xs[i])
    ensures Filter(xs, p) == Filter(xs, q)
    decreases |xs|
  {
    if xs != [] {
      FilterCongruent(xs[1..], p, q);
    }
  }

  /** Filtering twice is filtering once by both conditions. */
  lemma {:induction false} FilterFilter<T>(xs: seq<T>, p: T -> bool, q: T -> bool, both: T -> bool)
    requires forall x :: both(x) == (p(x) && q(x))
    ensures Filter(Filter(xs, p), q) == Filter(xs, both)
    decreases |xs|
  {
    if xs != [] {
      FilterFilter(xs[1..], p, q, both);
    }
  }

  /** The number of elements that pass `keep`. */
  function Count<T>(xs: seq<T>, keep: T -> bool): (n: nat)
    ensures n <= |xs|
  {
    if xs == [] then 0 else (if keep(xs[0]) then 1 else 0) + Count(xs[1..], keep)
  }

  lemma {:induction false} FilterLength<T>(xs: seq<T>, keep: T -> bool)
    ensures |Filter(xs, keep)| == Count(xs, keep)
    decreases |xs|
  {
    if xs != [] {
      FilterLength(xs[1..], keep);
    }
  }

  /** `xs.findIndex(matches)`, with `None` for `-1`: the FIRST matching position. */
  function FirstIndex<T>(xs: seq<T>, matches: T -> bool): (r: Option<nat>)
    ensures r.Some? ==> r.value < |xs| && matches(xs[r.value])
    ensures r.Some? ==> forall j :: 0 <= j < r.value ==> !matches(xs[j])
    ensures r.None? <==> forall j :: 0 <= j < |xs| ==> !matches(xs[j])
  {
    if xs == [] then None
    else if matches(xs[0]) then Some(0)
    else match FirstIndex(xs[1..], matches)
      case None => None
      case Some(i) => Some(i + 1)
  }

  /** `xs.find(matches)`: the first matching element. */
  function Find<T>(xs: seq<T>, matches: T -> bool): (r: Option<T>)
    ensures r.Some? <==> exists i :: 0 <= i < |xs| && matches(xs[i])
    ensures r.Some? ==> r.value in xs && matches(r.value)
    ensures r.Some? ==> exists k :: 0 <= k < |xs| && xs[k] == r.value && matches(xs[k]) &&
                                    forall j :: 0 <= j < k ==> !matches(xs[j])
  {
    match FirstIndex(xs, matches)
    case None => None
    case Some(i) => Some(xs[i])
  }

  /** `xs.reduce((max, id) => Math.max(max, id), acc)`, read left to right. */
  function MaxFrom(acc: int, ids: seq<int>): (m: int)
    ensures m >= acc
    ensures forall i :: 0 <= i < |ids| ==> ids[i] <= m
    ensures m == acc || m in ids
    decreases |ids|
  {
    if ids == [] then acc
    else
      var m := MaxFrom(if ids[0] > acc then ids[0] else acc, ids[1..]);
      assert forall x :: x in ids[1..] ==> x in ids;
      m
  }

  /** `generateNextId`: one more than the largest id, where the fold starts from 0. */
  function NextId(ids: seq<int>): int
  {
    MaxFrom(0, ids) + 1
  }

  /** The new id is positive and larger than every existing id, so it is fresh. */
  lemma NextIdFresh(ids: seq<int>)
    ensures NextId(ids) >= 1
    ensures forall i :: 0 <= i < |ids| ==> ids[i] < NextId(ids)
    ensures NextId(ids) !in ids
  {
  }

  /** ... and it is exactly max(0, ids) + 1: the least value above 0 and above every id. */
  lemma NextIdLeast(ids: seq<int>, k: int)
    requires k >= 1
    requires forall i :: 0 <= i < |ids| ==> ids[i] < k
    ensures NextId(ids) <= k
  {
  }

  lemma NextIdEmpty()
    ensures NextId([]) == 1
  {
  }

  /** Whether all elements have pairwise distinct keys. */
  predicate UniqueBy<T>(xs: seq<T>, key: T -> int)
  {
    forall i, j :: 0 <= i < j < |xs| ==> key(xs[i]) != key(xs[j])
  }

  /** The keys of the records, in order: `xs.map(key)`. */
  function Keys<T>(xs: seq<T>, key: T -> int): (r: seq<int>)
    ensures |r| == |xs|
    ensures forall i :: 0 <= i < |xs| ==> r[i] == key(xs[i])
  {
    seq(|xs|, i requires 0 <= i < |xs| => key(xs[i]))
  }

  /** The keys of the listed records as a set: `new Set(xs.map(key))`. */
  function KeySet<T, K(==,!new)>(xs: seq<T>, key: T -> K): (keys: set<K>)
    ensures forall k :: k in keys <==> exists i :: 0 <= i < |xs| && key(xs[i]) == k
    ensures |keys| <= |xs|
  {
    if xs == [] then {} else {key(xs[0])} + KeySet(xs[1..], key)
  }

  /** Deleting elements keeps keys pairwise distinct. */
  lemma {:induction false} SubsequenceKeepsUnique<T>(r: seq<T>, xs: seq<T>, key: T -> int)
    requires IsSubsequence(r, xs)
    requires UniqueBy(xs, key)
    ensures UniqueBy(r, key)
    decreases |xs|
  {
    if r != [] {
      if r[0] == xs[0] && IsSubsequence(r[1..], xs[1..]) {
        SubsequenceKeepsUnique(r[1..], xs[1..], key);
        SubsequenceMembers(r[1..], xs[1..]);
        forall j | 0 < j < |r| ensures key(r[0]) != key(r[j]) {
          assert r[1..][j - 1] in xs[1..];
        }
      } else {
        SubsequenceKeepsUnique(r, xs[1..], key);
      }
    }
  }

  lemma {:induction false} SubsequenceMembers<T>(r: seq<T>, xs: seq<T>)
    requires IsSubsequence(r, xs)
    ensures forall x :: x in r ==> x in xs
    decreases |xs|
  {
    if r != [] {
      if r[0] == xs[0] && IsSubsequence(r[1..], xs[1..]) {
        SubsequenceMembers(r[1..], xs[1..]);
        assert r == [r[0]] + r[1..];
      } else {
        SubsequenceMembers(r, xs[1..]);
      }
    }
  }

  /** Filtering keeps keys unique. */
  lemma FilterKeepsUnique<T>(xs: seq<T>, keep: T -> bool, key: T -> int)
    requires UniqueBy(xs, key)
    ensures UniqueBy(Filter(xs, keep), key)
  {
    FilterSubsequence(xs, keep);
    SubsequenceKeepsUnique(Filter(xs, keep), xs, key);
  }

  /** Appending a record under the next id keeps keys unique: the id generator never collides. */
  lemma AppendNextIdKeepsUnique<T>(xs: seq<T>, key: T -> int, x: T)
    requires UniqueBy(xs, key)
    requires key(x) == NextId(Keys(xs, key))
    ensures UniqueBy(xs + [x], key)
  {
    NextIdFresh(Keys(xs, key));
  }

  /** Replacing a record by one with the same key keeps keys unique. */
  lemma ReplaceKeepsUnique<T>(xs: seq<T>, key: T -> int, k: nat, x: T)
    requires UniqueBy(xs, key)
    requires k < |xs| && key(x) == key(xs[k])
    ensures UniqueBy(xs[k := x], key)
  {
  }

  /** Removing every record with a key that occurs leaves strictly fewer records, none with that key. */
  lemma {:induction false} RemoveKeyShrinks<T>(xs: seq<T>, key: T -> int, id: int, k: nat)
    requires k < |xs| && key(xs[k]) == id
    ensures var r := Filter(xs, (x: T) => key(x) != id);
            |r| < |xs| && forall i :: 0 <= i < |r| ==> key(r[i]) != id
    decreases |xs|
  {
    if k > 0 {
      RemoveKeyShrinks(xs[1..], key, id, k - 1);
    }
  }

  /** A `Set` toggle (`has` ? `delete` : `add`): membership of exactly `x` flips. */
  function Toggled<T(!new)>(s: set<T>, x: T): (r: set<T>)
    ensures x in r <==> x !in s
    ensures forall y :: y != x ==> (y in r <==> y in s)
  {
    if x in s then s - {x} else s + {x}
  }

  /** Toggling the same element twice restores the set. */
  lemma ToggleTwice<T(!new)>(s: set<T>, x: T)
    ensures Toggled(Toggled(s, x), x) == s
  {
  }
}
