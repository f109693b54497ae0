/** The sequence operations the views apply to their query results:
    `filter` (which keeps the order) and a sort with the newest first. */
module Lists {

  /** `filter`: the elements that satisfy `p`, in their original order. */
  function Filter<T>(xs: seq<T>, p: T -> bool): (r: seq<T>)
    ensures |r| <= |xs|
    ensures forall i :: 0 <= i < |r| ==> p(r[i])
    ensures forall i :: 0 <= i < |r| ==> r[i] in xs
    ensures forall i :: 0 <= i < |xs| && p(xs[i]) ==> xs[i] in r
  {
    if xs == [] then []
    else
      var rest := Filter(xs[1..], p);
      assert forall i :: 1 <= i < |xs| ==> xs[i] == xs[1..][i - 1];
      if p(xs[0]) then [xs[0]] + rest else rest
  }

  /** `r` is `xs` with some elements dropped and the rest kept in order. */
  ghost predicate IsSubsequence<T>(r: seq<T>, xs: seq<T>)
    decreases |xs|
  {
    r == [] || (xs != [] && ((r[0] == xs[0] && IsSubsequence(r[1..], xs[1..])) || IsSubsequence(r, xs[1..])))
  }

  /** The first element of a filter result is the first element of the
      input that satisfies the condition. */
  lemma {:induction false} FilterFirst<T>(xs: seq<T>, p: T -> bool) returns (k: nat)
    requires Filter(xs, p) != []
    ensures k < |xs| && Filter(xs, p)[0] == xs[k] && p(xs[k])
    ensures forall j :: 0 <= j < k ==> !p(xs[j])
    decreases |xs|
  {
    if p(xs[0]) {
      k := 0;
    } else {
      var k' := FilterFirst(xs[1..], p);
      k := k' + 1;
    }
  }

  /** The same, as a fact usable inside a function body. */
  lemma FilterHeadIsFirst<T>(xs: seq<T>, p: T -> bool)
    requires Filter(xs, p) != []
    ensures exists k :: 0 <= k < |xs| && Filter(xs, p)[0] == xs[k] && p(xs[k]) &&
                        forall j :: 0 <= j < k ==> !p(xs[j])
  {
    var k := FilterFirst(xs, p);
  }

  /** A filter result is a subsequence of its input. */
  lemma {:induction false} FilterIsSubsequence<T>(xs: seq<T>, p: T -> bool)
    ensures IsSubsequence(Filter(xs, p), xs)
    decreases |xs|
  {
    if xs != [] {
      FilterIsSubsequence(xs[1..], p);
      var r := Filter(xs, p);
      if p(xs[0]) {
        assert r[0] == xs[0] && r[1..] == Filter(xs[1..], p);
      }
    }
  }

  /** Filtering distributes over concatenation, so the filter keeps the
      relative order of any two parts of its input. */
  lemma {:induction false} FilterAppend<T>(xs: seq<T>, ys: seq<T>, p: T -> bool)
    ensures Filter(xs + ys, p) == Filter(xs, p) + Filter(ys, p)
    decreases |xs|
  {
    if xs == [] {
      assert xs + ys == ys;
    } else {
      assert (xs + ys)[0] == xs[0] && (xs + ys)[1..] == xs[1..] + ys;
      FilterAppend(xs[1..], ys, p);
    }
  }

  /** Filtering twice is filtering once by both conditions. */
  lemma {:induction false} FilterFilter<T>(xs: seq<T>, p: T -> bool, q: T -> bool)
    ensures Filter(Filter(xs, p), q) == Filter(xs, x => p(x) && q(x))
    decreases |xs|
  {
    if xs != [] {
      FilterFilter(xs[1..], p, q);
      if p(xs[0]) {
        var f := Filter(xs, p);
        assert f[0] == xs[0] && f[1..] == Filter(xs[1..], p);
      }
    }
  }

  /** Filters by conditions that agree on every element agree. */
  lemma {:induction false} FilterSameCondition<T>(xs: seq<T>, p: T -> bool, q: T -> bool)
    requires forall i :: 0 <= i < |xs| ==> p(xs[i]) == q(xs[i])
    ensures Filter(xs, p) == Filter(xs, q)
    decreases |xs|
  {
    if xs != [] {
      FilterSameCondition(xs[1..], p, q);
    }
  }

  /** Two filters by conditions no element meets at once together keep at
      most every element once. */
  lemma {:induction false} DisjointFiltersCount<T>(xs: seq<T>, p: T -> bool, q: T -> bool)
    requires forall x :: !(p(x) && q(x))
    ensures |Filter(xs, p)| + |Filter(xs, q)| <= |xs|
    decreases |xs|
  {
    if xs != [] {
      DisjointFiltersCount(xs[1..], p, q);
    }
  }

  /** Every sequence is a subsequence of itself. */
  lemma {:induction false} SubsequenceOfItself<T>(xs: seq<T>)
    ensures IsSubsequence(xs, xs)
    decreases |xs|
  {
    if xs != [] {
      SubsequenceOfItself(xs[1..]);
    }
  }

  /** The number of elements that satisfy `p`, counted from the back of
      the sequence (independently of how `Filter` walks it). */
  function CountWhere<T>(xs: seq<T>, p: T -> bool): nat
  {
    if xs == [] then 0
    else CountWhere(xs[..|xs| - 1], p) + (if p(xs[|xs| - 1]) then 1 else 0)
  }

  /** `filter { p }.count` is the number of elements that satisfy `p`. */
  lemma {:induction false} FilterLengthIsCount<T>(xs: seq<T>, p: T -> bool)
    ensures |Filter(xs, p)| == CountWhere(xs, p)
    decreases |xs|
  {
    if xs != [] {
      var init, last := xs[..|xs| - 1], xs[|xs| - 1];
      assert xs == init + [last];
      FilterAppend(init, [last], p);
      assert [last][1..] == [];
      FilterLengthIsCount(init, p);
    }
  }

  /** The position of the first element that satisfies `p` (the `first` of
      a filtered fetch), or `|xs|` when none does. */
  function FirstWhere<T>(xs: seq<T>, p: T -> bool): (i: nat)
    ensures i <= |xs|
    ensures i < |xs| ==> p(xs[i])
    ensures forall j :: 0 <= j < i ==> !p(xs[j])
  {
    if xs == [] then 0
    else if p(xs[0]) then 0
    else 1 + FirstWhere(xs[1..], p)
  }

  /** The elements of `xs` occur in non-increasing order of `key`. */
  ghost predicate SortedDesc<T>(xs: seq<T>, key: T -> int)
  {
    forall i, j :: 0 <= i < j < |xs| ==> key(xs[i]) >= key(xs[j])
  }

  /** Inserts `x` in front of the first element whose key is not greater. */
  function InsertDesc<T(==)>(x: T, xs: seq<T>, key: T -> int): (r: seq<T>)
    requires SortedDesc(xs, key)
    ensures |r| == |xs| + 1
    ensures multiset(r) == multiset(xs) + multiset{x}
    ensures r[0] == x || (xs != [] && r[0] == xs[0])
    ensures SortedDesc(r, key)
  {
    if xs == [] || key(x) >= key(xs[0]) then
      ConsSortedDesc(x, xs, key);
      [x] + xs
    else
      var tail := xs[1..];
      assert SortedDesc(tail, key) by {
        assert forall j :: 0 <= j < |tail| ==> tail[j] == xs[j + 1];
      }
      var rest := InsertDesc(x, tail, key);
      assert xs == [xs[0]] + tail;
      assert tail != [] ==> tail[0] == xs[1];
      ConsSortedDesc(xs[0], rest, key);
      [xs[0]] + rest
  }

  /** An element whose key is at least the first key of a sorted list keeps
      it sorted when put in front. */
  lemma ConsSortedDesc<T>(y: T, ys: seq<T>, key: T -> int)
    requires SortedDesc(ys, key)
    requires ys == [] || key(y) >= key(ys[0])
    ensures SortedDesc([y] + ys, key)
  {
    var r := [y] + ys;
    forall i, j | 0 <= i < j < |r|
      ensures key(r[i]) >= key(r[j])
    {
      assert r[j] == ys[j - 1];
      if i == 0 {
        assert key(ys[0]) >= key(ys[j - 1]) || j == 1;
      } else {
        assert r[i] == ys[i - 1];
      }
    }
  }

  /** `sorted { key($0) > key($1) }`: the same elements, the greatest key first. */
  function SortDesc<T(==)>(xs: seq<T>, key: T -> int): (r: seq<T>)
    ensures |r| == |xs|
    ensures multiset(r) == multiset(xs)
    ensures SortedDesc(r, key)
  {
    if xs == [] then []
    else
      assert xs == [xs[0]] + xs[1..];
      InsertDesc(xs[0], SortDesc(xs[1..], key), key)
  }
}
