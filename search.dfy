/** The two search shapes the station directory uses over its ordered list:
    `next(item for item in xs if p(item))` (the first match, or
    `StopIteration`) and `(item for item in xs if p(item))` (every match, in
    order). */
module Search {
  import opened Wrappers

  /** `k` is the position of the first element of `xs` that satisfies `p`. */
  ghost predicate IsFirstMatch<T>(xs: seq<T>, p: T -> bool, k: int) {
    0 <= k < |xs| && p(xs[k]) && forall j :: 0 <= j < k ==> !p(xs[j])
  }

  /** The first element satisfying `p`; `None` stands for `StopIteration`. */
  function First<T>(xs: seq<T>, p: T -> bool): (r: Option<T>)
    ensures r.None? <==> forall i :: 0 <= i < |xs| ==> !p(xs[i])
    ensures r.Some? ==> exists k :: IsFirstMatch(xs, p, k) && xs[k] == r.value
  {
    if xs == [] then None
    else if p(xs[0]) then
      assert IsFirstMatch(xs, p, 0);
      Some(xs[0])
    else
      var r := First(xs[1..], p);
      assert r.Some? ==> exists k :: IsFirstMatch(xs, p, k) && xs[k] == r.value by {
        if r.Some? {
          var k :| IsFirstMatch(xs[1..], p, k) && xs[1..][k] == r.value;
          assert IsFirstMatch(xs, p, k + 1);
        }
      }
      r
  }

  /** There is only one first match. */
  lemma FirstMatchUnique<T>(xs: seq<T>, p: T -> bool, k: int, m: int)
    requires IsFirstMatch(xs, p, k) && IsFirstMatch(xs, p, m)
    ensures k == m
  {
  }

  /** `First` returns the element at the first matching position. */
  lemma FirstAt<T>(xs: seq<T>, p: T -> bool, k: int)
    requires IsFirstMatch(xs, p, k)
    ensures First(xs, p) == Some(xs[k])
  {
    var m :| IsFirstMatch(xs, p, m) && xs[m] == First(xs, p).value;
    FirstMatchUnique(xs, p, k, m);
  }

  /** Every element satisfying `p`, in the order of `xs`. */
  function Filter<T>(xs: seq<T>, p: T -> bool): (r: seq<T>)
    ensures |r| <= |xs|
    ensures forall i :: 0 <= i < |r| ==> p(r[i])
    ensures forall i :: 0 <= i < |xs| && p(xs[i]) ==> xs[i] in r
    ensures forall x :: x in r ==> x in xs
  {
    if xs == [] then []
    else
      var rest := Filter(xs[1..], p);
      assert forall i :: 1 <= i < |xs| ==> xs[i] == xs[1..][i - 1];
      if p(xs[0]) then [xs[0]] + rest else rest
  }

  /** `sub` is obtained from `xs` by deleting elements. */
  ghost predicate IsSubsequence<T>(sub: seq<T>, xs: seq<T>)
    decreases |xs|
  {
    sub == [] ||
    (xs != [] &&
     ((sub[0] == xs[0] && IsSubsequence(sub[1..], xs[1..])) ||
      IsSubsequence(sub, xs[1..])))
  }

  lemma {:induction false} FilterIsSubsequence<T>(xs: seq<T>, p: T -> bool)
    ensures IsSubsequence(Filter(xs, p), xs)
    decreases |xs|
  {
    if xs != [] {
      FilterIsSubsequence(xs[1..], p);
      if p(xs[0]) {
        assert Filter(xs, p)[1..] == Filter(xs[1..], p);
      }
    }
  }

  /** Filtering keeps each value as often as it occurs when it satisfies
      `p`, and drops it otherwise. */
  lemma {:induction false} FilterCounts<T>(xs: seq<T>, p: T -> bool, x: T)
    ensures multiset(Filter(xs, p))[x] == if p(x) then multiset(xs)[x] else 0
    decreases |xs|
  {
    if xs != [] {
      FilterCounts(xs[1..], p, x);
      assert xs == [xs[0]] + xs[1..];
      assert multiset(xs) == multiset([xs[0]]) + multiset(xs[1..]);
      if p(xs[0]) {
        assert multiset(Filter(xs, p)) == multiset([xs[0]]) + multiset(Filter(xs[1..], p));
      }
    }
  }

  /** A predicate every element satisfies filters nothing out. */
  lemma {:induction false} FilterAll<T>(xs: seq<T>, p: T -> bool)
    requires forall i :: 0 <= i < |xs| ==> p(xs[i])
    ensures Filter(xs, p) == xs
    decreases |xs|
  {
    if xs != [] {
      FilterAll(xs[1..], p);
      assert [xs[0]] + xs[1..] == xs;
    }
  }
}
