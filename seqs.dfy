/** Sequence operations that the storefront uses through JavaScript's array
    methods (`filter`, `map`, `findIndex`, `find`), and the facts about them
    that the rest of the model relies on. */
module Seqs {
  import opened Wrappers

  /** `xs.filter(keep)`: the elements of `xs` that satisfy `keep`, in order. */
  function Filter<T>(xs: seq<T>, keep: T -> bool): (r: seq<T>)
    ensures |r| <= |xs|
    ensures forall i :: 0 <= i < |r| ==> keep(r[i]) && r[i] in xs
    ensures forall i :: 0 <= i < |xs| && keep(xs[i]) ==> xs[i] in r
    decreases |xs|
  {
    if xs == [] then []
    else if keep(xs[0]) then [xs[0]] + Filter(xs[1..], keep)
    else Filter(xs[1..], keep)
  }

  /** `s` is obtained from `t` by deleting elements, keeping the order. */
  ghost predicate IsSubsequence<T>(s: seq<T>, t: seq<T>)
    decreases |t|
  {
    s == [] ||
    (t != [] && if s[0] == t[0] then IsSubsequence(s[1..], t[1..]) else IsSubsequence(s, t[1..]))
  }

  /** Every adjacent-or-not pair, taken in order, satisfies `ok`. */
  ghost predicate Pairwise<T>(xs: seq<T>, ok: (T, T) -> bool) {
    forall i, j :: 0 <= i < j < |xs| ==> ok(xs[i], xs[j])
  }

  /** `filter` keeps the order of what it keeps. */
  lemma {:induction false} FilterIsSubsequence<T>(xs: seq<T>, keep: T -> bool)
    ensures IsSubsequence(Filter(xs, keep), xs)
    decreases |xs|
  {
    if xs != [] {
      var r := Filter(xs, keep);
      FilterIsSubsequence(xs[1..], keep);
      if keep(xs[0]) {
        assert r[1..] == Filter(xs[1..], keep);
      } else if r != [] {
        assert r[0] in r;
        assert r[0] != xs[0];
      }
    }
  }

  /** A filter that rejects nothing returns its input unchanged. */
  lemma {:induction false} FilterKeepsAll<T>(xs: seq<T>, keep: T -> bool)
    requires forall i :: 0 <= i < |xs| ==> keep(xs[i])
    ensures Filter(xs, keep) == xs
    decreases |xs|
  {
    if xs != [] {
      FilterKeepsAll(xs[1..], keep);
    }
  }

  /** `filter` keeps every copy of what it keeps and drops every copy of the
      rest. */
  lemma {:induction false} FilterMultiset<T>(xs: seq<T>, keep: T -> bool)
    ensures forall x :: multiset(Filter(xs, keep))[x] == if keep(x) then multiset(xs)[x] else 0
    decreases |xs|
  {
    if xs != [] {
      FilterMultiset(xs[1..], keep);
      assert xs == [xs[0]] + xs[1..];
    }
  }

  /** Filtering distributes over concatenation. */
  lemma {:induction false} FilterAppend<T>(xs: seq<T>, ys: seq<T>, keep: T -> bool)
    ensures Filter(xs + ys, keep) == Filter(xs, keep) + Filter(ys, keep)
    decreases |xs|
  {
    if xs == [] {
      assert xs + ys == ys;
    } else {
      assert (xs + ys)[1..] == xs[1..] + ys;
      FilterAppend(xs[1..], ys, keep);
    }
  }

  /** A pairwise property of a sequence holds of every filter of it. */
  lemma {:induction false} FilterKeepsPairwise<T>(xs: seq<T>, keep: T -> bool, ok: (T, T) -> bool)
    requires Pairwise(xs, ok)
    ensures Pairwise(Filter(xs, keep), ok)
    decreases |xs|
  {
    if xs != [] {
      var rest := Filter(xs[1..], keep);
      assert Pairwise(xs[1..], ok) by {
        forall i, j | 0 <= i < j < |xs| - 1 ensures ok(xs[1..][i], xs[1..][j]) {
          assert ok(xs[i + 1], xs[j + 1]);
        }
      }
      FilterKeepsPairwise(xs[1..], keep, ok);
      if keep(xs[0]) {
        var r := [xs[0]] + rest;
        forall i, j | 0 <= i < j < |r| ensures ok(r[i], r[j]) {
          if i == 0 {
            assert r[j] == rest[j - 1] && rest[j - 1] in rest;
            var m :| 0 <= m < |xs[1..]| && xs[1..][m] == r[j];
            assert ok(xs[0], xs[m + 1]);
          } else {
            assert r[i] == rest[i - 1] && r[j] == rest[j - 1];
          }
        }
      }
    }
  }

  /** `xs.map(x => hit(x) ? f(x) : x)`: `f` applied to exactly the hits. */
  function UpdateWhere<T>(xs: seq<T>, hit: T -> bool, f: T -> T): (r: seq<T>)
    ensures |r| == |xs|
    ensures forall i :: 0 <= i < |xs| ==> r[i] == if hit(xs[i]) then f(xs[i]) else xs[i]
    decreases |xs|
  {
    if xs == [] then []
    else [if hit(xs[0]) then f(xs[0]) else xs[0]] + UpdateWhere(xs[1..], hit, f)
  }

  /** `xs.findIndex(p)`: the first index whose element satisfies `p`, or -1. */
  function IndexWhere<T>(xs: seq<T>, p: T -> bool): (k: int)
    ensures -1 <= k < |xs|
    ensures 0 <= k ==> p(xs[k]) && forall j :: 0 <= j < k ==> !p(xs[j])
    ensures k == -1 <==> forall j :: 0 <= j < |xs| ==> !p(xs[j])
    decreases |xs|
  {
    if xs == [] then -1
    else if p(xs[0]) then 0
    else
      var k := IndexWhere(xs[1..], p);
      if k == -1 then -1 else k + 1
  }

  /** `xs.find(p)`: the first element that satisfies `p`, or none. */
  function FindWhere<T>(xs: seq<T>, p: T -> bool): (r: Option<T>)
    ensures r.Some? <==> exists i :: 0 <= i < |xs| && p(xs[i])
    ensures r.Some? ==> exists i :: 0 <= i < |xs| && xs[i] == r.value && p(xs[i]) &&
                                    forall j :: 0 <= j < i ==> !p(xs[j])
  {
    var k := IndexWhere(xs, p);
    if k == -1 then None else Some(xs[k])
  }

  /** The first element `filter` keeps is the one `find` finds. */
  lemma {:induction false} FilterHeadIsFind<T>(xs: seq<T>, p: T -> bool)
    ensures |Filter(xs, p)| > 0 <==> FindWhere(xs, p).Some?
    ensures |Filter(xs, p)| > 0 ==> Filter(xs, p)[0] == FindWhere(xs, p).value
    decreases |xs|
  {
    if xs != [] && !p(xs[0]) {
      FilterHeadIsFind(xs[1..], p);
      var r, r' := FindWhere(xs, p), FindWhere(xs[1..], p);
      if r.Some? {
        var i :| 0 <= i < |xs| && xs[i] == r.value && p(xs[i]) && forall j :: 0 <= j < i ==> !p(xs[j]);
        assert p(xs[1..][i - 1]);
        var i' :| 0 <= i' < |xs[1..]| && xs[1..][i'] == r'.value && p(xs[1..][i']) && forall j :: 0 <= j < i' ==> !p(xs[1..][j]);
        assert xs[1..][i'] == xs[i' + 1];
        assert p(xs[i' + 1]);
        assert i' + 1 == i;
      } else {
        assert forall j :: 0 <= j < |xs[1..]| ==> !p(xs[1..][j]) by {
          forall j | 0 <= j < |xs[1..]| ensures !p(xs[1..][j]) {
            assert xs[1..][j] == xs[j + 1];
          }
        }
      }
    }
  }
}
