/** Filtering a sequence, as `Array.prototype.filter` does, with the facts
    the model uses about it: what it keeps, what it drops, and that it keeps
    the order of what it keeps. */
module Seqs {

  /** `xs.filter(p)`, unfolded from the last element so that a loop over a
      growing prefix can be proved against it. */
  function Filter<T>(xs: seq<T>, p: T -> bool): (r: seq<T>)
    ensures |r| <= |xs|
    ensures forall k :: 0 <= k < |r| ==> p(r[k])
    ensures forall x :: x in r ==> x in xs
    decreases |xs|
  {
    if xs == [] then []
    else Filter(xs[..|xs| - 1], p) + (if p(xs[|xs| - 1]) then [xs[|xs| - 1]] else [])
  }

  /** `a` is `b` with some elements removed, the rest in their order. */
  ghost predicate IsSubseq<T>(a: seq<T>, b: seq<T>)
    decreases |b|
  {
    a == [] ||
    (b != [] &&
     ((a[|a| - 1] == b[|b| - 1] && IsSubseq(a[..|a| - 1], b[..|b| - 1])) ||
      IsSubseq(a, b[..|b| - 1])))
  }

  /** Nothing that passes the test is dropped. */
  lemma {:induction false} FilterKeeps<T>(xs: seq<T>, p: T -> bool, x: T)
    requires x in xs && p(x)
    ensures x in Filter(xs, p)
    decreases |xs|
  {
    var init := xs[..|xs| - 1];
    if x != xs[|xs| - 1] {
      assert xs == init + [xs[|xs| - 1]];
      assert x in init;
      FilterKeeps(init, p, x);
    }
  }

  /** A single element is kept exactly when it passes. */
  lemma FilterSingleton<T>(x: T, p: T -> bool)
    ensures Filter([x], p) == if p(x) then [x] else []
  {
    assert [x][..0] == [];
  }

  /** An element that fails the test makes no difference, wherever it stands. */
  lemma {:induction false} FilterDropsFailing<T>(xs: seq<T>, x: T, ys: seq<T>, p: T -> bool)
    requires !p(x)
    ensures Filter(xs + [x] + ys, p) == Filter(xs + ys, p)
  {
    FilterAppend(xs + [x], ys, p);
    FilterAppend(xs, [x], p);
    FilterAppend(xs, ys, p);
    FilterSingleton(x, p);
  }

  /** Filtering a four-element sequence, element by element. */
  lemma {:induction false} FilterFour<T>(a: T, b: T, c: T, d: T, p: T -> bool)
    ensures Filter([a, b, c, d], p) ==
            (if p(a) then [a] else []) + (if p(b) then [b] else []) +
            (if p(c) then [c] else []) + (if p(d) then [d] else [])
  {
    FilterSingleton(a, p);
    FilterSingleton(b, p);
    FilterSingleton(c, p);
    FilterSingleton(d, p);
    assert [a] + [b] == [a, b];
    FilterAppend([a], [b], p);
    assert [a, b] + [c] == [a, b, c];
    FilterAppend([a, b], [c], p);
    assert [a, b, c] + [d] == [a, b, c, d];
    FilterAppend([a, b, c], [d], p);
  }

  /** The first and third of four elements pass, the others do not. */
  lemma FilterFirstAndThird<T>(a: T, b: T, c: T, d: T, p: T -> bool)
    requires p(a) && !p(b) && p(c) && !p(d)
    ensures Filter([a, b, c, d], p) == [a, c]
  {
    FilterFour(a, b, c, d, p);
  }

  /** Filtering commutes with concatenation. */
  lemma {:induction false} FilterAppend<T>(xs: seq<T>, ys: seq<T>, p: T -> bool)
    ensures Filter(xs + ys, p) == Filter(xs, p) + Filter(ys, p)
    decreases |ys|
  {
    if ys != [] {
      var last := ys[|ys| - 1];
      var ys' := ys[..|ys| - 1];
      assert (xs + ys)[..|xs + ys| - 1] == xs + ys';
      assert (xs + ys)[|xs + ys| - 1] == last;
      FilterAppend(xs, ys', p);
    } else {
      assert xs + ys == xs;
    }
  }

  /** A sequence whose every element passes comes back unchanged. */
  lemma {:induction false} FilterAllPass<T>(xs: seq<T>, p: T -> bool)
    requires forall k :: 0 <= k < |xs| ==> p(xs[k])
    ensures Filter(xs, p) == xs
    decreases |xs|
  {
    if xs != [] {
      FilterAllPass(xs[..|xs| - 1], p);
      assert xs == xs[..|xs| - 1] + [xs[|xs| - 1]];
    }
  }

  /** A sequence none of whose elements passes filters to nothing. */
  lemma {:induction false} FilterNonePass<T>(xs: seq<T>, p: T -> bool)
    requires forall k :: 0 <= k < |xs| ==> !p(xs[k])
    ensures Filter(xs, p) == []
    decreases |xs|
  {
    if xs != [] {
      FilterNonePass(xs[..|xs| - 1], p);
    }
  }

  /** No element occurs twice. */
  predicate Distinct<T(==)>(xs: seq<T>) {
    forall i, j :: 0 <= i < j < |xs| ==> xs[i] != xs[j]
  }

  /** Filtering a sequence without repetitions gives one without repetitions. */
  lemma {:induction false} FilterDistinct<T>(xs: seq<T>, p: T -> bool)
    requires Distinct(xs)
    ensures Distinct(Filter(xs, p))
    decreases |xs|
  {
    if xs != [] {
      var init, last := xs[..|xs| - 1], xs[|xs| - 1];
      FilterDistinct(init, p);
      if p(last) {
        var r := Filter(xs, p);
        assert forall k :: 0 <= k < |init| ==> init[k] == xs[k] && xs[k] != last;
        assert last !in Filter(init, p);
        assert r == Filter(init, p) + [last];
      }
    }
  }

  /** Filtering keeps the relative order of what it keeps. */
  lemma {:induction false} FilterIsSubseq<T>(xs: seq<T>, p: T -> bool)
    ensures IsSubseq(Filter(xs, p), xs)
    decreases |xs|
  {
    if xs != [] {
      var init := xs[..|xs| - 1];
      FilterIsSubseq(init, p);
      if p(xs[|xs| - 1]) {
        var r := Filter(xs, p);
        assert r[..|r| - 1] == Filter(init, p);
      } else {
        assert Filter(xs, p) == Filter(init, p);
      }
    }
  }
}
