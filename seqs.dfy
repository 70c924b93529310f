/** Sequence helpers shared by the directory-listing loops of the pipeline. */
module Seqs {

  /** The elements of `xs` that `keep` accepts, in their original order
      (a Python list comprehension with an `if`). Defined from the back, so
      that a loop appending to a list follows it step by step. */
  function Filter<T(!new)>(xs: seq<T>, keep: T -> bool): (r: seq<T>)
    ensures |r| <= |xs|
    ensures forall x :: x in r <==> x in xs && keep(x)
  {
    if xs == [] then []
    else Filter(xs[..|xs| - 1], keep) + (if keep(xs[|xs| - 1]) then [xs[|xs| - 1]] else [])
  }

  /** Filtering one more element appends it exactly when it is kept. */
  lemma FilterSnoc<T(!new)>(xs: seq<T>, x: T, keep: T -> bool)
    ensures Filter(xs + [x], keep) == Filter(xs, keep) + (if keep(x) then [x] else [])
  {
    assert (xs + [x])[..|xs + [x]| - 1] == xs;
  }

  /** No element occurs twice. */
  ghost predicate NoDuplicates<T>(xs: seq<T>)
  {
    forall i, j :: 0 <= i < j < |xs| ==> xs[i] != xs[j]
  }

  /** Filtering keeps a list free of duplicates. */
  lemma {:induction false} FilterNoDuplicates<T(!new)>(xs: seq<T>, keep: T -> bool)
    requires NoDuplicates(xs)
    ensures NoDuplicates(Filter(xs, keep))
  {
    if xs != [] {
      var init := xs[..|xs| - 1];
      assert NoDuplicates(init) by {
        forall i, j | 0 <= i < j < |init| ensures init[i] != init[j] {
          assert init[i] == xs[i] && init[j] == xs[j];
        }
      }
      FilterNoDuplicates(init, keep);
      var last := xs[|xs| - 1];
      forall i | 0 <= i < |init| ensures init[i] != last {
        assert init[i] == xs[i];
      }
      assert last !in init;
    }
  }

  /** Appending an element that satisfies `p` at its position to a list
      whose every element satisfies `p` at its position keeps that so. */
  lemma AllSnoc<T>(xs: seq<T>, x: T, p: (nat, T) -> bool)
    requires forall k :: 0 <= k < |xs| ==> p(k, xs[k])
    requires p(|xs|, x)
    ensures forall k :: 0 <= k < |xs + [x]| ==> p(k, (xs + [x])[k])
  {
    forall k | 0 <= k < |xs + [x]| ensures p(k, (xs + [x])[k]) {
      if k < |xs| {
        assert (xs + [x])[k] == xs[k];
      }
    }
  }
}
