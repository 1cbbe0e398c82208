/**
 * Sequence helpers shared by the dashboard model: the order-preserving
 * filter behind every `Array.prototype.filter` of the dashboard, and the
 * left-to-right integer sum behind its `reduce((sum, x) => sum + f(x), 0)`.
 */
module Seqs {

  /** The elements of s that satisfy keep, in their original order. */
  function Filter<T>(s: seq<T>, keep: T -> bool): (r: seq<T>)
    ensures |r| <= |s|
    ensures forall x :: x in r ==> x in s && keep(x)
    decreases |s|
  {
    if |s| == 0 then []
    else Filter(s[..|s| - 1], keep) + (if keep(s[|s| - 1]) then [s[|s| - 1]] else [])
  }

  /** The sum 0 + f(s[0]) + ... + f(s[|s|-1]), accumulated left to right. */
  function SumOf<T>(s: seq<T>, f: T -> int): (total: int)
    decreases |s|
  {
    if |s| == 0 then 0 else SumOf(s[..|s| - 1], f) + f(s[|s| - 1])
  }

  /** Filtering keeps exactly the elements that satisfy the predicate. */
  lemma {:induction false} FilterMembership<T>(s: seq<T>, keep: T -> bool, x: T)
    ensures x in Filter(s, keep) <==> x in s && keep(x)
    decreases |s|
  {
    if |s| > 0 {
      var init := s[..|s| - 1];
      assert s == init + [s[|s| - 1]];
      FilterMembership(init, keep, x);
    }
  }

  /** Filtering distributes over concatenation, so it processes its input in order. */
  lemma {:induction false} FilterAppend<T>(a: seq<T>, b: seq<T>, keep: T -> bool)
    ensures Filter(a + b, keep) == Filter(a, keep) + Filter(b, keep)
    decreases |b|
  {
    if |b| == 0 {
      assert a + b == a;
    } else {
      var init, last := b[..|b| - 1], b[|b| - 1];
      assert (a + b)[..|a + b| - 1] == a + init;
      assert (a + b)[|a + b| - 1] == last;
      FilterAppend(a, init, keep);
      var tail := if keep(last) then [last] else [];
      assert Filter(a + b, keep) == Filter(a, keep) + Filter(init, keep) + tail;
    }
  }

  /** A filter whose predicate holds of every element returns its input. */
  lemma {:induction false} FilterKeepsAll<T>(s: seq<T>, keep: T -> bool)
    requires forall i :: 0 <= i < |s| ==> keep(s[i])
    ensures Filter(s, keep) == s
    decreases |s|
  {
    if |s| > 0 {
      var init := s[..|s| - 1];
      forall i | 0 <= i < |init| ensures keep(init[i]) {
        assert init[i] == s[i];
      }
      FilterKeepsAll(init, keep);
      assert s == init + [s[|s| - 1]];
    }
  }

  /** A filter whose predicate holds of no element returns the empty sequence. */
  lemma {:induction false} FilterDropsAll<T>(s: seq<T>, keep: T -> bool)
    requires forall i :: 0 <= i < |s| ==> !keep(s[i])
    ensures Filter(s, keep) == []
    decreases |s|
  {
    if |s| > 0 {
      var init := s[..|s| - 1];
      forall i | 0 <= i < |init| ensures !keep(init[i]) {
        assert init[i] == s[i];
      }
      FilterDropsAll(init, keep);
    }
  }

  /** The positions of s whose element satisfies keep, in increasing order. */
  function Positions<T>(s: seq<T>, keep: T -> bool): seq<nat>
    decreases |s|
  {
    if |s| == 0 then []
    else
      var rest := Positions(s[..|s| - 1], keep);
      if keep(s[|s| - 1]) then rest + [|s| - 1] else rest
  }

  /** The positions lie inside s, in strictly increasing order. */
  lemma {:induction false} PositionsIncreasing<T>(s: seq<T>, keep: T -> bool)
    ensures forall k :: 0 <= k < |Positions(s, keep)| ==> Positions(s, keep)[k] < |s|
    ensures forall k, l :: 0 <= k < l < |Positions(s, keep)| ==> Positions(s, keep)[k] < Positions(s, keep)[l]
    decreases |s|
  {
    if |s| > 0 {
      var init := s[..|s| - 1];
      PositionsIncreasing(init, keep);
      var rest := Positions(init, keep);
      assert forall k :: 0 <= k < |rest| ==> rest[k] < |init|;
    }
  }

  /** The positions are exactly those whose element satisfies keep. */
  lemma {:induction false} PositionsExact<T>(s: seq<T>, keep: T -> bool)
    ensures forall i :: 0 <= i < |s| ==> (keep(s[i]) <==> i in Positions(s, keep))
    decreases |s|
  {
    if |s| > 0 {
      var init := s[..|s| - 1];
      PositionsExact(init, keep);
      PositionsIncreasing(init, keep);
      var rest := Positions(init, keep);
      assert forall k :: 0 <= k < |rest| ==> rest[k] < |init|;
      assert forall i :: 0 <= i < |init| ==> s[i] == init[i];
    }
  }

  /** The filter's k-th element is the element at the k-th position. */
  lemma {:induction false} FilterAtPositions<T>(s: seq<T>, keep: T -> bool)
    ensures var pos := Positions(s, keep);
      && |pos| == |Filter(s, keep)|
      && (forall k :: 0 <= k < |pos| ==> pos[k] < |s| && Filter(s, keep)[k] == s[pos[k]])
    decreases |s|
  {
    if |s| > 0 {
      var init := s[..|s| - 1];
      FilterAtPositions(init, keep);
      PositionsIncreasing(init, keep);
      assert forall i :: 0 <= i < |init| ==> s[i] == init[i];
    }
  }

  /**
   * The filter's result is the subsequence of s taken at strictly increasing
   * positions, and those positions are exactly the ones whose element satisfies keep.
   */
  lemma FilterIsSubsequence<T>(s: seq<T>, keep: T -> bool)
    ensures var pos := Positions(s, keep);
      && |pos| == |Filter(s, keep)|
      && (forall k :: 0 <= k < |pos| ==> pos[k] < |s| && Filter(s, keep)[k] == s[pos[k]])
      && (forall k, l :: 0 <= k < l < |pos| ==> pos[k] < pos[l])
      && (forall i :: 0 <= i < |s| ==> (keep(s[i]) <==> i in pos))
  {
    PositionsIncreasing(s, keep);
    PositionsExact(s, keep);
    FilterAtPositions(s, keep);
  }

  /** Filtering by one predicate and then another is filtering by both at once. */
  lemma {:induction false} FilterFilter<T>(s: seq<T>, first: T -> bool, second: T -> bool, both: T -> bool)
    requires forall x :: both(x) == (first(x) && second(x))
    ensures Filter(Filter(s, first), second) == Filter(s, both)
    decreases |s|
  {
    if |s| > 0 {
      var init := s[..|s| - 1];
      var last := s[|s| - 1];
      FilterFilter(init, first, second, both);
      FilterAppend(Filter(init, first), if first(last) then [last] else [], second);
      if first(last) {
        assert Filter([last], second) == (if second(last) then [last] else []) by {
          assert [last][..0] == [];
        }
      }
    }
  }

  /** Sums distribute over concatenation. */
  lemma {:induction false} SumAppend<T>(a: seq<T>, b: seq<T>, f: T -> int)
    ensures SumOf(a + b, f) == SumOf(a, f) + SumOf(b, f)
    decreases |b|
  {
    if |b| == 0 {
      assert a + b == a;
    } else {
      var init := b[..|b| - 1];
      assert (a + b)[..|a + b| - 1] == a + init;
      SumAppend(a, init, f);
    }
  }

  /**
   * A sum splits into the part over the elements that satisfy keep and the
   * part over those that satisfy its complement drop.
   */
  lemma {:induction false} SumSplit<T>(s: seq<T>, keep: T -> bool, drop: T -> bool, f: T -> int)
    requires forall i :: 0 <= i < |s| ==> drop(s[i]) == !keep(s[i])
    ensures SumOf(s, f) == SumOf(Filter(s, keep), f) + SumOf(Filter(s, drop), f)
    decreases |s|
  {
    if |s| > 0 {
      var init := s[..|s| - 1];
      var last := s[|s| - 1];
      SumSplit(init, keep, drop, f);
      assert SumOf([last], f) == f(last) by {
        assert [last][..0] == [];
      }
      assert SumOf(s, f) == SumOf(init, f) + f(last);
      if keep(last) {
        assert Filter(s, keep) == Filter(init, keep) + [last];
        assert Filter(s, drop) == Filter(init, drop);
        SumAppend(Filter(init, keep), [last], f);
      } else {
        assert Filter(s, keep) == Filter(init, keep);
        assert Filter(s, drop) == Filter(init, drop) + [last];
        SumAppend(Filter(init, drop), [last], f);
      }
    }
  }

  /** A sum of non-negative terms is non-negative. */
  lemma {:induction false} SumNonNegative<T>(s: seq<T>, f: T -> int)
    requires forall i :: 0 <= i < |s| ==> f(s[i]) >= 0
    ensures SumOf(s, f) >= 0
    decreases |s|
  {
    if |s| > 0 {
      SumNonNegative(s[..|s| - 1], f);
    }
  }

  /** Dropping elements whose terms are non-negative cannot increase a sum. */
  lemma SumFilterAtMost<T>(s: seq<T>, keep: T -> bool, f: T -> int)
    requires forall i :: 0 <= i < |s| ==> f(s[i]) >= 0
    ensures SumOf(Filter(s, keep), f) <= SumOf(s, f)
  {
    var drop := x => !keep(x);
    SumSplit(s, keep, drop, f);
    var dropped := Filter(s, drop);
    forall i | 0 <= i < |dropped| ensures f(dropped[i]) >= 0 {
      assert dropped[i] in dropped;
    }
    SumNonNegative(dropped, f);
  }
}
