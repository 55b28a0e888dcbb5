/**
 Properties of the roulette scan of pick_expansion_vertex
 (inverse_square_law_simple.py): which vertex it stops at, why the
 fallback cannot be reached on a fair draw, and why the chosen vertex has
 positive magnitude.
 */
module Wheel {
  import opened Graphs
  import opened Lichtenberg

  /** A sum of non-negative magnitudes is non-negative. */
  lemma {:induction false} SumNonNegative(xs: seq<real>)
    requires forall i :: 0 <= i < |xs| ==> xs[i] >= 0.0
    ensures Sum(xs) >= 0.0
  {
    if xs != [] {
      assert forall i :: 0 <= i < |xs[1..]| ==> xs[1..][i] == xs[i + 1];
      SumNonNegative(xs[1..]);
    }
  }

  /** The running sum xs[i] + ... + xs[c]. */
  function RunSum(xs: seq<real>, i: nat, c: nat): real
    requires i <= c < |xs|
    decreases c - i
  {
    if i == c then xs[i] else xs[i] + RunSum(xs, i + 1, c)
  }

  /** Run to the end, the running sum is the sum of the suffix. */
  lemma {:induction false} RunSumSuffix(xs: seq<real>, i: nat)
    requires i < |xs|
    ensures RunSum(xs, i, |xs| - 1) == Sum(xs[i..])
    decreases |xs| - i
  {
    assert xs[i..][0] == xs[i] && xs[i..][1..] == xs[i + 1..];
    if i + 1 < |xs| {
      RunSumSuffix(xs, i + 1);
    } else {
      assert xs[i + 1..] == [];
    }
  }

  /**
   The scan from position `i` stops at the first `c` where P minus the
   running sum xs[i] + ... + xs[c] is at most zero, and runs off the end
   exactly when every running sum stays below P.
   */
  lemma {:induction false} CrossingFirst(xs: seq<real>, P: real, i: nat)
    requires i <= |xs|
    ensures match Crossing(xs, P, i)
            case Some(c) => && P - RunSum(xs, i, c) <= 0.0
                            && forall j :: i <= j < c ==> P - RunSum(xs, i, j) > 0.0
            case None => forall j :: i <= j < |xs| ==> P - RunSum(xs, i, j) > 0.0
    decreases |xs| - i
  {
    if i < |xs| && P - xs[i] > 0.0 {
      CrossingFirst(xs, P - xs[i], i + 1);
    }
  }

  /**
   pick_expansion_vertex returns the first vertex, in key order, at which
   P = u * total minus the running sum of magnitudes has fallen to zero or
   below; the fallback happens exactly when no running sum reaches P.
   */
  lemma RouletteFirstCrossing(order: seq<Key>, mags: seq<real>, u: real)
    requires |mags| == |order|
    ensures var P := Threshold(mags, u);
            Roulette(order, mags, u).None? <==> forall j :: 0 <= j < |mags| ==> P - RunSum(mags, 0, j) > 0.0
    ensures var P := Threshold(mags, u);
            var c := Crossing(mags, P, 0);
            Roulette(order, mags, u).Some? ==>
              && c.Some? && Roulette(order, mags, u) == Some(order[c.value])
              && P - RunSum(mags, 0, c.value) <= 0.0
              && forall j :: 0 <= j < c.value ==> P - RunSum(mags, 0, j) > 0.0
  {
    var P := Threshold(mags, u);
    CrossingFirst(mags, P, 0);
    var c := Crossing(mags, P, 0);
    assert Roulette(order, mags, u) == if c.None? then None else Some(order[c.value]);
    if c.Some? {
      assert P - RunSum(mags, 0, c.value) <= 0.0;
    }
  }

  /**
   With a non-empty graph, non-negative magnitudes and a draw u in [0, 1],
   the scan always stops at a vertex: the fallback `return 0` is
   unreachable over exact reals.
   */
  lemma RouletteNeverFallsBack(order: seq<Key>, mags: seq<real>, u: real)
    requires |mags| == |order| > 0
    requires 0.0 <= u <= 1.0
    requires forall i :: 0 <= i < |mags| ==> mags[i] >= 0.0
    ensures Roulette(order, mags, u).Some?
  {
    SumNonNegative(mags);
    ScaleAtMost(u, Sum(mags));
    CrossingReachesTotal(mags, Threshold(mags, u));
  }

  /** A P no larger than the whole sum is used up by the end of the scan. */
  lemma CrossingReachesTotal(xs: seq<real>, P: real)
    requires |xs| > 0 && P <= Sum(xs)
    ensures Crossing(xs, P, 0).Some?
  {
    CrossingFirst(xs, P, 0);
    RunSumSuffix(xs, 0);
    assert xs[0..] == xs;
    assert P - RunSum(xs, 0, |xs| - 1) <= 0.0;
  }

  lemma ScaleAtMost(u: real, t: real)
    requires 0.0 <= u <= 1.0 && t >= 0.0
    ensures u * t <= t
  {
    assert t - u * t == (1.0 - u) * t;
  }

  /** While the remaining P is positive, a stop can only happen at a positive magnitude. */
  lemma {:induction false} CrossingPositive(xs: seq<real>, P: real, i: nat)
    requires P > 0.0
    ensures Crossing(xs, P, i).Some? ==> xs[Crossing(xs, P, i).value] > 0.0
    decreases |xs| - i
  {
    if i < |xs| && P - xs[i] > 0.0 {
      CrossingPositive(xs, P - xs[i], i + 1);
    }
  }

  /** When P = u * total is positive, the chosen vertex has positive magnitude. */
  lemma RoulettePositiveMagnitude(order: seq<Key>, mags: seq<real>, u: real)
    requires |mags| == |order| && Threshold(mags, u) > 0.0
    ensures match Crossing(mags, Threshold(mags, u), 0)
            case Some(c) => Roulette(order, mags, u) == Some(order[c]) && mags[c] > 0.0
            case None => Roulette(order, mags, u) == None
  {
    CrossingPositive(mags, Threshold(mags, u), 0);
  }
}
