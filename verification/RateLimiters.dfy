/** AdaptiveRateLimiter: a delay that shrinks by a tenth on success and grows two and a half times on failure. */
module RateLimiters {

  const SHRINK: real := 0.9
  const GROW: real := 2.5

  function MinReal(a: real, b: real): (m: real)
    ensures m <= a && m <= b && (m == a || m == b)
  {
    if a <= b then a else b
  }

  function MaxReal(a: real, b: real): (m: real)
    ensures m >= a && m >= b && (m == a || m == b)
  {
    if a >= b then a else b
  }

  /** d multiplied k times by x. */
  function Compounded(d: real, x: real, k: nat): real {
    if k == 0 then d else Compounded(d, x, k - 1) * x
  }

  /** What the limiter is told after a request. */
  datatype Signal = Success | Failure

  /** The delay after one signal, and after a list of them. */
  function Adjusted(d: real, g: Signal, lo: real, hi: real): real {
    match g
    case Success => MaxReal(lo, d * SHRINK)
    case Failure => MinReal(hi, d * GROW)
  }

  function AdjustedAll(d: real, gs: seq<Signal>, lo: real, hi: real): real {
    if gs == [] then d else Adjusted(AdjustedAll(d, gs[..|gs| - 1], lo, hi), gs[|gs| - 1], lo, hi)
  }

  lemma AdjustedSnoc(d: real, gs: seq<Signal>, g: Signal, lo: real, hi: real)
    ensures AdjustedAll(d, gs + [g], lo, hi) == Adjusted(AdjustedAll(d, gs, lo, hi), g, lo, hi)
  {
    assert (gs + [g])[..|gs|] == gs;
  }

  lemma AdjustedOnce(d: real, lo: real, hi: real)
    ensures AdjustedAll(d, [], lo, hi) == d
    ensures forall g :: AdjustedAll(d, [g], lo, hi) == Adjusted(d, g, lo, hi)
  {
    forall g
      ensures AdjustedAll(d, [g], lo, hi) == Adjusted(d, g, lo, hi)
    {
      assert [] + [g] == [g];
      AdjustedSnoc(d, [], g, lo, hi);
    }
  }

  class AdaptiveRateLimiter {
    var delay: real
    const minDelay: real
    const maxDelay: real

    constructor (initialDelay: real := 1.5, minDelay: real := 0.6, maxDelay: real := 10.0)
      ensures delay == initialDelay && this.minDelay == minDelay && this.maxDelay == maxDelay
    {
      this.delay, this.minDelay, this.maxDelay := initialDelay, minDelay, maxDelay;
    }

    predicate InRange()
      reads this
    {
      0.0 <= minDelay <= delay <= maxDelay
    }

    method OnSuccess()
      modifies this
      ensures delay == Adjusted(old(delay), Success, minDelay, maxDelay)
      ensures old(InRange()) ==> InRange() && delay <= old(delay)
    {
      delay := MaxReal(minDelay, delay * SHRINK);
    }

    method OnFailure()
      modifies this
      ensures delay == Adjusted(old(delay), Failure, minDelay, maxDelay)
      ensures old(InRange()) ==> InRange() && delay >= old(delay)
    {
      delay := MinReal(maxDelay, delay * GROW);
    }
  }

  /** From the first delay of a client: a 429 takes 1.5 s to 3.75 s, a success to 1.35 s; 0.6 s and 10 s are the ends. */
  lemma FirstSteps()
    ensures Adjusted(1.5, Failure, 0.6, 10.0) == 3.75 && Adjusted(1.5, Success, 0.6, 10.0) == 1.35
    ensures Adjusted(3.75, Failure, 0.6, 10.0) == 9.375 && Adjusted(9.375, Failure, 0.6, 10.0) == 10.0
    ensures Adjusted(0.6, Success, 0.6, 10.0) == 0.6
  {
  }

  function Times(g: Signal, k: nat): seq<Signal> {
    seq(k, _ => g)
  }

  lemma TimesSnoc(g: Signal, k: nat)
    requires k > 0
    ensures Times(g, k) == Times(g, k - 1) + [g]
  {
  }

  /** k successes in a row, in closed form. */
  lemma {:induction false} SuccessesClosedForm(d: real, k: nat, lo: real, hi: real)
    requires 0.0 <= lo <= d
    ensures AdjustedAll(d, Times(Success, k), lo, hi) == MaxReal(lo, Compounded(d, SHRINK, k))
  {
    if k == 0 {
      assert Times(Success, k) == [];
    } else {
      TimesSnoc(Success, k);
      AdjustedSnoc(d, Times(Success, k - 1), Success, lo, hi);
      SuccessesClosedForm(d, k - 1, lo, hi);
    }
  }

  /** k failures in a row, in closed form. */
  lemma {:induction false} FailuresClosedForm(d: real, k: nat, lo: real, hi: real)
    requires 0.0 <= d <= hi
    ensures AdjustedAll(d, Times(Failure, k), lo, hi) == MinReal(hi, Compounded(d, GROW, k))
  {
    if k == 0 {
      assert Times(Failure, k) == [];
    } else {
      TimesSnoc(Failure, k);
      AdjustedSnoc(d, Times(Failure, k - 1), Failure, lo, hi);
      FailuresClosedForm(d, k - 1, lo, hi);
    }
  }

  /** No interleaving leaves the range. */
  lemma {:induction false} StaysInRange(d: real, gs: seq<Signal>, lo: real, hi: real)
    requires 0.0 <= lo <= d <= hi
    ensures lo <= AdjustedAll(d, gs, lo, hi) <= hi
  {
    if gs != [] {
      StaysInRange(d, gs[..|gs| - 1], lo, hi);
    }
  }

  lemma AdjustedConcat(d: real, gs: seq<Signal>, hs: seq<Signal>, lo: real, hi: real)
    ensures AdjustedAll(d, gs + hs, lo, hi) == AdjustedAll(AdjustedAll(d, gs, lo, hi), hs, lo, hi)
  {
    if hs == [] {
      assert gs + hs == gs;
    } else {
      var prefix, last := hs[..|hs| - 1], hs[|hs| - 1];
      AdjustedConcat(d, gs, prefix, lo, hi);
      AdjustedSnoc(d, gs + prefix, last, lo, hi);
      assert gs + hs == (gs + prefix) + [last];
    }
  }

  lemma CompoundedGrows(a: real, b: real, k: nat)
    requires 0.0 <= a <= b
    ensures 0.0 <= Compounded(a, SHRINK, k) <= Compounded(b, SHRINK, k)
  {
    if k > 0 {
      CompoundedGrows(a, b, k - 1);
    }
  }

  lemma ShrinksFall(d: real, j: nat, k: nat)
    requires 0.0 <= d && j <= k
    ensures Compounded(d, SHRINK, k) <= Compounded(d, SHRINK, j)
  {
    if j < k {
      ShrinksFall(d, j, k - 1);
      CompoundedGrows(0.0, d, k - 1);
    }
  }

  /** Nine shrinkings undo one growth; eight do not. */
  lemma NineShrinks(d: real)
    requires 0.0 < d
    ensures Compounded(d * GROW, SHRINK, 9) < d < Compounded(d * GROW, SHRINK, 8)
  {
    ThreeShrinks(d * GROW, 0);
    ThreeShrinks(d * GROW, 3);
    ThreeShrinks(d * GROW, 6);
    assert Compounded(d * GROW, SHRINK, 9) == Compounded(d * GROW, SHRINK, 8) * 0.9;
  }

  lemma ThreeShrinks(d: real, k: nat)
    ensures Compounded(d, SHRINK, k + 3) == Compounded(d, SHRINK, k) * 0.729
  {
    assert Compounded(d, SHRINK, k + 1) == Compounded(d, SHRINK, k) * 0.9;
    assert Compounded(d, SHRINK, k + 2) == Compounded(d, SHRINK, k + 1) * 0.9;
  }

  /**
   * k successes forgive a failure, leaving the delay no higher than it was, if and only if k is at least nine or
   * the delay was so near the top that k shrinkings of the top do not stay above it.
   */
  lemma FailureForgiven(d: real, k: nat, lo: real, hi: real)
    requires 0.0 <= lo <= d <= hi && 0.0 < d
    ensures
      AdjustedAll(d, [Failure] + Times(Success, k), lo, hi) <= d
      <==> k >= 9 || Compounded(hi, SHRINK, k) <= d
  {
    AdjustedConcat(d, [Failure], Times(Success, k), lo, hi);
    AdjustedOnce(d, lo, hi);
    var up := MinReal(hi, d * GROW);
    SuccessesClosedForm(up, k, lo, hi);
    NineShrinks(d);
    CompoundedGrows(up, d * GROW, k);
    CompoundedGrows(up, hi, k);
    if k >= 9 {
      ShrinksFall(d * GROW, 9, k);
    } else {
      ShrinksFall(d * GROW, k, 8);
    }
  }
}
