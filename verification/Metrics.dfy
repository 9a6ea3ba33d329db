/** Maximum drawdown of an equity curve, in one pass. */
module Metrics {
  import opened Trading
  import opened RealFacts

  /** The decline from `high` to `low` as a fraction of `high`. */
  function Decline(high: real, low: real): real
    requires high > 0.0
  {
    (high - low) / high
  }

  /** The highest value up to and including position `j`. */
  function RunningPeak(curve: seq<real>, j: nat): (peak: real)
    requires j < |curve|
    ensures peak in curve[..j + 1]
    ensures forall i | 0 <= i <= j :: curve[i] <= peak
  {
    if j == 0 then curve[0]
    else
      assert curve[..j] < curve[..j + 1] && curve[j] in curve[..j + 1];
      Max(RunningPeak(curve, j - 1), curve[j])
  }

  /** How far the curve is, at `j`, below its running peak; nothing if that is not positive. */
  function DeclineAt(curve: seq<real>, j: nat): real
    requires j < |curve|
  {
    var peak := RunningPeak(curve, j);
    if peak > 0.0 then Decline(peak, curve[j]) else 0.0
  }

  /** The greatest decline from the running peak within the first `n` values, at least zero. */
  ghost predicate Worst(worst: real, curve: seq<real>, n: nat)
    requires n <= |curve|
  {
    && worst >= 0.0
    && (forall j | 0 <= j < n :: DeclineAt(curve, j) <= worst)
    && (worst == 0.0 || exists j | 0 <= j < n :: worst == DeclineAt(curve, j))
  }

  method MaxDrawdown(curve: seq<real>) returns (worst: real)
    ensures Worst(worst, curve, |curve|)
  {
    if |curve| < 2 {
      if |curve| == 1 {
        NoDecline(curve);
      }
      return 0.0;
    }
    hide DeclineAt, RunningPeak, Decline, Worst;
    var peak := curve[0];
    worst := 0.0;
    NothingWorst(curve);
    for j := 0 to |curve|
      invariant peak == if j == 0 then curve[0] else RunningPeak(curve, j - 1)
      invariant Worst(worst, curve, j) && worst >= 0.0
    {
      peak := Max(peak, curve[j]);
      PeakSoFar(curve, j, peak);
      WorstGrows(curve, j, worst);
      if peak > 0.0 {
        worst := Max(worst, Decline(peak, curve[j]));
      }
    }
  }

  lemma NothingWorst(curve: seq<real>)
    ensures Worst(0.0, curve, 0)
  {
  }

  lemma WorstGrows(curve: seq<real>, j: nat, worst: real)
    requires j < |curve| && Worst(worst, curve, j)
    ensures Worst(Max(worst, DeclineAt(curve, j)), curve, j + 1)
  {
    hide DeclineAt;
  }

  lemma PeakSoFar(curve: seq<real>, j: nat, peak: real)
    requires j < |curve| && peak == Max(if j == 0 then curve[0] else RunningPeak(curve, j - 1), curve[j])
    ensures peak == RunningPeak(curve, j)
    ensures DeclineAt(curve, j) == if peak > 0.0 then Decline(peak, curve[j]) else 0.0
  {
  }

  lemma NoDecline(curve: seq<real>)
    requires |curve| == 1
    ensures DeclineAt(curve, 0) == 0.0
  {
    if curve[0] > 0.0 {
      QuotientSign(0.0, curve[0]);
    }
  }

  lemma DeclineGrows(high: real, higher: real, low: real)
    requires 0.0 < high <= higher && low >= 0.0
    ensures Decline(high, low) <= Decline(higher, low) <= 1.0
  {
    var q, r := low / high, low / higher;
    assert q * high == low && r * higher == low;
    QuotientMonotone(0.0, low, higher);
    assert Decline(high, low) == 1.0 - q by { QuotientIs(high - low, high, 1.0 - q); }
    assert Decline(higher, low) == 1.0 - r by { QuotientIs(higher - low, higher, 1.0 - r); }
    hide Decline;
    QuotientMonotone(r * high, low, high) by { MulMonotone(high, higher, r); }
    assert r * high / high == r by { QuotientIs(r * high, high, r); }
  }

  ghost predicate NonNegative(curve: seq<real>) {
    forall v | v in curve :: v >= 0.0
  }

  /** A pair of an earlier positive value and a later value, and its decline. */
  ghost predicate Pair(curve: seq<real>, i: nat, j: nat) {
    i <= j < |curve| && curve[i] > 0.0
  }

  /** For a non-negative curve the one pass finds the worst decline over all pairs of an earlier
      positive value and a later value, and it is at most the whole. */
  lemma WorstOverAllPairs(curve: seq<real>, worst: real)
    requires NonNegative(curve) && Worst(worst, curve, |curve|)
    ensures forall i: nat, j: nat | Pair(curve, i, j) :: Decline(curve[i], curve[j]) <= worst
    ensures worst == 0.0 || exists i: nat, j: nat | Pair(curve, i, j) :: worst == Decline(curve[i], curve[j])
    ensures 0.0 <= worst <= 1.0
  {
    hide Decline;
    forall i: nat, j: nat | Pair(curve, i, j) ensures Decline(curve[i], curve[j]) <= worst {
      assert curve[j] in curve;
      DeclineGrows(curve[i], RunningPeak(curve, j), curve[j]);
      assert DeclineAt(curve, j) <= worst;
    }
    if worst != 0.0 {
      var j: nat :| j < |curve| && worst == DeclineAt(curve, j);
      var i: nat :| i < |curve[..j + 1]| && curve[..j + 1][i] == RunningPeak(curve, j);
      assert Pair(curve, i, j) && curve[j] in curve;
      DeclineGrows(curve[i], curve[i], curve[j]);
    }
  }

  /** Below zero a higher peak makes for a smaller relative decline. */
  lemma DeclineShrinks(high: real, higher: real, low: real)
    requires 0.0 < high < higher && low < 0.0
    ensures Decline(high, low) > Decline(higher, low)
  {
    var q, r := -low / high, -low / higher;
    assert q * high == -low && r * higher == -low;
    assert Decline(high, low) == 1.0 + q by { QuotientIs(high - low, high, 1.0 + q); }
    assert Decline(higher, low) == 1.0 + r by { QuotientIs(higher - low, higher, 1.0 + r); }
    hide Decline;
    QuotientSign(-low, higher);
    SharesOut(q, high, r, higher);
  }

  /** The same product with a smaller factor has a larger other one. */
  lemma SharesOut(q: real, high: real, r: real, higher: real)
    requires 0.0 < high < higher && r > 0.0 && q * high == r * higher
    ensures q > r
  {
    MulPositive(r, higher - high);
    assert r * (higher - high) == r * higher - r * high;
    if q <= r {
      MulMonotone(q, r, high);
    }
  }

  /** The decline from the running peak is the worst of all pairs ending at `j` exactly when the
      value there is not negative, or every positive value so far is as high as the peak. */
  lemma PeakIsWorst(curve: seq<real>, j: nat)
    requires j < |curve|
    ensures (forall i: nat | Pair(curve, i, j) :: Decline(curve[i], curve[j]) <= DeclineAt(curve, j))
      <==> curve[j] >= 0.0 || forall i: nat | Pair(curve, i, j) :: curve[i] == RunningPeak(curve, j)
  {
    hide Decline;
    var peak := RunningPeak(curve, j);
    forall i: nat | Pair(curve, i, j)
      ensures curve[j] >= 0.0 || curve[i] == peak ==> Decline(curve[i], curve[j]) <= DeclineAt(curve, j)
      ensures curve[j] < 0.0 && curve[i] != peak ==> Decline(curve[i], curve[j]) > DeclineAt(curve, j) {
      if curve[j] >= 0.0 {
        DeclineGrows(curve[i], peak, curve[j]);
      } else if curve[i] != peak {
        DeclineShrinks(curve[i], peak, curve[j]);
      }
    }
  }

  /** A pair whose decline no other pair exceeds. */
  ghost predicate WorstPair(curve: seq<real>, i: nat, j: nat) {
    && Pair(curve, i, j)
    && forall k: nat, l: nat | Pair(curve, k, l) :: Decline(curve[k], curve[l]) <= Decline(curve[i], curve[j])
  }

  /** For any curve, negative values included, the one pass covers every pair exactly when no pair
      declines at all, or some worst pair starts at the peak of everything up to its end. */
  lemma CoversAllPairs(curve: seq<real>, worst: real)
    requires Worst(worst, curve, |curve|)
    ensures (forall i: nat, j: nat | Pair(curve, i, j) :: Decline(curve[i], curve[j]) <= worst)
      <==> || (forall i: nat, j: nat | Pair(curve, i, j) :: Decline(curve[i], curve[j]) <= 0.0)
           || exists i: nat, j: nat | WorstPair(curve, i, j) :: curve[i] == RunningPeak(curve, j)
  {
    hide Decline;
    if i: nat, j: nat :| WorstPair(curve, i, j) && curve[i] == RunningPeak(curve, j) {
      assert DeclineAt(curve, j) <= worst;
    }
    if (forall i: nat, j: nat | Pair(curve, i, j) :: Decline(curve[i], curve[j]) <= worst) && worst != 0.0 {
      var j: nat :| j < |curve| && worst == DeclineAt(curve, j);
      var i: nat :| i < |curve[..j + 1]| && curve[..j + 1][i] == RunningPeak(curve, j);
      assert WorstPair(curve, i, j);
    }
  }

  const DIP := [1.0, 2.0, -1.0]

  /** With a negative value it does not: from 1 up to 2 and down to -1 the one pass finds a loss
      of 150% of the 2, while the pair of the 1 and the -1 loses 200%. */
  lemma NegativeCurveDiffers()
    ensures Worst(1.5, DIP, |DIP|)
    ensures exists i: nat, j: nat | Pair(DIP, i, j) :: Decline(DIP[i], DIP[j]) > 1.5
  {
    assert RunningPeak(DIP, 0) == 1.0;
    assert RunningPeak(DIP, 1) == 2.0;
    assert RunningPeak(DIP, 2) == 2.0;
    assert DeclineAt(DIP, 0) == 0.0 && DeclineAt(DIP, 1) == 0.0 && DeclineAt(DIP, 2) == 1.5;
    assert Pair(DIP, 0, 2) && Decline(DIP[0], DIP[2]) == 2.0;
  }
}
