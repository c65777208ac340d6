/** Drawdown by a running peak, against its definition over all pairs of points in time. */
module Drawdown {
  import opened Common

  /** How far, in percent, `low` lies below `high`. */
  function Fall(high: real, low: real): real
    requires high != 0.0
  {
    Product(Ratio(high - low, high), 100.0)
  }

  /** In percent of the high. */
  lemma {:induction false} FallIsPercent(high: real, low: real)
    requires high != 0.0
    ensures Product(Fall(high, low), high) == Product(100.0, high - low)
  {
    var q := (high - low) / high;
    assert (q * 100.0) * high == 100.0 * (q * high);
  }

  function Peak(es: seq<real>): real
    requires |es| > 0
  {
    if |es| == 1 then es[0] else Max(Peak(es[..|es| - 1]), es[|es| - 1])
  }

  /** The greatest fall from the highest value so far. */
  function RunningDrawdown(es: seq<real>): real
    requires |es| > 0 && es[0] > 0.0
  {
    if |es| == 1 then 0.0
    else
      var front, last := es[..|es| - 1], es[|es| - 1];
      PeakIsHighest(front);
      Max(RunningDrawdown(front), if last >= Peak(front) then 0.0 else Fall(Peak(front), last))
  }

  /** `w` is the greatest fall from any value to any later one. */
  ghost predicate WorstFall(es: seq<real>, w: real) {
    && (exists i, j :: 0 <= i <= j < |es| && es[i] > 0.0 && Fall(es[i], es[j]) == w)
    && (forall i, j :: 0 <= i <= j < |es| && es[i] > 0.0 ==> Fall(es[i], es[j]) <= w)
  }

  lemma {:induction false} PeakIsHighest(es: seq<real>)
    requires |es| > 0
    ensures forall i :: 0 <= i < |es| ==> es[i] <= Peak(es)
    ensures exists i :: 0 <= i < |es| && es[i] == Peak(es)
  {
    if |es| == 1 {
      assert es[0] == Peak(es);
    } else {
      var front := es[..|es| - 1];
      PeakIsHighest(front);
      var i :| 0 <= i < |front| && front[i] == Peak(front);
      assert es[i] == Peak(es) || es[|es| - 1] == Peak(es);
      forall j | 0 <= j < |es| ensures es[j] <= Peak(es) {
        if j < |front| {
          assert es[j] == front[j];
        }
      }
    }
  }

  /** From a higher start to a value that is not negative, the fall is greater. */
  lemma {:induction false} HigherFallsFurther(a: real, b: real, low: real)
    requires 0.0 < a <= b && low >= 0.0
    ensures Fall(a, low) <= Fall(b, low)
  {
    var p, q := low / a, low / b;
    assert p * a == low && q * b == low;
    assert p >= 0.0;
    assert (b - a) * p >= 0.0;
    assert q <= p by {
      ScaleOrder(b, q, p);
    }
    QuotientUnique(a - low, a, 1.0 - p);
    QuotientUnique(b - low, b, 1.0 - q);
  }

  lemma {:induction false} NoFallUpwards(high: real, low: real)
    requires 0.0 < high <= low
    ensures Fall(high, low) <= 0.0 && (high == low ==> Fall(high, low) == 0.0)
  {
    var r := (high - low) / high;
    assert r * high == high - low;
    if r > 0.0 {
      ScaleOrder(high, 0.0, r);
    }
  }

  /** Every fall onto the last value is at most the fall from the peak before it. */
  lemma {:induction false} LastFall(es: seq<real>, i: nat)
    requires |es| > 1 && es[0] > 0.0 && es[|es| - 1] >= 0.0 && i < |es| && es[i] > 0.0
    ensures var p, last := Peak(es[..|es| - 1]), es[|es| - 1];
            p > 0.0 && Fall(es[i], last) <= if last >= p then 0.0 else Fall(p, last)
  {
    var front, last := es[..|es| - 1], es[|es| - 1];
    PeakIsHighest(front);
    assert front[0] == es[0];
    if i < |front| {
      assert es[i] == front[i];
      if last >= Peak(front) {
        NoFallUpwards(es[i], last);
      } else {
        HigherFallsFurther(es[i], Peak(front), last);
      }
    } else {
      NoFallUpwards(last, last);
      if last < Peak(front) {
        FallIsPositive(Peak(front), last);
      }
    }
  }

  lemma {:induction false} FallIsPositive(high: real, low: real)
    requires 0.0 < high && low < high
    ensures Fall(high, low) > 0.0
  {
    var r := (high - low) / high;
    assert r * high == high - low;
    if r <= 0.0 {
      ScaleOrder(high, r, 0.0);
    }
  }

  lemma {:induction false} RunningIsAttained(es: seq<real>)
    requires |es| > 0 && es[0] > 0.0
    ensures exists i, j :: 0 <= i <= j < |es| && es[i] > 0.0 && Fall(es[i], es[j]) == RunningDrawdown(es)
    ensures RunningDrawdown(es) >= 0.0
  {
    if |es| == 1 {
      NoFallUpwards(es[0], es[0]);
      assert Fall(es[0], es[0]) == RunningDrawdown(es);
    } else {
      var front, last := es[..|es| - 1], es[|es| - 1];
      RunningIsAttained(front);
      PeakIsHighest(front);
      var i, j :| 0 <= i <= j < |front| && front[i] > 0.0 && Fall(front[i], front[j]) == RunningDrawdown(front);
      assert es[i] == front[i] && es[j] == front[j];
      if last < Peak(front) && RunningDrawdown(front) < Fall(Peak(front), last) {
        var k :| 0 <= k < |front| && front[k] == Peak(front);
        assert front[0] <= Peak(front);
        assert Fall(es[k], es[|es| - 1]) == RunningDrawdown(es);
      } else {
        assert Fall(es[i], es[j]) == RunningDrawdown(es);
      }
    }
  }

  /** A fall onto a value that is not negative is found by the one pass. */
  lemma {:induction false} FallsAboveZeroAreFound(es: seq<real>, i: nat, j: nat)
    requires i <= j < |es| && es[0] > 0.0 && es[i] > 0.0 && es[j] >= 0.0
    ensures Fall(es[i], es[j]) <= RunningDrawdown(es)
  {
    if |es| == 1 {
      NoFallUpwards(es[0], es[0]);
    } else if j < |es| - 1 {
      FallsAboveZeroAreFound(es[..|es| - 1], i, j);
    } else {
      LastFall(es, i);
    }
  }

  /** The lowest of the positive values; the first value is positive. */
  function LowestPositive(es: seq<real>): real
    requires |es| > 0 && es[0] > 0.0
  {
    if |es| == 1 then es[0]
    else
      var front, last := LowestPositive(es[..|es| - 1]), es[|es| - 1];
      if 0.0 < last < front then last else front
  }

  lemma {:induction false} LowestIsLowest(es: seq<real>)
    requires |es| > 0 && es[0] > 0.0
    ensures LowestPositive(es) > 0.0
    ensures exists i :: 0 <= i < |es| && es[i] == LowestPositive(es)
    ensures forall i :: 0 <= i < |es| && es[i] > 0.0 ==> LowestPositive(es) <= es[i]
  {
    if |es| == 1 {
      assert es[0] == LowestPositive(es);
    } else {
      var front := es[..|es| - 1];
      LowestIsLowest(front);
      var i :| 0 <= i < |front| && front[i] == LowestPositive(front);
      assert es[i] == LowestPositive(es) || es[|es| - 1] == LowestPositive(es);
      assert forall k :: 0 <= k < |front| ==> es[k] == front[k];
    }
  }

  /** Onto a negative value the percentage is greater from a lower start. */
  lemma {:induction false} LowerFallsFurther(a: real, b: real, low: real)
    requires 0.0 < a <= b && low <= 0.0
    ensures Fall(b, low) <= Fall(a, low)
  {
    var p, q := low / a, low / b;
    assert p * a == low && q * b == low;
    assert q <= 0.0 by {
      ScaleOrder(b, q, 0.0);
    }
    assert (b - a) * (0.0 - q) >= 0.0 by {
      ProductNonNegative(b - a, 0.0 - q);
    }
    assert a * p <= a * q;
    ScaleOrder(a, p, q);
    QuotientUnique(a - low, a, 1.0 - p);
    QuotientUnique(b - low, b, 1.0 - q);
  }

  /** Each value below zero falls no further from the lowest value before it than some fall from a peak. */
  ghost predicate LossesBelowZeroCovered(es: seq<real>)
    requires |es| > 0 && es[0] > 0.0
  {
    forall j :: 0 <= j < |es| && es[j] < 0.0 ==> LowestFall(es, j) <= RunningDrawdown(es)
  }

  function LowestFall(es: seq<real>, j: nat): real
    requires j < |es| && es[0] > 0.0
  {
    LowestIsLowest(es[..j + 1]);
    Fall(LowestPositive(es[..j + 1]), es[j])
  }

  /** The one pass finds the greatest fall between any two points exactly when that holds. */
  lemma {:induction false} RunningIsWorstIff(es: seq<real>)
    requires |es| > 0 && es[0] > 0.0
    ensures WorstFall(es, RunningDrawdown(es)) <==> LossesBelowZeroCovered(es)
  {
    RunningIsAttained(es);
    if LossesBelowZeroCovered(es) {
      forall i, j | 0 <= i <= j < |es| && es[i] > 0.0 ensures Fall(es[i], es[j]) <= RunningDrawdown(es) {
        if es[j] >= 0.0 {
          FallsAboveZeroAreFound(es, i, j);
        } else {
          LowestIsLowest(es[..j + 1]);
          assert es[..j + 1][i] == es[i];
          LowerFallsFurther(LowestPositive(es[..j + 1]), es[i], es[j]);
          assert LowestFall(es, j) <= RunningDrawdown(es);
        }
      }
    }
    if WorstFall(es, RunningDrawdown(es)) {
      forall j | 0 <= j < |es| && es[j] < 0.0 ensures LowestFall(es, j) <= RunningDrawdown(es) {
        LowestIsLowest(es[..j + 1]);
        var i :| 0 <= i < |es[..j + 1]| && es[..j + 1][i] == LowestPositive(es[..j + 1]);
        assert es[i] > 0.0 && Fall(es[i], es[j]) == LowestFall(es, j);
      }
    }
  }

  /** In particular it finds it while no value is negative. */
  lemma {:induction false} RunningIsWorst(es: seq<real>)
    requires |es| > 0 && es[0] > 0.0 && forall i :: 0 <= i < |es| ==> es[i] >= 0.0
    ensures WorstFall(es, RunningDrawdown(es))
  {
    RunningIsWorstIff(es);
  }

  /** Whatever the values, the one pass never reports more than the greatest fall. */
  lemma {:induction false} RunningNeverExceeds(es: seq<real>, w: real)
    requires |es| > 0 && es[0] > 0.0 && WorstFall(es, w)
    ensures RunningDrawdown(es) <= w
  {
    RunningIsAttained(es);
  }

  /** From 200 the loss of 300 is 150 percent, but from 100 the loss of 200 was 200 percent. */
  lemma {:induction false} NegativeValuesAreUnderstated()
    ensures RunningDrawdown([100.0, 200.0, -100.0]) == 150.0 && Fall(100.0, -100.0) == 200.0
    ensures !LossesBelowZeroCovered([100.0, 200.0, -100.0])
  {
    var es := [100.0, 200.0, -100.0];
    assert es[..2] == [100.0, 200.0] && es[..2][..1] == [100.0];
    assert RunningDrawdown(es) == 150.0;
    assert es[0] == 100.0 && es[2] == -100.0 && Fall(es[0], es[2]) == 200.0;
    RunningIsWorstIff(es);
  }
}
