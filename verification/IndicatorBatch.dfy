/**
 * Reference definitions of every indicator over a whole log of candles, and the proof
 * that the incremental engine computes them, for any stream it is fed.
 */
module IndicatorBatch {
  import opened Common
  import opened Configuration
  import opened Market
  import opened Indicators

  // ---------------------------------------------------------------------
  // Exponential smoothing in closed form
  // ---------------------------------------------------------------------

  function Pow(d: real, n: nat): real {
    if n == 0 then 1.0 else d * Pow(d, n - 1)
  }

  /** The sum of every value weighted by `d` to the power of its age. */
  function Weighted(d: real, xs: seq<real>): real {
    if |xs| == 0 then 0.0 else Pow(d, |xs| - 1) * xs[0] + Weighted(d, xs[1..])
  }

  /** One step of smoothing: a weighted mean of the previous value and the new one. */
  function Blend(a: real, previous: real, x: real): real {
    (1.0 - a) * previous + a * x
  }

  /** Smoothing with factor `a`, seeded by the plain average of the first `n` values. */
  function Smoothed(a: real, n: nat, xs: seq<real>): Option<real>
    requires n > 0
    ensures Smoothed(a, n, xs).Some? <==> |xs| >= n
  {
    if |xs| < n then None
    else if |xs| == n then Some(Average(xs))
    else Some(Blend(a, Smoothed(a, n, xs[..|xs| - 1]).value, xs[|xs| - 1]))
  }

  function EmaFactor(n: nat): real {
    2.0 / ((n + 1) as real)
  }

  function WilderFactor(n: nat): real
    requires n > 0
  {
    1.0 / (n as real)
  }

  function Total(xs: seq<real>): real {
    if |xs| == 0 then 0.0 else Total(xs[..|xs| - 1]) + xs[|xs| - 1]
  }

  lemma {:induction false} SumIsTotal(xs: seq<real>)
    ensures Sum(Itself, xs) == Total(xs)
  {
    if |xs| > 0 {
      SumIsTotal(xs[..|xs| - 1]);
    }
  }

  /** An average times the number of values is their total. */
  lemma {:induction false} AverageIsMean(xs: seq<real>)
    requires |xs| > 0
    ensures Product(Average(xs), |xs| as real) == Total(xs)
  {
    SumIsTotal(xs);
  }

  lemma {:induction false} WeightedAppend(d: real, xs: seq<real>, x: real)
    ensures Weighted(d, xs + [x]) == d * Weighted(d, xs) + x
  {
    if |xs| == 0 {
      assert xs + [x] == [x];
    } else {
      assert (xs + [x])[1..] == xs[1..] + [x];
      WeightedAppend(d, xs[1..], x);
      assert Pow(d, |xs|) * xs[0] == d * (Pow(d, |xs| - 1) * xs[0]);
    }
  }

  /** The decayed seed average plus the decayed later values. */
  function ClosedForm(a: real, n: nat, xs: seq<real>): real
    requires 0 < n <= |xs|
  {
    Pow(1.0 - a, |xs| - n) * Average(xs[..n]) + a * Weighted(1.0 - a, xs[n..])
  }

  lemma {:induction false} DistributeDecay(a: real, p: real, average: real, w: real, x: real)
    ensures Blend(a, p * average + a * w, x) == ((1.0 - a) * p) * average + a * ((1.0 - a) * w + x)
  {
    var d := 1.0 - a;
    assert d * (p * average + a * w) == (d * p) * average + a * (d * w);
  }

  lemma {:induction false} ClosedFormAppend(a: real, n: nat, xs: seq<real>, x: real)
    requires 0 < n <= |xs|
    ensures ClosedForm(a, n, xs + [x]) == Blend(a, ClosedForm(a, n, xs), x)
  {
    var d := 1.0 - a;
    var longer := xs + [x];
    assert longer[..n] == xs[..n] && longer[n..] == xs[n..] + [x];
    WeightedAppend(d, xs[n..], x);
    DistributeDecay(a, Pow(d, |xs| - n), Average(xs[..n]), Weighted(d, xs[n..]), x);
  }

  lemma {:induction false} SmoothedInClosedForm(a: real, n: nat, xs: seq<real>)
    requires 0 < n <= |xs|
    ensures Smoothed(a, n, xs) == Some(ClosedForm(a, n, xs))
  {
    if |xs| == n {
      assert xs[..n] == xs;
    } else {
      var front, x := xs[..|xs| - 1], xs[|xs| - 1];
      assert xs == front + [x];
      SmoothedInClosedForm(a, n, front);
      ClosedFormAppend(a, n, front, x);
    }
  }

  lemma {:induction false} SmoothedAppend(a: real, n: nat, xs: seq<real>, x: real)
    requires 0 < n <= |xs|
    ensures Smoothed(a, n, xs + [x]) == Some(Blend(a, Smoothed(a, n, xs).value, x))
  {
    assert (xs + [x])[..|xs + [x]| - 1] == xs;
  }

  lemma {:induction false} EmaIsSmoothing(value: real, previous: real, n: nat)
    ensures NextEma(value, previous, n) == Blend(EmaFactor(n), previous, value)
  {
    var a := EmaFactor(n);
    var m := (n + 1) as real;
    assert (value - previous) * 2.0 / m == a * (value - previous) by {
      assert (value - previous) * 2.0 == (a * (value - previous)) * m;
      QuotientUnique((value - previous) * 2.0, m, a * (value - previous));
    }
  }

  lemma {:induction false} WilderIsSmoothing(value: real, previous: real, n: nat)
    requires n > 0
    ensures NextWilder(value, previous, n) == Blend(WilderFactor(n), previous, value)
  {
    var a, m := WilderFactor(n), n as real;
    var q := (1.0 - a) * previous + a * value;
    assert a * m == 1.0;
    assert previous * (m - 1.0) + value == q * m by {
      assert q * m == previous * m - (a * m) * previous + (a * m) * value;
    }
    QuotientUnique(previous * (m - 1.0) + value, m, q);
  }

  /** RSI as the share of the average gain in the average movement. */
  function RelativeStrength(gain: real, loss: real): real {
    if gain + loss == 0.0 then 50.0 else 100.0 * gain / (gain + loss)
  }

  lemma {:induction false} RsiIsShareOfMovement(gain: NonNegative, loss: NonNegative)
    ensures RsiFromAverages(gain, loss) == RelativeStrength(gain, loss)
    ensures 0.0 <= RsiFromAverages(gain, loss) <= 100.0
  {
    if gain > 0.0 && loss > 0.0 {
      var s, total := gain / loss, gain + loss;
      assert s > 0.0 && s * loss == gain;
      var q := 100.0 / (1.0 + s);
      assert q * (1.0 + s) == 100.0;
      assert (100.0 - q) * total == 100.0 * gain by {
        assert total == loss * (1.0 + s);
        assert q * total == loss * (q * (1.0 + s));
      }
      QuotientUnique(100.0 * gain, total, 100.0 - q);
      assert 0.0 <= 100.0 - q by {
        assert q <= 100.0 by {
          assert q * s >= 0.0 || q < 0.0;
        }
      }
      assert q >= 0.0;
    } else if gain > 0.0 {
      QuotientUnique(100.0 * gain, gain + loss, 100.0);
    } else if loss > 0.0 {
      QuotientUnique(100.0 * gain, gain + loss, 0.0);
    }
  }

  // ---------------------------------------------------------------------
  // Series derived from a log of candles
  // ---------------------------------------------------------------------

  function Closes(log: seq<Candle>): seq<real> {
    seq(|log|, i requires 0 <= i < |log| => log[i].close)
  }

  function Volumes(log: seq<Candle>): seq<real> {
    seq(|log|, i requires 0 <= i < |log| => log[i].volume)
  }

  function ChangeCount(log: seq<Candle>): nat {
    if |log| == 0 then 0 else |log| - 1
  }

  function Gains(log: seq<Candle>): seq<real> {
    seq(ChangeCount(log), i requires 0 <= i < ChangeCount(log) => Max(log[i + 1].close - log[i].close, 0.0))
  }

  function Losses(log: seq<Candle>): seq<real> {
    seq(ChangeCount(log), i requires 0 <= i < ChangeCount(log) => Max(log[i].close - log[i + 1].close, 0.0))
  }

  function PreviousClose(log: seq<Candle>, i: nat): Option<real>
    requires i <= |log|
  {
    if i == 0 then None else Some(log[i - 1].close)
  }

  /**
   * The span of prices from the previous close to the end of the candle; the last case is that of
   * a candle upside down, which never passes validation.
   */
  function Spread(high: real, low: real, previous: Option<real>): real {
    if previous.None? then high - low
    else if low <= high then Max(high, previous.value) - Min(low, previous.value)
    else Max(Abs(high - previous.value), Abs(low - previous.value))
  }

  lemma {:induction false} TrueRangeIsSpread(high: real, low: real, previous: Option<real>)
    ensures TrueRange(high, low, previous) == Spread(high, low, previous)
  {
  }

  function TrueRanges(log: seq<Candle>): seq<real> {
    seq(|log|, i requires 0 <= i < |log| => Spread(log[i].high, log[i].low, PreviousClose(log, i)))
  }

  function DayLog(log: seq<Candle>, day: int): seq<Candle> {
    Filter((c: Candle) => Day(c.openTime) == day, log)
  }

  function VolumeOf(c: Candle): real {
    c.volume
  }

  /** Three times the value traded, at the mean of high, low and close. */
  function Turnover(c: Candle): real {
    (c.high + c.low + c.close) * c.volume
  }

  lemma {:induction false} TurnoverIsTripled(c: Candle)
    ensures 3.0 * TradedValue(c) == Turnover(c)
  {
    var total := c.high + c.low + c.close;
    assert 3.0 * ((total / 3.0) * c.volume) == (3.0 * (total / 3.0)) * c.volume;
  }

  ghost predicate StrictlyIncreasing(log: seq<Candle>) {
    forall i, j :: 0 <= i < j < |log| ==> log[i].openTime < log[j].openTime
  }

  // ---------------------------------------------------------------------
  // Reference values
  // ---------------------------------------------------------------------

  function BatchEma(log: seq<Candle>, n: nat): Option<real>
    requires n > 0
  {
    Smoothed(EmaFactor(n), n, Closes(log))
  }

  function BatchRsi(log: seq<Candle>, n: nat): Option<real>
    requires n > 0
  {
    if ChangeCount(log) < n then None
    else Some(RelativeStrength(Smoothed(WilderFactor(n), n, Gains(log)).value,
                               Smoothed(WilderFactor(n), n, Losses(log)).value))
  }

  function BatchAtr(log: seq<Candle>, n: nat): Option<real>
    requires n > 0
  {
    Smoothed(WilderFactor(n), n, TrueRanges(log))
  }

  /** Volume-weighted typical price over the UTC day of the newest candle. */
  function BatchVwap(log: seq<Candle>): Option<real>
    requires |log| > 0
  {
    var today := DayLog(log, Day(log[|log| - 1].openTime));
    if Sum(VolumeOf, today) > 0.0 then Some(Ratio(Sum(Turnover, today), 3.0 * Sum(VolumeOf, today))) else None
  }

  function BatchVolumeMa(log: seq<Candle>, n: nat): Option<real>
    requires n > 0
  {
    if |log| < n then None else Some(Average(LastN(Volumes(log), n)))
  }

  /** Every value of the newest candle's snapshot, or none of them while one is still missing. */
  function BatchSnapshot(cfg: Settings, log: seq<Candle>): Snapshot
    requires |log| > 0
  {
    var c := log[|log| - 1];
    var fast, slow := BatchEma(log, cfg.emaFastPeriod), BatchEma(log, cfg.emaSlowPeriod);
    var rsi, atr, vwap := BatchRsi(log, cfg.rsiPeriod), BatchAtr(log, cfg.atrPeriod), BatchVwap(log);
    var volumeMa := BatchVolumeMa(log, cfg.volumeMaPeriod);
    var ready := fast.Some? && slow.Some? && rsi.Some? && atr.Some? && vwap.Some? && volumeMa.Some?;
    Snapshot(
      symbol := c.symbol, timeframe := c.timeframe, openTime := Some(c.openTime), closeTime := Some(c.closeTime),
      close := Some(c.close), volume := Some(c.volume), ready := ready,
      emaFast := if ready then fast else None, emaSlow := if ready then slow else None,
      rsi := if ready then rsi else None, atr := if ready then atr else None,
      vwap := if ready then vwap else None, volumeMa := if ready then volumeMa else None)
  }

  // ---------------------------------------------------------------------
  // The incremental state agrees with the reference values
  // ---------------------------------------------------------------------

  /** The state reached after the candles of `log` were accepted one by one. */
  function StateOf(cfg: Settings, log: seq<Candle>): IndicatorState {
    if |log| == 0 then INITIAL
    else Advance(cfg, StateOf(cfg, log[..|log| - 1]), log[|log| - 1]).0
  }

  /** A moving average and its seed describe the series `values`. */
  ghost predicate Tracks(a: real, n: nat, e: Ema, values: seq<real>)
    requires n > 0
  {
    && e.seed == (if |values| < n then values else values[..n])
    && e.value == Smoothed(a, n, values)
  }

  ghost predicate TracksMomentum(n: nat, m: Momentum, gains: seq<real>, losses: seq<real>)
    requires n > 0
  {
    && |gains| == |losses|
    && Tracks(WilderFactor(n), n, Ema(m.gains, m.averageGain), gains)
    && Tracks(WilderFactor(n), n, Ema(m.losses, m.averageLoss), losses)
  }

  ghost predicate TracksSession(s: Session, log: seq<Candle>) {
    if |log| == 0 then s.day == None
    else
      var day := Day(log[|log| - 1].openTime);
      && s.day == Some(day) && 3.0 * s.numerator == Sum(Turnover, DayLog(log, day))
      && s.volume == Sum(VolumeOf, DayLog(log, day))
  }

  ghost predicate TracksAll(cfg: Settings, s: IndicatorState, log: seq<Candle>) {
    && Tracks(EmaFactor(cfg.emaFastPeriod), cfg.emaFastPeriod, s.fast, Closes(log))
    && Tracks(EmaFactor(cfg.emaSlowPeriod), cfg.emaSlowPeriod, s.slow, Closes(log))
    && s.previousClose == PreviousClose(log, |log|)
    && TracksMomentum(cfg.rsiPeriod, s.momentum, Gains(log), Losses(log))
    && Tracks(WilderFactor(cfg.atrPeriod), cfg.atrPeriod, s.range, TrueRanges(log))
    && TracksSession(s.session, log)
    && s.volumes == LastN(Volumes(log), cfg.volumeMaPeriod)
    && s.lastOpenTime == (if |log| == 0 then None else Some(log[|log| - 1].openTime))
  }

  lemma {:induction false} SmoothingStep(a: real, n: nat, e: Ema, values: seq<real>, x: real)
    requires n > 0 && Tracks(a, n, e, values)
    ensures |values| + 1 < n ==> Tracks(a, n, Ema(e.seed + [x], None), values + [x])
    ensures |values| + 1 == n ==> Tracks(a, n, Ema(e.seed + [x], Some(Average(e.seed + [x]))), values + [x])
    ensures |values| >= n ==> e.value.Some? && Tracks(a, n, Ema(e.seed, Some(Blend(a, e.value.value, x))), values + [x])
    ensures |values| < n ==> e == Ema(values, None)
  {
    if |values| + 1 == n {
      assert (values + [x])[..n] == values + [x];
    } else if |values| >= n {
      SmoothedAppend(a, n, values, x);
      assert (values + [x])[..n] == values[..n];
    }
  }

  lemma {:induction false} EmaStep(n: nat, e: Ema, values: seq<real>, x: real)
    requires n > 0 && Tracks(EmaFactor(n), n, e, values)
    ensures Tracks(EmaFactor(n), n, UpdateEma(n, e, x), values + [x])
  {
    SmoothingStep(EmaFactor(n), n, e, values, x);
    if e.value.Some? {
      EmaIsSmoothing(x, e.value.value, n);
    }
  }

  lemma {:induction false} SeriesGrow(log: seq<Candle>, c: Candle)
    ensures Closes(log + [c]) == Closes(log) + [c.close]
    ensures Volumes(log + [c]) == Volumes(log) + [c.volume]
  {
  }

  lemma {:induction false} RangesGrow(log: seq<Candle>, c: Candle)
    ensures TrueRanges(log + [c]) == TrueRanges(log) + [TrueRange(c.high, c.low, PreviousClose(log, |log|))]
  {
    var grown := log + [c];
    var r := TrueRanges(log) + [TrueRange(c.high, c.low, PreviousClose(log, |log|))];
    forall i | 0 <= i < |grown| ensures TrueRanges(grown)[i] == r[i] {
      assert PreviousClose(grown, i) == PreviousClose(log, i);
    }
  }

  lemma {:induction false} ChangesGrow(log: seq<Candle>, c: Candle)
    ensures |log| == 0 ==> Gains(log + [c]) == [] && Losses(log + [c]) == []
    ensures |log| > 0 ==> Gains(log + [c]) == Gains(log) + [Max(c.close - log[|log| - 1].close, 0.0)]
    ensures |log| > 0 ==> Losses(log + [c]) == Losses(log) + [Max(-(c.close - log[|log| - 1].close), 0.0)]
  {
  }

  lemma {:induction false} DayLogGrow(log: seq<Candle>, c: Candle)
    requires StrictlyIncreasing(log + [c])
    ensures DayLog(log + [c], Day(c.openTime)) == DayLog(log, Day(c.openTime)) + [c]
    ensures |log| > 0 && Day(log[|log| - 1].openTime) != Day(c.openTime) ==> DayLog(log, Day(c.openTime)) == []
    ensures |log| == 0 ==> DayLog(log, Day(c.openTime)) == []
  {
    var grown := log + [c];
    assert grown[..|grown| - 1] == log;
    if |log| > 0 && Day(log[|log| - 1].openTime) != Day(c.openTime) {
      var last := log[|log| - 1];
      assert grown[|log| - 1].openTime < grown[|log|].openTime;
      forall i | 0 <= i < |log| ensures Day(log[i].openTime) < Day(c.openTime) {
        assert grown[i] == log[i] && grown[|log| - 1] == last;
        assert i < |log| - 1 ==> grown[i].openTime < grown[|log| - 1].openTime;
      }
    }
  }

  lemma {:induction false} WilderStep(n: nat, e: Ema, values: seq<real>, x: real)
    requires n > 0 && Tracks(WilderFactor(n), n, e, values)
    ensures Tracks(WilderFactor(n), n, UpdateWilder(n, e, x), values + [x])
  {
    SmoothingStep(WilderFactor(n), n, e, values, x);
    if e.value.Some? {
      WilderIsSmoothing(x, e.value.value, n);
    }
  }

  /** The joint update of gains and losses is two separate Wilder averages. */
  lemma {:induction false} MomentumIsTwoAverages(n: nat, previous: real, m: Momentum, close: real)
    requires n > 0 && |m.gains| == |m.losses| && (m.averageGain.None? <==> m.averageLoss.None?)
    ensures var next := UpdateRsi(n, Some(previous), m, close).0;
            && Ema(next.gains, next.averageGain)
              == UpdateWilder(n, Ema(m.gains, m.averageGain), Max(close - previous, 0.0))
            && Ema(next.losses, next.averageLoss)
              == UpdateWilder(n, Ema(m.losses, m.averageLoss), Max(-(close - previous), 0.0))
  {
  }

  lemma {:induction false} TwoAveragesStep(
    n: nat, previous: real, m: Momentum, gains: seq<real>, losses: seq<real>, close: real)
    requires n > 0 && TracksMomentum(n, m, gains, losses)
    ensures TracksMomentum(n, UpdateRsi(n, Some(previous), m, close).0,
                           gains + [Max(close - previous, 0.0)], losses + [Max(-(close - previous), 0.0)])
  {
    MomentumIsTwoAverages(n, previous, m, close);
    WilderStep(n, Ema(m.gains, m.averageGain), gains, Max(close - previous, 0.0));
    WilderStep(n, Ema(m.losses, m.averageLoss), losses, Max(-(close - previous), 0.0));
  }

  lemma {:induction false} MomentumStep(n: nat, m: Momentum, log: seq<Candle>, c: Candle)
    requires n > 0 && TracksMomentum(n, m, Gains(log), Losses(log))
    ensures TracksMomentum(
              n, UpdateRsi(n, PreviousClose(log, |log|), m, c.close).0, Gains(log + [c]), Losses(log + [c]))
  {
    ChangesGrow(log, c);
    if |log| > 0 {
      TwoAveragesStep(n, log[|log| - 1].close, m, Gains(log), Losses(log), c.close);
    }
  }

  /** RSI appears as soon as the averages do, is their reference value, and stays in range. */
  lemma {:induction false} RsiStep(n: nat, m: Momentum, log: seq<Candle>, c: Candle)
    requires n > 0 && TracksMomentum(n, m, Gains(log), Losses(log))
    ensures var rsi := UpdateRsi(n, PreviousClose(log, |log|), m, c.close).1;
            rsi == BatchRsi(log + [c], n) && (rsi.Some? ==> 0.0 <= rsi.value <= 100.0)
  {
    MomentumStep(n, m, log, c);
    ChangesGrow(log, c);
    var next := UpdateRsi(n, PreviousClose(log, |log|), m, c.close).0;
    if next.averageGain.Some? && next.averageLoss.Some? {
      RsiIsShareOfMovement(next.averageGain.value, next.averageLoss.value);
    }
  }

  lemma {:induction false} AtrStep(n: nat, e: Ema, log: seq<Candle>, c: Candle)
    requires n > 0 && Tracks(WilderFactor(n), n, e, TrueRanges(log))
    ensures Tracks(WilderFactor(n), n, UpdateAtr(n, PreviousClose(log, |log|), e, c), TrueRanges(log + [c]))
  {
    RangesGrow(log, c);
    WilderStep(n, e, TrueRanges(log), TrueRange(c.high, c.low, PreviousClose(log, |log|)));
    TrueRangeIsSpread(c.high, c.low, PreviousClose(log, |log|));
  }

  lemma {:induction false} VwapStep(s: Session, log: seq<Candle>, c: Candle)
    requires TracksSession(s, log) && StrictlyIncreasing(log + [c])
    ensures TracksSession(UpdateVwap(s, c).0, log + [c])
    ensures UpdateVwap(s, c).1 == BatchVwap(log + [c])
  {
    DayLogGrow(log, c);
    var today := DayLog(log, Day(c.openTime));
    SumAppend(Turnover, today, c);
    SumAppend(VolumeOf, today, c);
    TurnoverIsTripled(c);
    var next := UpdateVwap(s, c).0;
    assert TracksSession(next, log + [c]);
    VwapOfSession(next, log + [c]);
  }

  /** The tripled sums have the same quotient. */
  lemma {:induction false} VwapOfSession(s: Session, log: seq<Candle>)
    requires |log| > 0 && TracksSession(s, log)
    ensures BatchVwap(log) == if s.volume > 0.0 then Some(Ratio(s.numerator, s.volume)) else None
  {
    if s.volume > 0.0 {
      ScaledRatio(3.0, s.numerator, s.volume);
    }
  }

  lemma {:induction false} ScaledRatio(k: real, a: real, b: real)
    requires k != 0.0 && b != 0.0
    ensures Ratio(k * a, k * b) == Ratio(a, b)
  {
    var q := a / b;
    assert k * a == q * (k * b);
    QuotientUnique(k * a, k * b, q);
  }

  lemma {:induction false} VolumeStep(n: nat, volumes: seq<real>, log: seq<Candle>, c: Candle)
    requires n > 0 && volumes == LastN(Volumes(log), n)
    ensures LastN(volumes + [c.volume], n) == LastN(Volumes(log + [c]), n)
    ensures VolumeMa(n, LastN(volumes + [c.volume], n)) == BatchVolumeMa(log + [c], n)
  {
    SeriesGrow(log, c);
    LastNAppend(Volumes(log), c.volume, n);
  }

  lemma {:induction false} SnapshotOfParts(cfg: Settings, log: seq<Candle>, c: Candle)
    requires |log| > 0 && c == log[|log| - 1]
    ensures MakeSnapshot(c, BatchEma(log, cfg.emaFastPeriod), BatchEma(log, cfg.emaSlowPeriod),
                         BatchRsi(log, cfg.rsiPeriod), BatchAtr(log, cfg.atrPeriod), BatchVwap(log),
                         BatchVolumeMa(log, cfg.volumeMaPeriod)) == BatchSnapshot(cfg, log)
  {
  }

  /** One accepted candle: the new state tracks the longer log and the snapshot is the reference one. */
  lemma {:induction false} AdvanceMatchesBatch(cfg: Settings, s: IndicatorState, log: seq<Candle>, c: Candle)
    requires TracksAll(cfg, s, log) && StrictlyIncreasing(log + [c])
    ensures TracksAll(cfg, Advance(cfg, s, c).0, log + [c])
    ensures Advance(cfg, s, c).1 == BatchSnapshot(cfg, log + [c])
  {
    SeriesGrow(log, c);
    EmaStep(cfg.emaFastPeriod, s.fast, Closes(log), c.close);
    EmaStep(cfg.emaSlowPeriod, s.slow, Closes(log), c.close);
    MomentumStep(cfg.rsiPeriod, s.momentum, log, c);
    RsiStep(cfg.rsiPeriod, s.momentum, log, c);
    AtrStep(cfg.atrPeriod, s.range, log, c);
    VwapStep(s.session, log, c);
    VolumeStep(cfg.volumeMaPeriod, s.volumes, log, c);
    SnapshotOfParts(cfg, log + [c], c);
  }

  lemma {:induction false} StateOfAppend(cfg: Settings, log: seq<Candle>, c: Candle)
    ensures StateOf(cfg, log + [c]) == Advance(cfg, StateOf(cfg, log), c).0
  {
    assert (log + [c])[..|log|] == log;
  }

  lemma {:induction false} NothingTracked(cfg: Settings)
    ensures TracksAll(cfg, StateOf(cfg, []), [])
  {
  }

  lemma {:induction false} TracksOneMore(cfg: Settings, front: seq<Candle>, c: Candle, log: seq<Candle>)
    requires TracksAll(cfg, StateOf(cfg, front), front) && StrictlyIncreasing(log) && log == front + [c]
    ensures TracksAll(cfg, StateOf(cfg, log), log)
  {
    AdvanceMatchesBatch(cfg, StateOf(cfg, front), front, c);
    StateOfAppend(cfg, front, c);
  }

  lemma {:induction false} IncrementalIsBatch(cfg: Settings, log: seq<Candle>)
    requires StrictlyIncreasing(log)
    ensures TracksAll(cfg, StateOf(cfg, log), log)
  {
    if |log| == 0 {
      NothingTracked(cfg);
    } else {
      var front, c := log[..|log| - 1], log[|log| - 1];
      assert log == front + [c];
      IncrementalIsBatch(cfg, front);
      TracksOneMore(cfg, front, c, log);
    }
  }

  // ---------------------------------------------------------------------
  // Any stream: duplicates, late candles, open candles and other symbols
  // ---------------------------------------------------------------------

  /** The engine after a stream; a candle that raises leaves the engine as it was. */
  function Run(cfg: Settings, stream: seq<Candle>): map<Key, IndicatorState> {
    if |stream| == 0 then map[] else After(cfg, Run(cfg, stream[..|stream| - 1]), stream[|stream| - 1])
  }

  function After(cfg: Settings, states: map<Key, IndicatorState>, c: Candle): map<Key, IndicatorState> {
    match Process(cfg, states, c)
    case Ok(p) => p.0
    case Err(_) => states
  }

  predicate Eligible(cfg: Settings, k: Key, c: Candle) {
    c.isClosed && KeyOf(c) == k && ValidateCandle(c, cfg.symbols, cfg.defaultTimeframe).None?
  }

  /** Position `i` holds a closed valid candle of `k` that opens later than every one before it. */
  ghost predicate IsRecord(cfg: Settings, k: Key, stream: seq<Candle>, i: nat)
    requires i < |stream|
  {
    && Eligible(cfg, k, stream[i])
    && forall j :: 0 <= j < i && Eligible(cfg, k, stream[j]) ==> stream[j].openTime < stream[i].openTime
  }

  ghost function Accepted(cfg: Settings, k: Key, stream: seq<Candle>): seq<Candle> {
    if |stream| == 0 then []
    else
      var before := Accepted(cfg, k, stream[..|stream| - 1]);
      if IsRecord(cfg, k, stream, |stream| - 1) then before + [stream[|stream| - 1]] else before
  }

  lemma {:induction false} AcceptedAreEligible(cfg: Settings, k: Key, stream: seq<Candle>)
    ensures forall c :: c in Accepted(cfg, k, stream) ==> Eligible(cfg, k, c) && c in stream
  {
    if |stream| > 0 {
      AcceptedAreEligible(cfg, k, stream[..|stream| - 1]);
    }
  }

  lemma {:induction false} AcceptedIsIncreasing(cfg: Settings, k: Key, stream: seq<Candle>)
    ensures StrictlyIncreasing(Accepted(cfg, k, stream))
    ensures var a := Accepted(cfg, k, stream);
            forall c :: c in stream && Eligible(cfg, k, c) ==> |a| > 0 && c.openTime <= a[|a| - 1].openTime
  {
    if |stream| > 0 {
      var front, c := stream[..|stream| - 1], stream[|stream| - 1];
      AcceptedIsIncreasing(cfg, k, front);
      AcceptedAreEligible(cfg, k, front);
      var before := Accepted(cfg, k, front);
      if IsRecord(cfg, k, stream, |stream| - 1) {
        forall x | x in before ensures x.openTime < c.openTime {
          var j :| 0 <= j < |front| && front[j] == x;
          assert stream[j] == x;
        }
      } else if Eligible(cfg, k, c) {
        var j :| 0 <= j < |stream| - 1 && Eligible(cfg, k, stream[j]) && stream[j].openTime >= c.openTime;
        assert front[j] == stream[j];
      }
    }
  }

  /** Being newer than the last accepted candle is the same as being newer than all of them. */
  lemma {:induction false} NewerMeansRecord(cfg: Settings, stream: seq<Candle>, c: Candle)
    ensures var a := Accepted(cfg, KeyOf(c), stream);
            IsRecord(cfg, KeyOf(c), stream + [c], |stream|) <==>
            Eligible(cfg, KeyOf(c), c) && (|a| == 0 || c.openTime > a[|a| - 1].openTime)
  {
    var k := KeyOf(c);
    AcceptedIsIncreasing(cfg, k, stream);
    AcceptedAreEligible(cfg, k, stream);
    var a := Accepted(cfg, k, stream);
    var grown := stream + [c];
    if IsRecord(cfg, k, grown, |stream|) && |a| > 0 {
      var last := a[|a| - 1];
      assert last in a;
      var j :| 0 <= j < |stream| && stream[j] == last;
      assert grown[j] == last;
    }
    if Eligible(cfg, k, c) && (|a| == 0 || c.openTime > a[|a| - 1].openTime) {
      forall j | 0 <= j < |stream| && Eligible(cfg, k, grown[j])
        ensures grown[j].openTime < c.openTime
      {
        assert grown[j] == stream[j];
      }
    }
  }

  lemma {:induction false} RecordExtends(cfg: Settings, k: Key, stream: seq<Candle>, c: Candle)
    ensures var log, longer := Accepted(cfg, k, stream), Accepted(cfg, k, stream + [c]);
            && longer == (if IsRecord(cfg, k, stream + [c], |stream|) then log + [c] else log)
            && StrictlyIncreasing(longer)
  {
    assert (stream + [c])[..|stream|] == stream;
    AcceptedIsIncreasing(cfg, k, stream + [c]);
  }

  /** Only an eligible and newer candle changes a state, and only that of its own key. */
  lemma {:induction false} ProcessTouchesOneKey(cfg: Settings, states: map<Key, IndicatorState>, c: Candle, k: Key)
    ensures var s := StateAt(states, k);
            var published := Process(cfg, states, c);
            if Eligible(cfg, k, c) && IsNewer(s, c) then
              && StateAt(After(cfg, states, c), k) == Advance(cfg, s, c).0
              && published.Ok? && published.value.1 == Some(Advance(cfg, s, c).1)
            else
              && StateAt(After(cfg, states, c), k) == s
              && (k == KeyOf(c) ==> published.Err? || published.value.1.None?)
  {
  }

  lemma {:induction false} StateRemembersLastTime(cfg: Settings, log: seq<Candle>)
    ensures StateOf(cfg, log).lastOpenTime == (if |log| == 0 then None else Some(log[|log| - 1].openTime))
  {
  }

  lemma {:induction false} StepRefines(
    cfg: Settings, states: map<Key, IndicatorState>, log: seq<Candle>, c: Candle, k: Key, record: bool)
    requires StateAt(states, k) == StateOf(cfg, log)
    requires record <==> Eligible(cfg, k, c) && (|log| == 0 || c.openTime > log[|log| - 1].openTime)
    ensures StateAt(After(cfg, states, c), k) == StateOf(cfg, if record then log + [c] else log)
  {
    ProcessTouchesOneKey(cfg, states, c, k);
    StateRemembersLastTime(cfg, log);
    StateOfAppend(cfg, log, c);
  }

  /**
   * For any stream whatever, the state kept for a symbol is the state of the batch
   * definitions over the record-setting closed candles of that symbol, and nothing else.
   */
  lemma {:induction false} EngineRefinesBatch(cfg: Settings, stream: seq<Candle>, k: Key)
    ensures StateAt(Run(cfg, stream), k) == StateOf(cfg, Accepted(cfg, k, stream))
  {
    if |stream| > 0 {
      var front, c := stream[..|stream| - 1], stream[|stream| - 1];
      assert stream == front + [c];
      EngineRefinesBatch(cfg, front, k);
      RecordExtends(cfg, k, front, c);
      if Eligible(cfg, k, c) {
        NewerMeansRecord(cfg, front, c);
      }
      StepRefines(cfg, Run(cfg, front), Accepted(cfg, k, front), c, k, IsRecord(cfg, k, stream, |front|));
    }
  }

  predicate Publishes(cfg: Settings, states: map<Key, IndicatorState>, c: Candle, snapshot: Option<Snapshot>) {
    match Process(cfg, states, c)
    case Ok(p) => p.1 == snapshot
    case Err(_) => snapshot.None?
  }

  lemma {:induction false} PublishesAdvance(cfg: Settings, states: map<Key, IndicatorState>, c: Candle)
    ensures var s := StateAt(states, KeyOf(c));
            Publishes(cfg, states, c,
                      if Eligible(cfg, KeyOf(c), c) && IsNewer(s, c) then Some(Advance(cfg, s, c).1) else None)
  {
  }

  lemma {:induction false} AdvanceSnapshot(cfg: Settings, s: IndicatorState, log: seq<Candle>, c: Candle)
    requires TracksAll(cfg, s, log) && StrictlyIncreasing(log + [c])
    ensures Advance(cfg, s, c).1 == BatchSnapshot(cfg, log + [c])
  {
    AdvanceMatchesBatch(cfg, s, log, c);
  }

  /** A snapshot is published exactly for a record candle, and it holds the reference values. */
  lemma {:induction false} PublishesBatchSnapshot(cfg: Settings, stream: seq<Candle>, c: Candle)
    ensures var log := Accepted(cfg, KeyOf(c), stream + [c]);
            if IsRecord(cfg, KeyOf(c), stream + [c], |stream|) then
              |log| > 0 && Publishes(cfg, Run(cfg, stream), c, Some(BatchSnapshot(cfg, log)))
            else Publishes(cfg, Run(cfg, stream), c, None)
  {
    var k, states := KeyOf(c), Run(cfg, stream);
    EngineRefinesBatch(cfg, stream, k);
    StateRemembersLastTime(cfg, Accepted(cfg, k, stream));
    NewerMeansRecord(cfg, stream, c);
    RecordExtends(cfg, k, stream, c);
    PublishesAdvance(cfg, states, c);
    if IsRecord(cfg, k, stream + [c], |stream|) {
      AcceptedIsIncreasing(cfg, k, stream);
      IncrementalIsBatch(cfg, Accepted(cfg, k, stream));
      AdvanceSnapshot(cfg, StateAt(states, k), Accepted(cfg, k, stream), c);
    }
  }

  // ---------------------------------------------------------------------
  // Readiness and bounds
  // ---------------------------------------------------------------------

  /** A snapshot is ready once the longest window is filled and the day has traded. */
  lemma {:induction false} ReadyIff(cfg: Settings, log: seq<Candle>)
    requires |log| > 0
    ensures BatchSnapshot(cfg, log).ready <==>
      && |log| >= cfg.emaSlowPeriod && |log| >= cfg.rsiPeriod + 1
      && |log| >= cfg.atrPeriod && |log| >= cfg.volumeMaPeriod
      && Sum(VolumeOf, DayLog(log, Day(log[|log| - 1].openTime))) > 0.0
  {
  }

  ghost predicate Within(lo: real, hi: real, xs: seq<real>) {
    forall i :: 0 <= i < |xs| ==> lo <= xs[i] <= hi
  }

  lemma {:induction false} SumWithin(lo: real, hi: real, xs: seq<real>)
    requires Within(lo, hi, xs)
    ensures Product(lo, |xs| as real) <= Sum(Itself, xs) <= Product(hi, |xs| as real)
  {
    if |xs| > 0 {
      SumWithin(lo, hi, xs[..|xs| - 1]);
      OneMoreTime(lo, |xs| - 1);
      OneMoreTime(hi, |xs| - 1);
    }
  }

  lemma {:induction false} OneMoreTime(x: real, n: nat)
    ensures Product(x, (n + 1) as real) == Product(x, n as real) + x
  {
  }

  lemma {:induction false} AverageWithin(lo: real, hi: real, xs: seq<real>)
    requires |xs| > 0 && Within(lo, hi, xs)
    ensures lo <= Average(xs) <= hi
  {
    SumWithin(lo, hi, xs);
    QuotientWithin(lo, hi, Sum(Itself, xs), |xs| as real);
  }

  lemma {:induction false} BlendWithin(a: real, previous: real, x: real, lo: real, hi: real)
    requires 0.0 <= a <= 1.0 && lo <= previous <= hi && lo <= x <= hi
    ensures lo <= Blend(a, previous, x) <= hi
  {
    ProductNonNegative(1.0 - a, previous - lo);
    ProductNonNegative(1.0 - a, hi - previous);
    ProductNonNegative(a, x - lo);
    ProductNonNegative(a, hi - x);
  }

  lemma {:induction false} SmoothedWithin(a: real, n: nat, xs: seq<real>, lo: real, hi: real)
    requires 0.0 <= a <= 1.0 && 0 < n <= |xs| && Within(lo, hi, xs)
    ensures lo <= Smoothed(a, n, xs).value <= hi
  {
    if |xs| == n {
      AverageWithin(lo, hi, xs);
    } else {
      var front := xs[..|xs| - 1];
      SmoothedWithin(a, n, front, lo, hi);
      BlendWithin(a, Smoothed(a, n, front).value, xs[|xs| - 1], lo, hi);
    }
  }

  lemma {:induction false} FactorsAreFractions(n: nat)
    requires n > 0
    ensures 0.0 < EmaFactor(n) <= 1.0 && 0.0 < WilderFactor(n) <= 1.0
  {
  }

  /** An EMA lies between the lowest and the highest accepted close, an ATR between the extreme ranges. */
  lemma {:induction false} AveragesStayWithinInputs(log: seq<Candle>, n: nat, lo: real, hi: real)
    requires 0 < n <= |log|
    ensures Within(lo, hi, Closes(log)) ==> lo <= BatchEma(log, n).value <= hi
    ensures Within(lo, hi, TrueRanges(log)) ==> lo <= BatchAtr(log, n).value <= hi
  {
    FactorsAreFractions(n);
    if Within(lo, hi, Closes(log)) {
      SmoothedWithin(EmaFactor(n), n, Closes(log), lo, hi);
    }
    if Within(lo, hi, TrueRanges(log)) {
      SmoothedWithin(WilderFactor(n), n, TrueRanges(log), lo, hi);
    }
  }

  lemma {:induction false} OneTradeWithin(lo: real, hi: real, c: Candle)
    requires WellFormed(c) && lo <= c.low && c.high <= hi
    ensures Product(3.0 * lo, c.volume) <= Turnover(c) <= Product(3.0 * hi, c.volume)
  {
    var total := c.high + c.low + c.close;
    ProductNonNegative(total - 3.0 * lo, c.volume);
    ProductNonNegative(3.0 * hi - total, c.volume);
  }

  lemma {:induction false} ProductOfSum(a: real, b: real, c: real)
    ensures Product(a, b + c) == Product(a, b) + Product(a, c)
  {
  }

  lemma {:induction false} QuotientWithin(lo: real, hi: real, x: real, y: real)
    requires y > 0.0 && Product(lo, y) <= x <= Product(hi, y)
    ensures lo <= Ratio(x, y) <= hi
  {
    ScaleOrder(y, lo, x / y);
    ScaleOrder(y, x / y, hi);
  }

  ghost predicate PricedWithin(lo: real, hi: real, cs: seq<Candle>) {
    forall i :: 0 <= i < |cs| ==> WellFormed(cs[i]) && lo <= cs[i].low && cs[i].high <= hi
  }

  lemma {:induction false} TurnoverWithin(lo: real, hi: real, cs: seq<Candle>)
    requires PricedWithin(lo, hi, cs)
    ensures Product(3.0 * lo, Sum(VolumeOf, cs)) <= Sum(Turnover, cs) <= Product(3.0 * hi, Sum(VolumeOf, cs))
  {
    if |cs| > 0 {
      var front, c := cs[..|cs| - 1], cs[|cs| - 1];
      TurnoverWithin(lo, hi, front);
      OneTradeWithin(lo, hi, c);
      ProductOfSum(3.0 * lo, Sum(VolumeOf, front), c.volume);
      ProductOfSum(3.0 * hi, Sum(VolumeOf, front), c.volume);
    }
  }

  lemma {:induction false} ThreeTimes(price: real, volume: real)
    ensures Product(price, 3.0 * volume) == Product(3.0 * price, volume)
  {
  }

  /** VWAP lies between the lowest low and the highest high of the current day. */
  lemma {:induction false} VwapStaysWithinDay(log: seq<Candle>, lo: real, hi: real)
    requires |log| > 0 && PricedWithin(lo, hi, DayLog(log, Day(log[|log| - 1].openTime)))
    ensures BatchVwap(log).Some? ==> lo <= BatchVwap(log).value <= hi
  {
    var today := DayLog(log, Day(log[|log| - 1].openTime));
    TurnoverWithin(lo, hi, today);
    var value, volume := Sum(Turnover, today), Sum(VolumeOf, today);
    if volume > 0.0 {
      ThreeTimes(lo, volume);
      ThreeTimes(hi, volume);
      QuotientWithin(lo, hi, value, 3.0 * volume);
    }
  }

  /** RSI is a percentage on every reachable state. */
  lemma {:induction false} RsiStaysInRange(cfg: Settings, log: seq<Candle>)
    requires StrictlyIncreasing(log) && BatchRsi(log, cfg.rsiPeriod).Some?
    ensures 0.0 <= BatchRsi(log, cfg.rsiPeriod).value <= 100.0
  {
    if |log| > 0 {
      var front, c := log[..|log| - 1], log[|log| - 1];
      assert log == front + [c];
      IncrementalIsBatch(cfg, front);
      RsiStep(cfg.rsiPeriod, StateOf(cfg, front).momentum, front, c);
    }
  }
}
