/**
 * What the figures of a parameter search mean, in terms of the request, the settings and the
 * backtests behind them: spans, metrics, scores, gates, stability and research.
 */
module OptimizerFigures {
  import opened Common
  import opened Configuration
  import opened Market
  import opened Backtest
  import opened Optimizer
  import opened OptimizerGuarantees

  // ---------------------------------------------------------------------
  // Spans
  // ---------------------------------------------------------------------

  /** A span of so many milliseconds, to the nearest one. */
  ghost predicate Lasts(from: int, to: int, length: real) {
    -0.5 <= (to - from) as real - length <= 0.5
  }

  ghost predicate SpansOf(q: Search, trainEnd: int, validationEnd: int) {
    var span := (q.end - q.start) as real;
    && Lasts(q.start, trainEnd, Product(span, q.trainFraction))
    && Lasts(trainEnd, validationEnd, Product(span, q.validationFraction))
  }

  /** Training takes its fraction of the request, and validation takes its own right after it. */
  lemma {:induction false} SegmentsTakeTheirFractions(q: Search)
    ensures SpansOf(q, TrainEnd(q), ValidationEnd(q))
  {
  }

  lemma {:induction false} ThirtyDaysAreSplit()
    ensures TrainEnd(THIRTY_DAYS) == 18 * DAY_MS && ValidationEnd(THIRTY_DAYS) == 24 * DAY_MS
  {
  }

  // ---------------------------------------------------------------------
  // Settings of a candidate
  // ---------------------------------------------------------------------

  /** The value of a field in some settings. */
  function Reading(cfg: SettingsRecord, f: Field): real {
    match f
    case EmaFastPeriod => cfg.emaFastPeriod as real
    case EmaSlowPeriod => cfg.emaSlowPeriod as real
    case RsiLongMin => cfg.rsiLongMin
    case RsiLongMax => cfg.rsiLongMax
    case RsiShortMin => cfg.rsiShortMin
    case RsiShortMax => cfg.rsiShortMax
    case SignalMinScore => cfg.signalMinScore as real
    case MinVwapDistanceBps => cfg.minVwapDistanceBps
    case MinEmaSeparationBps => cfg.minEmaSeparationBps
    case MinVolumeRatio => cfg.minVolumeRatio
    case MinAtrBps => cfg.minAtrBps
    case MaxAtrBps => cfg.maxAtrBps
    case AtrStopMultiplier => cfg.atrStopMultiplier
    case TargetRr => cfg.targetRr
  }

  /** Whatever a search cannot vary. */
  function Fixed(cfg: SettingsRecord): SettingsRecord {
    cfg.(emaFastPeriod := 0, emaSlowPeriod := 0, rsiLongMin := 0.0, rsiLongMax := 0.0, rsiShortMin := 0.0,
         rsiShortMax := 0.0, signalMinScore := 0, minVwapDistanceBps := 0.0, minEmaSeparationBps := 0.0,
         minVolumeRatio := 0.0, minAtrBps := 0.0, maxAtrBps := 0.0, atrStopMultiplier := 0.0, targetRr := 0.0)
  }

  lemma {:induction false} OneSettingApplies(cfg: SettingsRecord, s: Setting, f: Field)
    requires With(cfg, s).Some?
    ensures Reading(With(cfg, s).value, f) == if f == s.field then s.value else Reading(cfg, f)
    ensures Fixed(With(cfg, s).value) == Fixed(cfg)
  {
  }

  /** The last value given for a field, or the one it had. */
  function LastGiven(ss: seq<Setting>, f: Field, otherwise: real): real {
    if |ss| == 0 then otherwise
    else if ss[|ss| - 1].field == f then ss[|ss| - 1].value
    else LastGiven(ss[..|ss| - 1], f, otherwise)
  }

  lemma {:induction false} SettingsApply(cfg: SettingsRecord, ss: seq<Setting>, f: Field)
    requires WithAll(cfg, ss).Some?
    ensures Reading(WithAll(cfg, ss).value, f) == LastGiven(ss, f, Reading(cfg, f))
    ensures Fixed(WithAll(cfg, ss).value) == Fixed(cfg)
  {
    if |ss| > 0 {
      SettingsApply(cfg, ss[..|ss| - 1], f);
      OneSettingApplies(WithAll(cfg, ss[..|ss| - 1]).value, ss[|ss| - 1], f);
    }
  }

  /** A candidate is replayed with its own parameters, and otherwise with the settings of the engine. */
  ghost predicate SetAs(judge: Settings, ss: seq<Setting>, cfg: Settings) {
    Fixed(cfg) == Fixed(judge) && forall f :: Reading(cfg, f) == LastGiven(ss, f, Reading(judge, f))
  }

  predicate Equals(n: int, x: real) {
    n as real == x
  }

  /** Periods are whole and positive, the minimum score is whole; other values may be any number. */
  ghost predicate Fits(s: Setting) {
    match s.field
    case EmaFastPeriod => exists n: int :: n > 0 && Equals(n, s.value)
    case EmaSlowPeriod => exists n: int :: n > 0 && Equals(n, s.value)
    case SignalMinScore => exists n: int :: Equals(n, s.value)
    case _ => true
  }

  lemma {:induction false} OneSettingFits(cfg: SettingsRecord, s: Setting)
    ensures With(cfg, s).Some? <==> Fits(s)
  {
    assert Equals(s.value.Floor, s.value) <==> Whole(s.value).Some?;
  }

  ghost predicate AllFit(ss: seq<Setting>) {
    forall i :: 0 <= i < |ss| ==> Fits(ss[i])
  }

  lemma {:induction false} AllSettingsFit(cfg: SettingsRecord, ss: seq<Setting>)
    ensures WithAll(cfg, ss).Some? <==> AllFit(ss)
  {
    if |ss| > 0 {
      var front := ss[..|ss| - 1];
      AllSettingsFit(cfg, front);
      assert AllFit(ss) <==> AllFit(front) && Fits(ss[|ss| - 1]);
      if WithAll(cfg, front).Some? {
        OneSettingFits(WithAll(cfg, front).value, ss[|ss| - 1]);
      }
    }
  }

  lemma {:induction false} ReadingsDecide(a: SettingsRecord, b: SettingsRecord)
    requires Fixed(a) == Fixed(b) && forall f :: Reading(a, f) == Reading(b, f)
    ensures a == b
  {
    assert Reading(a, EmaFastPeriod) == Reading(b, EmaFastPeriod);
    assert Reading(a, EmaSlowPeriod) == Reading(b, EmaSlowPeriod);
    assert Reading(a, RsiLongMin) == Reading(b, RsiLongMin) && Reading(a, RsiLongMax) == Reading(b, RsiLongMax);
    assert Reading(a, RsiShortMin) == Reading(b, RsiShortMin) && Reading(a, RsiShortMax) == Reading(b, RsiShortMax);
    assert Reading(a, SignalMinScore) == Reading(b, SignalMinScore);
    assert Reading(a, MinVwapDistanceBps) == Reading(b, MinVwapDistanceBps);
    assert Reading(a, MinEmaSeparationBps) == Reading(b, MinEmaSeparationBps);
    assert Reading(a, MinVolumeRatio) == Reading(b, MinVolumeRatio);
    assert Reading(a, MinAtrBps) == Reading(b, MinAtrBps) && Reading(a, MaxAtrBps) == Reading(b, MaxAtrBps);
    assert Reading(a, AtrStopMultiplier) == Reading(b, AtrStopMultiplier)
           && Reading(a, TargetRr) == Reading(b, TargetRr);
  }

  lemma {:induction false} AppliedReads(judge: Settings, ss: seq<Setting>)
    requires WithAll(judge, ss).Some?
    ensures Fixed(WithAll(judge, ss).value) == Fixed(judge)
    ensures forall f :: Reading(WithAll(judge, ss).value, f) == LastGiven(ss, f, Reading(judge, f))
  {
    forall f ensures Reading(WithAll(judge, ss).value, f) == LastGiven(ss, f, Reading(judge, f)) {
      SettingsApply(judge, ss, f);
    }
    SettingsApply(judge, ss, TargetRr);
  }

  /**
   * A combination is valid exactly if its values fit their fields and some accepted settings read as
   * it says, and like those of the engine elsewhere; and then those are the settings of the candidate.
   */
  lemma {:induction false} CandidateIsSetAs(judge: Settings, ss: seq<Setting>)
    ensures CandidateSettings(judge, ss).Some? <==> AllFit(ss) && exists cfg: Settings :: SetAs(judge, ss, cfg)
    ensures CandidateSettings(judge, ss).Some? ==> SetAs(judge, ss, CandidateSettings(judge, ss).value)
  {
    AllSettingsFit(judge, ss);
    if AllFit(ss) {
      AppliedReads(judge, ss);
    }
    if CandidateSettings(judge, ss).Some? {
      assert SetAs(judge, ss, CandidateSettings(judge, ss).value);
    }
    if AllFit(ss) && exists cfg: Settings :: SetAs(judge, ss, cfg) {
      var cfg: Settings :| SetAs(judge, ss, cfg);
      ReadingsDecide(WithAll(judge, ss).value, cfg);
    }
  }

  // ---------------------------------------------------------------------
  // Metrics
  // ---------------------------------------------------------------------

  /** The metrics are the figures of one backtest. */
  ghost predicate MetricsTell(
    cfg: Settings, q: Search, from: int, to: int, cs: seq<Candle>, wall: nat -> int, m: Metrics)
  {
    && from < to
    && var run := RunBacktest(cfg, Request(q.symbols, q.timeframe, from, to), cs, wall);
       && run.Ok?
       && var (s, names) := (run.value, Once(q.symbols));
          && m.trades == s.trades && m.net == s.net && m.returnPercent == s.returnPercent && m.winRate == s.winRate
          && m.profitFactor == s.profitFactor && m.expectancy == s.expectancy && m.averageR == s.averageR
          && m.maxDrawdown == s.maxDrawdown && m.maxDrawdownPercent == s.maxDrawdownPercent && m.fees == s.fees
          && |m.symbolNets| == |names|
          && forall i :: 0 <= i < |names| ==> names[i] in s.symbols && m.symbolNets[i] == s.symbols[names[i]].net
  }

  lemma {:induction false} SegmentTells(cfg: Settings, q: Search, from: int, to: int, cs: seq<Candle>, wall: nat -> int)
    requires Segment(cfg, q, from, to, cs, wall).Ok?
    ensures MetricsTell(cfg, q, from, to, cs, wall, Segment(cfg, q, from, to, cs, wall).value)
  {
    SlicesAreRequested(cfg, Request(q.symbols, q.timeframe, from, to), cs, wall);
  }

  // ---------------------------------------------------------------------
  // Scores
  // ---------------------------------------------------------------------

  function OrNone(x: Option<real>): real {
    match x
    case Some(value) => value
    case None => 0.0
  }

  function CountPositive(xs: seq<real>): nat {
    if |xs| == 0 then 0 else CountPositive(xs[..|xs| - 1]) + (if xs[|xs| - 1] > 0.0 then 1 else 0)
  }

  /**
   * The parts of a score, without dividing: expectancy against the money risked on a trade, profit
   * factor against two, drawdown against the most allowed, symbols with a gain against all, and
   * trades against the number required.
   */
  ghost predicate PartsAre(
    judge: Settings, m: Metrics, symbols: nat, expectancy: real, profit: real, drawdown: real, consistency: real,
    adjustment: real)
  {
    var stake := Product(judge.backtestStartingBalance, judge.riskPerTrade);
    var most, least := judge.maxAcceptableDrawdownPercent, judge.minEvaluationTrades as real;
    && Product(expectancy, stake) == Min(stake, Max(0.0, OrNone(m.expectancy)))
    && 2.0 * profit == Min(2.0, OrNone(m.profitFactor))
    && Product(drawdown, most) == Max(0.0, most - m.maxDrawdownPercent)
    && Product(consistency, if symbols == 0 then 1.0 else symbols as real) == CountPositive(m.symbolNets) as real
    && Product(adjustment, least) == Min(least, m.trades as real)
  }

  /** To two decimal places, ties to an even number of hundredths. */
  ghost predicate Rounded(rounded: real, x: real) {
    && -0.005 <= rounded - x <= 0.005 && (100.0 * rounded).Floor as real == 100.0 * rounded
    && (rounded - x == 0.005 || rounded - x == -0.005 ==> (100.0 * rounded).Floor % 2 == 0)
  }

  /** The weighted parts, rounded. */
  ghost predicate ScoreSays(judge: Settings, m: Metrics, symbols: nat, score: real) {
    exists e, p, d, c, a :: PartsAre(judge, m, symbols, e, p, d, c, a)
      && Rounded(score, Product(30.0 * e + 25.0 * p + 25.0 * d + 20.0 * c, a))
  }

  lemma {:induction false} ShareTimes(x: real, whole: real)
    requires whole > 0.0
    ensures Product(Ratio(x, whole), whole) == x
    ensures Ratio(x, whole) <= 1.0 <==> x <= whole
  {
    var q := x / whole;
    assert q * whole == x;
    ScaleOrder(whole, q, 1.0);
  }

  lemma {:induction false} PartTimes(x: real, whole: real)
    requires whole > 0.0
    ensures Product(Min(1.0, Ratio(x, whole)), whole) == Min(whole, x)
    ensures Product(Max(0.0, 1.0 - Ratio(x, whole)), whole) == Max(0.0, whole - x)
    ensures Product(Ratio(x, whole), whole) == x
  {
    ShareTimes(x, whole);
    var r := Ratio(x, whole);
    if r > 1.0 {
      assert Product(1.0, whole) == whole && Product(0.0, whole) == 0.0;
    } else {
      assert Product(1.0 - r, whole) == whole - Product(r, whole);
    }
  }

  lemma {:induction false} CountIsFiltered(xs: seq<real>)
    ensures CountPositive(xs) == |Filter(IsPositive, xs)|
  {
    if |xs| > 0 {
      CountIsFiltered(xs[..|xs| - 1]);
    }
  }

  lemma {:induction false} PartsAreThose(judge: Settings, m: Metrics, symbols: nat)
    ensures PartsAre(judge, m, symbols, ExpectancyPart(judge, m), ProfitPart(m), DrawdownPart(judge, m),
                     ConsistencyPart(m, symbols), TradeAdjustment(judge, m))
  {
    ProductNonNegative(judge.backtestStartingBalance, judge.riskPerTrade);
    var stake := Product(judge.backtestStartingBalance, judge.riskPerTrade);
    StakeIsPositive(judge.backtestStartingBalance, judge.riskPerTrade);
    PartTimes(Max(0.0, OrZero(m.expectancy)), stake);
    PartTimes(m.maxDrawdownPercent, judge.maxAcceptableDrawdownPercent);
    PartTimes(m.trades as real, judge.minEvaluationTrades as real);
    PartTimes(|Filter(IsPositive, m.symbolNets)| as real, IntMax(symbols, 1) as real);
    CountIsFiltered(m.symbolNets);
  }

  lemma {:induction false} StakeIsPositive(a: real, b: real)
    requires a > 0.0 && b > 0.0
    ensures Product(a, b) > 0.0
  {
  }

  lemma {:induction false} QuantizedIsNear(x: real)
    ensures Rounded(Quantized(x), x)
  {
  }

  lemma {:induction false} CompositeSays(judge: Settings, m: Metrics, symbols: nat)
    ensures ScoreSays(judge, m, symbols, CompositeScore(judge, m, symbols))
  {
    PartsAreThose(judge, m, symbols);
    var e, p, d := ExpectancyPart(judge, m), ProfitPart(m), DrawdownPart(judge, m);
    var c, a := ConsistencyPart(m, symbols), TradeAdjustment(judge, m);
    var total := 30.0 * e + 25.0 * p + 25.0 * d + 20.0 * c;
    assert total == 100.0 * (0.30 * e + 0.25 * p + 0.25 * d + 0.20 * c);
    QuantizedIsNear(Product(total, a));
    assert PartsAre(judge, m, symbols, e, p, d, c, a);
  }

  // ---------------------------------------------------------------------
  // Gates
  // ---------------------------------------------------------------------

  /** One symbol makes up at least four fifths of all that was won and lost. */
  ghost predicate OneSymbolDominates(nets: seq<real>) {
    && Sum(AbsOf, nets) != 0.0
    && exists i :: 0 <= i < |nets| && 5.0 * Abs(nets[i]) >= 4.0 * Sum(AbsOf, nets)
  }

  ghost predicate FlagsSay(judge: Settings, m: Metrics, symbols: nat, flags: set<Flag>) {
    && (LowTradeCount in flags <==> m.trades < judge.minEvaluationTrades)
    && (ExcessiveDrawdown in flags <==> m.maxDrawdownPercent > judge.maxAcceptableDrawdownPercent)
    && (LowProfitFactor in flags <==>
        match m.profitFactor case None => true case Some(f) => f < judge.minAcceptableProfitFactor)
    && (SingleSymbolDependence in flags <==> symbols > 1 && OneSymbolDominates(m.symbolNets))
    && WalkForwardInconsistent !in flags && HighCostSensitivity !in flags
  }

  lemma {:induction false} LargestIsAttained(xs: seq<real>)
    ensures forall i :: 0 <= i < |xs| ==> Abs(xs[i]) <= LargestAbs(xs)
    ensures |xs| > 0 ==> exists i :: 0 <= i < |xs| && Abs(xs[i]) == LargestAbs(xs)
  {
    if |xs| > 0 {
      var front := xs[..|xs| - 1];
      LargestIsAttained(front);
      assert xs[|xs| - 1] == xs[|xs| - 1];
      if |front| > 0 {
        var i :| 0 <= i < |front| && Abs(front[i]) == LargestAbs(front);
        assert Abs(xs[i]) == LargestAbs(front);
      }
    }
  }

  lemma {:induction false} FourFifths(part: real, total: real)
    requires total > 0.0
    ensures Ratio(part, total) >= 0.80 <==> 5.0 * part >= 4.0 * total
  {
    ScaleOrder(total, 0.80, part / total);
    assert total * (part / total) == part;
  }

  lemma {:induction false} DominanceIsShare(nets: seq<real>)
    requires Sum(AbsOf, nets) != 0.0
    ensures Ratio(LargestAbs(nets), Sum(AbsOf, nets)) >= 0.80 <==> OneSymbolDominates(nets)
  {
    SumNonNegative(AbsOf, nets);
    LargestIsAttained(nets);
    FourFifths(LargestAbs(nets), Sum(AbsOf, nets));
    var k :| 0 <= k < |nets| && Abs(nets[k]) == LargestAbs(nets);
  }

  lemma {:induction false} GateFlagsSay(judge: Settings, m: Metrics, symbols: nat)
    ensures FlagsSay(judge, m, symbols, GateFlags(judge, m, symbols))
  {
    if Sum(AbsOf, m.symbolNets) != 0.0 {
      DominanceIsShare(m.symbolNets);
    }
  }

  // ---------------------------------------------------------------------
  // Stability
  // ---------------------------------------------------------------------

  ghost predicate DifferOnlyAt(a: seq<Setting>, b: seq<Setting>, k: nat)
    requires |a| == |b|
  {
    k < |a| && a[k].value != b[k].value && forall i :: 0 <= i < |a| && i != k ==> a[i].value == b[i].value
  }

  /** The same fields, and exactly one of them with another value. */
  ghost predicate OneValueApart(a: seq<Setting>, b: seq<Setting>) {
    && |a| == |b| && (forall i :: 0 <= i < |a| ==> a[i].field == b[i].field)
    && exists k: nat :: DifferOnlyAt(a, b, k)
  }

  lemma {:induction false} NoChanges(a: seq<Setting>, b: seq<Setting>)
    requires |a| == |b|
    ensures CountChanges(a, b) == 0 <==> forall i :: 0 <= i < |a| ==> a[i].value == b[i].value
  {
    if |a| > 0 {
      NoChanges(a[..|a| - 1], b[..|b| - 1]);
    }
  }

  lemma {:induction false} SomeChange(a: seq<Setting>, b: seq<Setting>) returns (k: nat)
    requires |a| == |b| && CountChanges(a, b) == 1
    ensures DifferOnlyAt(a, b, k)
  {
    var n := |a| - 1;
    if a[n].value != b[n].value {
      NoChanges(a[..n], b[..n]);
      k := n;
    } else {
      k := SomeChange(a[..n], b[..n]);
      assert a[..n][k] == a[k] && b[..n][k] == b[k];
    }
  }

  lemma {:induction false} OnlyChange(a: seq<Setting>, b: seq<Setting>, k: nat)
    requires |a| == |b| && DifferOnlyAt(a, b, k)
    ensures CountChanges(a, b) == 1
  {
    var n := |a| - 1;
    if k == n {
      NoChanges(a[..n], b[..n]);
    } else {
      OnlyChange(a[..n], b[..n], k);
    }
  }

  ghost predicate Neighbours(c: Candidate, d: Candidate) {
    c.id != d.id && OneValueApart(c.parameters, d.parameters)
  }

  lemma {:induction false} ApartMeansNeighbours(c: Candidate, d: Candidate)
    ensures OneParameterApart(c, d) <==> Neighbours(c, d)
  {
    if OneParameterApart(c, d) {
      var k := SomeChange(c.parameters, d.parameters);
    }
    if Neighbours(c, d) {
      var k: nat :| DifferOnlyAt(c.parameters, d.parameters, k);
      OnlyChange(c.parameters, d.parameters, k);
    }
  }

  ghost function NeighbourCount(c: Candidate, all: seq<Candidate>): nat {
    if |all| == 0 then 0
    else NeighbourCount(c, all[..|all| - 1]) + (if Neighbours(c, all[|all| - 1]) then 1 else 0)
  }

  /** How far the scores of the neighbours lie from this one, all together. */
  ghost function NeighbourGaps(c: Candidate, all: seq<Candidate>): real {
    if |all| == 0 then 0.0
    else
      var d := all[|all| - 1];
      NeighbourGaps(c, all[..|all| - 1])
      + (if Neighbours(c, d) then Max(c.score, d.score) - Min(c.score, d.score) else 0.0)
  }

  lemma {:induction false} GapsOfNeighbours(c: Candidate, all: seq<Candidate>)
    ensures |ScoreGaps(c, all)| == NeighbourCount(c, all)
    ensures Sum(Identical, ScoreGaps(c, all)) == NeighbourGaps(c, all)
  {
    if |all| > 0 {
      var front, d := all[..|all| - 1], all[|all| - 1];
      GapsOfNeighbours(c, front);
      ApartMeansNeighbours(c, d);
      SumAppend(Identical, ScoreGaps(c, front), Abs(c.score - d.score));
    }
  }

  /** Stability is a hundred less the mean gap, to two places; a mean gap above twenty is flagged. */
  ghost predicate StabilitySays(c: Candidate, all: seq<Candidate>, r: Candidate) {
    var n, total := NeighbourCount(c, all), NeighbourGaps(c, all);
    if n == 0 then r == c
    else
      && r == c.(stability := r.stability, flags := r.flags)
      && r.flags == c.flags + (if total > 20.0 * (n as real) then {HighParameterSensitivity} else {})
      && exists mean :: IsMean(mean, n, total)
           && r.stability.Some? && Rounded(r.stability.value, Max(0.0, 100.0 - mean))
  }

  predicate IsMean(mean: real, count: nat, total: real) {
    Product(mean, count as real) == total
  }

  lemma {:induction false} MeanAbove(mean: real, n: nat, total: real, limit: real)
    requires n > 0 && IsMean(mean, n, total)
    ensures mean > limit <==> total > limit * (n as real)
  {
    ScaleOrder(n as real, limit, mean);
  }

  lemma {:induction false} StabilityIsThat(c: Candidate, all: seq<Candidate>)
    ensures StabilitySays(c, all, WithStability(c, all))
  {
    GapsOfNeighbours(c, all);
    var n := NeighbourCount(c, all);
    if n > 0 {
      var mean := MeanGap(ScoreGaps(c, all));
      ShareTimes(NeighbourGaps(c, all), n as real);
      MeanAbove(mean, n, NeighbourGaps(c, all), 20.0);
      QuantizedIsNear(Max(0.0, 100.0 - mean));
      var r := WithStability(c, all);
      assert r == c.(stability := r.stability, flags := r.flags);
      assert r.flags
             == c.flags + (if NeighbourGaps(c, all) > 20.0 * (n as real) then {HighParameterSensitivity} else {});
      assert IsMean(mean, n, NeighbourGaps(c, all));
      assert r.stability == Some(Quantized(Max(0.0, 100.0 - mean)));
    }
  }

  // ---------------------------------------------------------------------
  // Every candidate
  // ---------------------------------------------------------------------

  /** Where the figures of a candidate come from, apart from stability. */
  ghost predicate CandidateTells(judge: Settings, q: Search, cs: seq<Candle>, wall: nat -> int, c: Candidate) {
    && ScoreSays(judge, c.validation, |q.symbols|, c.score)
    && exists cfg, trainEnd, validationEnd ::
         && SetAs(judge, c.parameters, cfg) && SpansOf(q, trainEnd, validationEnd)
         && MetricsTell(cfg, q, q.start, trainEnd, cs, wall, c.train)
         && MetricsTell(cfg, q, trainEnd, validationEnd, cs, wall, c.validation)
  }

  lemma {:induction false} EvaluationTells(
    judge: Settings, cfg: Settings, id: nat, ss: seq<Setting>, q: Search, cs: seq<Candle>, wall: nat -> int)
    requires EvaluateCandidate(judge, cfg, id, ss, q, cs, wall).Ok? && SetAs(judge, ss, cfg)
    ensures var c := EvaluateCandidate(judge, cfg, id, ss, q, cs, wall).value;
            && CandidateTells(judge, q, cs, wall, c) && c.id == id && c.parameters == ss
            && FlagsSay(judge, c.validation, |q.symbols|, c.flags)
  {
    EvaluatedAs(judge, cfg, id, ss, q, cs, wall);
    SegmentTells(cfg, q, q.start, TrainEnd(q), cs, wall);
    SegmentTells(cfg, q, TrainEnd(q), ValidationEnd(q), cs, wall);
    SegmentsTakeTheirFractions(q);
    var validation := Segment(cfg, q, TrainEnd(q), ValidationEnd(q), cs, wall).value;
    CompositeSays(judge, validation, |q.symbols|);
    GateFlagsSay(judge, validation, |q.symbols|);
  }

  ghost predicate EvaluationsTell(
    judge: Settings, q: Search, grid: seq<seq<Setting>>, cs: seq<Candle>, wall: nat -> int, done: Evaluations)
  {
    && AllTold(judge, q, grid, cs, wall, done.candidates)
    && AllInvalid(judge, grid, done.invalid)
    && |done.candidates| + |done.invalid| == |grid|
  }

  ghost predicate AllTold(
    judge: Settings, q: Search, grid: seq<seq<Setting>>, cs: seq<Candle>, wall: nat -> int, found: seq<Candidate>)
  {
    forall i :: 0 <= i < |found| ==> Told(judge, q, grid, cs, wall, found[i])
  }

  ghost predicate AllInvalid(judge: Settings, grid: seq<seq<Setting>>, invalid: seq<nat>) {
    forall i :: 0 <= i < |invalid| ==> 0 < invalid[i] <= |grid| && CandidateSettings(judge, grid[invalid[i] - 1]).None?
  }

  /** A candidate has the number of its combination, and figures of its own backtests. */
  ghost predicate Told(
    judge: Settings, q: Search, grid: seq<seq<Setting>>, cs: seq<Candle>, wall: nat -> int, c: Candidate)
  {
    && 0 < c.id <= |grid| && c.parameters == grid[c.id - 1] && CandidateTells(judge, q, cs, wall, c)
    && FlagsSay(judge, c.validation, |q.symbols|, c.flags)
  }

  lemma {:induction false} GridTells(
    judge: Settings, q: Search, grid: seq<seq<Setting>>, cs: seq<Candle>, wall: nat -> int)
    returns (done: Evaluations)
    requires EvaluateAll(judge, q, grid, cs, wall).Ok?
    ensures EvaluateAll(judge, q, grid, cs, wall) == Ok(done) && EvaluationsTell(judge, q, grid, cs, wall, done)
  {
    done := EvaluateAll(judge, q, grid, cs, wall).value;
    if |grid| == 0 {
      NoneTell(judge, q, cs, wall);
    } else {
      AllButLast(judge, q, grid, cs, wall);
      var before := GridTells(judge, q, grid[..|grid| - 1], cs, wall);
      OneMoreTells(judge, q, grid, cs, wall, before, done);
    }
  }

  lemma {:induction false} OneMoreTells(
    judge: Settings, q: Search, grid: seq<seq<Setting>>, cs: seq<Candle>, wall: nat -> int, before: Evaluations,
    done: Evaluations)
    requires |grid| > 0 && EvaluationsTell(judge, q, grid[..|grid| - 1], cs, wall, before)
    requires EvaluateNext(judge, q, before, |grid|, grid[|grid| - 1], cs, wall) == Ok(done)
    ensures EvaluationsTell(judge, q, grid, cs, wall, done)
  {
    assert grid == grid[..|grid| - 1] + [grid[|grid| - 1]];
    NextTells(judge, q, grid[..|grid| - 1], grid[|grid| - 1], cs, wall, before, |grid|);
  }

  lemma {:induction false} NoneTell(judge: Settings, q: Search, cs: seq<Candle>, wall: nat -> int)
    ensures EvaluateAll(judge, q, [], cs, wall).Ok?
    ensures EvaluationsTell(judge, q, [], cs, wall, EvaluateAll(judge, q, [], cs, wall).value)
  {
  }

  lemma {:induction false} AllButLast(
    judge: Settings, q: Search, grid: seq<seq<Setting>>, cs: seq<Candle>, wall: nat -> int)
    requires |grid| > 0 && EvaluateAll(judge, q, grid, cs, wall).Ok?
    ensures EvaluateAll(judge, q, grid[..|grid| - 1], cs, wall).Ok?
    ensures EvaluateAll(judge, q, grid, cs, wall) ==
            EvaluateNext(judge, q, EvaluateAll(judge, q, grid[..|grid| - 1], cs, wall).value, |grid|, grid[|grid| - 1],
                         cs, wall)
  {
  }

  lemma {:induction false} LongerGridTells(
    judge: Settings, q: Search, grid: seq<seq<Setting>>, ss: seq<Setting>, cs: seq<Candle>, wall: nat -> int,
    found: seq<Candidate>)
    requires AllTold(judge, q, grid, cs, wall, found)
    ensures AllTold(judge, q, grid + [ss], cs, wall, found)
  {
    forall i | 0 <= i < |found| ensures Told(judge, q, grid + [ss], cs, wall, found[i]) {
      assert Told(judge, q, grid, cs, wall, found[i]);
    }
  }

  lemma {:induction false} LongerGridInvalid(
    judge: Settings, grid: seq<seq<Setting>>, ss: seq<Setting>, invalid: seq<nat>)
    requires AllInvalid(judge, grid, invalid)
    ensures AllInvalid(judge, grid + [ss], invalid)
  {
  }

  lemma {:induction false} NextIsTold(
    judge: Settings, q: Search, grid: seq<seq<Setting>>, ss: seq<Setting>, cs: seq<Candle>, wall: nat -> int,
    cfg: Settings, id: nat)
    requires CandidateSettings(judge, ss) == Some(cfg) && id == |grid| + 1
    requires EvaluateCandidate(judge, cfg, id, ss, q, cs, wall).Ok?
    ensures Told(judge, q, grid + [ss], cs, wall, EvaluateCandidate(judge, cfg, id, ss, q, cs, wall).value)
  {
    CandidateIsSetAs(judge, ss);
    EvaluationTells(judge, cfg, id, ss, q, cs, wall);
  }

  lemma {:induction false} OneMoreTold(
    judge: Settings, q: Search, grid: seq<seq<Setting>>, cs: seq<Candle>, wall: nat -> int, found: seq<Candidate>,
    c: Candidate)
    requires AllTold(judge, q, grid, cs, wall, found) && Told(judge, q, grid, cs, wall, c)
    ensures AllTold(judge, q, grid, cs, wall, found + [c])
  {
  }

  lemma {:induction false} NextIs(
    judge: Settings, q: Search, done: Evaluations, id: nat, ss: seq<Setting>, cs: seq<Candle>, wall: nat -> int,
    cfg: Settings)
    requires CandidateSettings(judge, ss) == Some(cfg) && EvaluateNext(judge, q, done, id, ss, cs, wall).Ok?
    ensures EvaluateCandidate(judge, cfg, id, ss, q, cs, wall).Ok?
    ensures EvaluateNext(judge, q, done, id, ss, cs, wall).value
            == done.(candidates := done.candidates + [EvaluateCandidate(judge, cfg, id, ss, q, cs, wall).value])
  {
  }

  lemma {:induction false} NextTells(
    judge: Settings, q: Search, grid: seq<seq<Setting>>, ss: seq<Setting>, cs: seq<Candle>, wall: nat -> int,
    done: Evaluations, id: nat)
    requires EvaluationsTell(judge, q, grid, cs, wall, done) && id == |grid| + 1
    requires EvaluateNext(judge, q, done, id, ss, cs, wall).Ok?
    ensures EvaluationsTell(judge, q, grid + [ss], cs, wall, EvaluateNext(judge, q, done, id, ss, cs, wall).value)
  {
    LongerGridTells(judge, q, grid, ss, cs, wall, done.candidates);
    LongerGridInvalid(judge, grid, ss, done.invalid);
    match CandidateSettings(judge, ss)
    case None =>
    case Some(cfg) =>
      NextIs(judge, q, done, id, ss, cs, wall, cfg);
      NextIsTold(judge, q, grid, ss, cs, wall, cfg, id);
      OneMoreTold(judge, q, grid + [ss], cs, wall, done.candidates,
                  EvaluateCandidate(judge, cfg, id, ss, q, cs, wall).value);
  }

  /**
   * In a finished search the baseline and every candidate are what their backtests say: settings,
   * spans, metrics, score and flags all follow from the request, and stability from the neighbours.
   */
  lemma {:induction false} EveryCandidateTells(judge: Settings, q: Search, cs: seq<Candle>, wall: nat -> int)
    returns (done: Evaluations)
    requires Ranked(judge, q, cs, wall).Ok?
    ensures EvaluationsTell(judge, q, Combinations(q.grid), cs, wall, done)
    ensures var r := Ranked(judge, q, cs, wall).value;
            && r.baseline.parameters == [] && CandidateTells(judge, q, cs, wall, r.baseline)
            && r.invalid == done.invalid && |r.candidates| == |done.candidates|
            && forall i :: 0 <= i < |r.candidates| ==>
                 StabilitySays(done.candidates[i], done.candidates, r.candidates[i])
  {
    EvaluationTells(judge, judge, 0, [], q, cs, wall);
    done := GridTells(judge, q, Combinations(q.grid), cs, wall);
    forall i | 0 <= i < |done.candidates|
      ensures StabilitySays(done.candidates[i], done.candidates, AllWithStability(done.candidates)[i])
    {
      StabilityIsThat(done.candidates[i], done.candidates);
    }
  }

  // ---------------------------------------------------------------------
  // The size of the grid
  // ---------------------------------------------------------------------

  lemma {:induction false} ChoicesMultiply(field: Field, values: seq<real>, rest: seq<seq<Setting>>)
    ensures |Choices(field, values, rest)| == |values| * |rest|
  {
    if |values| > 0 {
      ChoicesMultiply(field, values[..|values| - 1], rest);
      assert |values| * |rest| == (|values| - 1) * |rest| + |rest|;
    }
  }

  lemma {:induction false} ValuesOfTail(grid: seq<Axis>)
    requires |grid| > 0
    ensures ValuesIn(grid) == |grid[0].values| * ValuesIn(grid[1..])
  {
    if |grid| > 1 {
      var front := grid[..|grid| - 1];
      ValuesOfTail(front);
      assert front[1..] == grid[1..][..|grid| - 2] && grid[1..][|grid| - 2] == grid[|grid| - 1];
      MultiplyAgain(|grid[0].values|, ValuesIn(front[1..]), |grid[|grid| - 1].values|);
    } else {
      assert grid[..0] == [] && grid[1..] == [];
    }
  }

  lemma {:induction false} MultiplyAgain(a: int, b: int, c: int)
    ensures (a * b) * c == a * (b * c)
  {
  }

  /** The number checked against the limit is the number of combinations that would be tried. */
  lemma {:induction false} GridSizeIsCounted(grid: seq<Axis>)
    ensures |CartesianProduct(grid)| == ValuesIn(grid)
  {
    if |grid| > 0 {
      GridSizeIsCounted(grid[1..]);
      ChoicesMultiply(grid[0].field, grid[0].values, CartesianProduct(grid[1..]));
      ValuesOfTail(grid);
    }
  }

  // ---------------------------------------------------------------------
  // Research
  // ---------------------------------------------------------------------

  function CountGaining(folds: seq<Fold>): nat {
    if |folds| == 0 then 0
    else CountGaining(folds[..|folds| - 1]) + (if folds[|folds| - 1].metrics.net > 0.0 then 1 else 0)
  }

  lemma {:induction false} GainingIsFiltered(folds: seq<Fold>)
    ensures CountGaining(folds) == |Filter(FoldGains, folds)|
  {
    if |folds| > 0 {
      GainingIsFiltered(folds[..|folds| - 1]);
    }
  }

  /** Trading costs alone are multiplied. */
  ghost predicate CostsTimes(cfg: Settings, multiplier: real, dearer: Settings) {
    && dearer.paperFeeBps == cfg.paperFeeBps * multiplier
    && dearer.entrySlippageBps == cfg.entrySlippageBps * multiplier
    && dearer.exitSlippageBps == cfg.exitSlippageBps * multiplier
    && dearer == cfg.(paperFeeBps := dearer.paperFeeBps, entrySlippageBps := dearer.entrySlippageBps,
                      exitSlippageBps := dearer.exitSlippageBps)
  }

  /** Validation again at the same costs, at half as much again, and at twice as much. */
  ghost predicate StressTells(cfg: Settings, q: Search, cs: seq<Candle>, wall: nat -> int, s: Stress) {
    exists trainEnd, validationEnd, half, twice ::
      && SpansOf(q, trainEnd, validationEnd) && CostsTimes(cfg, 1.5, half) && CostsTimes(cfg, 2.0, twice)
      && MetricsTell(cfg, q, trainEnd, validationEnd, cs, wall, s.normal)
      && MetricsTell(half, q, trainEnd, validationEnd, cs, wall, s.high)
      && MetricsTell(twice, q, trainEnd, validationEnd, cs, wall, s.stress)
  }

  /** A gain that doubled costs more than halve, or fewer than half of the folds with a gain. */
  ghost predicate ResearchSays(c: Candidate, r: Research) {
    r.flags == c.flags
               + (if r.stress.normal.net > 0.0 && 2.0 * r.stress.stress.net < r.stress.normal.net
                  then {HighCostSensitivity} else {})
               + (if r.folds != [] && CountGaining(r.folds) < |r.folds| - CountGaining(r.folds)
                  then {WalkForwardInconsistent} else {})
  }

  lemma {:induction false} DearerCosts(cfg: Settings)
    ensures Dearer(cfg, 1.0) == cfg && CostsTimes(cfg, 1.5, Dearer(cfg, 1.5)) && CostsTimes(cfg, 2.0, Dearer(cfg, 2.0))
  {
  }

  lemma {:induction false} StressIsThat(cfg: Settings, q: Search, cs: seq<Candle>, wall: nat -> int)
    requires CostStress(cfg, q, cs, wall).Ok?
    ensures StressTells(cfg, q, cs, wall, CostStress(cfg, q, cs, wall).value)
  {
    DearerCosts(cfg);
    SegmentsTakeTheirFractions(q);
    SegmentTells(Dearer(cfg, 1.0), q, TrainEnd(q), ValidationEnd(q), cs, wall);
    SegmentTells(Dearer(cfg, 1.5), q, TrainEnd(q), ValidationEnd(q), cs, wall);
    SegmentTells(Dearer(cfg, 2.0), q, TrainEnd(q), ValidationEnd(q), cs, wall);
  }

  /** Each fold has the metrics of a backtest over its own validation. */
  ghost predicate FoldsTell(cfg: Settings, q: Search, cs: seq<Candle>, wall: nat -> int, folds: seq<Fold>) {
    forall k :: 0 <= k < |folds| ==>
      MetricsTell(cfg, q, folds[k].trainEnd, folds[k].validationEnd, cs, wall, folds[k].metrics)
  }

  lemma {:induction false} OneMoreFoldTells(
    cfg: Settings, q: Search, cs: seq<Candle>, wall: nat -> int, fold: Fold, rest: seq<Fold>)
    requires MetricsTell(cfg, q, fold.trainEnd, fold.validationEnd, cs, wall, fold.metrics)
    requires FoldsTell(cfg, q, cs, wall, rest)
    ensures FoldsTell(cfg, q, cs, wall, [fold] + rest)
  {
  }

  lemma {:induction false} FoldsAreBacktests(cfg: Settings, q: Search, cursor: int, cs: seq<Candle>, wall: nat -> int)
    requires FoldsFrom(cfg, q, cursor, cs, wall).Ok?
    ensures FoldsTell(cfg, q, cs, wall, FoldsFrom(cfg, q, cursor, cs, wall).value)
    decreases q.end - cursor
  {
    if FoldEnd(q, cursor) <= q.end {
      var fold := FoldAt(cfg, q, cursor, cs, wall).value;
      SegmentTells(cfg, q, fold.trainEnd, fold.validationEnd, cs, wall);
      FoldsAreBacktests(cfg, q, NextCursor(q, cursor), cs, wall);
      OneMoreFoldTells(cfg, q, cs, wall, fold, FoldsFrom(cfg, q, NextCursor(q, cursor), cs, wall).value);
    }
  }

  /** The research on a candidate: three levels of cost over the validation span, and the folds. */
  lemma {:induction false} ResearchTells(cfg: Settings, q: Search, c: Candidate, cs: seq<Candle>, wall: nat -> int)
    requires Researched(cfg, q, c, cs, wall).Ok?
    ensures var r := Researched(cfg, q, c, cs, wall).value;
            && StressTells(cfg, q, cs, wall, r.stress) && ResearchSays(c, r)
            && AreTheFolds(q, q.start, r.folds) && FoldsTell(cfg, q, cs, wall, r.folds)
  {
    StressIsThat(cfg, q, cs, wall);
    FoldsAreTheWindows(cfg, q, q.start, cs, wall);
    FoldsAreBacktests(cfg, q, q.start, cs, wall);
    GainingIsFiltered(FoldsFrom(cfg, q, q.start, cs, wall).value);
  }
}
