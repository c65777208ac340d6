/**
 * What a parameter search guarantees: the holdout takes no part in the selection, scores are
 * bounded, and the selected candidate is the best of those that pass the gates.
 */
module OptimizerGuarantees {
  import opened Common
  import opened Configuration
  import opened Market
  import opened Risk
  import opened Backtest
  import opened BacktestReconciliation
  import opened Drawdown
  import opened Optimizer

  // ---------------------------------------------------------------------
  // Segments
  // ---------------------------------------------------------------------

  lemma {:induction false} RoundingIsClose(x: real)
    ensures RoundHalfEven(x) as real - 0.5 <= x <= RoundHalfEven(x) as real + 0.5
  {
  }

  lemma {:induction false} RoundingKeepsOrder(x: real, y: real)
    requires x <= y
    ensures RoundHalfEven(x) <= RoundHalfEven(y)
  {
  }

  lemma {:induction false} FractionsOfSpan(span: int, a: real, b: real)
    requires span > 0 && 0.0 < a && 0.0 < b && a + b < 1.0
    ensures 0.0 <= PartOf(span, a) && 0.0 <= PartOf(span, b) && PartOf(span, a) + PartOf(span, b) < span as real
  {
    Distributes(span as real, a, b);
  }

  lemma {:induction false} ExpandRest(s: real, a: real, b: real, rest: real)
    requires rest == 1.0 - (a + b)
    ensures Product(s, rest) == s - (Product(s, a) + Product(s, b))
  {
  }

  lemma {:induction false} Distributes(s: real, a: real, b: real)
    requires s > 0.0 && 0.0 < a && 0.0 < b && a + b < 1.0
    ensures Product(s, a) >= 0.0 && Product(s, b) >= 0.0 && Product(s, a) + Product(s, b) < s
  {
    var rest := 1.0 - (a + b);
    ProductPositive(s, a);
    ProductPositive(s, b);
    ProductPositive(s, rest);
    ExpandRest(s, a, b, rest);
    var x, y, z := Product(s, a), Product(s, b), Product(s, rest);
    assert z == s - (x + y);
  }

  lemma {:induction false} RoundedPartsFit(span: int, a: real, b: real)
    requires 0.0 <= a && 0.0 <= b && a + b < span as real
    ensures 0 <= RoundHalfEven(a) && 0 <= RoundHalfEven(b) && RoundHalfEven(a) + RoundHalfEven(b) <= span
  {
    RoundingKeepsOrder(0.0, a);
    RoundingKeepsOrder(0.0, b);
    RoundingIsClose(a);
    RoundingIsClose(b);
    assert (RoundHalfEven(a) + RoundHalfEven(b)) as real < (span + 1) as real;
  }

  /** Rounding never pushes the segments past the end of the request. */
  lemma {:induction false} SegmentsAreOrdered(q: Search)
    ensures q.start <= TrainEnd(q) <= ValidationEnd(q) <= q.end
  {
    var span := q.end - q.start;
    FractionsOfSpan(span, q.trainFraction, q.validationFraction);
    RoundedPartsFit(span, PartOf(span, q.trainFraction), PartOf(span, q.validationFraction));
  }

  /** No candle is replayed in two of training, validation and holdout. */
  lemma {:induction false} SegmentsShareNoCandle(q: Search, c: Candle)
    requires c.openTime < c.closeTime
    ensures !(InRange(q.start, TrainEnd(q), c) && InRange(TrainEnd(q), ValidationEnd(q), c))
    ensures !(InRange(TrainEnd(q), ValidationEnd(q), c) && InRange(ValidationEnd(q), q.end, c))
    ensures !(InRange(q.start, TrainEnd(q), c) && InRange(ValidationEnd(q), q.end, c))
  {
    SegmentsAreOrdered(q);
  }

  // ---------------------------------------------------------------------
  // The holdout
  // ---------------------------------------------------------------------

  /** The candles known by time `t`. */
  function Past(t: int, cs: seq<Candle>): seq<Candle> {
    if |cs| == 0 then []
    else
      var front := Past(t, cs[..|cs| - 1]);
      if cs[|cs| - 1].closeTime <= t then front + [cs[|cs| - 1]] else front
  }

  lemma {:induction false} SelectedAppend(start: int, end: int, cs: seq<Candle>, c: Candle)
    ensures Selected(start, end, cs + [c])
            == if InRange(start, end, c) then Selected(start, end, cs) + [c] else Selected(start, end, cs)
  {
    assert (cs + [c])[..|cs|] == cs;
  }

  lemma {:induction false} SelectedOfPast(start: int, end: int, t: int, cs: seq<Candle>)
    requires end <= t
    ensures Selected(start, end, Past(t, cs)) == Selected(start, end, cs)
  {
    if |cs| > 0 {
      var front, last := cs[..|cs| - 1], cs[|cs| - 1];
      SelectedOfPast(start, end, t, front);
      SelectedAppend(start, end, Past(t, front), last);
    }
  }

  ghost predicate SamePast(t: int, cs: seq<Candle>, ds: seq<Candle>) {
    Past(t, cs) == Past(t, ds)
  }

  lemma {:induction false} OrderedFromPast(q: Request, t: int, cs: seq<Candle>, ds: seq<Candle>)
    requires q.end <= t && SamePast(t, cs, ds)
    ensures Ordered(q, cs) == Ordered(q, ds)
  {
    SelectedOfPast(q.start, q.end, t, cs);
    SelectedOfPast(q.start, q.end, t, ds);
  }

  /** A backtest depends on no candle that closes after its end. */
  lemma {:induction false} BacktestFromPast(
    cfg: Settings, q: Request, t: int, cs: seq<Candle>, ds: seq<Candle>, wall: nat -> int)
    requires q.end <= t && SamePast(t, cs, ds)
    ensures RunBacktest(cfg, q, cs, wall) == RunBacktest(cfg, q, ds, wall)
  {
    OrderedFromPast(q, t, cs, ds);
  }

  lemma {:induction false} SegmentFromPast(
    cfg: Settings, q: Search, from: int, to: int, t: int, cs: seq<Candle>, ds: seq<Candle>, wall: nat -> int)
    requires to <= t && SamePast(t, cs, ds)
    ensures Segment(cfg, q, from, to, cs, wall) == Segment(cfg, q, from, to, ds, wall)
  {
    if to > from {
      BacktestFromPast(cfg, Request(q.symbols, q.timeframe, from, to), t, cs, ds, wall);
    }
  }

  lemma {:induction false} CandidateFromPast(
    judge: Settings, cfg: Settings, id: nat, ss: seq<Setting>, q: Search, cs: seq<Candle>, ds: seq<Candle>,
    wall: nat -> int)
    requires SamePast(ValidationEnd(q), cs, ds)
    ensures EvaluateCandidate(judge, cfg, id, ss, q, cs, wall) == EvaluateCandidate(judge, cfg, id, ss, q, ds, wall)
  {
    SegmentsAreOrdered(q);
    SegmentFromPast(cfg, q, q.start, TrainEnd(q), ValidationEnd(q), cs, ds, wall);
    SegmentFromPast(cfg, q, TrainEnd(q), ValidationEnd(q), ValidationEnd(q), cs, ds, wall);
  }

  lemma {:induction false} GridFromPast(
    judge: Settings, q: Search, grid: seq<seq<Setting>>, cs: seq<Candle>, ds: seq<Candle>, wall: nat -> int)
    requires SamePast(ValidationEnd(q), cs, ds)
    ensures EvaluateAll(judge, q, grid, cs, wall) == EvaluateAll(judge, q, grid, ds, wall)
  {
    if |grid| > 0 {
      GridFromPast(judge, q, grid[..|grid| - 1], cs, ds, wall);
      var last := grid[|grid| - 1];
      if CandidateSettings(judge, last).Some? {
        CandidateFromPast(judge, CandidateSettings(judge, last).value, |grid|, last, q, cs, ds, wall);
      }
    }
  }

  /** The selection, and every metric, score and stability behind it, is blind to the holdout. */
  lemma {:induction false} HoldoutDoesNotRank(
    judge: Settings, q: Search, cs: seq<Candle>, ds: seq<Candle>, wall: nat -> int)
    requires SamePast(ValidationEnd(q), cs, ds)
    ensures Ranked(judge, q, cs, wall) == Ranked(judge, q, ds, wall)
  {
    CandidateFromPast(judge, judge, 0, [], q, cs, ds, wall);
    GridFromPast(judge, q, Combinations(q.grid), cs, ds, wall);
  }

  lemma {:induction false} StressFromPast(cfg: Settings, q: Search, cs: seq<Candle>, ds: seq<Candle>, wall: nat -> int)
    requires SamePast(ValidationEnd(q), cs, ds)
    ensures CostStress(cfg, q, cs, wall) == CostStress(cfg, q, ds, wall)
  {
    SegmentsAreOrdered(q);
    SegmentFromPast(Dearer(cfg, 1.0), q, TrainEnd(q), ValidationEnd(q), ValidationEnd(q), cs, ds, wall);
    SegmentFromPast(Dearer(cfg, 1.5), q, TrainEnd(q), ValidationEnd(q), ValidationEnd(q), cs, ds, wall);
    SegmentFromPast(Dearer(cfg, 2.0), q, TrainEnd(q), ValidationEnd(q), ValidationEnd(q), cs, ds, wall);
  }

  /** Two results that differ in nothing but the walk-forward study of the selected candidate. */
  ghost predicate SameButWalkForward(x: Run, y: Run) {
    && x.ranking == y.ranking
    && (x.research.None? <==> y.research.None?)
    && (x.research.Some? && y.research.Some? ==>
          && x.research.value.stress == y.research.value.stress
          && x.research.value.flags - {WalkForwardInconsistent} == y.research.value.flags - {WalkForwardInconsistent})
  }

  lemma {:induction false} ResearchFlags(c: Candidate, s: Stress, folds: seq<Fold>, folds': seq<Fold>)
    ensures ResearchOf(c, s, folds).flags - {WalkForwardInconsistent}
            == ResearchOf(c, s, folds').flags - {WalkForwardInconsistent}
  {
  }

  lemma {:induction false} ResearchFromPast(
    cfg: Settings, q: Search, c: Candidate, cs: seq<Candle>, ds: seq<Candle>, wall: nat -> int)
    requires SamePast(ValidationEnd(q), cs, ds)
    requires Researched(cfg, q, c, cs, wall).Ok? && Researched(cfg, q, c, ds, wall).Ok?
    ensures Researched(cfg, q, c, cs, wall).value.stress == Researched(cfg, q, c, ds, wall).value.stress
    ensures Researched(cfg, q, c, cs, wall).value.flags - {WalkForwardInconsistent}
            == Researched(cfg, q, c, ds, wall).value.flags - {WalkForwardInconsistent}
  {
    StressFromPast(cfg, q, cs, ds, wall);
    ResearchFlags(c, CostStress(cfg, q, cs, wall).value, FoldsFrom(cfg, q, q.start, cs, wall).value,
                  FoldsFrom(cfg, q, q.start, ds, wall).value);
  }

  /**
   * The walk-forward study, made after the selection, is the only thing in a finished run that
   * the holdout can change.
   */
  lemma {:induction false} HoldoutChangesOnlyWalkForward(
    judge: Settings, q: Search, cs: seq<Candle>, ds: seq<Candle>, wall: nat -> int)
    requires SamePast(ValidationEnd(q), cs, ds)
    requires Optimized(judge, q, cs, wall).Ok? && Optimized(judge, q, ds, wall).Ok?
    ensures SameButWalkForward(Optimized(judge, q, cs, wall).value, Optimized(judge, q, ds, wall).value)
  {
    HoldoutDoesNotRank(judge, q, cs, ds, wall);
    var ranking := Ranked(judge, q, cs, wall).value;
    if ranking.selected.Some? {
      SelectedIsConfigured(judge, q, cs, wall);
      ResearchFromPast(CandidateSettings(judge, ranking.selected.value.parameters).value, q,
                       ranking.selected.value, cs, ds, wall);
    }
  }

  // ---------------------------------------------------------------------
  // Scores
  // ---------------------------------------------------------------------

  /** What the metrics of any backtest satisfy. */
  ghost predicate Sane(m: Metrics, symbols: nat) {
    && m.maxDrawdownPercent >= 0.0
    && (m.profitFactor.Some? ==> m.profitFactor.value >= 0.0)
    && |m.symbolNets| <= symbols
  }

  lemma {:induction false} RatioInUnit(a: real, b: real)
    requires 0.0 <= a && 0.0 < b
    ensures Ratio(a, b) >= 0.0 && (a <= b ==> Ratio(a, b) <= 1.0)
  {
    var r := a / b;
    assert r * b == a;
    ScaleOrder(b, r, 0.0);
    ScaleOrder(b, r, 1.0);
  }

  lemma {:induction false} PartsInUnit(judge: Settings, m: Metrics, symbols: nat)
    requires Sane(m, symbols)
    ensures 0.0 <= ExpectancyPart(judge, m) <= 1.0 && 0.0 <= ProfitPart(m) <= 1.0
    ensures 0.0 <= DrawdownPart(judge, m) <= 1.0 && 0.0 <= ConsistencyPart(m, symbols) <= 1.0
    ensures 0.0 <= TradeAdjustment(judge, m) <= 1.0
  {
    var scale := Product(judge.backtestStartingBalance, judge.riskPerTrade);
    ScaleOrder(judge.backtestStartingBalance, 0.0, judge.riskPerTrade);
    RatioInUnit(Max(0.0, OrZero(m.expectancy)), scale);
    RatioInUnit(m.maxDrawdownPercent, judge.maxAcceptableDrawdownPercent);
    RatioInUnit(|Filter(IsPositive, m.symbolNets)| as real, IntMax(symbols, 1) as real);
    RatioInUnit(m.trades as real, judge.minEvaluationTrades as real);
  }

  lemma {:induction false} QuantizedInRange(x: real)
    requires 0.0 <= x <= 100.0
    ensures 0.0 <= Quantized(x) <= 100.0
  {
    RoundingKeepsOrder(0.0, x * 100.0);
    RoundingKeepsOrder(x * 100.0, 10_000.0);
  }

  lemma {:induction false} UnitTimes(a: real, b: real)
    requires 0.0 <= a <= 100.0 && 0.0 <= b <= 1.0
    ensures 0.0 <= Product(a, b) <= 100.0
  {
    ProductNonNegative(a, b);
    ProductNonNegative(a, 1.0 - b);
    assert a * (1.0 - b) == a - a * b;
  }

  lemma {:induction false} ScoreInRange(judge: Settings, m: Metrics, symbols: nat)
    requires Sane(m, symbols)
    ensures 0.0 <= CompositeScore(judge, m, symbols) <= 100.0
  {
    PartsInUnit(judge, m, symbols);
    var parts := 0.30 * ExpectancyPart(judge, m) + 0.25 * ProfitPart(m) + 0.25 * DrawdownPart(judge, m)
                 + 0.20 * ConsistencyPart(m, symbols);
    UnitTimes(100.0 * parts, TradeAdjustment(judge, m));
    QuantizedInRange(Product(100.0 * parts, TradeAdjustment(judge, m)));
  }

  lemma {:induction false} ProfitFactorIsPositive(es: seq<JournalEntry>)
    ensures var wins, losses := Filter(IsWin, es), Filter(IsLoss, es);
            var f := ProfitFactor(Sum(EntryNet, wins), Sum(EntryNet, losses));
            f.Some? ==> f.value >= 0.0
  {
    var wins, losses := Filter(IsWin, es), Filter(IsLoss, es);
    SumNonNegative(EntryNet, wins);
    if Sum(EntryNet, losses) != 0.0 {
      RatioInUnit(Sum(EntryNet, wins), Abs(Sum(EntryNet, losses)));
    }
  }

  lemma {:induction false} DrawdownIsNotNegative(es: seq<real>, w: real)
    requires |es| > 0 && es[0] > 0.0 && WorstFall(es, w)
    ensures w >= 0.0
  {
    NoFallUpwards(es[0], es[0]);
  }

  lemma {:induction false} SegmentIsSane(
    cfg: Settings, q: Search, from: int, to: int, cs: seq<Candle>, wall: nat -> int)
    requires Segment(cfg, q, from, to, cs, wall).Ok?
    ensures Sane(Segment(cfg, q, from, to, cs, wall).value, |q.symbols|)
  {
    var request := Request(q.symbols, q.timeframe, from, to);
    var s := RunBacktest(cfg, request, cs, wall).value;
    ReportedDrawdownIsWorst(cfg, request, cs, wall);
    DrawdownIsNotNegative(Equities(cfg.backtestStartingBalance, s.curve), s.maxDrawdownPercent);
    SummaryOfReplay(cfg, request, cs, wall);
    ProfitFactorIsPositive(s.journal);
  }

  lemma {:induction false} CandidateScoreInRange(
    judge: Settings, cfg: Settings, id: nat, ss: seq<Setting>, q: Search, cs: seq<Candle>, wall: nat -> int)
    requires EvaluateCandidate(judge, cfg, id, ss, q, cs, wall).Ok?
    ensures 0.0 <= EvaluateCandidate(judge, cfg, id, ss, q, cs, wall).value.score <= 100.0
  {
    EvaluatedAs(judge, cfg, id, ss, q, cs, wall);
    SegmentIsSane(cfg, q, TrainEnd(q), ValidationEnd(q), cs, wall);
    ScoreInRange(judge, Segment(cfg, q, TrainEnd(q), ValidationEnd(q), cs, wall).value, |q.symbols|);
  }

  // ---------------------------------------------------------------------
  // Symbols as the search spells them
  // ---------------------------------------------------------------------

  ghost predicate SpelledOtherwise(cfg: Settings, q: Search) {
    forall i :: 0 <= i < |q.symbols| ==> q.symbols[i] !in cfg.symbols
  }

  lemma {:induction false} EmptySlicesAreWorthless(names: seq<string>, s: Summary)
    requires forall x :: x in names ==> x in s.symbols && s.symbols[x] == PerformanceSlice(OfSymbol(s.journal, x))
    requires forall x :: x in s.symbols ==> s.symbols[x].trades == 0
    ensures forall i :: 0 <= i < |NetsOf(names, s.symbols)| ==> NetsOf(names, s.symbols)[i] == 0.0
  {
    forall i | 0 <= i < |names| ensures s.symbols[names[i]].net == 0.0 {
      assert names[i] in names;
      assert OfSymbol(s.journal, names[i]) == [];
    }
  }

  /**
   * The candles of a search are loaded under upper-case names, its replays keep the names as
   * given: a search in lower case is evaluated without error, but no symbol ever counts as
   * positive, and no candidate can score more than eighty.
   */
  lemma {:induction false} LowerCaseLosesConsistency(
    judge: Settings, cfg: Settings, q: Search, from: int, to: int, cs: seq<Candle>, wall: nat -> int)
    requires Segment(cfg, q, from, to, cs, wall).Ok? && SpelledOtherwise(cfg, q)
    ensures var m := Segment(cfg, q, from, to, cs, wall).value;
            && ConsistencyPart(m, |q.symbols|) == 0.0
            && CompositeScore(judge, m, |q.symbols|) <= 80.0
  {
    var request := Request(q.symbols, q.timeframe, from, to);
    var s := RunBacktest(cfg, request, cs, wall).value;
    SpellingDecidesSlices(cfg, request, cs, wall);
    SummaryOfReplay(cfg, request, cs, wall);
    SummaryTells(ReplaySettings(cfg), request, ReplayOf(cfg, request, cs, wall).value);
    EmptySlicesAreWorthless(Once(q.symbols), s);
    SegmentIsSane(cfg, q, from, to, cs, wall);
    WithoutConsistency(judge, Segment(cfg, q, from, to, cs, wall).value, |q.symbols|);
  }

  lemma {:induction false} WithoutConsistency(judge: Settings, m: Metrics, symbols: nat)
    requires Sane(m, symbols) && forall i :: 0 <= i < |m.symbolNets| ==> m.symbolNets[i] == 0.0
    ensures ConsistencyPart(m, symbols) == 0.0 && CompositeScore(judge, m, symbols) <= 80.0
  {
    PartsInUnit(judge, m, symbols);
    assert Filter(IsPositive, m.symbolNets) == [];
    RatioOfNothing(IntMax(symbols, 1) as real);
    var parts := 0.30 * ExpectancyPart(judge, m) + 0.25 * ProfitPart(m) + 0.25 * DrawdownPart(judge, m)
                 + 0.20 * ConsistencyPart(m, symbols);
    AtMostEighty(100.0 * parts, TradeAdjustment(judge, m));
  }

  lemma {:induction false} RatioOfNothing(x: real)
    requires x != 0.0
    ensures Ratio(0.0, x) == 0.0
  {
  }

  lemma {:induction false} AtMostEighty(a: real, b: real)
    requires 0.0 <= a <= 80.0 && 0.0 <= b <= 1.0
    ensures Quantized(Product(a, b)) <= 80.0
  {
    ProductNonNegative(a, 1.0 - b);
    assert a * (1.0 - b) == a - a * b;
    RoundingKeepsOrder(Product(a, b) * 100.0, 8_000.0);
  }

  // ---------------------------------------------------------------------
  // Candidates
  // ---------------------------------------------------------------------

  /** The three gates a candidate must pass to be selected. */
  predicate PassesGates(judge: Settings, m: Metrics) {
    && m.trades >= judge.minEvaluationTrades
    && m.maxDrawdownPercent <= judge.maxAcceptableDrawdownPercent
    && m.profitFactor.Some? && m.profitFactor.value >= judge.minAcceptableProfitFactor
  }

  ghost predicate WellJudged(judge: Settings, c: Candidate) {
    && 0.0 <= c.score <= 100.0
    && (c.eligible <==> PassesGates(judge, c.validation))
    && (c.stability.Some? ==> 0.0 <= c.stability.value <= 100.0)
  }

  lemma {:induction false} EligibleIffGatesPass(
    judge: Settings, id: nat, ss: seq<Setting>, symbols: nat, train: Metrics, validation: Metrics)
    ensures Judged(judge, id, ss, symbols, train, validation).eligible <==> PassesGates(judge, validation)
  {
  }

  lemma {:induction false} CandidateIsWellJudged(
    judge: Settings, cfg: Settings, id: nat, ss: seq<Setting>, q: Search, cs: seq<Candle>, wall: nat -> int)
    requires EvaluateCandidate(judge, cfg, id, ss, q, cs, wall).Ok?
    ensures WellJudged(judge, EvaluateCandidate(judge, cfg, id, ss, q, cs, wall).value)
  {
    EvaluatedAs(judge, cfg, id, ss, q, cs, wall);
    CandidateScoreInRange(judge, cfg, id, ss, q, cs, wall);
    EligibleIffGatesPass(judge, id, ss, |q.symbols|, Segment(cfg, q, q.start, TrainEnd(q), cs, wall).value,
                         Segment(cfg, q, TrainEnd(q), ValidationEnd(q), cs, wall).value);
  }

  ghost predicate AllWellJudged(judge: Settings, cs: seq<Candidate>) {
    forall i :: 0 <= i < |cs| ==> WellJudged(judge, cs[i])
  }

  lemma {:induction false} GridIsWellJudged(
    judge: Settings, q: Search, grid: seq<seq<Setting>>, cs: seq<Candle>, wall: nat -> int)
    requires EvaluateAll(judge, q, grid, cs, wall).Ok?
    ensures AllWellJudged(judge, EvaluateAll(judge, q, grid, cs, wall).value.candidates)
  {
    if |grid| > 0 {
      GridIsWellJudged(judge, q, grid[..|grid| - 1], cs, wall);
      NextIsWellJudged(judge, q, EvaluateAll(judge, q, grid[..|grid| - 1], cs, wall).value, |grid|,
                       grid[|grid| - 1], cs, wall);
    }
  }

  lemma {:induction false} NextIsWellJudged(
    judge: Settings, q: Search, done: Evaluations, id: nat, ss: seq<Setting>, cs: seq<Candle>, wall: nat -> int)
    requires AllWellJudged(judge, done.candidates) && EvaluateNext(judge, q, done, id, ss, cs, wall).Ok?
    ensures AllWellJudged(judge, EvaluateNext(judge, q, done, id, ss, cs, wall).value.candidates)
  {
    match CandidateSettings(judge, ss)
    case None =>
    case Some(cfg) =>
      CandidateIsWellJudged(judge, cfg, id, ss, q, cs, wall);
      WellJudgedOneMore(judge, done.candidates, EvaluateCandidate(judge, cfg, id, ss, q, cs, wall).value);
  }

  lemma {:induction false} WellJudgedOneMore(judge: Settings, cs: seq<Candidate>, c: Candidate)
    requires AllWellJudged(judge, cs) && WellJudged(judge, c)
    ensures AllWellJudged(judge, cs + [c])
  {
  }

  lemma {:induction false} GapsInRange(judge: Settings, c: Candidate, others: seq<Candidate>)
    requires WellJudged(judge, c) && AllWellJudged(judge, others)
    ensures forall i :: 0 <= i < |ScoreGaps(c, others)| ==> 0.0 <= ScoreGaps(c, others)[i] <= 100.0
  {
    if |others| > 0 {
      GapsInRange(judge, c, others[..|others| - 1]);
      assert WellJudged(judge, others[|others| - 1]);
    }
  }

  lemma {:induction false} StabilityIsWellJudged(judge: Settings, c: Candidate, all: seq<Candidate>)
    requires WellJudged(judge, c) && AllWellJudged(judge, all)
    ensures WellJudged(judge, WithStability(c, all))
  {
    var gaps := ScoreGaps(c, all);
    GapsInRange(judge, c, all);
    if |gaps| > 0 {
      assert forall i :: 0 <= i < |gaps| ==> Identical(gaps[i]) >= 0.0;
      SumNonNegative(Identical, gaps);
      RatioInUnit(Sum(Identical, gaps), |gaps| as real);
      QuantizedInRange(Max(0.0, 100.0 - MeanGap(gaps)));
    }
  }

  lemma {:induction false} ChangesAreMutual(a: seq<Setting>, b: seq<Setting>)
    requires |a| == |b|
    ensures CountChanges(a, b) == CountChanges(b, a)
  {
    if |a| > 0 {
      ChangesAreMutual(a[..|a| - 1], b[..|b| - 1]);
    }
  }

  /** Neighbours in the grid are mutual, so that a gap in score counts against both. */
  lemma {:induction false} NeighboursAreMutual(a: Candidate, b: Candidate)
    ensures OneParameterApart(a, b) <==> OneParameterApart(b, a)
  {
    if |a.parameters| == |b.parameters| {
      ChangesAreMutual(a.parameters, b.parameters);
    }
  }

  // ---------------------------------------------------------------------
  // Selection
  // ---------------------------------------------------------------------

  /** The first of the eligible candidates with the highest score. */
  ghost predicate IsFirstBest(cs: seq<Candidate>, i: nat) {
    && i < |cs| && cs[i].eligible
    && (forall j :: 0 <= j < |cs| && cs[j].eligible ==> cs[j].score <= cs[i].score)
    && (forall j :: 0 <= j < i && cs[j].eligible ==> cs[j].score < cs[i].score)
  }

  /** A score of zero ranks below every other, as it should: scores are never negative. */
  lemma {:induction false} KeysFollowScores(judge: Settings, a: Candidate, b: Candidate)
    requires WellJudged(judge, a) && WellJudged(judge, b)
    ensures RankingKey(a) > RankingKey(b) <==> a.score > b.score
  {
  }

  lemma {:induction false} BestIsFirstBest(judge: Settings, cs: seq<Candidate>)
    returns (i: nat)
    requires AllWellJudged(judge, cs)
    ensures Best(cs).Some? <==> exists j :: 0 <= j < |cs| && cs[j].eligible
    ensures Best(cs).Some? ==> IsFirstBest(cs, i) && Best(cs) == Some(cs[i])
  {
    i := 0;
    if |cs| > 0 {
      var front, last := cs[..|cs| - 1], cs[|cs| - 1];
      i := BestIsFirstBest(judge, front);
      if Best(front).Some? {
        assert cs[i] == front[i] && cs[i].eligible;
        KeysFollowScores(judge, last, cs[i]);
      }
      if last.eligible && (Best(front).None? || last.score > cs[i].score) {
        i := |cs| - 1;
      }
      assert forall j :: 0 <= j < |front| ==> front[j] == cs[j];
    }
  }

  /**
   * In a finished search every score and stability lies between 0 and 100, eligibility is
   * exactly the three gates, and the selection is the first eligible candidate with the
   * highest score; there is none exactly when no candidate is eligible.
   */
  lemma {:induction false} SelectionIsBest(judge: Settings, q: Search, cs: seq<Candle>, wall: nat -> int)
    returns (i: nat)
    requires Ranked(judge, q, cs, wall).Ok?
    ensures var r := Ranked(judge, q, cs, wall).value;
            && AllWellJudged(judge, r.candidates)
            && (r.selected.Some? <==> exists j :: 0 <= j < |r.candidates| && r.candidates[j].eligible)
            && (r.selected.Some? ==> IsFirstBest(r.candidates, i) && r.selected == Some(r.candidates[i])
                                     && PassesGates(judge, r.selected.value.validation))
  {
    GridIsWellJudged(judge, q, Combinations(q.grid), cs, wall);
    var judged := EvaluateAll(judge, q, Combinations(q.grid), cs, wall).value.candidates;
    AllStabilityIsWellJudged(judge, judged);
    i := BestIsFirstBest(judge, AllWithStability(judged));
  }

  lemma {:induction false} AllStabilityIsWellJudged(judge: Settings, cs: seq<Candidate>)
    requires AllWellJudged(judge, cs)
    ensures AllWellJudged(judge, AllWithStability(cs))
  {
    forall i | 0 <= i < |cs| ensures WellJudged(judge, WithStability(cs[i], cs)) {
      StabilityIsWellJudged(judge, cs[i], cs);
    }
  }

  // ---------------------------------------------------------------------
  // The grid
  // ---------------------------------------------------------------------

  /** One value of each axis, in the order of the axes. */
  predicate Chosen(grid: seq<Axis>, ss: seq<Setting>) {
    |ss| == |grid| && forall i :: 0 <= i < |grid| ==> ss[i].field == grid[i].field && ss[i].value in grid[i].values
  }

  lemma {:induction false} ChoicesAre(field: Field, values: seq<real>, rest: seq<seq<Setting>>, ss: seq<Setting>)
    ensures ss in Choices(field, values, rest)
            <==> |ss| > 0 && ss[0].field == field && ss[0].value in values && ss[1..] in rest
  {
    if |values| > 0 {
      var front, last := values[..|values| - 1], values[|values| - 1];
      ChoicesAre(field, front, rest, ss);
      assert values == front + [last];
      var with := Completed(Setting(field, last), rest);
      assert ss in with <==> |ss| > 0 && ss[0] == Setting(field, last) && ss[1..] in rest by {
        if ss in with {
          var i :| 0 <= i < |with| && with[i] == ss;
          assert ss[1..] == rest[i];
        }
        if |ss| > 0 && ss[0] == Setting(field, last) && ss[1..] in rest {
          var i :| 0 <= i < |rest| && rest[i] == ss[1..];
          assert with[i] == [ss[0]] + ss[1..] == ss;
        }
      }
    }
  }

  lemma {:induction false} ProductIsComplete(grid: seq<Axis>, ss: seq<Setting>)
    ensures ss in CartesianProduct(grid) <==> Chosen(grid, ss)
  {
    if |grid| > 0 {
      ChoicesAre(grid[0].field, grid[0].values, CartesianProduct(grid[1..]), ss);
      if |ss| > 0 {
        ProductIsComplete(grid[1..], ss[1..]);
        assert Chosen(grid, ss) <==>
               ss[0].field == grid[0].field && ss[0].value in grid[0].values && Chosen(grid[1..], ss[1..]) by {
          assert |ss| == |grid| ==> forall i :: 0 < i < |grid| ==>
                 ss[i] == ss[1..][i - 1] && grid[i] == grid[1..][i - 1];
          assert |ss| == |grid| ==> forall i :: 0 <= i < |grid| - 1 ==>
                 ss[1..][i] == ss[i + 1] && grid[1..][i] == grid[i + 1];
        }
      }
    }
  }

  /** The search tries exactly the combinations of one value per axis, and nothing when there is no axis. */
  lemma {:induction false} GridIsComplete(grid: seq<Axis>, ss: seq<Setting>)
    ensures ss in Combinations(grid) <==> grid != [] && Chosen(grid, ss)
  {
    ProductIsComplete(grid, ss);
  }

  // ---------------------------------------------------------------------
  // Walking forward
  // ---------------------------------------------------------------------

  function CursorAt(q: Search, start: int, k: nat): int {
    start + k * (q.stepDays * DAY_MS)
  }

  lemma {:induction false} CursorSteps(q: Search, start: int, k: nat)
    ensures CursorAt(q, start, 0) == start
    ensures CursorAt(q, NextCursor(q, start), k) == CursorAt(q, start, k + 1)
  {
    var step := q.stepDays * DAY_MS;
    assert (k + 1) * step == k * step + step;
  }

  /** Window `k` ends after its days of training and of validation. */
  function WindowEnd(q: Search, start: int, k: nat): int {
    CursorAt(q, start, k) + 24 * 60 * 60 * 1000 * (q.trainDays + q.validationDays)
  }

  /** Fold `k` starts `k` steps after the first, and validates right after it has trained. */
  predicate IsFold(q: Search, start: int, k: nat, f: Fold) {
    && f.trainStart == CursorAt(q, start, k)
    && f.trainEnd == f.trainStart + 24 * 60 * 60 * 1000 * q.trainDays
    && f.validationEnd == f.trainEnd + 24 * 60 * 60 * 1000 * q.validationDays && f.trainEnd < f.validationEnd <= q.end
  }

  /** Every window that fits into the request is a fold, and no other. */
  ghost predicate AreTheFolds(q: Search, start: int, folds: seq<Fold>) {
    && (forall k :: 0 <= k < |folds| ==> IsFold(q, start, k, folds[k]))
    && WindowEnd(q, start, |folds|) > q.end
  }

  lemma {:induction false} OneFoldBefore(q: Search, cursor: int, fold: Fold, rest: seq<Fold>)
    requires IsFold(q, cursor, 0, fold) && AreTheFolds(q, NextCursor(q, cursor), rest)
    ensures AreTheFolds(q, cursor, [fold] + rest)
  {
    var folds := [fold] + rest;
    forall k | 0 <= k < |folds| ensures IsFold(q, cursor, k, folds[k]) {
      if k > 0 {
        assert folds[k] == rest[k - 1];
        CursorSteps(q, cursor, k - 1);
      }
    }
    CursorSteps(q, cursor, |rest|);
  }

  lemma {:induction false} FirstWindow(q: Search, cursor: int)
    ensures WindowEnd(q, cursor, 0) == FoldEnd(q, cursor) && CursorAt(q, cursor, 0) == cursor
  {
    CursorSteps(q, cursor, 0);
  }

  lemma {:induction false} FirstIsFold(cfg: Settings, q: Search, cursor: int, cs: seq<Candle>, wall: nat -> int)
    requires FoldEnd(q, cursor) <= q.end && FoldAt(cfg, q, cursor, cs, wall).Ok?
    ensures IsFold(q, cursor, 0, FoldAt(cfg, q, cursor, cs, wall).value)
  {
    FirstWindow(q, cursor);
  }

  lemma {:induction false} FoldsAreTheWindows(cfg: Settings, q: Search, cursor: int, cs: seq<Candle>, wall: nat -> int)
    requires FoldsFrom(cfg, q, cursor, cs, wall).Ok?
    ensures AreTheFolds(q, cursor, FoldsFrom(cfg, q, cursor, cs, wall).value)
    decreases q.end - cursor
  {
    if FoldEnd(q, cursor) > q.end {
      FirstWindow(q, cursor);
    } else {
      var next := NextCursor(q, cursor);
      FirstIsFold(cfg, q, cursor, cs, wall);
      FoldsAreTheWindows(cfg, q, next, cs, wall);
      OneFoldBefore(q, cursor, FoldAt(cfg, q, cursor, cs, wall).value, FoldsFrom(cfg, q, next, cs, wall).value);
    }
  }

  /** Some fold is validated on candles that close in the holdout. */
  ghost predicate ReadsHoldout(q: Search, folds: seq<Fold>) {
    exists k :: 0 <= k < |folds| && folds[k].validationEnd > ValidationEnd(q)
  }

  /** Window `k` of the request ends in the holdout. */
  predicate WindowInHoldout(q: Search, k: nat) {
    ValidationEnd(q) < WindowEnd(q, q.start, k) <= q.end
  }

  lemma {:induction false} CursorsGrow(q: Search, start: int, i: nat, j: nat)
    requires i <= j
    ensures CursorAt(q, start, i) <= CursorAt(q, start, j)
  {
    var step := q.stepDays * DAY_MS;
    assert (j - i) * step >= 0;
    assert j * step == i * step + (j - i) * step;
  }

  /**
   * The walk-forward study reads the holdout, before any final evaluation, exactly when the
   * request has a window that ends in it; that is so whenever a window fits and the holdout is
   * at least one step long.
   */
  lemma {:induction false} WalkForwardReadsHoldout(cfg: Settings, q: Search, cs: seq<Candle>, wall: nat -> int)
    requires FoldsFrom(cfg, q, q.start, cs, wall).Ok?
    ensures ReadsHoldout(q, FoldsFrom(cfg, q, q.start, cs, wall).value) <==> exists k: nat :: WindowInHoldout(q, k)
    ensures WindowEnd(q, q.start, 0) <= q.end && q.stepDays * DAY_MS <= q.end - ValidationEnd(q) ==>
              exists k: nat :: WindowInHoldout(q, k)
  {
    var folds := FoldsFrom(cfg, q, q.start, cs, wall).value;
    FoldsAreTheWindows(cfg, q, q.start, cs, wall);
    CursorSteps(q, q.start, 0);
    FoldsAreFittingWindows(q, folds);
    if |folds| > 0 && q.stepDays * DAY_MS <= q.end - ValidationEnd(q) {
      LastWindowInHoldout(q, folds);
    }
  }

  lemma {:induction false} LastWindowInHoldout(q: Search, folds: seq<Fold>)
    requires AreTheFolds(q, q.start, folds) && |folds| > 0 && q.stepDays * DAY_MS <= q.end - ValidationEnd(q)
    ensures WindowInHoldout(q, |folds| - 1)
  {
    assert IsFold(q, q.start, |folds| - 1, folds[|folds| - 1]);
    OneStepOn(q, q.start, |folds| - 1);
  }

  /** The folds that end in the holdout are the windows that do. */
  lemma {:induction false} FoldsAreFittingWindows(q: Search, folds: seq<Fold>)
    requires AreTheFolds(q, q.start, folds)
    ensures ReadsHoldout(q, folds) <==> exists k: nat :: WindowInHoldout(q, k)
  {
    forall k: nat | WindowInHoldout(q, k) ensures ReadsHoldout(q, folds) {
      if k < |folds| {
        assert IsFold(q, q.start, k, folds[k]);
      } else {
        CursorsGrow(q, q.start, |folds|, k);
      }
    }
    forall k | 0 <= k < |folds| && folds[k].validationEnd > ValidationEnd(q) ensures WindowInHoldout(q, k) {
      assert IsFold(q, q.start, k, folds[k]);
    }
  }

  lemma {:induction false} OneStepOn(q: Search, start: int, k: nat)
    ensures CursorAt(q, start, k + 1) == CursorAt(q, start, k) + q.stepDays * DAY_MS
  {
    var step := q.stepDays * DAY_MS;
    assert (k + 1) * step == k * step + step;
  }

  /**
   * Thirty days with the default fractions and windows: the last window ends on day 28, the holdout
   * starts on day 24.
   */
  const THIRTY_DAYS: Search := SearchRecord(["BTCUSDT"], "1m", 0, 30 * DAY_MS, [], 0.6, 0.2, 14, 7, 7)

  lemma {:induction false} DefaultSearchReadsHoldout()
    ensures ValidationEnd(THIRTY_DAYS) == 24 * DAY_MS && WindowInHoldout(THIRTY_DAYS, 1)
  {
    assert CursorAt(THIRTY_DAYS, 0, 1) == 7 * DAY_MS;
  }
}
