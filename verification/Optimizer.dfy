/**
 * Grid search over strategy parameters: candidates are replayed on a training and a
 * validation segment, scored on the validation segment alone, and one is selected.
 */
module Optimizer {
  import opened Common
  import opened Configuration
  import opened Market
  import opened Backtest

  // ---------------------------------------------------------------------
  // Requests and parameters
  // ---------------------------------------------------------------------

  datatype Field =
    | EmaFastPeriod | EmaSlowPeriod | RsiLongMin | RsiLongMax | RsiShortMin | RsiShortMax | SignalMinScore
    | MinVwapDistanceBps | MinEmaSeparationBps | MinVolumeRatio | MinAtrBps | MaxAtrBps | AtrStopMultiplier | TargetRr

  datatype Setting = Setting(field: Field, value: real)

  datatype Axis = Axis(field: Field, values: seq<real>)

  datatype SearchRecord = SearchRecord(
    symbols: seq<string>, timeframe: string, start: int, end: int, grid: seq<Axis>,
    trainFraction: real, validationFraction: real, trainDays: int, validationDays: int, stepDays: int)
  {
    predicate Valid() {
      && symbols != [] && start < end
      && 0.0 < trainFraction < 1.0 && 0.0 < validationFraction < 1.0 && trainFraction + validationFraction < 1.0
      && (forall i :: 0 <= i < |grid| ==> grid[i].values != [])
      && trainDays > 0 && validationDays > 0 && stepDays > 0
    }
  }

  /** A request that passed its own validation. */
  type Search = s: SearchRecord | s.Valid()
    witness SearchRecord(["BTCUSDT"], "1m", 0, 1, [], 0.6, 0.2, 14, 7, 7)

  datatype SearchError =
    Rejected(error: ReplayError) | TooManyCombinations | EmptySegment | ReplayFailed(error: ReplayError)

  /** The choices of one axis before each way of completing them; the last axis changes fastest. */
  function Choices(field: Field, values: seq<real>, rest: seq<seq<Setting>>): seq<seq<Setting>> {
    if |values| == 0 then []
    else Choices(field, values[..|values| - 1], rest) + Completed(Setting(field, values[|values| - 1]), rest)
  }

  function Completed(s: Setting, rest: seq<seq<Setting>>): (r: seq<seq<Setting>>)
    ensures |r| == |rest| && forall i :: 0 <= i < |rest| ==> r[i] == [s] + rest[i]
  {
    seq(|rest|, i requires 0 <= i < |rest| => [s] + rest[i])
  }

  function CartesianProduct(grid: seq<Axis>): seq<seq<Setting>> {
    if |grid| == 0 then [[]] else Choices(grid[0].field, grid[0].values, CartesianProduct(grid[1..]))
  }

  /** No axes, no candidates. */
  function Combinations(grid: seq<Axis>): seq<seq<Setting>> {
    if |grid| == 0 then [] else CartesianProduct(grid)
  }

  /** An integer setting accepts only a whole value. */
  function Whole(x: real): Option<int> {
    if x.Floor as real == x then Some(x.Floor) else None
  }

  function WholePositive(x: real): Option<nat> {
    if Whole(x).Some? && Whole(x).value > 0 then Some(Whole(x).value) else None
  }

  function With(cfg: SettingsRecord, s: Setting): Option<SettingsRecord> {
    match s.field
    case EmaFastPeriod =>
      if WholePositive(s.value).Some? then Some(cfg.(emaFastPeriod := WholePositive(s.value).value)) else None
    case EmaSlowPeriod =>
      if WholePositive(s.value).Some? then Some(cfg.(emaSlowPeriod := WholePositive(s.value).value)) else None
    case RsiLongMin => Some(cfg.(rsiLongMin := s.value))
    case RsiLongMax => Some(cfg.(rsiLongMax := s.value))
    case RsiShortMin => Some(cfg.(rsiShortMin := s.value))
    case RsiShortMax => Some(cfg.(rsiShortMax := s.value))
    case SignalMinScore => if Whole(s.value).Some? then Some(cfg.(signalMinScore := Whole(s.value).value)) else None
    case MinVwapDistanceBps => Some(cfg.(minVwapDistanceBps := s.value))
    case MinEmaSeparationBps => Some(cfg.(minEmaSeparationBps := s.value))
    case MinVolumeRatio => Some(cfg.(minVolumeRatio := s.value))
    case MinAtrBps => Some(cfg.(minAtrBps := s.value))
    case MaxAtrBps => Some(cfg.(maxAtrBps := s.value))
    case AtrStopMultiplier => Some(cfg.(atrStopMultiplier := s.value))
    case TargetRr => Some(cfg.(targetRr := s.value))
  }

  function WithAll(cfg: SettingsRecord, ss: seq<Setting>): Option<SettingsRecord> {
    if |ss| == 0 then Some(cfg)
    else
      match WithAll(cfg, ss[..|ss| - 1])
      case None => None
      case Some(r) => With(r, ss[|ss| - 1])
  }

  /** The settings of a candidate, if they pass the validation that every configuration must pass. */
  function CandidateSettings(cfg: Settings, ss: seq<Setting>): Option<Settings> {
    match WithAll(cfg, ss)
    case None => None
    case Some(r) => if r.Valid() then Some(r) else None
  }

  // ---------------------------------------------------------------------
  // Segments
  // ---------------------------------------------------------------------

  function PartOf(span: int, fraction: real): real {
    Product(span as real, fraction)
  }

  function TrainEnd(q: Search): int {
    q.start + RoundHalfEven(PartOf(q.end - q.start, q.trainFraction))
  }

  /** The holdout starts where validation ends. */
  function ValidationEnd(q: Search): int {
    TrainEnd(q) + RoundHalfEven(PartOf(q.end - q.start, q.validationFraction))
  }

  datatype Metrics = Metrics(
    trades: nat, net: real, returnPercent: real, winRate: Option<real>, profitFactor: Option<real>,
    expectancy: Option<real>, averageR: Option<real>, maxDrawdown: real, maxDrawdownPercent: real, fees: real,
    symbolNets: seq<real>)

  function NetsOf(names: seq<string>, slices: map<string, Slice>): (r: seq<real>)
    requires forall x :: x in names ==> x in slices
    ensures |r| == |names| && forall i :: 0 <= i < |names| ==> r[i] == slices[names[i]].net
  {
    seq(|names|, i requires 0 <= i < |names| => slices[names[i]].net)
  }

  function MetricsOf(symbols: seq<string>, s: Summary): Metrics
    requires forall x :: x in symbols ==> x in s.symbols
  {
    Metrics(s.trades, s.net, s.returnPercent, s.winRate, s.profitFactor, s.expectancy, s.averageR, s.maxDrawdown,
            s.maxDrawdownPercent, s.fees, NetsOf(Once(symbols), s.symbols))
  }

  lemma {:induction false} SlicesAreRequested(cfg: Settings, q: Request, cs: seq<Candle>, wall: nat -> int)
    requires RunBacktest(cfg, q, cs, wall).Ok?
    ensures forall x :: x in q.symbols ==> x in RunBacktest(cfg, q, cs, wall).value.symbols
  {
  }

  /** One backtest between two times. */
  function Segment(cfg: Settings, q: Search, from: int, to: int, cs: seq<Candle>, wall: nat -> int)
    : Result<Metrics, SearchError>
  {
    if to <= from then Err(EmptySegment)
    else
      var request := Request(q.symbols, q.timeframe, from, to);
      match RunBacktest(cfg, request, cs, wall)
      case Err(e) => Err(ReplayFailed(e))
      case Ok(s) =>
        SlicesAreRequested(cfg, request, cs, wall);
        Ok(MetricsOf(q.symbols, s))
  }

  // ---------------------------------------------------------------------
  // Scores and gates
  // ---------------------------------------------------------------------

  datatype Flag =
    | LowTradeCount | ExcessiveDrawdown | LowProfitFactor | SingleSymbolDependence
    | HighParameterSensitivity | HighCostSensitivity | WalkForwardInconsistent

  function AbsOf(x: real): real {
    Abs(x)
  }

  function LargestAbs(xs: seq<real>): real {
    if |xs| == 0 then 0.0
    else if |xs| == 1 then Abs(xs[0])
    else Max(LargestAbs(xs[..|xs| - 1]), Abs(xs[|xs| - 1]))
  }

  predicate DependsOnOneSymbol(m: Metrics, symbols: nat) {
    && symbols > 1 && Sum(AbsOf, m.symbolNets) != 0.0
    && Ratio(LargestAbs(m.symbolNets), Sum(AbsOf, m.symbolNets)) >= 0.80
  }

  function Raised(condition: bool, flag: Flag): set<Flag> {
    if condition then {flag} else {}
  }

  function GateFlags(judge: Settings, m: Metrics, symbols: nat): set<Flag> {
    Raised(m.trades < judge.minEvaluationTrades, LowTradeCount)
    + Raised(m.maxDrawdownPercent > judge.maxAcceptableDrawdownPercent, ExcessiveDrawdown)
    + Raised(m.profitFactor.None? || m.profitFactor.value < judge.minAcceptableProfitFactor, LowProfitFactor)
    + Raised(DependsOnOneSymbol(m, symbols), SingleSymbolDependence)
  }

  predicate IsPositive(x: real) {
    x > 0.0
  }

  function OrZero(x: Option<real>): real {
    if x.Some? then x.value else 0.0
  }

  /** The result per trade, in units of the money risked on one. */
  function ExpectancyPart(judge: Settings, m: Metrics): real {
    var scale := Product(judge.backtestStartingBalance, judge.riskPerTrade);
    if scale == 0.0 then 0.0 else Min(1.0, Ratio(Max(0.0, OrZero(m.expectancy)), scale))
  }

  function ProfitPart(m: Metrics): real {
    Min(1.0, OrZero(m.profitFactor) / 2.0)
  }

  function DrawdownPart(judge: Settings, m: Metrics): real {
    Max(0.0, 1.0 - Ratio(m.maxDrawdownPercent, judge.maxAcceptableDrawdownPercent))
  }

  function ConsistencyPart(m: Metrics, symbols: nat): real {
    Ratio(|Filter(IsPositive, m.symbolNets)| as real, IntMax(symbols, 1) as real)
  }

  function TradeAdjustment(judge: Settings, m: Metrics): real {
    Min(1.0, Ratio(m.trades as real, judge.minEvaluationTrades as real))
  }

  /** Rounding to two decimal places. */
  function Quantized(x: real): real {
    RoundHalfEven(x * 100.0) as real / 100.0
  }

  function CompositeScore(judge: Settings, m: Metrics, symbols: nat): real {
    var parts := 0.30 * ExpectancyPart(judge, m) + 0.25 * ProfitPart(m) + 0.25 * DrawdownPart(judge, m)
                 + 0.20 * ConsistencyPart(m, symbols);
    Quantized(Product(100.0 * parts, TradeAdjustment(judge, m)))
  }

  // ---------------------------------------------------------------------
  // Candidates
  // ---------------------------------------------------------------------

  datatype Candidate = Candidate(
    id: nat, parameters: seq<Setting>, train: Metrics, validation: Metrics, score: real, eligible: bool,
    flags: set<Flag>, stability: Option<real>)

  function Judged(
    judge: Settings, id: nat, ss: seq<Setting>, symbols: nat, train: Metrics, validation: Metrics): Candidate
  {
    var flags := GateFlags(judge, validation, symbols);
    Candidate(id, ss, train, validation, CompositeScore(judge, validation, symbols),
              LowTradeCount !in flags && ExcessiveDrawdown !in flags && LowProfitFactor !in flags, flags, None)
  }

  /** Gates and scores use the engine's own settings, the replays those of the candidate. */
  function EvaluateCandidate(
    judge: Settings, cfg: Settings, id: nat, ss: seq<Setting>, q: Search, cs: seq<Candle>, wall: nat -> int)
    : Result<Candidate, SearchError>
  {
    match Segment(cfg, q, q.start, TrainEnd(q), cs, wall)
    case Err(e) => Err(e)
    case Ok(train) =>
      match Segment(cfg, q, TrainEnd(q), ValidationEnd(q), cs, wall)
      case Err(e) => Err(e)
      case Ok(validation) => Ok(Judged(judge, id, ss, |q.symbols|, train, validation))
  }

  datatype Evaluations = Evaluations(candidates: seq<Candidate>, invalid: seq<nat>)

  /** Combinations are numbered from one; those with invalid settings are only noted. */
  function EvaluateAll(judge: Settings, q: Search, grid: seq<seq<Setting>>, cs: seq<Candle>, wall: nat -> int)
    : Result<Evaluations, SearchError>
  {
    if |grid| == 0 then Ok(Evaluations([], []))
    else
      match EvaluateAll(judge, q, grid[..|grid| - 1], cs, wall)
      case Err(e) => Err(e)
      case Ok(done) => EvaluateNext(judge, q, done, |grid|, grid[|grid| - 1], cs, wall)
  }

  function EvaluateNext(
    judge: Settings, q: Search, done: Evaluations, id: nat, ss: seq<Setting>, cs: seq<Candle>, wall: nat -> int)
    : Result<Evaluations, SearchError>
  {
    match CandidateSettings(judge, ss)
    case None => Ok(done.(invalid := done.invalid + [id]))
    case Some(cfg) =>
      match EvaluateCandidate(judge, cfg, id, ss, q, cs, wall)
      case Err(e) => Err(e)
      case Ok(c) => Ok(done.(candidates := done.candidates + [c]))
  }

  // ---------------------------------------------------------------------
  // Stability
  // ---------------------------------------------------------------------

  function CountChanges(a: seq<Setting>, b: seq<Setting>): nat
    requires |a| == |b|
  {
    if |a| == 0 then 0
    else CountChanges(a[..|a| - 1], b[..|b| - 1]) + (if a[|a| - 1].value != b[|b| - 1].value then 1 else 0)
  }

  predicate SameFields(a: seq<Setting>, b: seq<Setting>) {
    |a| == |b| && forall i :: 0 <= i < |a| ==> a[i].field == b[i].field
  }

  predicate OneParameterApart(a: Candidate, b: Candidate) {
    a.id != b.id && SameFields(a.parameters, b.parameters) && CountChanges(a.parameters, b.parameters) == 1
  }

  /** The distances in score to every neighbour in the grid. */
  function ScoreGaps(c: Candidate, others: seq<Candidate>): seq<real> {
    if |others| == 0 then []
    else
      var front, last := ScoreGaps(c, others[..|others| - 1]), others[|others| - 1];
      if OneParameterApart(c, last) then front + [Abs(c.score - last.score)] else front
  }

  function Identical(x: real): real {
    x
  }

  function MeanGap(gaps: seq<real>): real
    requires |gaps| > 0
  {
    Ratio(Sum(Identical, gaps), |gaps| as real)
  }

  function WithStability(c: Candidate, all: seq<Candidate>): Candidate {
    var gaps := ScoreGaps(c, all);
    if |gaps| == 0 then c
    else
      c.(stability := Some(Quantized(Max(0.0, 100.0 - MeanGap(gaps)))),
         flags := c.flags + Raised(MeanGap(gaps) > 20.0, HighParameterSensitivity))
  }

  function AllWithStability(cs: seq<Candidate>): (r: seq<Candidate>)
    ensures |r| == |cs| && forall i :: 0 <= i < |cs| ==> r[i] == WithStability(cs[i], cs)
  {
    seq(|cs|, i requires 0 <= i < |cs| => WithStability(cs[i], cs))
  }

  method AddStability(cs: seq<Candidate>) returns (updated: seq<Candidate>)
    ensures updated == AllWithStability(cs)
  {
    updated := [];
    for i := 0 to |cs|
      invariant |updated| == i && forall k :: 0 <= k < i ==> updated[k] == WithStability(cs[k], cs)
    {
      updated := updated + [WithStability(cs[i], cs)];
    }
  }

  // ---------------------------------------------------------------------
  // Selection
  // ---------------------------------------------------------------------

  /** A score of zero counts as absent. */
  function RankingKey(c: Candidate): real {
    if c.score == 0.0 then -1.0 else c.score
  }

  /** The first of the eligible candidates with the highest key. */
  function Best(cs: seq<Candidate>): Option<Candidate> {
    if |cs| == 0 then None
    else
      var front, last := Best(cs[..|cs| - 1]), cs[|cs| - 1];
      if last.eligible && (front.None? || RankingKey(last) > RankingKey(front.value)) then Some(last) else front
  }

  datatype Ranking = Ranking(
    baseline: Candidate, candidates: seq<Candidate>, invalid: seq<nat>, selected: Option<Candidate>)

  /** Everything up to and including the selection. */
  function Ranked(judge: Settings, q: Search, cs: seq<Candle>, wall: nat -> int): Result<Ranking, SearchError> {
    match EvaluateCandidate(judge, judge, 0, [], q, cs, wall)
    case Err(e) => Err(e)
    case Ok(baseline) =>
      match EvaluateAll(judge, q, Combinations(q.grid), cs, wall)
      case Err(e) => Err(e)
      case Ok(done) =>
        var candidates := AllWithStability(done.candidates);
        Ok(Ranking(baseline, candidates, done.invalid, Best(candidates)))
  }

  // ---------------------------------------------------------------------
  // Research on the selected candidate
  // ---------------------------------------------------------------------

  function Dearer(cfg: Settings, multiplier: real): Settings
    requires multiplier > 0.0
  {
    ProductNonNegative(cfg.paperFeeBps, multiplier);
    ProductNonNegative(cfg.entrySlippageBps, multiplier);
    ProductNonNegative(cfg.exitSlippageBps, multiplier);
    cfg.(paperFeeBps := cfg.paperFeeBps * multiplier, entrySlippageBps := cfg.entrySlippageBps * multiplier,
         exitSlippageBps := cfg.exitSlippageBps * multiplier)
  }

  datatype Stress = Stress(normal: Metrics, high: Metrics, stress: Metrics)

  function CostStress(cfg: Settings, q: Search, cs: seq<Candle>, wall: nat -> int): Result<Stress, SearchError> {
    var normal := Segment(Dearer(cfg, 1.0), q, TrainEnd(q), ValidationEnd(q), cs, wall);
    var high := Segment(Dearer(cfg, 1.5), q, TrainEnd(q), ValidationEnd(q), cs, wall);
    var stress := Segment(Dearer(cfg, 2.0), q, TrainEnd(q), ValidationEnd(q), cs, wall);
    if normal.Err? then Err(normal.error)
    else if high.Err? then Err(high.error)
    else if stress.Err? then Err(stress.error)
    else Ok(Stress(normal.value, high.value, stress.value))
  }

  datatype Fold = Fold(trainStart: int, trainEnd: int, validationEnd: int, metrics: Metrics)

  function Prepend(fold: Fold, rest: Result<seq<Fold>, SearchError>): Result<seq<Fold>, SearchError> {
    if rest.Ok? then Ok([fold] + rest.value) else rest
  }

  function FoldTrainEnd(q: Search, cursor: int): int {
    cursor + q.trainDays * DAY_MS
  }

  function FoldEnd(q: Search, cursor: int): int {
    FoldTrainEnd(q, cursor) + q.validationDays * DAY_MS
  }

  function NextCursor(q: Search, cursor: int): (r: int)
    ensures r > cursor
  {
    cursor + q.stepDays * DAY_MS
  }

  function FoldAt(cfg: Settings, q: Search, cursor: int, cs: seq<Candle>, wall: nat -> int): Result<Fold, SearchError> {
    match Segment(cfg, q, FoldTrainEnd(q, cursor), FoldEnd(q, cursor), cs, wall)
    case Err(e) => Err(e)
    case Ok(m) => Ok(Fold(cursor, FoldTrainEnd(q, cursor), FoldEnd(q, cursor), m))
  }

  /** A window slides over the whole request, the holdout included. */
  function FoldsFrom(
    cfg: Settings, q: Search, cursor: int, cs: seq<Candle>, wall: nat -> int): Result<seq<Fold>, SearchError>
    decreases q.end - cursor
  {
    if FoldEnd(q, cursor) > q.end then Ok([])
    else
      match FoldAt(cfg, q, cursor, cs, wall)
      case Err(e) => Err(e)
      case Ok(fold) => Prepend(fold, FoldsFrom(cfg, q, NextCursor(q, cursor), cs, wall))
  }

  function AfterFolds(folds: seq<Fold>, rest: Result<seq<Fold>, SearchError>): Result<seq<Fold>, SearchError> {
    if rest.Ok? then Ok(folds + rest.value) else rest
  }

  lemma {:induction false} AfterNone(rest: Result<seq<Fold>, SearchError>)
    ensures AfterFolds([], rest) == rest
  {
    if rest.Ok? {
      assert [] + rest.value == rest.value;
    }
  }

  lemma {:induction false} AfterOneMore(folds: seq<Fold>, fold: Fold, rest: Result<seq<Fold>, SearchError>)
    ensures AfterFolds(folds, Prepend(fold, rest)) == AfterFolds(folds + [fold], rest)
  {
    if rest.Ok? {
      assert folds + ([fold] + rest.value) == (folds + [fold]) + rest.value;
    }
  }

  method WalkForward(
    cfg: Settings, q: Search, cs: seq<Candle>, wall: nat -> int) returns (r: Result<seq<Fold>, SearchError>)
    ensures r == FoldsFrom(cfg, q, q.start, cs, wall)
  {
    var folds: seq<Fold>, cursor := [], q.start;
    AfterNone(FoldsFrom(cfg, q, cursor, cs, wall));
    while FoldEnd(q, cursor) <= q.end
      invariant AfterFolds(folds, FoldsFrom(cfg, q, cursor, cs, wall)) == FoldsFrom(cfg, q, q.start, cs, wall)
      decreases q.end - cursor
    {
      var fold := FoldAt(cfg, q, cursor, cs, wall);
      if fold.Err? {
        return Err(fold.error);
      }
      AfterOneMore(folds, fold.value, FoldsFrom(cfg, q, NextCursor(q, cursor), cs, wall));
      folds := folds + [fold.value];
      cursor := NextCursor(q, cursor);
    }
    assert folds + [] == folds;
    r := Ok(folds);
  }

  predicate FoldGains(f: Fold) {
    f.metrics.net > 0.0
  }

  datatype Research = Research(stress: Stress, folds: seq<Fold>, flags: set<Flag>)

  function ResearchOf(c: Candidate, s: Stress, folds: seq<Fold>): Research {
    var costly := s.normal.net > 0.0 && s.stress.net < s.normal.net * 0.50;
    var inconsistent := folds != [] && |Filter(FoldGains, folds)| * 2 < |folds|;
    Research(s, folds, c.flags + Raised(costly, HighCostSensitivity) + Raised(inconsistent, WalkForwardInconsistent))
  }

  function Researched(
    cfg: Settings, q: Search, c: Candidate, cs: seq<Candle>, wall: nat -> int): Result<Research, SearchError>
  {
    match CostStress(cfg, q, cs, wall)
    case Err(e) => Err(e)
    case Ok(s) =>
      match FoldsFrom(cfg, q, q.start, cs, wall)
      case Err(e) => Err(e)
      case Ok(folds) => Ok(ResearchOf(c, s, folds))
  }

  // ---------------------------------------------------------------------
  // The whole run
  // ---------------------------------------------------------------------

  datatype Run = Run(ranking: Ranking, research: Option<Research>)

  function ValuesIn(grid: seq<Axis>): nat {
    if |grid| == 0 then 1 else ValuesIn(grid[..|grid| - 1]) * |grid[|grid| - 1].values|
  }

  function ValidateSearch(judge: Settings, q: Search): Option<SearchError> {
    var error := ValidateRequest(judge, Request(q.symbols, q.timeframe, q.start, q.end));
    if error.Some? then Some(Rejected(error.value))
    else if ValuesIn(q.grid) > judge.maxOptimizationCombinations then Some(TooManyCombinations)
    else None
  }

  ghost predicate AllConfigured(judge: Settings, cs: seq<Candidate>) {
    forall i :: 0 <= i < |cs| ==> CandidateSettings(judge, cs[i].parameters).Some?
  }

  lemma {:induction false} CandidatesAreConfigured(
    judge: Settings, q: Search, grid: seq<seq<Setting>>, cs: seq<Candle>, wall: nat -> int)
    requires EvaluateAll(judge, q, grid, cs, wall).Ok?
    ensures AllConfigured(judge, EvaluateAll(judge, q, grid, cs, wall).value.candidates)
  {
    if |grid| > 0 {
      CandidatesAreConfigured(judge, q, grid[..|grid| - 1], cs, wall);
      NextIsConfigured(judge, q, EvaluateAll(judge, q, grid[..|grid| - 1], cs, wall).value, |grid|,
                       grid[|grid| - 1], cs, wall);
    }
  }

  /** What a candidate keeps of its evaluation. */
  lemma {:induction false} EvaluatedAs(
    judge: Settings, cfg: Settings, id: nat, ss: seq<Setting>, q: Search, cs: seq<Candle>, wall: nat -> int)
    requires EvaluateCandidate(judge, cfg, id, ss, q, cs, wall).Ok?
    ensures Segment(cfg, q, q.start, TrainEnd(q), cs, wall).Ok?
            && Segment(cfg, q, TrainEnd(q), ValidationEnd(q), cs, wall).Ok?
    ensures EvaluateCandidate(judge, cfg, id, ss, q, cs, wall).value
            == Judged(judge, id, ss, |q.symbols|, Segment(cfg, q, q.start, TrainEnd(q), cs, wall).value,
                      Segment(cfg, q, TrainEnd(q), ValidationEnd(q), cs, wall).value)
  {
  }

  lemma {:induction false} NextIsConfigured(
    judge: Settings, q: Search, done: Evaluations, id: nat, ss: seq<Setting>, cs: seq<Candle>, wall: nat -> int)
    requires AllConfigured(judge, done.candidates) && EvaluateNext(judge, q, done, id, ss, cs, wall).Ok?
    ensures AllConfigured(judge, EvaluateNext(judge, q, done, id, ss, cs, wall).value.candidates)
  {
    match CandidateSettings(judge, ss)
    case None =>
    case Some(cfg) =>
      EvaluatedAs(judge, cfg, id, ss, q, cs, wall);
      ConfiguredOneMore(judge, done.candidates, EvaluateCandidate(judge, cfg, id, ss, q, cs, wall).value);
  }

  lemma {:induction false} ConfiguredOneMore(judge: Settings, cs: seq<Candidate>, c: Candidate)
    requires AllConfigured(judge, cs) && CandidateSettings(judge, c.parameters).Some?
    ensures AllConfigured(judge, cs + [c])
  {
  }

  lemma {:induction false} BestIsListed(cs: seq<Candidate>)
    ensures Best(cs).Some? ==> exists i :: 0 <= i < |cs| && cs[i] == Best(cs).value
  {
    if |cs| > 0 {
      BestIsListed(cs[..|cs| - 1]);
      var front := cs[..|cs| - 1];
      if Best(front).Some? {
        var i :| 0 <= i < |front| && front[i] == Best(front).value;
        assert cs[i] == front[i] && cs[|cs| - 1] == cs[|cs| - 1];
      }
    }
  }

  lemma {:induction false} BestIsConfigured(judge: Settings, cs: seq<Candidate>)
    requires AllConfigured(judge, cs) && Best(AllWithStability(cs)).Some?
    ensures CandidateSettings(judge, Best(AllWithStability(cs)).value.parameters).Some?
  {
    var all := AllWithStability(cs);
    BestIsListed(all);
    var i :| 0 <= i < |all| && all[i] == Best(all).value;
    assert all[i].parameters == cs[i].parameters;
  }

  /** The settings of the selected candidate were valid when it was evaluated, and still are. */
  lemma {:induction false} SelectedIsConfigured(judge: Settings, q: Search, cs: seq<Candle>, wall: nat -> int)
    requires Ranked(judge, q, cs, wall).Ok? && Ranked(judge, q, cs, wall).value.selected.Some?
    ensures CandidateSettings(judge, Ranked(judge, q, cs, wall).value.selected.value.parameters).Some?
  {
    CandidatesAreConfigured(judge, q, Combinations(q.grid), cs, wall);
    BestIsConfigured(judge, EvaluateAll(judge, q, Combinations(q.grid), cs, wall).value.candidates);
  }

  function Optimized(judge: Settings, q: Search, cs: seq<Candle>, wall: nat -> int): Result<Run, SearchError> {
    var error := ValidateSearch(judge, q);
    if error.Some? then Err(error.value)
    else
      match Ranked(judge, q, cs, wall)
      case Err(e) => Err(e)
      case Ok(ranking) =>
        if ranking.selected.None? then Ok(Run(ranking, None))
        else
          SelectedIsConfigured(judge, q, cs, wall);
          var cfg := CandidateSettings(judge, ranking.selected.value.parameters).value;
          match Researched(cfg, q, ranking.selected.value, cs, wall)
          case Err(e) => Err(e)
          case Ok(research) => Ok(Run(ranking, Some(research)))
  }

  lemma {:induction false} FirstErrorStays(
    judge: Settings, q: Search, grid: seq<seq<Setting>>, cs: seq<Candle>, wall: nat -> int, n: nat, e: SearchError)
    requires n <= |grid| && EvaluateAll(judge, q, grid[..n], cs, wall) == Err(e)
    ensures EvaluateAll(judge, q, grid, cs, wall) == Err(e)
    decreases |grid|
  {
    if n < |grid| {
      assert grid[..|grid| - 1][..n] == grid[..n];
      FirstErrorStays(judge, q, grid[..|grid| - 1], cs, wall, n, e);
    } else {
      assert grid[..n] == grid;
    }
  }

  lemma {:induction false} OneMoreCombination(
    judge: Settings, q: Search, grid: seq<seq<Setting>>, cs: seq<Candle>, wall: nat -> int, i: nat, done: Evaluations)
    requires i < |grid| && EvaluateAll(judge, q, grid[..i], cs, wall) == Ok(done)
    ensures EvaluateAll(judge, q, grid[..i + 1], cs, wall) == EvaluateNext(judge, q, done, i + 1, grid[i], cs, wall)
  {
    assert grid[..i + 1][..i] == grid[..i];
  }

  method EvaluateOne(
    judge: Settings, q: Search, done: Evaluations, id: nat, ss: seq<Setting>, cs: seq<Candle>, wall: nat -> int)
    returns (r: Result<Evaluations, SearchError>)
    ensures r == EvaluateNext(judge, q, done, id, ss, cs, wall)
  {
    var settings := CandidateSettings(judge, ss);
    if settings.None? {
      return Ok(done.(invalid := done.invalid + [id]));
    }
    var evaluated := EvaluateCandidate(judge, settings.value, id, ss, q, cs, wall);
    if evaluated.Err? {
      return Err(evaluated.error);
    }
    r := Ok(done.(candidates := done.candidates + [evaluated.value]));
  }

  method EvaluateGrid(judge: Settings, q: Search, grid: seq<seq<Setting>>, cs: seq<Candle>, wall: nat -> int)
    returns (r: Result<Evaluations, SearchError>)
    ensures r == EvaluateAll(judge, q, grid, cs, wall)
  {
    var done := Evaluations([], []);
    for i := 0 to |grid|
      invariant EvaluateAll(judge, q, grid[..i], cs, wall) == Ok(done)
    {
      OneMoreCombination(judge, q, grid, cs, wall, i, done);
      var next := EvaluateOne(judge, q, done, i + 1, grid[i], cs, wall);
      if next.Err? {
        FirstErrorStays(judge, q, grid, cs, wall, i + 1, next.error);
        return next;
      }
      done := next.value;
    }
    assert grid[..|grid|] == grid;
    r := Ok(done);
  }

  method Optimize(judge: Settings, q: Search, cs: seq<Candle>, wall: nat -> int) returns (r: Result<Run, SearchError>)
    ensures r == Optimized(judge, q, cs, wall)
  {
    var error := ValidateSearch(judge, q);
    if error.Some? {
      return Err(error.value);
    }
    var baseline := EvaluateCandidate(judge, judge, 0, [], q, cs, wall);
    if baseline.Err? {
      return Err(baseline.error);
    }
    var done := EvaluateGrid(judge, q, Combinations(q.grid), cs, wall);
    if done.Err? {
      return Err(done.error);
    }
    var candidates := AddStability(done.value.candidates);
    var selected := Best(candidates);
    var ranking := Ranking(baseline.value, candidates, done.value.invalid, selected);
    if selected.None? {
      return Ok(Run(ranking, None));
    }
    SelectedIsConfigured(judge, q, cs, wall);
    var cfg := CandidateSettings(judge, selected.value.parameters).value;
    var stress := CostStress(cfg, q, cs, wall);
    if stress.Err? {
      return Err(stress.error);
    }
    var folds := WalkForward(cfg, q, cs, wall);
    if folds.Err? {
      return Err(folds.error);
    }
    r := Ok(Run(ranking, Some(ResearchOf(selected.value, stress.value, folds.value))));
  }
}
