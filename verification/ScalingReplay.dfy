/**
 * The main relational theorem: a whole backtest in other units of price, volume and money
 * is the same backtest, with every amount in those units.
 */
module ScalingReplay {
  import opened Common
  import opened Sorting
  import opened Configuration
  import opened Market
  import opened Indicators
  import opened Strategy
  import opened Risk
  import opened Ledger
  import opened Backtest
  import opened Scaling
  import opened ScalingSignals
  import opened ScalingBook

  // ---------------------------------------------------------------------
  // One candle
  // ---------------------------------------------------------------------

  lemma {:induction false} PlansUpdate(z: Scale, plans: map<PlanId, Plan>, p: Plan)
    ensures NotePlan(PlansIn(z, plans), PlanIn(z, p)) == PlansIn(z, NotePlan(plans, p))
  {
    if Identity(p).Some? {
      var id := Identity(p).value;
      assert PlansIn(z, plans)[id := PlanIn(z, p)] == PlansIn(z, plans[id := p]);
    }
  }

  lemma {:induction false} OnPlanScales(z: Scale, cfg: Settings, r: Replay, p: Plan, now: int)
    ensures OnPlan(SettingsIn(z, cfg), ReplayIn(z, r), PlanIn(z, p), now) == ReplayIn(z, OnPlan(cfg, r, p, now))
  {
    PlansUpdate(z, r.plans, p);
    ProcessPlanScales(z, cfg, r.book, p, now);
  }

  lemma {:induction false} OnSignalScales(z: Scale, cfg: Settings, feed: Feed, r: Replay, s: Signal, now: int)
    ensures OnSignal(SettingsIn(z, cfg), feed, ReplayIn(z, r), SignalIn(z, s), now)
            == ReplayIn(z, OnSignal(cfg, feed, r, s, now))
  {
    BuildPlanScales(z, cfg, s, Some(feed), r.riskAccount, now);
    var (marked, plan) := Planned(cfg, feed, r, s, now);
    if plan.Some? {
      OnPlanScales(z, cfg, marked, plan.value, now);
    }
  }

  lemma {:induction false} OnSnapshotScales(
    z: Scale, cfg: Settings, feed: Feed, r: Replay, s: Snapshot, now: int, wall: int)
    ensures OnSnapshot(SettingsIn(z, cfg), feed, ReplayIn(z, r), SnapshotIn(z, s), now, wall)
            == ReplayIn(z, OnSnapshot(cfg, feed, r, s, now, wall))
  {
    BuildSignalScales(z, cfg, s, Some(feed), wall);
    var (marks, signal) := ProcessSnapshot(cfg, r.strategyMarks, s, Some(feed), wall);
    if signal.Some? {
      OnSignalScales(z, cfg, feed, r.(strategyMarks := marks), signal.value, now);
    }
  }

  function OutcomeIn(z: Scale, r: Result<Replay, ReplayError>): Result<Replay, ReplayError> {
    match r
    case Ok(x) => Ok(ReplayIn(z, x))
    case Err(e) => Err(e)
  }

  lemma {:induction false} ExecuteScales(z: Scale, cfg: Settings, feed: Feed, r: Replay, c: Candle)
    ensures Execute(SettingsIn(z, cfg), feed, ReplayIn(z, r), CandleIn(z, c)) == OutcomeIn(z, Execute(cfg, feed, r, c))
  {
    ProcessCandleScales(z, cfg, r.book, c, c.closeTime, feed);
    var book := ProcessCandle(cfg, r.book, c, Some(c.open), c.closeTime, feed);
    ReportScales(z, Changes(cfg, r.book, c, Some(c.open), c.closeTime, feed), book.account);
  }

  lemma {:induction false} AnalyseScales(z: Scale, cfg: Settings, feed: Feed, r: Replay, c: Candle, wall: int)
    ensures Analyse(SettingsIn(z, cfg), feed, ReplayIn(z, r), CandleIn(z, c), wall)
            == OutcomeIn(z, Analyse(cfg, feed, r, c, wall))
  {
    ProcessScales(z, cfg, r.states, c);
    match Process(cfg, r.states, c)
    case Err(_) =>
    case Ok(p) =>
      if p.1.Some? {
        OnSnapshotScales(z, cfg, feed, r.(states := p.0), p.1.value, c.closeTime, wall);
      }
  }

  lemma {:induction false} PointScales(z: Scale, timestamp: int, equity: real, peak: real)
    ensures PointAt(timestamp, Product(z.c, equity), Product(z.c, peak)) == PointIn(z, PointAt(timestamp, equity, peak))
  {
    ProductDistributes(z.c, peak, equity);
    ProductOrder(z.c, peak, 0.0);
    if peak != 0.0 {
      RatioOfScaled(z.c, peak - equity, peak);
    }
  }

  lemma {:induction false} RecordScales(z: Scale, r: Replay, c: Candle)
    ensures Record(ReplayIn(z, r), CandleIn(z, c)) == ReplayIn(z, Record(r, c))
  {
    ResetScales(z, r.book, c.closeTime);
    var equity := ResetDay(r.book, c.closeTime).account.equity;
    ProductExtremes(z.c, r.peak, equity);
    var point := PointAt(c.closeTime, equity, Max(r.peak, equity));
    PointScales(z, c.closeTime, equity, Max(r.peak, equity));
    assert CurveIn(z, r.curve + [point]) == CurveIn(z, r.curve) + [PointIn(z, point)];
  }

  lemma {:induction false} StepScales(z: Scale, cfg: Settings, feed: Feed, r: Replay, c: Candle, wall: int)
    ensures Step(SettingsIn(z, cfg), feed, ReplayIn(z, r), CandleIn(z, c), wall)
            == OutcomeIn(z, Step(cfg, feed, r, c, wall))
  {
    ExecuteScales(z, cfg, feed, r, c);
    var executed := Execute(cfg, feed, r, c);
    if executed.Ok? {
      AnalyseScales(z, cfg, feed, executed.value, c, wall);
      var analysed := Analyse(cfg, feed, executed.value, c, wall);
      if analysed.Ok? {
        RecordScales(z, analysed.value, c);
      }
    }
  }

  // ---------------------------------------------------------------------
  // The whole replay
  // ---------------------------------------------------------------------

  lemma {:induction false} InitialScales(z: Scale, cfg: Settings, start: int)
    ensures Initial(SettingsIn(z, cfg), start) == ReplayIn(z, Initial(cfg, start))
  {
    ProductDistributes(z.c, 0.0, 0.0);
  }

  lemma {:induction false} ReplayedScales(
    z: Scale, cfg: Settings, feed: Feed, start: int, cs: seq<Candle>, wall: nat -> int)
    ensures Replayed(SettingsIn(z, cfg), feed, start, CandlesIn(z, cs), wall)
            == OutcomeIn(z, Replayed(cfg, feed, start, cs, wall))
  {
    if |cs| == 0 {
      InitialScales(z, cfg, start);
    } else {
      var front := cs[..|cs| - 1];
      assert CandlesIn(z, cs)[..|cs| - 1] == CandlesIn(z, front);
      ReplayedScales(z, cfg, feed, start, front, wall);
      var before := Replayed(cfg, feed, start, front, wall);
      if before.Ok? {
        StepScales(z, cfg, feed, before.value, cs[|cs| - 1], wall(|cs| - 1));
      }
    }
  }

  lemma {:induction false} SelectedScales(z: Scale, start: int, end: int, cs: seq<Candle>)
    ensures Selected(start, end, CandlesIn(z, cs)) == CandlesIn(z, Selected(start, end, cs))
  {
    if |cs| > 0 {
      assert CandlesIn(z, cs)[..|cs| - 1] == CandlesIn(z, cs[..|cs| - 1]);
      SelectedScales(z, start, end, cs[..|cs| - 1]);
    }
  }

  lemma {:induction false} InsertScales(z: Scale, cs: seq<Candle>, c: Candle)
    ensures Insert(Before, CandlesIn(z, cs), CandleIn(z, c)) == CandlesIn(z, Insert(Before, cs, c))
  {
    if |cs| > 0 && !Before(cs[|cs| - 1], c) {
      assert CandlesIn(z, cs)[..|cs| - 1] == CandlesIn(z, cs[..|cs| - 1]);
      InsertScales(z, cs[..|cs| - 1], c);
    }
  }

  lemma {:induction false} SortScales(z: Scale, cs: seq<Candle>)
    ensures Sort(Before, CandlesIn(z, cs)) == CandlesIn(z, Sort(Before, cs))
  {
    if |cs| > 0 {
      assert CandlesIn(z, cs)[..|cs| - 1] == CandlesIn(z, cs[..|cs| - 1]);
      SortScales(z, cs[..|cs| - 1]);
      InsertScales(z, Sort(Before, cs[..|cs| - 1]), cs[|cs| - 1]);
    }
  }

  // ---------------------------------------------------------------------
  // The summary
  // ---------------------------------------------------------------------

  lemma {:induction false} EntryScales(z: Scale, t: Trade, plan: Option<Plan>)
    ensures EntryOf(TradeIn(z, t), if plan.None? then None else Some(PlanIn(z, plan.value)))
            == EntryIn(z, EntryOf(t, plan))
  {
    if plan.Some? && plan.value.plannedRisk.Some? {
      var risk := plan.value.plannedRisk.value;
      ProductOrder(z.c, risk, 0.0);
      if risk != 0.0 {
        RatioOfScaled(z.c, t.net, risk);
      }
    }
  }

  lemma {:induction false} JournalScales(z: Scale, ts: seq<Trade>, plans: map<PlanId, Plan>)
    ensures Journal(TradesIn(z, ts), PlansIn(z, plans)) == EntriesIn(z, Journal(ts, plans))
  {
    forall i | 0 <= i < |ts|
      ensures Journal(TradesIn(z, ts), PlansIn(z, plans))[i] == EntriesIn(z, Journal(ts, plans))[i]
    {
      EntryScales(z, ts[i], PlanOf(plans, ts[i].id));
    }
  }

  lemma {:induction false} EntriesAppend(z: Scale, es: seq<JournalEntry>, e: JournalEntry)
    ensures EntriesIn(z, es + [e]) == EntriesIn(z, es) + [EntryIn(z, e)]
  {
  }

  /** A filter that does not see the units may be applied before or after changing them. */
  lemma {:induction false} FilterScales(p: JournalEntry -> bool, z: Scale, es: seq<JournalEntry>)
    requires forall i :: 0 <= i < |es| ==> p(EntryIn(z, es[i])) == p(es[i])
    ensures Filter(p, EntriesIn(z, es)) == EntriesIn(z, Filter(p, es))
  {
    if |es| > 0 {
      var front, last := es[..|es| - 1], es[|es| - 1];
      assert EntriesIn(z, es)[..|es| - 1] == EntriesIn(z, front);
      FilterScales(p, z, front);
      EntriesAppend(z, Filter(p, front), last);
    }
  }

  lemma {:induction false} WinsScale(z: Scale, es: seq<JournalEntry>)
    ensures Filter(IsWin, EntriesIn(z, es)) == EntriesIn(z, Filter(IsWin, es))
    ensures Filter(IsLoss, EntriesIn(z, es)) == EntriesIn(z, Filter(IsLoss, es))
    ensures Filter(HasMultiple, EntriesIn(z, es)) == EntriesIn(z, Filter(HasMultiple, es))
  {
    forall i | 0 <= i < |es|
      ensures IsWin(EntryIn(z, es[i])) == IsWin(es[i]) && IsLoss(EntryIn(z, es[i])) == IsLoss(es[i])
      ensures HasMultiple(EntryIn(z, es[i])) == HasMultiple(es[i])
    {
      ProductOrder(z.c, es[i].net, 0.0);
    }
    FilterScales(IsWin, z, es);
    FilterScales(IsLoss, z, es);
    FilterScales(HasMultiple, z, es);
  }

  lemma {:induction false} OfSymbolScales(z: Scale, es: seq<JournalEntry>, symbol: string)
    ensures OfSymbol(EntriesIn(z, es), symbol) == EntriesIn(z, OfSymbol(es, symbol))
  {
    if |es| > 0 {
      assert EntriesIn(z, es)[..|es| - 1] == EntriesIn(z, es[..|es| - 1]);
      OfSymbolScales(z, es[..|es| - 1], symbol);
    }
  }

  lemma {:induction false} OfDirectionScales(z: Scale, es: seq<JournalEntry>, d: Direction)
    ensures OfDirection(EntriesIn(z, es), d) == EntriesIn(z, OfDirection(es, d))
  {
    if |es| > 0 {
      assert EntriesIn(z, es)[..|es| - 1] == EntriesIn(z, es[..|es| - 1]);
      OfDirectionScales(z, es[..|es| - 1], d);
    }
  }

  lemma {:induction false} NetScales(z: Scale, es: seq<JournalEntry>)
    ensures Sum(EntryNet, EntriesIn(z, es)) == Product(z.c, Sum(EntryNet, es))
    ensures Sum(EntryGross, EntriesIn(z, es)) == Product(z.c, Sum(EntryGross, es))
    ensures Sum(EntryFees, EntriesIn(z, es)) == Product(z.c, Sum(EntryFees, es))
    ensures Sum(EntryMultiple, EntriesIn(z, es)) == Sum(EntryMultiple, es)
  {
    SumInUnits(EntryNet, z.c, es, EntriesIn(z, es));
    SumInUnits(EntryGross, z.c, es, EntriesIn(z, es));
    SumInUnits(EntryFees, z.c, es, EntriesIn(z, es));
    SumEqual(EntryMultiple, es, EntriesIn(z, es));
  }

  lemma {:induction false} ProfitFactorIgnoresUnits(c: real, profit: real, loss: real)
    requires c > 0.0
    ensures ProfitFactor(Product(c, profit), Product(c, loss)) == ProfitFactor(profit, loss)
  {
    ProductOrder(c, loss, 0.0);
    ProductExtremes(c, loss, 0.0);
    if loss != 0.0 {
      RatioOfScaled(c, profit, Abs(loss));
    }
  }

  lemma {:induction false} ShareScales(c: real, part: real, count: nat)
    requires c > 0.0
    ensures Share(Product(c, part), count) == Times(c, Share(part, count))
  {
    if count > 0 {
      RatioOfScaled(c, part, count as real);
    }
  }

  lemma {:induction false} AverageMultipleIgnoresUnits(z: Scale, es: seq<JournalEntry>)
    ensures AverageMultiple(EntriesIn(z, es)) == AverageMultiple(es)
  {
    WinsScale(z, es);
    NetScales(z, Filter(HasMultiple, es));
  }

  lemma {:induction false} SliceScales(z: Scale, es: seq<JournalEntry>)
    ensures PerformanceSlice(EntriesIn(z, es)) == SliceIn(z, PerformanceSlice(es))
  {
    WinsScale(z, es);
    NetScales(z, es);
    NetScales(z, Filter(IsWin, es));
    NetScales(z, Filter(IsLoss, es));
    ProfitFactorIgnoresUnits(z.c, Sum(EntryNet, Filter(IsWin, es)), Sum(EntryNet, Filter(IsLoss, es)));
    AverageMultipleIgnoresUnits(z, es);
  }

  lemma {:induction false} DrawdownsScale(z: Scale, curve: seq<EquityPoint>)
    ensures WorstDrawdown(CurveIn(z, curve)) == Product(z.c, WorstDrawdown(curve))
    ensures WorstPercent(CurveIn(z, curve)) == WorstPercent(curve)
  {
    if |curve| == 0 {
      ProductDistributes(z.c, 0.0, 0.0);
    } else if |curve| > 1 {
      var front := curve[..|curve| - 1];
      assert CurveIn(z, curve)[..|curve| - 1] == CurveIn(z, front);
      DrawdownsScale(z, front);
      ProductExtremes(z.c, WorstDrawdown(front), curve[|curve| - 1].drawdown);
    }
  }

  lemma {:induction false} ReturnIgnoresUnits(z: Scale, starting: real, ending: real)
    ensures ReturnPercent(Product(z.c, starting), Product(z.c, ending)) == ReturnPercent(starting, ending)
  {
    ProductOrder(z.c, starting, 0.0);
    ProductDistributes(z.c, ending, starting);
    if starting != 0.0 {
      RatioOfScaled(z.c, ending - starting, starting);
    }
  }

  lemma {:induction false} SymbolSlicesScale(z: Scale, q: Request, es: seq<JournalEntry>)
    ensures SymbolSlices(q, EntriesIn(z, es)) == map s | s in SymbolSlices(q, es) :: SliceIn(z, SymbolSlices(q, es)[s])
  {
    forall s | s in q.symbols
      ensures PerformanceSlice(OfSymbol(EntriesIn(z, es), s)) == SliceIn(z, PerformanceSlice(OfSymbol(es, s)))
    {
      OfSymbolScales(z, es, s);
      SliceScales(z, OfSymbol(es, s));
    }
  }

  lemma {:induction false} DirectionSlicesScale(z: Scale, es: seq<JournalEntry>)
    ensures DirectionSlices(EntriesIn(z, es)) == map d | d in DirectionSlices(es) :: SliceIn(z, DirectionSlices(es)[d])
  {
    OfDirectionScales(z, es, Long);
    OfDirectionScales(z, es, Short);
    SliceScales(z, OfDirection(es, Long));
    SliceScales(z, OfDirection(es, Short));
  }

  lemma {:induction false} ResultsScale(z: Scale, es: seq<JournalEntry>)
    ensures var wins, losses := Filter(IsWin, es), Filter(IsLoss, es);
            var there := EntriesIn(z, es);
            && Filter(IsWin, there) == EntriesIn(z, wins) && Filter(IsLoss, there) == EntriesIn(z, losses)
            && Sum(EntryNet, EntriesIn(z, wins)) == Product(z.c, Sum(EntryNet, wins))
            && Sum(EntryNet, EntriesIn(z, losses)) == Product(z.c, Sum(EntryNet, losses))
            && Sum(EntryNet, there) == Product(z.c, Sum(EntryNet, es))
            && Sum(EntryGross, there) == Product(z.c, Sum(EntryGross, es))
            && Sum(EntryFees, there) == Product(z.c, Sum(EntryFees, es))
            && ProfitFactor(Product(z.c, Sum(EntryNet, wins)), Product(z.c, Sum(EntryNet, losses)))
               == ProfitFactor(Sum(EntryNet, wins), Sum(EntryNet, losses))
            && Share(Product(z.c, Sum(EntryNet, es)), |es|) == Times(z.c, Share(Sum(EntryNet, es), |es|))
  {
    var wins, losses := Filter(IsWin, es), Filter(IsLoss, es);
    WinsScale(z, es);
    NetScales(z, es);
    NetScales(z, wins);
    NetScales(z, losses);
    ProfitFactorIgnoresUnits(z.c, Sum(EntryNet, wins), Sum(EntryNet, losses));
    ShareScales(z.c, Sum(EntryNet, es), |es|);
  }

  lemma {:induction false} SummarizeScales(
    z: Scale, q: Request, a: Account, es: seq<JournalEntry>, curve: seq<EquityPoint>, counts: Counts)
    ensures Summarize(q, AccountIn(z, a), EntriesIn(z, es), CurveIn(z, curve), counts)
            == SummaryIn(z, Summarize(q, a, es, curve, counts))
  {
    ResultsScale(z, es);
    AverageMultipleIgnoresUnits(z, es);
    DrawdownsScale(z, curve);
    ReturnIgnoresUnits(z, a.starting, a.equity);
    SymbolSlicesScale(z, q, es);
    DirectionSlicesScale(z, es);
  }

  lemma {:induction false} TailScales(z: Scale, ts: seq<Trade>, limit: int)
    ensures Tail(TradesIn(z, ts), limit) == TradesIn(z, Tail(ts, limit))
  {
  }

  lemma {:induction false} SummaryScales(z: Scale, cfg: Settings, q: Request, r: Replay)
    ensures SummaryOf(SettingsIn(z, cfg), q, ReplayIn(z, r)) == SummaryIn(z, SummaryOf(cfg, q, r))
  {
    var trades := Tail(r.book.closed, cfg.maxPaperTradeHistory);
    TailScales(z, r.book.closed, cfg.maxPaperTradeHistory);
    JournalScales(z, trades, r.plans);
    SummarizeScales(z, q, r.book.account, Journal(trades, r.plans), r.curve, r.counts);
  }

  // ---------------------------------------------------------------------
  // The theorem and its two special cases
  // ---------------------------------------------------------------------

  function BacktestIn(z: Scale, r: Result<Summary, ReplayError>): Result<Summary, ReplayError> {
    match r
    case Ok(s) => Ok(SummaryIn(z, s))
    case Err(e) => Err(e)
  }

  lemma {:induction false} ReplaySettingsScale(z: Scale, cfg: Settings)
    ensures ReplaySettings(SettingsIn(z, cfg)) == SettingsIn(z, ReplaySettings(cfg))
    ensures forall q :: ValidateRequest(SettingsIn(z, cfg), q) == ValidateRequest(cfg, q)
  {
  }

  /** A backtest in other units is the backtest, in those units: same trades, same errors, same ratios. */
  lemma {:induction false} BacktestCommutesWithUnits(
    z: Scale, cfg: Settings, q: Request, cs: seq<Candle>, wall: nat -> int)
    ensures RunBacktest(SettingsIn(z, cfg), q, CandlesIn(z, cs), wall) == BacktestIn(z, RunBacktest(cfg, q, cs, wall))
  {
    var replay := ReplaySettings(cfg);
    ReplaySettingsScale(z, cfg);
    SelectedScales(z, q.start, q.end, cs);
    SortScales(z, Selected(q.start, q.end, cs));
    ReplayedScales(z, replay, ReplayFeed(q), q.start, Ordered(q, cs), wall);
    var r := Replayed(replay, ReplayFeed(q), q.start, Ordered(q, cs), wall);
    if r.Ok? {
      SummaryScales(z, replay, q, r.value);
    }
  }

  /** The same entry with prices quoted `k` times as high: fewer units are traded, for the same money. */
  predicate SameMoneyEntry(k: real, e: JournalEntry, f: JournalEntry) {
    && f.entryPrice == Product(k, e.entryPrice) && f.exitPrice == Product(k, e.exitPrice)
    && Product(k, f.quantity) == e.quantity
    && f.reason == e.reason && f.net == e.net && f.rMultiple == e.rMultiple
    && f.entryTime == e.entryTime && f.exitTime == e.exitTime && f.symbol == e.symbol
  }

  ghost predicate SameMoney(k: real, s: Summary, t: Summary) {
    && t.counts == s.counts && t.net == s.net && t.ending == s.ending && t.fees == s.fees
    && t.winRate == s.winRate && t.profitFactor == s.profitFactor && t.averageR == s.averageR
    && t.returnPercent == s.returnPercent && t.maxDrawdownPercent == s.maxDrawdownPercent
    && t.curve == s.curve && |t.journal| == |s.journal|
    && forall i :: 0 <= i < |s.journal| ==> SameMoneyEntry(k, s.journal[i], t.journal[i])
  }

  lemma {:induction false} EntryInOwnMoney(z: Scale, e: JournalEntry)
    requires z.c == 1.0
    ensures SameMoneyEntry(z.k, e, EntryIn(z, e))
  {
    assert Product(z.k, Product(z.q, e.quantity)) == e.quantity by {
      var x := e.quantity;
      assert z.k * (z.q * x) == (z.q * z.k) * x;
    }
  }

  lemma {:induction false} SummaryInOwnMoney(z: Scale, s: Summary)
    requires z.c == 1.0
    ensures SameMoney(z.k, s, SummaryIn(z, s))
  {
    CurveInOwnUnits(z, s.curve);
    forall i | 0 <= i < |s.journal| ensures SameMoneyEntry(z.k, s.journal[i], EntryIn(z, s.journal[i])) {
      EntryInOwnMoney(z, s.journal[i]);
    }
  }

  /** The same error, or the same results at other prices. */
  ghost predicate SameMoneyResult(k: real, here: Result<Summary, ReplayError>, there: Result<Summary, ReplayError>) {
    match here
    case Err(e) => there == Err(e)
    case Ok(s) => there.Ok? && SameMoney(k, s, there.value)
  }

  lemma {:induction false} ResultInOwnMoney(z: Scale, here: Result<Summary, ReplayError>)
    requires z.c == 1.0
    ensures SameMoneyResult(z.k, here, BacktestIn(z, here))
  {
    if here.Ok? {
      SummaryInOwnMoney(z, here.value);
    }
  }

  lemma {:induction false} SettingsInOwnMoney(z: Scale, cfg: Settings)
    requires z.c == 1.0
    ensures SettingsIn(z, cfg) == cfg
  {
  }

  /** Quoting every price in other units, and every volume, changes no result in money. */
  lemma {:induction false} PriceUnitsDoNotMatter(
    k: real, m: real, cfg: Settings, q: Request, cs: seq<Candle>, wall: nat -> int)
    requires k > 0.0 && m > 0.0
    ensures Units(k, m, 1.0, 1.0 / k).Valid()
    ensures SameMoneyResult(k, RunBacktest(cfg, q, cs, wall),
                            RunBacktest(cfg, q, CandlesIn(Units(k, m, 1.0, 1.0 / k), cs), wall))
  {
    UnitPrices(k, m);
    var z: Scale := Units(k, m, 1.0, 1.0 / k);
    SettingsInOwnMoney(z, cfg);
    BacktestCommutesWithUnits(z, cfg, q, cs, wall);
    ResultInOwnMoney(z, RunBacktest(cfg, q, cs, wall));
  }

  lemma {:induction false} UnitPrices(k: real, m: real)
    requires k > 0.0 && m > 0.0
    ensures Units(k, m, 1.0, 1.0 / k).Valid()
  {
    RatioPositiveOne(k);
  }

  lemma {:induction false} RatioPositiveOne(k: real)
    requires k > 0.0
    ensures 1.0 / k > 0.0 && (1.0 / k) * k == 1.0
  {
    var r := 1.0 / k;
    assert r * k == 1.0;
    if r <= 0.0 {
      ScaleOrder(k, r, 0.0);
    }
  }

  lemma {:induction false} CurveInOwnUnits(z: Scale, curve: seq<EquityPoint>)
    requires z.c == 1.0
    ensures CurveIn(z, curve) == curve
  {
  }

  predicate LargerEntry(c: real, e: JournalEntry, f: JournalEntry) {
    && f.entryPrice == e.entryPrice && f.exitPrice == e.exitPrice && f.stop == e.stop && f.target == e.target
    && f.entryTime == e.entryTime && f.exitTime == e.exitTime && f.symbol == e.symbol && f.reason == e.reason
    && f.quantity == Product(c, e.quantity) && f.net == Product(c, e.net) && f.rMultiple == e.rMultiple
  }

  ghost predicate Larger(c: real, s: Summary, t: Summary) {
    && t.counts == s.counts && t.trades == s.trades && t.wins == s.wins && t.losses == s.losses
    && t.net == Product(c, s.net) && t.ending == Product(c, s.ending) && t.maxDrawdown == Product(c, s.maxDrawdown)
    && t.winRate == s.winRate && t.profitFactor == s.profitFactor && t.averageR == s.averageR
    && t.returnPercent == s.returnPercent && t.maxDrawdownPercent == s.maxDrawdownPercent
    && |t.journal| == |s.journal| && |t.curve| == |s.curve|
    && (forall i :: 0 <= i < |s.curve| ==> t.curve[i].equity == Product(c, s.curve[i].equity))
    && forall i :: 0 <= i < |s.journal| ==> LargerEntry(c, s.journal[i], t.journal[i])
  }

  lemma {:induction false} SummaryInOwnPrices(z: Scale, s: Summary)
    requires z.k == 1.0 && z.q == z.c
    ensures Larger(z.c, s, SummaryIn(z, s))
  {
  }

  /** The same error, or the same trades `c` times as large. */
  ghost predicate LargerResult(c: real, here: Result<Summary, ReplayError>, there: Result<Summary, ReplayError>) {
    match here
    case Err(e) => there == Err(e)
    case Ok(s) => there.Ok? && Larger(c, s, there.value)
  }

  lemma {:induction false} ResultInOwnPrices(z: Scale, here: Result<Summary, ReplayError>)
    requires z.k == 1.0 && z.q == z.c
    ensures LargerResult(z.c, here, BacktestIn(z, here))
  {
    if here.Ok? {
      SummaryInOwnPrices(z, here.value);
    }
  }

  /** These settings with `c` times the starting balances, and no other change. */
  function Richer(c: real, cfg: Settings): Settings
    requires c > 0.0
  {
    SettingsIn(Units(1.0, 1.0, c, c), cfg)
  }

  /** A backtest that starts with `c` times the balance makes the same trades, `c` times as large. */
  lemma {:induction false} BalanceScalesEverything(
    c: real, cfg: Settings, q: Request, cs: seq<Candle>, wall: nat -> int)
    requires c > 0.0
    ensures Richer(c, cfg).backtestStartingBalance == c * cfg.backtestStartingBalance
    ensures LargerResult(c, RunBacktest(cfg, q, cs, wall), RunBacktest(Richer(c, cfg), q, cs, wall))
  {
    var z: Scale := Units(1.0, 1.0, c, c);
    CandlesInOwnUnits(z, cs);
    BacktestCommutesWithUnits(z, cfg, q, cs, wall);
    ResultInOwnPrices(z, RunBacktest(cfg, q, cs, wall));
  }

  lemma {:induction false} CandlesInOwnUnits(z: Scale, cs: seq<Candle>)
    requires z.k == 1.0 && z.m == 1.0
    ensures CandlesIn(z, cs) == cs
  {
  }
}
