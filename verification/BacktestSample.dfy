/**
 * One small backtest, carried through every engine by hand: four candles, one signal, one trade.
 * It is run under a lower-case name.
 */
module BacktestSample {
  import opened Common
  import opened Tables
  import opened Sorting
  import opened Configuration
  import opened Market
  import opened Indicators
  import opened Strategy
  import opened Risk
  import opened RiskGuarantees
  import opened Ledger
  import opened Backtest
  import opened BacktestInvariants
  import opened BacktestReconciliation

  // ---------------------------------------------------------------------
  // The settings and the candles
  // ---------------------------------------------------------------------

  /** The shortest windows, open filters and no costs. */
  const SMALL: Settings :=
    DEFAULTS.(emaFastPeriod := 1, emaSlowPeriod := 2, rsiPeriod := 1, atrPeriod := 1, volumeMaPeriod := 1,
              rsiLongMax := 100.0, minVwapDistanceBps := 0.0, minEmaSeparationBps := 0.0,
              minAtrBps := 0.0, maxAtrBps := 1_000.0, atrStopMultiplier := 1.0, targetRr := 2.0,
              maxStopDistanceBps := 1_000.0, estimatedFeeBps := 0.0, estimatedSlippageBps := 0.0,
              paperFeeBps := 0.0, entrySlippageBps := 0.0, exitSlippageBps := 0.0)

  const BTC := "BTCUSDT"
  const BTC_KEY := Key(BTC, "1m")

  function Bar(openTime: int, open: real, high: real, low: real, close: real): Candle {
    Candle(BTC, "1m", openTime, openTime + 59_999, open, high, low, close, 1.0, true)
  }

  const FLAT := Bar(0, 100.0, 100.0, 100.0, 100.0)
  const RISE := Bar(60_000, 100.0, 104.0, 100.0, 102.0)
  const ENTRY := Bar(120_000, 102.0, 104.0, 101.0, 103.0)
  const REACH := Bar(180_000, 103.0, 111.0, 102.0, 110.0)

  function Late(n: nat): int {
    1_000_000
  }

  // ---------------------------------------------------------------------
  // Indicators
  // ---------------------------------------------------------------------

  const AFTER_FLAT := IndicatorState(
    Ema([100.0], Some(100.0)), Ema([100.0], None), Some(100.0), Momentum([], [], None, None), Ema([0.0], Some(0.0)),
    Session(Some(0), 100.0, 1.0), [1.0], Some(0))

  /** Fast average 102 above slow 101, all gains, a range of 4, and a close above the VWAP of 101. */
  const AFTER_RISE := IndicatorState(
    Ema([100.0], Some(102.0)), Ema([100.0, 102.0], Some(101.0)), Some(102.0),
    Momentum([2.0], [0.0], Some(2.0), Some(0.0)), Ema([0.0], Some(4.0)), Session(Some(0), 202.0, 2.0), [1.0],
      Some(60_000))

  const READY := Snapshot(BTC, "1m", Some(60_000), Some(119_999), Some(102.0), Some(102.0), Some(101.0), Some(100.0),
                          Some(4.0), Some(101.0), Some(1.0), Some(1.0), true)

  lemma {:induction false} AverageOfOne(x: real)
    ensures Average([x]) == x
  {
    SumAppend(Itself, [], x);
    assert [] + [x] == [x];
  }

  lemma {:induction false} AverageOfTwo(x: real, y: real)
    ensures Average([x, y]) == (x + y) / 2.0
  {
    SumOfTwo(Itself, x, y);
  }

  lemma {:induction false} FlatAdvances()
    ensures Advance(SMALL, INITIAL, FLAT).0 == AFTER_FLAT && !Advance(SMALL, INITIAL, FLAT).1.ready
  {
    AverageOfOne(100.0);
    AverageOfOne(0.0);
    assert LastN([] + [1.0], 1) == [1.0];
  }

  lemma {:induction false} RiseAdvances()
    ensures Advance(SMALL, AFTER_FLAT, RISE) == (AFTER_RISE, READY)
  {
    AverageOfTwo(100.0, 102.0);
    AverageOfOne(2.0);
    AverageOfOne(0.0);
    AverageOfOne(1.0);
    assert [100.0] + [102.0] == [100.0, 102.0];
    assert [] + [2.0] == [2.0] && [] + [0.0] == [0.0];
    assert LastN([1.0] + [1.0], 1) == [1.0];
    assert UpdateEma(1, Ema([100.0], Some(100.0)), 102.0) == Ema([100.0], Some(102.0));
    assert UpdateAtr(1, Some(100.0), Ema([0.0], Some(0.0)), RISE) == Ema([0.0], Some(4.0));
    assert UpdateVwap(Session(Some(0), 100.0, 1.0), RISE) == (Session(Some(0), 202.0, 2.0), Some(101.0));
  }

  // ---------------------------------------------------------------------
  // Signal and plan
  // ---------------------------------------------------------------------

  lemma {:induction false} ReadyScoresFully()
    ensures Evaluated(SMALL, READY) == Evaluation(Long, 100, true)
  {
  }

  function SignalAt(wall: int): Signal {
    Signal(BTC, "1m", Long, 100, Some(60_000), Some(119_999), Some(wall), true, Some(102.0), Some(4.0))
  }

  const ACCOUNT: RiskAccount := AccountRecord(100.0, 0.0, 0)

  lemma {:induction false} ReadySignals(feed: Feed, wall: int)
    requires feed.Healthy(BTC)
    ensures BuildSignal(SMALL, READY, Some(feed), wall) == SignalAt(wall)
  {
    ReadyScoresFully();
    assert !StaleFor(Some(feed), BTC);
  }

  lemma {:induction false} SignalHasLevels()
    ensures LevelsFor(SMALL, Long, 102.0, 4.0) == Levels(98.0, 110.0, 4.0)
  {
    assert Product(4.0, 1.0) == 4.0 && Product(4.0, 2.0) == 8.0;
  }

  lemma {:induction false} SignalHasSize()
    ensures SizeFor(SMALL, 100.0, 102.0, 4.0) == Capped(12.75, 0.125, 0.5)
  {
    assert Product(100.0, 0.005) == 0.5 && Product(100.0, 1.0) == 100.0;
    assert Ratio(0.5, 4.0) == 0.125 && Product(0.125, 102.0) == 12.75;
    assert Ratio(12.75, 102.0) == 0.125 && Product(0.125, 4.0) == 0.5;
  }

  lemma {:induction false} StopIsInRange(wall: int)
    ensures 392.0 <= StopBpsOf(SMALL, SignalAt(wall)) <= 393.0
            && CostsLeaveReward(SMALL, StopBpsOf(SMALL, SignalAt(wall)))
  {
    assert Product(4.0, SMALL.atrStopMultiplier) == 4.0;
    ProductPositive(SMALL.targetRr, StopBpsOf(SMALL, SignalAt(wall)));
  }

  /** Nothing is open and nothing was lost today. */
  predicate Unscathed(a: RiskAccount) {
    a.openCount == 0 && a.realizedToday >= 0.0
  }

  /** Such an account has room for any planned risk within the smaller of the two limits. */
  lemma {:induction false} UnscathedHasRoom(cfg: Settings, a: RiskAccount, risk: real)
    requires Unscathed(a) && cfg.riskPerTrade <= cfg.maxDailyLoss && risk <= PlannedRisk(a.equity, cfg)
    ensures HasRoom(cfg, a, risk)
  {
    ProductPositive(a.equity, cfg.maxDailyLoss);
    MoreOf(a.equity, cfg.riskPerTrade, cfg.maxDailyLoss);
  }

  lemma {:induction false} MoreOf(whole: real, part: real, more: real)
    requires whole > 0.0 && part <= more
    ensures Product(whole, part) <= Product(whole, more)
  {
    ScaleOrder(whole, part, more);
  }

  lemma {:induction false} AccountHasRoom(a: RiskAccount)
    requires Unscathed(a)
    ensures HasRoom(SMALL, a, SizeFor(SMALL, a.equity, 102.0, 4.0).risk)
  {
    SizeRespectsBudgets(SMALL, a.equity, 102.0, 4.0);
    UnscathedHasRoom(SMALL, a, SizeFor(SMALL, a.equity, 102.0, 4.0).risk);
  }

  lemma {:induction false} SignalIsApprovable(feed: Feed, a: RiskAccount, now: int, wall: int)
    requires feed.Healthy(BTC) && Unscathed(a) && now - wall <= 90_000
    ensures Approvable(SMALL, SignalAt(wall), Some(feed), a, now)
  {
    SignalHasLevels();
    StopIsInRange(wall);
    AccountHasRoom(a);
  }

  /** Where an approved plan takes its levels and its size from. */
  lemma {:induction false} ApprovedTerms(cfg: Settings, s: Signal, feed: Option<Feed>, a: RiskAccount, now: int)
    requires Approvable(cfg, s, feed, a, now)
    ensures var p := BuildPlan(cfg, s, feed, a, now);
            var l := LevelsFor(cfg, s.direction, s.close.value, s.atr.value);
            var c := SizeFor(cfg, a.equity, s.close.value, l.distance);
            && p.approved && p.symbol == s.symbol && p.timeframe == s.timeframe && p.direction == s.direction
            && p.entry == s.close && p.stop == Some(l.stop) && p.target == Some(l.target)
            && p.quantity == Some(c.quantity) && p.actualRisk == Some(c.risk)
            && p.generatedAt == Some(now) && p.sourceOpen == s.openTime && p.sourceClose == s.closeTime
  {
    ApprovedIff(cfg, s, feed, a, now);
    AdmissibleMeansNoReasons(cfg, s, feed, now);
  }

  ghost predicate IsThePlan(p: Plan) {
    && p.approved && p.symbol == BTC && p.timeframe == "1m" && p.direction == Long
    && p.entry == Some(102.0) && p.stop == Some(98.0) && p.target == Some(110.0)
    && p.quantity == Some(0.125) && p.actualRisk == Some(0.5)
    && p.generatedAt == Some(119_999) && p.sourceOpen == Some(60_000) && p.sourceClose == Some(119_999)
  }

  lemma {:induction false} SignalIsPlanned(feed: Feed, wall: int)
    requires feed.Healthy(BTC) && 119_999 - wall <= 90_000
    ensures IsThePlan(BuildPlan(SMALL, SignalAt(wall), Some(feed), ACCOUNT, 119_999))
  {
    SignalIsApprovable(feed, ACCOUNT, 119_999, wall);
    ApprovedTerms(SMALL, SignalAt(wall), Some(feed), ACCOUNT, 119_999);
    SignalHasLevels();
    SignalHasSize();
  }

  // ---------------------------------------------------------------------
  // Four candles
  // ---------------------------------------------------------------------

  ghost predicate Idle(b: Book) {
    b.open == [] && b.history == [] && b.closed == [] && b.account == NewAccount(100.0, 0)
      && b.recovery == RecoveryComplete && !b.paused
  }

  lemma {:induction false} NothingToExecute(feed: Feed, r: Replay, c: Candle)
    requires Idle(r.book) && r.book.pending == [] && Day(c.closeTime) == 0
    ensures Execute(SMALL, feed, r, c) == Ok(r)
  {
    assert PositionsOf([], c.symbol) == [];
  }

  /** A plan that is not approved leaves no trace but its identity. */
  lemma {:induction false} RejectedLeavesBook(cfg: Settings, b: Book, p: Plan, now: int)
    requires !p.approved && b.account.day == Day(now)
    ensures var next := ProcessPlan(cfg, b, p, now).0; next == b.(seen := next.seen)
  {
  }

  lemma {:induction false} FlatIsProcessed(states: map<Key, IndicatorState>)
    requires BTC_KEY !in states
    ensures Process(SMALL, states, FLAT) == Ok((states[BTC_KEY := AFTER_FLAT], Some(Advance(SMALL, INITIAL, FLAT).1)))
  {
    FlatAdvances();
  }

  lemma {:induction false} RiseIsProcessed(states: map<Key, IndicatorState>)
    requires BTC_KEY in states && states[BTC_KEY] == AFTER_FLAT
    ensures Process(SMALL, states, RISE) == Ok((states[BTC_KEY := AFTER_RISE], Some(READY)))
  {
    RiseAdvances();
  }

  lemma {:induction false} UnreadyIsRejected(s: Snapshot, feed: Feed, a: RiskAccount, now: int, wall: int)
    requires !s.ready
    ensures !BuildPlan(SMALL, BuildSignal(SMALL, s, Some(feed), wall), Some(feed), a, now).approved
  {
  }

  /** After the first candle nothing waits, and the engines have seen it. */
  ghost predicate AfterFlat(r: Replay) {
    && Idle(r.book) && r.book.pending == [] && r.riskAccount == ACCOUNT
    && r.strategyMarks == map[BTC_KEY := 0] && r.riskMarks == map[BTC_KEY := 0]
    && r.book.seen == [PlanId(BTC, "1m", 0)]
  }

  lemma {:induction false} FlatSubmits(feed: Feed, r: Replay, s: Snapshot)
    requires Idle(r.book) && r.book.pending == [] && r.book.seen == [] && r.riskAccount == ACCOUNT
    requires r.strategyMarks == map[] && r.riskMarks == map[] && NamesSnapshot(FLAT, s) && !s.ready
    ensures AfterFlat(OnSnapshot(SMALL, feed, r, s, 59_999, 1_000_000))
    ensures OnSnapshot(SMALL, feed, r, s, 59_999, 1_000_000).states == r.states
  {
    UnreadyIsRejected(s, feed, r.riskAccount, 59_999, 1_000_000);
    var signal := BuildSignal(SMALL, s, Some(feed), 1_000_000);
    var p := BuildPlan(SMALL, signal, Some(feed), ACCOUNT, 59_999);
    PlanNamesCandle(SMALL, FLAT, signal, Some(feed), ACCOUNT, 59_999);
    RejectedLeavesBook(SMALL, r.book, p, 59_999);
    assert LastN([] + [IdOf(FLAT)], 2000) == [IdOf(FLAT)];
  }

  lemma {:induction false} AnalyseIs(
    cfg: Settings, feed: Feed, r: Replay, c: Candle, wall: int, states: map<Key, IndicatorState>, s: Snapshot)
    requires Process(cfg, r.states, c) == Ok((states, Some(s)))
    ensures Analyse(cfg, feed, r, c, wall) == Ok(OnSnapshot(cfg, feed, r.(states := states), s, c.closeTime, wall))
  {
  }

  lemma {:induction false} StepIs(
    cfg: Settings, feed: Feed, r: Replay, c: Candle, wall: int, executed: Replay, analysed: Replay)
    requires Execute(cfg, feed, r, c) == Ok(executed) && Analyse(cfg, feed, executed, c, wall) == Ok(analysed)
    requires analysed.book.account.day == Day(c.closeTime)
    ensures var next := Record(analysed, c);
            && Step(cfg, feed, r, c, wall) == Ok(next)
            && next == analysed.(peak := next.peak, curve := next.curve)
  {
  }

  lemma {:induction false} FlatStep(feed: Feed) returns (r: Replay)
    ensures Step(SMALL, feed, Initial(SMALL, 0), FLAT, 1_000_000) == Ok(r)
    ensures AfterFlat(r) && r.states == map[BTC_KEY := AFTER_FLAT]
  {
    var start := Initial(SMALL, 0);
    NothingToExecute(feed, start, FLAT);
    FlatIsProcessed(map[]);
    FlatAdvances();
    var s := Advance(SMALL, INITIAL, FLAT).1;
    AnalyseIs(SMALL, feed, start, FLAT, 1_000_000, map[BTC_KEY := AFTER_FLAT], s);
    var known := start.(states := map[BTC_KEY := AFTER_FLAT]);
    FlatSubmits(feed, known, s);
    StepIs(SMALL, feed, start, FLAT, 1_000_000, start, OnSnapshot(SMALL, feed, known, s, 59_999, 1_000_000));
    r := Record(OnSnapshot(SMALL, feed, known, s, 59_999, 1_000_000), FLAT);
  }

  const ID := PlanId(BTC, "1m", 60_000)

  /** After the second candle the plan waits. */
  ghost predicate AfterRise(b: Book, p: Plan) {
    Idle(b) && b.pending == [Pending(ID, p)] && IsThePlan(p)
  }

  lemma {:induction false} PlanIsValid(p: Plan)
    requires IsThePlan(p)
    ensures ValidPlan(SMALL, p, 119_999) && ValidPlan(SMALL, p, 179_999) && Identity(p) == Some(ID)
  {
  }

  lemma {:induction false} PlanIsQueued(b: Book, p: Plan)
    requires Idle(b) && b.pending == [] && b.seen == [PlanId(BTC, "1m", 0)] && IsThePlan(p)
    ensures AfterRise(ProcessPlan(SMALL, b, p, 119_999).0, p)
  {
    PlanIsValid(p);
    assert Put(PendingKey, [], Pending(ID, p)) == [Pending(ID, p)];
  }

  lemma {:induction false} RiseSubmits(feed: Feed, r: Replay) returns (p: Plan)
    requires AfterFlat(r) && feed.Healthy(BTC)
    ensures var next := OnSnapshot(SMALL, feed, r, READY, 119_999, 1_000_000);
            AfterRise(next.book, p) && next.states == r.states
  {
    ReadySignals(feed, 1_000_000);
    SignalIsPlanned(feed, 1_000_000);
    p := BuildPlan(SMALL, SignalAt(1_000_000), Some(feed), ACCOUNT, 119_999);
    assert ProcessSnapshot(SMALL, r.strategyMarks, READY, Some(feed), 1_000_000).1 == Some(SignalAt(1_000_000));
    assert ProcessSignal(SMALL, r.riskMarks, ACCOUNT, SignalAt(1_000_000), Some(feed), 119_999).1 == Some(p);
    PlanIsQueued(r.book, p);
  }

  lemma {:induction false} RiseStep(feed: Feed, r: Replay) returns (next: Replay, p: Plan)
    requires AfterFlat(r) && r.states == map[BTC_KEY := AFTER_FLAT] && feed.Healthy(BTC)
    ensures Step(SMALL, feed, r, RISE, 1_000_000) == Ok(next) && AfterRise(next.book, p)
  {
    NothingToExecute(feed, r, RISE);
    RiseIsProcessed(r.states);
    var states := r.states[BTC_KEY := AFTER_RISE];
    AnalyseIs(SMALL, feed, r, RISE, 1_000_000, states, READY);
    p := RiseSubmits(feed, r.(states := states));
    var analysed := OnSnapshot(SMALL, feed, r.(states := states), READY, 119_999, 1_000_000);
    StepIs(SMALL, feed, r, RISE, 1_000_000, r, analysed);
    next := Record(analysed, RISE);
  }

  const TERMS := Terms(Long, 102.0, 102.0, 0.125, 12.75, 98.0, 110.0, 0.5, 0.0)

  lemma {:induction false} NoCosts(x: real)
    ensures EntryFill(x, Long, 0.0) == x && ExitFill(x, Long, 0.0) == x && Fee(x, 0.0) == 0.0
  {
  }

  lemma {:induction false} EntryAmounts()
    ensures Product(102.0, 0.125) == 12.75 && Product(103.0, 0.125) == 12.875
    ensures GrossPnl(102.0, 103.0, 0.125, Long) == 0.125 && GrossPnl(102.0, 110.0, 0.125, Long) == 1.0
  {
  }

  lemma {:induction false} SmallHasNoCosts()
    ensures SMALL.entrySlippageBps == 0.0 && SMALL.exitSlippageBps == 0.0 && SMALL.paperFeeBps == 0.0
  {
  }

  lemma {:induction false} TermsWithoutCosts(cfg: Settings, p: Plan)
    requires cfg.entrySlippageBps == 0.0 && cfg.paperFeeBps == 0.0 && IsThePlan(p)
    ensures FillTerms(cfg, p, 102.0) == TERMS && MarkAt(cfg, TERMS, 103.0) == Mark(103.0, 0.0, 0.125, 0.125)
  {
    NoCosts(102.0);
    NoCosts(12.75);
    NoCosts(12.875);
    EntryAmounts();
  }

  /** Once the only plan has filled. */
  ghost predicate Holding(b: Book, p: Position, net: real) {
    && b.open == [p] && b.history == [] && b.closed == [] && b.pending == []
    && p.id == ID && p.terms == TERMS && p.mark.net == net
    && b.account == NewAccount(100.0, 0).(equity := 100.0 + net, openCount := 1)
  }

  lemma {:induction false} OpenedAlone(b: Book, p: Position)
    requires b.open == [] && p.terms.entryFee == 0.0
    ensures OpenPosition(b, p) == b.(open := [p],
              account := b.account.(equity := b.account.cash + p.mark.net, openCount := 1))
  {
    assert Put(PositionKey, [], p) == [p];
    SumAppend(UnrealizedOf, [], p);
    assert [] + [p] == [p];
  }

  lemma {:induction false} OpeningAccount(b: Book, p: Position)
    requires Idle(b) && p.id == ID && p.terms == TERMS
    ensures Holding(OpenPosition(b, p).(pending := []), p, p.mark.net)
  {
    OpenedAlone(b, p);
  }

  lemma {:induction false} PlanMayFill(feed: Feed, b: Book, plan: Plan)
    requires AfterRise(b, plan) && feed.Healthy(BTC)
    ensures MayFill(SMALL, b, plan, 179_999, feed)
  {
    PlanIsValid(plan);
  }

  lemma {:induction false} FilledParts(cfg: Settings, id: PlanId, plan: Plan, c: Candle, price: real, now: int)
    requires ValidPlan(cfg, plan, now)
    ensures var p := FillPosition(cfg, id, plan, c, price, now);
            && p.id == id && p.terms == FillTerms(cfg, plan, price)
            && p.mark == MarkAt(cfg, FillTerms(cfg, plan, price), c.close)
  {
  }

  lemma {:induction false} OneFill(cfg: Settings, b: Book, w: Pending, c: Candle, price: real, now: int, feed: Feed)
    requires w.plan.symbol == c.symbol
    ensures FillAll(cfg, b, [w], c, price, now, feed) == Fill(cfg, b, w, c, price, now, feed)
    ensures AnyFills(cfg, b, [w], c, price, now, feed) <==> MayFill(cfg, b, w.plan, now, feed)
  {
    assert [w][1..] == [];
  }

  /** On the day of the account, a book with nothing open and one plan waiting only fills it. */
  lemma {:induction false} OnlyFills(
    cfg: Settings, b: Book, w: Pending, c: Candle, entryPrice: Option<real>, now: int, feed: Feed)
    requires b.open == [] && b.pending == [w] && w.plan.symbol == c.symbol && b.account.day == Day(now)
    ensures ProcessCandle(cfg, b, c, entryPrice, now, feed) == Fill(cfg, b, w, c, EntryPrice(c, entryPrice), now, feed)
    ensures Changes(cfg, b, c, entryPrice, now, feed) <==> MayFill(cfg, b, w.plan, now, feed)
  {
    OneFill(cfg, b, w, c, EntryPrice(c, entryPrice), now, feed);
    assert PositionsOf(b.open, c.symbol) == [];
    assert ResetDay(b, now) == b && ObserveAll(cfg, b, [], c, now) == b;
  }

  /** The plan fills at its price: stated of any settings and candle, so that nothing is computed here. */
  lemma {:induction false} FillIsHeld(cfg: Settings, b: Book, plan: Plan, c: Candle, price: real, now: int, feed: Feed)
    requires AfterRise(b, plan) && MayFill(cfg, b, plan, now, feed) && FillTerms(cfg, plan, price) == TERMS
    ensures var p := FillPosition(cfg, ID, plan, c, price, now);
            Holding(Fill(cfg, b, Pending(ID, plan), c, price, now, feed), p, MarkAt(cfg, TERMS, c.close).net)
  {
    var p := FillPosition(cfg, ID, plan, c, price, now);
    FilledParts(cfg, ID, plan, c, price, now);
    OpeningAccount(b, p);
    WrittenFill(cfg, b, Pending(ID, plan), c, price, now, feed, p);
    assert Drop(PendingKey, b.pending, ID) == [];
  }

  lemma {:induction false} EntryFills(cfg: Settings, feed: Feed, b: Book, plan: Plan, c: Candle)
    requires AfterRise(b, plan) && MayFill(cfg, b, plan, c.closeTime, feed)
    requires FillTerms(cfg, plan, c.open) == TERMS && c.symbol == BTC && c.open != 0.0 && Day(c.closeTime) == 0
    ensures var p := FillPosition(cfg, ID, plan, c, c.open, c.closeTime);
            Holding(ProcessCandle(cfg, b, c, Some(c.open), c.closeTime, feed), p, MarkAt(cfg, TERMS, c.close).net)
    ensures Changes(cfg, b, c, Some(c.open), c.closeTime, feed)
  {
    OnlyFills(cfg, b, Pending(ID, plan), c, Some(c.open), c.closeTime, feed);
    FillIsHeld(cfg, b, plan, c, c.open, c.closeTime, feed);
  }

  lemma {:induction false} WrittenFill(
    cfg: Settings, b: Book, w: Pending, c: Candle, price: real, now: int, feed: Feed, p: Position)
    requires MayFill(cfg, b, w.plan, now, feed) && p == FillPosition(cfg, w.id, w.plan, c, price, now)
    ensures var filled := OpenPosition(b, p).(pending := Drop(PendingKey, b.pending, w.id));
            Fill(cfg, b, w, c, price, now, feed) == filled.(txns := filled.txns + [PersistOpen(filled.account, p)])
  {
  }

  lemma {:induction false} ToldAccount(cfg: Settings, feed: Feed, r: Replay, c: Candle)
    requires Changes(cfg, r.book, c, Some(c.open), c.closeTime, feed)
    requires ProcessCandle(cfg, r.book, c, Some(c.open), c.closeTime, feed).account.equity > 0.0
    ensures Execute(cfg, feed, r, c).Ok?
    ensures var next := Execute(cfg, feed, r, c).value;
            && next.book == ProcessCandle(cfg, r.book, c, Some(c.open), c.closeTime, feed)
            && next.riskAccount.openCount == next.book.account.openCount
  {
  }

  lemma {:induction false} EntryTells(cfg: Settings, feed: Feed, r: Replay, plan: Plan, c: Candle)
    returns (next: Replay, p: Position)
    requires AfterRise(r.book, plan) && MayFill(cfg, r.book, plan, c.closeTime, feed)
    requires FillTerms(cfg, plan, c.open) == TERMS && MarkAt(cfg, TERMS, c.close) == Mark(103.0, 0.0, 0.125, 0.125)
    requires c.symbol == BTC && c.open != 0.0 && Day(c.closeTime) == 0
    ensures Execute(cfg, feed, r, c) == Ok(next) && Holding(next.book, p, 0.125) && next.riskAccount.openCount == 1
  {
    EntryFills(cfg, feed, r.book, plan, c);
    p := FillPosition(cfg, ID, plan, c, c.open, c.closeTime);
    ToldAccount(cfg, feed, r, c);
    next := Execute(cfg, feed, r, c).value;
  }

  lemma {:induction false} EntryTellsOf(cfg: Settings, feed: Feed, r: Replay, plan: Plan, c: Candle)
    returns (next: Replay, p: Position)
    requires AfterRise(r.book, plan) && MayFill(cfg, r.book, plan, c.closeTime, feed)
    requires cfg.entrySlippageBps == 0.0 && cfg.paperFeeBps == 0.0
    requires c.symbol == BTC && c.open == 102.0 && c.close == 103.0 && Day(c.closeTime) == 0
    ensures Execute(cfg, feed, r, c) == Ok(next) && Holding(next.book, p, 0.125) && next.riskAccount.openCount == 1
  {
    TermsWithoutCosts(cfg, plan);
    next, p := EntryTells(cfg, feed, r, plan, c);
  }

  lemma {:induction false} EntryBar()
    ensures ENTRY.symbol == BTC && ENTRY.open == 102.0 && ENTRY.close == 103.0
    ensures ENTRY.closeTime == 179_999 && Day(179_999) == 0
  {
  }

  lemma {:induction false} EntryExecutes(feed: Feed, r: Replay, plan: Plan) returns (next: Replay, p: Position)
    requires AfterRise(r.book, plan) && feed.Healthy(BTC)
    ensures Execute(SMALL, feed, r, ENTRY) == Ok(next) && Holding(next.book, p, 0.125)
            && next.riskAccount.openCount == 1
  {
    EntryBar();
    PlanMayFill(feed, r.book, plan);
    SmallHasNoCosts();
    next, p := EntryTellsOf(SMALL, feed, r, plan, ENTRY);
  }

  lemma {:induction false} ValidBar(c: Candle)
    requires c == ENTRY || c == REACH
    ensures ValidateCandle(c, SMALL.symbols, SMALL.defaultTimeframe).None? && c.isClosed
  {
  }

  /** With a position open no plan is approved, and one that is not leaves the queue alone. */
  lemma {:induction false} NoSecondPlan(feed: Feed, r: Replay, c: Candle)
    requires c == ENTRY && r.riskAccount.openCount == 1 && r.book.account.day == Day(c.closeTime)
    ensures Analyse(SMALL, feed, r, c, 1_000_000).Ok?
    ensures var next := Analyse(SMALL, feed, r, c, 1_000_000).value;
            next.book == r.book.(seen := next.book.seen) && next.riskAccount == r.riskAccount
  {
    ValidBar(c);
    var processed := Process(SMALL, r.states, c).value;
    if processed.1.Some? {
      NoSecondApproval(feed, r.(states := processed.0), processed.1.value, c.closeTime);
    }
  }

  lemma {:induction false} NoSecondApproval(feed: Feed, r: Replay, s: Snapshot, now: int)
    requires r.riskAccount.openCount == 1 && r.book.account.day == Day(now)
    ensures var next := OnSnapshot(SMALL, feed, r, s, now, 1_000_000);
            next.book == r.book.(seen := next.book.seen) && next.riskAccount == r.riskAccount
  {
    var signal := BuildSignal(SMALL, s, Some(feed), 1_000_000);
    var p := BuildPlan(SMALL, signal, Some(feed), r.riskAccount, now);
    ApprovedIff(SMALL, signal, Some(feed), r.riskAccount, now);
    assert !p.approved;
    RejectedLeavesBook(SMALL, r.book, p, now);
  }

  lemma {:induction false} EntryStep(feed: Feed, r: Replay, plan: Plan) returns (next: Replay, p: Position)
    requires AfterRise(r.book, plan) && feed.Healthy(BTC)
    ensures Step(SMALL, feed, r, ENTRY, 1_000_000) == Ok(next) && Holding(next.book, p, 0.125)
  {
    var executed;
    executed, p := EntryExecutes(feed, r, plan);
    NoSecondPlan(feed, executed, ENTRY);
    var analysed := Analyse(SMALL, feed, executed, ENTRY, 1_000_000).value;
    StepIs(SMALL, feed, r, ENTRY, 1_000_000, executed, analysed);
    next := Record(analysed, ENTRY);
  }

  lemma {:induction false} TargetIsReached(p: Position)
    requires p.terms == TERMS
    ensures ExitOf(p.terms, REACH) == Some(Exit(110.0, TakeProfit))
    ensures ExitFeeAt(SMALL, TERMS, 110.0) == 0.0 && ExitFill(110.0, Long, 0.0) == 110.0
  {
    SmallHasNoCosts();
    NoCosts(110.0);
    NoCosts(Product(110.0, 0.125));
  }

  lemma {:induction false} TargetIsTraded(b: Book, p: Position, net: real)
    requires Holding(b, p, net)
    ensures var (next, t) := ClosePosition(SMALL, b, p, Exit(110.0, TakeProfit), 239_999);
            && next.open == [] && next.history == [t] && next.closed == [t] && next.pending == []
            && t.id == ID && t.net == 1.0 && next.account.equity == 101.0 && next.account.day == 0
            && next.account.realizedToday == 1.0 && next.account.openCount == 0
  {
    TargetIsReached(p);
    SmallHasNoCosts();
    EntryAmounts();
    assert Drop(PositionKey, [p], ID) == [];
  }

  /** A book with one position of the symbol and nothing waiting, when the candle ends it. */
  lemma {:induction false} OnlyCloses(
    cfg: Settings, b: Book, p: Position, c: Candle, entryPrice: Option<real>, now: int, feed: Feed)
    requires b.open == [p] && p.id.symbol == c.symbol && b.pending == [] && b.account.day == Day(now)
    requires ExitOf(p.terms, c).Some?
    ensures var (closed, t) := ClosePosition(cfg, b, p, ExitOf(p.terms, c).value, now);
            ProcessCandle(cfg, b, c, entryPrice, now, feed) == Write(closed, PersistClose(closed.account, t))
    ensures Changes(cfg, b, c, entryPrice, now, feed)
  {
    assert [p][..0] == [] && [p][1..] == [];
    assert PositionsOf(b.open, c.symbol) == [p];
    assert ResetDay(b, now) == b;
    OneObservation(cfg, b, p, c, now);
  }

  lemma {:induction false} OneObservation(cfg: Settings, b: Book, p: Position, c: Candle, now: int)
    ensures ObserveAll(cfg, b, [p], c, now) == Observe(cfg, b, p, c, now)
  {
    assert [p][1..] == [];
  }

  /** The same, and the account after the close is not refused. */
  lemma {:induction false} CloseTells(cfg: Settings, feed: Feed, r: Replay, p: Position, c: Candle)
    returns (next: Replay)
    requires r.book.open == [p] && p.id.symbol == c.symbol && r.book.pending == []
    requires r.book.account.day == Day(c.closeTime) && ExitOf(p.terms, c).Some?
    requires ClosePosition(cfg, r.book, p, ExitOf(p.terms, c).value, c.closeTime).0.account.equity > 0.0
    ensures Execute(cfg, feed, r, c) == Ok(next)
    ensures var closed := ClosePosition(cfg, r.book, p, ExitOf(p.terms, c).value, c.closeTime).0;
            && next.book.history == closed.history && next.book.closed == closed.closed
            && next.book.account == closed.account
  {
    OnlyCloses(cfg, r.book, p, c, Some(c.open), c.closeTime, feed);
    ToldAccount(cfg, feed, r, c);
    next := Execute(cfg, feed, r, c).value;
  }

  lemma {:induction false} AnalysisKeepsTrades(cfg: Settings, feed: Feed, r: Replay, c: Candle, wall: int)
    requires ValidateCandle(c, cfg.symbols, cfg.defaultTimeframe).None? && r.book.account.day == Day(c.closeTime)
    ensures Analyse(cfg, feed, r, c, wall).Ok?
    ensures var next := Analyse(cfg, feed, r, c, wall).value.book;
            next.history == r.book.history && next.closed == r.book.closed && next.account == r.book.account
  {
    var p := AnalyseSubmitsOnce(cfg, feed, r, c, wall);
    if p.Some? {
      SubmissionKeepsTrades(cfg, r.book, p.value, c.closeTime);
    }
  }

  lemma {:induction false} SubmissionKeepsTrades(cfg: Settings, b: Book, p: Plan, now: int)
    requires b.account.day == Day(now)
    ensures var next := ProcessPlan(cfg, b, p, now).0;
            next.history == b.history && next.closed == b.closed && next.account == b.account
  {
  }

  /** A candle that ends the only position: stated of any settings, so that nothing is computed here. */
  lemma {:induction false} CloseStep(cfg: Settings, feed: Feed, r: Replay, p: Position, c: Candle, wall: int)
    returns (next: Replay)
    requires r.book.open == [p] && p.id.symbol == c.symbol && r.book.pending == []
    requires r.book.account.day == Day(c.closeTime) && ExitOf(p.terms, c).Some?
    requires ClosePosition(cfg, r.book, p, ExitOf(p.terms, c).value, c.closeTime).0.account.equity > 0.0
    requires ValidateCandle(c, cfg.symbols, cfg.defaultTimeframe).None?
    ensures Step(cfg, feed, r, c, wall) == Ok(next)
    ensures var closed := ClosePosition(cfg, r.book, p, ExitOf(p.terms, c).value, c.closeTime).0;
            next.book.history == closed.history && next.book.closed == closed.closed
  {
    var executed := CloseTells(cfg, feed, r, p, c);
    AnalysisKeepsTrades(cfg, feed, executed, c, wall);
    var analysed := Analyse(cfg, feed, executed, c, wall).value;
    StepIs(cfg, feed, r, c, wall, executed, analysed);
    next := Record(analysed, c);
  }

  // ---------------------------------------------------------------------
  // The backtest, asked for in lower case
  // ---------------------------------------------------------------------

  const CANDLES := [FLAT, RISE, ENTRY, REACH]
  const LOWER := Request(["btcusdt"], "1m", 0, 1_000_000)

  lemma {:induction false} OneMoreStep(
    cfg: Settings, feed: Feed, start: int, cs: seq<Candle>, c: Candle, wall: nat -> int, r: Replay, next: Replay)
    requires Replayed(cfg, feed, start, cs, wall) == Ok(r) && Step(cfg, feed, r, c, wall(|cs|)) == Ok(next)
    ensures Replayed(cfg, feed, start, cs + [c], wall) == Ok(next)
  {
    assert (cs + [c])[..|cs|] == cs;
  }

  lemma {:induction false} FourInARow(
    cfg: Settings, feed: Feed, a: Candle, b: Candle, c: Candle, d: Candle, wall: nat -> int,
    r0: Replay, r1: Replay, r2: Replay, r3: Replay, r4: Replay)
    requires Replayed(cfg, feed, 0, [], wall) == Ok(r0)
    requires Step(cfg, feed, r0, a, wall(0)) == Ok(r1) && Step(cfg, feed, r1, b, wall(1)) == Ok(r2)
    requires Step(cfg, feed, r2, c, wall(2)) == Ok(r3) && Step(cfg, feed, r3, d, wall(3)) == Ok(r4)
    ensures Replayed(cfg, feed, 0, [a, b, c, d], wall) == Ok(r4)
  {
    OneMoreStep(cfg, feed, 0, [], a, wall, r0, r1);
    assert [] + [a] == [a];
    OneMoreStep(cfg, feed, 0, [a], b, wall, r1, r2);
    assert [a] + [b] == [a, b];
    OneMoreStep(cfg, feed, 0, [a, b], c, wall, r2, r3);
    assert [a, b] + [c] == [a, b, c];
    OneMoreStep(cfg, feed, 0, [a, b, c], d, wall, r3, r4);
    assert [a, b, c] + [d] == [a, b, c, d];
  }

  /** One step at the sample's wall clock, for the record only that it succeeds. */
  ghost predicate Goes(feed: Feed, r: Replay, c: Candle, next: Replay) {
    Step(SMALL, feed, r, c, 1_000_000) == Ok(next)
  }

  lemma {:induction false} FirstTwo(feed: Feed) returns (r1: Replay, r2: Replay, plan: Plan)
    requires feed.Healthy(BTC)
    ensures Goes(feed, Initial(SMALL, 0), FLAT, r1) && Goes(feed, r1, RISE, r2) && AfterRise(r2.book, plan)
  {
    r1 := FlatStep(feed);
    r2, plan := RiseStep(feed, r1);
  }

  lemma {:induction false} LastTwo(feed: Feed, r2: Replay, plan: Plan) returns (r3: Replay, r4: Replay, t: Trade)
    requires feed.Healthy(BTC) && AfterRise(r2.book, plan)
    ensures Goes(feed, r2, ENTRY, r3) && Goes(feed, r3, REACH, r4)
    ensures r4.book.history == [t] && r4.book.closed == [t] && t.id == ID
  {
    var p;
    r3, p := EntryStep(feed, r2, plan);
    TargetIsReached(p);
    TargetIsTraded(r3.book, p, 0.125);
    ValidBar(REACH);
    t := ClosePosition(SMALL, r3.book, p, Exit(110.0, TakeProfit), 239_999).1;
    r4 := CloseStep(SMALL, feed, r3, p, REACH, 1_000_000);
  }

  lemma {:induction false} FourSteps(feed: Feed) returns (r: Replay, t: Trade)
    requires feed.Healthy(BTC)
    ensures Replayed(SMALL, feed, 0, CANDLES, Late) == Ok(r)
    ensures r.book.history == [t] && r.book.closed == [t] && t.id == ID
  {
    var r1, r2, plan := FirstTwo(feed);
    var r3;
    r3, r, t := LastTwo(feed, r2, plan);
    FourGo(feed, r1, r2, r3, r);
  }

  lemma {:induction false} FourGo(feed: Feed, r1: Replay, r2: Replay, r3: Replay, r4: Replay)
    requires Goes(feed, Initial(SMALL, 0), FLAT, r1) && Goes(feed, r1, RISE, r2)
    requires Goes(feed, r2, ENTRY, r3) && Goes(feed, r3, REACH, r4)
    ensures Replayed(SMALL, feed, 0, CANDLES, Late) == Ok(r4)
  {
    FourInARow(SMALL, feed, FLAT, RISE, ENTRY, REACH, Late, Initial(SMALL, 0), r1, r2, r3, r4);
  }

  lemma {:induction false} AllSelected(start: int, end: int, cs: seq<Candle>)
    requires forall i :: 0 <= i < |cs| ==> InRange(start, end, cs[i])
    ensures Selected(start, end, cs) == cs
  {
    if |cs| > 0 {
      AllSelected(start, end, cs[..|cs| - 1]);
    }
  }

  lemma {:induction false} CandlesAreInOrder()
    ensures Backtest.Ordered(LOWER, CANDLES) == CANDLES
  {
    AllSelected(0, 1_000_000, CANDLES);
    SortOfSorted(Before, CANDLES);
  }

  lemma {:induction false} LowerIsAccepted()
    ensures ValidateRequest(SMALL, LOWER).None? && NoneSpelled(SMALL, LOWER)
    ensures ReplayFeed(LOWER).Healthy(BTC) && ReplaySettings(SMALL) == SMALL
  {
    assert Upper("btcusdt") == BTC;
    assert BTC == SMALL.symbols[0] && "btcusdt"[0] == 'b';
    assert forall i :: 0 <= i < |SMALL.symbols| ==> SMALL.symbols[i][0] != 'b';
  }

  /** These four candles, asked for in lower case: accepted, one trade, and the only slice reported is empty. */
  lemma {:induction false} LowerCaseHidesTrade() returns (cfg: Settings, q: Request, cs: seq<Candle>, s: Summary)
    ensures q.symbols == ["btcusdt"] && |cs| == 4
    ensures ValidateRequest(cfg, q).None? && RunBacktest(cfg, q, cs, Late) == Ok(s)
    ensures s.trades == 1 && !SlicesCover(q, s) && forall name :: name in s.symbols ==> s.symbols[name].trades == 0
  {
    cfg, q, cs := SMALL, LOWER, CANDLES;
    LowerIsAccepted();
    CandlesAreInOrder();
    var r, t := FourSteps(ReplayFeed(LOWER));
    assert ReplayOf(SMALL, LOWER, CANDLES, Late) == Ok(r);
    s := RunBacktest(SMALL, LOWER, CANDLES, Late).value;
    SpellingDecidesSlices(SMALL, LOWER, CANDLES, Late);
    SummaryOfReplay(SMALL, LOWER, CANDLES, Late);
    SummaryHoldsJournal(SMALL, LOWER, r);
    assert Tail([t], SMALL.maxPaperTradeHistory) == [t];
  }
}
