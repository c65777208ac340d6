/**
 * The summary of a backtest adds up: its balance is explained by its journal, its slices by
 * its totals, and its drawdown by its equity curve.
 */
module BacktestReconciliation {
  import opened Common
  import opened Sorting
  import opened Configuration
  import opened Market
  import opened Strategy
  import opened Risk
  import RiskGuarantees
  import opened Ledger
  import opened LedgerInvariants
  import opened LedgerEquity
  import opened Backtest
  import opened BacktestInvariants
  import opened Drawdown

  // ---------------------------------------------------------------------
  // The risk engine always knows the account
  // ---------------------------------------------------------------------

  /** Nothing that matters to the account happened, so it is as it was. */
  lemma {:induction false} NoFillNoChange(
    cfg: Settings, b: Book, ws: seq<Pending>, c: Candle, price: real, now: int, feed: Feed)
    requires !AnyFills(cfg, b, ws, c, price, now, feed)
    ensures FillAll(cfg, b, ws, c, price, now, feed).account == b.account
    decreases |ws|
  {
    if |ws| > 0 {
      var next := if ws[0].plan.symbol != c.symbol then b else Fill(cfg, b, ws[0], c, price, now, feed);
      NoFillNoChange(cfg, next, ws[1..], c, price, now, feed);
    }
  }

  lemma {:induction false} UnreportedMeansUnchanged(
    cfg: Settings, b: Book, c: Candle, entryPrice: Option<real>, now: int, feed: Feed)
    requires !Changes(cfg, b, c, entryPrice, now, feed)
    ensures ProcessCandle(cfg, b, c, entryPrice, now, feed).account == b.account
  {
    NoFillNoChange(cfg, b, b.pending, c, EntryPrice(c, entryPrice), now, feed);
  }

  lemma {:induction false} FillingKeepsDay(
    cfg: Settings, b: Book, ws: seq<Pending>, c: Candle, price: real, now: int, feed: Feed)
    ensures FillAll(cfg, b, ws, c, price, now, feed).account.day == b.account.day
    decreases |ws|
  {
    if |ws| > 0 {
      var next := if ws[0].plan.symbol != c.symbol then b else Fill(cfg, b, ws[0], c, price, now, feed);
      FillingKeepsDay(cfg, next, ws[1..], c, price, now, feed);
    }
  }

  lemma {:induction false} ObservingKeepsDay(cfg: Settings, b: Book, ps: seq<Position>, c: Candle, now: int)
    ensures ObserveAll(cfg, b, ps, c, now).account.day == b.account.day
    decreases |ps|
  {
    if |ps| > 0 {
      ObservingKeepsDay(cfg, Observe(cfg, b, ps[0], c, now), ps[1..], c, now);
    }
  }

  lemma {:induction false} CandleSetsDay(
    cfg: Settings, b: Book, c: Candle, entryPrice: Option<real>, now: int, feed: Feed)
    ensures ProcessCandle(cfg, b, c, entryPrice, now, feed).account.day == Day(now)
  {
    var today := ResetDay(b, now);
    var existing := PositionsOf(today.open, c.symbol);
    ObservingKeepsDay(cfg, today, existing, c, now);
    var observed := ObserveAll(cfg, today, existing, c, now);
    FillingKeepsDay(cfg, observed, observed.pending, c, EntryPrice(c, entryPrice), now, feed);
  }

  /** The account that sizes the next plan is the ledger's, and its equity is positive. */
  ghost predicate RiskInStep(r: Replay) {
    RiskState(r.book.account) == Some(r.riskAccount)
  }

  lemma {:induction false} ExecuteKeepsRiskInStep(cfg: Settings, feed: Feed, r: Replay, c: Candle)
    requires RiskInStep(r) && Execute(cfg, feed, r, c).Ok?
    ensures var next := Execute(cfg, feed, r, c).value;
            RiskInStep(next) && next.book.account.day == Day(c.closeTime)
  {
    CandleSetsDay(cfg, r.book, c, Some(c.open), c.closeTime, feed);
    if !Changes(cfg, r.book, c, Some(c.open), c.closeTime, feed) {
      UnreportedMeansUnchanged(cfg, r.book, c, Some(c.open), c.closeTime, feed);
    }
  }

  /** On the day that has begun, a plan leaves the account alone. */
  lemma {:induction false} PlanKeepsAccount(cfg: Settings, b: Book, p: Plan, now: int)
    requires b.account.day == Day(now)
    ensures ProcessPlan(cfg, b, p, now).0.account == b.account
  {
  }

  lemma {:induction false} SubmitKeepsAccount(cfg: Settings, c: Candle, r: Replay, next: Replay, p: Option<Plan>)
    requires SubmitsAtMost(cfg, c, r, next, p) && r.book.account.day == Day(c.closeTime)
    ensures next.book.account == r.book.account && next.riskAccount == r.riskAccount
    ensures next.book.open == r.book.open && next.book.history == r.book.history
  {
    if p.Some? {
      PlanKeepsAccount(cfg, r.book, p.value, c.closeTime);
      PlanOnlyWaits(cfg, r.book, p.value, c.closeTime);
    }
  }

  lemma {:induction false} RecordKeepsAccount(r: Replay, c: Candle)
    requires r.book.account.day == Day(c.closeTime)
    ensures Record(r, c).book == r.book && Record(r, c).riskAccount == r.riskAccount
    ensures Record(r, c).peak == Max(r.peak, r.book.account.equity)
    ensures Record(r, c).curve == r.curve + [PointAt(c.closeTime, r.book.account.equity, Record(r, c).peak)]
  {
  }

  /** What a step leaves of the account is what the candle made of it. */
  lemma {:induction false} StepAccount(cfg: Settings, feed: Feed, r: Replay, c: Candle, wall: int)
    requires RiskInStep(r) && Step(cfg, feed, r, c, wall).Ok?
    ensures var next := Step(cfg, feed, r, c, wall).value;
            var book := ProcessCandle(cfg, r.book, c, Some(c.open), c.closeTime, feed);
            && RiskInStep(next)
            && next.book.account == book.account && next.book.open == book.open && next.book.history == book.history
            && next.peak == Max(r.peak, next.book.account.equity)
            && next.curve == r.curve + [PointAt(c.closeTime, next.book.account.equity, next.peak)]
  {
    var executed, analysed := StepParts(cfg, feed, r, c, wall);
    ExecuteKeepsRiskInStep(cfg, feed, r, c);
    ExecuteParts(cfg, feed, r, c);
    var p := AnalyseSubmitsOnce(cfg, feed, executed, c, wall);
    SubmitKeepsAccount(cfg, c, executed, analysed, p);
    RecordKeepsAccount(analysed, c);
  }

  lemma {:induction false} ExecuteParts(cfg: Settings, feed: Feed, r: Replay, c: Candle)
    requires Execute(cfg, feed, r, c).Ok?
    ensures var next := Execute(cfg, feed, r, c).value;
            && next.book == ProcessCandle(cfg, r.book, c, Some(c.open), c.closeTime, feed)
            && next.peak == r.peak && next.curve == r.curve
  {
  }

  /**
   * At every point of a replay that goes on, the risk engine sizes plans with the ledger's
   * own account, and equity is positive.
   */
  lemma {:induction false} RiskEngineKnowsTheAccount(
    cfg: Settings, feed: Feed, start: int, cs: seq<Candle>, wall: nat -> int)
    requires Replayed(cfg, feed, start, cs, wall).Ok?
    ensures RiskInStep(Replayed(cfg, feed, start, cs, wall).value)
  {
    if |cs| > 0 {
      var front := cs[..|cs| - 1];
      RiskEngineKnowsTheAccount(cfg, feed, start, front, wall);
      StepAccount(cfg, feed, Replayed(cfg, feed, start, front, wall).value, cs[|cs| - 1], wall(|cs| - 1));
    }
  }

  // ---------------------------------------------------------------------
  // Drawdown
  // ---------------------------------------------------------------------

  /** The balance the replay starts with, and its equity after each candle. */
  function Equities(starting: real, curve: seq<EquityPoint>): (r: seq<real>)
    ensures |r| == |curve| + 1 && r[0] == starting
    ensures forall i :: 0 <= i < |curve| ==> r[i + 1] == curve[i].equity
  {
    [starting] + seq(|curve|, i requires 0 <= i < |curve| => curve[i].equity)
  }

  ghost predicate CurveOk(starting: real, curve: seq<EquityPoint>, peak: real) {
    var es := Equities(starting, curve);
    && peak == Peak(es)
    && (forall i :: 0 <= i < |es| ==> es[i] > 0.0)
    && WorstPercent(curve) == RunningDrawdown(es)
  }

  lemma {:induction false} EquitiesAppend(starting: real, curve: seq<EquityPoint>, p: EquityPoint)
    ensures var es, longer := Equities(starting, curve), Equities(starting, curve + [p]);
            longer == es + [p.equity] && longer[..|longer| - 1] == es && longer[|longer| - 1] == p.equity
  {
  }

  lemma {:induction false} WorstPercentAppend(curve: seq<EquityPoint>, p: EquityPoint)
    ensures WorstPercent(curve + [p]) ==
            if |curve| == 0 then p.drawdownPercent else Max(WorstPercent(curve), p.drawdownPercent)
  {
    assert (curve + [p])[..|curve|] == curve;
  }

  lemma {:induction false} CurveOneMore(
    starting: real, curve: seq<EquityPoint>, peak: real, timestamp: int, equity: real)
    requires CurveOk(starting, curve, peak) && starting > 0.0 && equity > 0.0
    ensures CurveOk(starting, curve + [PointAt(timestamp, equity, Max(peak, equity))], Max(peak, equity))
  {
    var p := PointAt(timestamp, equity, Max(peak, equity));
    var es := Equities(starting, curve);
    EquitiesAppend(starting, curve, p);
    WorstPercentAppend(curve, p);
    PeakIsHighest(es);
    RunningIsAttained(es);
    assert es[0] == starting;
    if equity >= peak {
      NoFallUpwards(equity, equity);
    } else {
      FallIsPositive(peak, equity);
    }
  }

  lemma {:induction false} ReplayKeepsCurve(cfg: Settings, feed: Feed, start: int, cs: seq<Candle>, wall: nat -> int)
    requires cfg.startingBalance == cfg.backtestStartingBalance && Replayed(cfg, feed, start, cs, wall).Ok?
    ensures var r := Replayed(cfg, feed, start, cs, wall).value; CurveOk(cfg.startingBalance, r.curve, r.peak)
  {
    if |cs| == 0 {
      assert Equities(cfg.startingBalance, []) == [cfg.startingBalance];
    } else {
      var front, last := cs[..|cs| - 1], cs[|cs| - 1];
      ReplayKeepsCurve(cfg, feed, start, front, wall);
      RiskEngineKnowsTheAccount(cfg, feed, start, front, wall);
      RiskEngineKnowsTheAccount(cfg, feed, start, cs, wall);
      var before, after := Replayed(cfg, feed, start, front, wall).value, Replayed(cfg, feed, start, cs, wall).value;
      StepAccount(cfg, feed, before, last, wall(|cs| - 1));
      CurveOneMore(cfg.startingBalance, before.curve, before.peak, last.closeTime, after.book.account.equity);
    }
  }

  /** The reported drawdown is the greatest fall of equity between any two moments, the start included. */
  lemma {:induction false} ReportedDrawdownIsWorst(cfg: Settings, q: Request, cs: seq<Candle>, wall: nat -> int)
    requires RunBacktest(cfg, q, cs, wall).Ok?
    ensures var s := RunBacktest(cfg, q, cs, wall).value;
            && (forall i :: 0 <= i < |s.curve| ==> s.curve[i].equity > 0.0)
            && WorstFall(Equities(cfg.backtestStartingBalance, s.curve), s.maxDrawdownPercent)
  {
    var replay := ReplaySettings(cfg);
    ReplayKeepsCurve(replay, ReplayFeed(q), q.start, Ordered(q, cs), wall);
    var r := Replayed(replay, ReplayFeed(q), q.start, Ordered(q, cs), wall).value;
    var es := Equities(replay.startingBalance, r.curve);
    RunningIsWorst(es);
    forall i | 0 <= i < |r.curve| ensures r.curve[i].equity > 0.0 {
      assert es[i + 1] > 0.0;
    }
  }

  // ---------------------------------------------------------------------
  // Balance
  // ---------------------------------------------------------------------

  lemma {:induction false} ReplayKeepsEquity(cfg: Settings, feed: Feed, start: int, cs: seq<Candle>, wall: nat -> int)
    requires cfg.maxOpenPositions == 1 && Replayed(cfg, feed, start, cs, wall).Ok?
    ensures EquityOk(Replayed(cfg, feed, start, cs, wall).value.book)
  {
    if |cs| > 0 {
      var front, last := cs[..|cs| - 1], cs[|cs| - 1];
      ReplayKeepsEquity(cfg, feed, start, front, wall);
      EveryReplayIsSound(cfg, feed, start, front, wall);
      RiskEngineKnowsTheAccount(cfg, feed, start, front, wall);
      var before := Replayed(cfg, feed, start, front, wall).value;
      CandleKeepsEquity(cfg, before.book, last, Some(last.open), last.closeTime, feed);
      StepAccount(cfg, feed, before, last, wall(|cs| - 1));
    }
  }

  /** What an open position has added to the balance: its unrealized result, less the fee already paid. */
  function CarriedBy(p: Position): real {
    p.mark.net - p.terms.entryFee
  }

  /** The replay behind a backtest. */
  function ReplayOf(cfg: Settings, q: Request, cs: seq<Candle>, wall: nat -> int): Result<Replay, ReplayError> {
    Replayed(ReplaySettings(cfg), ReplayFeed(q), q.start, Ordered(q, cs), wall)
  }

  /** The trades that the bounded history has dropped before the journal is written. */
  function Forgotten(limit: nat, history: seq<Trade>): seq<Trade> {
    history[..|history| - |LastN(history, limit)|]
  }

  lemma {:induction false} JournalNet(trades: seq<Trade>, plans: map<PlanId, Plan>)
    ensures Sum(EntryNet, Journal(trades, plans)) == Sum(NetOf, trades)
  {
    SumAgree(NetOf, EntryNet, trades, Journal(trades, plans));
  }

  lemma {:induction false} HistorySplits(limit: nat, history: seq<Trade>)
    requires limit > 0
    ensures var kept := LastN(history, limit);
            && Tail(kept, limit) == kept
            && Sum(NetOf, history) == Sum(NetOf, Forgotten(limit, history)) + Sum(NetOf, kept)
  {
    var kept := LastN(history, limit);
    SumConcat(NetOf, Forgotten(limit, history), kept);
    assert Forgotten(limit, history) + kept == history;
  }

  lemma {:induction false} BookReconciles(cfg: Settings, b: Book)
    requires Sound(cfg, b) && EquityOk(b)
    ensures b.account.equity - b.account.starting
            == Sum(NetOf, Tail(b.closed, cfg.maxPaperTradeHistory))
              + Sum(NetOf, Forgotten(cfg.maxPaperTradeHistory, b.history))
               + Sum(CarriedBy, b.open)
  {
    HistorySplits(cfg.maxPaperTradeHistory, b.history);
    SumDifference(UnrealizedOf, EntryFeeOf, CarriedBy, b.open);
  }

  lemma {:induction false} SummaryOfReplay(cfg: Settings, q: Request, cs: seq<Candle>, wall: nat -> int)
    requires RunBacktest(cfg, q, cs, wall).Ok?
    ensures ReplayOf(cfg, q, cs, wall).Ok?
    ensures RunBacktest(cfg, q, cs, wall).value == SummaryOf(ReplaySettings(cfg), q, ReplayOf(cfg, q, cs, wall).value)
  {
  }

  ghost predicate Reconciled(limit: nat, s: Summary, b: Book) {
    && s.starting == b.account.starting
    && s.ending - s.starting == s.net + Sum(CarriedBy, b.open) + Sum(NetOf, Forgotten(limit, b.history))
    && (s.ending - s.starting == s.net + Sum(CarriedBy, b.open) <==> Sum(NetOf, Forgotten(limit, b.history)) == 0.0)
    && (|b.history| <= limit ==> Forgotten(limit, b.history) == [] && s.trades == |b.history|)
  }

  lemma {:induction false} SummaryReconciles(cfg: Settings, q: Request, r: Replay)
    requires Sound(cfg, r.book) && EquityOk(r.book)
    ensures Reconciled(cfg.maxPaperTradeHistory, SummaryOf(cfg, q, r), r.book)
  {
    BookReconciles(cfg, r.book);
    JournalNet(Tail(r.book.closed, cfg.maxPaperTradeHistory), r.plans);
  }

  lemma {:induction false} ReplayReconciles(
    cfg: Settings, q: Request, feed: Feed, start: int, cs: seq<Candle>, wall: nat -> int)
    requires cfg.maxOpenPositions == 1 && Replayed(cfg, feed, start, cs, wall).Ok?
    ensures var r := Replayed(cfg, feed, start, cs, wall).value;
            Reconciled(cfg.maxPaperTradeHistory, SummaryOf(cfg, q, r), r.book)
              && r.book.account.starting == cfg.startingBalance
  {
    EveryReplayIsSound(cfg, feed, start, cs, wall);
    ReplayKeepsEquity(cfg, feed, start, cs, wall);
    SummaryReconciles(cfg, q, Replayed(cfg, feed, start, cs, wall).value);
  }

  /**
   * The gain of a backtest is the net result of its journal plus what its open positions
   * carry, exactly when the trades it has forgotten came to nothing; while the history is
   * not full, there are none.
   */
  lemma {:induction false} BalanceReconciles(cfg: Settings, q: Request, cs: seq<Candle>, wall: nat -> int)
    requires cfg.maxOpenPositions == 1 && RunBacktest(cfg, q, cs, wall).Ok?
    ensures ReplayOf(cfg, q, cs, wall).Ok?
    ensures RunBacktest(cfg, q, cs, wall).value.starting == cfg.backtestStartingBalance
    ensures Reconciled(cfg.maxPaperTradeHistory, RunBacktest(cfg, q, cs, wall).value,
                       ReplayOf(cfg, q, cs, wall).value.book)
  {
    SummaryOfReplay(cfg, q, cs, wall);
    ReplayReconciles(ReplaySettings(cfg), q, ReplayFeed(q), q.start, Ordered(q, cs), wall);
  }

  /** The book after two winning trades, with room to remember the second one only. */
  function TwoTraded(starting: real, day: int, t: Trade, u: Trade): Book {
    var gross, fees := t.gross + u.gross, t.fees + u.fees;
    var cash := starting + gross - fees;
    Book(Account(starting, cash, cash, t.net + u.net, t.net + u.net, gross, fees, 0, 2, 2, 0, ShareOf(2, 2), day),
         [], [], [u], [t.id, u.id], RecoveryComplete, false, [t, u], [])
  }

  /** Any two winners do, when one trade is remembered: the book is sound, and its journal misses the first. */
  lemma {:induction false} ForgottenTradesBreakBalance(cfg: Settings, starting: real, day: int, t: Trade, u: Trade)
    requires cfg.maxPaperTradeHistory == 1 && t.id != u.id && t.net > 0.0 && u.net > 0.0
    requires t.net == t.gross - t.fees && u.net == u.gross - u.fees
    ensures var b := TwoTraded(starting, day, t, u);
            && Sound(cfg, b) && EquityOk(b)
            && b.account.equity - b.account.starting
               == Sum(NetOf, Tail(b.closed, cfg.maxPaperTradeHistory)) + Sum(CarriedBy, b.open) + t.net
  {
    SumOfTwo(NetOf, t, u);
    SumOfTwo(GrossOf, t, u);
    SumOfTwo(FeesOf, t, u);
    SumOfTwo(WinOf, t, u);
    SumOfTwo(LossOf, t, u);
    assert LastN([t, u], 1) == [u];
    assert Tail([u], 1) == [u] && Sum(NetOf, [u]) == u.net;
  }

  // ---------------------------------------------------------------------
  // Today's result
  // ---------------------------------------------------------------------

  ghost predicate DaysNeverGoBack(start: int, cs: seq<Candle>) {
    && (forall i :: 0 <= i < |cs| ==> Day(start) <= Day(cs[i].closeTime))
    && (forall i, j :: 0 <= i < j < |cs| ==> Day(cs[i].closeTime) <= Day(cs[j].closeTime))
  }

  /** The daily loss that limits new plans is the net result of the trades closed that day. */
  lemma {:induction false} DailyLossIsTodays(cfg: Settings, feed: Feed, start: int, cs: seq<Candle>, wall: nat -> int)
    requires Replayed(cfg, feed, start, cs, wall).Ok? && DaysNeverGoBack(start, cs)
    ensures var r := Replayed(cfg, feed, start, cs, wall).value;
            && TodayOk(r.book) && r.book.account.day == Day(if |cs| == 0 then start else cs[|cs| - 1].closeTime)
            && r.riskAccount.realizedToday == ClosedOn(r.book.history, r.book.account.day)
  {
    RiskEngineKnowsTheAccount(cfg, feed, start, cs, wall);
    if |cs| > 0 {
      var front, last := cs[..|cs| - 1], cs[|cs| - 1];
      DailyLossIsTodays(cfg, feed, start, front, wall);
      RiskEngineKnowsTheAccount(cfg, feed, start, front, wall);
      var before := Replayed(cfg, feed, start, front, wall).value;
      assert |front| > 0 ==> front[|front| - 1] == cs[|cs| - 2];
      CandleKeepsToday(cfg, before.book, last, Some(last.open), last.closeTime, feed);
      StepAccount(cfg, feed, before, last, wall(|cs| - 1));
    }
  }

  /**
   * Whatever signal a candle leads to: a plan is only approved if the trades closed that day have
   * not lost the daily limit, and would not with its own risk added.
   */
  lemma {:induction false} ApprovedPlansKeepDailyLimit(
    cfg: Settings, feed: Feed, start: int, cs: seq<Candle>, wall: nat -> int, c: Candle, s: Signal)
    requires Replayed(cfg, feed, start, cs, wall).Ok? && DaysNeverGoBack(start, cs + [c])
    requires Execute(cfg, feed, Replayed(cfg, feed, start, cs, wall).value, c).Ok?
    ensures var r := Execute(cfg, feed, Replayed(cfg, feed, start, cs, wall).value, c).value;
            var p := BuildPlan(cfg, s, Some(feed), r.riskAccount, c.closeTime);
            p.approved && p.actualRisk.Some? ==>
              && RiskGuarantees.WithinDailyLimit(ClosedOn(r.book.history, Day(c.closeTime)), p.actualRisk.value,
                                                 Product(r.book.account.equity, cfg.maxDailyLoss))
              && p.actualRisk.value <= Product(r.book.account.equity, cfg.riskPerTrade)
              && |r.book.open| < cfg.maxOpenPositions
  {
    var before := Replayed(cfg, feed, start, cs, wall).value;
    DaysOfPrefix(start, cs, c);
    DailyLossIsTodays(cfg, feed, start, cs, wall);
    RiskEngineKnowsTheAccount(cfg, feed, start, cs, wall);
    EveryReplayIsSound(cfg, feed, start, cs, wall);
    ExecutionKnowsToday(cfg, feed, before, c);
    ApprovedWithin(cfg, feed, Execute(cfg, feed, before, c).value, c, s);
  }

  /** After the candle has met the book, the risk engine holds its account and today's result. */
  ghost predicate KnowsToday(cfg: Settings, r: Replay, now: int) {
    && RiskInStep(r) && r.riskAccount.realizedToday == ClosedOn(r.book.history, Day(now))
    && r.book.account.openCount == |r.book.open|
  }

  lemma {:induction false} ExecutionKnowsToday(cfg: Settings, feed: Feed, r: Replay, c: Candle)
    requires Sound(cfg, r.book) && RiskInStep(r) && TodayOk(r.book) && r.book.account.day <= Day(c.closeTime)
    requires Execute(cfg, feed, r, c).Ok?
    ensures KnowsToday(cfg, Execute(cfg, feed, r, c).value, c.closeTime)
  {
    CandleKeepsToday(cfg, r.book, c, Some(c.open), c.closeTime, feed);
    CandleIsSound(cfg, r.book, c, Some(c.open), c.closeTime, feed);
    ExecuteKeepsRiskInStep(cfg, feed, r, c);
    ExecuteParts(cfg, feed, r, c);
  }

  lemma {:induction false} ApprovedWithin(cfg: Settings, feed: Feed, r: Replay, c: Candle, s: Signal)
    requires KnowsToday(cfg, r, c.closeTime)
    ensures var p := BuildPlan(cfg, s, Some(feed), r.riskAccount, c.closeTime);
            p.approved && p.actualRisk.Some? ==>
              && RiskGuarantees.WithinDailyLimit(ClosedOn(r.book.history, Day(c.closeTime)), p.actualRisk.value,
                                                 Product(r.book.account.equity, cfg.maxDailyLoss))
              && p.actualRisk.value <= Product(r.book.account.equity, cfg.riskPerTrade)
              && |r.book.open| < cfg.maxOpenPositions
  {
    if BuildPlan(cfg, s, Some(feed), r.riskAccount, c.closeTime).approved {
      RiskGuarantees.ApprovedPlanKeepsBudgets(cfg, s, Some(feed), r.riskAccount, c.closeTime);
    }
  }

  lemma {:induction false} DaysOfPrefix(start: int, cs: seq<Candle>, c: Candle)
    requires DaysNeverGoBack(start, cs + [c])
    ensures DaysNeverGoBack(start, cs)
    ensures Day(if |cs| == 0 then start else cs[|cs| - 1].closeTime) <= Day(c.closeTime)
  {
    var longer := cs + [c];
    assert forall i :: 0 <= i < |cs| ==> longer[i] == cs[i];
    assert longer[|cs|] == c;
  }

  // ---------------------------------------------------------------------
  // Slices
  // ---------------------------------------------------------------------

  predicate NoRepeats(names: seq<string>) {
    forall i, j :: 0 <= i < j < |names| ==> names[i] != names[j]
  }

  /** The trades, and the net result, of the slices of all these symbols together. */
  function SlicedTrades(es: seq<JournalEntry>, names: seq<string>): nat {
    if |names| == 0 then 0
    else SlicedTrades(es, names[..|names| - 1]) + PerformanceSlice(OfSymbol(es, names[|names| - 1])).trades
  }

  function SlicedNet(es: seq<JournalEntry>, names: seq<string>): real {
    if |names| == 0 then 0.0
    else SlicedNet(es, names[..|names| - 1]) + PerformanceSlice(OfSymbol(es, names[|names| - 1])).net
  }

  lemma {:induction false} SlicesOfNothing(names: seq<string>)
    ensures SlicedTrades([], names) == 0 && SlicedNet([], names) == 0.0
  {
    if |names| > 0 {
      SlicesOfNothing(names[..|names| - 1]);
    }
  }

  /** One more trade is counted by the slice of its symbol and by no other. */
  lemma {:induction false} SlicesOfOneMore(es: seq<JournalEntry>, e: JournalEntry, names: seq<string>)
    requires NoRepeats(names)
    ensures SlicedTrades(es + [e], names) == SlicedTrades(es, names) + (if e.symbol in names then 1 else 0)
    ensures SlicedNet(es + [e], names) == SlicedNet(es, names) + (if e.symbol in names then e.net else 0.0)
  {
    if |names| > 0 {
      var front, last := names[..|names| - 1], names[|names| - 1];
      SlicesOfOneMore(es, e, front);
      assert (es + [e])[..|es|] == es;
      SumAppend(EntryNet, OfSymbol(es, last), e);
      assert e.symbol in names <==> e.symbol in front || e.symbol == last;
      assert !(e.symbol in front && e.symbol == last);
    }
  }

  predicate Named(e: JournalEntry, names: seq<string>) {
    e.symbol in names
  }

  ghost predicate AllNamed(es: seq<JournalEntry>, names: seq<string>) {
    forall i :: 0 <= i < |es| ==> Named(es[i], names)
  }

  lemma {:induction false} AllNamedOneMore(es: seq<JournalEntry>, e: JournalEntry, names: seq<string>)
    ensures AllNamed(es + [e], names) <==> AllNamed(es, names) && Named(e, names)
  {
    assert forall i :: 0 <= i < |es| ==> (es + [e])[i] == es[i];
    assert (es + [e])[|es|] == e;
  }

  lemma {:induction false} SymbolSlicesSum(es: seq<JournalEntry>, names: seq<string>)
    requires NoRepeats(names)
    ensures SlicedTrades(es, names) <= |es|
    ensures SlicedTrades(es, names) == |es| <==> AllNamed(es, names)
    ensures SlicedTrades(es, names) == |es| ==> SlicedNet(es, names) == Sum(EntryNet, es)
  {
    if |es| == 0 {
      SlicesOfNothing(names);
    } else {
      var front, last := es[..|es| - 1], es[|es| - 1];
      SplitLast(es, 0);
      SymbolSlicesSum(front, names);
      SlicesOfOneMore(front, last, names);
      AllNamedOneMore(front, last, names);
    }
  }

  /** The slices of a backtest, taken over the keys of their dict, account for all its trades and its result. */
  predicate SlicesCover(q: Request, s: Summary) {
    SlicedTrades(s.journal, Once(q.symbols)) == s.trades && SlicedNet(s.journal, Once(q.symbols)) == s.net
  }

  /** The slices and the totals of a summary are those of its journal. */
  ghost predicate TellsOf(q: Request, s: Summary, es: seq<JournalEntry>) {
    && s.journal == es && s.trades == |es| && s.net == Sum(EntryNet, es)
    && s.symbols.Keys == (set x | x in q.symbols)
    && forall name :: name in s.symbols ==> s.symbols[name] == PerformanceSlice(OfSymbol(es, name))
  }

  lemma {:induction false} SummaryTells(cfg: Settings, q: Request, r: Replay)
    ensures TellsOf(q, SummaryOf(cfg, q, r), JournalOf(cfg, r))
  {
  }

  /** The slices cover exactly when every traded symbol is a key. */
  lemma {:induction false} SlicesCoverIffNamed(q: Request, s: Summary, es: seq<JournalEntry>)
    requires TellsOf(q, s, es)
    ensures SlicesCover(q, s) <==> AllNamed(es, Once(q.symbols))
  {
    SymbolSlicesSum(es, Once(q.symbols));
  }

  /** The symbols of the candles in range, and those spelled in the request. */
  predicate AllSpelled(q: Request, cs: seq<Candle>) {
    forall i :: 0 <= i < |cs| && InRange(q.start, q.end, cs[i]) ==> cs[i].symbol in q.symbols
  }

  predicate NoneSpelled(cfg: Settings, q: Request) {
    forall i :: 0 <= i < |q.symbols| ==> q.symbols[i] !in cfg.symbols
  }

  ghost predicate SpellingRule(cfg: Settings, q: Request, cs: seq<Candle>, s: Summary) {
    && (AllSpelled(q, cs) ==> SlicesCover(q, s))
    && (NoneSpelled(cfg, q) ==> (SlicesCover(q, s) <==> s.trades == 0))
    && (NoneSpelled(cfg, q) ==> forall name :: name in s.symbols ==> s.symbols[name].trades == 0)
  }

  /**
   * Spelling decides.  If every symbol loaded in range is spelled in the request as the candles
   * spell it, the slices cover; if none of the requested names is a configured symbol, which
   * the validation of a lower-case request lets through, every slice is empty, and they cover
   * only a backtest without trades.
   */
  lemma {:induction false} SpellingDecidesSlices(cfg: Settings, q: Request, cs: seq<Candle>, wall: nat -> int)
    requires RunBacktest(cfg, q, cs, wall).Ok?
    ensures SpellingRule(cfg, q, cs, RunBacktest(cfg, q, cs, wall).value)
  {
    SummaryOfReplay(cfg, q, cs, wall);
    var r := ReplayOf(cfg, q, cs, wall).value;
    EveryReplayIsSound(ReplaySettings(cfg), ReplayFeed(q), q.start, Ordered(q, cs), wall);
    SummaryTells(ReplaySettings(cfg), q, r);
    SlicesOfSpelling(ReplaySettings(cfg), q, cs, r, SummaryOf(ReplaySettings(cfg), q, r));
  }

  /** The journal of a replay's book. */
  function JournalOf(cfg: Settings, r: Replay): seq<JournalEntry> {
    Journal(Tail(r.book.closed, cfg.maxPaperTradeHistory), r.plans)
  }

  lemma {:induction false} JournalledAreSpelled(cfg: Settings, q: Request, cs: seq<Candle>, r: Replay)
    requires ReplayOk(cfg, Ordered(q, cs), r) && AllSpelled(q, cs)
    ensures AllNamed(JournalOf(cfg, r), Once(q.symbols))
  {
    var es, os := JournalOf(cfg, r), Ordered(q, cs);
    EntriesAreConfigured(cfg, os, r);
    OrderedAreLoaded(q, cs);
    forall k | 0 <= k < |es| ensures Named(es[k], Once(q.symbols)) {
      var c :| c in os && c.symbol == es[k].symbol;
      var i :| 0 <= i < |cs| && cs[i] == c && InRange(q.start, q.end, cs[i]);
      assert cs[i].symbol in q.symbols;
    }
  }

  /** With no name spelled as configured, every slice is empty. */
  lemma {:induction false} UnspelledSlicesAreEmpty(cfg: Settings, q: Request, es: seq<JournalEntry>)
    requires NoneSpelled(cfg, q) && forall i :: 0 <= i < |es| ==> es[i].symbol in cfg.symbols
    ensures forall name :: name in q.symbols ==> OfSymbol(es, name) == []
    ensures AllNamed(es, Once(q.symbols)) <==> |es| == 0
  {
    forall name | name in q.symbols ensures OfSymbol(es, name) == [] {
      var j :| 0 <= j < |q.symbols| && q.symbols[j] == name;
      NoneOfSymbol(es, name);
    }
    assert forall name :: name in q.symbols ==> name !in cfg.symbols;
    if |es| > 0 {
      assert !Named(es[0], Once(q.symbols));
    }
  }

  lemma {:induction false} SlicesOfSpelling(cfg: Settings, q: Request, cs: seq<Candle>, r: Replay, s: Summary)
    requires ReplayOk(cfg, Ordered(q, cs), r) && TellsOf(q, s, JournalOf(cfg, r))
    ensures SpellingRule(cfg, q, cs, s)
  {
    SlicesCoverIffNamed(q, s, JournalOf(cfg, r));
    EntriesAreConfigured(cfg, Ordered(q, cs), r);
    if AllSpelled(q, cs) {
      JournalledAreSpelled(cfg, q, cs, r);
    }
    if NoneSpelled(cfg, q) {
      UnspelledSlicesAreEmpty(cfg, q, JournalOf(cfg, r));
    }
  }

  lemma {:induction false} SummaryHoldsJournal(cfg: Settings, q: Request, r: Replay)
    ensures SummaryOf(cfg, q, r).journal == JournalOf(cfg, r) && SummaryOf(cfg, q, r).trades == |JournalOf(cfg, r)|
  {
  }

  lemma {:induction false} OrderedAreLoaded(q: Request, cs: seq<Candle>)
    ensures forall c :: c in Ordered(q, cs) ==>
            exists i :: 0 <= i < |cs| && cs[i] == c && InRange(q.start, q.end, cs[i])
  {
    SortIsPermutation(Before, Selected(q.start, q.end, cs));
    SelectedAreLoaded(q.start, q.end, cs);
    var chosen, os := Selected(q.start, q.end, cs), Ordered(q, cs);
    assert forall c :: c in os <==> c in multiset(os);
    assert forall c :: c in chosen <==> c in multiset(chosen);
  }

  lemma {:induction false} SelectedAreLoaded(start: int, end: int, cs: seq<Candle>)
    ensures forall c :: c in Selected(start, end, cs) ==>
            exists i :: 0 <= i < |cs| && cs[i] == c && InRange(start, end, cs[i])
  {
    if |cs| > 0 {
      var front := cs[..|cs| - 1];
      SelectedAreLoaded(start, end, front);
      forall c | c in Selected(start, end, cs)
        ensures exists i :: 0 <= i < |cs| && cs[i] == c && InRange(start, end, cs[i])
      {
        if c in Selected(start, end, front) {
          var i :| 0 <= i < |front| && front[i] == c && InRange(start, end, front[i]);
          assert cs[i] == front[i];
        } else {
          assert cs[|cs| - 1] == c;
        }
      }
    }
  }

  lemma {:induction false} DirectionsSum(es: seq<JournalEntry>)
    requires forall i :: 0 <= i < |es| ==> !es[i].direction.NoTrade?
    ensures |OfDirection(es, Long)| + |OfDirection(es, Short)| == |es|
    ensures Sum(EntryNet, OfDirection(es, Long)) + Sum(EntryNet, OfDirection(es, Short)) == Sum(EntryNet, es)
  {
    if |es| > 0 {
      var front, last := es[..|es| - 1], es[|es| - 1];
      DirectionsSum(front);
      SumAppend(EntryNet, OfDirection(front, last.direction), last);
    }
  }

  /** A trade has a direction, and a configured symbol. */
  lemma {:induction false} TradesAreConfigured(cfg: Settings, cs: seq<Candle>, r: Replay, t: Trade)
    requires ReplayOk(cfg, cs, r) && t in r.book.history
    ensures !t.direction.NoTrade? && t.id.symbol in cfg.symbols
    ensures exists c :: c in cs && c.symbol == t.id.symbol
  {
    assert t in Done(cfg, cs, r.riskMarks);
    var i, j, m, o := LifeOfTrade(cfg, cs, t);
    assert ValidateCandle(cs[i], cfg.symbols, cfg.defaultTimeframe).None?;
    assert cs[i] in cs;
  }

  lemma {:induction false} EntriesAreConfigured(cfg: Settings, cs: seq<Candle>, r: Replay)
    requires ReplayOk(cfg, cs, r)
    ensures var es := Journal(Tail(r.book.closed, cfg.maxPaperTradeHistory), r.plans);
            forall i :: 0 <= i < |es| ==>
              && !es[i].direction.NoTrade? && es[i].symbol in cfg.symbols
              && exists c :: c in cs && c.symbol == es[i].symbol
  {
    var trades := Tail(r.book.closed, cfg.maxPaperTradeHistory);
    forall i | 0 <= i < |trades|
      ensures !trades[i].direction.NoTrade? && trades[i].id.symbol in cfg.symbols
      ensures exists c :: c in cs && c.symbol == trades[i].id.symbol
    {
      assert trades[i] in r.book.history;
      TradesAreConfigured(cfg, cs, r, trades[i]);
    }
  }

  lemma {:induction false} NoneOfSymbol(es: seq<JournalEntry>, name: string)
    requires forall i :: 0 <= i < |es| ==> es[i].symbol != name
    ensures OfSymbol(es, name) == []
  {
    if |es| > 0 {
      NoneOfSymbol(es[..|es| - 1], name);
    }
  }

  /** The two directions always account for every trade; a symbol not spelled as configured never holds one. */
  lemma {:induction false} DirectionsCover(cfg: Settings, q: Request, cs: seq<Candle>, wall: nat -> int)
    requires RunBacktest(cfg, q, cs, wall).Ok?
    ensures var s := RunBacktest(cfg, q, cs, wall).value;
            && Long in s.directions && Short in s.directions
            && s.directions[Long].trades + s.directions[Short].trades == s.trades
            && s.directions[Long].net + s.directions[Short].net == s.net
            && forall name :: name in s.symbols && name !in cfg.symbols ==> s.symbols[name].trades == 0
  {
    SummaryOfReplay(cfg, q, cs, wall);
    EveryReplayIsSound(ReplaySettings(cfg), ReplayFeed(q), q.start, Ordered(q, cs), wall);
    EntriesAreConfigured(ReplaySettings(cfg), Ordered(q, cs), ReplayOf(cfg, q, cs, wall).value);
    DirectionsOfSummary(ReplaySettings(cfg), q, ReplayOf(cfg, q, cs, wall).value);
  }

  lemma {:induction false} DirectionsOfSummary(cfg: Settings, q: Request, r: Replay)
    requires var es := Journal(Tail(r.book.closed, cfg.maxPaperTradeHistory), r.plans);
             forall i :: 0 <= i < |es| ==> !es[i].direction.NoTrade? && es[i].symbol in cfg.symbols
    ensures var s := SummaryOf(cfg, q, r);
            && Long in s.directions && Short in s.directions
            && s.directions[Long].trades + s.directions[Short].trades == s.trades
            && s.directions[Long].net + s.directions[Short].net == s.net
            && forall name :: name in s.symbols && name !in cfg.symbols ==> s.symbols[name].trades == 0
  {
    var es := JournalOf(cfg, r);
    DirectionsSum(es);
    forall name | name in q.symbols && name !in cfg.symbols ensures OfSymbol(es, name) == [] {
      NoneOfSymbol(es, name);
    }
  }
}
