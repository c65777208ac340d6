/** The chronological replay: every engine driven by the same candle, one candle after another. */
module Backtest {
  import opened Common
  import opened Sorting
  import opened Configuration
  import opened Market
  import opened Indicators
  import opened Strategy
  import opened Risk
  import opened Ledger
  import opened PaperEngine

  datatype Request = Request(symbols: seq<string>, timeframe: string, start: int, end: int)

  datatype ReplayError =
    | WrongTimeframe | UnknownSymbol | RangeTooLong | CandleError(error: MarketError) | EquityNotPositive

  datatype EquityPoint = EquityPoint(timestamp: int, equity: real, drawdown: real, drawdownPercent: real)

  datatype Counts = Counts(long: nat, short: nat, noTrade: nat, approved: nat, rejected: nat, reasons: multiset<Reason>)

  datatype Replay = Replay(
    states: map<Key, IndicatorState>, strategyMarks: map<Key, int>, riskMarks: map<Key, int>,
    riskAccount: RiskAccount, book: Book, plans: map<PlanId, Plan>, counts: Counts,
    peak: real, curve: seq<EquityPoint>)

  // ---------------------------------------------------------------------
  // Before the replay
  // ---------------------------------------------------------------------

  function UpperChar(c: char): char {
    if 'a' <= c <= 'z' then c - 'a' + 'A' else c
  }

  function Upper(s: string): string {
    seq(|s|, i requires 0 <= i < |s| => UpperChar(s[i]))
  }

  function ValidateRequest(cfg: Settings, q: Request): Option<ReplayError> {
    if q.timeframe != cfg.defaultTimeframe then Some(WrongTimeframe)
    else if exists i :: 0 <= i < |q.symbols| && Upper(q.symbols[i]) !in cfg.symbols then Some(UnknownSymbol)
    else if (q.end - q.start) / DAY_MS > cfg.maxBacktestDays then Some(RangeTooLong)
    else None
  }

  predicate InRange(start: int, end: int, c: Candle) {
    start <= c.openTime && c.closeTime <= end
  }

  /** The candles that lie wholly in the requested range. */
  function Selected(start: int, end: int, cs: seq<Candle>): seq<Candle> {
    if |cs| == 0 then []
    else
      var front := Selected(start, end, cs[..|cs| - 1]);
      if InRange(start, end, cs[|cs| - 1]) then front + [cs[|cs| - 1]] else front
  }

  predicate Before(c: Candle, d: Candle) {
    c.openTime < d.openTime || (c.openTime == d.openTime && StringLe(c.symbol, d.symbol))
  }

  /** Chronological order, ties broken by symbol. */
  function Ordered(q: Request, cs: seq<Candle>): seq<Candle> {
    Sort(Before, Selected(q.start, q.end, cs))
  }

  /** A replay always reports a connected feed. */
  function ReplayFeed(q: Request): Feed {
    Feed(Connected, map i | 0 <= i < |q.symbols| :: Upper(q.symbols[i]) := Connected)
  }

  function ReplaySettings(cfg: Settings): Settings {
    cfg.(startingBalance := cfg.backtestStartingBalance)
  }

  // ---------------------------------------------------------------------
  // One candle
  // ---------------------------------------------------------------------

  const NO_COUNTS := Counts(0, 0, 0, 0, 0, multiset{})

  function Initial(cfg: Settings, start: int): Replay {
    Replay(map[], map[], map[], AccountRecord(cfg.startingBalance, 0.0, 0), Opening(cfg.startingBalance, start),
           map[], NO_COUNTS, cfg.backtestStartingBalance, [])
  }

  function CountSignal(n: Counts, d: Direction): Counts {
    match d
    case Long => n.(long := n.long + 1)
    case Short => n.(short := n.short + 1)
    case NoTrade => n.(noTrade := n.noTrade + 1)
  }

  function CountPlan(n: Counts, p: Plan): Counts {
    if p.approved then n.(approved := n.approved + 1)
    else n.(rejected := n.rejected + 1, reasons := n.reasons + multiset(p.reasons))
  }

  function NotePlan(plans: map<PlanId, Plan>, p: Plan): map<PlanId, Plan> {
    match Identity(p)
    case Some(id) => plans[id := p]
    case None => plans
  }

  function OnPlan(cfg: Settings, r: Replay, p: Plan, now: int): Replay {
    r.(plans := NotePlan(r.plans, p), counts := CountPlan(r.counts, p), book := ProcessPlan(cfg, r.book, p, now).0)
  }

  function Planned(cfg: Settings, feed: Feed, r: Replay, s: Signal, now: int): (Replay, Option<Plan>) {
    var (marks, plan) := ProcessSignal(cfg, r.riskMarks, r.riskAccount, s, Some(feed), now);
    (r.(counts := CountSignal(r.counts, s.direction), riskMarks := marks), plan)
  }

  function OnSignal(cfg: Settings, feed: Feed, r: Replay, s: Signal, now: int): Replay {
    var (marked, plan) := Planned(cfg, feed, r, s, now);
    if plan.Some? then OnPlan(cfg, marked, plan.value, now) else marked
  }

  function OnSnapshot(cfg: Settings, feed: Feed, r: Replay, s: Snapshot, now: int, wall: int): Replay {
    var (marks, signal) := ProcessSnapshot(cfg, r.strategyMarks, s, Some(feed), wall);
    var marked := r.(strategyMarks := marks);
    if signal.Some? then OnSignal(cfg, feed, marked, signal.value, now) else marked
  }

  /** Open and waiting plans meet the candle first, at its open. */
  function Execute(cfg: Settings, feed: Feed, r: Replay, c: Candle): Result<Replay, ReplayError> {
    var book := ProcessCandle(cfg, r.book, c, Some(c.open), c.closeTime, feed);
    match ReportOf(Changes(cfg, r.book, c, Some(c.open), c.closeTime, feed), book.account)
    case Rejected => Err(EquityNotPositive)
    case Told(a) => Ok(r.(book := book, riskAccount := a))
    case Unchanged => Ok(r.(book := book))
  }

  /** Only then is the candle analysed, and a new plan may start to wait. */
  function Analyse(cfg: Settings, feed: Feed, r: Replay, c: Candle, wall: int): Result<Replay, ReplayError> {
    match Process(cfg, r.states, c)
    case Err(e) => Err(CandleError(e))
    case Ok(p) =>
      var stated := r.(states := p.0);
      Ok(if p.1.Some? then OnSnapshot(cfg, feed, stated, p.1.value, c.closeTime, wall) else stated)
  }

  function PointAt(timestamp: int, equity: real, peak: real): EquityPoint {
    EquityPoint(timestamp, equity, peak - equity,
                if peak == 0.0 then 0.0 else Product(Ratio(peak - equity, peak), 100.0))
  }

  function Record(r: Replay, c: Candle): Replay {
    var book := ResetDay(r.book, c.closeTime);
    var peak := Max(r.peak, book.account.equity);
    r.(book := book, peak := peak, curve := r.curve + [PointAt(c.closeTime, book.account.equity, peak)])
  }

  function Step(cfg: Settings, feed: Feed, r: Replay, c: Candle, wall: int): Result<Replay, ReplayError> {
    match Execute(cfg, feed, r, c)
    case Err(e) => Err(e)
    case Ok(executed) =>
      match Analyse(cfg, feed, executed, c, wall)
      case Err(e) => Err(e)
      case Ok(analysed) => Ok(Record(analysed, c))
  }

  /** `wall(i)` is the wall clock while candle `i` is replayed. */
  function Replayed(
    cfg: Settings, feed: Feed, start: int, cs: seq<Candle>, wall: nat -> int): Result<Replay, ReplayError>
  {
    if |cs| == 0 then Ok(Initial(cfg, start))
    else
      match Replayed(cfg, feed, start, cs[..|cs| - 1], wall)
      case Err(e) => Err(e)
      case Ok(r) => Step(cfg, feed, r, cs[|cs| - 1], wall(|cs| - 1))
  }

  // ---------------------------------------------------------------------
  // After the replay
  // ---------------------------------------------------------------------

  datatype JournalEntry = JournalEntry(
    symbol: string, direction: Direction, signalTime: Option<int>, entryTime: int, entryPrice: real,
    stop: Option<real>, target: Option<real>, exitTime: int, exitPrice: real, reason: ExitReason, quantity: real,
    plannedRisk: Option<real>, gross: real, fees: real, net: real, rMultiple: Option<real>, score: int)

  function MultipleOf(net: real, risk: Option<real>): Option<real> {
    if risk.Some? && risk.value != 0.0 then Some(Ratio(net, risk.value)) else None
  }

  function EntryOf(t: Trade, plan: Option<Plan>): JournalEntry {
    var risk := if plan.Some? then plan.value.plannedRisk else None;
    JournalEntry(t.id.symbol, t.direction, t.signalTime, t.openedAt, t.entryFill,
                 if plan.Some? then plan.value.stop else None, if plan.Some? then plan.value.target else None,
                 t.closedAt, t.exitFill, t.reason, t.quantity, risk, t.gross, t.fees, t.net,
                 MultipleOf(t.net, risk), if plan.Some? then plan.value.score else 0)
  }

  function PlanOf(plans: map<PlanId, Plan>, id: PlanId): Option<Plan> {
    if id in plans then Some(plans[id]) else None
  }

  function Journal(trades: seq<Trade>, plans: map<PlanId, Plan>): (r: seq<JournalEntry>)
    ensures |r| == |trades| && forall i :: 0 <= i < |trades| ==> r[i] == EntryOf(trades[i], PlanOf(plans, trades[i].id))
  {
    seq(|trades|, i requires 0 <= i < |trades| => EntryOf(trades[i], PlanOf(plans, trades[i].id)))
  }

  function EntryNet(e: JournalEntry): real { e.net }
  function EntryGross(e: JournalEntry): real { e.gross }
  function EntryFees(e: JournalEntry): real { e.fees }
  function EntryMultiple(e: JournalEntry): real { if e.rMultiple.Some? then e.rMultiple.value else 0.0 }
  predicate IsWin(e: JournalEntry) { e.net > 0.0 }
  predicate IsLoss(e: JournalEntry) { e.net < 0.0 }
  predicate HasMultiple(e: JournalEntry) { e.rMultiple.Some? }

  function Share(part: real, count: nat): Option<real> {
    if count == 0 then None else Some(Ratio(part, count as real))
  }

  function ProfitFactor(profit: real, loss: real): Option<real> {
    if loss == 0.0 then None else Some(Ratio(profit, Abs(loss)))
  }

  datatype Slice = Slice(trades: nat, wins: nat, net: real, profitFactor: Option<real>, averageR: Option<real>)

  function AverageMultiple(es: seq<JournalEntry>): Option<real> {
    var rs := Filter(HasMultiple, es);
    Share(Sum(EntryMultiple, rs), |rs|)
  }

  function PerformanceSlice(es: seq<JournalEntry>): Slice {
    var wins, losses := Filter(IsWin, es), Filter(IsLoss, es);
    Slice(|es|, |wins|, Sum(EntryNet, es), ProfitFactor(Sum(EntryNet, wins), Sum(EntryNet, losses)),
          AverageMultiple(es))
  }

  /** The entries of one symbol. */
  function OfSymbol(es: seq<JournalEntry>, symbol: string): seq<JournalEntry> {
    if |es| == 0 then []
    else
      var front := OfSymbol(es[..|es| - 1], symbol);
      if es[|es| - 1].symbol == symbol then front + [es[|es| - 1]] else front
  }

  function OfDirection(es: seq<JournalEntry>, d: Direction): seq<JournalEntry> {
    if |es| == 0 then []
    else
      var front := OfDirection(es[..|es| - 1], d);
      if es[|es| - 1].direction == d then front + [es[|es| - 1]] else front
  }

  function WorstDrawdown(curve: seq<EquityPoint>): real {
    if |curve| == 0 then 0.0
    else if |curve| == 1 then curve[0].drawdown
    else Max(WorstDrawdown(curve[..|curve| - 1]), curve[|curve| - 1].drawdown)
  }

  function WorstPercent(curve: seq<EquityPoint>): real {
    if |curve| == 0 then 0.0
    else if |curve| == 1 then curve[0].drawdownPercent
    else Max(WorstPercent(curve[..|curve| - 1]), curve[|curve| - 1].drawdownPercent)
  }

  datatype Summary = Summary(
    starting: real, ending: real, trades: nat, wins: nat, losses: nat, breakeven: int,
    grossProfit: real, grossLoss: real, gross: real, net: real, fees: real,
    winRate: Option<real>, profitFactor: Option<real>, expectancy: Option<real>, averageR: Option<real>,
    maxDrawdown: real, maxDrawdownPercent: real, returnPercent: real, counts: Counts,
    symbols: map<string, Slice>, directions: map<Direction, Slice>, journal: seq<JournalEntry>, curve: seq<EquityPoint>)

  /** Symbols are sliced as the request spells them. */
  function SymbolSlices(q: Request, es: seq<JournalEntry>): map<string, Slice> {
    map s | s in q.symbols :: PerformanceSlice(OfSymbol(es, s))
  }

  function DirectionSlices(es: seq<JournalEntry>): map<Direction, Slice> {
    map[Long := PerformanceSlice(OfDirection(es, Long)), Short := PerformanceSlice(OfDirection(es, Short))]
  }

  function ReturnPercent(starting: real, ending: real): real {
    if starting == 0.0 then 0.0 else Product(Ratio(ending - starting, starting), 100.0)
  }

  function Summarize(q: Request, a: Account, es: seq<JournalEntry>, curve: seq<EquityPoint>, counts: Counts): Summary {
    var wins, losses := Filter(IsWin, es), Filter(IsLoss, es);
    var profit, loss, net := Sum(EntryNet, wins), Sum(EntryNet, losses), Sum(EntryNet, es);
    Summary(a.starting, a.equity, |es|, |wins|, |losses|, |es| - |wins| - |losses|,
            profit, loss, Sum(EntryGross, es), net, Sum(EntryFees, es),
            Share(|wins| as real, |es|), ProfitFactor(profit, loss), Share(net, |es|), AverageMultiple(es),
            WorstDrawdown(curve), WorstPercent(curve), ReturnPercent(a.starting, a.equity), counts,
            SymbolSlices(q, es), DirectionSlices(es), es, curve)
  }

  function SummaryOf(cfg: Settings, q: Request, r: Replay): Summary {
    Summarize(q, r.book.account, Journal(Tail(r.book.closed, cfg.maxPaperTradeHistory), r.plans), r.curve, r.counts)
  }

  /** A whole backtest over the loaded candles of every symbol. */
  function RunBacktest(cfg: Settings, q: Request, cs: seq<Candle>, wall: nat -> int): Result<Summary, ReplayError> {
    var error := ValidateRequest(cfg, q);
    if error.Some? then Err(error.value)
    else
      match Replayed(ReplaySettings(cfg), ReplayFeed(q), q.start, Ordered(q, cs), wall)
      case Err(e) => Err(e)
      case Ok(r) => Ok(SummaryOf(ReplaySettings(cfg), q, r))
  }

  // ---------------------------------------------------------------------
  // The replay loop over the engines themselves
  // ---------------------------------------------------------------------

  /** The four engines and what the replay's callbacks collect from them. */
  class ReplaySession {
    const settings: Settings
    const feed: Feed
    const indicators: IndicatorEngine
    const strategy: StrategyEngine
    const risk: RiskEngine
    const paper: PaperExecutionEngine
    var plans: map<PlanId, Plan>
    var counts: Counts
    var peak: real
    var curve: seq<EquityPoint>

    ghost predicate Valid()
      reads this, indicators, indicators.Repr, paper, strategy, risk
    {
      && paper.repository == null
      && this !in indicators.Repr && strategy !in indicators.Repr && risk !in indicators.Repr
        && paper !in indicators.Repr
      && indicators.Valid() && paper.Valid()
      && indicators.settings == settings && strategy.settings == settings && risk.settings == settings
      && paper.settings == settings
    }

    ghost function View(): Replay
      requires Valid()
      reads this, indicators, indicators.Repr, paper, strategy, risk
    {
      Replay(indicators.View(), strategy.lastOpenTime, risk.lastOpenTime, risk.account, paper.View(), plans, counts,
             peak, curve)
    }

    constructor (settings: Settings, feed: Feed, start: int)
      ensures Valid() && View() == Initial(settings, start)
      ensures this.settings == settings && this.feed == feed
      ensures fresh(indicators) && fresh(indicators.Repr) && fresh(strategy) && fresh(risk) && fresh(paper)
    {
      this.settings := settings;
      this.feed := feed;
      indicators := new IndicatorEngine(settings);
      strategy := new StrategyEngine(settings);
      risk := new RiskEngine(settings);
      paper := new PaperExecutionEngine(settings, null, start);
      plans, counts, peak, curve := map[], NO_COUNTS, settings.backtestStartingBalance, [];
    }

    method HandlePlan(p: Plan, now: int)
      requires Valid()
      modifies this, paper
      ensures Valid() && View() == OnPlan(settings, old(View()), p, now)
    {
      var id := Identity(p);
      if id.Some? {
        plans := plans[id.value := p];
      }
      counts := CountPlan(counts, p);
      var _ := paper.Submit(p, now);
    }

    method MakePlan(s: Signal, now: int) returns (plan: Option<Plan>)
      requires Valid()
      modifies this, risk
      ensures Valid() && View() == Planned(settings, feed, old(View()), s, now).0
      ensures plan == Planned(settings, feed, old(View()), s, now).1
    {
      counts := CountSignal(counts, s.direction);
      plan := risk.Process(s, Some(feed), now);
    }

    method HandleSignal(s: Signal, now: int)
      requires Valid()
      modifies this, paper, risk
      ensures Valid() && View() == OnSignal(settings, feed, old(View()), s, now)
    {
      var plan := MakePlan(s, now);
      if plan.Some? {
        HandlePlan(plan.value, now);
      }
    }

    method HandleSnapshot(s: Snapshot, now: int, wall: int)
      requires Valid()
      modifies this, paper, risk, strategy
      ensures Valid() && View() == OnSnapshot(settings, feed, old(View()), s, now, wall)
    {
      var signal := strategy.Process(s, Some(feed), wall);
      if signal.Some? {
        HandleSignal(signal.value, now);
      }
    }

    method ExecuteCandle(c: Candle) returns (error: Option<ReplayError>)
      requires Valid()
      modifies this, paper, risk
      ensures Valid()
      ensures Execute(settings, feed, old(View()), c) == (if error.Some? then Err(error.value) else Ok(View()))
    {
      var report := paper.ProcessMarketCandle(c, Some(c.open), c.closeTime, feed);
      if report.Rejected? {
        return Some(EquityNotPositive);
      }
      if report.Told? {
        risk.ReplaceAccount(report.account);
      }
      error := None;
    }

    method AnalyseCandle(c: Candle, wall: int) returns (error: Option<ReplayError>)
      requires Valid()
      modifies this, paper, risk, strategy, indicators, indicators.Repr
      ensures Valid() && fresh(indicators.Repr - old(indicators.Repr))
      ensures Analyse(settings, feed, old(View()), c, wall) == (if error.Some? then Err(error.value) else Ok(View()))
    {
      var snapshot := indicators.ProcessCandle(c);
      if snapshot.Err? {
        return Some(CandleError(snapshot.error));
      }
      if snapshot.value.Some? {
        HandleSnapshot(snapshot.value.value, c.closeTime, wall);
      }
      error := None;
    }

    method RecordPoint(c: Candle)
      requires Valid()
      modifies this, paper
      ensures Valid() && View() == Record(old(View()), c)
    {
      var _ := paper.ResetDayIfNeeded(c.closeTime);
      var equity := paper.account.equity;
      peak := Max(peak, equity);
      curve := curve + [PointAt(c.closeTime, equity, peak)];
    }

    method ReplayOne(c: Candle, wall: int) returns (error: Option<ReplayError>)
      requires Valid()
      modifies this, paper, risk, strategy, indicators, indicators.Repr
      ensures Valid() && fresh(indicators.Repr - old(indicators.Repr))
      ensures Step(settings, feed, old(View()), c, wall) == (if error.Some? then Err(error.value) else Ok(View()))
    {
      error := ExecuteCandle(c);
      if error.None? {
        error := AnalyseCandle(c, wall);
        if error.None? {
          RecordPoint(c);
        }
      }
    }
  }

  lemma {:induction false} ErrorsStay(
    cfg: Settings, feed: Feed, start: int, cs: seq<Candle>, wall: nat -> int, n: nat, e: ReplayError)
    requires n <= |cs| && Replayed(cfg, feed, start, cs[..n], wall) == Err(e)
    ensures Replayed(cfg, feed, start, cs, wall) == Err(e)
    decreases |cs|
  {
    if n < |cs| {
      assert cs[..|cs| - 1][..n] == cs[..n];
      ErrorsStay(cfg, feed, start, cs[..|cs| - 1], wall, n, e);
    } else {
      assert cs[..n] == cs;
    }
  }

  /** The loop of the backtest engine: it stops at the first error, and otherwise has replayed every candle. */
  method ReplayAll(cfg: Settings, feed: Feed, start: int, cs: seq<Candle>, wall: nat -> int)
    returns (r: Result<ReplaySession, ReplayError>)
    ensures r.Ok? ==> r.value.Valid() && Replayed(cfg, feed, start, cs, wall) == Ok(r.value.View())
    ensures r.Err? ==> Replayed(cfg, feed, start, cs, wall) == Err(r.error)
  {
    var session := new ReplaySession(cfg, feed, start);
    for i := 0 to |cs|
      invariant session.Valid() && session.settings == cfg && session.feed == feed
      invariant fresh(session) && fresh(session.indicators) && fresh(session.indicators.Repr)
      invariant fresh(session.strategy) && fresh(session.risk) && fresh(session.paper)
      invariant Replayed(cfg, feed, start, cs[..i], wall) == Ok(session.View())
    {
      assert cs[..i + 1][..i] == cs[..i];
      var error := session.ReplayOne(cs[i], wall(i));
      if error.Some? {
        ErrorsStay(cfg, feed, start, cs, wall, i + 1, error.value);
        return Err(error.value);
      }
    }
    assert cs[..|cs|] == cs;
    r := Ok(session);
  }
}
