/**
 * The paper execution lifecycle on values: approved plans wait, fill, are marked, and close,
 * while the account moves.  `history` and `txns` grow for ever: every trade, and every write
 * to the durable store, in order.
 */
module Ledger {
  import opened Common
  import opened Tables
  import opened Sorting
  import opened Configuration
  import opened Market
  import opened Strategy
  import opened Risk

  // ---------------------------------------------------------------------
  // Records
  // ---------------------------------------------------------------------

  /** A plan, its position and its trade share one identity, built from the signal candle. */
  datatype PlanId = PlanId(symbol: string, timeframe: string, openTime: int)

  datatype Pending = Pending(id: PlanId, plan: Plan)

  /** What a position keeps from its fill to its close. */
  datatype Terms = Terms(
    direction: Direction, entryReference: real, entryFill: real, quantity: real, notional: real,
    stop: real, target: real, risk: real, entryFee: real)

  /** What every observation of the market rewrites. */
  datatype Mark = Mark(price: real, exitFee: real, gross: real, net: real)

  datatype PositionStatus = Open | RecoveryPending

  datatype Position = Position(
    id: PlanId, terms: Terms, mark: Mark, openedAt: int, signalTime: Option<int>,
    sourceOpen: int, sourceClose: int, lastProcessed: Option<int>, status: PositionStatus)

  datatype ExitReason = TakeProfit | StopLoss

  datatype Exit = Exit(trigger: real, reason: ExitReason)

  datatype Trade = Trade(
    id: PlanId, direction: Direction, entryFill: real, exitFill: real, quantity: real, risk: real,
    gross: real, fees: real, net: real, reason: ExitReason, openedAt: int, closedAt: int, signalTime: Option<int>)

  datatype Account = Account(
    starting: real, cash: real, equity: real, realized: real, realizedToday: real, gross: real, fees: real,
    openCount: nat, closedCount: nat, wins: nat, losses: nat, winRate: real, day: int)

  datatype Txn = PersistOpen(account: Account, position: Position)
               | PersistClose(account: Account, trade: Trade)
               | PersistAccount(account: Account)

  datatype RecoveryStatus = RecoveryComplete | RecoveryOutstanding | RecoveryFailed

  datatype Book = Book(
    account: Account, pending: seq<Pending>, open: seq<Position>, closed: seq<Trade>, seen: seq<PlanId>,
    recovery: RecoveryStatus, paused: bool, history: seq<Trade>, txns: seq<Txn>)

  function PendingKey(p: Pending): PlanId { p.id }
  function PositionKey(p: Position): PlanId { p.id }
  function TradeKey(t: Trade): PlanId { t.id }

  function NetOf(t: Trade): real { t.net }
  function GrossOf(t: Trade): real { t.gross }
  function FeesOf(t: Trade): real { t.fees }
  function EntryFeeOf(p: Position): real { p.terms.entryFee }
  function UnrealizedOf(p: Position): real { p.mark.net }

  // ---------------------------------------------------------------------
  // Fills
  // ---------------------------------------------------------------------

  /** Longs buy above the market and shorts sell below it. */
  function EntryFill(price: real, d: Direction, bps: real): real {
    Product(price, if d.Long? then 1.0 + bps / 10_000.0 else 1.0 - bps / 10_000.0)
  }

  /** Always adverse: a long sells lower, a short buys higher. */
  function ExitFill(trigger: real, d: Direction, bps: real): real {
    Product(trigger, if d.Long? then 1.0 - bps / 10_000.0 else 1.0 + bps / 10_000.0)
  }

  function Fee(notional: real, bps: real): real {
    BpsOf(notional, bps)
  }

  function GrossPnl(entry: real, exit: real, quantity: real, d: Direction): real {
    if d.Long? then Product(exit - entry, quantity) else Product(entry - exit, quantity)
  }

  // ---------------------------------------------------------------------
  // One position and one candle
  // ---------------------------------------------------------------------

  function MarkAt(cfg: Settings, t: Terms, price: real): Mark {
    var exitFee := Fee(Product(price, t.quantity), cfg.paperFeeBps);
    var gross := GrossPnl(t.entryFill, price, t.quantity, t.direction);
    Mark(price, exitFee, gross, gross - exitFee)
  }

  predicate StopHit(t: Terms, c: Candle) {
    if t.direction.Long? then c.low <= t.stop else c.high >= t.stop
  }

  predicate TargetHit(t: Terms, c: Candle) {
    if t.direction.Long? then c.high >= t.target else c.low <= t.target
  }

  /** A candle that opens beyond a level exits at its open, otherwise at the level. */
  function StopTrigger(t: Terms, c: Candle): real {
    if (t.direction.Long? && c.open <= t.stop) || (t.direction.Short? && c.open >= t.stop) then c.open else t.stop
  }

  function TargetTrigger(t: Terms, c: Candle): real {
    if (t.direction.Long? && c.open >= t.target) || (t.direction.Short? && c.open <= t.target) then c.open
    else t.target
  }

  /** When both levels lie inside the candle the stop wins. */
  function ExitOf(t: Terms, c: Candle): Option<Exit> {
    if StopHit(t, c) then Some(Exit(StopTrigger(t, c), StopLoss))
    else if TargetHit(t, c) then Some(Exit(TargetTrigger(t, c), TakeProfit))
    else None
  }

  function ExitFeeAt(cfg: Settings, t: Terms, fill: real): real {
    Fee(Product(fill, t.quantity), cfg.paperFeeBps)
  }

  function CloseTrade(cfg: Settings, p: Position, e: Exit, now: int): Trade {
    var t := p.terms;
    var fill := ExitFill(e.trigger, t.direction, cfg.exitSlippageBps);
    var gross := GrossPnl(t.entryFill, fill, t.quantity, t.direction);
    var fees := t.entryFee + ExitFeeAt(cfg, t, fill);
    Trade(p.id, t.direction, t.entryFill, fill, t.quantity, t.risk, gross, fees, gross - fees, e.reason,
          p.openedAt, now, p.signalTime)
  }

  // ---------------------------------------------------------------------
  // The account
  // ---------------------------------------------------------------------

  function NewAccount(starting: real, now: int): Account {
    Account(starting, starting, starting, 0.0, 0.0, 0.0, 0.0, 0, 0, 0, 0, 0.0, Day(now))
  }

  function Count(b: bool): nat {
    if b then 1 else 0
  }

  function ShareOf(wins: nat, closed: nat): (share: real)
    requires closed > 0
    ensures Product(share, closed as real) == wins as real
  {
    (wins as real) / (closed as real)
  }

  /** Equity becomes the cash alone: other open positions are not revalued here. */
  function AccountAfterClose(a: Account, t: Trade, exitFee: real, openCount: nat): Account {
    var cash := a.cash + t.gross - exitFee;
    var wins := a.wins + Count(t.net > 0.0);
    Account(a.starting, cash, cash, a.realized + t.net, a.realizedToday + t.net, a.gross + t.gross,
            a.fees + exitFee, openCount, a.closedCount + 1, wins, a.losses + Count(t.net < 0.0),
            ShareOf(wins, a.closedCount + 1), a.day)
  }

  function AccountAfterOpen(a: Account, entryFee: real, openCount: nat): Account {
    a.(cash := a.cash - entryFee, fees := a.fees + entryFee, openCount := openCount)
  }

  function Revalued(a: Account, open: seq<Position>): Account {
    a.(equity := a.cash + Sum(UnrealizedOf, open), openCount := |open|)
  }

  // ---------------------------------------------------------------------
  // Steps of the book
  // ---------------------------------------------------------------------

  function Opening(starting: real, now: int): Book {
    Book(NewAccount(starting, now), [], [], [], [], RecoveryComplete, false, [], [])
  }

  function Write(b: Book, t: Txn): Book {
    b.(txns := b.txns + [t])
  }

  function ResetDay(b: Book, now: int): Book {
    if b.account.day == Day(now) then b
    else
      var a := b.account.(day := Day(now), realizedToday := 0.0);
      Write(b.(account := a), PersistAccount(a))
  }

  function ClosePosition(cfg: Settings, b: Book, p: Position, e: Exit, now: int): (Book, Trade) {
    var t := CloseTrade(cfg, p, e, now);
    var open := Drop(PositionKey, b.open, p.id);
    (b.(open := open,
        closed := LastN(b.closed + [t], cfg.maxPaperTradeHistory),
        history := b.history + [t],
        account := AccountAfterClose(b.account, t, ExitFeeAt(cfg, p.terms, t.exitFill), |open|)),
     t)
  }

  function Marked(cfg: Settings, p: Position, c: Candle): Position {
    p.(mark := MarkAt(cfg, p.terms, c.close), lastProcessed := Some(c.closeTime))
  }

  function MarkPosition(cfg: Settings, b: Book, p: Position, c: Candle): Book {
    var open := Put(PositionKey, b.open, Marked(cfg, p, c));
    b.(open := open, account := Revalued(b.account, open))
  }

  /** The close if the candle reaches a level, and otherwise a new mark. */
  function UpdateOrClose(cfg: Settings, b: Book, p: Position, c: Candle, now: int): (Book, Option<Trade>) {
    match ExitOf(p.terms, c)
    case Some(e) =>
      var (closed, t) := ClosePosition(cfg, b, p, e, now);
      (closed, Some(t))
    case None => (MarkPosition(cfg, b, p, c), None)
  }

  /** A close is always written; a new mark only when the candle is complete. */
  function Observe(cfg: Settings, b: Book, p: Position, c: Candle, now: int): Book {
    var (next, t) := UpdateOrClose(cfg, b, p, c, now);
    if t.Some? then Write(next, PersistClose(next.account, t.value))
    else if c.isClosed then Write(next, PersistOpen(next.account, Marked(cfg, p, c)))
    else next
  }

  function ObserveAll(cfg: Settings, b: Book, ps: seq<Position>, c: Candle, now: int): Book
    decreases |ps|
  {
    if |ps| == 0 then b else ObserveAll(cfg, Observe(cfg, b, ps[0], c, now), ps[1..], c, now)
  }

  predicate ValidPlan(cfg: Settings, p: Plan, now: int) {
    && p.approved && !p.direction.NoTrade?
    && p.generatedAt.Some? && now - p.generatedAt.value <= 1000 * cfg.maxSignalAgeSeconds
    && p.entry.Some? && p.stop.Some? && p.target.Some? && p.quantity.Some? && p.actualRisk.Some?
    && p.sourceOpen.Some? && p.sourceClose.Some?
  }

  function Identity(p: Plan): Option<PlanId> {
    if p.sourceOpen.None? then None else Some(PlanId(p.symbol, p.timeframe, p.sourceOpen.value))
  }

  function FillTerms(cfg: Settings, p: Plan, price: real): Terms
    requires p.entry.Some? && p.stop.Some? && p.target.Some? && p.quantity.Some? && p.actualRisk.Some?
  {
    var fill := EntryFill(price, p.direction, cfg.entrySlippageBps);
    var notional := Product(fill, p.quantity.value);
    Terms(p.direction, p.entry.value, fill, p.quantity.value, notional, p.stop.value, p.target.value,
          p.actualRisk.value, Fee(notional, cfg.paperFeeBps))
  }

  function FillPosition(cfg: Settings, id: PlanId, p: Plan, c: Candle, price: real, now: int): Position
    requires ValidPlan(cfg, p, now)
  {
    var terms := FillTerms(cfg, p, price);
    Position(id, terms, MarkAt(cfg, terms, c.close), now, p.generatedAt, p.sourceOpen.value, p.sourceClose.value,
             Some(c.closeTime), Open)
  }

  function OpenPosition(b: Book, p: Position): Book {
    var open := Put(PositionKey, b.open, p);
    var a := AccountAfterOpen(b.account, p.terms.entryFee, |open|);
    b.(open := open, account := Revalued(a, open))
  }

  predicate MayFill(cfg: Settings, b: Book, p: Plan, now: int, feed: Feed) {
    ValidPlan(cfg, p, now) && feed.Healthy(p.symbol) && |b.open| < cfg.maxOpenPositions
  }

  /** A plan that may not fill is cancelled: either way it stops waiting. */
  function Fill(cfg: Settings, b: Book, w: Pending, c: Candle, price: real, now: int, feed: Feed): Book {
    var rest := Drop(PendingKey, b.pending, w.id);
    if MayFill(cfg, b, w.plan, now, feed) then
      var p := FillPosition(cfg, w.id, w.plan, c, price, now);
      var filled := OpenPosition(b, p).(pending := rest);
      Write(filled, PersistOpen(filled.account, p))
    else b.(pending := rest)
  }

  function FillAll(cfg: Settings, b: Book, ws: seq<Pending>, c: Candle, price: real, now: int, feed: Feed): Book
    decreases |ws|
  {
    if |ws| == 0 then b
    else if ws[0].plan.symbol != c.symbol then FillAll(cfg, b, ws[1..], c, price, now, feed)
    else FillAll(cfg, Fill(cfg, b, ws[0], c, price, now, feed), ws[1..], c, price, now, feed)
  }

  /** Whether any of the waiting plans opens a position; only then does filling raise an event. */
  predicate AnyFills(cfg: Settings, b: Book, ws: seq<Pending>, c: Candle, price: real, now: int, feed: Feed)
    decreases |ws|
  {
    |ws| > 0 &&
    if ws[0].plan.symbol != c.symbol then AnyFills(cfg, b, ws[1..], c, price, now, feed)
    else
      || MayFill(cfg, b, ws[0].plan, now, feed)
      || AnyFills(cfg, Fill(cfg, b, ws[0], c, price, now, feed), ws[1..], c, price, now, feed)
  }

  function PositionsOf(open: seq<Position>, symbol: string): seq<Position> {
    Filter((p: Position) => p.id.symbol == symbol, open)
  }

  /** An explicit price of zero counts as none, and the close is used instead. */
  function EntryPrice(c: Candle, entryPrice: Option<real>): real {
    if entryPrice.Some? && entryPrice.value != 0.0 then entryPrice.value else c.close
  }

  /** Existing positions see the candle first, then the plans that wait for its symbol. */
  function ProcessCandle(cfg: Settings, b: Book, c: Candle, entryPrice: Option<real>, now: int, feed: Feed): Book {
    var today := ResetDay(b, now);
    var observed := ObserveAll(cfg, today, PositionsOf(today.open, c.symbol), c, now);
    FillAll(cfg, observed, observed.pending, c, EntryPrice(c, entryPrice), now, feed)
  }

  /** Whether a candle changes the account, so that the risk engine is told. */
  predicate Changes(cfg: Settings, b: Book, c: Candle, entryPrice: Option<real>, now: int, feed: Feed) {
    var today := ResetDay(b, now);
    var existing := PositionsOf(today.open, c.symbol);
    var observed := ObserveAll(cfg, today, existing, c, now);
    || b.account.day != Day(now)
    || existing != []
    || AnyFills(cfg, observed, observed.pending, c, EntryPrice(c, entryPrice), now, feed)
  }

  function Remember(cfg: Settings, seen: seq<PlanId>, id: PlanId): seq<PlanId> {
    LastN(seen + [id], cfg.maxPaperTradeHistory * 2)
  }

  function ProcessPlan(cfg: Settings, b: Book, p: Plan, now: int): (Book, bool) {
    if Identity(p).None? then (b, false)
    else
      var id := Identity(p).value;
      var today := ResetDay(b, now);
      if !today.recovery.RecoveryComplete? || today.paused || id in today.seen then (today, false)
      else
        var noted := today.(seen := Remember(cfg, today.seen, id));
        if ValidPlan(cfg, p, now) then (noted.(pending := Put(PendingKey, noted.pending, Pending(id, p))), true)
        else (noted, false)
  }

  // ---------------------------------------------------------------------
  // What the risk engine is told; a missing result is a rejected account
  // ---------------------------------------------------------------------

  function RiskState(a: Account): Option<RiskAccount> {
    if a.equity > 0.0 then Some(AccountRecord(a.equity, a.realizedToday, a.openCount)) else None
  }

  /** What a candle tells the risk engine. */
  datatype Report = Unchanged | Told(account: RiskAccount) | Rejected

  function ReportOf(changed: bool, a: Account): Report {
    if !changed then Unchanged
    else
      match RiskState(a)
      case Some(r) => Told(r)
      case None => Rejected
  }

  // ---------------------------------------------------------------------
  // The durable store
  // ---------------------------------------------------------------------

  /** One session's rows; each transaction is applied whole or not at all. */
  datatype Store = Store(account: Option<Account>, positions: seq<Position>, trades: seq<Trade>)

  const EMPTY_STORE := Store(None, [], [])

  /** A trade row that already exists is kept as it is. */
  function Apply(s: Store, t: Txn): Store {
    match t
    case PersistOpen(a, p) => Store(Some(a), Put(PositionKey, s.positions, p), s.trades)
    case PersistClose(a, t) =>
      Store(Some(a), Drop(PositionKey, s.positions, t.id),
            if Has(TradeKey, s.trades, t.id) then s.trades else s.trades + [t])
    case PersistAccount(a) => s.(account := Some(a))
  }

  function ApplyAll(s: Store, ts: seq<Txn>): Store {
    if |ts| == 0 then s else Apply(ApplyAll(s, ts[..|ts| - 1]), ts[|ts| - 1])
  }

  // ---------------------------------------------------------------------
  // Recovery after a restart
  // ---------------------------------------------------------------------

  function Awaiting(ps: seq<Position>): (r: seq<Position>)
    ensures |r| == |ps| && forall i :: 0 <= i < |ps| ==> r[i] == ps[i].(status := RecoveryPending)
  {
    seq(|ps|, i requires 0 <= i < |ps| => ps[i].(status := RecoveryPending))
  }

  /** The rows may come back in any order; `positions` and `trades` are that order. */
  function Restore(
    cfg: Settings, b: Book, account: Option<Account>, positions: seq<Position>, trades: seq<Trade>): Book
  {
    var a := if account.Some? then account.value else b.account;
    b.(open := Awaiting(positions),
       closed := LastN(b.closed + LastN(trades, cfg.maxPaperTradeHistory), cfg.maxPaperTradeHistory),
       history := b.history + trades,
       account := a.(openCount := |positions|),
       recovery := if positions == [] then RecoveryComplete else RecoveryOutstanding)
  }

  predicate OpensNoLater(c: Candle, d: Candle) {
    c.openTime <= d.openTime
  }

  function Watermark(p: Position): int {
    if p.lastProcessed.Some? then p.lastProcessed.value else p.sourceClose
  }

  /** The candles that closed after `mark`. */
  function Unseen(mark: int, cs: seq<Candle>): seq<Candle> {
    if |cs| == 0 then []
    else
      var front := Unseen(mark, cs[..|cs| - 1]);
      if cs[|cs| - 1].closeTime > mark then front + [cs[|cs| - 1]] else front
  }

  /** The candles that closed after the position was last written, oldest first. */
  function Missed(p: Position, cs: seq<Candle>): seq<Candle> {
    Sort(OpensNoLater, Unseen(Watermark(p), cs))
  }

  function RecoverCandle(cfg: Settings, b: Book, id: PlanId, c: Candle, now: int): Book {
    var i := Find(PositionKey, b.open, id);
    if i == |b.open| then b
    else
      var (next, t) := UpdateOrClose(cfg, b, b.open[i], c, now);
      if t.Some? then Write(next, PersistClose(next.account, t.value)) else next
  }

  function RecoverCandles(cfg: Settings, b: Book, id: PlanId, cs: seq<Candle>, now: int): Book
    decreases |cs|
  {
    if |cs| == 0 then b else RecoverCandles(cfg, RecoverCandle(cfg, b, id, cs[0], now), id, cs[1..], now)
  }

  function MarkRecovered(b: Book, id: PlanId): Book {
    var i := Find(PositionKey, b.open, id);
    if i == |b.open| then b else b.(open := b.open[i := b.open[i].(status := Open)])
  }

  function RecoverPosition(cfg: Settings, b: Book, p: Position, cs: seq<Candle>, now: int): Book {
    MarkRecovered(RecoverCandles(cfg, b, p.id, Missed(p, cs), now), p.id)
  }

  /** A symbol and timeframe with no answer is a failed download, and stops the recovery. */
  function RecoverAll(
    cfg: Settings, b: Book, ps: seq<Position>, fetch: Key -> Option<seq<Candle>>, now: int): (Book, bool)
    decreases |ps|
  {
    if |ps| == 0 then (b, true)
    else
      match fetch(Key(ps[0].id.symbol, ps[0].id.timeframe))
      case None => (b, false)
      case Some(cs) => RecoverAll(cfg, RecoverPosition(cfg, b, ps[0], cs, now), ps[1..], fetch, now)
  }

  /** The status is complete and the account written before the risk engine may refuse the account. */
  function Completed(b: Book): Book {
    var written := Write(b.(recovery := RecoveryComplete), PersistAccount(b.account));
    if RiskState(written.account).None? then written.(recovery := RecoveryFailed) else written
  }

  function Reconcile(cfg: Settings, b: Book, fetch: Key -> Option<seq<Candle>>, now: int): Book {
    if !b.recovery.RecoveryOutstanding? then b
    else
      var (done, ok) := RecoverAll(cfg, b, b.open, fetch, now);
      if ok then Completed(done) else done.(recovery := RecoveryFailed)
  }
}
