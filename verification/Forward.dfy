/**
 * The platform running forward: candles go through every engine, entries are paused and
 * released, accounts are read, and the process crashes between any two writes and restarts
 * from its store.  Nothing is assumed of the candles, the clocks or the verdicts.
 */
module Forward {
  import opened Common
  import opened Configuration
  import opened Market
  import opened Indicators
  import opened Sorting
  import opened Strategy
  import opened Risk
  import opened Ledger
  import opened Session

  // ---------------------------------------------------------------------
  // The platform
  // ---------------------------------------------------------------------

  /** What the engines in front of the ledger remember; none of it is stored. */
  datatype Engines = Engines(
    states: map<Key, IndicatorState>, strategyMarks: map<Key, int>, riskMarks: map<Key, int>, riskAccount: RiskAccount)

  /** The fate of every identity ever accepted that is not in the book; nobody writes this down. */
  datatype Records = Records(accepted: multiset<PlanId>, cancelled: multiset<PlanId>, lost: multiset<PlanId>)

  /** `up` is false when the start failed, because the restored account was refused. */
  datatype Platform = Platform(up: bool, base: Store, engines: Engines, book: Book, records: Records)

  /** The feed and the clocks as the strategy, the risk engine and the ledger read them. */
  datatype Moment = Moment(feed: Feed, riskFeed: Feed, wall: int, riskNow: int, paperNow: int)

  datatype Event =
    | Ingest(candle: Candle, feed: Feed, now: int, verdict: Option<bool>, moment: Moment)
    | SetEntries(paused: bool)
    | ReadBook(now: int)
    | Reconciling(fetch: Key -> Option<seq<Candle>>, now: int)
    | Restart(survived: nat, listing: Store, now: int, warm: string -> Option<seq<Candle>>)

  // ---------------------------------------------------------------------
  // One candle
  // ---------------------------------------------------------------------

  /** Plans of the candle's symbol that wait in `ws` and do not fill. */
  function CancelledIn(
    cfg: Settings, b: Book, ws: seq<Pending>, c: Candle, price: real, now: int, feed: Feed): multiset<PlanId>
    decreases |ws|
  {
    if |ws| == 0 then multiset{}
    else if ws[0].plan.symbol != c.symbol then CancelledIn(cfg, b, ws[1..], c, price, now, feed)
    else
      CancelledIn(cfg, Fill(cfg, b, ws[0], c, price, now, feed), ws[1..], c, price, now, feed)
      + (if MayFill(cfg, b, ws[0].plan, now, feed) then multiset{} else multiset{ws[0].id})
  }

  function CancelledBy(cfg: Settings, b: Book, c: Candle, now: int, feed: Feed): multiset<PlanId> {
    var today := ResetDay(b, now);
    var observed := ObserveAll(cfg, today, PositionsOf(today.open, c.symbol), c, now);
    CancelledIn(cfg, observed, observed.pending, c, EntryPrice(c, None), now, feed)
  }

  function ReportBy(cfg: Settings, b: Book, c: Candle, now: int, feed: Feed): Report {
    ReportOf(Changes(cfg, b, c, None, now, feed), ProcessCandle(cfg, b, c, None, now, feed).account)
  }

  function Hear(e: Engines, report: Report): Engines {
    if report.Told? then e.(riskAccount := report.account) else e
  }

  /** Positions and waiting plans see the candle, open or closed; fills are at its close. */
  function Watched(cfg: Settings, w: Platform, c: Candle, now: int, feed: Feed): Platform {
    w.(book := ProcessCandle(cfg, w.book, c, None, now, feed),
       engines := Hear(w.engines, ReportBy(cfg, w.book, c, now, feed)),
       records := w.records.(cancelled := w.records.cancelled + CancelledBy(cfg, w.book, c, now, feed)))
  }

  function Submitted(cfg: Settings, w: Platform, p: Plan, now: int): Platform {
    var (book, accepted) := ProcessPlan(cfg, w.book, p, now);
    var added := if accepted then multiset{Identity(p).value} else multiset{};
    w.(book := book, records := w.records.(accepted := w.records.accepted + added))
  }

  function Signalling(cfg: Settings, w: Platform, s: Signal, m: Moment): Platform {
    var (marks, plan) := ProcessSignal(cfg, w.engines.riskMarks, w.engines.riskAccount, s, Some(m.riskFeed), m.riskNow);
    var marked := w.(engines := w.engines.(riskMarks := marks));
    if plan.Some? then Submitted(cfg, marked, plan.value, m.paperNow) else marked
  }

  function Snapshotted(cfg: Settings, w: Platform, s: Snapshot, m: Moment): Platform {
    var (marks, signal) := ProcessSnapshot(cfg, w.engines.strategyMarks, s, Some(m.feed), m.wall);
    var marked := w.(engines := w.engines.(strategyMarks := marks));
    if signal.Some? then Signalling(cfg, marked, signal.value, m) else marked
  }

  /** What the indicators make of a candle: nothing, new states, or a snapshot as well. */
  function Learned(
    cfg: Settings, w: Platform, r: Result<(map<Key, IndicatorState>, Option<Snapshot>), MarketError>,
    m: Moment): Platform
  {
    match r
    case Err(_) => w
    case Ok(p) =>
      var known := w.(engines := w.engines.(states := p.0));
      if p.1.Some? then Snapshotted(cfg, known, p.1.value, m) else known
  }

  /** A closed candle goes on to the indicators, and from there to the strategy, the risk engine and the ledger. */
  function Analysed(cfg: Settings, w: Platform, c: Candle, m: Moment): Platform {
    Learned(cfg, w, Process(cfg, w.engines.states, c), m)
  }

  /** The plan that analysing a candle submits, if any. */
  function Proposed(
    cfg: Settings, e: Engines, r: Result<(map<Key, IndicatorState>, Option<Snapshot>), MarketError>,
    m: Moment): Option<Plan>
  {
    if r.Err? || r.value.1.None? then None
    else
      var signal := ProcessSnapshot(cfg, e.strategyMarks, r.value.1.value, Some(m.feed), m.wall).1;
      if signal.None? then None
      else ProcessSignal(cfg, e.riskMarks, e.riskAccount, signal.value, Some(m.riskFeed), m.riskNow).1
  }

  function PlanFor(cfg: Settings, e: Engines, c: Candle, m: Moment): Option<Plan> {
    Proposed(cfg, e, Process(cfg, e.states, c), m)
  }

  /** A close may lead to a verdict on the session before the candle is analysed. */
  function Judged(w: Platform, verdict: Option<bool>): Platform {
    if verdict.Some? then w.(book := w.book.(paused := verdict.value)) else w
  }

  /** The candle is not complete, or the account was refused. */
  predicate StopsAt(cfg: Settings, w: Platform, c: Candle, now: int, feed: Feed) {
    !c.isClosed || ReportBy(cfg, w.book, c, now, feed).Rejected?
  }

  /** An invalid candle is dropped; a refused account raises before the analysis. */
  function Ingested(
    cfg: Settings, w: Platform, c: Candle, feed: Feed, now: int, verdict: Option<bool>, m: Moment): Platform
  {
    if ValidateCandle(c, cfg.symbols, cfg.defaultTimeframe).Some? then w
    else
      var seen := Judged(Watched(cfg, w, c, now, feed), verdict);
      if StopsAt(cfg, w, c, now, feed) then seen else Analysed(cfg, seen, c, m)
  }

  // ---------------------------------------------------------------------
  // Starting
  // ---------------------------------------------------------------------

  /** Candles fed to the indicators until one of them is refused. */
  function Warmed(cfg: Settings, states: map<Key, IndicatorState>, cs: seq<Candle>): map<Key, IndicatorState>
    decreases |cs|
  {
    if |cs| == 0 then states
    else
      match Process(cfg, states, cs[0])
      case Err(_) => states
      case Ok(p) => Warmed(cfg, p.0, cs[1..])
  }

  /** Best effort: a failed download leaves its symbol cold.  The history is sorted by opening time. */
  function WarmUp(
    cfg: Settings, states: map<Key, IndicatorState>, symbols: seq<string>, warm: string -> Option<seq<Candle>>)
    : map<Key, IndicatorState>
    decreases |symbols|
  {
    if |symbols| == 0 then states
    else
      var next := match warm(symbols[0])
                  case None => states
                  case Some(cs) => Warmed(cfg, states, Sort(OpensNoLater, cs));
      WarmUp(cfg, next, symbols[1..], warm)
  }

  /** The restored account reaches the risk engine first; if it is refused, the start fails. */
  function Started(
    cfg: Settings, listing: Store, now: int, warm: string -> Option<seq<Candle>>, records: Records): Platform
  {
    var loaded := Startup(cfg, listing, now);
    var told := RiskState(loaded.book.account);
    Platform(told.Some?, loaded.base,
             Engines(WarmUp(cfg, map[], cfg.symbols, warm), map[], map[],
                     if told.Some? then told.value else AccountRecord(cfg.startingBalance, 0.0, 0)),
             loaded.book, records)
  }

  // ---------------------------------------------------------------------
  // Identities
  // ---------------------------------------------------------------------

  function Keys<T, K>(key: T -> K, rows: seq<T>): (r: seq<K>)
    ensures |r| == |rows| && forall i :: 0 <= i < |rows| ==> r[i] == key(rows[i])
  {
    seq(|rows|, i requires 0 <= i < |rows| => key(rows[i]))
  }

  function WaitingOf(b: Book): multiset<PlanId> { multiset(Keys(PendingKey, b.pending)) }
  function OpenOf(b: Book): multiset<PlanId> { multiset(Keys(PositionKey, b.open)) }
  function ClosedOf(b: Book): multiset<PlanId> { multiset(Keys(TradeKey, b.history)) }

  /** Every identity that is a position or a trade. */
  function Used(b: Book): multiset<PlanId> { OpenOf(b) + ClosedOf(b) }

  /** Every identity in the book, waiting, open or closed. */
  function Live(b: Book): multiset<PlanId> { WaitingOf(b) + Used(b) }

  function StoredKeys(s: Store): multiset<PlanId> {
    multiset(Keys(PositionKey, s.positions)) + multiset(Keys(TradeKey, s.trades))
  }

  /** What the restart loses: identities in memory of which nothing was stored. */
  function Lose(r: Records, b: Book, listing: Store): Records {
    r.(lost := r.lost + (Live(b) - StoredKeys(listing)))
  }

  ghost function Next(cfg: Settings, w: Platform, a: Event): Platform {
    if !w.up && !a.Restart? then w
    else
      match a
      case Ingest(c, feed, now, verdict, m) => Ingested(cfg, w, c, feed, now, verdict, m)
      case SetEntries(paused) => Judged(w, Some(paused))
      case ReadBook(now) => w.(book := ResetDay(w.book, now))
      case Reconciling(fetch, now) => Recovered(cfg, w, fetch, now)
      case Restart(_, listing, now, warm) => Started(cfg, listing, now, warm, Lose(w.records, w.book, listing))
  }

  /** A recovery that completes tells the risk engine. */
  ghost function Recovered(cfg: Settings, w: Platform, fetch: Key -> Option<seq<Candle>>, now: int): Platform {
    var book := Reconcile(cfg, w.book, fetch, now);
    var completed := w.book.recovery.RecoveryOutstanding? && book.recovery.RecoveryComplete?;
    w.(book := book, engines := Hear(w.engines, ReportOf(completed, book.account)))
  }

  // ---------------------------------------------------------------------
  // Runs
  // ---------------------------------------------------------------------

  /** A restart finds what some prefix of the writes has left, in any order. */
  ghost predicate Permitted(w: Platform, a: Event) {
    a.Restart? ==>
      a.survived <= |w.book.txns| && SameStore(ApplyAll(w.base, w.book.txns[..a.survived]), a.listing)
  }

  /** Each world follows from the one before it. */
  ghost predicate Chained(cfg: Settings, events: seq<Event>, ws: seq<Platform>) {
    && |ws| == |events| + 1
    && forall i :: 0 <= i < |events| ==> Permitted(ws[i], events[i]) && ws[i + 1] == Next(cfg, ws[i], events[i])
  }

  const NO_RECORDS := Records(multiset{}, multiset{}, multiset{})

  ghost predicate IsForwardRun(
    cfg: Settings, start: int, warm: string -> Option<seq<Candle>>, events: seq<Event>, ws: seq<Platform>)
  {
    Chained(cfg, events, ws) && ws[0] == Started(cfg, EMPTY_STORE, start, warm, NO_RECORDS)
  }
}
