/**
 * One small forward run, carried through every engine by hand: a trade is made and closed, the
 * process restarts, its warm-up fails, and the feed delivers two candles again that were already
 * analysed.  The identity that was traded is accepted a second time.
 */
module ForwardSample {
  import opened Common
  import opened Tables
  import opened Configuration
  import opened Market
  import opened Indicators
  import opened Strategy
  import opened Risk
  import opened RiskGuarantees
  import opened Ledger
  import opened LedgerInvariants
  import opened Durability
  import opened BacktestInvariants
  import opened BacktestSample
  import opened Forward
  import opened ForwardRuns

  const FEED := Feed(Connected, map[])

  /** All clocks agree. */
  function Clocks(at: int): Moment {
    Moment(FEED, FEED, at, at, at)
  }

  function Arrives(c: Candle, at: int): Event {
    Ingest(c, FEED, at, None, Clocks(at))
  }

  /** Two candles seen while they form: the first at 102, the second once it has touched 111. */
  const FILLING := ENTRY.(close := 102.0, isClosed := false)
  const TOUCHING := REACH.(isClosed := false)

  /** Every download fails. */
  function Cold(symbol: string): Option<seq<Candle>> {
    None
  }

  // ---------------------------------------------------------------------
  // Putting runs together
  // ---------------------------------------------------------------------

  lemma {:induction false} ChainOfOne(cfg: Settings, w: Platform, a: Event)
    requires Permitted(w, a)
    ensures Chained(cfg, [a], [w, Forward.Next(cfg, w, a)])
  {
  }

  lemma {:induction false} StepsJoin<W(!new), E(!new)>(
    step: (W, E, W) -> bool, xs: seq<E>, ws: seq<W>, ys: seq<E>, vs: seq<W>)
    requires |ws| == |xs| + 1 && |vs| == |ys| + 1 && ws[|xs|] == vs[0]
    requires forall i :: 0 <= i < |xs| ==> step(ws[i], xs[i], ws[i + 1])
    requires forall i :: 0 <= i < |ys| ==> step(vs[i], ys[i], vs[i + 1])
    ensures forall i :: 0 <= i < |xs + ys| ==> step((ws + vs[1..])[i], (xs + ys)[i], (ws + vs[1..])[i + 1])
  {
    var events, all := xs + ys, ws + vs[1..];
    forall i | 0 <= i < |events| ensures step(all[i], events[i], all[i + 1]) {
      if i < |xs| {
        assert all[i] == ws[i] && all[i + 1] == ws[i + 1] && events[i] == xs[i];
      } else {
        var k := i - |xs|;
        assert all[i] == vs[k] && all[i + 1] == vs[k + 1] && events[i] == ys[k];
      }
    }
  }

  lemma {:induction false} ChainsJoin(
    cfg: Settings, xs: seq<Event>, ws: seq<Platform>, ys: seq<Event>, vs: seq<Platform>)
    requires Chained(cfg, xs, ws) && Chained(cfg, ys, vs) && ws[|xs|] == vs[0]
    ensures Chained(cfg, xs + ys, ws + vs[1..])
  {
    StepsJoin((w: Platform, a: Event, x: Platform) => Permitted(w, a) && x == Forward.Next(cfg, w, a), xs, ws, ys, vs);
  }

  // ---------------------------------------------------------------------
  // Candles that meet nothing
  // ---------------------------------------------------------------------

  ghost predicate Still(b: Book, at: int) {
    b.open == [] && b.pending == [] && b.account.day == Day(at)
  }

  lemma {:induction false} NothingToWatch(cfg: Settings, w: Platform, c: Candle, at: int, feed: Feed)
    requires Still(w.book, at)
    ensures Watched(cfg, w, c, at, feed) == w && ReportBy(cfg, w.book, c, at, feed) == Unchanged
  {
    assert PositionsOf([], c.symbol) == [];
    assert w.records.cancelled + multiset{} == w.records.cancelled;
  }

  lemma {:induction false} OnlyAnalysed(cfg: Settings, w: Platform, c: Candle, at: int)
    requires w.up && Still(w.book, at) && c.isClosed
    requires ValidateCandle(c, cfg.symbols, cfg.defaultTimeframe).None?
    ensures Forward.Next(cfg, w, Arrives(c, at)) == Analysed(cfg, w, c, Clocks(at))
  {
    NothingToWatch(cfg, w, c, at, FEED);
  }

  lemma {:induction false} SampleCandles()
    ensures ValidateCandle(FLAT, SMALL.symbols, SMALL.defaultTimeframe).None?
    ensures ValidateCandle(RISE, SMALL.symbols, SMALL.defaultTimeframe).None?
    ensures ValidateCandle(FILLING, SMALL.symbols, SMALL.defaultTimeframe).None?
    ensures ValidateCandle(TOUCHING, SMALL.symbols, SMALL.defaultTimeframe).None?
    ensures FLAT.isClosed && RISE.isClosed
  {
  }

  // ---------------------------------------------------------------------
  // Two complete candles
  // ---------------------------------------------------------------------

  /** Nothing has been analysed yet. */
  ghost predicate ColdEngines(e: Engines) {
    e.states == map[] && e.strategyMarks == map[] && e.riskMarks == map[] && Unscathed(e.riskAccount)
  }

  /** The first candle has been analysed. */
  ghost predicate OneAnalysed(e: Engines) {
    && e.states == map[BTC_KEY := AFTER_FLAT] && Unscathed(e.riskAccount)
    && e.strategyMarks == map[BTC_KEY := 0] && e.riskMarks == map[BTC_KEY := 0]
  }

  /** A snapshot that is not ready leaves marks and a refused identity, and nothing else. */
  lemma {:induction false} UnreadySnapshot(cfg: Settings, w: Platform, s: Snapshot, c: Candle, at: int)
    requires !s.ready && NamesSnapshot(c, s) && w.book.account.day == Day(at) && FEED.Healthy(c.symbol)
    requires w.engines.strategyMarks == map[] && w.engines.riskMarks == map[] && w.book.seen == []
    ensures var next := Snapshotted(cfg, w, s, Clocks(at));
            && next == w.(book := w.book.(seen := next.book.seen),
                          engines := w.engines.(strategyMarks := map[KeyOf(c) := c.openTime],
                                                riskMarks := map[KeyOf(c) := c.openTime]))
            && forall id :: id in next.book.seen ==> id == IdOf(c)
  {
    var signal := BuildSignal(cfg, s, Some(FEED), at);
    var p := BuildPlan(cfg, signal, Some(FEED), w.engines.riskAccount, at);
    assert !p.approved;
    PlanNamesCandle(cfg, c, signal, Some(FEED), w.engines.riskAccount, at);
    RejectedLeavesBook(cfg, w.book, p, at);
    PlanOnlyWaits(cfg, w.book, p, at);
    assert w.records.accepted + multiset{} == w.records.accepted;
  }

  lemma {:induction false} FlatArrives(w: Platform, at: int) returns (a: Event, next: Platform)
    requires w.up && Still(w.book, at) && ColdEngines(w.engines) && w.book.seen == []
    ensures a.Ingest? && a.candle == FLAT && Chained(SMALL, [a], [w, next]) && next.up && next.base == w.base
    ensures OneAnalysed(next.engines) && next.engines.riskAccount == w.engines.riskAccount
    ensures next.book == w.book.(seen := next.book.seen) && ID !in next.book.seen && next.records == w.records
  {
    SampleCandles();
    OnlyAnalysed(SMALL, w, FLAT, at);
    FlatIsProcessed(map[]);
    FlatAdvances();
    var s := Advance(SMALL, INITIAL, FLAT).1;
    var known := w.(engines := w.engines.(states := map[BTC_KEY := AFTER_FLAT]));
    UnreadySnapshot(SMALL, known, s, FLAT, at);
    next := Snapshotted(SMALL, known, s, Clocks(at));
    a := Arrives(FLAT, at);
    ChainOfOne(SMALL, w, a);
  }

  /** From a snapshot past both watermarks to its plan: stated of any settings, so that nothing is computed here. */
  lemma {:induction false} SnapshotIsPlanned(cfg: Settings, e: Engines, c: Candle, s: Snapshot, signal: Signal, at: int)
    requires Process(cfg, e.states, c).Ok? && Process(cfg, e.states, c).value.1 == Some(s) && NamesSnapshot(c, s)
    requires Passes(e.strategyMarks, KeyOf(c), Some(c.openTime)) && Passes(e.riskMarks, KeyOf(c), Some(c.openTime))
    requires BuildSignal(cfg, s, Some(FEED), at) == signal
    ensures PlanFor(cfg, e, c, Clocks(at)) == Some(BuildPlan(cfg, signal, Some(FEED), e.riskAccount, at))
  {
  }

  lemma {:induction false} ApprovedIsValid(cfg: Settings, s: Signal, a: RiskAccount, at: int) returns (p: Plan)
    requires Approvable(cfg, s, Some(FEED), a, at)
    ensures p == BuildPlan(cfg, s, Some(FEED), a, at) && ValidPlan(cfg, p, at)
    ensures Identity(p) == Some(PlanId(s.symbol, s.timeframe, s.openTime.value))
  {
    ApprovedTerms(cfg, s, Some(FEED), a, at);
    p := BuildPlan(cfg, s, Some(FEED), a, at);
  }

  lemma {:induction false} RiseIsPlanned(e: Engines, at: int) returns (p: Plan)
    requires OneAnalysed(e)
    ensures PlanFor(SMALL, e, RISE, Clocks(at)) == Some(p) && ValidPlan(SMALL, p, at) && Identity(p) == Some(ID)
    ensures p == BuildPlan(SMALL, SignalAt(at), Some(FEED), e.riskAccount, at)
  {
    RiseIsProcessed(e.states);
    ReadySignals(FEED, at);
    SignalIsApprovable(FEED, e.riskAccount, at, at);
    p := ApprovedIsValid(SMALL, SignalAt(at), e.riskAccount, at);
    SnapshotIsPlanned(SMALL, e, RISE, READY, SignalAt(at), at);
  }

  lemma {:induction false} PlannedIsQueued(
    cfg: Settings, w: Platform, c: Candle, at: int, p: Plan) returns (next: Platform)
    requires w.up && Still(w.book, at) && c.isClosed && ValidateCandle(c, cfg.symbols, cfg.defaultTimeframe).None?
    requires PlanFor(cfg, w.engines, c, Clocks(at)) == Some(p) && Accepts(cfg, w.book, p, at)
    ensures Chained(cfg, [Arrives(c, at)], [w, next]) && next.up && next.base == w.base
    ensures next.book == w.book.(seen := next.book.seen, pending := [Pending(Identity(p).value, p)])
  {
    OnlyAnalysed(cfg, w, c, at);
    var q := AnalysisAdvances(cfg, w, c, Clocks(at));
    next := Analysed(cfg, w, c, Clocks(at));
    ChainOfOne(cfg, w, Arrives(c, at));
    QueuedAlone(cfg, w.book, p, at);
  }

  lemma {:induction false} RiseArrives(w: Platform, at: int) returns (a: Event, next: Platform, p: Plan)
    requires w.up && Still(w.book, at) && OneAnalysed(w.engines) && w.book.recovery.RecoveryComplete? && !w.book.paused
    requires ID !in w.book.seen
    ensures a.Ingest? && a.candle == RISE && Chained(SMALL, [a], [w, next]) && next.up && next.base == w.base
    ensures next.book == w.book.(seen := next.book.seen, pending := [Pending(ID, p)])
    ensures p == BuildPlan(SMALL, SignalAt(at), Some(FEED), w.engines.riskAccount, at)
  {
    SampleCandles();
    p := RiseIsPlanned(w.engines, at);
    a := Arrives(RISE, at);
    next := PlannedIsQueued(SMALL, w, RISE, at, p);
  }

  lemma {:induction false} QueuedAlone(cfg: Settings, b: Book, p: Plan, at: int)
    requires Still(b, at) && Accepts(cfg, b, p, at)
    ensures var next := ProcessPlan(cfg, b, p, at).0;
            next == b.(seen := next.seen, pending := [Pending(Identity(p).value, p)])
  {
    assert Put(PendingKey, [], Pending(Identity(p).value, p)) == [Pending(Identity(p).value, p)];
  }

  // ---------------------------------------------------------------------
  // Two forming candles
  // ---------------------------------------------------------------------

  lemma {:induction false} OnlyWatched(cfg: Settings, w: Platform, c: Candle, at: int)
    requires w.up && !c.isClosed && ValidateCandle(c, cfg.symbols, cfg.defaultTimeframe).None?
    ensures var next := Forward.Next(cfg, w, Arrives(c, at));
            && next.up && next.base == w.base
            && next.book == ProcessCandle(cfg, w.book, c, None, at, FEED)
  {
  }

  lemma {:induction false} FillingAmounts(p: Plan)
    requires IsThePlan(p)
    ensures FillTerms(SMALL, p, FILLING.close) == TERMS && FILLING.symbol == BTC
  {
    SmallHasNoCosts();
    TermsWithoutCosts(SMALL, p);
  }

  lemma {:induction false} FillsAtClose(cfg: Settings, b: Book, plan: Plan, c: Candle, at: int) returns (p: Position)
    requires AfterRise(b, plan) && MayFill(cfg, b, plan, at, FEED) && FillTerms(cfg, plan, c.close) == TERMS
    requires c.symbol == BTC && Day(at) == 0
    ensures var next := ProcessCandle(cfg, b, c, None, at, FEED);
            && Holding(next, p, MarkAt(cfg, TERMS, c.close).net) && next.txns == b.txns + [PersistOpen(next.account, p)]
            && next.recovery == b.recovery && next.paused == b.paused
  {
    OnlyFills(cfg, b, Pending(ID, plan), c, None, at, FEED);
    FillIsHeld(cfg, b, plan, c, c.close, at, FEED);
    p := FillPosition(cfg, ID, plan, c, c.close, at);
    WrittenFill(cfg, b, Pending(ID, plan), c, c.close, at, FEED, p);
  }

  lemma {:induction false} FillingArrives(w: Platform, plan: Plan)
    returns (a: Event, next: Platform, p: Position, net: real)
    requires w.up && AfterRise(w.book, plan)
    ensures a.Ingest? && Chained(SMALL, [a], [w, next]) && next.up && next.base == w.base
    ensures Holding(next.book, p, net) && next.book.txns == w.book.txns + [PersistOpen(next.book.account, p)]
  {
    SampleCandles();
    a := Arrives(FILLING, 179_999);
    OnlyWatched(SMALL, w, FILLING, 179_999);
    FillingAmounts(plan);
    PlanMayFill(FEED, w.book, plan);
    p := FillsAtClose(SMALL, w.book, plan, FILLING, 179_999);
    net := MarkAt(SMALL, TERMS, FILLING.close).net;
    next := Forward.Next(SMALL, w, a);
    ChainOfOne(SMALL, w, a);
  }

  lemma {:induction false} TouchIsReached(p: Position)
    requires p.terms == TERMS
    ensures ExitOf(p.terms, TOUCHING) == Some(Exit(110.0, TakeProfit)) && TOUCHING.symbol == BTC
  {
    TargetIsReached(p);
  }

  /** After the trade: nothing is open, a hundred has become a hundred and one, and both are written. */
  ghost predicate Traded(b: Book, t: Trade) {
    && b.open == [] && b.pending == [] && b.history == [t] && t.id == ID
    && b.account.equity == 101.0 && b.account.realizedToday == 1.0 && b.account.openCount == 0 && b.account.day == 0
  }

  lemma {:induction false} TouchingArrives(w: Platform, p: Position, net: real)
    returns (a: Event, next: Platform, t: Trade)
    requires w.up && Holding(w.book, p, net)
    ensures a.Ingest? && Chained(SMALL, [a], [w, next]) && next.up && next.base == w.base
    ensures Traded(next.book, t) && next.book.txns == w.book.txns + [PersistClose(next.book.account, t)]
  {
    SampleCandles();
    a := Arrives(TOUCHING, 239_999);
    OnlyWatched(SMALL, w, TOUCHING, 239_999);
    TouchIsReached(p);
    TargetIsTraded(w.book, p, net);
    OnlyCloses(SMALL, w.book, p, TOUCHING, None, 239_999, FEED);
    t := ClosePosition(SMALL, w.book, p, Exit(110.0, TakeProfit), 239_999).1;
    next := Forward.Next(SMALL, w, a);
    ChainOfOne(SMALL, w, a);
  }

  // ---------------------------------------------------------------------
  // The restart
  // ---------------------------------------------------------------------

  lemma {:induction false} OpenAndClose(a: Option<Account>, b: Account, c: Account, p: Position, t: Trade)
    requires t.id == p.id
    ensures Apply(Store(a, [], []), PersistOpen(b, p)) == Store(Some(b), [p], [])
    ensures Apply(Store(Some(b), [p], []), PersistClose(c, t)) == Store(Some(c), [], [t])
  {
  }

  lemma {:induction false} ThreeInOrder(s: Store, x: Txn, y: Txn, z: Txn)
    ensures ApplyAll(s, [x, y, z]) == Apply(Apply(Apply(s, x), y), z)
  {
    ApplyOneMore(s, [], x);
    ApplyOneMore(s, [x], y);
    ApplyOneMore(s, [x, y], z);
    assert [] + [x] == [x] && [x] + [y] == [x, y] && [x, y] + [z] == [x, y, z];
  }

  lemma {:induction false} ThreeWrites(a: Account, b: Account, c: Account, p: Position, t: Trade)
    requires t.id == p.id
    ensures ApplyAll(EMPTY_STORE, [PersistAccount(a), PersistOpen(b, p), PersistClose(c, t)]) == Store(Some(c), [], [t])
  {
    ThreeInOrder(EMPTY_STORE, PersistAccount(a), PersistOpen(b, p), PersistClose(c, t));
    OpenAndClose(Some(a), b, c, p, t);
  }

  lemma {:induction false} ColdWarmUp(cfg: Settings, symbols: seq<string>)
    ensures WarmUp(cfg, map[], symbols, Cold) == map[]
    decreases |symbols|
  {
    if |symbols| > 0 {
      ColdWarmUp(cfg, symbols[1..]);
    }
  }

  lemma {:induction false} ColdStart(cfg: Settings, a: Account, t: Trade, at: int, r: Records)
    requires a.equity > 0.0 && a.realizedToday >= 0.0 && a.openCount == 0 && a.day == Day(at) && t.id == ID
    ensures var w := Started(cfg, Store(Some(a), [], [t]), at, Cold, r);
            && w.up && ColdEngines(w.engines) && Still(w.book, at) && w.book.seen == [] && w.book.history == [t]
            && w.book.recovery.RecoveryComplete? && !w.book.paused
  {
    ColdWarmUp(cfg, cfg.symbols);
    assert [] + [t] == [t] && Awaiting([]) == [];
  }

  /** A plan that waits under the identity of a trade. */
  lemma {:induction false} WaitsAgain(cfg: Settings, b: Book, p: Plan, t: Trade)
    requires b.pending == [Pending(ID, p)] && b.history == [t] && t.id == ID
    ensures !Sound(cfg, b)
  {
    assert b.pending[0] in b.pending && t in b.history;
  }

  // ---------------------------------------------------------------------
  // The run
  // ---------------------------------------------------------------------

  lemma {:induction false} SampleStart() returns (w: Platform)
    ensures w == Started(SMALL, EMPTY_STORE, 0, Cold, NO_RECORDS) && w.up && w.base == EMPTY_STORE
    ensures w.engines.riskAccount == ACCOUNT
    ensures ColdEngines(w.engines) && Idle(w.book) && Still(w.book, 59_999) && w.book.seen == []
    ensures w.book.txns == [PersistAccount(w.book.account)]
  {
    ColdWarmUp(SMALL, SMALL.symbols);
    assert Awaiting([]) == [];
    w := Started(SMALL, EMPTY_STORE, 0, Cold, NO_RECORDS);
    assert [] + [PersistAccount(w.book.account)] == [PersistAccount(w.book.account)];
  }

  lemma {:induction false} TwoInARow(cfg: Settings, a: Event, b: Event, w: Platform, x: Platform, y: Platform)
    requires Chained(cfg, [a], [w, x]) && Chained(cfg, [b], [x, y])
    ensures Chained(cfg, [a, b], [w, x, y])
  {
    ChainsJoin(cfg, [a], [w, x], [b], [x, y]);
    assert [a] + [b] == [a, b] && [w, x] + [x, y][1..] == [w, x, y];
  }

  lemma {:induction false} RiseQueues(w: Platform) returns (a: Event, next: Platform, plan: Plan)
    requires w.up && Idle(w.book) && Still(w.book, 119_999) && ID !in w.book.seen
    requires OneAnalysed(w.engines) && w.engines.riskAccount == ACCOUNT
    ensures a.Ingest? && a.candle == RISE && Chained(SMALL, [a], [w, next]) && next.up && next.base == w.base
    ensures AfterRise(next.book, plan) && next.book.txns == w.book.txns
  {
    a, next, plan := RiseArrives(w, 119_999);
    SignalIsPlanned(FEED, 119_999);
  }

  /** Two events in a row that deliver these candles. */
  ghost predicate Deliver(events: seq<Event>, c: Candle, d: Candle) {
    && |events| == 2 && events[0].Ingest? && events[1].Ingest?
    && events[0].candle == c && events[1].candle == d
  }

  /** The first two candles: a plan waits. */
  lemma {:induction false} FirstTwoArrive(
    ) returns (xs: seq<Event>, w0: Platform, w1: Platform, w2: Platform, plan: Plan)
    ensures w0 == Started(SMALL, EMPTY_STORE, 0, Cold, NO_RECORDS) && w2.up && w2.base == EMPTY_STORE
    ensures Deliver(xs, FLAT, RISE) && Chained(SMALL, xs, [w0, w1, w2])
    ensures AfterRise(w2.book, plan) && w2.book.txns == [PersistAccount(w0.book.account)]
  {
    var a, b;
    w0 := SampleStart();
    a, w1 := FlatArrives(w0, 59_999);
    b, w2, plan := RiseQueues(w1);
    TwoInARow(SMALL, a, b, w0, w1, w2);
    xs := [a, b];
  }

  /** The next two: the plan is filled and reaches its target. */
  lemma {:induction false} NextTwoArrive(w2: Platform, plan: Plan, a: Account)
    returns (xs: seq<Event>, w3: Platform, w4: Platform, t: Trade)
    requires w2.up && w2.base == EMPTY_STORE && AfterRise(w2.book, plan) && w2.book.txns == [PersistAccount(a)]
    ensures |xs| == 2 && xs[0].Ingest? && xs[1].Ingest? && Chained(SMALL, xs, [w2, w3, w4])
    ensures Traded(w4.book, t) && ApplyAll(w4.base, w4.book.txns) == Store(Some(w4.book.account), [], [t])
  {
    var x, y, p, net;
    x, w3, p, net := FillingArrives(w2, plan);
    y, w4, t := TouchingArrives(w3, p, net);
    ThreeWrites(a, w3.book.account, w4.book.account, p, t);
    assert w4.book.txns == [PersistAccount(a), PersistOpen(w3.book.account, p), PersistClose(w4.book.account, t)];
    TwoInARow(SMALL, x, y, w2, w3, w4);
    xs := [x, y];
  }

  lemma {:induction false} RiseRepeats(w: Platform, t: Trade) returns (a: Event, next: Platform)
    requires w.up && Still(w.book, 320_000) && OneAnalysed(w.engines) && w.book.recovery.RecoveryComplete?
    requires !w.book.paused && ID !in w.book.seen && w.book.history == [t] && t.id == ID
    ensures a.Ingest? && a.candle == RISE && Chained(SMALL, [a], [w, next]) && !Sound(SMALL, next.book)
  {
    var p;
    a, next, p := RiseArrives(w, 320_000);
    WaitsAgain(SMALL, next.book, p, t);
  }

  /** From the restart to the second acceptance. */
  lemma {:induction false} FirstTwoAgain(a: Account, t: Trade, r: Records)
    returns (xs: seq<Event>, w5: Platform, w6: Platform, w7: Platform)
    requires a.equity > 0.0 && a.realizedToday >= 0.0 && a.openCount == 0 && a.day == 0 && t.id == ID
    ensures w5 == Started(SMALL, Store(Some(a), [], [t]), 300_000, Cold, r)
    ensures Deliver(xs, FLAT, RISE) && Chained(SMALL, xs, [w5, w6, w7]) && !Sound(SMALL, w7.book)
  {
    ColdStart(SMALL, a, t, 300_000, r);
    w5 := Started(SMALL, Store(Some(a), [], [t]), 300_000, Cold, r);
    var x, y;
    x, w6 := FlatArrives(w5, 310_000);
    y, w7 := RiseRepeats(w6, t);
    TwoInARow(SMALL, x, y, w5, w6, w7);
    xs := [x, y];
  }

  lemma {:induction false} AllWritten(w: Platform, listing: Store, now: int, warm: string -> Option<seq<Candle>>)
    requires ApplyAll(w.base, w.book.txns) == listing
    ensures Permitted(w, Restart(|w.book.txns|, listing, now, warm))
  {
    assert w.book.txns[..|w.book.txns|] == w.book.txns;
  }

  /** A restart from everything that was written. */
  lemma {:induction false} FullRestart(cfg: Settings, w: Platform, listing: Store, at: int)
    returns (restart: Event, r: Records)
    requires ApplyAll(w.base, w.book.txns) == listing
    ensures restart.Restart? && Chained(cfg, [restart], [w, Started(cfg, listing, at, Cold, r)])
  {
    restart, r := Restart(|w.book.txns|, listing, at, Cold), Lose(w.records, w.book, listing);
    AllWritten(w, listing, at, Cold);
    RestartChain(cfg, w, restart, r);
  }

  lemma {:induction false} RestartChain(cfg: Settings, w: Platform, a: Event, r: Records)
    requires a.Restart? && Permitted(w, a) && r == Lose(w.records, w.book, a.listing)
    ensures Chained(cfg, [a], [w, Started(cfg, a.listing, a.now, a.warm, r)])
  {
    ChainOfOne(cfg, w, a);
  }

  /** Four chains in a row are a run. */
  lemma {:induction false} SevenInARow(
    cfg: Settings, start: int, warm: string -> Option<seq<Candle>>, a: seq<Event>, b: seq<Event>, c: Event,
    d: seq<Event>, us: seq<Platform>, vs: seq<Platform>, x: Platform, ys: seq<Platform>)
    returns (events: seq<Event>, ws: seq<Platform>)
    requires |a| == 2 && |b| == 2 && |d| == 2 && c.Restart?
    requires b[0].Ingest? && b[1].Ingest? && exists x, y :: Deliver(a, x, y) && Deliver(d, x, y)
    requires Chained(cfg, a, us) && Chained(cfg, b, vs) && Chained(cfg, [c], [vs[2], x]) && Chained(cfg, d, ys)
    requires us[0] == Started(cfg, EMPTY_STORE, start, warm, NO_RECORDS) && us[2] == vs[0] && x == ys[0]
    ensures |events| == 7 && IsForwardRun(cfg, start, warm, events, ws) && ws[7] == ys[2]
    ensures forall i :: 0 <= i < 7 ==> if i == 4 then events[i].Restart? else events[i].Ingest?
    ensures events[5].candle == events[0].candle && events[6].candle == events[1].candle
  {
    ChainsJoin(cfg, a, us, b, vs);
    ChainsJoin(cfg, a + b, us + vs[1..], [c], [vs[2], x]);
    ChainsJoin(cfg, a + b + [c], us + vs[1..] + [vs[2], x][1..], d, ys);
    events, ws := a + b + [c] + d, us + vs[1..] + [vs[2], x][1..] + ys[1..];
  }

  /**
   * A run from the empty store in which the same identity is traded and accepted again: after one
   * restart with a failed warm-up the feed delivers two closed candles a second time.
   */
  lemma {:induction false} RepeatedCandlesBreakBook()
    returns (cfg: Settings, warm: string -> Option<seq<Candle>>, events: seq<Event>, ws: seq<Platform>)
    ensures |events| == 7 && IsForwardRun(cfg, 0, warm, events, ws)
    ensures forall i :: 0 <= i < 7 ==> if i == 4 then events[i].Restart? else events[i].Ingest?
    ensures events[5].candle == events[0].candle && events[6].candle == events[1].candle
    ensures !Sound(cfg, ws[7].book)
  {
    var a, w0, w1, w2, plan := FirstTwoArrive();
    var b, w3, w4, t := NextTwoArrive(w2, plan, w0.book.account);
    var restart, r := FullRestart(SMALL, w4, Store(Some(w4.book.account), [], [t]), 300_000);
    var d, w5, w6, w7 := FirstTwoAgain(w4.book.account, t, r);
    cfg, warm := SMALL, Cold;
    events, ws := SevenInARow(SMALL, 0, Cold, a, b, restart, d, [w0, w1, w2], [w2, w3, w4], w5, [w5, w6, w7]);
  }
}
