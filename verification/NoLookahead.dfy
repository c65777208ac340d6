/**
 * A replay never looks ahead: entries follow their signals, the past of a replay does not
 * depend on its future, and the time at which a backtest is run does not matter.
 */
module NoLookahead {
  import opened Common
  import opened Tables
  import opened Sorting
  import opened Configuration
  import opened Market
  import opened Indicators
  import opened Strategy
  import opened Risk
  import opened Ledger
  import opened Exits
  import opened Fills
  import opened Session
  import opened Backtest
  import opened BacktestInvariants
  import opened PlannedTrades
  import opened BacktestReconciliation

  // ---------------------------------------------------------------------
  // The order of replay
  // ---------------------------------------------------------------------

  lemma {:induction false} StringLeTotal(a: string, b: string)
    ensures StringLe(a, b) || StringLe(b, a)
    decreases |a|
  {
    if |a| > 0 && |b| > 0 {
      StringLeTotal(a[1..], b[1..]);
    }
  }

  lemma {:induction false} StringLeTransitive(a: string, b: string, c: string)
    requires StringLe(a, b) && StringLe(b, c)
    ensures StringLe(a, c)
    decreases |a|
  {
    if |a| > 0 && a[0] == b[0] == c[0] {
      StringLeTransitive(a[1..], b[1..], c[1..]);
    }
  }

  lemma {:induction false} BeforeIsPreorder()
    ensures TotalPreorder(Before)
  {
    forall c, d ensures Before(c, d) || Before(d, c) {
      StringLeTotal(c.symbol, d.symbol);
    }
    forall c, d, e | Before(c, d) && Before(d, e) ensures Before(c, e) {
      if c.openTime == d.openTime == e.openTime {
        StringLeTransitive(c.symbol, d.symbol, e.symbol);
      }
    }
  }

  lemma {:induction false} SelectedLieInRange(start: int, end: int, cs: seq<Candle>)
    ensures forall c :: c in Selected(start, end, cs) <==> c in cs && InRange(start, end, c)
  {
    if |cs| > 0 {
      SelectedLieInRange(start, end, cs[..|cs| - 1]);
      assert cs == cs[..|cs| - 1] + [cs[|cs| - 1]];
    }
  }

  /** A replay runs through exactly the loaded candles in range, in order of time. */
  lemma {:induction false} ReplayIsChronological(q: Request, cs: seq<Candle>)
    ensures SortedBy(Before, Ordered(q, cs))
    ensures var os := Ordered(q, cs);
            forall i, j :: 0 <= i < j < |os| ==>
              os[i].openTime < os[j].openTime
              || (os[i].openTime == os[j].openTime && StringLe(os[i].symbol, os[j].symbol))
    ensures multiset(Ordered(q, cs)) == multiset(Selected(q.start, q.end, cs))
    ensures forall c :: c in Ordered(q, cs) <==> c in cs && q.start <= c.openTime && c.closeTime <= q.end
  {
    BeforeIsPreorder();
    var chosen := Selected(q.start, q.end, cs);
    SortSorts(Before, chosen);
    SortIsPermutation(Before, chosen);
    SelectedLieInRange(q.start, q.end, cs);
    assert forall c :: c in Ordered(q, cs) <==> c in multiset(Ordered(q, cs));
    assert forall c :: c in chosen <==> c in multiset(chosen);
  }

  // ---------------------------------------------------------------------
  // Entries follow signals
  // ---------------------------------------------------------------------

  /** No symbol has two candles that open at the same time. */
  ghost predicate OneAtATime(cs: seq<Candle>) {
    forall i, j :: 0 <= i < j < |cs| && KeyOf(cs[i]) == KeyOf(cs[j]) ==> cs[i].openTime != cs[j].openTime
  }

  lemma {:induction false} SameSymbolInOrder(cs: seq<Candle>, i: nat, j: nat)
    requires SortedBy(Before, cs) && i < j < |cs|
    ensures cs[i].openTime <= cs[j].openTime
  {
    assert Before(cs[i], cs[j]);
  }

  /** Candle `j` opens strictly after the signal's candle `i`, and the entry is at its opening price. */
  predicate EnteredInOrder(cfg: Settings, cs: seq<Candle>, o: Origin, i: nat, j: nat) {
    && i < j < |cs|
    && cs[i].symbol == cs[j].symbol == o.id.symbol && cs[i].timeframe == cs[j].timeframe == o.id.timeframe
    && o.id.openTime == cs[i].openTime < cs[j].openTime < cs[j].closeTime == o.openedAt
    && !o.terms.direction.NoTrade?
    && Moved(cs[j].open, o.terms.entryFill, cfg.entrySlippageBps, o.terms.direction.Long?)
    && IsFee(Product(o.terms.entryFill, o.terms.quantity), o.terms.entryFee, cfg.paperFeeBps)
  }

  /** The candles of a replay that went on: complete, in order, one for each key and time, and valid. */
  ghost predicate Orderly(cfg: Settings, cs: seq<Candle>) {
    && SortedBy(Before, cs) && OneAtATime(cs) && Checked(cfg, cs) && forall k :: 0 <= k < |cs| ==> cs[k].isClosed
  }

  lemma {:induction false} ValidCandle(cfg: Settings, cs: seq<Candle>, i: nat)
    requires Orderly(cfg, cs) && i < |cs|
    ensures WellFormed(cs[i]) && cs[i].timeframe == cfg.defaultTimeframe
  {
    assert cs[i].isClosed && ValidateCandle(cs[i], cfg.symbols, cfg.defaultTimeframe).None?;
  }

  lemma {:induction false} LaterOpensLater(cfg: Settings, cs: seq<Candle>, i: nat, j: nat)
    requires Orderly(cfg, cs) && i < j < |cs| && cs[i].symbol == cs[j].symbol
    ensures cs[i].openTime < cs[j].openTime
  {
    ValidCandle(cfg, cs, i);
    ValidCandle(cfg, cs, j);
    SameSymbolInOrder(cs, i, j);
    assert KeyOf(cs[i]) == KeyOf(cs[j]);
  }

  lemma {:induction false} FillIsInOrder(cfg: Settings, cs: seq<Candle>, o: Origin, i: nat, j: nat)
    requires Orderly(cfg, cs) && i < j < |cs| && Signalled(o.id, cs[i]) && FilledAt(cfg, o, cs[j])
    ensures EnteredInOrder(cfg, cs, o, i, j)
  {
    ValidCandle(cfg, cs, i);
    ValidCandle(cfg, cs, j);
    FillsAreAdverse(cs[j].open, o.terms.direction, cfg.entrySlippageBps);
    FillsAreAdverse(Product(o.terms.entryFill, o.terms.quantity), o.terms.direction, cfg.paperFeeBps);
    LaterOpensLater(cfg, cs, i, j);
  }

  /**
   * An open position of a replay was entered at the open of a candle after its signal's, and no
   * candle of its symbol since then has reached its stop or its target.
   */
  lemma {:induction false} PositionsFollowSignals(
    cfg: Settings, feed: Feed, start: int, cs: seq<Candle>, wall: nat -> int, p: Position)
    returns (i: nat, j: nat)
    requires Replayed(cfg, feed, start, cs, wall).Ok? && p in Replayed(cfg, feed, start, cs, wall).value.book.open
    requires SortedBy(Before, cs) && OneAtATime(cs) && forall k :: 0 <= k < |cs| ==> cs[k].isClosed
    ensures EnteredInOrder(cfg, cs, OriginOf(p), i, j) && Untouched(cs, j, OriginOf(p))
  {
    EveryReplayIsSound(cfg, feed, start, cs, wall);
    i, j := LifeOfPosition(cfg, cs, Replayed(cfg, feed, start, cs, wall).value, p);
    FillIsInOrder(cfg, cs, OriginOf(p), i, j);
  }

  lemma {:induction false} LifeOfPosition(cfg: Settings, cs: seq<Candle>, r: Replay, p: Position)
    returns (i: nat, j: nat)
    requires ReplayOk(cfg, cs, r) && p in r.book.open
    ensures i < j < |cs| && Signalled(p.id, cs[i]) && FilledAt(cfg, OriginOf(p), cs[j]) && Untouched(cs, j, OriginOf(p))
    ensures Checked(cfg, cs)
  {
    var o := OriginOf(p);
    assert o in Known(cfg, cs, r.riskMarks);
    i, j :| 0 <= i < j < |cs| && Signalled(o.id, cs[i]) && FilledAt(cfg, o, cs[j]) && Untouched(cs, j, o);
  }

  /**
   * The exit comes from candle `m`, the first after the entry to reach a level, at a price it traded
   * before slippage.
   */
  ghost predicate ExitedInOrder(cfg: Settings, cs: seq<Candle>, o: Origin, t: Trade, j: nat, m: nat) {
    && j < m < |cs| && cs[j].openTime < cs[m].openTime
    && ClosedAt(cfg, o, t, cs[m]) && Untouched(cs[..m], j, o)
    && cs[m].low <= ExitOf(o.terms, cs[m]).value.trigger <= cs[m].high
  }

  lemma {:induction false} ExitIsInOrder(cfg: Settings, cs: seq<Candle>, o: Origin, t: Trade, j: nat, m: nat)
    requires Orderly(cfg, cs) && j < m < |cs| && FilledAt(cfg, o, cs[j]) && ClosedAt(cfg, o, t, cs[m])
    requires Untouched(cs[..m], j, o)
    ensures ExitedInOrder(cfg, cs, o, t, j, m)
  {
    LaterOpensLater(cfg, cs, j, m);
    ValidCandle(cfg, cs, m);
    ExitIsInsideCandle(o.terms, cs[m]);
  }

  /**
   * A trade of a replay was entered at the open of a candle after its signal's, and ended by the
   * first later candle of its symbol that reaches a level, the stop before the target.
   */
  lemma {:induction false} TradesFollowSignals(
    cfg: Settings, feed: Feed, start: int, cs: seq<Candle>, wall: nat -> int, t: Trade)
    returns (i: nat, j: nat, m: nat, o: Origin)
    requires Replayed(cfg, feed, start, cs, wall).Ok? && t in Replayed(cfg, feed, start, cs, wall).value.book.history
    requires SortedBy(Before, cs) && OneAtATime(cs) && forall k :: 0 <= k < |cs| ==> cs[k].isClosed
    ensures EnteredInOrder(cfg, cs, o, i, j) && ExitedInOrder(cfg, cs, o, t, j, m)
  {
    EveryReplayIsSound(cfg, feed, start, cs, wall);
    HistoryIsDone(cfg, cs, Replayed(cfg, feed, start, cs, wall).value, t);
    i, j, m, o := LifeOfTrade(cfg, cs, t);
    FillIsInOrder(cfg, cs, o, i, j);
    ExitIsInOrder(cfg, cs, o, t, j, m);
  }

  lemma {:induction false} HistoryIsDone(cfg: Settings, cs: seq<Candle>, r: Replay, t: Trade)
    requires ReplayOk(cfg, cs, r) && t in r.book.history
    ensures Ended(cfg, cs, t) && Checked(cfg, cs)
  {
    assert t in Done(cfg, cs, r.riskMarks);
  }

  /** The identity that no two candles share. */
  function MomentOf(c: Candle): (Key, int) {
    (KeyOf(c), c.openTime)
  }

  lemma {:induction false} SelectedStayApart(start: int, end: int, cs: seq<Candle>)
    requires Distinct(MomentOf, cs)
    ensures Distinct(MomentOf, Selected(start, end, cs))
  {
    if |cs| > 0 {
      var front, last := cs[..|cs| - 1], cs[|cs| - 1];
      SelectedStayApart(start, end, front);
      SelectedLieInRange(start, end, front);
      var chosen := Selected(start, end, front);
      forall i | 0 <= i < |chosen| ensures MomentOf(chosen[i]) != MomentOf(last) {
        assert chosen[i] in front;
        var j :| 0 <= j < |front| && front[j] == chosen[i];
        assert MomentOf(cs[j]) != MomentOf(cs[|cs| - 1]);
      }
    }
  }

  lemma {:induction false} ReplayedStayApart(q: Request, cs: seq<Candle>)
    requires Distinct(MomentOf, cs)
    ensures OneAtATime(Ordered(q, cs))
  {
    ReplayIsChronological(q, cs);
    SelectedStayApart(q.start, q.end, cs);
    DistinctPermutation(MomentOf, Selected(q.start, q.end, cs), Ordered(q, cs));
    var os := Ordered(q, cs);
    forall i, j | 0 <= i < j < |os| && KeyOf(os[i]) == KeyOf(os[j]) ensures os[i].openTime != os[j].openTime {
      assert MomentOf(os[i]) != MomentOf(os[j]);
    }
  }

  /** The plan shown was made at the close of the signal's candle and risks no more than it says. */
  predicate PlannedAt(e: JournalEntry, signal: Candle) {
    && e.stop.Some? && e.target.Some? && e.plannedRisk.Some?
    && RiskGuarantees.Ordered(e.direction, e.stop.value, signal.close, e.target.value)
    && Product(e.quantity, Abs(signal.close - e.stop.value)) <= e.plannedRisk.value
  }

  /** The change of price between the entry and the exit, in favour of the trade. */
  function Gained(e: JournalEntry): real {
    if e.direction.Long? then e.exitPrice - e.entryPrice else e.entryPrice - e.exitPrice
  }

  /** What a journal entry tells of the candles of its signal, entry and exit. */
  predicate Follows(cfg: Settings, e: JournalEntry, signal: Candle, entry: Candle, exit: Candle, trigger: real) {
    && signal.symbol == entry.symbol == exit.symbol == e.symbol
    && signal.openTime < entry.openTime < exit.openTime
    && e.signalTime == Some(signal.closeTime) && e.entryTime == entry.closeTime && e.exitTime == exit.closeTime
    && PlannedAt(e, signal) && e.score == 100
    && Moved(entry.open, e.entryPrice, cfg.entrySlippageBps, e.direction.Long?)
    && Moved(trigger, e.exitPrice, cfg.exitSlippageBps, e.direction.Short?)
    && Ends(e.direction.Long?, e.stop.value, e.target.value, exit, trigger, e.reason)
    && exit.low <= trigger <= exit.high
    && e.gross == Product(Gained(e), e.quantity)
    && IsFee(Product(e.entryPrice, e.quantity) + Product(e.exitPrice, e.quantity), e.fees, cfg.paperFeeBps)
    && e.net == e.gross - e.fees
  }

  /**
   * Every candle of the symbol between entry and exit lies strictly between the levels that the
   * journal entry shows.
   */
  ghost predicate QuietBetween(cs: seq<Candle>, e: JournalEntry, entry: Candle, exit: Candle)
    requires e.stop.Some? && e.target.Some?
  {
    forall c :: c in cs && c.symbol == e.symbol && entry.openTime < c.openTime < exit.openTime ==>
      Spares(e.direction.Long?, e.stop.value, e.target.value, c)
  }

  lemma {:induction false} JournalledTrade(cfg: Settings, r: Replay, k: nat)
    returns (t: Trade)
    requires r.book.closed == LastN(r.book.history, cfg.maxPaperTradeHistory) && k < |JournalOf(cfg, r)|
    ensures t in r.book.history && JournalOf(cfg, r)[k] == EntryOf(t, PlanOf(r.plans, t.id))
  {
    t := Tail(r.book.closed, cfg.maxPaperTradeHistory)[k];
  }

  /** The candles of a trade whose plan was recorded, and the terms it was filled from. */
  lemma {:induction false} LifeAsPlanned(cfg: Settings, cs: seq<Candle>, plans: map<PlanId, Plan>, t: Trade)
    returns (i: nat, j: nat, m: nat, o: Origin)
    requires EndedAsPlanned(cfg, cs, plans, t) && Orderly(cfg, cs)
    ensures EnteredInOrder(cfg, cs, o, i, j) && ExitedInOrder(cfg, cs, o, t, j, m) && Recorded(plans, o)
    ensures Signalled(o.id, cs[i])
  {
    m, o :| 0 <= m < |cs| && Entered(cfg, cs[..m], o) && ClosedAt(cfg, o, t, cs[m]) && Recorded(plans, o);
    i, j :| 0 <= i < j < |cs[..m]| && Signalled(o.id, cs[..m][i]) && FilledAt(cfg, o, cs[..m][j])
      && Untouched(cs[..m], j, o);
    assert cs[..m][i] == cs[i] && cs[..m][j] == cs[j];
    FillIsInOrder(cfg, cs, o, i, j);
    ExitIsInOrder(cfg, cs, o, t, j, m);
  }

  /** One candle for each identity: the plan of an identity was made at the candle it names. */
  lemma {:induction false} PlanOfSignal(cs: seq<Candle>, plans: map<PlanId, Plan>, id: PlanId, i: nat)
    requires PlansMade(cs, plans) && OneAtATime(cs) && id in plans && i < |cs| && Signalled(id, cs[i])
    ensures MadeAt(cs[i], plans[id])
  {
    var k :| 0 <= k < |cs| && Signalled(id, cs[k]) && MadeAt(cs[k], plans[id]);
    assert KeyOf(cs[i]) == KeyOf(cs[k]) && cs[i].openTime == cs[k].openTime;
  }

  lemma {:induction false} EntryFollows(
    cfg: Settings, cs: seq<Candle>, o: Origin, t: Trade, plan: Plan, i: nat, j: nat, m: nat)
    requires EnteredInOrder(cfg, cs, o, i, j) && ExitedInOrder(cfg, cs, o, t, j, m)
    requires Recorded(map[o.id := plan], o) && MadeAt(cs[i], plan)
    ensures Follows(cfg, EntryOf(t, Some(plan)), cs[i], cs[j], cs[m], ExitOf(o.terms, cs[m]).value.trigger)
  {
    ExitWrittenOut(o.terms, cs[m]);
    var exit := ExitOf(o.terms, cs[m]).value;
    FillsAreAdverse(exit.trigger, t.direction, cfg.exitSlippageBps);
    FillsAreAdverse(Product(t.exitFill, t.quantity), t.direction, cfg.paperFeeBps);
    FeesAddUp(Product(t.entryFill, t.quantity), Product(t.exitFill, t.quantity), cfg.paperFeeBps);
  }

  lemma {:induction false} FeesAddUp(entry: real, exit: real, bps: real)
    ensures Product(entry + exit, bps) == Product(entry, bps) + Product(exit, bps)
  {
  }

  lemma {:induction false} NothingBetween(
    cfg: Settings, cs: seq<Candle>, o: Origin, t: Trade, plan: Plan, j: nat, m: nat)
    requires Orderly(cfg, cs) && ExitedInOrder(cfg, cs, o, t, j, m) && cs[j].symbol == o.id.symbol
    requires !o.terms.direction.NoTrade?
    requires Recorded(map[o.id := plan], o)
    ensures QuietBetween(cs, EntryOf(t, Some(plan)), cs[j], cs[m])
  {
    var e := EntryOf(t, Some(plan));
    forall c | c in cs && c.symbol == e.symbol && cs[j].openTime < c.openTime < cs[m].openTime
      ensures Spares(e.direction.Long?, e.stop.value, e.target.value, c)
    {
      var x :| 0 <= x < |cs| && cs[x] == c;
      if x < j {
        LaterOpensLater(cfg, cs, x, j);
      } else if m < x {
        LaterOpensLater(cfg, cs, m, x);
      }
      assert cs[..m][x] == cs[x];
      ExitWrittenOut(o.terms, c);
    }
  }

  lemma {:induction false} ReplayedJournal(
    cfg: Settings, feed: Feed, start: int, cs: seq<Candle>, wall: nat -> int, r: Replay, k: nat)
    returns (i: nat, j: nat, m: nat, trigger: real)
    requires Replayed(cfg, feed, start, cs, wall) == Ok(r) && k < |JournalOf(cfg, r)|
    requires SortedBy(Before, cs) && OneAtATime(cs) && forall x :: 0 <= x < |cs| ==> cs[x].isClosed
    ensures i < |cs| && j < |cs| && m < |cs| && Follows(cfg, JournalOf(cfg, r)[k], cs[i], cs[j], cs[m], trigger)
    ensures QuietBetween(cs, JournalOf(cfg, r)[k], cs[j], cs[m])
  {
    EveryReplayIsSound(cfg, feed, start, cs, wall);
    EveryReplayIsPlanned(cfg, feed, start, cs, wall);
    var t := JournalledTrade(cfg, r, k);
    i, j, m, trigger := TradeFollows(cfg, cs, r, t);
  }

  lemma {:induction false} TradeFollows(cfg: Settings, cs: seq<Candle>, r: Replay, t: Trade)
    returns (i: nat, j: nat, m: nat, trigger: real)
    requires PlansOk(cfg, cs, r.book, r.plans) && Orderly(cfg, cs) && t in r.book.history
    ensures i < |cs| && j < |cs| && m < |cs|
    ensures var e := EntryOf(t, PlanOf(r.plans, t.id));
            Follows(cfg, e, cs[i], cs[j], cs[m], trigger) && QuietBetween(cs, e, cs[j], cs[m])
  {
    assert t in DoneAsPlanned(cfg, cs, r.plans);
    var o;
    i, j, m, o := LifeAsPlanned(cfg, cs, r.plans, t);
    PlanOfSignal(cs, r.plans, o.id, i);
    EntryFollows(cfg, cs, o, t, r.plans[o.id], i, j, m);
    NothingBetween(cfg, cs, o, t, r.plans[o.id], j, m);
    trigger := ExitOf(o.terms, cs[m]).value.trigger;
  }

  /** Complete candles, one for each key and time, are replayed as such. */
  lemma {:induction false} ReplayedInOrder(q: Request, cs: seq<Candle>)
    requires Distinct(MomentOf, cs) && forall x :: x in cs ==> x.isClosed
    ensures var os := Ordered(q, cs);
            && SortedBy(Before, os) && OneAtATime(os)
            && forall i :: 0 <= i < |os| ==> os[i].isClosed && os[i] in cs
  {
    ReplayIsChronological(q, cs);
    ReplayedStayApart(q, cs);
    var os := Ordered(q, cs);
    forall i | 0 <= i < |os| ensures os[i].isClosed && os[i] in cs {
      assert os[i] in os;
    }
  }

  /** The journal of a run is that of its replay. */
  lemma {:induction false} JournalOfRun(cfg: Settings, q: Request, cs: seq<Candle>, wall: nat -> int)
    returns (r: Replay)
    requires RunBacktest(cfg, q, cs, wall).Ok?
    ensures Replayed(ReplaySettings(cfg), ReplayFeed(q), q.start, Ordered(q, cs), wall) == Ok(r)
    ensures RunBacktest(cfg, q, cs, wall).value.journal == JournalOf(ReplaySettings(cfg), r)
  {
    SummaryOfReplay(cfg, q, cs, wall);
    r := ReplayOf(cfg, q, cs, wall).value;
    SummaryHoldsJournal(ReplaySettings(cfg), q, r);
  }

  /**
   * In a backtest over complete candles, one for each symbol and time, every trade in the journal
   * was planned at the close of a loaded candle, with the stop, target and risk that it shows,
   * entered at the open of one that opens strictly later, and ended by the first after that to reach
   * one of those levels, within its range before slippage.
   */
  lemma {:induction false} JournalNeverLooksAhead(
    cfg: Settings, q: Request, cs: seq<Candle>, wall: nat -> int, k: nat)
    returns (signal: Candle, entry: Candle, exit: Candle, trigger: real)
    requires Distinct(MomentOf, cs) && forall x :: x in cs ==> x.isClosed
    requires RunBacktest(cfg, q, cs, wall).Ok? && k < |RunBacktest(cfg, q, cs, wall).value.journal|
    ensures signal in cs && entry in cs && exit in cs
    ensures var e := RunBacktest(cfg, q, cs, wall).value.journal[k];
            && Follows(cfg, e, signal, entry, exit, trigger)
            && QuietBetween(Ordered(q, cs), e, entry, exit)
  {
    var os := Ordered(q, cs);
    ReplayedInOrder(q, cs);
    var r := JournalOfRun(cfg, q, cs, wall);
    var i, j, m;
    i, j, m, trigger := ReplayedJournal(ReplaySettings(cfg), ReplayFeed(q), q.start, os, wall, r, k);
    signal, entry, exit := os[i], os[j], os[m];
  }

  // ---------------------------------------------------------------------
  // The past does not depend on the future
  // ---------------------------------------------------------------------

  /** Trades are only ever appended, each dated by the time of the step. */
  ghost predicate Extends(before: seq<Trade>, after: seq<Trade>, now: int) {
    && |before| <= |after| && after[..|before|] == before
    && forall i :: |before| <= i < |after| ==> after[i].closedAt == now
  }

  lemma {:induction false} ExtendsAgain(x: seq<Trade>, y: seq<Trade>, z: seq<Trade>, now: int)
    requires Extends(x, y, now) && Extends(y, z, now)
    ensures Extends(x, z, now)
  {
    assert z[..|x|] == z[..|y|][..|x|];
    forall i | |x| <= i < |z| ensures z[i].closedAt == now {
      if i < |y| {
        assert z[i] == z[..|y|][i];
      }
    }
  }

  lemma {:induction false} ObservingExtends(cfg: Settings, b: Book, ps: seq<Position>, c: Candle, now: int)
    ensures Extends(b.history, ObserveAll(cfg, b, ps, c, now).history, now)
    decreases |ps|
  {
    if |ps| > 0 {
      var next := Observe(cfg, b, ps[0], c, now);
      ObservingExtends(cfg, next, ps[1..], c, now);
      ExtendsAgain(b.history, next.history, ObserveAll(cfg, b, ps, c, now).history, now);
    }
  }

  lemma {:induction false} FillingClosesNothing(
    cfg: Settings, b: Book, ws: seq<Pending>, c: Candle, price: real, now: int, feed: Feed)
    ensures FillAll(cfg, b, ws, c, price, now, feed).history == b.history
    decreases |ws|
  {
    if |ws| > 0 {
      var next := if ws[0].plan.symbol != c.symbol then b else Fill(cfg, b, ws[0], c, price, now, feed);
      FillingClosesNothing(cfg, next, ws[1..], c, price, now, feed);
    }
  }

  lemma {:induction false} CandleExtends(
    cfg: Settings, b: Book, c: Candle, entryPrice: Option<real>, now: int, feed: Feed)
    ensures Extends(b.history, ProcessCandle(cfg, b, c, entryPrice, now, feed).history, now)
  {
    var today := ResetDay(b, now);
    var existing := PositionsOf(today.open, c.symbol);
    ObservingExtends(cfg, today, existing, c, now);
    var observed := ObserveAll(cfg, today, existing, c, now);
    FillingClosesNothing(cfg, observed, observed.pending, c, EntryPrice(c, entryPrice), now, feed);
  }

  lemma {:induction false} PlanClosesNothing(cfg: Settings, b: Book, p: Plan, now: int)
    ensures ProcessPlan(cfg, b, p, now).0.history == b.history
  {
  }

  lemma {:induction false} StepExtends(cfg: Settings, feed: Feed, r: Replay, c: Candle, wall: int)
    requires Step(cfg, feed, r, c, wall).Ok?
    ensures var next := Step(cfg, feed, r, c, wall).value;
            && Extends(r.book.history, next.book.history, c.closeTime)
            && |next.curve| == |r.curve| + 1 && next.curve[..|r.curve|] == r.curve
  {
    var executed, analysed := StepParts(cfg, feed, r, c, wall);
    CandleExtends(cfg, r.book, c, Some(c.open), c.closeTime, feed);
    var p := AnalyseSubmitsOnce(cfg, feed, executed, c, wall);
    if p.Some? {
      PlanClosesNothing(cfg, executed.book, p.value, c.closeTime);
    }
    RecordExtends(analysed, c);
  }

  lemma {:induction false} RecordExtends(r: Replay, c: Candle)
    ensures Record(r, c).book.history == r.book.history
    ensures |Record(r, c).curve| == |r.curve| + 1 && Record(r, c).curve[..|r.curve|] == r.curve
  {
  }

  ghost predicate ClosedFrom(cs: seq<Candle>, n: nat, trades: seq<Trade>) {
    forall t :: t in trades ==> exists i :: n <= i < |cs| && t.closedAt == cs[i].closeTime
  }

  /** What `early` showed after `n` candles is the beginning of what `late` shows. */
  ghost predicate Begins(cs: seq<Candle>, n: nat, early: Replay, late: Replay) {
    && |late.curve| == |cs| && n <= |cs| && late.curve[..n] == early.curve
    && |early.book.history| <= |late.book.history|
    && late.book.history[..|early.book.history|] == early.book.history
    && ClosedFrom(cs, n, late.book.history[|early.book.history|..])
  }

  lemma {:induction false} BeginsStill(cs: seq<Candle>, c: Candle, n: nat, early: Replay, before: Replay, late: Replay)
    requires Begins(cs, n, early, before)
    requires Extends(before.book.history, late.book.history, c.closeTime)
    requires |late.curve| == |before.curve| + 1 && late.curve[..|before.curve|] == before.curve
    ensures Begins(cs + [c], n, early, late)
  {
    var k, m := |early.book.history|, |before.book.history|;
    assert late.curve[..n] == late.curve[..|before.curve|][..n];
    assert late.book.history[..k] == late.book.history[..m][..k];
    var added := late.book.history[k..];
    forall x | 0 <= x < |added|
      ensures exists i :: n <= i < |cs + [c]| && added[x].closedAt == (cs + [c])[i].closeTime
    {
      if k + x < m {
        assert added[x] == late.book.history[..m][k + x] == before.book.history[k..][x];
        var i :| n <= i < |cs| && added[x].closedAt == cs[i].closeTime;
        assert (cs + [c])[i] == cs[i];
      } else {
        assert added[x].closedAt == (cs + [c])[|cs|].closeTime;
      }
    }
  }

  lemma {:induction false} OneMoreCandle(cfg: Settings, feed: Feed, start: int, cs: seq<Candle>, wall: nat -> int)
    returns (before: Replay, after: Replay)
    requires |cs| > 0 && Replayed(cfg, feed, start, cs, wall).Ok?
    ensures Replayed(cfg, feed, start, cs[..|cs| - 1], wall) == Ok(before)
    ensures Replayed(cfg, feed, start, cs, wall) == Ok(after)
    ensures Extends(before.book.history, after.book.history, cs[|cs| - 1].closeTime)
    ensures |after.curve| == |before.curve| + 1 && after.curve[..|before.curve|] == before.curve
  {
    before := Replayed(cfg, feed, start, cs[..|cs| - 1], wall).value;
    after := Replayed(cfg, feed, start, cs, wall).value;
    StepExtends(cfg, feed, before, cs[|cs| - 1], wall(|cs| - 1));
  }

  lemma {:induction false} BeginsItself(cs: seq<Candle>, r: Replay)
    requires |r.curve| == |cs|
    ensures Begins(cs, |cs|, r, r)
  {
    assert r.curve[..|cs|] == r.curve;
    assert r.book.history[..|r.book.history|] == r.book.history;
  }

  /** What a replay has shown after `n` candles is the beginning of what it shows at the end. */
  lemma {:induction false} PrefixDecides(
    cfg: Settings, feed: Feed, start: int, cs: seq<Candle>, wall: nat -> int, n: nat)
    returns (early: Replay)
    requires n <= |cs| && Replayed(cfg, feed, start, cs, wall).Ok?
    ensures Replayed(cfg, feed, start, cs[..n], wall) == Ok(early)
    ensures Begins(cs, n, early, Replayed(cfg, feed, start, cs, wall).value)
    decreases |cs|
  {
    if n == |cs| {
      assert cs[..n] == cs;
      early := Replayed(cfg, feed, start, cs, wall).value;
      EveryReplayIsSound(cfg, feed, start, cs, wall);
      BeginsItself(cs, early);
    } else {
      var front, last := cs[..|cs| - 1], cs[|cs| - 1];
      SplitLast(cs, n);
      var before, after := OneMoreCandle(cfg, feed, start, cs, wall);
      early := PrefixDecides(cfg, feed, start, front, wall, n);
      BeginsStill(front, last, n, early, before, after);
    }
  }

  /**
   * Two replays that agree on their first `n` candles show the same first `n` equity points
   * and the same trades, up to the `closed` trades that a later candle closes.
   */
  lemma {:induction false} FutureDoesNotMatter(
    cfg: Settings, feed: Feed, start: int, cs: seq<Candle>, ds: seq<Candle>, wall: nat -> int, n: nat)
    returns (closed: nat)
    requires n <= |cs| && n <= |ds| && cs[..n] == ds[..n]
    requires Replayed(cfg, feed, start, cs, wall).Ok? && Replayed(cfg, feed, start, ds, wall).Ok?
    ensures var x, y := Replayed(cfg, feed, start, cs, wall).value, Replayed(cfg, feed, start, ds, wall).value;
            && n <= |x.curve| && n <= |y.curve| && x.curve[..n] == y.curve[..n]
            && closed <= |x.book.history| && closed <= |y.book.history|
            && x.book.history[..closed] == y.book.history[..closed]
            && ClosedFrom(cs, n, x.book.history[closed..]) && ClosedFrom(ds, n, y.book.history[closed..])
  {
    var early := PrefixDecides(cfg, feed, start, cs, wall, n);
    var same := PrefixDecides(cfg, feed, start, ds, wall, n);
    closed := |early.book.history|;
  }

  // ---------------------------------------------------------------------
  // The wall clock
  // ---------------------------------------------------------------------

  /** The signal does not look stale at the simulated time; it may lie in its future. */
  predicate LateEnough(cfg: Settings, now: int, wall: int) {
    now - wall <= 1000 * cfg.maxSignalAgeSeconds
  }

  lemma {:induction false} PlanIgnoresWall(
    cfg: Settings, s: Snapshot, feed: Option<Feed>, a: RiskAccount, now: int, wall: int, wall': int)
    requires LateEnough(cfg, now, wall) && LateEnough(cfg, now, wall')
    ensures BuildPlan(cfg, BuildSignal(cfg, s, feed, wall), feed, a, now)
            == BuildPlan(cfg, BuildSignal(cfg, s, feed, wall'), feed, a, now)
  {
    var here, there := BuildSignal(cfg, s, feed, wall), BuildSignal(cfg, s, feed, wall');
    assert SignalReasons(here, cfg, now) == SignalReasons(there, cfg, now);
  }

  lemma {:induction false} SignalIgnoresDate(cfg: Settings, feed: Feed, r: Replay, s: Signal, s': Signal, now: int)
    requires SignalKey(s) == SignalKey(s') && s.openTime == s'.openTime && s.direction == s'.direction
    requires BuildPlan(cfg, s, Some(feed), r.riskAccount, now) == BuildPlan(cfg, s', Some(feed), r.riskAccount, now)
    ensures OnSignal(cfg, feed, r, s, now) == OnSignal(cfg, feed, r, s', now)
  {
    assert Planned(cfg, feed, r, s, now) == Planned(cfg, feed, r, s', now);
  }

  lemma {:induction false} SameButDate(cfg: Settings, s: Snapshot, feed: Option<Feed>, wall: int, wall': int)
    ensures var x, y := BuildSignal(cfg, s, feed, wall), BuildSignal(cfg, s, feed, wall');
            SignalKey(x) == SignalKey(y) && x.openTime == y.openTime && x.direction == y.direction
  {
  }

  lemma {:induction false} SnapshotIgnoresWall(
    cfg: Settings, feed: Feed, r: Replay, s: Snapshot, now: int, wall: int, wall': int)
    requires LateEnough(cfg, now, wall) && LateEnough(cfg, now, wall')
    ensures OnSnapshot(cfg, feed, r, s, now, wall) == OnSnapshot(cfg, feed, r, s, now, wall')
  {
    PlanIgnoresWall(cfg, s, Some(feed), r.riskAccount, now, wall, wall');
    SameButDate(cfg, s, Some(feed), wall, wall');
    var (marks, signal) := ProcessSnapshot(cfg, r.strategyMarks, s, Some(feed), wall);
    if signal.Some? {
      SignalIgnoresDate(cfg, feed, r.(strategyMarks := marks), BuildSignal(cfg, s, Some(feed), wall),
                        BuildSignal(cfg, s, Some(feed), wall'), now);
    }
  }

  lemma {:induction false} StepIgnoresWall(cfg: Settings, feed: Feed, r: Replay, c: Candle, wall: int, wall': int)
    requires LateEnough(cfg, c.closeTime, wall) && LateEnough(cfg, c.closeTime, wall')
    ensures Step(cfg, feed, r, c, wall) == Step(cfg, feed, r, c, wall')
  {
    var executed := Execute(cfg, feed, r, c);
    if executed.Ok? {
      match Process(cfg, executed.value.states, c)
      case Err(_) =>
      case Ok(p) =>
        if p.1.Some? {
          SnapshotIgnoresWall(cfg, feed, executed.value.(states := p.0), p.1.value, c.closeTime, wall, wall');
        }
    }
  }

  /**
   * The strategy dates its signals by the wall clock, yet a replay of the past comes out the same
   * whenever it is run.
   */
  lemma {:induction false} WallClockDoesNotMatter(
    cfg: Settings, feed: Feed, start: int, cs: seq<Candle>, wall: nat -> int, wall': nat -> int)
    requires forall i :: 0 <= i < |cs| ==>
               LateEnough(cfg, cs[i].closeTime, wall(i)) && LateEnough(cfg, cs[i].closeTime, wall'(i))
    ensures Replayed(cfg, feed, start, cs, wall) == Replayed(cfg, feed, start, cs, wall')
  {
    if |cs| > 0 {
      var n := |cs| - 1;
      WallClockDoesNotMatter(cfg, feed, start, cs[..n], wall, wall');
      var before := Replayed(cfg, feed, start, cs[..n], wall);
      if before.Ok? {
        StepIgnoresWall(cfg, feed, before.value, cs[n], wall(n), wall'(n));
      }
    }
  }
}
