/**
 * Fills, cancellations and exits written out: which plans open positions and on what terms, what
 * becomes of the others, and where a candle ends a position.
 */
module Fills {
  import opened Common
  import opened Configuration
  import opened Market
  import opened Strategy
  import opened Risk
  import opened Ledger
  import opened LedgerInvariants

  // ---------------------------------------------------------------------
  // Prices and fees
  // ---------------------------------------------------------------------

  /** A price moved by so many ten-thousandths of itself, up or down. */
  predicate Moved(price: real, moved: real, bps: real, up: bool) {
    10_000.0 * moved == Product(price, if up then 10_000.0 + bps else 10_000.0 - bps)
  }

  predicate IsFee(amount: real, fee: real, bps: real) {
    10_000.0 * fee == Product(amount, bps)
  }

  /** Entries are moved up for longs and down for shorts, exits the other way. */
  lemma {:induction false} FillsAreAdverse(price: real, d: Direction, bps: real)
    requires !d.NoTrade?
    ensures Moved(price, EntryFill(price, d, bps), bps, d.Long?)
    ensures Moved(price, ExitFill(price, d, bps), bps, d.Short?)
    ensures IsFee(price, Fee(price, bps), bps)
  {
    var share := bps / 10_000.0;
    assert 10_000.0 * (price * (1.0 + share)) == price * (10_000.0 + 10_000.0 * share);
    assert 10_000.0 * (price * (1.0 - share)) == price * (10_000.0 - 10_000.0 * share);
  }

  // ---------------------------------------------------------------------
  // Exits
  // ---------------------------------------------------------------------

  /**
   * A candle ends a position that has these levels: at its stop if it reaches that, and otherwise at
   * its target; at the open where that already lies beyond the level.
   */
  predicate Ends(long: bool, stop: real, target: real, c: Candle, trigger: real, reason: ExitReason) {
    if long then
      if c.low <= stop then reason == StopLoss && trigger == Min(c.open, stop)
      else c.high >= target && reason == TakeProfit && trigger == Max(c.open, target)
    else
      if c.high >= stop then reason == StopLoss && trigger == Max(c.open, stop)
      else c.low <= target && reason == TakeProfit && trigger == Min(c.open, target)
  }

  /** A candle lies strictly between the levels. */
  predicate Spares(long: bool, stop: real, target: real, c: Candle) {
    if long then stop < c.low && c.high < target else target < c.low && c.high < stop
  }

  lemma {:induction false} ExitWrittenOut(t: Terms, c: Candle)
    requires !t.direction.NoTrade?
    ensures match ExitOf(t, c)
            case Some(e) => Ends(t.direction.Long?, t.stop, t.target, c, e.trigger, e.reason)
            case None => Spares(t.direction.Long?, t.stop, t.target, c)
  {
  }

  // ---------------------------------------------------------------------
  // Plans that may fill
  // ---------------------------------------------------------------------

  /** Approved, not older than the settings allow, and with all that a position needs. */
  predicate Fillable(cfg: Settings, p: Plan, now: int) {
    && p.approved && (p.direction == Long || p.direction == Short)
    && p.generatedAt.Some? && now <= p.generatedAt.value + 1000 * cfg.maxSignalAgeSeconds
    && p.entry.Some? && p.stop.Some? && p.target.Some? && p.quantity.Some? && p.actualRisk.Some?
    && p.sourceOpen.Some? && p.sourceClose.Some?
  }

  ghost predicate FeedWorks(feed: Feed, symbol: string) {
    !FeedIs(feed, symbol, Stale) && !FeedIs(feed, symbol, Disconnected) && !FeedIs(feed, symbol, FeedError)
  }

  lemma {:induction false} ValidIffFillable(cfg: Settings, p: Plan, now: int)
    ensures ValidPlan(cfg, p, now) <==> Fillable(cfg, p, now)
  {
  }

  lemma {:induction false} MayFillIff(cfg: Settings, b: Book, p: Plan, now: int, feed: Feed)
    ensures MayFill(cfg, b, p, now, feed) <==>
              Fillable(cfg, p, now) && FeedWorks(feed, p.symbol) && |b.open| < cfg.maxOpenPositions
  {
  }

  /** The terms that a plan gives to a position filled at a price. */
  predicate TermsOf(cfg: Settings, t: Terms, p: Plan, price: real) {
    && t.direction == p.direction && Some(t.entryReference) == p.entry && Some(t.stop) == p.stop
    && Some(t.target) == p.target && Some(t.quantity) == p.quantity && Some(t.risk) == p.actualRisk
    && Moved(price, t.entryFill, cfg.entrySlippageBps, t.direction.Long?)
    && t.notional == Product(t.entryFill, t.quantity) && IsFee(t.notional, t.entryFee, cfg.paperFeeBps)
  }

  predicate FilledFrom(cfg: Settings, p: Position, w: Pending, c: Candle, price: real, now: int) {
    && p.id == w.id && TermsOf(cfg, p.terms, w.plan, price)
    && p.openedAt == now && p.signalTime == w.plan.generatedAt && p.lastProcessed == Some(c.closeTime)
    && Some(p.sourceOpen) == w.plan.sourceOpen && Some(p.sourceClose) == w.plan.sourceClose && p.status == Open
  }

  lemma {:induction false} FillGivesTerms(cfg: Settings, w: Pending, c: Candle, price: real, now: int)
    requires ValidPlan(cfg, w.plan, now)
    ensures FilledFrom(cfg, FillPosition(cfg, w.id, w.plan, c, price, now), w, c, price, now)
  {
    FillsAreAdverse(price, w.plan.direction, cfg.entrySlippageBps);
    var t := FillTerms(cfg, w.plan, price);
    FillsAreAdverse(t.notional, w.plan.direction, cfg.paperFeeBps);
  }

  /** A cancellation only takes the plan off the queue. */
  ghost predicate Cancels(b: Book, next: Book) {
    next == b.(pending := next.pending)
  }

  /** A fill adds one position, whose fee is paid at once. */
  ghost predicate Opens(cfg: Settings, b: Book, next: Book, w: Pending, c: Candle, price: real, now: int) {
    && |next.open| == |b.open| + 1 && next.open[..|b.open|] == b.open
    && FilledFrom(cfg, next.open[|b.open|], w, c, price, now)
    && next.account.cash == b.account.cash - next.open[|b.open|].terms.entryFee
    && next.account.fees == b.account.fees + next.open[|b.open|].terms.entryFee
    && next.account.realized == b.account.realized && next.account.realizedToday == b.account.realizedToday
    && next.history == b.history && next.txns == b.txns + [PersistOpen(next.account, next.open[|b.open|])]
  }

  /**
   * A waiting plan opens a position exactly if it is still fresh and complete, its feed works and
   * there is room; otherwise it is cancelled.  Either way it, and no other plan, stops waiting.
   */
  lemma {:induction false} FillOrCancel(
    cfg: Settings, b: Book, w: Pending, c: Candle, price: real, now: int, feed: Feed)
    requires Sound(cfg, b) && w in b.pending
    ensures var next := Fill(cfg, b, w, c, price, now, feed);
            && (if Fillable(cfg, w.plan, now) && FeedWorks(feed, w.plan.symbol) && |b.open| < cfg.maxOpenPositions
                then Opens(cfg, b, next, w, c, price, now) else Cancels(b, next))
            && forall x :: x in next.pending <==> x in b.pending && x.id != w.id
  {
    MayFillIff(cfg, b, w.plan, now, feed);
    FillIsSound(cfg, b, w, c, price, now, feed);
    if MayFill(cfg, b, w.plan, now, feed) {
      FillGivesTerms(cfg, w, c, price, now);
    }
  }

  // ---------------------------------------------------------------------
  // A whole candle
  // ---------------------------------------------------------------------

  /** The same position, perhaps with a new mark. */
  predicate SameLife(p: Position, q: Position) {
    p.id == q.id && p.terms == q.terms && p.openedAt == q.openedAt && p.signalTime == q.signalTime
  }

  ghost predicate WasOpen(before: seq<Position>, p: Position) {
    exists q :: q in before && SameLife(p, q)
  }

  ghost predicate OpenedBy(
    cfg: Settings, waiting: seq<Pending>, p: Position, c: Candle, price: real, now: int, feed: Feed)
  {
    exists w :: w in waiting && OpenedFrom(cfg, w, p, c, price, now, feed)
  }

  ghost predicate OpenedFrom(
    cfg: Settings, w: Pending, p: Position, c: Candle, price: real, now: int, feed: Feed)
  {
    && w.plan.symbol == c.symbol && Fillable(cfg, w.plan, now) && FeedWorks(feed, c.symbol)
    && FilledFrom(cfg, p, w, c, price, now)
  }

  lemma {:induction false} ObservedWereOpen(
    cfg: Settings, before: seq<Position>, b: Book, ps: seq<Position>, c: Candle, now: int)
    requires Sound(cfg, b) && Listed(b, ps) && forall p :: p in b.open ==> WasOpen(before, p)
    ensures forall p :: p in ObserveAll(cfg, b, ps, c, now).open ==> WasOpen(before, p)
    decreases |ps|
  {
    if |ps| > 0 {
      assert ps[0] in ps;
      ObserveIsSound(cfg, b, ps[0], c, now);
      ListedAfterOne(cfg, b, ps, c, now);
      ObservedWasOpen(cfg, before, b, ps[0], c, now);
      ObservedWereOpen(cfg, before, Observe(cfg, b, ps[0], c, now), ps[1..], c, now);
    }
  }

  lemma {:induction false} ObservedWasOpen(
    cfg: Settings, before: seq<Position>, b: Book, p: Position, c: Candle, now: int)
    requires Sound(cfg, b) && p in b.open && forall q :: q in b.open ==> WasOpen(before, q)
    ensures forall q :: q in Observe(cfg, b, p, c, now).open ==> WasOpen(before, q)
  {
    match ExitOf(p.terms, c)
    case Some(e) => CloseIsSound(cfg, b, p, e, now);
    case None =>
      MarkIsSound(cfg, b, p, c);
      var q :| q in before && SameLife(p, q);
      assert SameLife(Marked(cfg, p, c), q);
  }

  lemma {:induction false} FilledWereWaiting(
    cfg: Settings, before: seq<Position>, waiting: seq<Pending>, b: Book, ws: seq<Pending>, c: Candle, price: real,
    now: int, feed: Feed)
    requires Sound(cfg, b) && Queued(b, ws) && forall w :: w in ws ==> w in waiting
    requires forall p :: p in b.open ==> WasOpen(before, p) || OpenedBy(cfg, waiting, p, c, price, now, feed)
    ensures forall p :: p in FillAll(cfg, b, ws, c, price, now, feed).open ==>
              WasOpen(before, p) || OpenedBy(cfg, waiting, p, c, price, now, feed)
    decreases |ws|
  {
    if |ws| > 0 {
      QueuedAfterOne(cfg, b, ws, c, price, now, feed);
      if ws[0].plan.symbol != c.symbol {
        FilledWereWaiting(cfg, before, waiting, b, ws[1..], c, price, now, feed);
      } else {
        assert ws[0] in ws;
        FillIsSound(cfg, b, ws[0], c, price, now, feed);
        if MayFill(cfg, b, ws[0].plan, now, feed) {
          FillIsOpenedBy(cfg, waiting, b, ws[0], c, price, now, feed);
        }
        var next := Fill(cfg, b, ws[0], c, price, now, feed);
        FilledWereWaiting(cfg, before, waiting, next, ws[1..], c, price, now, feed);
      }
    }
  }

  lemma {:induction false} FillIsOpenedBy(
    cfg: Settings, waiting: seq<Pending>, b: Book, w: Pending, c: Candle, price: real, now: int, feed: Feed)
    requires w in waiting && w.plan.symbol == c.symbol && MayFill(cfg, b, w.plan, now, feed)
    ensures OpenedBy(cfg, waiting, FillPosition(cfg, w.id, w.plan, c, price, now), c, price, now, feed)
  {
    MayFillIff(cfg, b, w.plan, now, feed);
    FillGivesTerms(cfg, w, c, price, now);
    assert OpenedFrom(cfg, w, FillPosition(cfg, w.id, w.plan, c, price, now), c, price, now, feed);
  }

  /** The price offered, unless there is none or it is zero; then the close. */
  predicate PaidAt(c: Candle, offered: Option<real>, price: real) {
    match offered
    case Some(x) => price == if x == 0.0 then c.close else x
    case None => price == c.close
  }

  /**
   * What is open after a candle was open before it, or comes from a plan that waited for its symbol,
   * still fresh, on a working feed, with the levels and the size of that plan.
   */
  lemma {:induction false} CandleOpensFillable(
    cfg: Settings, b: Book, c: Candle, entryPrice: Option<real>, now: int, feed: Feed)
    requires Sound(cfg, b)
    ensures forall p :: p in ProcessCandle(cfg, b, c, entryPrice, now, feed).open ==>
              WasOpen(b.open, p) || OpenedBy(cfg, b.pending, p, c, EntryPrice(c, entryPrice), now, feed)
    ensures PaidAt(c, entryPrice, EntryPrice(c, entryPrice))
  {
    ResetIsSound(cfg, b, now);
    var today := ResetDay(b, now);
    SelectionIsListed(today.open, c.symbol);
    var existing := PositionsOf(today.open, c.symbol);
    assert forall p :: p in today.open ==> SameLife(p, p);
    ObserveAllIsSound(cfg, today, existing, c, now);
    ObservedWereOpen(cfg, b.open, today, existing, c, now);
    var observed := ObserveAll(cfg, today, existing, c, now);
    FilledWereWaiting(cfg, b.open, b.pending, observed, observed.pending, c, EntryPrice(c, entryPrice), now, feed);
  }

  /** A plan that is too old when its candle comes, or meets a broken feed, never opens and waits no more. */
  lemma {:induction false} LatePlansAreCancelled(
    cfg: Settings, b: Book, w: Pending, c: Candle, entryPrice: Option<real>, now: int, feed: Feed)
    requires Sound(cfg, b) && w in b.pending && w.plan.symbol == c.symbol
    requires !Fillable(cfg, w.plan, now) || !FeedWorks(feed, c.symbol)
    ensures var next := ProcessCandle(cfg, b, c, entryPrice, now, feed);
            (forall p :: p in next.open ==> p.id != w.id) && w !in next.pending
  {
    CandleOpensFillable(cfg, b, c, entryPrice, now, feed);
    CandleIsSound(cfg, b, c, entryPrice, now, feed);
    SameIdSamePlan(b, w);
    assert Unused(b, w.id);
    forall p | p in ProcessCandle(cfg, b, c, entryPrice, now, feed).open ensures p.id != w.id {
      if !WasOpen(b.open, p) {
        var x :| x in b.pending && OpenedFrom(cfg, x, p, c, EntryPrice(c, entryPrice), now, feed);
      }
    }
  }

  // ---------------------------------------------------------------------
  // Plans that are accepted
  // ---------------------------------------------------------------------

  /** The newest of a log, as many as there is room for. */
  ghost predicate Newest<T>(kept: seq<T>, log: seq<T>, room: nat) {
    && |kept| <= |log| && kept == log[|log| - |kept|..]
    && (kept == log || |kept| == room) && |kept| <= room
  }

  /** The gates are open, and the plan has an identity that is not remembered. */
  predicate Admits(b: Book, p: Plan) {
    && b.recovery == RecoveryComplete && !b.paused && p.sourceOpen.Some?
    && PlanId(p.symbol, p.timeframe, p.sourceOpen.value) !in b.seen
  }

  lemma {:induction false} RememberedAreNewest(cfg: Settings, seen: seq<PlanId>, id: PlanId)
    ensures Newest(Remember(cfg, seen, id), seen + [id], 2 * cfg.maxPaperTradeHistory)
  {
  }

  lemma {:induction false} SeenAfter(cfg: Settings, b: Book, p: Plan, now: int)
    ensures ProcessPlan(cfg, b, p, now).0.seen
            == (if Admits(b, p) then Remember(cfg, b.seen, Identity(p).value) else b.seen)
  {
  }

  lemma {:induction false} AcceptsIff(cfg: Settings, b: Book, p: Plan, now: int)
    ensures ProcessPlan(cfg, b, p, now).1 <==> Admits(b, p) && ValidPlan(cfg, p, now)
  {
  }

  /**
   * A plan is accepted exactly while recovery is complete and entries are not paused, if it is fresh
   * and complete and its identity is not remembered; and of the identities seen, the newest are
   * remembered, twice as many as there are trades kept.
   */
  lemma {:induction false} AcceptedIff(cfg: Settings, b: Book, p: Plan, now: int)
    ensures ProcessPlan(cfg, b, p, now).1 <==> Admits(b, p) && Fillable(cfg, p, now)
    ensures var seen := ProcessPlan(cfg, b, p, now).0.seen;
            if Admits(b, p)
            then Newest(seen, b.seen + [PlanId(p.symbol, p.timeframe, p.sourceOpen.value)],
                        2 * cfg.maxPaperTradeHistory)
            else seen == b.seen
  {
    AcceptsIff(cfg, b, p, now);
    ValidIffFillable(cfg, p, now);
    SeenAfter(cfg, b, p, now);
    if Admits(b, p) {
      RememberedAreNewest(cfg, b.seen, PlanId(p.symbol, p.timeframe, p.sourceOpen.value));
    }
  }
}
