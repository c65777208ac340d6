/** The paper lifecycle commutes with a change of units. */
module ScalingBook {
  import opened Common
  import opened Tables
  import opened Configuration
  import opened Market
  import opened Strategy
  import opened Risk
  import opened Ledger
  import opened Scaling
  import opened ScalingSignals

  // ---------------------------------------------------------------------
  // Fills, marks and exits
  // ---------------------------------------------------------------------

  lemma {:induction false} FillsScale(k: real, price: real, d: Direction, bps: real)
    ensures EntryFill(Product(k, price), d, bps) == Product(k, EntryFill(price, d, bps))
    ensures ExitFill(Product(k, price), d, bps) == Product(k, ExitFill(price, d, bps))
  {
    ProductOfProduct(k, price, 1.0 + bps / 10_000.0);
    ProductOfProduct(k, price, 1.0 - bps / 10_000.0);
  }

  lemma {:induction false} FeeScales(z: Scale, price: real, quantity: real, bps: real)
    ensures Fee(Product(Product(z.k, price), Product(z.q, quantity)), bps)
            == Product(z.c, Fee(Product(price, quantity), bps))
  {
    QuantityTimesPrice(z, quantity, price);
    BpsOfScales(z.c, Product(price, quantity), bps);
  }

  lemma {:induction false} GrossScales(z: Scale, entry: real, exit: real, quantity: real, d: Direction)
    ensures GrossPnl(Product(z.k, entry), Product(z.k, exit), Product(z.q, quantity), d)
            == Product(z.c, GrossPnl(entry, exit, quantity, d))
  {
    ProductDistributes(z.k, exit, entry);
    ProductDistributes(z.k, entry, exit);
    QuantityTimesPrice(z, quantity, exit - entry);
    QuantityTimesPrice(z, quantity, entry - exit);
  }

  lemma {:induction false} MarkScales(z: Scale, cfg: Settings, t: Terms, price: real)
    ensures MarkAt(SettingsIn(z, cfg), TermsIn(z, t), Product(z.k, price)) == MarkIn(z, MarkAt(cfg, t, price))
  {
    FeeScales(z, price, t.quantity, cfg.paperFeeBps);
    GrossScales(z, t.entryFill, price, t.quantity, t.direction);
    var m := MarkAt(cfg, t, price);
    ProductDistributes(z.c, m.gross, m.exitFee);
  }

  /** The same candle in other units hits the same levels. */
  lemma {:induction false} ExitScales(z: Scale, t: Terms, c: Candle)
    ensures ExitOf(TermsIn(z, t), CandleIn(z, c)) == ExitIn(z, ExitOf(t, c))
  {
    ProductOrder(z.k, c.low, t.stop);
    ProductOrder(z.k, t.stop, c.high);
    ProductOrder(z.k, t.target, c.high);
    ProductOrder(z.k, c.low, t.target);
    ProductOrder(z.k, c.open, t.stop);
    ProductOrder(z.k, t.stop, c.open);
    ProductOrder(z.k, c.open, t.target);
    ProductOrder(z.k, t.target, c.open);
  }

  lemma {:induction false} CloseTradeScales(z: Scale, cfg: Settings, p: Position, e: Exit, now: int)
    ensures CloseTrade(SettingsIn(z, cfg), PositionIn(z, p), Exit(Product(z.k, e.trigger), e.reason), now)
            == TradeIn(z, CloseTrade(cfg, p, e, now))
    ensures ExitFeeAt(SettingsIn(z, cfg), TermsIn(z, p.terms), Product(z.k, CloseTrade(cfg, p, e, now).exitFill))
            == Product(z.c, ExitFeeAt(cfg, p.terms, CloseTrade(cfg, p, e, now).exitFill))
  {
    var t := p.terms;
    var trade := CloseTrade(cfg, p, e, now);
    FillsScale(z.k, e.trigger, t.direction, cfg.exitSlippageBps);
    FeeScales(z, trade.exitFill, t.quantity, cfg.paperFeeBps);
    GrossScales(z, t.entryFill, trade.exitFill, t.quantity, t.direction);
    ProductDistributes(z.c, t.entryFee, ExitFeeAt(cfg, t, trade.exitFill));
    ProductDistributes(z.c, trade.gross, trade.fees);
  }

  lemma {:induction false} AccountAfterCloseScales(z: Scale, a: Account, t: Trade, exitFee: real, openCount: nat)
    ensures AccountAfterClose(AccountIn(z, a), TradeIn(z, t), Product(z.c, exitFee), openCount)
            == AccountIn(z, AccountAfterClose(a, t, exitFee, openCount))
  {
    ProductDistributes(z.c, a.cash, t.gross);
    ProductDistributes(z.c, a.cash + t.gross, exitFee);
    ProductDistributes(z.c, a.realized, t.net);
    ProductDistributes(z.c, a.realizedToday, t.net);
    ProductDistributes(z.c, a.gross, t.gross);
    ProductDistributes(z.c, a.fees, exitFee);
    ProductOrder(z.c, t.net, 0.0);
  }

  lemma {:induction false} RevaluedScales(z: Scale, a: Account, open: seq<Position>)
    ensures Revalued(AccountIn(z, a), PositionsIn(z, open)) == AccountIn(z, Revalued(a, open))
  {
    SumInUnits(UnrealizedOf, z.c, open, PositionsIn(z, open));
    ProductDistributes(z.c, a.cash, Sum(UnrealizedOf, open));
  }

  lemma {:induction false} AccountAfterOpenScales(z: Scale, a: Account, fee: real, openCount: nat)
    ensures AccountAfterOpen(AccountIn(z, a), Product(z.c, fee), openCount)
            == AccountIn(z, AccountAfterOpen(a, fee, openCount))
  {
    ProductDistributes(z.c, a.cash, fee);
    ProductDistributes(z.c, a.fees, fee);
  }

  // ---------------------------------------------------------------------
  // Tables
  // ---------------------------------------------------------------------

  lemma {:induction false} FindPosition(z: Scale, ps: seq<Position>, id: PlanId)
    ensures Find(PositionKey, PositionsIn(z, ps), id) == Find(PositionKey, ps, id)
  {
    if |ps| > 0 && ps[0].id != id {
      assert PositionsIn(z, ps)[1..] == PositionsIn(z, ps[1..]);
      FindPosition(z, ps[1..], id);
    }
  }

  lemma {:induction false} DropPositionScales(z: Scale, ps: seq<Position>, id: PlanId)
    ensures Drop(PositionKey, PositionsIn(z, ps), id) == PositionsIn(z, Drop(PositionKey, ps, id))
  {
    FindPosition(z, ps, id);
  }

  lemma {:induction false} PutPositionScales(z: Scale, ps: seq<Position>, p: Position)
    ensures Put(PositionKey, PositionsIn(z, ps), PositionIn(z, p)) == PositionsIn(z, Put(PositionKey, ps, p))
  {
    FindPosition(z, ps, p.id);
  }

  lemma {:induction false} FindWaiting(z: Scale, ws: seq<Pending>, id: PlanId)
    ensures Find(PendingKey, WaitingIn(z, ws), id) == Find(PendingKey, ws, id)
  {
    if |ws| > 0 && ws[0].id != id {
      assert WaitingIn(z, ws)[1..] == WaitingIn(z, ws[1..]);
      FindWaiting(z, ws[1..], id);
    }
  }

  lemma {:induction false} DropWaitingScales(z: Scale, ws: seq<Pending>, id: PlanId)
    ensures Drop(PendingKey, WaitingIn(z, ws), id) == WaitingIn(z, Drop(PendingKey, ws, id))
  {
    FindWaiting(z, ws, id);
    var i, scaled := Find(PendingKey, ws, id), WaitingIn(z, ws);
    if i < |ws| {
      assert Drop(PendingKey, scaled, id) == scaled[..i] + scaled[i + 1..];
      WaitingParts(z, ws, i);
    }
  }

  lemma {:induction false} WaitingParts(z: Scale, ws: seq<Pending>, i: nat)
    requires i < |ws|
    ensures WaitingIn(z, ws[..i] + ws[i + 1..]) == WaitingIn(z, ws)[..i] + WaitingIn(z, ws)[i + 1..]
  {
    var x, y := WaitingIn(z, ws[..i] + ws[i + 1..]), WaitingIn(z, ws)[..i] + WaitingIn(z, ws)[i + 1..];
    assert |x| == |y|;
    forall k | 0 <= k < |x| ensures x[k] == y[k] {
    }
  }

  lemma {:induction false} PutWaitingScales(z: Scale, ws: seq<Pending>, w: Pending)
    ensures Put(PendingKey, WaitingIn(z, ws), PendingIn(z, w)) == WaitingIn(z, Put(PendingKey, ws, w))
  {
    FindWaiting(z, ws, w.id);
  }

  lemma {:induction false} TradesAppend(z: Scale, ts: seq<Trade>, t: Trade, n: nat)
    ensures TradesIn(z, ts + [t]) == TradesIn(z, ts) + [TradeIn(z, t)]
    ensures LastN(TradesIn(z, ts) + [TradeIn(z, t)], n) == TradesIn(z, LastN(ts + [t], n))
  {
  }

  lemma {:induction false} WriteScales(z: Scale, b: Book, t: Txn)
    ensures Write(BookIn(z, b), TxnIn(z, t)) == BookIn(z, Write(b, t))
  {
  }

  lemma {:induction false} SelectionScales(z: Scale, open: seq<Position>, symbol: string)
    ensures PositionsOf(PositionsIn(z, open), symbol) == PositionsIn(z, PositionsOf(open, symbol))
  {
    if |open| > 0 {
      assert PositionsIn(z, open)[..|open| - 1] == PositionsIn(z, open[..|open| - 1]);
      SelectionScales(z, open[..|open| - 1], symbol);
    }
  }

  // ---------------------------------------------------------------------
  // Steps
  // ---------------------------------------------------------------------

  lemma {:induction false} ResetScales(z: Scale, b: Book, now: int)
    ensures ResetDay(BookIn(z, b), now) == BookIn(z, ResetDay(b, now))
  {
    ProductDistributes(z.c, 0.0, 0.0);
    var a := b.account.(day := Day(now), realizedToday := 0.0);
    WriteScales(z, b.(account := a), PersistAccount(a));
  }

  lemma {:induction false} ClosePositionScales(z: Scale, cfg: Settings, b: Book, p: Position, e: Exit, now: int)
    ensures var (next, t) := ClosePosition(cfg, b, p, e, now);
            ClosePosition(SettingsIn(z, cfg), BookIn(z, b), PositionIn(z, p),
                          Exit(Product(z.k, e.trigger), e.reason), now)
            == (BookIn(z, next), TradeIn(z, t))
  {
    var t := CloseTrade(cfg, p, e, now);
    CloseTradeScales(z, cfg, p, e, now);
    DropPositionScales(z, b.open, p.id);
    TradesAppend(z, b.closed, t, cfg.maxPaperTradeHistory);
    TradesAppend(z, b.history, t, cfg.maxPaperTradeHistory);
    AccountAfterCloseScales(z, b.account, t, ExitFeeAt(cfg, p.terms, t.exitFill), |Drop(PositionKey, b.open, p.id)|);
  }

  lemma {:induction false} MarkPositionScales(z: Scale, cfg: Settings, b: Book, p: Position, c: Candle)
    ensures Marked(SettingsIn(z, cfg), PositionIn(z, p), CandleIn(z, c)) == PositionIn(z, Marked(cfg, p, c))
    ensures MarkPosition(SettingsIn(z, cfg), BookIn(z, b), PositionIn(z, p), CandleIn(z, c))
            == BookIn(z, MarkPosition(cfg, b, p, c))
  {
    MarkScales(z, cfg, p.terms, c.close);
    var q := Marked(cfg, p, c);
    PutPositionScales(z, b.open, q);
    RevaluedScales(z, b.account, Put(PositionKey, b.open, q));
  }

  lemma {:induction false} ObserveScales(z: Scale, cfg: Settings, b: Book, p: Position, c: Candle, now: int)
    ensures Observe(SettingsIn(z, cfg), BookIn(z, b), PositionIn(z, p), CandleIn(z, c), now)
            == BookIn(z, Observe(cfg, b, p, c, now))
  {
    ExitScales(z, p.terms, c);
    match ExitOf(p.terms, c)
    case Some(e) =>
      ClosePositionScales(z, cfg, b, p, e, now);
      var (next, t) := ClosePosition(cfg, b, p, e, now);
      WriteScales(z, next, PersistClose(next.account, t));
    case None =>
      MarkPositionScales(z, cfg, b, p, c);
      var next := MarkPosition(cfg, b, p, c);
      WriteScales(z, next, PersistOpen(next.account, Marked(cfg, p, c)));
  }

  lemma {:induction false} ObserveAllScales(z: Scale, cfg: Settings, b: Book, ps: seq<Position>, c: Candle, now: int)
    ensures ObserveAll(SettingsIn(z, cfg), BookIn(z, b), PositionsIn(z, ps), CandleIn(z, c), now)
            == BookIn(z, ObserveAll(cfg, b, ps, c, now))
    decreases |ps|
  {
    if |ps| > 0 {
      assert PositionsIn(z, ps)[1..] == PositionsIn(z, ps[1..]);
      ObserveScales(z, cfg, b, ps[0], c, now);
      ObserveAllScales(z, cfg, Observe(cfg, b, ps[0], c, now), ps[1..], c, now);
    }
  }

  lemma {:induction false} PlanChecksIgnoreUnits(z: Scale, cfg: Settings, p: Plan, now: int)
    ensures ValidPlan(SettingsIn(z, cfg), PlanIn(z, p), now) == ValidPlan(cfg, p, now)
    ensures Identity(PlanIn(z, p)) == Identity(p)
  {
  }

  lemma {:induction false} FillPositionScales(
    z: Scale, cfg: Settings, id: PlanId, p: Plan, c: Candle, price: real, now: int)
    requires ValidPlan(cfg, p, now)
    ensures ValidPlan(SettingsIn(z, cfg), PlanIn(z, p), now)
    ensures FillPosition(SettingsIn(z, cfg), id, PlanIn(z, p), CandleIn(z, c), Product(z.k, price), now)
            == PositionIn(z, FillPosition(cfg, id, p, c, price, now))
  {
    var terms := FillTerms(cfg, p, price);
    FillsScale(z.k, price, p.direction, cfg.entrySlippageBps);
    QuantityTimesPrice(z, p.quantity.value, terms.entryFill);
    BpsOfScales(z.c, terms.notional, cfg.paperFeeBps);
    MarkScales(z, cfg, terms, c.close);
  }

  lemma {:induction false} OpenPositionScales(z: Scale, b: Book, p: Position)
    ensures OpenPosition(BookIn(z, b), PositionIn(z, p)) == BookIn(z, OpenPosition(b, p))
  {
    var open := Put(PositionKey, b.open, p);
    PutPositionScales(z, b.open, p);
    AccountAfterOpenScales(z, b.account, p.terms.entryFee, |open|);
    RevaluedScales(z, AccountAfterOpen(b.account, p.terms.entryFee, |open|), open);
  }

  lemma {:induction false} FillScales(
    z: Scale, cfg: Settings, b: Book, w: Pending, c: Candle, price: real, now: int, feed: Feed)
    ensures MayFill(SettingsIn(z, cfg), BookIn(z, b), PlanIn(z, w.plan), now, feed)
            == MayFill(cfg, b, w.plan, now, feed)
    ensures Fill(SettingsIn(z, cfg), BookIn(z, b), PendingIn(z, w), CandleIn(z, c), Product(z.k, price), now, feed)
            == BookIn(z, Fill(cfg, b, w, c, price, now, feed))
  {
    PlanChecksIgnoreUnits(z, cfg, w.plan, now);
    DropWaitingScales(z, b.pending, w.id);
    if MayFill(cfg, b, w.plan, now, feed) {
      FillPositionScales(z, cfg, w.id, w.plan, c, price, now);
      var p := FillPosition(cfg, w.id, w.plan, c, price, now);
      OpenPositionScales(z, b, p);
      var filled := OpenPosition(b, p).(pending := Drop(PendingKey, b.pending, w.id));
      WriteScales(z, filled, PersistOpen(filled.account, p));
    }
  }

  lemma {:induction false} FillAllScales(
    z: Scale, cfg: Settings, b: Book, ws: seq<Pending>, c: Candle, price: real, now: int, feed: Feed)
    ensures FillAll(SettingsIn(z, cfg), BookIn(z, b), WaitingIn(z, ws), CandleIn(z, c), Product(z.k, price), now, feed)
            == BookIn(z, FillAll(cfg, b, ws, c, price, now, feed))
    ensures AnyFills(SettingsIn(z, cfg), BookIn(z, b), WaitingIn(z, ws), CandleIn(z, c), Product(z.k, price), now, feed)
            == AnyFills(cfg, b, ws, c, price, now, feed)
    decreases |ws|
  {
    if |ws| > 0 {
      assert WaitingIn(z, ws)[1..] == WaitingIn(z, ws[1..]);
      if ws[0].plan.symbol != c.symbol {
        FillAllScales(z, cfg, b, ws[1..], c, price, now, feed);
      } else {
        FillScales(z, cfg, b, ws[0], c, price, now, feed);
        FillAllScales(z, cfg, Fill(cfg, b, ws[0], c, price, now, feed), ws[1..], c, price, now, feed);
      }
    }
  }

  lemma {:induction false} EntryPriceScales(z: Scale, c: Candle)
    ensures EntryPrice(CandleIn(z, c), Some(CandleIn(z, c).open)) == Product(z.k, EntryPrice(c, Some(c.open)))
  {
    ProductOrder(z.k, c.open, 0.0);
  }

  /** One candle, filled at its open: the whole book scales, and it changes in the same cases. */
  lemma {:induction false} ProcessCandleScales(z: Scale, cfg: Settings, b: Book, c: Candle, now: int, feed: Feed)
    ensures ProcessCandle(SettingsIn(z, cfg), BookIn(z, b), CandleIn(z, c), Some(CandleIn(z, c).open), now, feed)
            == BookIn(z, ProcessCandle(cfg, b, c, Some(c.open), now, feed))
    ensures Changes(SettingsIn(z, cfg), BookIn(z, b), CandleIn(z, c), Some(CandleIn(z, c).open), now, feed)
            == Changes(cfg, b, c, Some(c.open), now, feed)
  {
    ResetScales(z, b, now);
    var today := ResetDay(b, now);
    var existing := PositionsOf(today.open, c.symbol);
    SelectionScales(z, today.open, c.symbol);
    ObserveAllScales(z, cfg, today, existing, c, now);
    var observed := ObserveAll(cfg, today, existing, c, now);
    EntryPriceScales(z, c);
    FillAllScales(z, cfg, observed, observed.pending, c, EntryPrice(c, Some(c.open)), now, feed);
  }

  lemma {:induction false} ProcessPlanScales(z: Scale, cfg: Settings, b: Book, p: Plan, now: int)
    ensures var (next, accepted) := ProcessPlan(cfg, b, p, now);
            ProcessPlan(SettingsIn(z, cfg), BookIn(z, b), PlanIn(z, p), now) == (BookIn(z, next), accepted)
  {
    PlanChecksIgnoreUnits(z, cfg, p, now);
    ResetScales(z, b, now);
    if Identity(p).Some? {
      PutWaitingScales(z, ResetDay(b, now).pending, Pending(Identity(p).value, p));
    }
  }

  function ReportIn(z: Scale, r: Report): Report {
    match r
    case Told(a) => Told(RiskAccountIn(z, a))
    case _ => r
  }

  lemma {:induction false} ReportScales(z: Scale, changed: bool, a: Account)
    ensures ReportOf(changed, AccountIn(z, a)) == ReportIn(z, ReportOf(changed, a))
  {
    ProductOrder(z.c, a.equity, 0.0);
  }
}
