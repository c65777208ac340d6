/**
 * What an open position is worth: its price at the last candle of its symbol, less the fee that
 * closing it there would cost.  Equity, and every point of an equity curve, follow from it.
 */
module Marks {
  import opened Common
  import opened Configuration
  import opened Market
  import opened Strategy
  import opened Risk
  import opened Ledger
  import opened LedgerInvariants
  import opened LedgerEquity
  import opened Backtest
  import opened BacktestInvariants
  import opened BacktestReconciliation
  import opened NoLookahead
  import opened Drawdown

  /** The change of price since the fill, in favour of the position. */
  function GainAt(t: Terms, price: real): real {
    Product(if t.direction.Long? then price - t.entryFill else t.entryFill - price, t.quantity)
  }

  /** The fee for closing at a price: so many ten-thousandths of the amount. */
  function ClosingFee(cfg: Settings, t: Terms, price: real): real {
    Product(Product(price, t.quantity), cfg.paperFeeBps) / 10_000.0
  }

  ghost predicate ValuedAt(cfg: Settings, p: Position, price: real) {
    && p.mark.price == price && p.mark.gross == GainAt(p.terms, price)
    && p.mark.exitFee == ClosingFee(cfg, p.terms, price)
    && p.mark.net == GainAt(p.terms, price) - ClosingFee(cfg, p.terms, price)
  }

  // ---------------------------------------------------------------------
  // One candle
  // ---------------------------------------------------------------------

  lemma {:induction false} MarkedIsValued(cfg: Settings, p: Position, c: Candle)
    ensures ValuedAt(cfg, Marked(cfg, p, c), c.close)
  {
  }

  lemma {:induction false} FilledIsValued(cfg: Settings, id: PlanId, plan: Plan, c: Candle, price: real, now: int)
    requires ValidPlan(cfg, plan, now)
    ensures ValuedAt(cfg, FillPosition(cfg, id, plan, c, price, now), c.close)
  {
  }

  /** Positions of other symbols are as they were; those of the symbol are still to come, or valued at the close. */
  ghost predicate Valuing(cfg: Settings, before: seq<Position>, open: seq<Position>, left: seq<Position>, c: Candle) {
    forall p :: p in open ==>
      if p.id.symbol != c.symbol then p in before else p in left || ValuedAt(cfg, p, c.close)
  }

  lemma {:induction false} CloseValues(
    cfg: Settings, before: seq<Position>, b: Book, ps: seq<Position>, c: Candle, e: Exit, now: int)
    requires Sound(cfg, b) && |ps| > 0 && ps[0] in b.open && Valuing(cfg, before, b.open, ps, c)
    ensures Valuing(cfg, before, ClosePosition(cfg, b, ps[0], e, now).0.open, ps[1..], c)
  {
    assert forall p :: p in ps <==> p == ps[0] || p in ps[1..];
    CloseIsSound(cfg, b, ps[0], e, now);
  }

  lemma {:induction false} MarkValues(cfg: Settings, before: seq<Position>, b: Book, ps: seq<Position>, c: Candle)
    requires Sound(cfg, b) && |ps| > 0 && ps[0] in b.open && Valuing(cfg, before, b.open, ps, c)
    requires ps[0].id.symbol == c.symbol
    ensures Valuing(cfg, before, MarkPosition(cfg, b, ps[0], c).open, ps[1..], c)
  {
    assert forall p :: p in ps <==> p == ps[0] || p in ps[1..];
    MarkedIsValued(cfg, ps[0], c);
    MarkIsSound(cfg, b, ps[0], c);
  }

  lemma {:induction false} ObserveValues(
    cfg: Settings, before: seq<Position>, b: Book, ps: seq<Position>, c: Candle, now: int)
    requires Sound(cfg, b) && |ps| > 0 && ps[0] in b.open && Valuing(cfg, before, b.open, ps, c)
    requires ps[0].id.symbol == c.symbol
    ensures Valuing(cfg, before, Observe(cfg, b, ps[0], c, now).open, ps[1..], c)
  {
    match ExitOf(ps[0].terms, c)
    case Some(e) => CloseValues(cfg, before, b, ps, c, e, now);
    case None => MarkValues(cfg, before, b, ps, c);
  }

  lemma {:induction false} ObserveAllValues(
    cfg: Settings, before: seq<Position>, b: Book, ps: seq<Position>, c: Candle, now: int)
    requires Sound(cfg, b) && Listed(b, ps) && Valuing(cfg, before, b.open, ps, c)
    requires forall p :: p in ps ==> p.id.symbol == c.symbol
    ensures Valuing(cfg, before, ObserveAll(cfg, b, ps, c, now).open, [], c)
    decreases |ps|
  {
    if |ps| > 0 {
      ObserveValues(cfg, before, b, ps, c, now);
      ObserveIsSound(cfg, b, ps[0], c, now);
      ListedAfterOne(cfg, b, ps, c, now);
      ObserveAllValues(cfg, before, Observe(cfg, b, ps[0], c, now), ps[1..], c, now);
    }
  }

  lemma {:induction false} FillValues(
    cfg: Settings, before: seq<Position>, b: Book, w: Pending, c: Candle, price: real, now: int, feed: Feed)
    requires Sound(cfg, b) && w in b.pending && w.plan.symbol == c.symbol && Valuing(cfg, before, b.open, [], c)
    ensures Valuing(cfg, before, Fill(cfg, b, w, c, price, now, feed).open, [], c)
  {
    FillIsSound(cfg, b, w, c, price, now, feed);
    if MayFill(cfg, b, w.plan, now, feed) {
      FilledIsValued(cfg, w.id, w.plan, c, price, now);
    }
  }

  lemma {:induction false} FillAllValues(
    cfg: Settings, before: seq<Position>, b: Book, ws: seq<Pending>, c: Candle, price: real, now: int, feed: Feed)
    requires Sound(cfg, b) && Queued(b, ws) && Valuing(cfg, before, b.open, [], c)
    ensures Valuing(cfg, before, FillAll(cfg, b, ws, c, price, now, feed).open, [], c)
    decreases |ws|
  {
    if |ws| > 0 {
      QueuedAfterOne(cfg, b, ws, c, price, now, feed);
      if ws[0].plan.symbol != c.symbol {
        FillAllValues(cfg, before, b, ws[1..], c, price, now, feed);
      } else {
        FillValues(cfg, before, b, ws[0], c, price, now, feed);
        FillIsSound(cfg, b, ws[0], c, price, now, feed);
        FillAllValues(cfg, before, Fill(cfg, b, ws[0], c, price, now, feed), ws[1..], c, price, now, feed);
      }
    }
  }

  /** After a candle every open position of its symbol is valued at its close, and the others are untouched. */
  lemma {:induction false} CandleValues(
    cfg: Settings, b: Book, c: Candle, entryPrice: Option<real>, now: int, feed: Feed)
    requires Sound(cfg, b)
    ensures forall p :: p in ProcessCandle(cfg, b, c, entryPrice, now, feed).open ==>
              if p.id.symbol == c.symbol then ValuedAt(cfg, p, c.close) else p in b.open
  {
    ResetIsSound(cfg, b, now);
    var today := ResetDay(b, now);
    SelectionIsListed(today.open, c.symbol);
    var existing := PositionsOf(today.open, c.symbol);
    ObserveAllIsSound(cfg, today, existing, c, now);
    ObserveAllValues(cfg, b.open, today, existing, c, now);
    var observed := ObserveAll(cfg, today, existing, c, now);
    FillAllValues(cfg, b.open, observed, observed.pending, c, EntryPrice(c, entryPrice), now, feed);
  }

  // ---------------------------------------------------------------------
  // A whole replay
  // ---------------------------------------------------------------------

  /** The close of the last candle of a symbol, if there was one. */
  function LastClose(cs: seq<Candle>, symbol: string): Option<real> {
    if |cs| == 0 then None
    else if cs[|cs| - 1].symbol == symbol then Some(cs[|cs| - 1].close)
    else LastClose(cs[..|cs| - 1], symbol)
  }

  ghost predicate MarkedToMarket(cfg: Settings, cs: seq<Candle>, open: seq<Position>) {
    forall p :: p in open ==>
      LastClose(cs, p.id.symbol).Some? && ValuedAt(cfg, p, LastClose(cs, p.id.symbol).value)
  }

  lemma {:induction false} StepMarksToMarket(
    cfg: Settings, feed: Feed, cs: seq<Candle>, r: Replay, c: Candle, wall: int)
    requires Sound(cfg, r.book) && RiskInStep(r) && MarkedToMarket(cfg, cs, r.book.open)
    requires Step(cfg, feed, r, c, wall).Ok?
    ensures MarkedToMarket(cfg, cs + [c], Step(cfg, feed, r, c, wall).value.book.open)
  {
    StepAccount(cfg, feed, r, c, wall);
    CandleValues(cfg, r.book, c, Some(c.open), c.closeTime, feed);
    assert (cs + [c])[..|cs|] == cs;
  }

  /** At every point of a replay each open position is valued at the last close of its symbol. */
  lemma {:induction false} EveryPositionIsMarked(
    cfg: Settings, feed: Feed, start: int, cs: seq<Candle>, wall: nat -> int)
    requires Replayed(cfg, feed, start, cs, wall).Ok?
    ensures MarkedToMarket(cfg, cs, Replayed(cfg, feed, start, cs, wall).value.book.open)
  {
    if |cs| > 0 {
      var before, after := LastStep(cfg, feed, start, cs, wall);
      var front, last := cs[..|cs| - 1], cs[|cs| - 1];
      EveryPositionIsMarked(cfg, feed, start, front, wall);
      EveryReplayIsSound(cfg, feed, start, front, wall);
      RiskEngineKnowsTheAccount(cfg, feed, start, front, wall);
      StepMarksToMarket(cfg, feed, front, before, last, wall(|cs| - 1));
      SplitLast(cs, 0);
    }
  }

  // ---------------------------------------------------------------------
  // The equity curve
  // ---------------------------------------------------------------------

  /** What an open position adds to the balance: its worth at the last close, less the fee already paid. */
  function CarriedAt(cfg: Settings, cs: seq<Candle>, p: Position): real {
    var price := if LastClose(cs, p.id.symbol).Some? then LastClose(cs, p.id.symbol).value else 0.0;
    GainAt(p.terms, price) - ClosingFee(cfg, p.terms, price) - p.terms.entryFee
  }

  /** The balance that the trades made so far and the open positions amount to. */
  function Worth(cfg: Settings, cs: seq<Candle>, b: Book): real {
    b.account.starting + Sum(NetOf, b.history) + Sum((p: Position) => CarriedAt(cfg, cs, p), b.open)
  }

  lemma {:induction false} EquityIsWorth(cfg: Settings, cs: seq<Candle>, b: Book)
    requires Sound(cfg, b) && MarkedToMarket(cfg, cs, b.open)
    ensures b.account.equity == Worth(cfg, cs, b) <==> EquityOk(b)
  {
    var f := (p: Position) => CarriedAt(cfg, cs, p);
    forall i | 0 <= i < |b.open| ensures f(b.open[i]) == CarriedBy(b.open[i]) {
      assert b.open[i] in b.open;
    }
    SumAgree(CarriedBy, f, b.open, b.open);
    SumDifference(UnrealizedOf, EntryFeeOf, CarriedBy, b.open);
  }

  /** A point says how far it lies below the peak, as an amount and in percent of the peak. */
  ghost predicate FallsFrom(p: EquityPoint, peak: real) {
    p.drawdown == peak - p.equity && Product(p.drawdownPercent, peak) == Product(100.0, p.drawdown)
  }

  lemma {:induction false} PointFalls(timestamp: int, equity: real, peak: real)
    requires peak > 0.0
    ensures FallsFrom(PointAt(timestamp, equity, peak), peak)
  {
    var q := (peak - equity) / peak;
    assert (q * 100.0) * peak == 100.0 * (q * peak);
  }

  /** The last point of a replay is the account after its last candle, and how far that lies below the peak. */
  lemma {:induction false} LastPoint(cfg: Settings, feed: Feed, start: int, cs: seq<Candle>, wall: nat -> int)
    requires |cs| > 0 && Replayed(cfg, feed, start, cs, wall).Ok? && cfg.startingBalance == cfg.backtestStartingBalance
    ensures var r := Replayed(cfg, feed, start, cs, wall).value;
            && |r.curve| == |cs|
            && r.curve[|cs| - 1].timestamp == cs[|cs| - 1].closeTime
            && r.curve[|cs| - 1].equity == r.book.account.equity
            && FallsFrom(r.curve[|cs| - 1], Peak(Equities(cfg.startingBalance, r.curve)))
  {
    var before, after := LastStep(cfg, feed, start, cs, wall);
    RiskEngineKnowsTheAccount(cfg, feed, start, cs[..|cs| - 1], wall);
    StepAccount(cfg, feed, before, cs[|cs| - 1], wall(|cs| - 1));
    ReplayKeepsCurve(cfg, feed, start, cs, wall);
    EveryReplayIsSound(cfg, feed, start, cs, wall);
    assert Equities(cfg.startingBalance, after.curve)[0] == cfg.startingBalance;
    PeakIsHighest(Equities(cfg.startingBalance, after.curve));
    PointFalls(cs[|cs| - 1].closeTime, after.book.account.equity, after.peak);
  }

  lemma {:induction false} WorthOfReplay(cfg: Settings, feed: Feed, start: int, cs: seq<Candle>, wall: nat -> int)
    requires cfg.maxOpenPositions == 1 && Replayed(cfg, feed, start, cs, wall).Ok?
    ensures var b := Replayed(cfg, feed, start, cs, wall).value.book;
            b.account.starting == cfg.startingBalance && b.account.equity == Worth(cfg, cs, b)
  {
    EveryReplayIsSound(cfg, feed, start, cs, wall);
    ReplayKeepsEquity(cfg, feed, start, cs, wall);
    EveryPositionIsMarked(cfg, feed, start, cs, wall);
    EquityIsWorth(cfg, cs, Replayed(cfg, feed, start, cs, wall).value.book);
  }

  /** Point `n` of a curve, in terms of the book after `n` candles. */
  ghost predicate PointShows(cfg: Settings, cs: seq<Candle>, n: nat, curve: seq<EquityPoint>, b: Book)
    requires 0 < n <= |cs| && n <= |curve|
  {
    && b.account.starting == cfg.startingBalance
    && curve[n - 1].timestamp == cs[n - 1].closeTime
    && curve[n - 1].equity == Worth(cfg, cs[..n], b)
    && FallsFrom(curve[n - 1], Peak(Equities(cfg.startingBalance, curve[..n])))
  }

  lemma {:induction false} PointOfReplay(
    cfg: Settings, feed: Feed, start: int, cs: seq<Candle>, wall: nat -> int, n: nat)
    returns (early: Replay)
    requires Replayed(cfg, feed, start, cs, wall).Ok? && 0 < n <= |cs|
    requires cfg.maxOpenPositions == 1 && cfg.startingBalance == cfg.backtestStartingBalance
    ensures Replayed(cfg, feed, start, cs[..n], wall) == Ok(early)
    ensures |Replayed(cfg, feed, start, cs, wall).value.curve| == |cs|
    ensures PointShows(cfg, cs, n, Replayed(cfg, feed, start, cs, wall).value.curve, early.book)
  {
    early := PrefixDecides(cfg, feed, start, cs, wall, n);
    LastPoint(cfg, feed, start, cs[..n], wall);
    WorthOfReplay(cfg, feed, start, cs[..n], wall);
    var curve := Replayed(cfg, feed, start, cs, wall).value.curve;
    assert early.curve[n - 1] == curve[..n][n - 1] == curve[n - 1];
  }

  /**
   * Every point of the curve of a backtest, with one position allowed: dated by its candle, its
   * equity is the starting balance, plus every trade made by then, plus what the open position is
   * worth; and its drawdown is how far that lies below the highest equity so far.
   */
  lemma {:induction false} CurveIsWorth(cfg: Settings, q: Request, cs: seq<Candle>, wall: nat -> int, n: nat)
    returns (early: Replay)
    requires RunBacktest(cfg, q, cs, wall).Ok? && 0 < n <= |Ordered(q, cs)| && cfg.maxOpenPositions == 1
    ensures Replayed(ReplaySettings(cfg), ReplayFeed(q), q.start, Ordered(q, cs)[..n], wall) == Ok(early)
    ensures |RunBacktest(cfg, q, cs, wall).value.curve| == |Ordered(q, cs)|
    ensures PointShows(ReplaySettings(cfg), Ordered(q, cs), n, RunBacktest(cfg, q, cs, wall).value.curve, early.book)
  {
    SummaryOfReplay(cfg, q, cs, wall);
    early := PointOfReplay(ReplaySettings(cfg), ReplayFeed(q), q.start, Ordered(q, cs), wall, n);
  }
}
