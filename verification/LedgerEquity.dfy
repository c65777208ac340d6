/** When equity is cash plus the unrealized result, and what today's realized result counts. */
module LedgerEquity {
  import opened Common
  import opened Tables
  import opened Configuration
  import opened Market
  import opened Strategy
  import opened Risk
  import opened Ledger
  import opened LedgerInvariants

  ghost predicate EquityOk(b: Book) {
    b.account.equity == b.account.cash + Sum(UnrealizedOf, b.open)
  }

  /** A close forgets the other positions: equity stays right exactly when they are worth nothing together. */
  lemma {:induction false} EquityAfterClose(cfg: Settings, b: Book, p: Position, e: Exit, now: int)
    requires Sound(cfg, b) && p in b.open
    ensures var next := ClosePosition(cfg, b, p, e, now).0;
            EquityOk(next) <==> Sum(UnrealizedOf, Drop(PositionKey, b.open, p.id)) == 0.0
  {
  }

  lemma {:induction false} EquityAfterOne(cfg: Settings, b: Book, p: Position, c: Candle, now: int)
    ensures var next := Observe(cfg, b, p, c, now);
            EquityOk(next) <==> ExitOf(p.terms, c).None? || Sum(UnrealizedOf, next.open) == 0.0
  {
  }

  lemma {:induction false} EquityAfterObserving(cfg: Settings, b: Book, ps: seq<Position>, c: Candle, now: int)
    ensures var next := ObserveAll(cfg, b, ps, c, now);
            EquityOk(next) <==>
            if |ps| == 0 then EquityOk(b)
            else ExitOf(ps[|ps| - 1].terms, c).None? || Sum(UnrealizedOf, next.open) == 0.0
    decreases |ps|
  {
    if |ps| > 0 {
      EquityAfterOne(cfg, b, ps[0], c, now);
      EquityAfterObserving(cfg, Observe(cfg, b, ps[0], c, now), ps[1..], c, now);
    }
  }

  lemma {:induction false} EquityAfterFilling(
    cfg: Settings, b: Book, ws: seq<Pending>, c: Candle, price: real, now: int, feed: Feed)
    ensures EquityOk(FillAll(cfg, b, ws, c, price, now, feed)) <==>
            AnyFills(cfg, b, ws, c, price, now, feed) || EquityOk(b)
    decreases |ws|
  {
    if |ws| > 0 {
      if ws[0].plan.symbol != c.symbol {
        EquityAfterFilling(cfg, b, ws[1..], c, price, now, feed);
      } else {
        EquityAfterFilling(cfg, Fill(cfg, b, ws[0], c, price, now, feed), ws[1..], c, price, now, feed);
      }
    }
  }

  /**
   * With any number of positions: after a candle equity is right exactly when a plan was filled,
   * or the last position it reached survived it, or the positions left are worth nothing together;
   * and if it reached none, when it was right before.
   */
  lemma {:induction false} EquityAfterCandle(
    cfg: Settings, b: Book, c: Candle, entryPrice: Option<real>, now: int, feed: Feed)
    ensures var today := ResetDay(b, now);
            var ps := PositionsOf(today.open, c.symbol);
            var observed := ObserveAll(cfg, today, ps, c, now);
            EquityOk(ProcessCandle(cfg, b, c, entryPrice, now, feed)) <==>
            || AnyFills(cfg, observed, observed.pending, c, EntryPrice(c, entryPrice), now, feed)
            || (if |ps| == 0 then EquityOk(b)
                else ExitOf(ps[|ps| - 1].terms, c).None? || Sum(UnrealizedOf, observed.open) == 0.0)
  {
    var today := ResetDay(b, now);
    var ps := PositionsOf(today.open, c.symbol);
    EquityAfterObserving(cfg, today, ps, c, now);
    var observed := ObserveAll(cfg, today, ps, c, now);
    EquityAfterFilling(cfg, observed, observed.pending, c, EntryPrice(c, entryPrice), now, feed);
  }

  lemma {:induction false} UpdateKeepsEquity(cfg: Settings, b: Book, p: Position, c: Candle, now: int)
    requires Sound(cfg, b) && p in b.open && |b.open| <= 1
    ensures EquityOk(UpdateOrClose(cfg, b, p, c, now).0)
  {
    DropPosition(b.open, p);
  }

  lemma {:induction false} ObserveAllKeepsEquity(cfg: Settings, b: Book, ps: seq<Position>, c: Candle, now: int)
    requires Sound(cfg, b) && Listed(b, ps) && EquityOk(b) && cfg.maxOpenPositions == 1
    ensures EquityOk(ObserveAll(cfg, b, ps, c, now))
    decreases |ps|
  {
    if |ps| > 0 {
      UpdateKeepsEquity(cfg, b, ps[0], c, now);
      ObserveIsSound(cfg, b, ps[0], c, now);
      ListedAfterOne(cfg, b, ps, c, now);
      ObserveAllKeepsEquity(cfg, Observe(cfg, b, ps[0], c, now), ps[1..], c, now);
    }
  }

  lemma {:induction false} FillAllKeepsEquity(
    cfg: Settings, b: Book, ws: seq<Pending>, c: Candle, price: real, now: int, feed: Feed)
    requires EquityOk(b)
    ensures EquityOk(FillAll(cfg, b, ws, c, price, now, feed))
    decreases |ws|
  {
    if |ws| > 0 {
      if ws[0].plan.symbol != c.symbol {
        FillAllKeepsEquity(cfg, b, ws[1..], c, price, now, feed);
      } else {
        FillAllKeepsEquity(cfg, Fill(cfg, b, ws[0], c, price, now, feed), ws[1..], c, price, now, feed);
      }
    }
  }

  /** With one position at a time, equity is cash plus the unrealized result after every candle. */
  lemma {:induction false} CandleKeepsEquity(
    cfg: Settings, b: Book, c: Candle, entryPrice: Option<real>, now: int, feed: Feed)
    requires Sound(cfg, b) && EquityOk(b) && cfg.maxOpenPositions == 1
    ensures EquityOk(ProcessCandle(cfg, b, c, entryPrice, now, feed))
  {
    ResetIsSound(cfg, b, now);
    var today := ResetDay(b, now);
    SelectionIsListed(today.open, c.symbol);
    ObserveAllKeepsEquity(cfg, today, PositionsOf(today.open, c.symbol), c, now);
    var observed := ObserveAll(cfg, today, PositionsOf(today.open, c.symbol), c, now);
    FillAllKeepsEquity(cfg, observed, observed.pending, c, EntryPrice(c, entryPrice), now, feed);
  }

  lemma {:induction false} PlanKeepsEquity(cfg: Settings, b: Book, p: Plan, now: int)
    requires EquityOk(b)
    ensures EquityOk(ProcessPlan(cfg, b, p, now).0)
  {
  }

  // ---------------------------------------------------------------------
  // With two positions the identity fails
  // ---------------------------------------------------------------------

  const TWO_AT_ONCE: Settings :=
    DEFAULTS.(maxOpenPositions := 2, paperFeeBps := 0.0, entrySlippageBps := 0.0, exitSlippageBps := 0.0)

  function SamplePosition(symbol: string, net: real): Position {
    Position(PlanId(symbol, "1m", 0), Terms(Long, 100.0, 100.0, 1.0, 100.0, 99.0, 102.0, 1.0, 0.0),
             Mark(100.0 + net, 0.0, net, net), 60_000, Some(60_000), 0, 59_999, Some(119_999), Open)
  }

  /** Two longs, the second five ahead; the first is about to be stopped. */
  function TwoOpen(): Book {
    Book(Account(100.0, 100.0, 105.0, 0.0, 0.0, 0.0, 0.0, 2, 0, 0, 0, 0.0, 0),
         [], [SamplePosition("A", 0.0), SamplePosition("B", 5.0)], [], [], RecoveryComplete, false, [], [])
  }

  lemma {:induction false} TwoOpenIsSound()
    ensures Sound(TWO_AT_ONCE, TwoOpen()) && EquityOk(TwoOpen())
  {
    SumOfTwo(EntryFeeOf, SamplePosition("A", 0.0), SamplePosition("B", 5.0));
    SumOfTwo(UnrealizedOf, SamplePosition("A", 0.0), SamplePosition("B", 5.0));
  }

  lemma {:induction false} FirstOfTwo()
    ensures PositionsOf(TwoOpen().open, "A") == [SamplePosition("A", 0.0)]
  {
    var p, q := SamplePosition("A", 0.0), SamplePosition("B", 5.0);
    assert [p, q][..1] == [p] && [p][..0] == [];
  }

  /** From a sound book whose equity is right, one candle leads to an equity that is wrong. */
  lemma {:induction false} TwoPositionsBreakEquity()
    ensures Sound(TWO_AT_ONCE, TwoOpen()) && EquityOk(TwoOpen())
    ensures var stopping := Candle("A", "1m", 120_000, 179_999, 100.0, 100.0, 99.0, 99.5, 1.0, true);
            !EquityOk(ProcessCandle(TWO_AT_ONCE, TwoOpen(), stopping, None, 179_999, Feed(Connected, map[])))
  {
    TwoOpenIsSound();
    FirstOfTwo();
    var p, q := SamplePosition("A", 0.0), SamplePosition("B", 5.0);
    SumOfTwo(UnrealizedOf, p, q);
    assert [p][1..] == [];
    assert Drop(PositionKey, TwoOpen().open, p.id) == [q];
  }

  // ---------------------------------------------------------------------
  // Today's result
  // ---------------------------------------------------------------------

  function ClosedOn(history: seq<Trade>, day: int): real {
    if |history| == 0 then 0.0
    else
      var t := history[|history| - 1];
      ClosedOn(history[..|history| - 1], day) + (if Day(t.closedAt) == day then t.net else 0.0)
  }

  /** Today's realized result is that of the trades closed on the statistics day, and none is later. */
  ghost predicate TodayOk(b: Book) {
    && b.account.realizedToday == ClosedOn(b.history, b.account.day)
    && forall t :: t in b.history ==> Day(t.closedAt) <= b.account.day
  }

  lemma {:induction false} NothingClosedYet(history: seq<Trade>, day: int)
    requires forall t :: t in history ==> Day(t.closedAt) < day
    ensures ClosedOn(history, day) == 0.0
  {
    if |history| > 0 {
      NothingClosedYet(history[..|history| - 1], day);
    }
  }

  lemma {:induction false} ResetKeepsToday(b: Book, now: int)
    requires TodayOk(b) && b.account.day <= Day(now)
    ensures TodayOk(ResetDay(b, now)) && ResetDay(b, now).account.day == Day(now)
  {
    if b.account.day < Day(now) {
      NothingClosedYet(b.history, Day(now));
    }
  }

  lemma {:induction false} ObserveKeepsToday(cfg: Settings, b: Book, p: Position, c: Candle, now: int)
    requires TodayOk(b) && b.account.day == Day(now)
    ensures TodayOk(Observe(cfg, b, p, c, now)) && Observe(cfg, b, p, c, now).account.day == Day(now)
  {
    match ExitOf(p.terms, c)
    case Some(e) =>
      var t := CloseTrade(cfg, p, e, now);
      assert (b.history + [t])[..|b.history|] == b.history;
    case None =>
  }

  lemma {:induction false} ObserveAllKeepsToday(cfg: Settings, b: Book, ps: seq<Position>, c: Candle, now: int)
    requires TodayOk(b) && b.account.day == Day(now)
    ensures TodayOk(ObserveAll(cfg, b, ps, c, now)) && ObserveAll(cfg, b, ps, c, now).account.day == Day(now)
    decreases |ps|
  {
    if |ps| > 0 {
      ObserveKeepsToday(cfg, b, ps[0], c, now);
      ObserveAllKeepsToday(cfg, Observe(cfg, b, ps[0], c, now), ps[1..], c, now);
    }
  }

  lemma {:induction false} FillAllKeepsToday(
    cfg: Settings, b: Book, ws: seq<Pending>, c: Candle, price: real, now: int, feed: Feed)
    requires TodayOk(b)
    ensures TodayOk(FillAll(cfg, b, ws, c, price, now, feed))
    ensures FillAll(cfg, b, ws, c, price, now, feed).account.day == b.account.day
    decreases |ws|
  {
    if |ws| > 0 {
      if ws[0].plan.symbol != c.symbol {
        FillAllKeepsToday(cfg, b, ws[1..], c, price, now, feed);
      } else {
        FillAllKeepsToday(cfg, Fill(cfg, b, ws[0], c, price, now, feed), ws[1..], c, price, now, feed);
      }
    }
  }

  /** The daily figure restarts at midnight UTC and never loses or repeats a trade, if the clock never goes back. */
  lemma {:induction false} CandleKeepsToday(
    cfg: Settings, b: Book, c: Candle, entryPrice: Option<real>, now: int, feed: Feed)
    requires TodayOk(b) && b.account.day <= Day(now)
    ensures TodayOk(ProcessCandle(cfg, b, c, entryPrice, now, feed))
    ensures ProcessCandle(cfg, b, c, entryPrice, now, feed).account.day == Day(now)
  {
    ResetKeepsToday(b, now);
    var today := ResetDay(b, now);
    ObserveAllKeepsToday(cfg, today, PositionsOf(today.open, c.symbol), c, now);
    var observed := ObserveAll(cfg, today, PositionsOf(today.open, c.symbol), c, now);
    FillAllKeepsToday(cfg, observed, observed.pending, c, EntryPrice(c, entryPrice), now, feed);
  }
}
