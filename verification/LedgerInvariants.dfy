/** What every step of the book keeps: the accounting identities, the counts and the identities. */
module LedgerInvariants {
  import opened Common
  import opened Tables
  import opened Configuration
  import opened Market
  import opened Risk
  import opened Ledger

  function WinOf(t: Trade): real { if t.net > 0.0 then 1.0 else 0.0 }
  function LossOf(t: Trade): real { if t.net < 0.0 then 1.0 else 0.0 }

  /** The account is explained, to the last amount, by the open positions and the trades ever closed. */
  ghost predicate Balanced(a: Account, open: seq<Position>, history: seq<Trade>) {
    && a.cash == a.starting + a.gross - a.fees
    && a.cash == a.starting + a.realized - Sum(EntryFeeOf, open)
    && a.realized == Sum(NetOf, history)
    && a.gross == Sum(GrossOf, history)
    && a.fees == Sum(FeesOf, history) + Sum(EntryFeeOf, open)
    && a.openCount == |open|
    && a.closedCount == |history|
    && a.wins as real == Sum(WinOf, history)
    && a.losses as real == Sum(LossOf, history)
    && (a.closedCount > 0 ==> a.winRate == ShareOf(a.wins, a.closedCount))
  }

  ghost predicate Disjoint(open: seq<Position>, history: seq<Trade>) {
    forall p, t :: p in open && t in history ==> p.id != t.id
  }

  /** No identity is open twice, traded twice, or both open and traded. */
  ghost predicate OnceOnly(open: seq<Position>, history: seq<Trade>) {
    Distinct(PositionKey, open) && Distinct(TradeKey, history) && Disjoint(open, history)
  }

  /** Plans wait under their own identity, once, and only before they are opened. */
  ghost predicate WaitingOnce(b: Book) {
    && Distinct(PendingKey, b.pending)
    && (forall w :: w in b.pending ==> Identity(w.plan) == Some(w.id) && Unused(b, w.id))
  }

  ghost predicate Unused(b: Book, id: PlanId) {
    && (forall p :: p in b.open ==> p.id != id)
    && (forall t :: t in b.history ==> t.id != id)
  }

  ghost predicate Sound(cfg: Settings, b: Book) {
    && Balanced(b.account, b.open, b.history)
    && OnceOnly(b.open, b.history)
    && WaitingOnce(b)
    && |b.open| <= cfg.maxOpenPositions
    && b.closed == LastN(b.history, cfg.maxPaperTradeHistory)
  }

  lemma {:induction false} OpeningIsSound(cfg: Settings, starting: real, now: int)
    ensures Sound(cfg, Opening(starting, now))
  {
  }

  // ---------------------------------------------------------------------
  // Sums over a changed table
  // ---------------------------------------------------------------------

  lemma {:induction false} DropPosition(open: seq<Position>, p: Position)
    requires Distinct(PositionKey, open) && p in open
    ensures var rest := Drop(PositionKey, open, p.id);
            && |rest| == |open| - 1
            && Sum(EntryFeeOf, rest) == Sum(EntryFeeOf, open) - p.terms.entryFee
            && Distinct(PositionKey, rest)
            && (forall q :: q in rest <==> q in open && q.id != p.id)
  {
    var i :| 0 <= i < |open| && open[i] == p;
    FindIs(PositionKey, open, i);
    SumRemove(EntryFeeOf, open, i);
    DropRemoves(PositionKey, open, p.id);
  }

  /** Replacing a position by one with the same identity and terms keeps the fees. */
  lemma {:induction false} ReplacePosition(open: seq<Position>, p: Position, q: Position)
    requires Distinct(PositionKey, open) && p in open && q.id == p.id && q.terms == p.terms
    ensures var next := Put(PositionKey, open, q);
            && |next| == |open|
            && Sum(EntryFeeOf, next) == Sum(EntryFeeOf, open)
            && Distinct(PositionKey, next)
            && (forall x :: x in next ==> x == q || (x in open && x.id != q.id))
            && (forall x :: x in open && x.id != q.id ==> x in next)
  {
    var i :| 0 <= i < |open| && open[i] == p;
    FindIs(PositionKey, open, i);
    SumUpdate(EntryFeeOf, open, i, q);
    PutKeepsDistinct(PositionKey, open, q);
  }

  lemma {:induction false} AddPosition(open: seq<Position>, q: Position)
    requires Distinct(PositionKey, open) && forall p :: p in open ==> p.id != q.id
    ensures Put(PositionKey, open, q) == open + [q]
    ensures Distinct(PositionKey, open + [q])
    ensures Sum(EntryFeeOf, open + [q]) == Sum(EntryFeeOf, open) + q.terms.entryFee
  {
    HasMeansSome(PositionKey, open, q.id);
    SumAppend(EntryFeeOf, open, q);
    PutKeepsDistinct(PositionKey, open, q);
  }

  // ---------------------------------------------------------------------
  // Day reset
  // ---------------------------------------------------------------------

  lemma {:induction false} ResetIsSound(cfg: Settings, b: Book, now: int)
    requires Sound(cfg, b)
    ensures Sound(cfg, ResetDay(b, now))
    ensures ResetDay(b, now).open == b.open && ResetDay(b, now).pending == b.pending
    ensures ResetDay(b, now).history == b.history && ResetDay(b, now).account.day == Day(now)
  {
  }

  // ---------------------------------------------------------------------
  // Closing and marking
  // ---------------------------------------------------------------------

  lemma {:induction false} CloseBalances(cfg: Settings, b: Book, p: Position, e: Exit, now: int)
    requires Balanced(b.account, b.open, b.history) && Distinct(PositionKey, b.open) && p in b.open
    ensures var next := ClosePosition(cfg, b, p, e, now).0;
            Balanced(next.account, next.open, next.history)
  {
    var t := CloseTrade(cfg, p, e, now);
    DropPosition(b.open, p);
    SumAppend(NetOf, b.history, t);
    SumAppend(GrossOf, b.history, t);
    SumAppend(FeesOf, b.history, t);
    SumAppend(WinOf, b.history, t);
    SumAppend(LossOf, b.history, t);
  }

  lemma {:induction false} CloseKeepsOnceOnly(open: seq<Position>, history: seq<Trade>, p: Position, t: Trade)
    requires OnceOnly(open, history) && p in open && t.id == p.id
    ensures OnceOnly(Drop(PositionKey, open, p.id), history + [t])
  {
    DropRemoves(PositionKey, open, p.id);
    forall i, j | 0 <= i < j < |history + [t]|
      ensures TradeKey((history + [t])[i]) != TradeKey((history + [t])[j])
    {
      if j == |history| {
        assert history[i] in history;
      }
    }
  }

  lemma {:induction false} CloseKeepsWaiting(b: Book, next: Book, t: Trade)
    requires WaitingOnce(b) && next.pending == b.pending
    requires next.history == b.history + [t] && exists p :: p in b.open && p.id == t.id
    requires forall q :: q in next.open ==> q in b.open
    ensures WaitingOnce(next)
  {
    forall w | w in next.pending ensures Unused(next, w.id) {
      assert Unused(b, w.id);
    }
  }

  lemma {:induction false} CloseIsSound(cfg: Settings, b: Book, p: Position, e: Exit, now: int)
    requires Sound(cfg, b) && p in b.open
    ensures var (next, t) := ClosePosition(cfg, b, p, e, now);
            && Sound(cfg, next)
            && next.history == b.history + [t] && t.id == p.id
            && next.pending == b.pending
            && (forall q :: q in next.open <==> q in b.open && q.id != p.id)
  {
    var t := CloseTrade(cfg, p, e, now);
    CloseBalances(cfg, b, p, e, now);
    CloseKeepsOnceOnly(b.open, b.history, p, t);
    DropPosition(b.open, p);
    LastNAppend(b.history, t, cfg.maxPaperTradeHistory);
    CloseKeepsWaiting(b, ClosePosition(cfg, b, p, e, now).0, t);
  }

  lemma {:induction false} MarkIsSound(cfg: Settings, b: Book, p: Position, c: Candle)
    requires Sound(cfg, b) && p in b.open
    ensures var next := MarkPosition(cfg, b, p, c);
            && Sound(cfg, next)
            && next.history == b.history && next.pending == b.pending
            && (forall q :: q in b.open && q.id != p.id ==> q in next.open)
            && (forall q :: q in next.open ==> q == Marked(cfg, p, c) || (q in b.open && q.id != p.id))
  {
    ReplacePosition(b.open, p, Marked(cfg, p, c));
  }

  lemma {:induction false} WriteIsSound(cfg: Settings, b: Book, t: Txn)
    requires Sound(cfg, b)
    ensures Sound(cfg, Write(b, t))
    ensures Write(b, t).open == b.open && Write(b, t).pending == b.pending && Write(b, t).history == b.history
  {
  }

  lemma {:induction false} UpdateIsSound(cfg: Settings, b: Book, p: Position, c: Candle, now: int)
    requires Sound(cfg, b) && p in b.open
    ensures var (next, t) := UpdateOrClose(cfg, b, p, c, now);
            && Sound(cfg, next) && next.pending == b.pending
            && (forall q :: q in b.open && q.id != p.id ==> q in next.open)
            && (forall q :: q in next.open && q.id != p.id ==> q in b.open)
  {
    match ExitOf(p.terms, c)
    case Some(e) => CloseIsSound(cfg, b, p, e, now);
    case None => MarkIsSound(cfg, b, p, c);
  }

  lemma {:induction false} ObserveIsSound(cfg: Settings, b: Book, p: Position, c: Candle, now: int)
    requires Sound(cfg, b) && p in b.open
    ensures var next := Observe(cfg, b, p, c, now);
            && Sound(cfg, next) && next.pending == b.pending
            && (forall q :: q in b.open && q.id != p.id ==> q in next.open)
            && (forall q :: q in next.open && q.id != p.id ==> q in b.open)
  {
    UpdateIsSound(cfg, b, p, c, now);
    var (next, t) := UpdateOrClose(cfg, b, p, c, now);
    if t.Some? {
      WriteIsSound(cfg, next, PersistClose(next.account, t.value));
    } else if c.isClosed {
      WriteIsSound(cfg, next, PersistOpen(next.account, Marked(cfg, p, c)));
    }
  }

  /** The positions still to be observed are in the book as they were listed. */
  ghost predicate Listed(b: Book, ps: seq<Position>) {
    Distinct(PositionKey, ps) && forall p :: p in ps ==> p in b.open
  }

  lemma {:induction false} ListedAfterOne(cfg: Settings, b: Book, ps: seq<Position>, c: Candle, now: int)
    requires Sound(cfg, b) && |ps| > 0 && Listed(b, ps)
    ensures Listed(Observe(cfg, b, ps[0], c, now), ps[1..])
  {
    ObserveIsSound(cfg, b, ps[0], c, now);
    forall p | p in ps[1..] ensures p.id != ps[0].id && p in ps {
      var i :| 0 < i < |ps| && ps[i] == p;
      assert PositionKey(ps[0]) != PositionKey(ps[i]);
    }
  }

  lemma {:induction false} ObserveAllIsSound(cfg: Settings, b: Book, ps: seq<Position>, c: Candle, now: int)
    requires Sound(cfg, b) && Listed(b, ps)
    ensures Sound(cfg, ObserveAll(cfg, b, ps, c, now))
    ensures ObserveAll(cfg, b, ps, c, now).pending == b.pending
    decreases |ps|
  {
    if |ps| > 0 {
      ObserveIsSound(cfg, b, ps[0], c, now);
      ListedAfterOne(cfg, b, ps, c, now);
      ObserveAllIsSound(cfg, Observe(cfg, b, ps[0], c, now), ps[1..], c, now);
    }
  }

  lemma {:induction false} SelectionIsListed(open: seq<Position>, symbol: string)
    requires Distinct(PositionKey, open)
    ensures Distinct(PositionKey, PositionsOf(open, symbol))
    ensures forall p :: p in PositionsOf(open, symbol) <==> p in open && p.id.symbol == symbol
  {
    if |open| > 0 {
      var front, last := open[..|open| - 1], open[|open| - 1];
      SelectionIsListed(front, symbol);
      var some := PositionsOf(front, symbol);
      forall i | 0 <= i < |some| ensures some[i].id != last.id {
        assert some[i] in front;
      }
    }
  }

  // ---------------------------------------------------------------------
  // Filling
  // ---------------------------------------------------------------------

  lemma {:induction false} OpenBalances(a: Account, open: seq<Position>, history: seq<Trade>, p: Position)
    requires Balanced(a, open, history) && Distinct(PositionKey, open) && forall q :: q in open ==> q.id != p.id
    ensures Balanced(Revalued(AccountAfterOpen(a, p.terms.entryFee, |open| + 1), open + [p]), open + [p], history)
  {
    AddPosition(open, p);
  }

  lemma {:induction false} FillIsSound(cfg: Settings, b: Book, w: Pending, c: Candle, price: real, now: int, feed: Feed)
    requires Sound(cfg, b) && w in b.pending
    ensures var next := Fill(cfg, b, w, c, price, now, feed);
            && Sound(cfg, next) && next.history == b.history
            && (forall x :: x in next.pending <==> x in b.pending && x.id != w.id)
            && next.open == (if MayFill(cfg, b, w.plan, now, feed)
                             then b.open + [FillPosition(cfg, w.id, w.plan, c, price, now)] else b.open)
  {
    DropRemoves(PendingKey, b.pending, w.id);
    if MayFill(cfg, b, w.plan, now, feed) {
      var p := FillPosition(cfg, w.id, w.plan, c, price, now);
      AddPosition(b.open, p);
      OpenBalances(b.account, b.open, b.history, p);
      var next := Fill(cfg, b, w, c, price, now, feed);
      forall x | x in next.pending ensures Unused(next, x.id) {
        assert x in b.pending && x.id != w.id;
      }
    }
  }

  ghost predicate Queued(b: Book, ws: seq<Pending>) {
    Distinct(PendingKey, ws) && forall w :: w in ws ==> w in b.pending
  }

  lemma {:induction false} QueuedAfterOne(
    cfg: Settings, b: Book, ws: seq<Pending>, c: Candle, price: real, now: int, feed: Feed)
    requires Sound(cfg, b) && |ws| > 0 && Queued(b, ws)
    ensures Queued(b, ws[1..]) && Queued(Fill(cfg, b, ws[0], c, price, now, feed), ws[1..])
  {
    FillIsSound(cfg, b, ws[0], c, price, now, feed);
    forall w | w in ws[1..] ensures w.id != ws[0].id && w in ws {
      var i :| 0 < i < |ws| && ws[i] == w;
      assert PendingKey(ws[0]) != PendingKey(ws[i]);
    }
  }

  lemma {:induction false} FillAllIsSound(
    cfg: Settings, b: Book, ws: seq<Pending>, c: Candle, price: real, now: int, feed: Feed)
    requires Sound(cfg, b) && Queued(b, ws)
    ensures Sound(cfg, FillAll(cfg, b, ws, c, price, now, feed))
    ensures forall x :: x in FillAll(cfg, b, ws, c, price, now, feed).pending <==>
                        x in b.pending && !(x in ws && x.plan.symbol == c.symbol)
    decreases |ws|
  {
    if |ws| > 0 {
      QueuedAfterOne(cfg, b, ws, c, price, now, feed);
      assert forall x :: x in ws <==> x == ws[0] || x in ws[1..];
      if ws[0].plan.symbol != c.symbol {
        FillAllIsSound(cfg, b, ws[1..], c, price, now, feed);
      } else {
        FillIsSound(cfg, b, ws[0], c, price, now, feed);
        FillAllIsSound(cfg, Fill(cfg, b, ws[0], c, price, now, feed), ws[1..], c, price, now, feed);
        SameIdSamePlan(b, ws[0]);
      }
    }
  }

  lemma {:induction false} SameIdSamePlan(b: Book, w: Pending)
    requires Distinct(PendingKey, b.pending) && w in b.pending
    ensures forall x :: x in b.pending && x.id == w.id ==> x == w
  {
    var i :| 0 <= i < |b.pending| && b.pending[i] == w;
    forall x | x in b.pending && x.id == w.id ensures x == w {
      var j :| 0 <= j < |b.pending| && b.pending[j] == x;
      assert i != j ==> PendingKey(b.pending[i]) != PendingKey(b.pending[j]);
    }
  }

  // ---------------------------------------------------------------------
  // Whole operations
  // ---------------------------------------------------------------------

  /** A candle keeps the book sound, and afterwards no plan waits for its symbol. */
  lemma {:induction false} CandleIsSound(
    cfg: Settings, b: Book, c: Candle, entryPrice: Option<real>, now: int, feed: Feed)
    requires Sound(cfg, b)
    ensures Sound(cfg, ProcessCandle(cfg, b, c, entryPrice, now, feed))
    ensures forall w :: w in ProcessCandle(cfg, b, c, entryPrice, now, feed).pending <==>
                        w in b.pending && w.plan.symbol != c.symbol
  {
    ResetIsSound(cfg, b, now);
    var today := ResetDay(b, now);
    SelectionIsListed(today.open, c.symbol);
    var existing := PositionsOf(today.open, c.symbol);
    ObserveAllIsSound(cfg, today, existing, c, now);
    var observed := ObserveAll(cfg, today, existing, c, now);
    FillAllIsSound(cfg, observed, observed.pending, c, EntryPrice(c, entryPrice), now, feed);
  }

  /** The gates are open, the identity is not remembered, and the plan is valid. */
  predicate Accepts(cfg: Settings, b: Book, p: Plan, now: int) {
    && b.recovery.RecoveryComplete? && !b.paused
    && Identity(p).Some? && Identity(p).value !in b.seen && ValidPlan(cfg, p, now)
  }

  /** A plan is accepted only while the gates are open, and only changes what waits. */
  lemma {:induction false} PlanOnlyWaits(cfg: Settings, b: Book, p: Plan, now: int)
    ensures var (next, accepted) := ProcessPlan(cfg, b, p, now);
            && next.open == b.open && next.history == b.history
            && (accepted <==> Accepts(cfg, b, p, now))
            && (accepted ==> next.pending == Put(PendingKey, b.pending, Pending(Identity(p).value, p)))
            && (!accepted ==> next.pending == b.pending)
  {
  }

  lemma {:induction false} WaitingOneMore(b: Book, w: Pending)
    requires WaitingOnce(b) && Identity(w.plan) == Some(w.id) && Unused(b, w.id)
    ensures WaitingOnce(b.(pending := Put(PendingKey, b.pending, w)))
  {
    PutKeepsDistinct(PendingKey, b.pending, w);
  }

  lemma {:induction false} PlanIsSound(cfg: Settings, b: Book, p: Plan, now: int)
    requires Sound(cfg, b)
    requires Identity(p).Some? ==> Unused(b, Identity(p).value)
    ensures Sound(cfg, ProcessPlan(cfg, b, p, now).0)
  {
    ResetIsSound(cfg, b, now);
    PlanOnlyWaits(cfg, b, p, now);
    if Identity(p).Some? {
      WaitingOneMore(ResetDay(b, now), Pending(Identity(p).value, p));
    }
  }

  /** An accepted plan keeps the book sound exactly when its identity was neither open nor traded. */
  lemma {:induction false} AcceptedPlanIsSoundIff(cfg: Settings, b: Book, p: Plan, now: int)
    requires Sound(cfg, b) && ProcessPlan(cfg, b, p, now).1
    ensures Identity(p).Some?
    ensures Sound(cfg, ProcessPlan(cfg, b, p, now).0) <==> Unused(b, Identity(p).value)
  {
    PlanOnlyWaits(cfg, b, p, now);
    var (next, id) := (ProcessPlan(cfg, b, p, now).0, Identity(p).value);
    if Unused(b, id) {
      PlanIsSound(cfg, b, p, now);
    } else {
      assert Pending(id, p) in next.pending;
      assert !Unused(next, id);
    }
  }
}
