/**
 * The durable store follows the book: after every single transaction the stored rows
 * balance, and they differ from memory only in marks.
 */
module Durability {
  import opened Common
  import opened Tables
  import opened Configuration
  import opened Market
  import opened Risk
  import opened Ledger
  import opened LedgerInvariants

  /** The part of a position that never changes; marks and status may be newer in memory. */
  function Core(p: Position): Position {
    p.(mark := Mark(0.0, 0.0, 0.0, 0.0), lastProcessed := None, status := Open)
  }

  ghost predicate SameRows(rows: seq<Position>, open: seq<Position>) {
    |rows| == |open| && forall i :: 0 <= i < |rows| ==> Core(rows[i]) == Core(open[i])
  }

  /** The store holds what memory holds, except that its equity and marks may be older. */
  ghost predicate InStep(s: Store, b: Book) {
    && s.account.Some? && s.account.value.(equity := 0.0) == b.account.(equity := 0.0)
    && SameRows(s.positions, b.open)
    && s.trades == b.history
  }

  /** Durable cash is the starting balance plus every traded result, less the entry fees still open. */
  ghost predicate Consistent(cfg: Settings, s: Store) {
    match s.account
    case None => s.positions == [] && s.trades == []
    case Some(a) =>
      Balanced(a, s.positions, s.trades) && OnceOnly(s.positions, s.trades) && |s.positions| <= cfg.maxOpenPositions
  }

  /** Every prefix of the transactions, which is every possible crash, leaves a consistent store. */
  ghost predicate Durable(cfg: Settings, base: Store, b: Book) {
    && InStep(ApplyAll(base, b.txns), b)
    && forall k :: 0 <= k <= |b.txns| ==> Consistent(cfg, ApplyAll(base, b.txns[..k]))
  }

  // ---------------------------------------------------------------------
  // Rows
  // ---------------------------------------------------------------------

  lemma {:induction false} SameIndex(rows: seq<Position>, open: seq<Position>, id: PlanId)
    requires SameRows(rows, open)
    ensures Find(PositionKey, rows, id) == Find(PositionKey, open, id)
  {
    var i, j := Find(PositionKey, rows, id), Find(PositionKey, open, id);
    assert forall n :: 0 <= n < |rows| ==> rows[n].id == Core(rows[n]).id == Core(open[n]).id == open[n].id;
    assert forall n :: 0 <= n < |rows| ==> PositionKey(rows[n]) == PositionKey(open[n]);
  }

  lemma {:induction false} RowsAfterDrop(rows: seq<Position>, open: seq<Position>, id: PlanId)
    requires SameRows(rows, open)
    ensures SameRows(Drop(PositionKey, rows, id), Drop(PositionKey, open, id))
  {
    SameIndex(rows, open, id);
  }

  lemma {:induction false} RowsAfterPut(rows: seq<Position>, open: seq<Position>, p: Position)
    requires SameRows(rows, open)
    ensures SameRows(Put(PositionKey, rows, p), Put(PositionKey, open, p))
  {
    SameIndex(rows, open, p.id);
  }

  /** A new mark that is not written leaves the rows as they were. */
  lemma {:induction false} RowsAfterMark(rows: seq<Position>, open: seq<Position>, p: Position, q: Position)
    requires SameRows(rows, open) && Distinct(PositionKey, open) && p in open && Core(q) == Core(p)
    ensures SameRows(rows, Put(PositionKey, open, q))
  {
    var i :| 0 <= i < |open| && open[i] == p;
    assert q.id == Core(q).id == p.id;
    FindIs(PositionKey, open, i);
  }

  lemma {:induction false} RowsBalance(a: Account, rows: seq<Position>, open: seq<Position>, history: seq<Trade>)
    requires SameRows(rows, open) && Balanced(a, open, history) && OnceOnly(open, history)
    ensures Balanced(a, rows, history) && OnceOnly(rows, history)
  {
    forall i | 0 <= i < |rows| ensures rows[i].id == open[i].id && EntryFeeOf(rows[i]) == EntryFeeOf(open[i]) {
      assert Core(rows[i]).id == rows[i].id && Core(rows[i]).terms == rows[i].terms;
    }
    SumEqual(EntryFeeOf, open, rows);
    forall i, j | 0 <= i < j < |rows| ensures PositionKey(rows[i]) != PositionKey(rows[j]) {
      assert PositionKey(open[i]) != PositionKey(open[j]);
    }
    forall p, t | p in rows && t in history ensures p.id != t.id {
      var i :| 0 <= i < |rows| && rows[i] == p;
      assert open[i] in open;
    }
  }

  lemma {:induction false} InStepIsConsistent(cfg: Settings, s: Store, b: Book)
    requires Sound(cfg, b) && InStep(s, b)
    ensures Consistent(cfg, s)
  {
    RowsBalance(b.account, s.positions, b.open, b.history);
    var a := s.account.value;
    assert a == b.account.(equity := a.equity);
  }

  // ---------------------------------------------------------------------
  // One write
  // ---------------------------------------------------------------------

  lemma {:induction false} ApplyOneMore(base: Store, ts: seq<Txn>, t: Txn)
    ensures ApplyAll(base, ts + [t]) == Apply(ApplyAll(base, ts), t)
  {
    assert (ts + [t])[..|ts|] == ts;
  }

  lemma {:induction false} EveryPrefixOneMore(cfg: Settings, base: Store, ts: seq<Txn>, t: Txn)
    requires forall k :: 0 <= k <= |ts| ==> Consistent(cfg, ApplyAll(base, ts[..k]))
    requires Consistent(cfg, ApplyAll(base, ts + [t]))
    ensures forall k :: 0 <= k <= |ts + [t]| ==> Consistent(cfg, ApplyAll(base, (ts + [t])[..k]))
  {
    var longer := ts + [t];
    forall k | 0 <= k <= |longer| ensures Consistent(cfg, ApplyAll(base, longer[..k])) {
      assert longer[..k] == if k <= |ts| then ts[..k] else longer;
    }
  }

  lemma {:induction false} Written(cfg: Settings, base: Store, b: Book, next: Book, t: Txn)
    requires Durable(cfg, base, b) && Sound(cfg, next) && next.txns == b.txns + [t]
    requires InStep(Apply(ApplyAll(base, b.txns), t), next)
    ensures Durable(cfg, base, next)
  {
    ApplyOneMore(base, b.txns, t);
    InStepIsConsistent(cfg, ApplyAll(base, next.txns), next);
    EveryPrefixOneMore(cfg, base, b.txns, t);
  }

  lemma {:induction false} Unwritten(cfg: Settings, base: Store, b: Book, next: Book)
    requires Durable(cfg, base, b) && next.txns == b.txns
    requires InStep(ApplyAll(base, b.txns), next)
    ensures Durable(cfg, base, next)
  {
  }

  lemma {:induction false} ResetIsDurable(cfg: Settings, base: Store, b: Book, now: int)
    requires Sound(cfg, b) && Durable(cfg, base, b)
    ensures Durable(cfg, base, ResetDay(b, now))
  {
    if b.account.day != Day(now) {
      ResetIsSound(cfg, b, now);
      var next := ResetDay(b, now);
      Written(cfg, base, b, next, PersistAccount(next.account));
    }
  }

  lemma {:induction false} CloseInStep(cfg: Settings, s: Store, b: Book, p: Position, e: Exit, now: int)
    requires Sound(cfg, b) && InStep(s, b) && p in b.open
    ensures var (next, t) := ClosePosition(cfg, b, p, e, now);
            InStep(Apply(s, PersistClose(next.account, t)), next)
  {
    RowsAfterDrop(s.positions, b.open, p.id);
    var t := CloseTrade(cfg, p, e, now);
    assert forall x :: x in s.trades ==> x.id != t.id;
    HasMeansSome(TradeKey, s.trades, t.id);
  }

  lemma {:induction false} MarkInStep(cfg: Settings, s: Store, b: Book, p: Position, c: Candle)
    requires Sound(cfg, b) && InStep(s, b) && p in b.open
    ensures var next := MarkPosition(cfg, b, p, c);
            InStep(s, next) && InStep(Apply(s, PersistOpen(next.account, Marked(cfg, p, c))), next)
  {
    RowsAfterMark(s.positions, b.open, p, Marked(cfg, p, c));
    RowsAfterPut(s.positions, b.open, Marked(cfg, p, c));
    ReplacePosition(b.open, p, Marked(cfg, p, c));
  }

  lemma {:induction false} CloseIsDurable(cfg: Settings, base: Store, b: Book, p: Position, e: Exit, now: int)
    requires Sound(cfg, b) && Durable(cfg, base, b) && p in b.open
    ensures var (next, t) := ClosePosition(cfg, b, p, e, now);
            Durable(cfg, base, Write(next, PersistClose(next.account, t)))
  {
    var (next, t) := ClosePosition(cfg, b, p, e, now);
    CloseIsSound(cfg, b, p, e, now);
    CloseInStep(cfg, ApplyAll(base, b.txns), b, p, e, now);
    WriteIsSound(cfg, next, PersistClose(next.account, t));
    Written(cfg, base, b, Write(next, PersistClose(next.account, t)), PersistClose(next.account, t));
  }

  lemma {:induction false} MarkIsDurable(cfg: Settings, base: Store, b: Book, p: Position, c: Candle)
    requires Sound(cfg, b) && Durable(cfg, base, b) && p in b.open
    ensures var next := MarkPosition(cfg, b, p, c);
            && Durable(cfg, base, next)
            && Durable(cfg, base, Write(next, PersistOpen(next.account, Marked(cfg, p, c))))
  {
    var next := MarkPosition(cfg, b, p, c);
    var t := PersistOpen(next.account, Marked(cfg, p, c));
    MarkIsSound(cfg, b, p, c);
    MarkInStep(cfg, ApplyAll(base, b.txns), b, p, c);
    WriteIsSound(cfg, next, t);
    Unwritten(cfg, base, b, next);
    Written(cfg, base, b, Write(next, t), t);
  }

  lemma {:induction false} ObserveIsDurable(cfg: Settings, base: Store, b: Book, p: Position, c: Candle, now: int)
    requires Sound(cfg, b) && Durable(cfg, base, b) && p in b.open
    ensures Durable(cfg, base, Observe(cfg, b, p, c, now))
  {
    match ExitOf(p.terms, c)
    case Some(e) => CloseIsDurable(cfg, base, b, p, e, now);
    case None => MarkIsDurable(cfg, base, b, p, c);
  }

  lemma {:induction false} ObserveAllIsDurable(
    cfg: Settings, base: Store, b: Book, ps: seq<Position>, c: Candle, now: int)
    requires Sound(cfg, b) && Durable(cfg, base, b) && Listed(b, ps)
    ensures Durable(cfg, base, ObserveAll(cfg, b, ps, c, now))
    decreases |ps|
  {
    if |ps| > 0 {
      ObserveIsSound(cfg, b, ps[0], c, now);
      ObserveIsDurable(cfg, base, b, ps[0], c, now);
      ListedAfterOne(cfg, b, ps, c, now);
      ObserveAllIsDurable(cfg, base, Observe(cfg, b, ps[0], c, now), ps[1..], c, now);
    }
  }

  lemma {:induction false} OpenInStep(cfg: Settings, s: Store, b: Book, p: Position)
    requires Sound(cfg, b) && InStep(s, b) && forall q :: q in b.open ==> q.id != p.id
    ensures var next := OpenPosition(b, p);
            InStep(Apply(s, PersistOpen(next.account, p)), next)
  {
    RowsAfterPut(s.positions, b.open, p);
  }

  lemma {:induction false} FillIsDurable(
    cfg: Settings, base: Store, b: Book, w: Pending, c: Candle, price: real, now: int, feed: Feed)
    requires Sound(cfg, b) && Durable(cfg, base, b) && w in b.pending
    ensures Durable(cfg, base, Fill(cfg, b, w, c, price, now, feed))
  {
    var next := Fill(cfg, b, w, c, price, now, feed);
    if MayFill(cfg, b, w.plan, now, feed) {
      var p := FillPosition(cfg, w.id, w.plan, c, price, now);
      FillIsSound(cfg, b, w, c, price, now, feed);
      OpenInStep(cfg, ApplyAll(base, b.txns), b, p);
      Written(cfg, base, b, next, PersistOpen(next.account, p));
    } else {
      Unwritten(cfg, base, b, next);
    }
  }

  lemma {:induction false} FillAllIsDurable(
    cfg: Settings, base: Store, b: Book, ws: seq<Pending>, c: Candle, price: real, now: int, feed: Feed)
    requires Sound(cfg, b) && Durable(cfg, base, b) && Queued(b, ws)
    ensures Durable(cfg, base, FillAll(cfg, b, ws, c, price, now, feed))
    decreases |ws|
  {
    if |ws| > 0 {
      QueuedAfterOne(cfg, b, ws, c, price, now, feed);
      if ws[0].plan.symbol != c.symbol {
        FillAllIsDurable(cfg, base, b, ws[1..], c, price, now, feed);
      } else {
        FillIsSound(cfg, b, ws[0], c, price, now, feed);
        FillIsDurable(cfg, base, b, ws[0], c, price, now, feed);
        FillAllIsDurable(cfg, base, Fill(cfg, b, ws[0], c, price, now, feed), ws[1..], c, price, now, feed);
      }
    }
  }

  lemma {:induction false} CandleIsDurable(
    cfg: Settings, base: Store, b: Book, c: Candle, entryPrice: Option<real>, now: int, feed: Feed)
    requires Sound(cfg, b) && Durable(cfg, base, b)
    ensures Durable(cfg, base, ProcessCandle(cfg, b, c, entryPrice, now, feed))
  {
    ResetIsSound(cfg, b, now);
    ResetIsDurable(cfg, base, b, now);
    var today := ResetDay(b, now);
    SelectionIsListed(today.open, c.symbol);
    var existing := PositionsOf(today.open, c.symbol);
    ObserveAllIsSound(cfg, today, existing, c, now);
    ObserveAllIsDurable(cfg, base, today, existing, c, now);
    var observed := ObserveAll(cfg, today, existing, c, now);
    FillAllIsDurable(cfg, base, observed, observed.pending, c, EntryPrice(c, entryPrice), now, feed);
  }

  lemma {:induction false} OnlyQueues(cfg: Settings, base: Store, b: Book, pending: seq<Pending>, seen: seq<PlanId>)
    requires Durable(cfg, base, b)
    ensures Durable(cfg, base, b.(pending := pending, seen := seen))
  {
    Unwritten(cfg, base, b, b.(pending := pending, seen := seen));
  }

  lemma {:induction false} PlanIsDurable(cfg: Settings, base: Store, b: Book, p: Plan, now: int)
    requires Sound(cfg, b) && Durable(cfg, base, b)
    ensures Durable(cfg, base, ProcessPlan(cfg, b, p, now).0)
  {
    ResetIsDurable(cfg, base, b, now);
    if Identity(p).Some? {
      var next := ProcessPlan(cfg, b, p, now).0;
      OnlyQueues(cfg, base, ResetDay(b, now), next.pending, next.seen);
    }
  }

  // ---------------------------------------------------------------------
  // Recovery
  // ---------------------------------------------------------------------

  lemma {:induction false} RecoverCandleIsDurable(cfg: Settings, base: Store, b: Book, id: PlanId, c: Candle, now: int)
    requires Sound(cfg, b) && Durable(cfg, base, b)
    ensures var next := RecoverCandle(cfg, b, id, c, now);
            Sound(cfg, next) && Durable(cfg, base, next) && next.pending == b.pending && next.recovery == b.recovery
  {
    var i := Find(PositionKey, b.open, id);
    if i < |b.open| {
      var p := b.open[i];
      UpdateIsSound(cfg, b, p, c, now);
      var (next, t) := UpdateOrClose(cfg, b, p, c, now);
      match ExitOf(p.terms, c)
      case Some(e) =>
        CloseIsDurable(cfg, base, b, p, e, now);
        WriteIsSound(cfg, next, PersistClose(next.account, t.value));
      case None => MarkIsDurable(cfg, base, b, p, c);
    }
  }

  lemma {:induction false} RecoverCandlesIsDurable(
    cfg: Settings, base: Store, b: Book, id: PlanId, cs: seq<Candle>, now: int)
    requires Sound(cfg, b) && Durable(cfg, base, b)
    ensures var next := RecoverCandles(cfg, b, id, cs, now);
            Sound(cfg, next) && Durable(cfg, base, next) && next.pending == b.pending && next.recovery == b.recovery
    decreases |cs|
  {
    if |cs| > 0 {
      RecoverCandleIsDurable(cfg, base, b, id, cs[0], now);
      RecoverCandlesIsDurable(cfg, base, RecoverCandle(cfg, b, id, cs[0], now), id, cs[1..], now);
    }
  }

  lemma {:induction false} MarkRecoveredIsDurable(cfg: Settings, base: Store, b: Book, id: PlanId)
    requires Sound(cfg, b) && Durable(cfg, base, b)
    ensures var next := MarkRecovered(b, id);
            Sound(cfg, next) && Durable(cfg, base, next) && next.pending == b.pending && next.recovery == b.recovery
  {
    var i := Find(PositionKey, b.open, id);
    if i < |b.open| {
      var p := b.open[i];
      var q := p.(status := Open);
      assert b.open[i := q] == Put(PositionKey, b.open, q);
      ReplacePosition(b.open, p, q);
      RowsAfterMark(ApplyAll(base, b.txns).positions, b.open, p, q);
      Unwritten(cfg, base, b, MarkRecovered(b, id));
    }
  }

  lemma {:induction false} RecoverAllIsDurable(
    cfg: Settings, base: Store, b: Book, ps: seq<Position>, fetch: Key -> Option<seq<Candle>>, now: int)
    requires Sound(cfg, b) && Durable(cfg, base, b)
    ensures var next := RecoverAll(cfg, b, ps, fetch, now).0;
            Sound(cfg, next) && Durable(cfg, base, next) && next.pending == b.pending && next.recovery == b.recovery
    decreases |ps|
  {
    if |ps| > 0 {
      var answer := fetch(Key(ps[0].id.symbol, ps[0].id.timeframe));
      if answer.Some? {
        var missed := Missed(ps[0], answer.value);
        RecoverCandlesIsDurable(cfg, base, b, ps[0].id, missed, now);
        MarkRecoveredIsDurable(cfg, base, RecoverCandles(cfg, b, ps[0].id, missed, now), ps[0].id);
        RecoverAllIsDurable(cfg, base, RecoverPosition(cfg, b, ps[0], answer.value, now), ps[1..], fetch, now);
      }
    }
  }

  lemma {:induction false} StatusIsNotStored(cfg: Settings, base: Store, b: Book, status: RecoveryStatus)
    requires Sound(cfg, b) && Durable(cfg, base, b)
    ensures Sound(cfg, b.(recovery := status)) && Durable(cfg, base, b.(recovery := status))
  {
    Unwritten(cfg, base, b, b.(recovery := status));
  }

  lemma {:induction false} CompletedIsDurable(cfg: Settings, base: Store, b: Book)
    requires Sound(cfg, b) && Durable(cfg, base, b)
    ensures Sound(cfg, Completed(b)) && Durable(cfg, base, Completed(b)) && Completed(b).pending == b.pending
  {
    var t := PersistAccount(b.account);
    var written := Write(b.(recovery := RecoveryComplete), t);
    StatusIsNotStored(cfg, base, b, RecoveryComplete);
    WriteIsSound(cfg, b.(recovery := RecoveryComplete), t);
    Written(cfg, base, b.(recovery := RecoveryComplete), written, t);
    StatusIsNotStored(cfg, base, written, RecoveryFailed);
  }

  lemma {:induction false} ReconcileIsDurable(
    cfg: Settings, base: Store, b: Book, fetch: Key -> Option<seq<Candle>>, now: int)
    requires Sound(cfg, b) && Durable(cfg, base, b)
    ensures var next := Reconcile(cfg, b, fetch, now);
            Sound(cfg, next) && Durable(cfg, base, next) && next.pending == b.pending
  {
    if b.recovery.RecoveryOutstanding? {
      RecoverAllIsDurable(cfg, base, b, b.open, fetch, now);
      var (done, ok) := RecoverAll(cfg, b, b.open, fetch, now);
      if ok {
        CompletedIsDurable(cfg, base, done);
      } else {
        StatusIsNotStored(cfg, base, done, RecoveryFailed);
      }
    }
  }
}
