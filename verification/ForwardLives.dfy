/**
 * How the operations of the ledger move identities along: from waiting to open, from open to
 * closed, or out of the book; and that whatever they write is about an identity in the book.
 */
module ForwardLives {
  import opened Common
  import opened Tables
  import opened Configuration
  import opened Market
  import opened Risk
  import opened Ledger
  import opened LedgerInvariants
  import opened Forward

  // ---------------------------------------------------------------------
  // Identities of a changed table
  // ---------------------------------------------------------------------

  lemma {:induction false} KeysAround<T, K>(key: T -> K, before: seq<T>, x: T, after: seq<T>)
    ensures multiset(Keys(key, before + [x] + after)) == multiset(Keys(key, before + after)) + multiset{key(x)}
  {
    assert Keys(key, before + [x] + after) == Keys(key, before) + [key(x)] + Keys(key, after);
    assert Keys(key, before + after) == Keys(key, before) + Keys(key, after);
  }

  lemma {:induction false} KeysAppend<T, K>(key: T -> K, rows: seq<T>, x: T)
    ensures multiset(Keys(key, rows + [x])) == multiset(Keys(key, rows)) + multiset{key(x)}
  {
    assert Keys(key, rows + [x]) == Keys(key, rows) + [key(x)];
  }

  lemma {:induction false} KeysWithout<T, K>(key: T -> K, rows: seq<T>, k: K)
    requires Has(key, rows, k)
    ensures multiset(Keys(key, Drop(key, rows, k))) + multiset{k} == multiset(Keys(key, rows))
  {
    var i := Find(key, rows, k);
    KeysAround(key, rows[..i], rows[i], rows[i + 1..]);
    assert rows[..i] + [rows[i]] + rows[i + 1..] == rows;
  }

  lemma {:induction false} KeysReplaced<T, K>(key: T -> K, rows: seq<T>, row: T)
    requires Has(key, rows, key(row))
    ensures Keys(key, Put(key, rows, row)) == Keys(key, rows)
  {
  }

  lemma {:induction false} KeysAdded<T, K>(key: T -> K, rows: seq<T>, row: T)
    requires !Has(key, rows, key(row))
    ensures multiset(Keys(key, Put(key, rows, row))) == multiset(Keys(key, rows)) + multiset{key(row)}
  {
    KeysAppend(key, rows, row);
  }

  lemma {:induction false} KeyIsListed<T(!new), K>(key: T -> K, rows: seq<T>, k: K)
    ensures k in multiset(Keys(key, rows)) <==> Has(key, rows, k)
    ensures k in multiset(Keys(key, rows)) <==> exists x :: x in rows && key(x) == k
  {
    HasMeansSome(key, rows, k);
    var ks := Keys(key, rows);
    assert k in multiset(ks) <==> k in ks;
    if Has(key, rows, k) {
      var i := Find(key, rows, k);
      assert rows[i] in rows && ks[i] == k;
    }
    if x :| x in rows && key(x) == k {
      var i :| 0 <= i < |rows| && rows[i] == x;
      assert ks[i] == k;
    }
    if k in ks {
      var i :| 0 <= i < |ks| && ks[i] == k;
      assert rows[i] in rows && key(rows[i]) == k;
    }
  }

  // ---------------------------------------------------------------------
  // Transactions and the identities they name
  // ---------------------------------------------------------------------

  predicate SubjectIn(t: Txn, ids: multiset<PlanId>) {
    match t
    case PersistOpen(_, p) => p.id in ids
    case PersistClose(_, t) => t.id in ids
    case PersistAccount(_) => true
  }

  /** Whatever was stored, at the start or since, is among these identities. */
  ghost predicate NamedIn(base: Store, ids: multiset<PlanId>, ts: seq<Txn>) {
    && (forall id :: id in StoredKeys(base) ==> id in ids)
    && (forall i :: 0 <= i < |ts| ==> SubjectIn(ts[i], ids))
  }

  ghost predicate Named(base: Store, b: Book) {
    NamedIn(base, Used(b), b.txns)
  }

  lemma {:induction false} MoreNames(base: Store, ids: multiset<PlanId>, ts: seq<Txn>, id: PlanId)
    requires NamedIn(base, ids, ts)
    ensures NamedIn(base, ids + multiset{id}, ts)
  {
    forall i | 0 <= i < |ts| ensures SubjectIn(ts[i], ids + multiset{id}) {
      assert SubjectIn(ts[i], ids);
    }
  }

  lemma {:induction false} OneMoreWritten(base: Store, ids: multiset<PlanId>, ts: seq<Txn>, t: Txn)
    requires NamedIn(base, ids, ts) && SubjectIn(t, ids)
    ensures NamedIn(base, ids, ts + [t])
  {
  }

  lemma {:induction false} StoredKeysOneMore(s: Store, t: Txn, ids: multiset<PlanId>)
    requires SubjectIn(t, ids) && forall id :: id in StoredKeys(s) ==> id in ids
    ensures forall id :: id in StoredKeys(Apply(s, t)) ==> id in ids
  {
    match t
    case PersistOpen(_, p) =>
      if Has(PositionKey, s.positions, p.id) {
        KeysReplaced(PositionKey, s.positions, p);
      } else {
        KeysAdded(PositionKey, s.positions, p);
      }
    case PersistClose(_, t) =>
      if Has(PositionKey, s.positions, t.id) {
        KeysWithout(PositionKey, s.positions, t.id);
      }
      KeysAppend(TradeKey, s.trades, t);
    case PersistAccount(_) =>
  }

  lemma {:induction false} StoredKeysAreIn(base: Store, ids: multiset<PlanId>, ts: seq<Txn>)
    requires NamedIn(base, ids, ts)
    ensures forall id :: id in StoredKeys(ApplyAll(base, ts)) ==> id in ids
  {
    if |ts| > 0 {
      StoredKeysAreIn(base, ids, ts[..|ts| - 1]);
      StoredKeysOneMore(ApplyAll(base, ts[..|ts| - 1]), ts[|ts| - 1], ids);
    }
  }

  /** A crash loses identities but invents none. */
  lemma {:induction false} StoredKeysAreUsed(base: Store, b: Book, k: nat)
    requires Named(base, b) && k <= |b.txns|
    ensures forall id :: id in StoredKeys(ApplyAll(base, b.txns[..k])) ==> id in Used(b)
  {
    StoredKeysAreIn(base, Used(b), b.txns[..k]);
  }

  // ---------------------------------------------------------------------
  // One candle moves identities along
  // ---------------------------------------------------------------------

  lemma {:induction false} CloseMovesOne(cfg: Settings, b: Book, p: Position, e: Exit, now: int)
    requires p in b.open
    ensures Used(ClosePosition(cfg, b, p, e, now).0) == Used(b)
  {
    KeyIsListed(PositionKey, b.open, p.id);
    KeysWithout(PositionKey, b.open, p.id);
    KeysAppend(TradeKey, b.history, CloseTrade(cfg, p, e, now));
  }

  lemma {:induction false} UpdateMovesOne(cfg: Settings, b: Book, p: Position, c: Candle, now: int)
    requires p in b.open
    ensures Used(UpdateOrClose(cfg, b, p, c, now).0) == Used(b) && p.id in Used(b)
  {
    KeyIsListed(PositionKey, b.open, p.id);
    match ExitOf(p.terms, c)
    case Some(e) => CloseMovesOne(cfg, b, p, e, now);
    case None => KeysReplaced(PositionKey, b.open, Marked(cfg, p, c));
  }

  lemma {:induction false} ObservingMovesOne(
    cfg: Settings, base: Store, b: Book, p: Position, c: Candle, now: int)
    requires p in b.open && Named(base, b)
    ensures var next := Observe(cfg, b, p, c, now);
            Used(next) == Used(b) && next.pending == b.pending && Named(base, next)
  {
    UpdateMovesOne(cfg, b, p, c, now);
    var (next, t) := UpdateOrClose(cfg, b, p, c, now);
    if t.Some? {
      OneMoreWritten(base, Used(b), b.txns, PersistClose(next.account, t.value));
    } else if c.isClosed {
      OneMoreWritten(base, Used(b), b.txns, PersistOpen(next.account, Marked(cfg, p, c)));
    }
  }

  lemma {:induction false} ObservingMoves(
    cfg: Settings, base: Store, b: Book, ps: seq<Position>, c: Candle, now: int)
    requires Sound(cfg, b) && Listed(b, ps) && Named(base, b)
    ensures var next := ObserveAll(cfg, b, ps, c, now);
            Used(next) == Used(b) && next.pending == b.pending && Named(base, next)
    decreases |ps|
  {
    if |ps| > 0 {
      ObservingMovesOne(cfg, base, b, ps[0], c, now);
      ObserveIsSound(cfg, b, ps[0], c, now);
      ListedAfterOne(cfg, b, ps, c, now);
      ObservingMoves(cfg, base, Observe(cfg, b, ps[0], c, now), ps[1..], c, now);
    }
  }

  lemma {:induction false} OpeningAddsOne(b: Book, p: Position)
    requires Unused(b, p.id)
    ensures Used(OpenPosition(b, p)) == Used(b) + multiset{p.id}
  {
    KeyIsListed(PositionKey, b.open, p.id);
    KeysAdded(PositionKey, b.open, p);
  }

  lemma {:induction false} FillMovesOne(
    cfg: Settings, base: Store, b: Book, w: Pending, c: Candle, price: real, now: int, feed: Feed)
    requires Sound(cfg, b) && w in b.pending && Named(base, b)
    ensures var next := Fill(cfg, b, w, c, price, now, feed);
            && Live(next) + (if MayFill(cfg, b, w.plan, now, feed) then multiset{} else multiset{w.id}) == Live(b)
            && Named(base, next)
  {
    KeyIsListed(PendingKey, b.pending, w.id);
    KeysWithout(PendingKey, b.pending, w.id);
    var next := Fill(cfg, b, w, c, price, now, feed);
    if MayFill(cfg, b, w.plan, now, feed) {
      var p := FillPosition(cfg, w.id, w.plan, c, price, now);
      OpeningAddsOne(b, p);
      assert Used(next) == Used(OpenPosition(b, p));
      MoreNames(base, Used(b), b.txns, p.id);
      OneMoreWritten(base, Used(b) + multiset{p.id}, b.txns, PersistOpen(next.account, p));
    }
  }

  lemma {:induction false} FillingMoves(
    cfg: Settings, base: Store, b: Book, ws: seq<Pending>, c: Candle, price: real, now: int, feed: Feed)
    requires Sound(cfg, b) && Queued(b, ws) && Named(base, b)
    ensures Live(FillAll(cfg, b, ws, c, price, now, feed)) + CancelledIn(cfg, b, ws, c, price, now, feed) == Live(b)
    ensures Named(base, FillAll(cfg, b, ws, c, price, now, feed))
    decreases |ws|
  {
    if |ws| > 0 {
      QueuedAfterOne(cfg, b, ws, c, price, now, feed);
      if ws[0].plan.symbol != c.symbol {
        FillingMoves(cfg, base, b, ws[1..], c, price, now, feed);
      } else {
        FillIsSound(cfg, b, ws[0], c, price, now, feed);
        FillMovesOne(cfg, base, b, ws[0], c, price, now, feed);
        FillingMoves(cfg, base, Fill(cfg, b, ws[0], c, price, now, feed), ws[1..], c, price, now, feed);
      }
    }
  }

  lemma {:induction false} ResetMovesNothing(base: Store, b: Book, now: int)
    requires Named(base, b)
    ensures Live(ResetDay(b, now)) == Live(b) && Named(base, ResetDay(b, now))
  {
    OneMoreWritten(base, Used(b), b.txns, PersistAccount(b.account.(day := Day(now), realizedToday := 0.0)));
  }

  /** A candle closes positions, opens waiting plans and cancels others; nothing else happens to an identity. */
  lemma {:induction false} CandleMoves(cfg: Settings, base: Store, b: Book, c: Candle, now: int, feed: Feed)
    requires Sound(cfg, b) && Named(base, b)
    ensures Live(ProcessCandle(cfg, b, c, None, now, feed)) + CancelledBy(cfg, b, c, now, feed) == Live(b)
    ensures Named(base, ProcessCandle(cfg, b, c, None, now, feed))
  {
    ResetIsSound(cfg, b, now);
    ResetMovesNothing(base, b, now);
    var today := ResetDay(b, now);
    SelectionIsListed(today.open, c.symbol);
    var existing := PositionsOf(today.open, c.symbol);
    ObserveAllIsSound(cfg, today, existing, c, now);
    ObservingMoves(cfg, base, today, existing, c, now);
    var observed := ObserveAll(cfg, today, existing, c, now);
    FillingMoves(cfg, base, observed, observed.pending, c, EntryPrice(c, None), now, feed);
  }

  /** An accepted plan adds its identity, if it is not in the book yet; a refused one adds nothing. */
  lemma {:induction false} PlanAddsOne(cfg: Settings, base: Store, b: Book, p: Plan, now: int)
    requires Named(base, b) && Identity(p).Some? && Identity(p).value !in Live(b)
    ensures var (next, accepted) := ProcessPlan(cfg, b, p, now);
            && Live(next) == Live(b) + (if accepted then multiset{Identity(p).value} else multiset{})
            && Named(base, next)
  {
    PlanOnlyWaits(cfg, b, p, now);
    ResetMovesNothing(base, b, now);
    KeyIsListed(PendingKey, b.pending, Identity(p).value);
    KeysAdded(PendingKey, b.pending, Pending(Identity(p).value, p));
  }

  // ---------------------------------------------------------------------
  // Recovery moves identities along
  // ---------------------------------------------------------------------

  /** Nothing waiting moves, positions become trades, and what is written is named. */
  ghost predicate MovesOn(base: Store, b: Book, next: Book) {
    Used(next) == Used(b) && next.pending == b.pending && Named(base, next)
  }

  lemma {:induction false} RecoverCandleMoves(cfg: Settings, base: Store, b: Book, id: PlanId, c: Candle, now: int)
    requires Named(base, b)
    ensures MovesOn(base, b, RecoverCandle(cfg, b, id, c, now))
  {
    var i := Find(PositionKey, b.open, id);
    if i < |b.open| {
      UpdateMovesOne(cfg, b, b.open[i], c, now);
      var (next, t) := UpdateOrClose(cfg, b, b.open[i], c, now);
      if t.Some? {
        OneMoreWritten(base, Used(b), b.txns, PersistClose(next.account, t.value));
      }
    }
  }

  lemma {:induction false} RecoverCandlesMoves(
    cfg: Settings, base: Store, b: Book, id: PlanId, cs: seq<Candle>, now: int)
    requires Named(base, b)
    ensures MovesOn(base, b, RecoverCandles(cfg, b, id, cs, now))
    decreases |cs|
  {
    if |cs| > 0 {
      RecoverCandleMoves(cfg, base, b, id, cs[0], now);
      RecoverCandlesMoves(cfg, base, RecoverCandle(cfg, b, id, cs[0], now), id, cs[1..], now);
    }
  }

  lemma {:induction false} StatusMovesNothing(base: Store, b: Book, id: PlanId)
    requires Named(base, b)
    ensures MovesOn(base, b, MarkRecovered(b, id))
  {
    var next := MarkRecovered(b, id);
    var i := Find(PositionKey, b.open, id);
    if i < |b.open| {
      assert Keys(PositionKey, next.open) == Keys(PositionKey, b.open);
    }
  }

  lemma {:induction false} RecoverAllMoves(
    cfg: Settings, base: Store, b: Book, ps: seq<Position>, fetch: Key -> Option<seq<Candle>>, now: int)
    requires Named(base, b)
    ensures MovesOn(base, b, RecoverAll(cfg, b, ps, fetch, now).0)
    decreases |ps|
  {
    if |ps| > 0 {
      match fetch(Key(ps[0].id.symbol, ps[0].id.timeframe))
      case None =>
      case Some(cs) =>
        var replayed := RecoverCandles(cfg, b, ps[0].id, Missed(ps[0], cs), now);
        RecoverCandlesMoves(cfg, base, b, ps[0].id, Missed(ps[0], cs), now);
        StatusMovesNothing(base, replayed, ps[0].id);
        RecoverAllMoves(cfg, base, RecoverPosition(cfg, b, ps[0], cs, now), ps[1..], fetch, now);
    }
  }

  lemma {:induction false} CompletionMovesNothing(base: Store, b: Book)
    requires Named(base, b)
    ensures MovesOn(base, b, Completed(b))
  {
    OneMoreWritten(base, Used(b), b.txns, PersistAccount(b.account));
  }

  lemma {:induction false} FailureMovesNothing(base: Store, b: Book)
    requires Named(base, b)
    ensures MovesOn(base, b, b.(recovery := RecoveryFailed))
  {
  }

  lemma {:induction false} RecoveryMoves(
    cfg: Settings, base: Store, b: Book, fetch: Key -> Option<seq<Candle>>, now: int)
    requires Named(base, b)
    ensures MovesOn(base, b, Reconcile(cfg, b, fetch, now))
  {
    if b.recovery.RecoveryOutstanding? {
      RecoverAllMoves(cfg, base, b, b.open, fetch, now);
      var done := RecoverAll(cfg, b, b.open, fetch, now).0;
      CompletionMovesNothing(base, done);
      FailureMovesNothing(base, done);
    }
  }
}
