/**
 * The running engine and its store: a restarted engine sees only the stored rows, in any order.
 * Every operation keeps the book sound and the store in step with it, and the gates hold.
 */
module Session {
  import opened Common
  import opened Tables
  import opened Configuration
  import opened Market
  import opened Risk
  import opened Ledger
  import opened LedgerInvariants
  import opened Durability

  /** `base` is the store the running engine was started from; `book.txns` is what it wrote since. */
  datatype World = World(base: Store, book: Book)

  /** Two listings of the same rows. */
  ghost predicate SameStore(s: Store, listing: Store) {
    && s.account == listing.account
    && multiset(s.positions) == multiset(listing.positions)
    && multiset(s.trades) == multiset(listing.trades)
  }

  /** The book of an engine that has loaded these rows. */
  function Loaded(cfg: Settings, listing: Store, now: int): Book {
    Restore(cfg, Opening(cfg.startingBalance, now), listing.account, listing.positions, listing.trades)
  }

  /** A fresh engine loads the stored rows; a session without an account row gets one at once. */
  function Startup(cfg: Settings, listing: Store, now: int): World {
    var b := Loaded(cfg, listing, now);
    World(listing, if listing.account.None? then Write(b, PersistAccount(b.account)) else b)
  }

  // ---------------------------------------------------------------------
  // Restarting from rows in any order
  // ---------------------------------------------------------------------

  lemma {:induction false} DistinctAround<T, K>(key: T -> K, before: seq<T>, x: T, after: seq<T>)
    requires Distinct(key, before + after) && forall y :: y in before + after ==> key(y) != key(x)
    ensures Distinct(key, before + [x] + after)
  {
    var rest, all := before + after, before + [x] + after;
    forall j, k | 0 <= j < k < |all| ensures key(all[j]) != key(all[k]) {
      var j', k' := if j <= |before| then j else j - 1, if k <= |before| then k else k - 1;
      if j == |before| {
        assert rest[k'] in rest;
      } else if k == |before| {
        assert rest[j'] in rest;
      } else {
        assert rest[j'] == all[j] && rest[k'] == all[k];
      }
    }
  }

  lemma {:induction false} DistinctPermutation<T(!new), K>(key: T -> K, xs: seq<T>, ys: seq<T>)
    requires Distinct(key, xs) && multiset(xs) == multiset(ys)
    ensures Distinct(key, ys)
  {
    assert |multiset(xs)| == |xs| && |multiset(ys)| == |ys|;
    if |xs| != 0 {
      var x, front := xs[|xs| - 1], xs[..|xs| - 1];
      var i := SplitPermutation(xs, ys);
      var before, after := ys[..i], ys[i + 1..];
      DistinctPermutation(key, front, before + after);
      SameMembers(front, before + after);
      DistinctAround(key, before, x, after);
    }
  }

  lemma {:induction false} SameMembers<T(!new)>(xs: seq<T>, ys: seq<T>)
    requires multiset(xs) == multiset(ys)
    ensures |xs| == |ys| && forall x :: x in xs <==> x in ys
  {
    assert |multiset(xs)| == |xs| && |multiset(ys)| == |ys|;
    assert forall x :: x in xs <==> x in multiset(xs);
  }

  lemma {:induction false} BalancedInAnyOrder(
    a: Account, open: seq<Position>, history: seq<Trade>, open': seq<Position>, history': seq<Trade>)
    requires Balanced(a, open, history) && multiset(open) == multiset(open') && multiset(history) == multiset(history')
    ensures Balanced(a, open', history')
  {
    SameMembers(open, open');
    SameMembers(history, history');
    SumPermutation(EntryFeeOf, open, open');
    SumPermutation(NetOf, history, history');
    SumPermutation(GrossOf, history, history');
    SumPermutation(FeesOf, history, history');
    SumPermutation(WinOf, history, history');
    SumPermutation(LossOf, history, history');
  }

  lemma {:induction false} ConsistentInAnyOrder(cfg: Settings, s: Store, listing: Store)
    requires Consistent(cfg, s) && SameStore(s, listing)
    ensures Consistent(cfg, listing)
  {
    SameMembers(s.positions, listing.positions);
    SameMembers(s.trades, listing.trades);
    if s.account.Some? {
      BalancedInAnyOrder(s.account.value, s.positions, s.trades, listing.positions, listing.trades);
      DistinctPermutation(PositionKey, s.positions, listing.positions);
      DistinctPermutation(TradeKey, s.trades, listing.trades);
    }
  }

  lemma {:induction false} AwaitingKeepsTerms(ps: seq<Position>)
    ensures SameRows(Awaiting(ps), ps) && SameRows(ps, Awaiting(ps))
  {
  }

  lemma {:induction false} SoundFromRows(cfg: Settings, b: Book, rows: seq<Position>)
    requires SameRows(b.open, rows) && |rows| <= cfg.maxOpenPositions
    requires Balanced(b.account, rows, b.history) && OnceOnly(rows, b.history)
    requires b.pending == [] && b.closed == LastN(b.history, cfg.maxPaperTradeHistory)
    ensures Sound(cfg, b)
  {
    RowsBalance(b.account, b.open, rows, b.history);
  }

  lemma {:induction false} RestoredTrades(trades: seq<Trade>, n: nat)
    ensures [] + trades == trades && LastN([] + LastN(trades, n), n) == LastN(trades, n)
  {
    assert [] + LastN(trades, n) == LastN(trades, n);
  }

  lemma {:induction false} LoadedParts(cfg: Settings, listing: Store, a: Account, now: int)
    requires listing.account == Some(a) && a.openCount == |listing.positions|
    ensures var b := Loaded(cfg, listing, now);
            && b.account == a && b.open == Awaiting(listing.positions) && b.history == listing.trades
            && b.closed == LastN(listing.trades, cfg.maxPaperTradeHistory) && b.pending == [] && b.txns == []
  {
    RestoredTrades(listing.trades, cfg.maxPaperTradeHistory);
  }

  lemma {:induction false} NothingLoaded(cfg: Settings, listing: Store, now: int)
    requires listing == EMPTY_STORE
    ensures Sound(cfg, Loaded(cfg, listing, now)) && Loaded(cfg, listing, now).pending == []
    ensures Loaded(cfg, listing, now).txns == []
  {
    OpeningIsSound(cfg, cfg.startingBalance, now);
    RestoredTrades([], cfg.maxPaperTradeHistory);
  }

  lemma {:induction false} RestoredIsSound(cfg: Settings, listing: Store, now: int)
    requires Consistent(cfg, listing)
    ensures var b := Loaded(cfg, listing, now);
            && Sound(cfg, b) && b.pending == [] && b.txns == []
            && (listing.account.Some? ==> InStep(listing, b))
  {
    match listing.account
    case None => NothingLoaded(cfg, listing, now);
    case Some(a) =>
      LoadedParts(cfg, listing, a, now);
      AwaitingKeepsTerms(listing.positions);
      SoundFromRows(cfg, Loaded(cfg, listing, now), listing.positions);
  }

  lemma {:induction false} FirstWriteIsDurable(cfg: Settings, base: Store, b: Book)
    requires Consistent(cfg, base) && Sound(cfg, b) && InStep(Apply(base, PersistAccount(b.account)), b)
    requires b.txns == [PersistAccount(b.account)]
    ensures Durable(cfg, base, b)
  {
    var t := PersistAccount(b.account);
    ApplyOneMore(base, [], t);
    assert [] + [t] == [t];
    InStepIsConsistent(cfg, ApplyAll(base, [t]), b);
    assert forall k :: 0 <= k <= 1 ==> [t][..k] == if k == 0 then [] else [t];
  }

  lemma {:induction false} UnwrittenIsDurable(cfg: Settings, base: Store, b: Book)
    requires Consistent(cfg, base) && InStep(base, b) && b.txns == []
    ensures Durable(cfg, base, b)
  {
  }

  /** A write changes nothing that soundness and recovery speak of. */
  lemma {:induction false} FirstWrite(cfg: Settings, listing: Store, now: int)
    requires listing == EMPTY_STORE
    ensures var b := Loaded(cfg, listing, now); SessionOk(cfg, World(listing, Write(b, PersistAccount(b.account))))
  {
    NothingLoaded(cfg, listing, now);
    var b := Loaded(cfg, listing, now);
    WriteIsSound(cfg, b, PersistAccount(b.account));
    FirstWriteIsDurable(cfg, listing, Write(b, PersistAccount(b.account)));
  }

  lemma {:induction false} StartupIsSound(cfg: Settings, listing: Store, now: int)
    requires Consistent(cfg, listing)
    ensures SessionOk(cfg, Startup(cfg, listing, now))
  {
    match listing.account
    case None => FirstWrite(cfg, listing, now);
    case Some(_) =>
      RestoredIsSound(cfg, listing, now);
      UnwrittenIsDurable(cfg, listing, Loaded(cfg, listing, now));
  }

  // ---------------------------------------------------------------------
  // What every operation keeps
  // ---------------------------------------------------------------------

  /** While recovery is not complete no plan waits. */
  ghost predicate GateOk(b: Book) {
    !b.recovery.RecoveryComplete? ==> b.pending == []
  }

  ghost predicate SessionOk(cfg: Settings, w: World) {
    Sound(cfg, w.book) && Durable(cfg, w.base, w.book) && GateOk(w.book)
  }

  lemma {:induction false} CandleKeepsStatus(
    cfg: Settings, b: Book, c: Candle, entryPrice: Option<real>, now: int, feed: Feed)
    ensures ProcessCandle(cfg, b, c, entryPrice, now, feed).recovery == b.recovery
    ensures ProcessCandle(cfg, b, c, entryPrice, now, feed).paused == b.paused
    ensures ProcessCandle(cfg, b, c, entryPrice, now, feed).account.starting == b.account.starting
    ensures ProcessCandle(cfg, b, c, entryPrice, now, feed).seen == b.seen
  {
    var today := ResetDay(b, now);
    ObservingKeepsStatus(cfg, today, PositionsOf(today.open, c.symbol), c, now);
    var observed := ObserveAll(cfg, today, PositionsOf(today.open, c.symbol), c, now);
    FillingKeepsStatus(cfg, observed, observed.pending, c, EntryPrice(c, entryPrice), now, feed);
  }

  lemma {:induction false} ObservingKeepsStatus(cfg: Settings, b: Book, ps: seq<Position>, c: Candle, now: int)
    ensures ObserveAll(cfg, b, ps, c, now).recovery == b.recovery
    ensures ObserveAll(cfg, b, ps, c, now).paused == b.paused
    ensures ObserveAll(cfg, b, ps, c, now).account.starting == b.account.starting
    ensures ObserveAll(cfg, b, ps, c, now).seen == b.seen
    decreases |ps|
  {
    if |ps| > 0 {
      ObservingKeepsStatus(cfg, Observe(cfg, b, ps[0], c, now), ps[1..], c, now);
    }
  }

  lemma {:induction false} FillingKeepsStatus(
    cfg: Settings, b: Book, ws: seq<Pending>, c: Candle, price: real, now: int, feed: Feed)
    ensures FillAll(cfg, b, ws, c, price, now, feed).recovery == b.recovery
    ensures FillAll(cfg, b, ws, c, price, now, feed).paused == b.paused
    ensures FillAll(cfg, b, ws, c, price, now, feed).account.starting == b.account.starting
    ensures FillAll(cfg, b, ws, c, price, now, feed).seen == b.seen
    decreases |ws|
  {
    if |ws| > 0 {
      var next := if ws[0].plan.symbol != c.symbol then b else Fill(cfg, b, ws[0], c, price, now, feed);
      FillingKeepsStatus(cfg, next, ws[1..], c, price, now, feed);
    }
  }

  lemma {:induction false} WatchKeepsSession(
    cfg: Settings, w: World, c: Candle, entryPrice: Option<real>, now: int, feed: Feed)
    requires SessionOk(cfg, w)
    ensures SessionOk(cfg, w.(book := ProcessCandle(cfg, w.book, c, entryPrice, now, feed)))
  {
    var next := ProcessCandle(cfg, w.book, c, entryPrice, now, feed);
    CandleIsSound(cfg, w.book, c, entryPrice, now, feed);
    CandleIsDurable(cfg, w.base, w.book, c, entryPrice, now, feed);
    CandleKeepsStatus(cfg, w.book, c, entryPrice, now, feed);
    if next.pending != [] {
      assert next.pending[0] in w.book.pending;
    }
  }

  lemma {:induction false} SubmitKeepsSession(cfg: Settings, w: World, p: Plan, now: int)
    requires SessionOk(cfg, w) && (Identity(p).Some? ==> Unused(w.book, Identity(p).value))
    ensures SessionOk(cfg, w.(book := ProcessPlan(cfg, w.book, p, now).0))
  {
    PlanIsSound(cfg, w.book, p, now);
    PlanIsDurable(cfg, w.base, w.book, p, now);
    PlanOnlyWaits(cfg, w.book, p, now);
  }

  // ---------------------------------------------------------------------
  // Gates
  // ---------------------------------------------------------------------

  ghost predicate OpensOnly(b: Book, next: Book, ids: iset<PlanId>) {
    forall p :: p in next.open ==> p.id in ids || exists q :: q in b.open && q.id == p.id
  }

  ghost function WaitingIds(b: Book): iset<PlanId> {
    iset w | w in b.pending :: w.id
  }

  lemma {:induction false} UpdateOpensNothing(cfg: Settings, b: Book, p: Position, c: Candle, now: int)
    requires Sound(cfg, b) && p in b.open
    ensures OpensOnly(b, UpdateOrClose(cfg, b, p, c, now).0, iset{})
  {
    UpdateIsSound(cfg, b, p, c, now);
  }

  lemma {:induction false} ObserveAllOpensNothing(cfg: Settings, b: Book, ps: seq<Position>, c: Candle, now: int)
    requires Sound(cfg, b) && Listed(b, ps)
    ensures OpensOnly(b, ObserveAll(cfg, b, ps, c, now), iset{})
    decreases |ps|
  {
    if |ps| > 0 {
      UpdateOpensNothing(cfg, b, ps[0], c, now);
      ObserveIsSound(cfg, b, ps[0], c, now);
      ListedAfterOne(cfg, b, ps, c, now);
      ObserveAllOpensNothing(cfg, Observe(cfg, b, ps[0], c, now), ps[1..], c, now);
    }
  }

  lemma {:induction false} FillAllOpensWaiting(
    cfg: Settings, b: Book, ws: seq<Pending>, c: Candle, price: real, now: int, feed: Feed)
    requires Sound(cfg, b) && Queued(b, ws)
    ensures OpensOnly(b, FillAll(cfg, b, ws, c, price, now, feed), WaitingIds(b))
    decreases |ws|
  {
    if |ws| > 0 {
      QueuedAfterOne(cfg, b, ws, c, price, now, feed);
      if ws[0].plan.symbol != c.symbol {
        FillAllOpensWaiting(cfg, b, ws[1..], c, price, now, feed);
      } else {
        FillIsSound(cfg, b, ws[0], c, price, now, feed);
        FillAllOpensWaiting(cfg, Fill(cfg, b, ws[0], c, price, now, feed), ws[1..], c, price, now, feed);
      }
    }
  }

  /** A candle opens only positions whose plans were already waiting. */
  lemma {:induction false} CandleOpensOnlyWaiting(
    cfg: Settings, b: Book, c: Candle, entryPrice: Option<real>, now: int, feed: Feed)
    requires Sound(cfg, b)
    ensures OpensOnly(b, ProcessCandle(cfg, b, c, entryPrice, now, feed), WaitingIds(b))
  {
    ResetIsSound(cfg, b, now);
    var today := ResetDay(b, now);
    SelectionIsListed(today.open, c.symbol);
    var existing := PositionsOf(today.open, c.symbol);
    ObserveAllIsSound(cfg, today, existing, c, now);
    ObserveAllOpensNothing(cfg, today, existing, c, now);
    var observed := ObserveAll(cfg, today, existing, c, now);
    FillAllOpensWaiting(cfg, observed, observed.pending, c, EntryPrice(c, entryPrice), now, feed);
  }

  /** Until recovery completes, no candle opens anything and no plan is accepted. */
  lemma {:induction false} RecoveryBlocksEntries(
    cfg: Settings, w: World, c: Candle, entryPrice: Option<real>, p: Plan, now: int, feed: Feed)
    requires SessionOk(cfg, w) && !w.book.recovery.RecoveryComplete?
    ensures OpensOnly(w.book, ProcessCandle(cfg, w.book, c, entryPrice, now, feed), iset{})
    ensures !ProcessPlan(cfg, w.book, p, now).1
  {
    CandleOpensOnlyWaiting(cfg, w.book, c, entryPrice, now, feed);
    PlanOnlyWaits(cfg, w.book, p, now);
  }

  // ---------------------------------------------------------------------
  // Why identities must be fresh
  // ---------------------------------------------------------------------

  /** The book as it would be if memory agreed with the store. */
  function BookOf(s: Store): Book
    requires s.account.Some?
  {
    Book(s.account.value, [], s.positions, [], [], RecoveryComplete, false, s.trades, [])
  }

  /**
   * The close transaction ignores a trade row that already exists, so it keeps the store
   * balanced exactly when the identity was never traded before.
   */
  lemma {:induction false} CloseBalancesIffFresh(cfg: Settings, s: Store, p: Position, e: Exit, now: int)
    requires s.account.Some? && Balanced(s.account.value, s.positions, s.trades)
    requires Distinct(PositionKey, s.positions) && p in s.positions
    ensures var (next, t) := ClosePosition(cfg, BookOf(s), p, e, now);
            var after := Apply(s, PersistClose(next.account, t));
            Balanced(after.account.value, after.positions, after.trades) <==> !Has(TradeKey, s.trades, p.id)
  {
    CloseBalances(cfg, BookOf(s), p, e, now);
  }
}
