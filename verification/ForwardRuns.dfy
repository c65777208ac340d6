/**
 * On every forward run, restarts included: the exact condition under which the book stays sound.
 * While it holds, each accepted plan has exactly one fate, and everything stored balances at
 * every crash point.
 */
module ForwardRuns {
  import opened Common
  import opened Tables
  import opened Configuration
  import opened Market
  import opened Indicators
  import opened Strategy
  import opened Risk
  import opened Ledger
  import opened LedgerInvariants
  import opened LedgerEquity
  import opened Durability
  import opened Session
  import opened BacktestInvariants
  import opened Forward
  import opened ForwardLives

  // ---------------------------------------------------------------------
  // The invariant
  // ---------------------------------------------------------------------

  /** Identities of this process are behind its watermarks; the others were stored before it started. */
  ghost predicate Reached(marks: map<Key, int>, base: Store, ids: multiset<PlanId>) {
    forall id :: id in ids ==> Covers(marks, id) || id in StoredKeys(base)
  }

  /** Every plan ever accepted waits, is open, is closed, was cancelled, or was lost in a restart. */
  ghost predicate Accounted(r: Records, live: multiset<PlanId>) {
    r.accepted == live + r.cancelled + r.lost
  }

  /** What holds of the identities in the book. */
  ghost predicate Tracked(marks: map<Key, int>, base: Store, r: Records, live: multiset<PlanId>) {
    Reached(marks, base, live) && Accounted(r, live)
  }

  ghost predicate PlatformOk(cfg: Settings, w: Platform) {
    && SessionOk(cfg, World(w.base, w.book))
    && Named(w.base, w.book)
    && Tracked(w.engines.riskMarks, w.base, w.records, Live(w.book))
  }

  lemma {:induction false} LiveIsUsed(b: Book, id: PlanId)
    ensures id !in Live(b) ==> Unused(b, id)
  {
    KeyIsListed(PositionKey, b.open, id);
    KeyIsListed(TradeKey, b.history, id);
  }

  // ---------------------------------------------------------------------
  // What analysing a candle does
  // ---------------------------------------------------------------------

  /** At most one plan is submitted; it names the candle, which opens after its key's watermark. */
  ghost predicate Advances(cfg: Settings, w: Platform, next: Platform, c: Candle, p: Option<Plan>, now: int) {
    && next.up == w.up && next.base == w.base
    && match p
       case None => next.book == w.book && next.records == w.records && next.engines.riskMarks == w.engines.riskMarks
       case Some(plan) =>
         && Passes(w.engines.riskMarks, KeyOf(c), Some(c.openTime)) && Identity(plan) == Some(IdOf(c))
         && next.engines.riskMarks == w.engines.riskMarks[KeyOf(c) := c.openTime]
         && next.book == Submitted(cfg, w, plan, now).book && next.records == Submitted(cfg, w, plan, now).records
  }

  lemma {:induction false} SignallingAdvances(cfg: Settings, w: Platform, s: Signal, c: Candle, m: Moment)
    returns (p: Option<Plan>)
    requires NamesSignal(c, s)
    ensures Advances(cfg, w, Signalling(cfg, w, s, m), c, p, m.paperNow)
    ensures p == ProcessSignal(cfg, w.engines.riskMarks, w.engines.riskAccount, s, Some(m.riskFeed), m.riskNow).1
  {
    PlanNamesCandle(cfg, c, s, Some(m.riskFeed), w.engines.riskAccount, m.riskNow);
    p := ProcessSignal(cfg, w.engines.riskMarks, w.engines.riskAccount, s, Some(m.riskFeed), m.riskNow).1;
  }

  lemma {:induction false} SnapshottingAdvances(cfg: Settings, w: Platform, s: Snapshot, c: Candle, m: Moment)
    returns (p: Option<Plan>)
    requires NamesSnapshot(c, s)
    ensures Advances(cfg, w, Snapshotted(cfg, w, s, m), c, p, m.paperNow)
    ensures forall states :: p == Proposed(cfg, w.engines, Ok((states, Some(s))), m)
  {
    p := None;
    var (marks, signal) := ProcessSnapshot(cfg, w.engines.strategyMarks, s, Some(m.feed), m.wall);
    if signal.Some? {
      assert NamesSignal(c, signal.value);
      p := SignallingAdvances(cfg, w.(engines := w.engines.(strategyMarks := marks)), signal.value, c, m);
    }
  }

  lemma {:induction false} LearningAdvances(
    cfg: Settings, w: Platform, r: Result<(map<Key, IndicatorState>, Option<Snapshot>), MarketError>, c: Candle,
    m: Moment)
    returns (p: Option<Plan>)
    requires r.Ok? && r.value.1.Some? ==> NamesSnapshot(c, r.value.1.value)
    ensures Advances(cfg, w, Learned(cfg, w, r, m), c, p, m.paperNow)
    ensures p == Proposed(cfg, w.engines, r, m)
  {
    p := None;
    if r.Ok? && r.value.1.Some? {
      p := SnapshottingAdvances(cfg, w.(engines := w.engines.(states := r.value.0)), r.value.1.value, c, m);
    }
  }

  lemma {:induction false} PublishedIsNewer(cfg: Settings, states: map<Key, IndicatorState>, c: Candle)
    requires Process(cfg, states, c).Ok? && Process(cfg, states, c).value.1.Some?
    ensures NamesSnapshot(c, Process(cfg, states, c).value.1.value)
    ensures c.isClosed && IsNewer(StateAt(states, KeyOf(c)), c)
  {
  }

  lemma {:induction false} AnalysisAdvances(cfg: Settings, w: Platform, c: Candle, m: Moment)
    returns (p: Option<Plan>)
    ensures Advances(cfg, w, Analysed(cfg, w, c, m), c, p, m.paperNow)
    ensures p == PlanFor(cfg, w.engines, c, m)
    ensures p.Some? ==> c.isClosed && IsNewer(StateAt(w.engines.states, KeyOf(c)), c)
  {
    var r := Process(cfg, w.engines.states, c);
    if r.Ok? && r.value.1.Some? {
      PublishedIsNewer(cfg, w.engines.states, c);
    }
    p := LearningAdvances(cfg, w, r, c, m);
  }

  // ---------------------------------------------------------------------
  // Freshness
  // ---------------------------------------------------------------------

  lemma {:induction false} CancellingKeepsTrack(
    marks: map<Key, int>, base: Store, r: Records, live: multiset<PlanId>, next: multiset<PlanId>,
    cancelled: multiset<PlanId>)
    requires Tracked(marks, base, r, live) && next + cancelled == live
    ensures Tracked(marks, base, r.(cancelled := r.cancelled + cancelled), next)
  {
    forall id | id in next ensures Covers(marks, id) || id in StoredKeys(base) {
      assert id in live;
    }
  }

  lemma {:induction false} AcceptingKeepsTrack(
    marks: map<Key, int>, base: Store, r: Records, live: multiset<PlanId>, c: Candle, accepted: bool)
    requires Tracked(marks, base, r, live) && Passes(marks, KeyOf(c), Some(c.openTime))
    ensures var added := if accepted then multiset{IdOf(c)} else multiset{};
            Tracked(marks[KeyOf(c) := c.openTime], base, r.(accepted := r.accepted + added), live + added)
  {
    var marked := marks[KeyOf(c) := c.openTime];
    forall id | Covers(marks, id) ensures Covers(marked, id) {
    }
    assert accepted ==> r.accepted + multiset{IdOf(c)} == live + multiset{IdOf(c)} + r.cancelled + r.lost;
  }

  /** Any change of the book that keeps the session, moves identities along and cancels some of them. */
  lemma {:induction false} MovingKeepsPlatform(
    cfg: Settings, w: Platform, book: Book, riskAccount: RiskAccount, cancelled: multiset<PlanId>)
    requires PlatformOk(cfg, w) && SessionOk(cfg, World(w.base, book)) && Named(w.base, book)
    requires Live(book) + cancelled == Live(w.book)
    ensures PlatformOk(cfg, w.(book := book, engines := w.engines.(riskAccount := riskAccount),
                               records := w.records.(cancelled := w.records.cancelled + cancelled)))
  {
    CancellingKeepsTrack(w.engines.riskMarks, w.base, w.records, Live(w.book), Live(book), cancelled);
  }

  /** Past the watermark an identity is in the book exactly when it was stored before the process started. */
  lemma {:induction false} OnlyStoredRepeats(cfg: Settings, w: Platform, c: Candle)
    requires PlatformOk(cfg, w) && Passes(w.engines.riskMarks, KeyOf(c), Some(c.openTime))
    ensures IdOf(c) in Live(w.book) <==> IdOf(c) in StoredKeys(w.base)
  {
  }

  lemma {:induction false} AcceptingKeepsPlatform(cfg: Settings, w: Platform, next: Platform, c: Candle, accepted: bool)
    requires PlatformOk(cfg, w) && SessionOk(cfg, World(next.base, next.book)) && Named(next.base, next.book)
    requires Passes(w.engines.riskMarks, KeyOf(c), Some(c.openTime))
    requires next.base == w.base && next.engines.riskMarks == w.engines.riskMarks[KeyOf(c) := c.openTime]
    requires var added := if accepted then multiset{IdOf(c)} else multiset{};
             && Live(next.book) == Live(w.book) + added
             && next.records == w.records.(accepted := w.records.accepted + added)
    ensures PlatformOk(cfg, next)
  {
    AcceptingKeepsTrack(w.engines.riskMarks, w.base, w.records, Live(w.book), c, accepted);
  }

  lemma {:induction false} FreshPlanKeepsBook(cfg: Settings, base: Store, b: Book, p: Plan, id: PlanId, now: int)
    requires SessionOk(cfg, World(base, b)) && Named(base, b) && Identity(p) == Some(id) && id !in Live(b)
    ensures var (next, accepted) := ProcessPlan(cfg, b, p, now);
            && SessionOk(cfg, World(base, next)) && Named(base, next)
            && Live(next) == Live(b) + (if accepted then multiset{id} else multiset{})
  {
    LiveIsUsed(b, id);
    SubmitKeepsSession(cfg, World(base, b), p, now);
    PlanAddsOne(cfg, base, b, p, now);
  }

  lemma {:induction false} RefusedPlanKeepsBook(cfg: Settings, base: Store, b: Book, p: Plan, now: int)
    requires SessionOk(cfg, World(base, b)) && Named(base, b) && Identity(p).Some? && !ProcessPlan(cfg, b, p, now).1
    ensures var next := ProcessPlan(cfg, b, p, now).0;
            SessionOk(cfg, World(base, next)) && Named(base, next) && Live(next) == Live(b)
  {
    ResetKeepsSession(cfg, base, b, now);
    ResetMovesNothing(base, b, now);
    var seen := RefusedPlanIsSeen(cfg, b, p, now);
    SeenKeepsSession(cfg, base, ResetDay(b, now), seen);
    SeenKeepsNames(base, ResetDay(b, now), seen);
  }

  lemma {:induction false} RefusedPlanIsSeen(cfg: Settings, b: Book, p: Plan, now: int) returns (seen: seq<PlanId>)
    requires Identity(p).Some? && !ProcessPlan(cfg, b, p, now).1
    ensures ProcessPlan(cfg, b, p, now).0 == ResetDay(b, now).(seen := seen)
  {
    seen := ProcessPlan(cfg, b, p, now).0.seen;
  }

  lemma {:induction false} ResetKeepsSession(cfg: Settings, base: Store, b: Book, now: int)
    requires SessionOk(cfg, World(base, b))
    ensures SessionOk(cfg, World(base, ResetDay(b, now)))
  {
    ResetIsSound(cfg, b, now);
    ResetIsDurable(cfg, base, b, now);
  }

  lemma {:induction false} SeenKeepsSession(cfg: Settings, base: Store, b: Book, seen: seq<PlanId>)
    requires SessionOk(cfg, World(base, b))
    ensures SessionOk(cfg, World(base, b.(seen := seen)))
  {
    Unwritten(cfg, base, b, b.(seen := seen));
  }

  lemma {:induction false} SeenKeepsNames(base: Store, b: Book, seen: seq<PlanId>)
    requires Named(base, b)
    ensures Named(base, b.(seen := seen)) && Live(b.(seen := seen)) == Live(b)
  {
  }

  /** The plan is accepted although its identity was already stored when the process started. */
  ghost predicate TakesStored(cfg: Settings, base: Store, b: Book, p: Plan, now: int) {
    Accepts(cfg, b, p, now) && Identity(p).value in StoredKeys(base)
  }

  lemma {:induction false} SubmittingKeepsPlatform(
    cfg: Settings, w: Platform, next: Platform, c: Candle, p: Option<Plan>, now: int)
    requires PlatformOk(cfg, w) && Advances(cfg, w, next, c, p, now)
    requires p.Some? ==> !TakesStored(cfg, w.base, w.book, p.value, now)
    ensures PlatformOk(cfg, next)
  {
    if p.Some? {
      var accepted := ProcessPlan(cfg, w.book, p.value, now).1;
      PlanOnlyWaits(cfg, w.book, p.value, now);
      if accepted {
        OnlyStoredRepeats(cfg, w, c);
        FreshPlanKeepsBook(cfg, w.base, w.book, p.value, IdOf(c), now);
      } else {
        RefusedPlanKeepsBook(cfg, w.base, w.book, p.value, now);
      }
      AcceptingKeepsPlatform(cfg, w, next, c, accepted);
    }
  }

  lemma {:induction false} StoredIsTaken(cfg: Settings, w: Platform, p: Plan, now: int)
    requires PlatformOk(cfg, w) && TakesStored(cfg, w.base, w.book, p, now)
    ensures !Sound(cfg, ProcessPlan(cfg, w.book, p, now).0)
  {
    var id := Identity(p).value;
    PlanOnlyWaits(cfg, w.book, p, now);
    AcceptedPlanIsSoundIff(cfg, w.book, p, now);
    assert id in Used(w.book);
    KeyIsListed(PositionKey, w.book.open, id);
    KeyIsListed(TradeKey, w.book.history, id);
  }

  // ---------------------------------------------------------------------
  // One event
  // ---------------------------------------------------------------------

  lemma {:induction false} WatchingKeepsPlatform(cfg: Settings, w: Platform, c: Candle, now: int, feed: Feed)
    requires PlatformOk(cfg, w)
    ensures PlatformOk(cfg, Watched(cfg, w, c, now, feed))
  {
    WatchKeepsSession(cfg, World(w.base, w.book), c, None, now, feed);
    CandleMoves(cfg, w.base, w.book, c, now, feed);
    MovingKeepsPlatform(cfg, w, ProcessCandle(cfg, w.book, c, None, now, feed),
                        Hear(w.engines, ReportBy(cfg, w.book, c, now, feed)).riskAccount,
                        CancelledBy(cfg, w.book, c, now, feed));
  }

  lemma {:induction false} PauseKeepsSession(cfg: Settings, base: Store, b: Book, paused: bool)
    requires SessionOk(cfg, World(base, b))
    ensures SessionOk(cfg, World(base, b.(paused := paused)))
  {
    Unwritten(cfg, base, b, b.(paused := paused));
  }

  lemma {:induction false} PauseKeepsNames(base: Store, b: Book, paused: bool)
    requires Named(base, b)
    ensures Named(base, b.(paused := paused)) && Live(b.(paused := paused)) == Live(b)
  {
  }

  lemma {:induction false} JudgingKeepsPlatform(cfg: Settings, w: Platform, verdict: Option<bool>)
    requires PlatformOk(cfg, w)
    ensures PlatformOk(cfg, Judged(w, verdict))
  {
    if verdict.Some? {
      PauseKeepsSession(cfg, w.base, w.book, verdict.value);
      PauseKeepsNames(w.base, w.book, verdict.value);
    }
  }

  lemma {:induction false} SeeingKeepsPlatform(
    cfg: Settings, w: Platform, c: Candle, now: int, feed: Feed, verdict: Option<bool>)
    requires PlatformOk(cfg, w)
    ensures PlatformOk(cfg, Judged(Watched(cfg, w, c, now, feed), verdict))
  {
    WatchingKeepsPlatform(cfg, w, c, now, feed);
    JudgingKeepsPlatform(cfg, Watched(cfg, w, c, now, feed), verdict);
  }

  lemma {:induction false} SeeingLeavesEngines(
    cfg: Settings, w: Platform, c: Candle, now: int, feed: Feed, verdict: Option<bool>)
    ensures var seen := Judged(Watched(cfg, w, c, now, feed), verdict);
            && seen.up == w.up && seen.base == w.base && seen.engines.states == w.engines.states
            && seen.engines.riskMarks == w.engines.riskMarks && seen.records.accepted == w.records.accepted
            && seen.records.lost == w.records.lost
  {
  }

  /** Analysing the candle would have a plan accepted whose identity was stored before the process started. */
  ghost predicate Repeated(cfg: Settings, w: Platform, c: Candle, m: Moment) {
    var p := PlanFor(cfg, w.engines, c, m);
    p.Some? && TakesStored(cfg, w.base, w.book, p.value, m.paperNow)
  }

  lemma {:induction false} AnalysisKeepsPlatformIff(cfg: Settings, w: Platform, c: Candle, m: Moment)
    requires PlatformOk(cfg, w)
    ensures Repeated(cfg, w, c, m) ==> !Sound(cfg, Analysed(cfg, w, c, m).book)
    ensures !Repeated(cfg, w, c, m) ==> PlatformOk(cfg, Analysed(cfg, w, c, m))
  {
    var p := AnalysisAdvances(cfg, w, c, m);
    if Repeated(cfg, w, c, m) {
      StoredIsTaken(cfg, w, p.value, m.paperNow);
    } else {
      SubmittingKeepsPlatform(cfg, w, Analysed(cfg, w, c, m), c, p, m.paperNow);
    }
  }

  /**
   * The event delivers a complete, valid candle from which a valid plan is built, while the gates
   * are open, and the identity of that candle is among the rows the process was started from.
   */
  ghost predicate Repeats(cfg: Settings, w: Platform, a: Event) {
    match a
    case Ingest(c, feed, now, verdict, m) =>
      && w.up && ValidateCandle(c, cfg.symbols, cfg.defaultTimeframe).None? && !StopsAt(cfg, w, c, now, feed)
      && Repeated(cfg, Judged(Watched(cfg, w, c, now, feed), verdict), c, m)
    case _ => false
  }

  lemma {:induction false} IngestKeepsPlatformIff(
    cfg: Settings, w: Platform, c: Candle, feed: Feed, now: int, verdict: Option<bool>, m: Moment)
    requires PlatformOk(cfg, w) && w.up && ValidateCandle(c, cfg.symbols, cfg.defaultTimeframe).None?
    ensures var seen := Judged(Watched(cfg, w, c, now, feed), verdict);
            var next := Ingested(cfg, w, c, feed, now, verdict, m);
            && (StopsAt(cfg, w, c, now, feed) ==> PlatformOk(cfg, next))
            && (!StopsAt(cfg, w, c, now, feed) && Repeated(cfg, seen, c, m) ==> !Sound(cfg, next.book))
            && (!StopsAt(cfg, w, c, now, feed) && !Repeated(cfg, seen, c, m) ==> PlatformOk(cfg, next))
  {
    SeeingKeepsPlatform(cfg, w, c, now, feed, verdict);
    AnalysisKeepsPlatformIff(cfg, Judged(Watched(cfg, w, c, now, feed), verdict), c, m);
  }

  lemma {:induction false} ReadingKeepsPlatform(cfg: Settings, w: Platform, now: int)
    requires PlatformOk(cfg, w)
    ensures PlatformOk(cfg, w.(book := ResetDay(w.book, now)))
  {
    ResetKeepsSession(cfg, w.base, w.book, now);
    ResetMovesNothing(w.base, w.book, now);
  }

  lemma {:induction false} RecoveringKeepsPlatform(
    cfg: Settings, w: Platform, fetch: Key -> Option<seq<Candle>>, now: int)
    requires PlatformOk(cfg, w)
    ensures PlatformOk(cfg, Recovered(cfg, w, fetch, now))
  {
    ReconcileIsDurable(cfg, w.base, w.book, fetch, now);
    RecoveryMoves(cfg, w.base, w.book, fetch, now);
  }

  // ---------------------------------------------------------------------
  // Restarts
  // ---------------------------------------------------------------------

  lemma {:induction false} KeysOnce<T, K>(key: T -> K, rows: seq<T>)
    requires Distinct(key, rows)
    ensures forall k :: multiset(Keys(key, rows))[k] <= 1
  {
    if |rows| > 0 {
      var front, last := rows[..|rows| - 1], rows[|rows| - 1];
      KeysOnce(key, front);
      KeysAppend(key, front, last);
      assert front + [last] == rows;
      forall i | 0 <= i < |front| ensures Keys(key, front)[i] != key(last) {
        assert key(rows[i]) != key(rows[|rows| - 1]);
      }
      assert key(last) !in Keys(key, front);
    }
  }

  lemma {:induction false} StoredOnce(positions: seq<Position>, trades: seq<Trade>)
    requires OnceOnly(positions, trades)
    ensures forall id :: (multiset(Keys(PositionKey, positions)) + multiset(Keys(TradeKey, trades)))[id] <= 1
  {
    KeysOnce(PositionKey, positions);
    KeysOnce(TradeKey, trades);
    forall id ensures !(id in multiset(Keys(PositionKey, positions)) && id in multiset(Keys(TradeKey, trades))) {
      KeyIsListed(PositionKey, positions, id);
      KeyIsListed(TradeKey, trades, id);
    }
  }

  /** No identity waits, is open or is closed twice, in any combination. */
  lemma {:induction false} LiveOnce(cfg: Settings, b: Book, id: PlanId)
    requires Sound(cfg, b)
    ensures Live(b)[id] <= 1
  {
    StoredOnce(b.open, b.history);
    KeysOnce(PendingKey, b.pending);
    KeyIsListed(PendingKey, b.pending, id);
    KeyIsListed(PositionKey, b.open, id);
    KeyIsListed(TradeKey, b.history, id);
  }

  lemma {:induction false} SameStoredKeys(s: Store, listing: Store)
    requires SameStore(s, listing)
    ensures forall id :: id in StoredKeys(s) <==> id in StoredKeys(listing)
  {
    SameMembers(s.positions, listing.positions);
    SameMembers(s.trades, listing.trades);
    forall id ensures id in StoredKeys(s) <==> id in StoredKeys(listing) {
      KeyIsListed(PositionKey, s.positions, id);
      KeyIsListed(PositionKey, listing.positions, id);
      KeyIsListed(TradeKey, s.trades, id);
      KeyIsListed(TradeKey, listing.trades, id);
    }
  }

  lemma {:induction false} LoadedKeys(listing: Store, b: Book)
    requires b.open == Awaiting(listing.positions) && b.history == listing.trades && b.pending == []
    requires forall i :: 0 <= i < |b.txns| ==> b.txns[i].PersistAccount?
    ensures Live(b) == StoredKeys(listing) && Named(listing, b)
  {
    AwaitingKeys(listing.positions);
    AccountsNameNothing(listing, b.txns);
  }

  lemma {:induction false} AwaitingKeys(ps: seq<Position>)
    ensures Keys(PositionKey, Awaiting(ps)) == Keys(PositionKey, ps)
  {
  }

  lemma {:induction false} AccountsNameNothing(listing: Store, ts: seq<Txn>)
    requires forall i :: 0 <= i < |ts| ==> ts[i].PersistAccount?
    ensures NamedIn(listing, StoredKeys(listing), ts)
  {
  }

  lemma {:induction false} LoadedIsStored(cfg: Settings, listing: Store, now: int)
    requires Consistent(cfg, listing)
    ensures var b := Startup(cfg, listing, now).book; Live(b) == StoredKeys(listing) && Named(listing, b)
  {
    var loaded := Loaded(cfg, listing, now);
    assert loaded.open == Awaiting(listing.positions) && loaded.history == [] + listing.trades == listing.trades;
    LoadedKeys(listing, Startup(cfg, listing, now).book);
  }

  lemma {:induction false} StartKeepsPlatform(
    cfg: Settings, listing: Store, now: int, warm: string -> Option<seq<Candle>>, r: Records)
    requires Consistent(cfg, listing) && r.accepted == StoredKeys(listing) + r.cancelled + r.lost
    ensures PlatformOk(cfg, Started(cfg, listing, now, warm, r))
  {
    StartupIsSound(cfg, listing, now);
    LoadedIsStored(cfg, listing, now);
  }

  lemma {:induction false} LossesAreCounted(r: Records, live: multiset<PlanId>, stored: multiset<PlanId>)
    requires Accounted(r, live) && (forall id :: stored[id] <= 1) && (forall id :: id in stored ==> id in live)
    ensures stored <= live && r.accepted == stored + r.cancelled + (r.lost + (live - stored))
  {
    forall id ensures stored[id] <= live[id] {
      assert id in stored ==> id in live;
    }
  }

  lemma {:induction false} RestartKeepsPlatform(
    cfg: Settings, w: Platform, k: nat, listing: Store, now: int, warm: string -> Option<seq<Candle>>)
    requires PlatformOk(cfg, w) && k <= |w.book.txns| && SameStore(ApplyAll(w.base, w.book.txns[..k]), listing)
    ensures PlatformOk(cfg, Started(cfg, listing, now, warm, Lose(w.records, w.book, listing)))
    ensures StoredKeys(listing) <= Live(w.book)
  {
    var s := ApplyAll(w.base, w.book.txns[..k]);
    ConsistentInAnyOrder(cfg, s, listing);
    StoredKeysAreUsed(w.base, w.book, k);
    SameStoredKeys(s, listing);
    StoredOnce(listing.positions, listing.trades);
    LossesAreCounted(w.records, Live(w.book), StoredKeys(listing));
    StartKeepsPlatform(cfg, listing, now, warm, Lose(w.records, w.book, listing));
  }

  // ---------------------------------------------------------------------
  // Every run
  // ---------------------------------------------------------------------

  lemma {:induction false} RecoveryStepKeepsPlatform(
    cfg: Settings, w: Platform, next: Platform, fetch: Key -> Option<seq<Candle>>, now: int)
    requires PlatformOk(cfg, w) && next == Recovered(cfg, w, fetch, now)
    ensures PlatformOk(cfg, next)
  {
    RecoveringKeepsPlatform(cfg, w, fetch, now);
  }

  lemma {:induction false} RestartStepKeepsPlatform(
    cfg: Settings, w: Platform, next: Platform, k: nat, listing: Store, now: int, warm: string -> Option<seq<Candle>>)
    requires PlatformOk(cfg, w) && k <= |w.book.txns| && SameStore(ApplyAll(w.base, w.book.txns[..k]), listing)
    requires next == Started(cfg, listing, now, warm, Lose(w.records, w.book, listing))
    ensures PlatformOk(cfg, next)
  {
    RestartKeepsPlatform(cfg, w, k, listing, now, warm);
  }

  lemma {:induction false} OtherEventsKeepPlatform(cfg: Settings, w: Platform, a: Event, next: Platform)
    requires PlatformOk(cfg, w) && Permitted(w, a) && !a.Ingest? && (w.up || a.Restart?)
    requires next == Forward.Next(cfg, w, a)
    ensures PlatformOk(cfg, next)
  {
    match a
    case SetEntries(paused) => JudgingKeepsPlatform(cfg, w, Some(paused));
    case ReadBook(now) => ReadingKeepsPlatform(cfg, w, now);
    case Reconciling(fetch, now) => RecoveryStepKeepsPlatform(cfg, w, next, fetch, now);
    case Restart(k, listing, now, warm) => RestartStepKeepsPlatform(cfg, w, next, k, listing, now, warm);
  }

  /** One event keeps everything, unless it repeats a stored identity; then it breaks the book. */
  lemma {:induction false} EventKeepsPlatformIff(cfg: Settings, w: Platform, a: Event)
    requires PlatformOk(cfg, w) && Permitted(w, a)
    ensures Repeats(cfg, w, a) ==> !Sound(cfg, Forward.Next(cfg, w, a).book)
    ensures !Repeats(cfg, w, a) ==> PlatformOk(cfg, Forward.Next(cfg, w, a))
  {
    if !w.up && !a.Restart? {
      assert Forward.Next(cfg, w, a) == w;
    } else if !a.Ingest? {
      OtherEventsKeepPlatform(cfg, w, a, Forward.Next(cfg, w, a));
    } else if ValidateCandle(a.candle, cfg.symbols, cfg.defaultTimeframe).None? {
      IngestKeepsPlatformIff(cfg, w, a.candle, a.feed, a.now, a.verdict, a.moment);
    }
  }

  /** None of the first `n` events repeats a stored identity. */
  ghost predicate NoRepeats(cfg: Settings, events: seq<Event>, ws: seq<Platform>, n: nat)
    requires n <= |events| < |ws|
  {
    forall i :: 0 <= i < n ==> !Repeats(cfg, ws[i], events[i])
  }

  lemma {:induction false} HoldsThroughout<T(!new)>(inv: T -> bool, ws: seq<T>, i: nat)
    requires i < |ws| && inv(ws[0])
    requires forall j, k :: 0 <= j < k < |ws| && k == j + 1 && inv(ws[j]) ==> inv(ws[k])
    ensures inv(ws[i])
  {
    if i > 0 {
      HoldsThroughout(inv, ws, i - 1);
    }
  }

  lemma {:induction false} RunStartsConsistent(
    cfg: Settings, start: int, warm: string -> Option<seq<Candle>>, events: seq<Event>, ws: seq<Platform>)
    requires IsForwardRun(cfg, start, warm, events, ws)
    ensures PlatformOk(cfg, ws[0])
  {
    StartKeepsPlatform(cfg, EMPTY_STORE, start, warm, NO_RECORDS);
  }

  lemma {:induction false} StepKeepsPlatformIff(
    cfg: Settings, start: int, warm: string -> Option<seq<Candle>>, events: seq<Event>, ws: seq<Platform>, i: nat)
    requires IsForwardRun(cfg, start, warm, events, ws) && i < |events| && PlatformOk(cfg, ws[i])
    ensures Repeats(cfg, ws[i], events[i]) ==> !Sound(cfg, ws[i + 1].book)
    ensures !Repeats(cfg, ws[i], events[i]) ==> PlatformOk(cfg, ws[i + 1])
  {
    EventKeepsPlatformIff(cfg, ws[i], events[i]);
  }

  /**
   * As long as no event repeats a stored identity, restarts included, the book is sound, what is
   * stored after every single write balances, identities are behind the watermarks or stored, and
   * every accepted plan has exactly one fate.
   */
  lemma {:induction false} EveryRunIsConsistent(
    cfg: Settings, start: int, warm: string -> Option<seq<Candle>>, events: seq<Event>, ws: seq<Platform>, i: nat)
    requires IsForwardRun(cfg, start, warm, events, ws) && i < |ws| && NoRepeats(cfg, events, ws, i)
    ensures PlatformOk(cfg, ws[i])
  {
    RunStartsConsistent(cfg, start, warm, events, ws);
    var past := ws[..i + 1];
    forall j, k | 0 <= j < k < |past| && k == j + 1 && PlatformOk(cfg, past[j]) ensures PlatformOk(cfg, past[k]) {
      StepKeepsPlatformIff(cfg, start, warm, events, ws, j);
    }
    HoldsThroughout((w: Platform) => PlatformOk(cfg, w), past, i);
  }

  lemma {:induction false} EveryBookIsSound(
    cfg: Settings, start: int, warm: string -> Option<seq<Candle>>, events: seq<Event>, ws: seq<Platform>, i: nat)
    requires IsForwardRun(cfg, start, warm, events, ws) && i < |ws| && NoRepeats(cfg, events, ws, i)
    ensures Sound(cfg, ws[i].book)
  {
    EveryRunIsConsistent(cfg, start, warm, events, ws, i);
  }

  /** The first event to repeat a stored identity breaks the book. */
  lemma {:induction false} FirstRepeatBreaks(
    cfg: Settings, start: int, warm: string -> Option<seq<Candle>>, events: seq<Event>, ws: seq<Platform>, i: nat)
    requires IsForwardRun(cfg, start, warm, events, ws) && i < |events|
    requires NoRepeats(cfg, events, ws, i) && Repeats(cfg, ws[i], events[i])
    ensures !Sound(cfg, ws[i + 1].book)
  {
    EveryRunIsConsistent(cfg, start, warm, events, ws, i);
    StepKeepsPlatformIff(cfg, start, warm, events, ws, i);
  }

  lemma {:induction false} EveryBookUntil(
    cfg: Settings, start: int, warm: string -> Option<seq<Candle>>, events: seq<Event>, ws: seq<Platform>, n: nat)
    requires IsForwardRun(cfg, start, warm, events, ws) && n <= |events| && NoRepeats(cfg, events, ws, n)
    ensures forall i :: 0 <= i <= n ==> Sound(cfg, ws[i].book)
  {
    forall i | 0 <= i <= n ensures Sound(cfg, ws[i].book) {
      EveryBookIsSound(cfg, start, warm, events, ws, i);
    }
  }

  lemma {:induction false} FirstRepeat(cfg: Settings, events: seq<Event>, ws: seq<Platform>, n: nat)
    returns (i: nat)
    requires n <= |events| < |ws| && !NoRepeats(cfg, events, ws, n)
    ensures i < n && NoRepeats(cfg, events, ws, i) && Repeats(cfg, ws[i], events[i])
  {
    if NoRepeats(cfg, events, ws, n - 1) {
      i := n - 1;
    } else {
      i := FirstRepeat(cfg, events, ws, n - 1);
    }
  }

  /** On any run at all, the book is sound throughout exactly when no event repeats a stored identity. */
  lemma {:induction false} RunIsSoundIff(
    cfg: Settings, start: int, warm: string -> Option<seq<Candle>>, events: seq<Event>, ws: seq<Platform>, n: nat)
    requires IsForwardRun(cfg, start, warm, events, ws) && n <= |events|
    ensures (forall i :: 0 <= i <= n ==> Sound(cfg, ws[i].book)) <==> NoRepeats(cfg, events, ws, n)
  {
    if NoRepeats(cfg, events, ws, n) {
      EveryBookUntil(cfg, start, warm, events, ws, n);
    } else {
      var i := FirstRepeat(cfg, events, ws, n);
      FirstRepeatBreaks(cfg, start, warm, events, ws, i);
    }
  }

  /** Every plan ever accepted waits, is open, is closed, was cancelled or was lost, and is in the book only once. */
  lemma {:induction false} EveryPlanHasOneFate(
    cfg: Settings, start: int, warm: string -> Option<seq<Candle>>, events: seq<Event>, ws: seq<Platform>, i: nat,
    id: PlanId)
    requires IsForwardRun(cfg, start, warm, events, ws) && i < |ws| && NoRepeats(cfg, events, ws, i)
    ensures var (b, r) := (ws[i].book, ws[i].records);
            && r.accepted == WaitingOf(b) + OpenOf(b) + ClosedOf(b) + r.cancelled + r.lost
            && WaitingOf(b)[id] + OpenOf(b)[id] + ClosedOf(b)[id] <= 1
  {
    EveryRunIsConsistent(cfg, start, warm, events, ws, i);
    LiveOnce(cfg, ws[i].book, id);
  }

  /** At every crash point the stored cash, positions and trades agree. */
  lemma {:induction false} EveryCrashPointBalances(
    cfg: Settings, start: int, warm: string -> Option<seq<Candle>>, events: seq<Event>, ws: seq<Platform>, i: nat,
    k: nat)
    requires IsForwardRun(cfg, start, warm, events, ws) && i < |ws| && NoRepeats(cfg, events, ws, i)
             && k <= |ws[i].book.txns|
    ensures var s := ApplyAll(ws[i].base, ws[i].book.txns[..k]);
            s.account.Some? ==>
              && s.account.value.cash ==
                 s.account.value.starting + Sum(NetOf, s.trades) - Sum(EntryFeeOf, s.positions)
              && Disjoint(s.positions, s.trades)
              && Distinct(TradeKey, s.trades) && |s.positions| <= cfg.maxOpenPositions
  {
    EveryRunIsConsistent(cfg, start, warm, events, ws, i);
    assert Consistent(cfg, ApplyAll(ws[i].base, ws[i].book.txns[..k]));
  }

  // ---------------------------------------------------------------------
  // Runs without a restart
  // ---------------------------------------------------------------------

  /** Accepted identities differ from each other and are behind the watermarks; none is lost. */
  ghost predicate AcceptedOnce(marks: map<Key, int>, r: Records) {
    r.lost == multiset{} && forall id :: id in r.accepted ==> r.accepted[id] == 1 && Covers(marks, id)
  }

  lemma {:induction false} AdvancingAcceptsOnce(
    cfg: Settings, w: Platform, next: Platform, c: Candle, p: Option<Plan>, now: int)
    requires AcceptedOnce(w.engines.riskMarks, w.records) && Advances(cfg, w, next, c, p, now)
    ensures AcceptedOnce(next.engines.riskMarks, next.records)
  {
    if p.Some? {
      var marked := w.engines.riskMarks[KeyOf(c) := c.openTime];
      forall id | id in w.records.accepted ensures Covers(marked, id) && id != IdOf(c) {
        assert Covers(w.engines.riskMarks, id);
      }
    }
  }

  lemma {:induction false} AnalysisAcceptsOnce(cfg: Settings, w: Platform, c: Candle, m: Moment)
    requires AcceptedOnce(w.engines.riskMarks, w.records)
    ensures var next := Analysed(cfg, w, c, m); AcceptedOnce(next.engines.riskMarks, next.records)
  {
    var p := AnalysisAdvances(cfg, w, c, m);
    AdvancingAcceptsOnce(cfg, w, Analysed(cfg, w, c, m), c, p, m.paperNow);
  }

  lemma {:induction false} IngestAcceptsOnce(
    cfg: Settings, w: Platform, c: Candle, feed: Feed, now: int, verdict: Option<bool>, m: Moment)
    requires AcceptedOnce(w.engines.riskMarks, w.records)
    ensures var next := Ingested(cfg, w, c, feed, now, verdict, m);
            AcceptedOnce(next.engines.riskMarks, next.records)
  {
    SeeingLeavesEngines(cfg, w, c, now, feed, verdict);
    AnalysisAcceptsOnce(cfg, Judged(Watched(cfg, w, c, now, feed), verdict), c, m);
  }

  lemma {:induction false} EventAcceptsOnce(cfg: Settings, w: Platform, a: Event)
    requires AcceptedOnce(w.engines.riskMarks, w.records) && !a.Restart?
    ensures var next := Forward.Next(cfg, w, a); AcceptedOnce(next.engines.riskMarks, next.records)
  {
    match a
    case Ingest(c, feed, now, verdict, m) => IngestAcceptsOnce(cfg, w, c, feed, now, verdict, m);
    case SetEntries(_) =>
    case ReadBook(_) =>
    case Reconciling(_, _) =>
  }

  /** Until the first restart no identity is ever accepted twice, not even after it was cancelled. */
  lemma {:induction false} NothingIsAcceptedTwice(
    cfg: Settings, start: int, warm: string -> Option<seq<Candle>>, events: seq<Event>, ws: seq<Platform>, i: nat)
    requires IsForwardRun(cfg, start, warm, events, ws) && i < |ws|
    requires forall j :: 0 <= j < |events| ==> !events[j].Restart?
    ensures AcceptedOnce(ws[i].engines.riskMarks, ws[i].records)
  {
    if i > 0 {
      NothingIsAcceptedTwice(cfg, start, warm, events, ws, i - 1);
      EventAcceptsOnce(cfg, ws[i - 1], events[i - 1]);
      assert ws[i - 1 + 1] == Forward.Next(cfg, ws[i - 1], events[i - 1]);
    }
  }

  /** Until the first restart there is nothing stored to repeat. */
  lemma {:induction false} NothingStoredToRepeat(
    cfg: Settings, start: int, warm: string -> Option<seq<Candle>>, events: seq<Event>, ws: seq<Platform>, n: nat)
    requires IsForwardRun(cfg, start, warm, events, ws) && n <= |events|
    requires forall j :: 0 <= j < n ==> !events[j].Restart?
    ensures ws[n].base == EMPTY_STORE && NoRepeats(cfg, events, ws, n)
  {
    if n > 0 {
      NothingStoredToRepeat(cfg, start, warm, events, ws, n - 1);
      assert ws[n - 1 + 1] == Forward.Next(cfg, ws[n - 1], events[n - 1]);
      BaseStays(cfg, ws[n - 1], events[n - 1]);
      EmptyHasNoRepeats(cfg, ws[n - 1], events[n - 1]);
    }
  }

  lemma {:induction false} BaseStays(cfg: Settings, w: Platform, a: Event)
    requires !a.Restart?
    ensures Forward.Next(cfg, w, a).base == w.base
  {
    match a
    case Ingest(c, feed, now, verdict, m) =>
      var p := AnalysisAdvances(cfg, Judged(Watched(cfg, w, c, now, feed), verdict), c, m);
    case _ =>
  }

  lemma {:induction false} EmptyHasNoRepeats(cfg: Settings, w: Platform, a: Event)
    requires w.base == EMPTY_STORE
    ensures !Repeats(cfg, w, a)
  {
    assert StoredKeys(EMPTY_STORE) == multiset{};
  }

  /** Equity is right and recovery is over. */
  ghost predicate Valued(b: Book) {
    EquityOk(b) && b.recovery.RecoveryComplete?
  }

  lemma {:induction false} SeeingKeepsEquity(
    cfg: Settings, w: Platform, c: Candle, now: int, feed: Feed, verdict: Option<bool>)
    requires cfg.maxOpenPositions == 1 && Sound(cfg, w.book) && Valued(w.book)
    ensures Valued(Judged(Watched(cfg, w, c, now, feed), verdict).book)
  {
    CandleKeepsEquity(cfg, w.book, c, None, now, feed);
    CandleKeepsStatus(cfg, w.book, c, None, now, feed);
    var watched := Watched(cfg, w, c, now, feed).book;
    assert Valued(watched);
  }

  lemma {:induction false} AdvancingKeepsEquity(
    cfg: Settings, w: Platform, next: Platform, c: Candle, p: Option<Plan>, now: int)
    requires Valued(w.book) && Advances(cfg, w, next, c, p, now)
    ensures Valued(next.book)
  {
    if p.Some? {
      PlanKeepsEquity(cfg, w.book, p.value, now);
    }
  }

  lemma {:induction false} AnalysingKeepsEquity(cfg: Settings, w: Platform, c: Candle, m: Moment)
    requires Valued(w.book)
    ensures Valued(Analysed(cfg, w, c, m).book)
  {
    var p := AnalysisAdvances(cfg, w, c, m);
    AdvancingKeepsEquity(cfg, w, Analysed(cfg, w, c, m), c, p, m.paperNow);
  }

  lemma {:induction false} IngestKeepsEquity(
    cfg: Settings, w: Platform, c: Candle, feed: Feed, now: int, verdict: Option<bool>, m: Moment)
    requires cfg.maxOpenPositions == 1 && Sound(cfg, w.book) && Valued(w.book)
    ensures Valued(Ingested(cfg, w, c, feed, now, verdict, m).book)
  {
    SeeingKeepsEquity(cfg, w, c, now, feed, verdict);
    AnalysingKeepsEquity(cfg, Judged(Watched(cfg, w, c, now, feed), verdict), c, m);
  }

  lemma {:induction false} EventKeepsEquity(cfg: Settings, w: Platform, a: Event)
    requires cfg.maxOpenPositions == 1 && Sound(cfg, w.book) && Valued(w.book) && !a.Restart?
    ensures Valued(Forward.Next(cfg, w, a).book)
  {
    match a
    case Ingest(c, feed, now, verdict, m) => IngestKeepsEquity(cfg, w, c, feed, now, verdict, m);
    case SetEntries(_) =>
    case ReadBook(_) =>
    case Reconciling(_, _) =>
  }

  lemma {:induction false} FreshStartHasEquity(cfg: Settings, now: int)
    ensures Valued(Startup(cfg, EMPTY_STORE, now).book)
  {
    assert Awaiting([]) == [];
  }

  lemma {:induction false} StepKeepsEquity(
    cfg: Settings, start: int, warm: string -> Option<seq<Candle>>, events: seq<Event>, ws: seq<Platform>, i: nat)
    requires cfg.maxOpenPositions == 1 && IsForwardRun(cfg, start, warm, events, ws) && i < |events|
    requires Valued(ws[i].book) && forall j :: 0 <= j <= i ==> !events[j].Restart?
    ensures Valued(ws[i + 1].book)
  {
    NothingStoredToRepeat(cfg, start, warm, events, ws, i);
    EveryBookIsSound(cfg, start, warm, events, ws, i);
    EventKeepsEquity(cfg, ws[i], events[i]);
  }

  /** With one position allowed, equity is cash plus the unrealized result throughout a run without a restart. */
  lemma {:induction false} FreshRunsKeepEquity(
    cfg: Settings, start: int, warm: string -> Option<seq<Candle>>, events: seq<Event>, ws: seq<Platform>, i: nat)
    requires cfg.maxOpenPositions == 1 && IsForwardRun(cfg, start, warm, events, ws) && i < |ws|
    requires forall j :: 0 <= j < |events| ==> !events[j].Restart?
    ensures Valued(ws[i].book)
  {
    if i == 0 {
      FreshStartHasEquity(cfg, start);
    } else {
      FreshRunsKeepEquity(cfg, start, warm, events, ws, i - 1);
      StepKeepsEquity(cfg, start, warm, events, ws, i - 1);
    }
  }
}
