/** Pauses of new entries: what still opens during one, and when a restart ends one. */
module ForwardPauses {
  import opened Common
  import opened Tables
  import opened Configuration
  import opened Market
  import opened Risk
  import opened Sorting
  import opened Ledger
  import opened LedgerInvariants
  import opened Durability
  import opened Session
  import opened Validation
  import opened Forward
  import opened ForwardRuns

  // ---------------------------------------------------------------------
  // During a pause
  // ---------------------------------------------------------------------

  lemma {:induction false} RecoverCandleOpensNothing(cfg: Settings, b: Book, id: PlanId, c: Candle, now: int)
    requires Sound(cfg, b)
    ensures OpensOnly(b, RecoverCandle(cfg, b, id, c, now), iset{})
  {
    var i := Find(PositionKey, b.open, id);
    if i < |b.open| {
      UpdateOpensNothing(cfg, b, b.open[i], c, now);
    }
  }

  lemma {:induction false} RecoverCandlesOpensNothing(
    cfg: Settings, base: Store, b: Book, id: PlanId, cs: seq<Candle>, now: int)
    requires Sound(cfg, b) && Durable(cfg, base, b)
    ensures OpensOnly(b, RecoverCandles(cfg, b, id, cs, now), iset{})
    decreases |cs|
  {
    if |cs| > 0 {
      RecoverCandleOpensNothing(cfg, b, id, cs[0], now);
      RecoverCandleIsDurable(cfg, base, b, id, cs[0], now);
      RecoverCandlesOpensNothing(cfg, base, RecoverCandle(cfg, b, id, cs[0], now), id, cs[1..], now);
    }
  }

  lemma {:induction false} StatusOpensNothing(b: Book, id: PlanId)
    ensures OpensOnly(b, MarkRecovered(b, id), iset{})
  {
    var next := MarkRecovered(b, id);
    forall p | p in next.open ensures exists q :: q in b.open && q.id == p.id {
      var i :| 0 <= i < |next.open| && next.open[i] == p;
      assert b.open[i].id == p.id;
    }
  }

  lemma {:induction false} RecoverAllOpensNothing(
    cfg: Settings, base: Store, b: Book, ps: seq<Position>, fetch: Key -> Option<seq<Candle>>, now: int)
    requires Sound(cfg, b) && Durable(cfg, base, b)
    ensures OpensOnly(b, RecoverAll(cfg, b, ps, fetch, now).0, iset{})
    decreases |ps|
  {
    if |ps| > 0 {
      match fetch(Key(ps[0].id.symbol, ps[0].id.timeframe))
      case None =>
      case Some(cs) =>
        var replayed := RecoverCandles(cfg, b, ps[0].id, Missed(ps[0], cs), now);
        RecoverCandlesOpensNothing(cfg, base, b, ps[0].id, Missed(ps[0], cs), now);
        RecoverCandlesIsDurable(cfg, base, b, ps[0].id, Missed(ps[0], cs), now);
        StatusOpensNothing(replayed, ps[0].id);
        MarkRecoveredIsDurable(cfg, base, replayed, ps[0].id);
        RecoverAllOpensNothing(cfg, base, RecoverPosition(cfg, b, ps[0], cs, now), ps[1..], fetch, now);
    }
  }

  lemma {:induction false} RecoverCandlesKeepsPause(cfg: Settings, b: Book, id: PlanId, cs: seq<Candle>, now: int)
    ensures RecoverCandles(cfg, b, id, cs, now).paused == b.paused
    decreases |cs|
  {
    if |cs| > 0 {
      RecoverCandlesKeepsPause(cfg, RecoverCandle(cfg, b, id, cs[0], now), id, cs[1..], now);
    }
  }

  lemma {:induction false} RecoverAllKeepsPause(
    cfg: Settings, b: Book, ps: seq<Position>, fetch: Key -> Option<seq<Candle>>, now: int)
    ensures RecoverAll(cfg, b, ps, fetch, now).0.paused == b.paused
    decreases |ps|
  {
    if |ps| > 0 {
      match fetch(Key(ps[0].id.symbol, ps[0].id.timeframe))
      case None =>
      case Some(cs) =>
        RecoverCandlesKeepsPause(cfg, b, ps[0].id, Missed(ps[0], cs), now);
        RecoverAllKeepsPause(cfg, RecoverPosition(cfg, b, ps[0], cs, now), ps[1..], fetch, now);
    }
  }

  lemma {:induction false} ReconcileOpensNothing(
    cfg: Settings, base: Store, b: Book, fetch: Key -> Option<seq<Candle>>, now: int)
    requires Sound(cfg, b) && Durable(cfg, base, b)
    ensures OpensOnly(b, Reconcile(cfg, b, fetch, now), iset{})
  {
    RecoverAllOpensNothing(cfg, base, b, b.open, fetch, now);
  }

  lemma {:induction false} ReconcileKeepsPause(cfg: Settings, b: Book, fetch: Key -> Option<seq<Candle>>, now: int)
    ensures Reconcile(cfg, b, fetch, now).paused == b.paused
  {
    RecoverAllKeepsPause(cfg, b, b.open, fetch, now);
  }

  /** Entries stay paused, and only plans that were waiting have opened or still wait. */
  ghost predicate OnlyOldPlans(b: Book, next: Book) {
    next.paused && WaitingIds(next) <= WaitingIds(b) && OpensOnly(b, next, WaitingIds(b))
  }

  lemma {:induction false} OldPlansAcross(b: Book, middle: Book, next: Book)
    requires OnlyOldPlans(b, middle) && OnlyOldPlans(middle, next)
    ensures OnlyOldPlans(b, next)
  {
  }

  lemma {:induction false} CandleOpensOldPlans(cfg: Settings, b: Book, c: Candle, now: int, feed: Feed)
    requires Sound(cfg, b) && b.paused
    ensures OnlyOldPlans(b, ProcessCandle(cfg, b, c, None, now, feed))
  {
    CandleIsSound(cfg, b, c, None, now, feed);
    CandleKeepsStatus(cfg, b, c, None, now, feed);
    CandleOpensOnlyWaiting(cfg, b, c, None, now, feed);
  }

  lemma {:induction false} PausedPlanIsRefused(cfg: Settings, b: Book, p: Plan, now: int)
    requires b.paused
    ensures OnlyOldPlans(b, ProcessPlan(cfg, b, p, now).0)
  {
    PlanOnlyWaits(cfg, b, p, now);
  }

  lemma {:induction false} AnalysisOpensNothing(cfg: Settings, w: Platform, c: Candle, m: Moment)
    requires w.book.paused
    ensures OnlyOldPlans(w.book, Analysed(cfg, w, c, m).book)
  {
    var p := AnalysisAdvances(cfg, w, c, m);
    if p.Some? {
      PausedPlanIsRefused(cfg, w.book, p.value, m.paperNow);
    }
  }

  lemma {:induction false} IngestOpensOldPlans(
    cfg: Settings, w: Platform, c: Candle, feed: Feed, now: int, verdict: Option<bool>, m: Moment)
    requires Sound(cfg, w.book) && w.book.paused && verdict != Some(false)
    ensures OnlyOldPlans(w.book, Ingested(cfg, w, c, feed, now, verdict, m).book)
  {
    CandleOpensOldPlans(cfg, w.book, c, now, feed);
    var seen := Judged(Watched(cfg, w, c, now, feed), verdict);
    assert OnlyOldPlans(w.book, seen.book);
    AnalysisOpensNothing(cfg, seen, c, m);
    OldPlansAcross(w.book, seen.book, Analysed(cfg, seen, c, m).book);
  }

  /** Neither a restart nor anything that lets entries in again. */
  predicate KeepsPause(a: Event) {
    match a
    case Ingest(_, _, _, verdict, _) => verdict != Some(false)
    case SetEntries(paused) => paused
    case Restart(_, _, _, _) => false
    case _ => true
  }

  lemma {:induction false} RecoveryOpensOldPlans(
    cfg: Settings, base: Store, b: Book, fetch: Key -> Option<seq<Candle>>, now: int)
    requires Sound(cfg, b) && Durable(cfg, base, b) && b.paused
    ensures OnlyOldPlans(b, Reconcile(cfg, b, fetch, now))
  {
    ReconcileOpensNothing(cfg, base, b, fetch, now);
    ReconcileKeepsPause(cfg, b, fetch, now);
    ReconcileIsDurable(cfg, base, b, fetch, now);
  }

  lemma {:induction false} EventOpensOldPlans(cfg: Settings, w: Platform, a: Event)
    requires PlatformOk(cfg, w) && w.book.paused && KeepsPause(a)
    ensures OnlyOldPlans(w.book, Forward.Next(cfg, w, a).book)
  {
    match a
    case Ingest(c, feed, now, verdict, m) => IngestOpensOldPlans(cfg, w, c, feed, now, verdict, m);
    case SetEntries(_) =>
    case ReadBook(_) =>
    case Reconciling(fetch, now) => RecoveryOpensOldPlans(cfg, w.base, w.book, fetch, now);
  }

  lemma {:induction false} OldPlansAcrossEvent(cfg: Settings, b: Book, w: Platform, a: Event)
    requires PlatformOk(cfg, w) && OnlyOldPlans(b, w.book) && KeepsPause(a)
    ensures OnlyOldPlans(b, Forward.Next(cfg, w, a).book)
  {
    EventOpensOldPlans(cfg, w, a);
    OldPlansAcross(b, w.book, Forward.Next(cfg, w, a).book);
  }

  lemma {:induction false} StepOpensOldPlans(
    cfg: Settings, start: int, warm: string -> Option<seq<Candle>>, events: seq<Event>, ws: seq<Platform>,
    b: Book, j: nat)
    requires IsForwardRun(cfg, start, warm, events, ws) && j < |events| && NoRepeats(cfg, events, ws, j)
    requires OnlyOldPlans(b, ws[j].book) && KeepsPause(events[j])
    ensures OnlyOldPlans(b, ws[j + 1].book)
  {
    EveryRunIsConsistent(cfg, start, warm, events, ws, j);
    OldPlansAcrossEvent(cfg, b, ws[j], events[j]);
  }

  /** From a pause on, until entries are let in again, only plans that were already waiting may open. */
  lemma {:induction false} PauseBlocksNewPlans(
    cfg: Settings, start: int, warm: string -> Option<seq<Candle>>, events: seq<Event>, ws: seq<Platform>,
    i: nat, j: nat)
    requires IsForwardRun(cfg, start, warm, events, ws) && i <= j < |ws| && ws[i].book.paused
    requires NoRepeats(cfg, events, ws, j) && forall k :: i <= k < j ==> KeepsPause(events[k])
    ensures OnlyOldPlans(ws[i].book, ws[j].book)
  {
    if i < j {
      PauseBlocksNewPlans(cfg, start, warm, events, ws, i, j - 1);
      StepOpensOldPlans(cfg, start, warm, events, ws, ws[i].book, j - 1);
    }
  }

  // ---------------------------------------------------------------------
  // Across a restart
  // ---------------------------------------------------------------------

  function StoredTrades(w: Platform): seq<Trade> {
    Sort(ClosesNoLater, ApplyAll(w.base, w.book.txns).trades)
  }

  /** The validation engine judges the stored trades and pauses or releases entries. */
  ghost function Validated(g: GateSettings, e: Evidence, w: Platform): Platform {
    w.(book := w.book.(paused := PauseAfter(g.pauseOnFail, w.book.paused, VerdictOn(g, e, StoredTrades(w)))))
  }

  /** A restart as the application does it: restore, warm up, recover, and then validate before any plan can arrive. */
  ghost function Restarted(
    cfg: Settings, g: GateSettings, e: Evidence, listing: Store, now: int, warm: string -> Option<seq<Candle>>,
    fetch: Key -> Option<seq<Candle>>, recoveredAt: int, r: Records): Platform
  {
    Validated(g, e, Recovered(cfg, Started(cfg, listing, now, warm, r), fetch, recoveredAt))
  }

  /** After a restart entries are paused exactly when the stored trades fail at once. */
  lemma {:induction false} PausedAfterRestartIff(
    cfg: Settings, g: GateSettings, e: Evidence, listing: Store, now: int, warm: string -> Option<seq<Candle>>,
    fetch: Key -> Option<seq<Candle>>, recoveredAt: int, r: Records)
    ensures var recovered := Recovered(cfg, Started(cfg, listing, now, warm, r), fetch, recoveredAt);
            Restarted(cfg, g, e, listing, now, warm, fetch, recoveredAt, r).book.paused <==>
            VerdictOn(g, e, StoredTrades(recovered)).Fail? && g.pauseOnFail
  {
    var w := Startup(cfg, listing, now);
    ReconcileKeepsPause(cfg, w.book, fetch, recoveredAt);
  }

  /**
   * The pause itself is not stored.  The restart loses it exactly when the verdict at the start
   * is neither a pass, which would have ended it anyway, nor a failure that pauses again.
   */
  lemma {:induction false} RestartMattersIff(g: GateSettings, e: Evidence, ts: seq<Trade>)
    ensures var v := VerdictOn(g, e, ts);
            PauseAfter(g.pauseOnFail, true, v) != PauseAfter(g.pauseOnFail, false, v) <==>
            e.sessionPaused || (e.healthy && !EnoughSample(g, e, ts)) || (v.Fail? && !g.pauseOnFail)
  {
  }

  lemma {:induction false} FirstRowStored(cfg: Settings, now: int, warm: string -> Option<seq<Candle>>, r: Records)
    ensures var w := Started(cfg, EMPTY_STORE, now, warm, r);
            ApplyAll(w.base, w.book.txns) == Store(Some(NewAccount(cfg.startingBalance, now)), [], [])
    ensures var b := Started(cfg, EMPTY_STORE, now, warm, r).book;
            b.recovery.RecoveryComplete? && !b.paused && b.seen == []
  {
    var w := Started(cfg, EMPTY_STORE, now, warm, r);
    var a := w.book.account;
    assert w.book.txns == [PersistAccount(a)];
    assert ApplyAll(EMPTY_STORE, [PersistAccount(a)]) == Apply(ApplyAll(EMPTY_STORE, []), PersistAccount(a));
  }

  lemma {:induction false} NothingAwaited(
    cfg: Settings, a: Account, now: int, warm: string -> Option<seq<Candle>>, fetch: Key -> Option<seq<Candle>>,
    recoveredAt: int, r: Records)
    ensures var w := Started(cfg, Store(Some(a), [], []), now, warm, r);
            && Recovered(cfg, w, fetch, recoveredAt) == w && ApplyAll(w.base, w.book.txns).trades == []
            && w.book.recovery.RecoveryComplete? && !w.book.paused && w.book.seen == []
  {
  }

  lemma {:induction false} OpenGateAccepts(cfg: Settings, b: Book, p: Plan, now: int)
    requires ValidPlan(cfg, p, now) && Identity(p).Some? && b.recovery.RecoveryComplete? && b.seen == []
    ensures ProcessPlan(cfg, b, p, now).1 == !b.paused
  {
  }

  /**
   * A session that failed for its health is paused, and as long as the sample is small it would
   * stay so.  A restart after the health is back lets entries in: plans refused before are accepted.
   */
  lemma {:induction false} RestartLosesPause(
    cfg: Settings, g: GateSettings, now: int, warm: string -> Option<seq<Candle>>, fetch: Key -> Option<seq<Candle>>,
    p: Plan)
    requires g.pauseOnFail && g.minTrades > 0 && ValidPlan(cfg, p, now) && Identity(p).Some?
    ensures var failing := Evidence(false, false, 0, cfg.startingBalance);
            var healthy := Evidence(false, true, 0, cfg.startingBalance);
            var paused := Validated(g, failing, Started(cfg, EMPTY_STORE, now, warm, NO_RECORDS));
            var stored := ApplyAll(paused.base, paused.book.txns);
            var restarted := Restarted(cfg, g, healthy, stored, now, warm, fetch, now, paused.records);
            && paused.book.paused && !ProcessPlan(cfg, paused.book, p, now).1
            && Validated(g, healthy, paused).book.paused
            && !restarted.book.paused && ProcessPlan(cfg, restarted.book, p, now).1
  {
    var a := NewAccount(cfg.startingBalance, now);
    FirstRowStored(cfg, now, warm, NO_RECORDS);
    var w := Started(cfg, EMPTY_STORE, now, warm, NO_RECORDS);
    NothingAwaited(cfg, a, now, warm, fetch, now, w.records);
    OpenGateAccepts(cfg, Started(cfg, Store(Some(a), [], []), now, warm, w.records).book, p, now);
    OpenGateAccepts(cfg, w.book.(paused := true), p, now);
  }
}
