/**
 * Runs whose pauses are the verdicts of the validation engine on the trades stored at that
 * moment: what ends a pause, and why a failed session that holds nothing never recovers.
 */
module ForwardVerdicts {
  import opened Common
  import opened Configuration
  import opened Market
  import opened Risk
  import opened Sorting
  import opened Ledger
  import opened LedgerInvariants
  import opened Durability
  import opened Session
  import opened BacktestInvariants
  import opened Validation
  import opened Forward
  import opened ForwardRuns
  import opened ForwardPauses

  ghost function Verdicts(g: GateSettings, es: seq<Evidence>, ts: seq<Trade>): (vs: seq<Verdict>)
    ensures |vs| == |es| && forall i :: 0 <= i < |es| ==> vs[i] == VerdictOn(g, es[i], ts)
  {
    seq(|es|, i requires 0 <= i < |es| => VerdictOn(g, es[i], ts))
  }

  /** The pause flag that evaluations of the stored trades leave, one for each piece of evidence. */
  ghost predicate Decides(g: GateSettings, es: seq<Evidence>, w: Platform, paused: bool) {
    paused == PauseAfterAll(g.pauseOnFail, w.book.paused, Verdicts(g, es, StoredTrades(w)))
  }

  /** Closes are written before the session is validated; the periodic validation reads the store as it is. */
  ghost function ValidatedAt(cfg: Settings, w: Platform, a: Event): Platform {
    if a.Ingest? then Watched(cfg, w, a.candle, a.now, a.feed) else w
  }

  ghost predicate Truthful(cfg: Settings, g: GateSettings, w: Platform, a: Event, es: seq<Evidence>) {
    match a
    case Ingest(_, _, _, verdict, _) => verdict.Some? ==> Decides(g, es, ValidatedAt(cfg, w, a), verdict.value)
    case SetEntries(paused) => Decides(g, es, w, paused)
    case _ => true
  }

  lemma {:induction false} NoPassKeepsPause(pauseOnFail: bool, vs: seq<Verdict>)
    requires forall i :: 0 <= i < |vs| ==> !vs[i].Pass?
    ensures PauseAfterAll(pauseOnFail, true, vs)
  {
    if |vs| > 0 {
      NoPassKeepsPause(pauseOnFail, vs[..|vs| - 1]);
    }
  }

  // ---------------------------------------------------------------------
  // What ends a pause
  // ---------------------------------------------------------------------

  /** One of the evaluations made with this event passes. */
  ghost predicate Passed(cfg: Settings, g: GateSettings, w: Platform, a: Event, es: seq<Evidence>) {
    exists n :: 0 <= n < |es| && VerdictOn(g, es[n], StoredTrades(ValidatedAt(cfg, w, a))).Pass?
  }

  lemma {:induction false} UndecidedStaysPaused(g: GateSettings, es: seq<Evidence>, w: Platform, paused: bool)
    requires w.book.paused && Decides(g, es, w, paused)
    requires forall n :: 0 <= n < |es| ==> !VerdictOn(g, es[n], StoredTrades(w)).Pass?
    ensures paused
  {
    NoPassKeepsPause(g.pauseOnFail, Verdicts(g, es, StoredTrades(w)));
  }

  lemma {:induction false} AnalysisKeepsPause(cfg: Settings, w: Platform, c: Candle, m: Moment)
    ensures Analysed(cfg, w, c, m).book.paused == w.book.paused
  {
    var p := AnalysisAdvances(cfg, w, c, m);
    if p.Some? {
      PlanKeepsStatus(cfg, w.book, p.value, m.paperNow);
    }
  }

  lemma {:induction false} IngestKeepsPause(
    cfg: Settings, w: Platform, c: Candle, feed: Feed, now: int, verdict: Option<bool>, m: Moment)
    requires w.book.paused && verdict != Some(false)
    ensures Ingested(cfg, w, c, feed, now, verdict, m).book.paused
  {
    CandleKeepsStatus(cfg, w.book, c, None, now, feed);
    AnalysisKeepsPause(cfg, Judged(Watched(cfg, w, c, now, feed), verdict), c, m);
  }

  lemma {:induction false} EventKeepsPause(cfg: Settings, g: GateSettings, w: Platform, a: Event, es: seq<Evidence>)
    requires w.book.paused && Truthful(cfg, g, w, a, es) && !a.Restart? && !Passed(cfg, g, w, a, es)
    ensures Forward.Next(cfg, w, a).book.paused
  {
    match a
    case Ingest(c, feed, now, verdict, m) =>
      CandleKeepsStatus(cfg, w.book, c, None, now, feed);
      if verdict.Some? {
        UndecidedStaysPaused(g, es, Watched(cfg, w, c, now, feed), verdict.value);
      }
      IngestKeepsPause(cfg, w, c, feed, now, verdict, m);
    case SetEntries(paused) => UndecidedStaysPaused(g, es, w, paused);
    case ReadBook(_) =>
    case Reconciling(fetch, now) => ReconcileKeepsPause(cfg, w.book, fetch, now);
  }

  lemma {:induction false} StepKeepsPause(
    cfg: Settings, g: GateSettings, events: seq<Event>, ws: seq<Platform>, evidence: seq<seq<Evidence>>, k: nat)
    requires Chained(cfg, events, ws) && k < |evidence| == |events| && ws[k].book.paused
    requires !events[k].Restart? && Truthful(cfg, g, ws[k], events[k], evidence[k])
    requires !Passed(cfg, g, ws[k], events[k], evidence[k])
    ensures ws[k + 1].book.paused
  {
    EventKeepsPause(cfg, g, ws[k], events[k], evidence[k]);
  }

  /** While the process runs, a pause ends only at an event with which the trades stored by then pass. */
  lemma {:induction false} PauseEndsOnlyWithPass(
    cfg: Settings, g: GateSettings, events: seq<Event>, ws: seq<Platform>, evidence: seq<seq<Evidence>>, i: nat)
    requires Chained(cfg, events, ws) && |evidence| == |events| && i < |ws| && ws[0].book.paused
    requires forall k :: 0 <= k < |events| ==> !events[k].Restart? && Truthful(cfg, g, ws[k], events[k], evidence[k])
    ensures ws[i].book.paused || exists k :: 0 <= k < i && Passed(cfg, g, ws[k], events[k], evidence[k])
  {
    if i > 0 {
      PauseEndsOnlyWithPass(cfg, g, events, ws, evidence, i - 1);
      if ws[i - 1].book.paused && !Passed(cfg, g, ws[i - 1], events[i - 1], evidence[i - 1]) {
        StepKeepsPause(cfg, g, events, ws, evidence, i - 1);
      }
    }
  }

  // ---------------------------------------------------------------------
  // A session that holds nothing
  // ---------------------------------------------------------------------

  /** Nothing is open and nothing waits, entries are paused, and these are the stored trades. */
  ghost predicate FlatPaused(w: Platform, ts: seq<Trade>) {
    w.book.open == [] && w.book.pending == [] && w.book.paused && ApplyAll(w.base, w.book.txns).trades == ts
  }

  lemma {:induction false} AccountRowsOnly(base: Store, ts: seq<Txn>, a: Account)
    ensures ApplyAll(base, ts + [PersistAccount(a)]).trades == ApplyAll(base, ts).trades
  {
    ApplyOneMore(base, ts, PersistAccount(a));
  }

  lemma {:induction false} ResetStaysFlat(w: Platform, now: int, ts: seq<Trade>)
    requires FlatPaused(w, ts)
    ensures FlatPaused(w.(book := ResetDay(w.book, now)), ts)
  {
    AccountRowsOnly(w.base, w.book.txns, w.book.account.(day := Day(now), realizedToday := 0.0));
  }

  lemma {:induction false} FlatCandle(cfg: Settings, b: Book, c: Candle, now: int, feed: Feed)
    requires b.open == [] && b.pending == []
    ensures ProcessCandle(cfg, b, c, None, now, feed) == ResetDay(b, now)
  {
    assert PositionsOf([], c.symbol) == [];
  }

  lemma {:induction false} WatchingStaysFlat(
    cfg: Settings, w: Platform, c: Candle, now: int, feed: Feed, ts: seq<Trade>)
    requires FlatPaused(w, ts)
    ensures FlatPaused(Watched(cfg, w, c, now, feed), ts)
  {
    FlatCandle(cfg, w.book, c, now, feed);
    ResetStaysFlat(w, now, ts);
  }

  /** No evidence can turn these trades into a pass. */
  ghost predicate NeverAcceptable(g: GateSettings, es: seq<Evidence>, ts: seq<Trade>) {
    forall i :: 0 <= i < |es| ==> !Acceptable(g, es[i], Sort(ClosesNoLater, ts))
  }

  lemma {:induction false} UnacceptableStaysPaused(
    g: GateSettings, es: seq<Evidence>, w: Platform, paused: bool, ts: seq<Trade>)
    requires FlatPaused(w, ts) && NeverAcceptable(g, es, ts) && Decides(g, es, w, paused)
    ensures paused
  {
    UndecidedStaysPaused(g, es, w, paused);
  }

  lemma {:induction false} RefusedPlanStaysFlat(
    cfg: Settings, w: Platform, next: Platform, p: Plan, now: int, ts: seq<Trade>)
    requires FlatPaused(w, ts) && next.base == w.base && next.book == ProcessPlan(cfg, w.book, p, now).0
    ensures FlatPaused(next, ts)
  {
    ResetStaysFlat(w, now, ts);
    PlanOnlyWaits(cfg, w.book, p, now);
  }

  lemma {:induction false} AnalysisStaysFlat(cfg: Settings, w: Platform, c: Candle, m: Moment, ts: seq<Trade>)
    requires FlatPaused(w, ts)
    ensures FlatPaused(Analysed(cfg, w, c, m), ts)
  {
    var p := AnalysisAdvances(cfg, w, c, m);
    if p.Some? {
      RefusedPlanStaysFlat(cfg, w, Analysed(cfg, w, c, m), p.value, m.paperNow, ts);
    }
  }

  lemma {:induction false} IngestStaysFlat(
    cfg: Settings, g: GateSettings, w: Platform, c: Candle, feed: Feed, now: int, verdict: Option<bool>, m: Moment,
    es: seq<Evidence>, ts: seq<Trade>)
    requires FlatPaused(w, ts) && NeverAcceptable(g, es, ts)
    requires verdict.Some? ==> Decides(g, es, Watched(cfg, w, c, now, feed), verdict.value)
    ensures FlatPaused(Ingested(cfg, w, c, feed, now, verdict, m), ts)
  {
    var watched := Watched(cfg, w, c, now, feed);
    WatchingStaysFlat(cfg, w, c, now, feed, ts);
    if verdict.Some? {
      UnacceptableStaysPaused(g, es, watched, verdict.value, ts);
    }
    AnalysisStaysFlat(cfg, Judged(watched, verdict), c, m, ts);
  }

  lemma {:induction false} RecoveryStaysFlat(
    cfg: Settings, w: Platform, fetch: Key -> Option<seq<Candle>>, now: int, ts: seq<Trade>)
    requires FlatPaused(w, ts)
    ensures FlatPaused(Recovered(cfg, w, fetch, now), ts)
  {
    AccountRowsOnly(w.base, w.book.txns, w.book.account);
  }

  lemma {:induction false} EventStaysFlat(
    cfg: Settings, g: GateSettings, w: Platform, a: Event, es: seq<Evidence>, ts: seq<Trade>)
    requires FlatPaused(w, ts) && NeverAcceptable(g, es, ts) && Truthful(cfg, g, w, a, es) && !a.Restart?
    ensures FlatPaused(Forward.Next(cfg, w, a), ts)
  {
    match a
    case Ingest(c, feed, now, verdict, m) => IngestStaysFlat(cfg, g, w, c, feed, now, verdict, m, es, ts);
    case SetEntries(paused) => UnacceptableStaysPaused(g, es, w, paused, ts);
    case ReadBook(now) => ResetStaysFlat(w, now, ts);
    case Reconciling(fetch, now) => RecoveryStaysFlat(cfg, w, fetch, now, ts);
  }

  /**
   * A paused session that holds nothing, and whose stored trades fail an acceptance criterion, never
   * trades again while the process runs: nothing can change the trades, so no verdict can be a pass.
   */
  lemma {:induction false} FailedFlatSessionNeverRecovers(
    cfg: Settings, g: GateSettings, events: seq<Event>, ws: seq<Platform>, evidence: seq<seq<Evidence>>, ts: seq<Trade>,
    i: nat)
    requires Chained(cfg, events, ws) && |evidence| == |events| && i < |ws|
    requires FlatPaused(ws[0], ts) && forall k :: 0 <= k < |events| ==> !events[k].Restart?
    requires forall k :: 0 <= k < |events| ==>
               Truthful(cfg, g, ws[k], events[k], evidence[k]) && NeverAcceptable(g, evidence[k], ts)
    ensures FlatPaused(ws[i], ts)
  {
    if i > 0 {
      FailedFlatSessionNeverRecovers(cfg, g, events, ws, evidence, ts, i - 1);
      EventStaysFlat(cfg, g, ws[i - 1], events[i - 1], evidence[i - 1], ts);
      assert ws[i - 1 + 1] == Forward.Next(cfg, ws[i - 1], events[i - 1]);
    }
  }
}
