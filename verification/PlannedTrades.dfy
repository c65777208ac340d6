/**
 * Positions and trades carry the levels and the size of the plans that the backtest recorded for
 * them, so that the journal, which looks the plans up afterwards, shows what really happened.
 */
module PlannedTrades {
  import opened Common
  import opened Tables
  import opened Configuration
  import opened Market
  import opened Strategy
  import opened Risk
  import opened Ledger
  import opened LedgerInvariants
  import opened Backtest
  import opened BacktestInvariants

  /** The recorded plan of an identity is the one these terms were filled from. */
  predicate Recorded(plans: map<PlanId, Plan>, o: Origin) {
    && o.id in plans
    && var p := plans[o.id];
       && p.approved && p.direction == o.terms.direction && p.entry == Some(o.terms.entryReference)
       && p.stop == Some(o.terms.stop) && p.target == Some(o.terms.target)
       && p.quantity == Some(o.terms.quantity) && p.actualRisk == Some(o.terms.risk)
       && p.generatedAt == o.signalTime
  }

  ghost predicate EndedAsPlanned(cfg: Settings, cs: seq<Candle>, plans: map<PlanId, Plan>, t: Trade) {
    exists m, o :: 0 <= m < |cs| && Entered(cfg, cs[..m], o) && ClosedAt(cfg, o, t, cs[m]) && Recorded(plans, o)
  }

  ghost function KnownPlanned(cfg: Settings, cs: seq<Candle>, plans: map<PlanId, Plan>): iset<Origin> {
    iset o | Entered(cfg, cs, o) && Recorded(plans, o)
  }

  ghost function DoneAsPlanned(cfg: Settings, cs: seq<Candle>, plans: map<PlanId, Plan>): iset<Trade> {
    iset t | EndedAsPlanned(cfg, cs, plans, t)
  }

  ghost predicate WaitingRecorded(plans: map<PlanId, Plan>, waiting: seq<Pending>) {
    forall w :: w in waiting ==> w.id in plans && plans[w.id] == w.plan
  }

  /** Every recorded plan was made at a candle of its identity. */
  ghost predicate PlansMade(cs: seq<Candle>, plans: map<PlanId, Plan>) {
    forall id :: id in plans ==> exists k :: 0 <= k < |cs| && Signalled(id, cs[k]) && MadeAt(cs[k], plans[id])
  }

  ghost predicate PlansOk(cfg: Settings, cs: seq<Candle>, b: Book, plans: map<PlanId, Plan>) {
    && WaitingRecorded(plans, b.pending) && PlansMade(cs, plans)
    && Within(b, KnownPlanned(cfg, cs, plans), DoneAsPlanned(cfg, cs, plans))
  }

  // ---------------------------------------------------------------------
  // One more candle
  // ---------------------------------------------------------------------

  lemma {:induction false} EndedAsPlannedNow(
    cfg: Settings, cs: seq<Candle>, c: Candle, plans: map<PlanId, Plan>, o: Origin, t: Trade)
    requires Entered(cfg, cs, o) && ClosedAt(cfg, o, t, c) && Recorded(plans, o)
    ensures EndedAsPlanned(cfg, cs + [c], plans, t)
  {
    assert (cs + [c])[..|cs|] == cs && (cs + [c])[|cs|] == c;
  }

  lemma {:induction false} EndedAsPlannedLater(
    cfg: Settings, cs: seq<Candle>, c: Candle, plans: map<PlanId, Plan>, t: Trade)
    requires EndedAsPlanned(cfg, cs, plans, t)
    ensures EndedAsPlanned(cfg, cs + [c], plans, t)
  {
    var m, o :| 0 <= m < |cs| && Entered(cfg, cs[..m], o) && ClosedAt(cfg, o, t, cs[m]) && Recorded(plans, o);
    assert (cs + [c])[..m] == cs[..m] && (cs + [c])[m] == cs[m];
  }

  lemma {:induction false} OthersStayPlanned(cfg: Settings, cs: seq<Candle>, c: Candle, plans: map<PlanId, Plan>)
    ensures OthersStay(c, KnownPlanned(cfg, cs, plans), KnownPlanned(cfg, cs + [c], plans))
  {
    forall o | Entered(cfg, cs, o) && o.id.symbol != c.symbol ensures Entered(cfg, cs + [c], o) {
      EnteredLater(cfg, cs, c, o);
    }
  }

  lemma {:induction false} CandleDecidesPlanned(cfg: Settings, cs: seq<Candle>, c: Candle, plans: map<PlanId, Plan>)
    ensures PassesCandle(cfg, c, c.closeTime, KnownPlanned(cfg, cs, plans), KnownPlanned(cfg, cs + [c], plans),
                         DoneAsPlanned(cfg, cs + [c], plans))
  {
    forall p: Position | OriginOf(p) in KnownPlanned(cfg, cs, plans) && p.id.symbol == c.symbol
      ensures match ExitOf(p.terms, c)
              case Some(e) => CloseTrade(cfg, p, e, c.closeTime) in DoneAsPlanned(cfg, cs + [c], plans)
              case None => OriginOf(p) in KnownPlanned(cfg, cs + [c], plans)
    {
      match ExitOf(p.terms, c)
      case Some(e) => EndedAsPlannedNow(cfg, cs, c, plans, OriginOf(p), CloseTrade(cfg, p, e, c.closeTime));
      case None => EnteredLater(cfg, cs, c, OriginOf(p));
    }
  }

  lemma {:induction false} DoneAsPlannedGrows(cfg: Settings, cs: seq<Candle>, c: Candle, plans: map<PlanId, Plan>)
    ensures DoneAsPlanned(cfg, cs, plans) <= DoneAsPlanned(cfg, cs + [c], plans)
  {
    forall t | EndedAsPlanned(cfg, cs, plans, t) ensures EndedAsPlanned(cfg, cs + [c], plans, t) {
      EndedAsPlannedLater(cfg, cs, c, plans, t);
    }
  }

  lemma {:induction false} FilledFromRecord(
    cfg: Settings, plans: map<PlanId, Plan>, w: Pending, c: Candle, price: real, now: int)
    requires w.id in plans && plans[w.id] == w.plan && ValidPlan(cfg, w.plan, now)
    ensures Recorded(plans, OriginOf(FillPosition(cfg, w.id, w.plan, c, price, now)))
  {
  }

  lemma {:induction false} WaitingFillsAsPlanned(
    cfg: Settings, cs: seq<Candle>, marks: map<Key, int>, b: Book, c: Candle, plans: map<PlanId, Plan>)
    requires WaitingOnce(b) && WaitingKnown(cs, marks, b.pending) && WaitingRecorded(plans, b.pending)
    ensures FillsWithin(cfg, b.pending, c, EntryPrice(c, Some(c.open)), c.closeTime, KnownPlanned(cfg, cs + [c], plans))
  {
    var price := EntryPrice(c, Some(c.open));
    forall w | w in b.pending && w.plan.symbol == c.symbol && ValidPlan(cfg, w.plan, c.closeTime)
      ensures OriginOf(FillPosition(cfg, w.id, w.plan, c, price, c.closeTime)) in KnownPlanned(cfg, cs + [c], plans)
    {
      FilledNow(cfg, cs, c, OriginOf(FillPosition(cfg, w.id, w.plan, c, price, c.closeTime)));
      FilledFromRecord(cfg, plans, w, c, price, c.closeTime);
    }
  }

  lemma {:induction false} PlansMadeLater(cs: seq<Candle>, c: Candle, plans: map<PlanId, Plan>)
    requires PlansMade(cs, plans)
    ensures PlansMade(cs + [c], plans)
  {
    forall id | id in plans
      ensures exists k :: 0 <= k < |cs + [c]| && Signalled(id, (cs + [c])[k]) && MadeAt((cs + [c])[k], plans[id])
    {
      var k :| 0 <= k < |cs| && Signalled(id, cs[k]) && MadeAt(cs[k], plans[id]);
      assert (cs + [c])[k] == cs[k];
    }
  }

  lemma {:induction false} CandleStaysPlanned(
    cfg: Settings, feed: Feed, cs: seq<Candle>, b: Book, c: Candle, plans: map<PlanId, Plan>)
    requires Sound(cfg, b) && Within(b, KnownPlanned(cfg, cs, plans), DoneAsPlanned(cfg, cs, plans))
    requires FillsWithin(cfg, b.pending, c, EntryPrice(c, Some(c.open)), c.closeTime,
                         KnownPlanned(cfg, cs + [c], plans))
    ensures Within(ProcessCandle(cfg, b, c, Some(c.open), c.closeTime, feed), KnownPlanned(cfg, cs + [c], plans),
                   DoneAsPlanned(cfg, cs + [c], plans))
  {
    OthersStayPlanned(cfg, cs, c, plans);
    CandleDecidesPlanned(cfg, cs, c, plans);
    DoneAsPlannedGrows(cfg, cs, c, plans);
    CandleWithin(cfg, b, c, Some(c.open), c.closeTime, feed, KnownPlanned(cfg, cs, plans),
                 KnownPlanned(cfg, cs + [c], plans),
                 DoneAsPlanned(cfg, cs + [c], plans));
  }

  lemma {:induction false} CandleKeepsPlans(
    cfg: Settings, feed: Feed, cs: seq<Candle>, marks: map<Key, int>, b: Book, c: Candle, plans: map<PlanId, Plan>)
    requires BookOk(cfg, cs, marks, b) && PlansOk(cfg, cs, b, plans)
    ensures PlansOk(cfg, cs + [c], ProcessCandle(cfg, b, c, Some(c.open), c.closeTime, feed), plans)
  {
    CandleIsSound(cfg, b, c, Some(c.open), c.closeTime, feed);
    WaitingFillsAsPlanned(cfg, cs, marks, b, c, plans);
    CandleStaysPlanned(cfg, feed, cs, b, c, plans);
    PlansMadeLater(cs, c, plans);
  }

  // ---------------------------------------------------------------------
  // One more plan
  // ---------------------------------------------------------------------

  /** A new record changes no other. */
  lemma {:induction false} RecordingKeepsOthers(
    cfg: Settings, cs: seq<Candle>, b: Book, plans: map<PlanId, Plan>, id: PlanId, p: Plan)
    requires Within(b, KnownPlanned(cfg, cs, plans), DoneAsPlanned(cfg, cs, plans)) && Unused(b, id)
    ensures var next := plans[id := p]; Within(b, KnownPlanned(cfg, cs, next), DoneAsPlanned(cfg, cs, next))
  {
    var next := plans[id := p];
    forall x | x in b.open ensures OriginOf(x) in KnownPlanned(cfg, cs, next) {
      assert OriginOf(x) in KnownPlanned(cfg, cs, plans);
    }
    forall t | t in b.history ensures EndedAsPlanned(cfg, cs, next, t) {
      assert t in DoneAsPlanned(cfg, cs, plans);
      var m, o :| 0 <= m < |cs| && Entered(cfg, cs[..m], o) && ClosedAt(cfg, o, t, cs[m]) && Recorded(plans, o);
      assert Recorded(next, o);
    }
  }

  lemma {:induction false} OneMorePlanMade(cs: seq<Candle>, plans: map<PlanId, Plan>, c: Candle, p: Plan)
    requires PlansMade(cs, plans) && c in cs && c.isClosed && MadeAt(c, p)
    ensures PlansMade(cs, plans[IdOf(c) := p])
  {
    var next := plans[IdOf(c) := p];
    var at :| 0 <= at < |cs| && cs[at] == c;
    forall id | id in next ensures exists k :: 0 <= k < |cs| && Signalled(id, cs[k]) && MadeAt(cs[k], next[id]) {
      if id == IdOf(c) {
        assert Signalled(id, cs[at]);
      }
    }
  }

  lemma {:induction false} QueueStaysRecorded(
    cfg: Settings, marks: map<Key, int>, cs: seq<Candle>, b: Book, plans: map<PlanId, Plan>, c: Candle, p: Plan)
    requires WaitingRecorded(plans, b.pending) && WaitingKnown(cs, marks, b.pending)
    requires Passes(marks, KeyOf(c), Some(c.openTime)) && Identity(p) == Some(IdOf(c))
    ensures WaitingRecorded(plans[IdOf(c) := p], ProcessPlan(cfg, b, p, c.closeTime).0.pending)
  {
    PlanOnlyWaits(cfg, b, p, c.closeTime);
    assert forall w :: w in b.pending ==> w.id != IdOf(c);
    forall w | w in Put(PendingKey, b.pending, Pending(IdOf(c), p)) ensures w == Pending(IdOf(c), p) || w in b.pending {
      var i := Find(PendingKey, b.pending, IdOf(c));
    }
  }

  lemma {:induction false} SubmissionKeepsPlans(
    cfg: Settings, cs: seq<Candle>, marks: map<Key, int>, b: Book, plans: map<PlanId, Plan>, c: Candle, p: Plan)
    requires BookOk(cfg, cs, marks, b) && PlansOk(cfg, cs, b, plans) && c in cs && c.isClosed
    requires Passes(marks, KeyOf(c), Some(c.openTime)) && Identity(p) == Some(IdOf(c)) && MadeAt(c, p)
    ensures PlansOk(cfg, cs, ProcessPlan(cfg, b, p, c.closeTime).0, plans[IdOf(c) := p])
  {
    FreshPlan(cfg, cs, marks, b, c);
    RecordingKeepsOthers(cfg, cs, b, plans, IdOf(c), p);
    OneMorePlanMade(cs, plans, c, p);
    QueueStaysRecorded(cfg, marks, cs, b, plans, c, p);
    PlanOnlyWaits(cfg, b, p, c.closeTime);
  }

  // ---------------------------------------------------------------------
  // The whole replay
  // ---------------------------------------------------------------------

  lemma {:induction false} StepKeepsPlans(cfg: Settings, feed: Feed, cs: seq<Candle>, r: Replay, c: Candle, wall: int)
    requires ReplayOk(cfg, cs, r) && PlansOk(cfg, cs, r.book, r.plans) && Step(cfg, feed, r, c, wall).Ok?
    ensures var next := Step(cfg, feed, r, c, wall).value; PlansOk(cfg, cs + [c], next.book, next.plans)
  {
    var executed, analysed := StepParts(cfg, feed, r, c, wall);
    ExecuteKeepsBook(cfg, feed, cs, r, c);
    CandleKeepsPlans(cfg, feed, cs, r.riskMarks, r.book, c, r.plans);
    AnalysisKeepsPlans(cfg, feed, cs + [c], executed, c, wall);
    RecordKeepsPlans(cfg, cs + [c], analysed, c);
  }

  lemma {:induction false} AnalysisKeepsPlans(
    cfg: Settings, feed: Feed, cs: seq<Candle>, r: Replay, c: Candle, wall: int)
    requires BookOk(cfg, cs, r.riskMarks, r.book) && PlansOk(cfg, cs, r.book, r.plans) && c in cs
    requires Analyse(cfg, feed, r, c, wall).Ok?
    ensures var next := Analyse(cfg, feed, r, c, wall).value; PlansOk(cfg, cs, next.book, next.plans)
  {
    var p := AnalyseSubmitsOnce(cfg, feed, r, c, wall);
    if p.Some? {
      SubmissionKeepsPlans(cfg, cs, r.riskMarks, r.book, r.plans, c, p.value);
    }
  }

  lemma {:induction false} RecordKeepsPlans(cfg: Settings, cs: seq<Candle>, r: Replay, c: Candle)
    requires PlansOk(cfg, cs, r.book, r.plans)
    ensures PlansOk(cfg, cs, Record(r, c).book, Record(r, c).plans)
  {
  }

  /**
   * At every point of a replay, every position and every trade has the terms of the plan recorded
   * under its identity.
   */
  lemma {:induction false} EveryReplayIsPlanned(
    cfg: Settings, feed: Feed, start: int, cs: seq<Candle>, wall: nat -> int)
    requires Replayed(cfg, feed, start, cs, wall).Ok?
    ensures var r := Replayed(cfg, feed, start, cs, wall).value; PlansOk(cfg, cs, r.book, r.plans)
  {
    if |cs| > 0 {
      var before, after := LastStep(cfg, feed, start, cs, wall);
      EveryReplayIsPlanned(cfg, feed, start, cs[..|cs| - 1], wall);
      EveryReplayIsSound(cfg, feed, start, cs[..|cs| - 1], wall);
      StepKeepsPlans(cfg, feed, cs[..|cs| - 1], before, cs[|cs| - 1], wall(|cs| - 1));
      SplitLast(cs, 0);
    }
  }
}
