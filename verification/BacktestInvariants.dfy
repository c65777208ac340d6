/**
 * What holds after every candle of a replay: the book is sound without any assumption on
 * identities, and the life of every position and trade is the one its candles dictate.
 */
module BacktestInvariants {
  import opened Common
  import opened Tables
  import opened Configuration
  import opened Market
  import opened Indicators
  import opened Strategy
  import opened Risk
  import opened RiskGuarantees
  import opened Ledger
  import opened LedgerInvariants
  import opened Backtest
  import opened Session

  // ---------------------------------------------------------------------
  // The life of a position
  // ---------------------------------------------------------------------

  /** What a position keeps from its fill to its close. */
  datatype Origin = Origin(id: PlanId, terms: Terms, openedAt: int, signalTime: Option<int>)

  function OriginOf(p: Position): Origin {
    Origin(p.id, p.terms, p.openedAt, p.signalTime)
  }

  /** The positions have known origins, and the trades are among those accounted for. */
  ghost predicate Within(b: Book, known: iset<Origin>, done: iset<Trade>) {
    && (forall p :: p in b.open ==> OriginOf(p) in known)
    && (forall t :: t in b.history ==> t in done)
  }

  /** Positions still to be observed have origins in `before`, the others in `after`. */
  ghost predicate Passing(b: Book, ps: seq<Position>, before: iset<Origin>, after: iset<Origin>, done: iset<Trade>) {
    && (forall p :: p in b.open ==> OriginOf(p) in if p in ps then before else after)
    && (forall t :: t in b.history ==> t in done)
  }

  /** What a candle makes of the positions of its symbol: they survive it, or their trade is accounted for. */
  ghost predicate PassesCandle(
    cfg: Settings, c: Candle, now: int, before: iset<Origin>, after: iset<Origin>, done: iset<Trade>)
  {
    forall p: Position :: OriginOf(p) in before && p.id.symbol == c.symbol ==>
      match ExitOf(p.terms, c)
      case Some(e) => CloseTrade(cfg, p, e, now) in done
      case None => OriginOf(p) in after
  }

  lemma {:induction false} CloseWhilePassing(
    cfg: Settings, b: Book, ps: seq<Position>, e: Exit, now: int, before: iset<Origin>, after: iset<Origin>,
    done: iset<Trade>)
    requires Sound(cfg, b) && |ps| > 0 && Listed(b, ps) && Passing(b, ps, before, after, done)
    requires CloseTrade(cfg, ps[0], e, now) in done
    ensures Passing(ClosePosition(cfg, b, ps[0], e, now).0, ps[1..], before, after, done)
  {
    CloseIsSound(cfg, b, ps[0], e, now);
    var next := ClosePosition(cfg, b, ps[0], e, now).0;
    assert forall p :: p in ps <==> p == ps[0] || p in ps[1..];
    forall p | p in next.open ensures OriginOf(p) in if p in ps[1..] then before else after {
      assert p in b.open && p.id != ps[0].id;
    }
  }

  lemma {:induction false} MarkWhilePassing(
    cfg: Settings, b: Book, ps: seq<Position>, c: Candle, before: iset<Origin>, after: iset<Origin>, done: iset<Trade>)
    requires Sound(cfg, b) && |ps| > 0 && Listed(b, ps) && Passing(b, ps, before, after, done)
    requires OriginOf(ps[0]) in after
    ensures Passing(MarkPosition(cfg, b, ps[0], c), ps[1..], before, after, done)
  {
    MarkIsSound(cfg, b, ps[0], c);
    var next, marked := MarkPosition(cfg, b, ps[0], c), Marked(cfg, ps[0], c);
    assert forall p :: p in ps <==> p == ps[0] || p in ps[1..];
    RestHasOtherIds(ps);
    forall p | p in next.open ensures OriginOf(p) in if p in ps[1..] then before else after {
      if p == marked {
        assert OriginOf(p) == OriginOf(ps[0]) && p.id == ps[0].id;
      }
    }
  }

  lemma {:induction false} RestHasOtherIds(ps: seq<Position>)
    requires |ps| > 0 && Distinct(PositionKey, ps)
    ensures forall p :: p in ps[1..] ==> p.id != ps[0].id
  {
    forall p | p in ps[1..] ensures p.id != ps[0].id {
      var i :| 0 < i < |ps| && ps[i] == p;
      assert PositionKey(ps[0]) != PositionKey(ps[i]);
    }
  }

  lemma {:induction false} ObserveWhilePassing(
    cfg: Settings, b: Book, ps: seq<Position>, c: Candle, now: int, before: iset<Origin>, after: iset<Origin>,
    done: iset<Trade>)
    requires Sound(cfg, b) && |ps| > 0 && Listed(b, ps) && Passing(b, ps, before, after, done)
    requires PassesCandle(cfg, c, now, before, after, done) && ps[0].id.symbol == c.symbol
    ensures Passing(Observe(cfg, b, ps[0], c, now), ps[1..], before, after, done)
  {
    assert ps[0] in ps && OriginOf(ps[0]) in before;
    match ExitOf(ps[0].terms, c)
    case Some(e) => CloseWhilePassing(cfg, b, ps, e, now, before, after, done);
    case None => MarkWhilePassing(cfg, b, ps, c, before, after, done);
  }

  lemma {:induction false} ObserveAllWithin(
    cfg: Settings, b: Book, ps: seq<Position>, c: Candle, now: int, before: iset<Origin>, after: iset<Origin>,
    done: iset<Trade>)
    requires Sound(cfg, b) && Listed(b, ps) && Passing(b, ps, before, after, done)
    requires PassesCandle(cfg, c, now, before, after, done) && forall p :: p in ps ==> p.id.symbol == c.symbol
    ensures Within(ObserveAll(cfg, b, ps, c, now), after, done)
    decreases |ps|
  {
    if |ps| > 0 {
      assert ps[0] in ps && forall p :: p in ps[1..] ==> p in ps;
      ObserveWhilePassing(cfg, b, ps, c, now, before, after, done);
      ObserveIsSound(cfg, b, ps[0], c, now);
      ListedAfterOne(cfg, b, ps, c, now);
      ObserveAllWithin(cfg, Observe(cfg, b, ps[0], c, now), ps[1..], c, now, before, after, done);
    }
  }

  /** Every plan that may fill on this candle would have a known origin. */
  ghost predicate FillsWithin(
    cfg: Settings, waiting: seq<Pending>, c: Candle, price: real, now: int, known: iset<Origin>)
  {
    forall w :: w in waiting && w.plan.symbol == c.symbol && ValidPlan(cfg, w.plan, now) ==>
      OriginOf(FillPosition(cfg, w.id, w.plan, c, price, now)) in known
  }

  lemma {:induction false} FillWithin(
    cfg: Settings, b: Book, w: Pending, c: Candle, price: real, now: int, feed: Feed, known: iset<Origin>,
    done: iset<Trade>)
    requires Sound(cfg, b) && w in b.pending && w.plan.symbol == c.symbol
    requires Within(b, known, done) && FillsWithin(cfg, b.pending, c, price, now, known)
    ensures Within(Fill(cfg, b, w, c, price, now, feed), known, done)
    ensures FillsWithin(cfg, Fill(cfg, b, w, c, price, now, feed).pending, c, price, now, known)
  {
    FillIsSound(cfg, b, w, c, price, now, feed);
  }

  lemma {:induction false} FillAllWithin(
    cfg: Settings, b: Book, ws: seq<Pending>, c: Candle, price: real, now: int, feed: Feed, known: iset<Origin>,
    done: iset<Trade>)
    requires Sound(cfg, b) && Queued(b, ws)
    requires Within(b, known, done) && FillsWithin(cfg, b.pending, c, price, now, known)
    ensures Within(FillAll(cfg, b, ws, c, price, now, feed), known, done)
    decreases |ws|
  {
    if |ws| > 0 {
      QueuedAfterOne(cfg, b, ws, c, price, now, feed);
      if ws[0].plan.symbol != c.symbol {
        FillAllWithin(cfg, b, ws[1..], c, price, now, feed, known, done);
      } else {
        FillIsSound(cfg, b, ws[0], c, price, now, feed);
        FillWithin(cfg, b, ws[0], c, price, now, feed, known, done);
        FillAllWithin(cfg, Fill(cfg, b, ws[0], c, price, now, feed), ws[1..], c, price, now, feed, known, done);
      }
    }
  }

  /** Positions of other symbols do not see the candle. */
  ghost predicate OthersStay(c: Candle, before: iset<Origin>, after: iset<Origin>) {
    forall o :: o in before && o.id.symbol != c.symbol ==> o in after
  }

  lemma {:induction false} CandleWithin(
    cfg: Settings, b: Book, c: Candle, entryPrice: Option<real>, now: int, feed: Feed, before: iset<Origin>,
    after: iset<Origin>, done: iset<Trade>)
    requires Sound(cfg, b) && Within(b, before, done)
    requires PassesCandle(cfg, c, now, before, after, done) && OthersStay(c, before, after)
    requires FillsWithin(cfg, b.pending, c, EntryPrice(c, entryPrice), now, after)
    ensures Within(ProcessCandle(cfg, b, c, entryPrice, now, feed), after, done)
  {
    ResetIsSound(cfg, b, now);
    var today := ResetDay(b, now);
    SelectionIsListed(today.open, c.symbol);
    var existing := PositionsOf(today.open, c.symbol);
    ObserveAllIsSound(cfg, today, existing, c, now);
    ObserveAllWithin(cfg, today, existing, c, now, before, after, done);
    var observed := ObserveAll(cfg, today, existing, c, now);
    FillAllWithin(cfg, observed, observed.pending, c, EntryPrice(c, entryPrice), now, feed, after, done);
  }

  // ---------------------------------------------------------------------
  // Identities and the candles they name
  // ---------------------------------------------------------------------

  function IdOf(c: Candle): PlanId {
    PlanId(c.symbol, c.timeframe, c.openTime)
  }

  /** The risk engine's watermark has reached this identity. */
  predicate Covers(marks: map<Key, int>, id: PlanId) {
    Key(id.symbol, id.timeframe) in marks && id.openTime <= marks[Key(id.symbol, id.timeframe)]
  }

  /** Only a complete candle is analysed. */
  predicate Signalled(id: PlanId, c: Candle) {
    IdOf(c) == id && c.isClosed
  }

  /** A fill at the opening price of a candle, with its fee, dated by its close. */
  predicate FilledAt(cfg: Settings, o: Origin, c: Candle) {
    && !o.terms.direction.NoTrade?
    && c.symbol == o.id.symbol && o.openedAt == c.closeTime
    && o.terms.entryFill == EntryFill(EntryPrice(c, Some(c.open)), o.terms.direction, cfg.entrySlippageBps)
    && o.terms.entryFee == Fee(Product(o.terms.entryFill, o.terms.quantity), cfg.paperFeeBps)
  }

  ghost predicate Made(cs: seq<Candle>, id: PlanId) {
    exists i :: 0 <= i < |cs| && Signalled(id, cs[i])
  }

  /** No candle of the symbol after candle `j` reaches the stop or the target. */
  ghost predicate Untouched(cs: seq<Candle>, j: nat, o: Origin) {
    forall k :: j < k < |cs| && cs[k].symbol == o.id.symbol ==> ExitOf(o.terms, cs[k]).None?
  }

  /**
   * The signal came from candle `i`, the fill from a later candle `j` of the same symbol, and
   * nothing has ended it since.
   */
  ghost predicate Entered(cfg: Settings, cs: seq<Candle>, o: Origin) {
    exists i, j :: 0 <= i < j < |cs| && Signalled(o.id, cs[i]) && FilledAt(cfg, o, cs[j]) && Untouched(cs, j, o)
  }

  /** The trade that candle `c` makes of a position, by the stop-first rule, with its result after both fees. */
  predicate ClosedAt(cfg: Settings, o: Origin, t: Trade, c: Candle) {
    && c.symbol == o.id.symbol && ExitOf(o.terms, c).Some?
    && t.id == o.id && t.direction == o.terms.direction && t.quantity == o.terms.quantity
    && t.openedAt == o.openedAt && t.signalTime == o.signalTime && t.closedAt == c.closeTime
    && t.entryFill == o.terms.entryFill
    && t.reason == ExitOf(o.terms, c).value.reason
    && t.exitFill == ExitFill(ExitOf(o.terms, c).value.trigger, t.direction, cfg.exitSlippageBps)
    && t.gross == GrossPnl(t.entryFill, t.exitFill, t.quantity, t.direction)
    && t.fees == o.terms.entryFee + Fee(Product(t.exitFill, t.quantity), cfg.paperFeeBps)
    && t.net == t.gross - t.fees
  }

  /** A position that was open before candle `m` was ended by it. */
  ghost predicate Ended(cfg: Settings, cs: seq<Candle>, t: Trade) {
    exists m, o :: 0 <= m < |cs| && Entered(cfg, cs[..m], o) && ClosedAt(cfg, o, t, cs[m])
  }

  ghost function Known(cfg: Settings, cs: seq<Candle>, marks: map<Key, int>): iset<Origin> {
    iset o | Entered(cfg, cs, o) && Covers(marks, o.id)
  }

  ghost function Done(cfg: Settings, cs: seq<Candle>, marks: map<Key, int>): iset<Trade> {
    iset t | Ended(cfg, cs, t) && Covers(marks, t.id)
  }

  ghost predicate WaitingKnown(cs: seq<Candle>, marks: map<Key, int>, waiting: seq<Pending>) {
    forall w :: w in waiting ==> Made(cs, w.id) && Covers(marks, w.id)
  }

  /** The book after candles `cs`, with the risk engine's watermarks at `marks`. */
  ghost predicate BookOk(cfg: Settings, cs: seq<Candle>, marks: map<Key, int>, b: Book) {
    && Sound(cfg, b)
    && b.recovery.RecoveryComplete? && !b.paused
    && b.account.starting == cfg.startingBalance
    && Within(b, Known(cfg, cs, marks), Done(cfg, cs, marks))
    && WaitingKnown(cs, marks, b.pending)
    && SeenCovered(marks, b.seen)
  }

  ghost predicate SeenCovered(marks: map<Key, int>, seen: seq<PlanId>) {
    forall i :: 0 <= i < |seen| ==> Covers(marks, seen[i])
  }

  ghost predicate Checked(cfg: Settings, cs: seq<Candle>) {
    forall i :: 0 <= i < |cs| && cs[i].isClosed ==> ValidateCandle(cs[i], cfg.symbols, cfg.defaultTimeframe).None?
  }

  ghost predicate ReplayOk(cfg: Settings, cs: seq<Candle>, r: Replay) {
    BookOk(cfg, cs, r.riskMarks, r.book) && |r.curve| == |cs| && Checked(cfg, cs)
  }

  lemma {:induction false} EnteredLater(cfg: Settings, cs: seq<Candle>, c: Candle, o: Origin)
    requires Entered(cfg, cs, o) && (c.symbol == o.id.symbol ==> ExitOf(o.terms, c).None?)
    ensures Entered(cfg, cs + [c], o)
  {
    var i, j :| 0 <= i < j < |cs| && Signalled(o.id, cs[i]) && FilledAt(cfg, o, cs[j]) && Untouched(cs, j, o);
    var longer := cs + [c];
    assert longer[i] == cs[i] && longer[j] == cs[j];
    forall k | j < k < |longer| && longer[k].symbol == o.id.symbol ensures ExitOf(o.terms, longer[k]).None? {
      assert k < |cs| ==> longer[k] == cs[k];
    }
  }

  lemma {:induction false} EndedLater(cfg: Settings, cs: seq<Candle>, c: Candle, t: Trade)
    requires Ended(cfg, cs, t)
    ensures Ended(cfg, cs + [c], t)
  {
    var m, o :| 0 <= m < |cs| && Entered(cfg, cs[..m], o) && ClosedAt(cfg, o, t, cs[m]);
    assert (cs + [c])[..m] == cs[..m] && (cs + [c])[m] == cs[m];
  }

  lemma {:induction false} EndedNow(cfg: Settings, cs: seq<Candle>, c: Candle, o: Origin, t: Trade)
    requires Entered(cfg, cs, o) && ClosedAt(cfg, o, t, c)
    ensures Ended(cfg, cs + [c], t)
  {
    assert (cs + [c])[..|cs|] == cs && (cs + [c])[|cs|] == c;
  }

  lemma {:induction false} MadeLater(cs: seq<Candle>, c: Candle, id: PlanId)
    requires Made(cs, id)
    ensures Made(cs + [c], id)
  {
    var i :| 0 <= i < |cs| && Signalled(id, cs[i]);
    assert (cs + [c])[i] == cs[i];
  }

  lemma {:induction false} FilledNow(cfg: Settings, cs: seq<Candle>, c: Candle, o: Origin)
    requires Made(cs, o.id) && FilledAt(cfg, o, c)
    ensures Entered(cfg, cs + [c], o)
  {
    var i :| 0 <= i < |cs| && Signalled(o.id, cs[i]);
    assert (cs + [c])[i] == cs[i] && (cs + [c])[|cs|] == c;
    assert Untouched(cs + [c], |cs|, o);
  }

  /** The candles of a trade's life: signal, entry and exit, with no exit before. */
  lemma {:induction false} LifeOfTrade(cfg: Settings, cs: seq<Candle>, t: Trade)
    returns (i: nat, j: nat, m: nat, o: Origin)
    requires Ended(cfg, cs, t)
    ensures i < j < m < |cs|
    ensures Signalled(o.id, cs[i]) && FilledAt(cfg, o, cs[j]) && ClosedAt(cfg, o, t, cs[m]) && Untouched(cs[..m], j, o)
  {
    m, o :| 0 <= m < |cs| && Entered(cfg, cs[..m], o) && ClosedAt(cfg, o, t, cs[m]);
    i, j :| 0 <= i < j < |cs[..m]| && Signalled(o.id, cs[..m][i]) && FilledAt(cfg, o, cs[..m][j])
      && Untouched(cs[..m], j, o);
    assert cs[..m][i] == cs[i] && cs[..m][j] == cs[j];
  }

  lemma {:induction false} OthersStayKnown(cfg: Settings, cs: seq<Candle>, c: Candle, marks: map<Key, int>)
    ensures OthersStay(c, Known(cfg, cs, marks), Known(cfg, cs + [c], marks))
  {
    forall o | Entered(cfg, cs, o) && o.id.symbol != c.symbol ensures Entered(cfg, cs + [c], o) {
      EnteredLater(cfg, cs, c, o);
    }
  }

  lemma {:induction false} CandleDecides(cfg: Settings, cs: seq<Candle>, c: Candle, marks: map<Key, int>)
    ensures PassesCandle(cfg, c, c.closeTime, Known(cfg, cs, marks), Known(cfg, cs + [c], marks),
                         Done(cfg, cs + [c], marks))
  {
    forall p: Position | OriginOf(p) in Known(cfg, cs, marks) && p.id.symbol == c.symbol
      ensures match ExitOf(p.terms, c)
              case Some(e) => CloseTrade(cfg, p, e, c.closeTime) in Done(cfg, cs + [c], marks)
              case None => OriginOf(p) in Known(cfg, cs + [c], marks)
    {
      match ExitOf(p.terms, c)
      case Some(e) => EndedNow(cfg, cs, c, OriginOf(p), CloseTrade(cfg, p, e, c.closeTime));
      case None => EnteredLater(cfg, cs, c, OriginOf(p));
    }
  }

  lemma {:induction false} DoneGrows(cfg: Settings, cs: seq<Candle>, c: Candle, marks: map<Key, int>)
    ensures Done(cfg, cs, marks) <= Done(cfg, cs + [c], marks)
  {
    forall t | Ended(cfg, cs, t) ensures Ended(cfg, cs + [c], t) {
      EndedLater(cfg, cs, c, t);
    }
  }

  lemma {:induction false} WaitingGrows(
    cs: seq<Candle>, c: Candle, marks: map<Key, int>, b: seq<Pending>, next: seq<Pending>)
    requires WaitingKnown(cs, marks, b) && forall w :: w in next ==> w in b
    ensures WaitingKnown(cs + [c], marks, next)
  {
    forall id | Made(cs, id) ensures Made(cs + [c], id) {
      MadeLater(cs, c, id);
    }
  }

  lemma {:induction false} WaitingFillsNow(cfg: Settings, cs: seq<Candle>, marks: map<Key, int>, b: Book, c: Candle)
    requires WaitingOnce(b) && WaitingKnown(cs, marks, b.pending)
    ensures FillsWithin(cfg, b.pending, c, EntryPrice(c, Some(c.open)), c.closeTime, Known(cfg, cs + [c], marks))
  {
    var price := EntryPrice(c, Some(c.open));
    forall w | w in b.pending && w.plan.symbol == c.symbol && ValidPlan(cfg, w.plan, c.closeTime)
      ensures OriginOf(FillPosition(cfg, w.id, w.plan, c, price, c.closeTime)) in Known(cfg, cs + [c], marks)
    {
      FilledNow(cfg, cs, c, OriginOf(FillPosition(cfg, w.id, w.plan, c, price, c.closeTime)));
    }
  }

  // ---------------------------------------------------------------------
  // One candle
  // ---------------------------------------------------------------------

  lemma {:induction false} CandleKeepsOrigins(
    cfg: Settings, feed: Feed, cs: seq<Candle>, marks: map<Key, int>, b: Book, c: Candle)
    requires Sound(cfg, b) && Within(b, Known(cfg, cs, marks), Done(cfg, cs, marks))
    requires FillsWithin(cfg, b.pending, c, EntryPrice(c, Some(c.open)), c.closeTime, Known(cfg, cs + [c], marks))
    ensures Within(ProcessCandle(cfg, b, c, Some(c.open), c.closeTime, feed), Known(cfg, cs + [c], marks),
                   Done(cfg, cs + [c], marks))
  {
    OthersStayKnown(cfg, cs, c, marks);
    CandleDecides(cfg, cs, c, marks);
    DoneGrows(cfg, cs, c, marks);
    CandleWithin(cfg, b, c, Some(c.open), c.closeTime, feed, Known(cfg, cs, marks), Known(cfg, cs + [c], marks),
                 Done(cfg, cs + [c], marks));
  }

  lemma {:induction false} CandleKeepsBook(
    cfg: Settings, feed: Feed, cs: seq<Candle>, marks: map<Key, int>, b: Book, c: Candle)
    requires BookOk(cfg, cs, marks, b)
    ensures BookOk(cfg, cs + [c], marks, ProcessCandle(cfg, b, c, Some(c.open), c.closeTime, feed))
  {
    var next := ProcessCandle(cfg, b, c, Some(c.open), c.closeTime, feed);
    CandleIsSound(cfg, b, c, Some(c.open), c.closeTime, feed);
    CandleKeepsStatus(cfg, b, c, Some(c.open), c.closeTime, feed);
    WaitingGrows(cs, c, marks, b.pending, next.pending);
    WaitingFillsNow(cfg, cs, marks, b, c);
    CandleKeepsOrigins(cfg, feed, cs, marks, b, c);
  }

  lemma {:induction false} FreshPlan(cfg: Settings, cs: seq<Candle>, marks: map<Key, int>, b: Book, c: Candle)
    requires Passes(marks, KeyOf(c), Some(c.openTime)) && Within(b, Known(cfg, cs, marks), Done(cfg, cs, marks))
    ensures Unused(b, IdOf(c))
  {
    forall p | p in b.open ensures p.id != IdOf(c) {
      assert OriginOf(p) in Known(cfg, cs, marks);
    }
    forall t | t in b.history ensures t.id != IdOf(c) {
      assert t in Done(cfg, cs, marks);
    }
  }

  lemma {:induction false} MarksGrow(
    cfg: Settings, cs: seq<Candle>, marks: map<Key, int>, c: Candle, waiting: seq<Pending>)
    requires Passes(marks, KeyOf(c), Some(c.openTime)) && WaitingKnown(cs, marks, waiting)
    ensures var marked := marks[KeyOf(c) := c.openTime];
            && Known(cfg, cs, marks) <= Known(cfg, cs, marked) && Done(cfg, cs, marks) <= Done(cfg, cs, marked)
            && WaitingKnown(cs, marked, waiting)
  {
  }

  lemma {:induction false} RememberedCovered(cfg: Settings, marks: map<Key, int>, seen: seq<PlanId>, id: PlanId)
    requires SeenCovered(marks, seen) && Covers(marks, id)
    ensures SeenCovered(marks, Remember(cfg, seen, id))
  {
    var all := seen + [id];
    assert forall i :: 0 <= i < |all| ==> Covers(marks, all[i]);
  }

  lemma {:induction false} SeenChangesOnce(cfg: Settings, b: Book, p: Plan, now: int)
    requires Identity(p).Some?
    ensures var seen := ProcessPlan(cfg, b, p, now).0.seen;
            seen == b.seen || seen == Remember(cfg, b.seen, Identity(p).value)
  {
  }

  lemma {:induction false} SeenOneMore(cfg: Settings, marks: map<Key, int>, b: Book, c: Candle, p: Plan)
    requires Passes(marks, KeyOf(c), Some(c.openTime)) && SeenCovered(marks, b.seen) && Identity(p) == Some(IdOf(c))
    ensures SeenCovered(marks[KeyOf(c) := c.openTime], ProcessPlan(cfg, b, p, c.closeTime).0.seen)
    ensures IdOf(c) !in b.seen
  {
    SeenChangesOnce(cfg, b, p, c.closeTime);
    RememberedCovered(cfg, marks[KeyOf(c) := c.openTime], b.seen, IdOf(c));
  }

  lemma {:induction false} WaitingOneMoreKnown(cs: seq<Candle>, marks: map<Key, int>, waiting: seq<Pending>, w: Pending)
    requires WaitingKnown(cs, marks, waiting) && Made(cs, w.id) && Covers(marks, w.id)
    ensures WaitingKnown(cs, marks, Put(PendingKey, waiting, w))
  {
    var i := Find(PendingKey, waiting, w.id);
    forall x | x in Put(PendingKey, waiting, w) ensures x == w || x in waiting {
    }
  }

  /** A plan whose candle passed the watermark has an identity that was never used. */
  lemma {:induction false} SubmitKeepsBook(
    cfg: Settings, cs: seq<Candle>, marks: map<Key, int>, b: Book, c: Candle, p: Plan)
    requires BookOk(cfg, cs, marks, b) && Made(cs, IdOf(c))
    requires Passes(marks, KeyOf(c), Some(c.openTime)) && Identity(p) == Some(IdOf(c))
    ensures BookOk(cfg, cs, marks[KeyOf(c) := c.openTime], ProcessPlan(cfg, b, p, c.closeTime).0)
  {
    var marked := marks[KeyOf(c) := c.openTime];
    FreshPlan(cfg, cs, marks, b, c);
    PlanIsSound(cfg, b, p, c.closeTime);
    PlanOnlyWaits(cfg, b, p, c.closeTime);
    PlanKeepsStatus(cfg, b, p, c.closeTime);
    MarksGrow(cfg, cs, marks, c, b.pending);
    SeenOneMore(cfg, marks, b, c, p);
    WaitingOneMoreKnown(cs, marked, b.pending, Pending(IdOf(c), p));
  }

  lemma {:induction false} PlanKeepsStatus(cfg: Settings, b: Book, p: Plan, now: int)
    ensures var next := ProcessPlan(cfg, b, p, now).0;
            next.recovery == b.recovery && next.paused == b.paused && next.account.starting == b.account.starting
  {
  }

  // ---------------------------------------------------------------------
  // From a candle to at most one plan
  // ---------------------------------------------------------------------

  predicate NamesSnapshot(c: Candle, s: Snapshot) {
    s.symbol == c.symbol && s.timeframe == c.timeframe && s.openTime == Some(c.openTime) && s.close == Some(c.close)
  }

  predicate NamesSignal(c: Candle, s: Signal) {
    s.symbol == c.symbol && s.timeframe == c.timeframe && s.openTime == Some(c.openTime) && s.close == Some(c.close)
  }

  /** A signal to trade has the full score. */
  predicate ScoresFully(s: Signal) {
    s.actionable ==> s.score == 100
  }

  /**
   * An approved plan is dated by the close of its candle and enters there, between its levels, with no
   * more than its planned risk, on a signal with the full score.
   */
  predicate MadeAt(c: Candle, p: Plan) {
    p.approved ==>
      && p.generatedAt == Some(c.closeTime) && p.score == 100
      && p.entry == Some(c.close) && p.stop.Some? && p.target.Some? && p.quantity.Some? && p.plannedRisk.Some?
      && RiskGuarantees.Ordered(p.direction, p.stop.value, c.close, p.target.value)
      && Product(p.quantity.value, Abs(c.close - p.stop.value)) <= p.plannedRisk.value
  }

  lemma {:induction false} SnapshotNamesCandle(cfg: Settings, states: map<Key, IndicatorState>, c: Candle)
    requires Process(cfg, states, c).Ok?
    ensures Process(cfg, states, c).value.1.Some? ==>
            NamesSnapshot(c, Process(cfg, states, c).value.1.value) && c.isClosed
    ensures c.isClosed ==> ValidateCandle(c, cfg.symbols, cfg.defaultTimeframe).None?
  {
  }

  lemma {:induction false} PlanNamesCandle(
    cfg: Settings, c: Candle, s: Signal, feed: Option<Feed>, a: RiskAccount, now: int)
    requires NamesSignal(c, s)
    ensures Identity(BuildPlan(cfg, s, feed, a, now)) == Some(IdOf(c))
  {
  }

  lemma {:induction false} PlanIsMadeAt(
    cfg: Settings, c: Candle, s: Signal, feed: Option<Feed>, a: RiskAccount)
    requires NamesSignal(c, s) && ScoresFully(s)
    ensures MadeAt(c, BuildPlan(cfg, s, feed, a, c.closeTime))
  {
    PlanIsDated(cfg, s, feed, a, c.closeTime);
    if BuildPlan(cfg, s, feed, a, c.closeTime).approved {
      ApprovedPlanKeepsBudgets(cfg, s, feed, a, c.closeTime);
    }
  }

  lemma {:induction false} PlanIsDated(cfg: Settings, s: Signal, feed: Option<Feed>, a: RiskAccount, now: int)
    ensures var p := BuildPlan(cfg, s, feed, a, now);
            p.generatedAt == Some(now) && p.score == s.score && p.direction == s.direction
            && (p.approved ==> s.actionable)
  {
  }

  /** What one candle submits: its plan, if its key has moved past the watermark. */
  ghost predicate SubmitsAtMost(cfg: Settings, c: Candle, r: Replay, next: Replay, p: Option<Plan>) {
    && next.curve == r.curve && next.peak == r.peak && next.riskAccount == r.riskAccount
    && match p
       case None => next.book == r.book && next.riskMarks == r.riskMarks && next.plans == r.plans
       case Some(plan) =>
         && Passes(r.riskMarks, KeyOf(c), Some(c.openTime))
         && next.riskMarks == r.riskMarks[KeyOf(c) := c.openTime]
         && Identity(plan) == Some(IdOf(c)) && c.isClosed
         && next.book == ProcessPlan(cfg, r.book, plan, c.closeTime).0
         && next.plans == r.plans[IdOf(c) := plan] && MadeAt(c, plan)
  }

  lemma {:induction false} SignalSubmitsOnce(cfg: Settings, feed: Feed, r: Replay, s: Signal, c: Candle)
    returns (p: Option<Plan>)
    requires NamesSignal(c, s) && ScoresFully(s) && c.isClosed
    ensures SubmitsAtMost(cfg, c, r, OnSignal(cfg, feed, r, s, c.closeTime), p)
  {
    PlanNamesCandle(cfg, c, s, Some(feed), r.riskAccount, c.closeTime);
    PlanIsMadeAt(cfg, c, s, Some(feed), r.riskAccount);
    p := Planned(cfg, feed, r, s, c.closeTime).1;
  }

  lemma {:induction false} SnapshotSubmitsOnce(cfg: Settings, feed: Feed, r: Replay, s: Snapshot, c: Candle, wall: int)
    returns (p: Option<Plan>)
    requires NamesSnapshot(c, s) && c.isClosed
    ensures SubmitsAtMost(cfg, c, r, OnSnapshot(cfg, feed, r, s, c.closeTime, wall), p)
  {
    p := None;
    var (marks, signal) := ProcessSnapshot(cfg, r.strategyMarks, s, Some(feed), wall);
    if signal.Some? {
      SignalWrittenOut(cfg, s, Some(feed), wall);
      assert NamesSignal(c, signal.value);
      p := SignalSubmitsOnce(cfg, feed, r.(strategyMarks := marks), signal.value, c);
    }
  }

  /** Everything that analysing a candle does to the book is to submit at most one plan of that candle. */
  lemma {:induction false} AnalyseSubmitsOnce(cfg: Settings, feed: Feed, r: Replay, c: Candle, wall: int)
    returns (p: Option<Plan>)
    requires Analyse(cfg, feed, r, c, wall).Ok?
    ensures SubmitsAtMost(cfg, c, r, Analyse(cfg, feed, r, c, wall).value, p)
    ensures c.isClosed ==> ValidateCandle(c, cfg.symbols, cfg.defaultTimeframe).None?
  {
    p := None;
    SnapshotNamesCandle(cfg, r.states, c);
    var processed := Process(cfg, r.states, c).value;
    if processed.1.Some? {
      p := SnapshotSubmitsOnce(cfg, feed, r.(states := processed.0), processed.1.value, c, wall);
    }
  }

  /**
   * In a replay every approved plan is accepted: its identity is new, although only a bounded
   * number of identities is remembered, it is fresh, and the gates are open.
   */
  lemma {:induction false} ApprovedPlansWait(
    cfg: Settings, feed: Feed, cs: seq<Candle>, r: Replay, s: Signal, c: Candle)
    requires BookOk(cfg, cs, r.riskMarks, r.book) && NamesSignal(c, s)
    ensures var (marked, plan) := Planned(cfg, feed, r, s, c.closeTime);
            plan.Some? && plan.value.approved ==>
              && ProcessPlan(cfg, marked.book, plan.value, c.closeTime).1
              && Pending(IdOf(c), plan.value) in OnSignal(cfg, feed, r, s, c.closeTime).book.pending
  {
    var (marked, plan) := Planned(cfg, feed, r, s, c.closeTime);
    if plan.Some? && plan.value.approved {
      ApprovedPlanKeepsBudgets(cfg, s, Some(feed), r.riskAccount, c.closeTime);
      PlanNamesCandle(cfg, c, s, Some(feed), r.riskAccount, c.closeTime);
      SeenOneMore(cfg, r.riskMarks, r.book, c, plan.value);
      AcceptedPlanWaits(cfg, r.book, plan.value, c.closeTime);
    }
  }

  lemma {:induction false} AcceptedPlanWaits(cfg: Settings, b: Book, p: Plan, now: int)
    requires Identity(p).Some? && b.recovery.RecoveryComplete? && !b.paused && Identity(p).value !in b.seen
    requires ValidPlan(cfg, p, now)
    ensures ProcessPlan(cfg, b, p, now).1
    ensures Pending(Identity(p).value, p) in ProcessPlan(cfg, b, p, now).0.pending
  {
  }

  // ---------------------------------------------------------------------
  // The whole replay
  // ---------------------------------------------------------------------

  lemma {:induction false} RecordKeepsBook(cfg: Settings, cs: seq<Candle>, r: Replay, c: Candle)
    requires BookOk(cfg, cs, r.riskMarks, r.book)
    ensures BookOk(cfg, cs, Record(r, c).riskMarks, Record(r, c).book)
    ensures |Record(r, c).curve| == |r.curve| + 1 && Record(r, c).curve[..|r.curve|] == r.curve
  {
    ResetIsSound(cfg, r.book, c.closeTime);
  }

  lemma {:induction false} AnalyseKeepsBook(
    cfg: Settings, feed: Feed, cs: seq<Candle>, r: Replay, c: Candle, wall: int)
    requires BookOk(cfg, cs, r.riskMarks, r.book) && (c.isClosed ==> Made(cs, IdOf(c)))
             && Analyse(cfg, feed, r, c, wall).Ok?
    ensures var next := Analyse(cfg, feed, r, c, wall).value;
            BookOk(cfg, cs, next.riskMarks, next.book) && next.curve == r.curve
    ensures c.isClosed ==> ValidateCandle(c, cfg.symbols, cfg.defaultTimeframe).None?
  {
    var p := AnalyseSubmitsOnce(cfg, feed, r, c, wall);
    if p.Some? {
      SubmitKeepsBook(cfg, cs, r.riskMarks, r.book, c, p.value);
    }
  }

  lemma {:induction false} ExecuteKeepsBook(cfg: Settings, feed: Feed, cs: seq<Candle>, r: Replay, c: Candle)
    requires BookOk(cfg, cs, r.riskMarks, r.book) && Execute(cfg, feed, r, c).Ok?
    ensures var next := Execute(cfg, feed, r, c).value;
            BookOk(cfg, cs + [c], next.riskMarks, next.book) && next.curve == r.curve
  {
    CandleKeepsBook(cfg, feed, cs, r.riskMarks, r.book, c);
  }

  /** The three parts of a step that succeeds. */
  lemma {:induction false} StepParts(cfg: Settings, feed: Feed, r: Replay, c: Candle, wall: int)
    returns (executed: Replay, analysed: Replay)
    requires Step(cfg, feed, r, c, wall).Ok?
    ensures Execute(cfg, feed, r, c) == Ok(executed) && Analyse(cfg, feed, executed, c, wall) == Ok(analysed)
    ensures Step(cfg, feed, r, c, wall) == Ok(Record(analysed, c))
  {
    executed := Execute(cfg, feed, r, c).value;
    analysed := Analyse(cfg, feed, executed, c, wall).value;
  }

  lemma {:induction false} CheckedOneMore(cfg: Settings, cs: seq<Candle>, c: Candle)
    requires Checked(cfg, cs) && (c.isClosed ==> ValidateCandle(c, cfg.symbols, cfg.defaultTimeframe).None?)
    ensures Checked(cfg, cs + [c]) && (c.isClosed ==> Made(cs + [c], IdOf(c)))
  {
    assert (cs + [c])[|cs|] == c;
  }

  lemma {:induction false} StepKeepsReplay(
    cfg: Settings, feed: Feed, cs: seq<Candle>, r: Replay, c: Candle, wall: int)
    requires ReplayOk(cfg, cs, r) && Step(cfg, feed, r, c, wall).Ok?
    ensures ReplayOk(cfg, cs + [c], Step(cfg, feed, r, c, wall).value)
    ensures Step(cfg, feed, r, c, wall).value.curve[..|cs|] == r.curve
  {
    var executed, analysed := StepParts(cfg, feed, r, c, wall);
    ExecuteKeepsBook(cfg, feed, cs, r, c);
    var p := AnalyseSubmitsOnce(cfg, feed, executed, c, wall);
    CheckedOneMore(cfg, cs, c);
    AnalyseKeepsBook(cfg, feed, cs + [c], executed, c, wall);
    RecordKeepsBook(cfg, cs + [c], analysed, c);
  }

  /** The replay before its last candle, and the step that this candle makes. */
  lemma {:induction false} LastStep(cfg: Settings, feed: Feed, start: int, cs: seq<Candle>, wall: nat -> int)
    returns (before: Replay, after: Replay)
    requires |cs| > 0 && Replayed(cfg, feed, start, cs, wall).Ok?
    ensures Replayed(cfg, feed, start, cs[..|cs| - 1], wall) == Ok(before)
    ensures Replayed(cfg, feed, start, cs, wall) == Ok(after)
    ensures Step(cfg, feed, before, cs[|cs| - 1], wall(|cs| - 1)) == Ok(after)
  {
    before := Replayed(cfg, feed, start, cs[..|cs| - 1], wall).value;
    after := Replayed(cfg, feed, start, cs, wall).value;
  }

  /**
   * No freshness of identities has to be assumed in a replay: the watermarks provide it, so
   * the book stays sound.  Every position was filled after its signal and no candle since has
   * reached its levels; every trade was such a position until one candle ended it.
   */
  lemma {:induction false} EveryReplayIsSound(
    cfg: Settings, feed: Feed, start: int, cs: seq<Candle>, wall: nat -> int)
    requires Replayed(cfg, feed, start, cs, wall).Ok?
    ensures ReplayOk(cfg, cs, Replayed(cfg, feed, start, cs, wall).value)
  {
    if |cs| == 0 {
      NothingReplayed(cfg, start);
    } else {
      var before, after := LastStep(cfg, feed, start, cs, wall);
      EveryReplayIsSound(cfg, feed, start, cs[..|cs| - 1], wall);
      StepKeepsReplay(cfg, feed, cs[..|cs| - 1], before, cs[|cs| - 1], wall(|cs| - 1));
      SplitLast(cs, 0);
    }
  }

  lemma {:induction false} NothingReplayed(cfg: Settings, start: int)
    ensures ReplayOk(cfg, [], Initial(cfg, start))
  {
    OpeningIsSound(cfg, cfg.startingBalance, start);
  }
}
