/** What a recovery leaves: which candles it replays, when it finishes, and a book of open positions. */
module RecoveredBook {
  import opened Common
  import opened Tables
  import opened Sorting
  import opened Configuration
  import opened Market
  import opened Ledger
  import opened LedgerInvariants
  import opened Durability

  // ---------------------------------------------------------------------
  // The candles replayed
  // ---------------------------------------------------------------------

  lemma {:induction false} UnseenAre(mark: int, cs: seq<Candle>)
    ensures forall c :: multiset(Unseen(mark, cs))[c] == if c.closeTime > mark then multiset(cs)[c] else 0
  {
    if |cs| > 0 {
      var front, last := cs[..|cs| - 1], cs[|cs| - 1];
      UnseenAre(mark, front);
      assert cs == front + [last];
    }
  }

  /**
   * A position meets every candle that closed after it was last written, or after its signal if it
   * never was, as often as it was downloaded, in order of opening; and no other.
   */
  lemma {:induction false} MissedAre(p: Position, cs: seq<Candle>)
    ensures var mark := match p.lastProcessed case Some(t) => t case None => p.sourceClose;
            forall c :: multiset(Missed(p, cs))[c] == if c.closeTime > mark then multiset(cs)[c] else 0
    ensures var missed := Missed(p, cs);
            forall i, j :: 0 <= i < j < |missed| ==> missed[i].openTime <= missed[j].openTime
  {
    UnseenAre(Watermark(p), cs);
    SortIsPermutation(OpensNoLater, Unseen(Watermark(p), cs));
    assert TotalPreorder(OpensNoLater);
    SortSorts(OpensNoLater, Unseen(Watermark(p), cs));
    var missed := Missed(p, cs);
    forall i, j | 0 <= i < j < |missed| ensures missed[i].openTime <= missed[j].openTime {
      assert OpensNoLater(missed[i], missed[j]);
    }
  }

  // ---------------------------------------------------------------------
  // The statuses
  // ---------------------------------------------------------------------

  /** Every position is open again, or still has to be recovered. */
  ghost predicate Reopening(open: seq<Position>, left: seq<Position>) {
    forall p :: p in open && !p.status.Open? ==> Listing(left, p.id)
  }

  ghost predicate Listing(ps: seq<Position>, id: PlanId) {
    exists q :: q in ps && q.id == id
  }

  lemma {:induction false} CandleKeepsReopening(
    cfg: Settings, b: Book, id: PlanId, c: Candle, now: int, left: seq<Position>)
    requires Sound(cfg, b) && Reopening(b.open, left)
    ensures Reopening(RecoverCandle(cfg, b, id, c, now).open, left)
  {
    var i := Find(PositionKey, b.open, id);
    if i < |b.open| {
      assert b.open[i] in b.open;
      match ExitOf(b.open[i].terms, c)
      case Some(e) => CloseIsSound(cfg, b, b.open[i], e, now);
      case None => MarkIsSound(cfg, b, b.open[i], c);
    }
  }

  lemma {:induction false} CandlesKeepReopening(
    cfg: Settings, base: Store, b: Book, id: PlanId, cs: seq<Candle>, now: int, left: seq<Position>)
    requires Sound(cfg, b) && Durable(cfg, base, b) && Reopening(b.open, left)
    ensures Reopening(RecoverCandles(cfg, b, id, cs, now).open, left)
    decreases |cs|
  {
    if |cs| > 0 {
      CandleKeepsReopening(cfg, b, id, cs[0], now, left);
      RecoverCandleIsDurable(cfg, base, b, id, cs[0], now);
      CandlesKeepReopening(cfg, base, RecoverCandle(cfg, b, id, cs[0], now), id, cs[1..], now, left);
    }
  }

  lemma {:induction false} ReopensOne(cfg: Settings, b: Book, left: seq<Position>)
    requires Sound(cfg, b) && |left| > 0 && Reopening(b.open, left)
    ensures Reopening(MarkRecovered(b, left[0].id).open, left[1..])
  {
    var next := MarkRecovered(b, left[0].id).open;
    var i := Find(PositionKey, b.open, left[0].id);
    assert forall q :: q in left <==> q == left[0] || q in left[1..];
    forall p | p in next && !p.status.Open? ensures Listing(left[1..], p.id) {
      var k :| 0 <= k < |next| && next[k] == p;
      assert k != i && p in b.open && (i < |b.open| ==> PositionKey(b.open[i]) != PositionKey(b.open[k]));
      var q :| q in left && q.id == p.id;
      assert q != left[0];
    }
  }

  ghost predicate AllAnswered(fetch: Key -> Option<seq<Candle>>, ps: seq<Position>) {
    forall p :: p in ps ==> fetch(Key(p.id.symbol, p.id.timeframe)).Some?
  }

  lemma {:induction false} RecoverAllReopens(
    cfg: Settings, base: Store, b: Book, ps: seq<Position>, fetch: Key -> Option<seq<Candle>>, now: int)
    requires Sound(cfg, b) && Durable(cfg, base, b) && Reopening(b.open, ps)
    ensures var (next, ok) := RecoverAll(cfg, b, ps, fetch, now);
            (ok ==> forall p :: p in next.open ==> p.status.Open?) && (ok <==> AllAnswered(fetch, ps))
    decreases |ps|
  {
    if |ps| > 0 {
      assert forall q :: q in ps <==> q == ps[0] || q in ps[1..];
      var answer := fetch(Key(ps[0].id.symbol, ps[0].id.timeframe));
      if answer.Some? {
        var missed := Missed(ps[0], answer.value);
        CandlesKeepReopening(cfg, base, b, ps[0].id, missed, now, ps);
        RecoverCandlesIsDurable(cfg, base, b, ps[0].id, missed, now);
        var replayed := RecoverCandles(cfg, b, ps[0].id, missed, now);
        ReopensOne(cfg, replayed, ps);
        MarkRecoveredIsDurable(cfg, base, replayed, ps[0].id);
        RecoverAllReopens(cfg, base, MarkRecovered(replayed, ps[0].id), ps[1..], fetch, now);
      }
    }
  }

  /**
   * A recovery finishes exactly if the candles of every open position could be downloaded and what is
   * left of the account is positive; and then every position that it did not close is open again.
   */
  lemma {:induction false} FinishedRecoveryReopens(
    cfg: Settings, base: Store, b: Book, fetch: Key -> Option<seq<Candle>>, now: int)
    requires Sound(cfg, b) && Durable(cfg, base, b) && b.recovery == RecoveryOutstanding
    ensures var next := Reconcile(cfg, b, fetch, now);
            && next.recovery == (if AllAnswered(fetch, b.open) && next.account.equity > 0.0
                                 then RecoveryComplete else RecoveryFailed)
            && (next.recovery == RecoveryComplete ==> forall p :: p in next.open ==> p.status == Open)
  {
    assert forall p :: p in b.open ==> Listing(b.open, p.id);
    RecoverAllReopens(cfg, base, b, b.open, fetch, now);
  }
}
