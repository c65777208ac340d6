/**
 * Recovery closes each missed position exactly once, however often it is interrupted: what
 * the stored rows still owe is conserved by every transaction of every attempt.
 */
module Recovery {
  import opened Common
  import opened Tables
  import opened Configuration
  import opened Market
  import opened Ledger
  import opened LedgerInvariants
  import opened Durability
  import opened Session

  // ---------------------------------------------------------------------
  // What becomes of a stored position
  // ---------------------------------------------------------------------

  /** The first candle that reaches a level decides. */
  function FirstExit(t: Terms, cs: seq<Candle>): Option<Exit> {
    if |cs| == 0 then None
    else if ExitOf(t, cs[0]).Some? then ExitOf(t, cs[0])
    else FirstExit(t, cs[1..])
  }

  function HistoryKey(p: Position): Key {
    Key(p.id.symbol, p.id.timeframe)
  }

  /** The exit that replaying the missed candles gives to a stored position. */
  function Fate(fetch: Key -> Option<seq<Candle>>, p: Position): Option<Exit> {
    match fetch(HistoryKey(p))
    case None => None
    case Some(cs) => FirstExit(p.terms, Missed(p, cs))
  }

  /** A trade without the time at which the recovery happened to run. */
  function Untimed(t: Trade): Trade {
    t.(closedAt := 0)
  }

  function UntimedAll(ts: seq<Trade>): (r: seq<Trade>)
    ensures |r| == |ts| && forall i :: 0 <= i < |ts| ==> r[i] == Untimed(ts[i])
  {
    seq(|ts|, i requires 0 <= i < |ts| => Untimed(ts[i]))
  }

  /** The positions that no missed candle closes. */
  ghost function Surviving(fetch: Key -> Option<seq<Candle>>, ps: seq<Position>): multiset<Position> {
    if |ps| == 0 then multiset{}
    else
      var p := ps[|ps| - 1];
      Surviving(fetch, ps[..|ps| - 1]) + (if Fate(fetch, p).None? then multiset{p} else multiset{})
  }

  ghost function DueTrade(cfg: Settings, fetch: Key -> Option<seq<Candle>>, p: Position): multiset<Trade> {
    match Fate(fetch, p)
    case Some(e) => multiset{Untimed(CloseTrade(cfg, p, e, 0))}
    case None => multiset{}
  }

  /** The trades that the stored positions still owe. */
  ghost function Due(cfg: Settings, fetch: Key -> Option<seq<Candle>>, ps: seq<Position>): multiset<Trade> {
    if |ps| == 0 then multiset{}
    else Due(cfg, fetch, ps[..|ps| - 1]) + DueTrade(cfg, fetch, ps[|ps| - 1])
  }

  /** Where a store ends up: its surviving positions, and its trades done and due. */
  datatype Destiny = Destiny(starting: real, positions: multiset<Position>, trades: multiset<Trade>)

  ghost function DestinyOf(cfg: Settings, fetch: Key -> Option<seq<Candle>>, s: Store): Destiny
    requires s.account.Some?
  {
    Destiny(s.account.value.starting, Surviving(fetch, s.positions),
            multiset(UntimedAll(s.trades)) + Due(cfg, fetch, s.positions))
  }

  // ---------------------------------------------------------------------
  // The owed part of a changed table
  // ---------------------------------------------------------------------

  lemma {:induction false} OwedConcat(
    cfg: Settings, fetch: Key -> Option<seq<Candle>>, ps: seq<Position>, qs: seq<Position>)
    ensures Surviving(fetch, ps + qs) == Surviving(fetch, ps) + Surviving(fetch, qs)
    ensures Due(cfg, fetch, ps + qs) == Due(cfg, fetch, ps) + Due(cfg, fetch, qs)
  {
    if |qs| == 0 {
      assert ps + qs == ps;
    } else {
      var front := qs[..|qs| - 1];
      assert (ps + qs)[..|ps + qs| - 1] == ps + front;
      OwedConcat(cfg, fetch, ps, front);
    }
  }

  lemma {:induction false} OwedByOne(cfg: Settings, fetch: Key -> Option<seq<Candle>>, p: Position)
    ensures Surviving(fetch, [p]) == (if Fate(fetch, p).None? then multiset{p} else multiset{})
    ensures Due(cfg, fetch, [p]) == DueTrade(cfg, fetch, p)
  {
    assert [p][..0] == [];
  }

  lemma {:induction false} OwedAround(
    cfg: Settings, fetch: Key -> Option<seq<Candle>>, before: seq<Position>, p: Position, after: seq<Position>)
    ensures Surviving(fetch, before + [p] + after) == Surviving(fetch, before + after) + Surviving(fetch, [p])
    ensures Due(cfg, fetch, before + [p] + after) == Due(cfg, fetch, before + after) + DueTrade(cfg, fetch, p)
  {
    OwedConcat(cfg, fetch, before + [p], after);
    OwedConcat(cfg, fetch, before, [p]);
    OwedConcat(cfg, fetch, before, after);
    OwedByOne(cfg, fetch, p);
  }

  lemma {:induction false} OwedInAnyOrder(
    cfg: Settings, fetch: Key -> Option<seq<Candle>>, ps: seq<Position>, qs: seq<Position>)
    requires multiset(ps) == multiset(qs)
    ensures Surviving(fetch, ps) == Surviving(fetch, qs) && Due(cfg, fetch, ps) == Due(cfg, fetch, qs)
  {
    assert |multiset(ps)| == |ps| && |multiset(qs)| == |qs|;
    if |ps| != 0 {
      var i := SplitPermutation(ps, qs);
      var p, before, after := qs[i], qs[..i], qs[i + 1..];
      OwedInAnyOrder(cfg, fetch, ps[..|ps| - 1], before + after);
      OwedAround(cfg, fetch, before, p, after);
      OwedByOne(cfg, fetch, p);
    }
  }

  lemma {:induction false} UntimedAppend(ts: seq<Trade>, t: Trade)
    ensures multiset(UntimedAll(ts + [t])) == multiset(UntimedAll(ts)) + multiset{Untimed(t)}
  {
    assert UntimedAll(ts + [t]) == UntimedAll(ts) + [Untimed(t)];
  }

  lemma {:induction false} UntimedAround(before: seq<Trade>, t: Trade, after: seq<Trade>)
    ensures multiset(UntimedAll(before + [t] + after)) == multiset(UntimedAll(before + after)) + multiset{Untimed(t)}
  {
    assert UntimedAll(before + [t] + after) == UntimedAll(before) + [Untimed(t)] + UntimedAll(after);
    assert UntimedAll(before + after) == UntimedAll(before) + UntimedAll(after);
  }

  lemma {:induction false} UntimedInAnyOrder(ts: seq<Trade>, us: seq<Trade>)
    requires multiset(ts) == multiset(us)
    ensures multiset(UntimedAll(ts)) == multiset(UntimedAll(us))
  {
    assert |multiset(ts)| == |ts| && |multiset(us)| == |us|;
    if |ts| != 0 {
      var i := SplitPermutation(ts, us);
      var front, before, after := ts[..|ts| - 1], us[..i], us[i + 1..];
      UntimedInAnyOrder(front, before + after);
      assert ts == front + [us[i]];
      UntimedAppend(front, us[i]);
      UntimedAround(before, us[i], after);
    }
  }

  lemma {:induction false} DestinyInAnyOrder(cfg: Settings, fetch: Key -> Option<seq<Candle>>, s: Store, listing: Store)
    requires s.account.Some? && SameStore(s, listing)
    ensures DestinyOf(cfg, fetch, listing) == DestinyOf(cfg, fetch, s)
  {
    OwedInAnyOrder(cfg, fetch, s.positions, listing.positions);
    UntimedInAnyOrder(s.trades, listing.trades);
  }

  lemma {:induction false} OwedAfterDrop(
    cfg: Settings, fetch: Key -> Option<seq<Candle>>, rows: seq<Position>, row: Position)
    requires Distinct(PositionKey, rows) && row in rows && Fate(fetch, row).Some?
    ensures Surviving(fetch, Drop(PositionKey, rows, row.id)) == Surviving(fetch, rows)
    ensures Due(cfg, fetch, rows) ==
            Due(cfg, fetch, Drop(PositionKey, rows, row.id))
              + multiset{Untimed(CloseTrade(cfg, row, Fate(fetch, row).value, 0))}
  {
    var i :| 0 <= i < |rows| && rows[i] == row;
    FindIs(PositionKey, rows, i);
    var before, after := rows[..i], rows[i + 1..];
    assert rows == before + [row] + after;
    OwedAround(cfg, fetch, before, row, after);
    OwedByOne(cfg, fetch, row);
  }

  /** The close of a doomed row moves one trade from due to done. */
  lemma {:induction false} ClosingKeepsDestiny(
    cfg: Settings, fetch: Key -> Option<seq<Candle>>, s: Store, row: Position, a: Account, t: Trade)
    requires s.account.Some? && a.starting == s.account.value.starting
    requires Distinct(PositionKey, s.positions) && row in s.positions && t.id == row.id
    requires !Has(TradeKey, s.trades, t.id)
    requires Fate(fetch, row).Some? && Untimed(t) == Untimed(CloseTrade(cfg, row, Fate(fetch, row).value, 0))
    ensures DestinyOf(cfg, fetch, Apply(s, PersistClose(a, t))) == DestinyOf(cfg, fetch, s)
  {
    OwedAfterDrop(cfg, fetch, s.positions, row);
    UntimedAppend(s.trades, t);
    var rest := Drop(PositionKey, s.positions, row.id);
    MovedAcross(multiset(UntimedAll(s.trades)), multiset(UntimedAll(s.trades + [t])),
                Due(cfg, fetch, s.positions), Due(cfg, fetch, rest), Untimed(t));
  }

  lemma {:induction false} MovedAcross(
    done: multiset<Trade>, done': multiset<Trade>, due: multiset<Trade>, due': multiset<Trade>, t: Trade)
    requires done' == done + multiset{t} && due == due' + multiset{t}
    ensures done' + due' == done + due
  {
  }

  // ---------------------------------------------------------------------
  // What one position's replay writes
  // ---------------------------------------------------------------------

  lemma {:induction false} GoneStaysGone(cfg: Settings, b: Book, id: PlanId, cs: seq<Candle>, now: int)
    requires Find(PositionKey, b.open, id) == |b.open|
    ensures RecoverCandles(cfg, b, id, cs, now) == b
    decreases |cs|
  {
    if |cs| > 0 {
      GoneStaysGone(cfg, b, id, cs[1..], now);
    }
  }

  /** A close depends on the position only through what never changes. */
  lemma {:induction false} CloseDependsOnCore(cfg: Settings, p: Position, q: Position, e: Exit, now: int, then': int)
    requires Core(p) == Core(q)
    ensures CloseTrade(cfg, p, e, now) == CloseTrade(cfg, q, e, now)
    ensures Untimed(CloseTrade(cfg, p, e, now)) == Untimed(CloseTrade(cfg, q, e, then'))
  {
    assert p.id == Core(p).id && q.id == Core(q).id && p.terms == Core(p).terms && q.terms == Core(q).terms;
    assert p.openedAt == Core(p).openedAt && q.openedAt == Core(q).openedAt;
    assert p.signalTime == Core(p).signalTime && q.signalTime == Core(q).signalTime;
  }

  /** How a replay ends: nothing written, or one close of the given position. */
  ghost predicate Replayed(cfg: Settings, b: Book, next: Book, p: Position, exit: Option<Exit>, now: int) {
    match exit
    case None => next.txns == b.txns && next.history == b.history
    case Some(e) =>
      && next.history == b.history + [CloseTrade(cfg, p, e, now)]
      && |next.txns| == |b.txns| + 1 && next.txns[..|b.txns|] == b.txns
      && next.txns[|b.txns|].PersistClose?
      && next.txns[|b.txns|].trade == CloseTrade(cfg, p, e, now)
      && next.txns[|b.txns|].account.starting == b.account.starting
  }

  lemma {:induction false} OneCandleReplay(cfg: Settings, b: Book, p: Position, c: Candle, now: int)
    requires Sound(cfg, b) && p in b.open
    ensures var next := RecoverCandle(cfg, b, p.id, c, now);
            && Replayed(cfg, b, next, p, ExitOf(p.terms, c), now)
            && next.account.starting == b.account.starting
            && (ExitOf(p.terms, c).Some? ==> Find(PositionKey, next.open, p.id) == |next.open|)
            && (ExitOf(p.terms, c).None? ==> Marked(cfg, p, c) in next.open)
            && (forall q :: q in b.open && q.id != p.id ==> q in next.open)
  {
    var i :| 0 <= i < |b.open| && b.open[i] == p;
    FindIs(PositionKey, b.open, i);
    DropRemoves(PositionKey, b.open, p.id);
    PutKeepsDistinct(PositionKey, b.open, Marked(cfg, p, c));
  }

  lemma {:induction false} CandlesReplay(cfg: Settings, base: Store, b: Book, p: Position, cs: seq<Candle>, now: int)
    requires Sound(cfg, b) && Durable(cfg, base, b) && p in b.open
    ensures var next := RecoverCandles(cfg, b, p.id, cs, now);
            && Replayed(cfg, b, next, p, FirstExit(p.terms, cs), now)
            && next.account.starting == b.account.starting
            && (forall q :: q in b.open && q.id != p.id ==> q in next.open)
    decreases |cs|
  {
    if |cs| > 0 {
      OneCandleReplay(cfg, b, p, cs[0], now);
      RecoverCandleIsDurable(cfg, base, b, p.id, cs[0], now);
      var next := RecoverCandle(cfg, b, p.id, cs[0], now);
      if ExitOf(p.terms, cs[0]).Some? {
        GoneStaysGone(cfg, next, p.id, cs[1..], now);
      } else {
        var q := Marked(cfg, p, cs[0]);
        CandlesReplay(cfg, base, next, q, cs[1..], now);
        var exit := FirstExit(p.terms, cs[1..]);
        if exit.Some? {
          CloseDependsOnCore(cfg, p, q, exit.value, now, now);
        }
      }
    }
  }

  // ---------------------------------------------------------------------
  // One attempt
  // ---------------------------------------------------------------------

  ghost predicate KeepsDestiny(cfg: Settings, fetch: Key -> Option<seq<Candle>>, base: Store, s: Store)
    requires base.account.Some?
  {
    s.account.Some? && DestinyOf(cfg, fetch, s) == DestinyOf(cfg, fetch, base)
  }

  /** Every prefix of the writes keeps the destiny, and the rows left are rows that were loaded. */
  ghost predicate Conserves(cfg: Settings, fetch: Key -> Option<seq<Candle>>, base: Store, b: Book) {
    && base.account.Some? && b.account.starting == base.account.value.starting
    && (forall k :: 0 <= k <= |b.txns| ==> KeepsDestiny(cfg, fetch, base, ApplyAll(base, b.txns[..k])))
    && (forall row :: row in ApplyAll(base, b.txns).positions ==> row in base.positions)
  }

  /** The positions waiting for their turn are the loaded rows, not yet touched. */
  ghost predicate Loaded(base: Store, b: Book, ps: seq<Position>) {
    && Listed(b, ps)
    && forall p :: p in ps ==> exists row :: row in base.positions && p == row.(status := RecoveryPending)
  }

  lemma {:induction false} RowBehind(cfg: Settings, base: Store, b: Book, p: Position) returns (row: Position)
    requires Sound(cfg, b) && Durable(cfg, base, b) && p in b.open
    ensures row in ApplyAll(base, b.txns).positions && Core(row) == Core(p) && row.id == p.id
  {
    var i :| 0 <= i < |b.open| && b.open[i] == p;
    row := ApplyAll(base, b.txns).positions[i];
    assert row.id == Core(row).id == p.id;
  }

  lemma {:induction false} SameRowSameId(rows: seq<Position>, p: Position, q: Position)
    requires Distinct(PositionKey, rows) && p in rows && q in rows && p.id == q.id
    ensures p == q
  {
    var i :| 0 <= i < |rows| && rows[i] == p;
    var j :| 0 <= j < |rows| && rows[j] == q;
    assert i != j ==> PositionKey(rows[i]) != PositionKey(rows[j]);
  }

  lemma {:induction false} DestinyOneMore(
    cfg: Settings, fetch: Key -> Option<seq<Candle>>, base: Store, ts: seq<Txn>, t: Txn)
    requires base.account.Some?
    requires forall k :: 0 <= k <= |ts| ==> KeepsDestiny(cfg, fetch, base, ApplyAll(base, ts[..k]))
    requires KeepsDestiny(cfg, fetch, base, ApplyAll(base, ts + [t]))
    ensures forall k :: 0 <= k <= |ts + [t]| ==> KeepsDestiny(cfg, fetch, base, ApplyAll(base, (ts + [t])[..k]))
  {
    var longer := ts + [t];
    forall k | 0 <= k <= |longer| ensures KeepsDestiny(cfg, fetch, base, ApplyAll(base, longer[..k])) {
      assert longer[..k] == if k <= |ts| then ts[..k] else longer;
    }
  }

  lemma {:induction false} AppendedPrefixes(
    cfg: Settings, fetch: Key -> Option<seq<Candle>>, base: Store, b: Book, next: Book, t: Txn)
    requires Conserves(cfg, fetch, base, b) && next.txns == b.txns + [t]
    requires next.account.starting == b.account.starting
    requires KeepsDestiny(cfg, fetch, base, Apply(ApplyAll(base, b.txns), t))
    requires forall row :: row in Apply(ApplyAll(base, b.txns), t).positions ==> row in ApplyAll(base, b.txns).positions
    ensures Conserves(cfg, fetch, base, next)
  {
    ApplyOneMore(base, b.txns, t);
    DestinyOneMore(cfg, fetch, base, b.txns, t);
  }

  lemma {:induction false} LatestDestiny(cfg: Settings, fetch: Key -> Option<seq<Candle>>, base: Store, b: Book)
    requires Conserves(cfg, fetch, base, b)
    ensures KeepsDestiny(cfg, fetch, base, ApplyAll(base, b.txns))
    ensures ApplyAll(base, b.txns).account.value.starting == base.account.value.starting
  {
    assert b.txns[..|b.txns|] == b.txns;
  }

  lemma {:induction false} NotTradedYet(cfg: Settings, s: Store, b: Book, p: Position)
    requires Sound(cfg, b) && InStep(s, b) && p in b.open
    ensures !Has(TradeKey, s.trades, p.id)
  {
    assert forall x :: x in s.trades ==> x.id != p.id;
    HasMeansSome(TradeKey, s.trades, p.id);
  }

  /** Writing the close that a stored row was destined for conserves the destiny. */
  lemma {:induction false} DestinedCloseConserves(
    cfg: Settings, fetch: Key -> Option<seq<Candle>>, base: Store, b: Book, next: Book, row: Position, t: Trade,
    a: Account)
    requires Conserves(cfg, fetch, base, b) && a.starting == b.account.starting == next.account.starting
    requires next.txns == b.txns + [PersistClose(a, t)]
    requires var s := ApplyAll(base, b.txns);
             Distinct(PositionKey, s.positions) && row in s.positions && !Has(TradeKey, s.trades, row.id)
    requires t.id == row.id && Fate(fetch, row).Some?
    requires Untimed(t) == Untimed(CloseTrade(cfg, row, Fate(fetch, row).value, 0))
    ensures Conserves(cfg, fetch, base, next)
  {
    var s := ApplyAll(base, b.txns);
    LatestDestiny(cfg, fetch, base, b);
    ClosingKeepsDestiny(cfg, fetch, s, row, a, t);
    DropRemoves(PositionKey, s.positions, row.id);
    AppendedPrefixes(cfg, fetch, base, b, next, PersistClose(a, t));
  }

  /** The stored row behind a loaded position is the row it was loaded from. */
  lemma {:induction false} StoredRow(
    cfg: Settings, fetch: Key -> Option<seq<Candle>>, base: Store, b: Book, p: Position, row: Position)
    requires Sound(cfg, b) && Durable(cfg, base, b) && Conserves(cfg, fetch, base, b)
    requires p in b.open && row in base.positions && p.id == row.id && Distinct(PositionKey, base.positions)
    ensures var s := ApplyAll(base, b.txns);
            row in s.positions && Distinct(PositionKey, s.positions) && !Has(TradeKey, s.trades, row.id)
  {
    var s := ApplyAll(base, b.txns);
    var stored := RowBehind(cfg, base, b, p);
    SameRowSameId(base.positions, stored, row);
    InStepIsConsistent(cfg, s, b);
    NotTradedYet(cfg, s, b, p);
  }

  /** One close written in memory of a position whose stored row is destined to be closed that way. */
  lemma {:induction false} WrittenCloseConserves(
    cfg: Settings, fetch: Key -> Option<seq<Candle>>, base: Store, b: Book, next: Book, p: Position, row: Position,
    e: Exit, now: int)
    requires Sound(cfg, b) && Durable(cfg, base, b) && Conserves(cfg, fetch, base, b)
    requires p in b.open && row in base.positions && p == row.(status := RecoveryPending)
    requires Distinct(PositionKey, base.positions) && Fate(fetch, row) == Some(e)
    requires Replayed(cfg, b, next, p, Some(e), now) && next.account.starting == b.account.starting
    ensures Conserves(cfg, fetch, base, next)
  {
    var written := next.txns[|b.txns|];
    assert next.txns == b.txns + [written];
    CloseDependsOnCore(cfg, p, row, e, now, 0);
    StoredRow(cfg, fetch, base, b, p, row);
    DestinedCloseConserves(cfg, fetch, base, b, next, row, written.trade, written.account);
  }

  lemma {:induction false} PositionReplayConserves(
    cfg: Settings, fetch: Key -> Option<seq<Candle>>, base: Store, b: Book, p: Position, row: Position,
    cs: seq<Candle>, now: int)
    requires Sound(cfg, b) && Durable(cfg, base, b) && Conserves(cfg, fetch, base, b)
    requires p in b.open && row in base.positions && p == row.(status := RecoveryPending)
    requires Distinct(PositionKey, base.positions)
    requires fetch(HistoryKey(p)) == Some(cs)
    ensures Conserves(cfg, fetch, base, RecoverCandles(cfg, b, p.id, Missed(p, cs), now))
  {
    var missed := Missed(p, cs);
    assert missed == Missed(row, cs) && Fate(fetch, row) == FirstExit(p.terms, missed);
    CandlesReplay(cfg, base, b, p, missed, now);
    if Fate(fetch, row).Some? {
      WrittenCloseConserves(cfg, fetch, base, b, RecoverCandles(cfg, b, p.id, missed, now), p, row,
                            Fate(fetch, row).value, now);
    }
  }

  lemma {:induction false} StatusChangeConserves(
    cfg: Settings, fetch: Key -> Option<seq<Candle>>, base: Store, b: Book, id: PlanId)
    requires Sound(cfg, b) && Conserves(cfg, fetch, base, b)
    ensures Conserves(cfg, fetch, base, MarkRecovered(b, id))
    ensures MarkRecovered(b, id).history == b.history
    ensures forall q :: q in b.open && q.id != id ==> q in MarkRecovered(b, id).open
  {
    var i := Find(PositionKey, b.open, id);
    if i < |b.open| {
      PutKeepsDistinct(PositionKey, b.open, b.open[i].(status := Open));
    }
  }

  lemma {:induction false} LoadedAfterOne(cfg: Settings, base: Store, b: Book, next: Book, ps: seq<Position>)
    requires Loaded(base, b, ps) && |ps| > 0
    requires forall q :: q in b.open && q.id != ps[0].id ==> q in next.open
    ensures Loaded(base, next, ps[1..])
  {
    forall p | p in ps[1..] ensures p.id != ps[0].id && p in ps {
      var i :| 0 < i < |ps| && ps[i] == p;
      assert PositionKey(ps[0]) != PositionKey(ps[i]);
    }
  }

  lemma {:induction false} ReplayOneConserves(
    cfg: Settings, fetch: Key -> Option<seq<Candle>>, base: Store, b: Book, p: Position, cs: seq<Candle>, now: int)
    requires Sound(cfg, b) && Durable(cfg, base, b) && Conserves(cfg, fetch, base, b)
    requires Loaded(base, b, [p]) && Distinct(PositionKey, base.positions)
    requires fetch(HistoryKey(p)) == Some(cs)
    ensures var next := RecoverCandles(cfg, b, p.id, Missed(p, cs), now);
            && Sound(cfg, next) && Durable(cfg, base, next) && Conserves(cfg, fetch, base, next)
            && (forall q :: q in b.open && q.id != p.id ==> q in next.open)
            && b.history <= next.history
            && (Fate(fetch, p).Some? ==> Traded(next.history, p.id))
  {
    assert p in [p];
    var row :| row in base.positions && p == row.(status := RecoveryPending);
    var missed := Missed(p, cs);
    RecoverCandlesIsDurable(cfg, base, b, p.id, missed, now);
    CandlesReplay(cfg, base, b, p, missed, now);
    PositionReplayConserves(cfg, fetch, base, b, p, row, cs, now);
    ReplayTrades(cfg, b, RecoverCandles(cfg, b, p.id, missed, now), p, FirstExit(p.terms, missed), now);
  }

  /** One position of the list: what it owes is written, and the others wait undisturbed. */
  lemma {:induction false} OnePositionConserves(
    cfg: Settings, fetch: Key -> Option<seq<Candle>>, base: Store, b: Book, ps: seq<Position>,
    cs: seq<Candle>, now: int)
    requires Sound(cfg, b) && Durable(cfg, base, b) && Conserves(cfg, fetch, base, b)
    requires |ps| > 0 && Loaded(base, b, ps) && Distinct(PositionKey, base.positions)
    requires fetch(HistoryKey(ps[0])) == Some(cs)
    ensures var next := RecoverPosition(cfg, b, ps[0], cs, now);
            && Sound(cfg, next) && Durable(cfg, base, next) && Conserves(cfg, fetch, base, next)
            && Loaded(base, next, ps[1..])
            && b.history <= next.history
            && (Fate(fetch, ps[0]).Some? ==> Traded(next.history, ps[0].id))
  {
    var p := ps[0];
    assert p in ps;
    ReplayOneConserves(cfg, fetch, base, b, p, cs, now);
    var replayed := RecoverCandles(cfg, b, p.id, Missed(p, cs), now);
    MarkRecoveredIsDurable(cfg, base, replayed, p.id);
    StatusChangeConserves(cfg, fetch, base, replayed, p.id);
    LoadedAfterOne(cfg, base, b, MarkRecovered(replayed, p.id), ps);
  }

  lemma {:induction false} ReplayTrades(cfg: Settings, b: Book, next: Book, p: Position, exit: Option<Exit>, now: int)
    requires Replayed(cfg, b, next, p, exit, now)
    ensures b.history <= next.history && (exit.Some? ==> Traded(next.history, p.id))
  {
    if exit.Some? {
      assert next.history[|b.history|] == CloseTrade(cfg, p, exit.value, now);
    }
  }

  ghost predicate Answered(fetch: Key -> Option<seq<Candle>>, ps: seq<Position>) {
    forall p :: p in ps ==> fetch(HistoryKey(p)).Some?
  }

  ghost predicate Traded(history: seq<Trade>, id: PlanId) {
    exists t :: t in history && t.id == id
  }

  /** Every listed position that a missed candle closes has been traded. */
  ghost predicate Settled(fetch: Key -> Option<seq<Candle>>, ps: seq<Position>, history: seq<Trade>) {
    forall p :: p in ps && Fate(fetch, p).Some? ==> Traded(history, p.id)
  }

  lemma {:induction false} SettledOneMore(
    fetch: Key -> Option<seq<Candle>>, ps: seq<Position>, history: seq<Trade>, later: seq<Trade>)
    requires |ps| > 0 && Settled(fetch, ps[1..], later) && history <= later
    requires Fate(fetch, ps[0]).Some? ==> Traded(history, ps[0].id)
    ensures Settled(fetch, ps, later)
  {
    if Fate(fetch, ps[0]).Some? {
      var t :| t in history && t.id == ps[0].id;
      assert t in later;
    }
    forall p | p in ps && Fate(fetch, p).Some? ensures Traded(later, p.id) {
      if p != ps[0] {
        assert p in ps[1..];
      }
    }
  }

  lemma {:induction false} RecoverAllConserves(
    cfg: Settings, fetch: Key -> Option<seq<Candle>>, base: Store, b: Book, ps: seq<Position>, now: int)
    requires Sound(cfg, b) && Durable(cfg, base, b) && Conserves(cfg, fetch, base, b)
    requires Loaded(base, b, ps) && Distinct(PositionKey, base.positions)
    ensures var (next, ok) := RecoverAll(cfg, b, ps, fetch, now);
            && Conserves(cfg, fetch, base, next)
            && b.history <= next.history
            && (Answered(fetch, ps) ==> ok)
            && (ok ==> Settled(fetch, ps, next.history))
    decreases |ps|
  {
    if |ps| > 0 {
      var answer := fetch(HistoryKey(ps[0]));
      assert ps[0] in ps;
      if answer.Some? {
        var next := RecoverPosition(cfg, b, ps[0], answer.value, now);
        OnePositionConserves(cfg, fetch, base, b, ps, answer.value, now);
        RecoverAllConserves(cfg, fetch, base, next, ps[1..], now);
        var (final, ok) := RecoverAll(cfg, next, ps[1..], fetch, now);
        if ok {
          SettledOneMore(fetch, ps, next.history, final.history);
        }
      }
    }
  }

  ghost function Attempt(cfg: Settings, fetch: Key -> Option<seq<Candle>>, listing: Store, now: int): Book {
    Reconcile(cfg, Startup(cfg, listing, now).book, fetch, now)
  }

  lemma {:induction false} NothingWrittenConserves(
    cfg: Settings, fetch: Key -> Option<seq<Candle>>, base: Store, b: Book)
    requires base.account.Some? && b.account.starting == base.account.value.starting && b.txns == []
    ensures Conserves(cfg, fetch, base, b)
  {
    assert b.txns[..0] == [];
  }

  lemma {:induction false} AwaitingIsLoaded(base: Store, b: Book)
    requires b.open == Awaiting(base.positions) && Distinct(PositionKey, b.open)
    ensures Loaded(base, b, b.open)
  {
    forall p | p in b.open
      ensures exists row :: row in base.positions && p == row.(status := RecoveryPending)
    {
      var i :| 0 <= i < |b.open| && b.open[i] == p;
      assert base.positions[i] in base.positions;
    }
  }

  lemma {:induction false} FreshStartConserves(
    cfg: Settings, fetch: Key -> Option<seq<Candle>>, listing: Store, now: int)
    requires Consistent(cfg, listing) && listing.account.Some?
    ensures var b := Startup(cfg, listing, now).book;
            && Sound(cfg, b) && Durable(cfg, listing, b) && Conserves(cfg, fetch, listing, b)
            && b.open == Awaiting(listing.positions) && Loaded(listing, b, b.open) && b.txns == []
            && (b.recovery.RecoveryOutstanding? <==> listing.positions != [])
  {
    StartupIsSound(cfg, listing, now);
    var b := Startup(cfg, listing, now).book;
    NothingWrittenConserves(cfg, fetch, listing, b);
    AwaitingIsLoaded(listing, b);
  }

  /** An interrupted attempt, at whatever write it stops, leaves the destiny of the store as it was. */
  lemma {:induction false} AttemptConserves(
    cfg: Settings, fetch: Key -> Option<seq<Candle>>, listing: Store, now: int, k: nat)
    requires Consistent(cfg, listing) && listing.account.Some?
    requires k <= |Attempt(cfg, fetch, listing, now).txns|
    ensures var s := ApplyAll(listing, Attempt(cfg, fetch, listing, now).txns[..k]);
            && Consistent(cfg, s) && s.account.Some?
            && DestinyOf(cfg, fetch, s) == DestinyOf(cfg, fetch, listing)
  {
    FreshStartConserves(cfg, fetch, listing, now);
    var b := Startup(cfg, listing, now).book;
    ReconcileIsDurable(cfg, listing, b, fetch, now);
    ReconcileConserves(cfg, fetch, listing, b, now);
    assert KeepsDestiny(cfg, fetch, listing, ApplyAll(listing, Attempt(cfg, fetch, listing, now).txns[..k]));
  }

  lemma {:induction false} CompletionConserves(cfg: Settings, fetch: Key -> Option<seq<Candle>>, base: Store, b: Book)
    requires Conserves(cfg, fetch, base, b)
    ensures Conserves(cfg, fetch, base, Completed(b))
  {
    LatestDestiny(cfg, fetch, base, b);
    AppendedPrefixes(cfg, fetch, base, b, Completed(b), PersistAccount(b.account));
  }

  lemma {:induction false} ReconcileConserves(
    cfg: Settings, fetch: Key -> Option<seq<Candle>>, base: Store, b: Book, now: int)
    requires Sound(cfg, b) && Durable(cfg, base, b) && Conserves(cfg, fetch, base, b)
    requires Loaded(base, b, b.open) && Distinct(PositionKey, base.positions)
    ensures var next := Reconcile(cfg, b, fetch, now);
            && Conserves(cfg, fetch, base, next)
            && (b.recovery.RecoveryOutstanding? && Answered(fetch, b.open) ==> Settled(fetch, b.open, next.history))
  {
    if b.recovery.RecoveryOutstanding? {
      RecoverAllConserves(cfg, fetch, base, b, b.open, now);
      var (done, ok) := RecoverAll(cfg, b, b.open, fetch, now);
      if ok {
        CompletionConserves(cfg, fetch, base, done);
      } else {
        FailureConserves(cfg, fetch, base, done);
      }
    }
  }

  lemma {:induction false} FailureConserves(cfg: Settings, fetch: Key -> Option<seq<Candle>>, base: Store, b: Book)
    requires Conserves(cfg, fetch, base, b)
    ensures Conserves(cfg, fetch, base, b.(recovery := RecoveryFailed))
  {
  }

  lemma {:induction false} FateIgnoresStatus(fetch: Key -> Option<seq<Candle>>, row: Position)
    ensures Fate(fetch, row.(status := RecoveryPending)) == Fate(fetch, row)
  {
    var p := row.(status := RecoveryPending);
    var answer := fetch(HistoryKey(row));
    if answer.Some? {
      assert Missed(p, answer.value) == Missed(row, answer.value);
    }
  }

  lemma {:induction false} SettledRowsAreGone(
    fetch: Key -> Option<seq<Candle>>, rows: seq<Position>, left: seq<Position>, trades: seq<Trade>)
    requires Settled(fetch, Awaiting(rows), trades) && Disjoint(left, trades)
    requires forall row :: row in left ==> row in rows
    ensures forall row :: row in left ==> Fate(fetch, row).None?
  {
    forall row | row in left ensures Fate(fetch, row).None? {
      var i :| 0 <= i < |rows| && rows[i] == row;
      FateIgnoresStatus(fetch, row);
      assert Awaiting(rows)[i] in Awaiting(rows);
    }
  }

  lemma {:induction false} AwaitingIsAnswered(fetch: Key -> Option<seq<Candle>>, rows: seq<Position>)
    requires Answered(fetch, rows)
    ensures Answered(fetch, Awaiting(rows))
  {
    forall p | p in Awaiting(rows) ensures fetch(HistoryKey(p)).Some? {
      var i :| 0 <= i < |rows| && Awaiting(rows)[i] == p;
      assert rows[i] in rows && HistoryKey(rows[i]) == HistoryKey(p);
    }
  }

  /** An attempt that gets all its candles leaves nothing owed. */
  lemma {:induction false} FinishedOwesNothing(
    cfg: Settings, fetch: Key -> Option<seq<Candle>>, listing: Store, now: int)
    requires Consistent(cfg, listing) && listing.account.Some? && Answered(fetch, listing.positions)
    ensures var s := ApplyAll(listing, Attempt(cfg, fetch, listing, now).txns);
            forall row :: row in s.positions ==> Fate(fetch, row).None?
  {
    FreshStartConserves(cfg, fetch, listing, now);
    AwaitingIsAnswered(fetch, listing.positions);
    var b := Startup(cfg, listing, now).book;
    ReconcileIsDurable(cfg, listing, b, fetch, now);
    ReconcileConserves(cfg, fetch, listing, b, now);
    var final := Reconcile(cfg, b, fetch, now);
    var s := ApplyAll(listing, final.txns);
    if listing.positions != [] {
      InStepIsConsistent(cfg, s, final);
      SettledRowsAreGone(fetch, listing.positions, s.positions, final.history);
    }
  }

  // ---------------------------------------------------------------------
  // Any number of interruptions
  // ---------------------------------------------------------------------

  datatype Interruption = Interruption(listing: Store, survived: nat, now: int)

  /** Attempts that crash one after the other, each restarting from the rows the last one left. */
  ghost predicate Interrupted(
    cfg: Settings, fetch: Key -> Option<seq<Candle>>, s: Store, crashes: seq<Interruption>, last: Store)
    decreases |crashes|
  {
    if |crashes| == 0 then last == s
    else
      var c := crashes[0];
      && SameStore(s, c.listing)
      && c.survived <= |Attempt(cfg, fetch, c.listing, c.now).txns|
      && Interrupted(cfg, fetch, ApplyAll(c.listing, Attempt(cfg, fetch, c.listing, c.now).txns[..c.survived]),
                     crashes[1..], last)
  }

  lemma {:induction false} InterruptionsConserve(
    cfg: Settings, fetch: Key -> Option<seq<Candle>>, s: Store, crashes: seq<Interruption>, last: Store)
    requires Consistent(cfg, s) && s.account.Some? && Interrupted(cfg, fetch, s, crashes, last)
    ensures Consistent(cfg, last) && last.account.Some?
    ensures DestinyOf(cfg, fetch, last) == DestinyOf(cfg, fetch, s)
    decreases |crashes|
  {
    if |crashes| > 0 {
      var c := crashes[0];
      ConsistentInAnyOrder(cfg, s, c.listing);
      DestinyInAnyOrder(cfg, fetch, s, c.listing);
      AttemptConserves(cfg, fetch, c.listing, c.now, c.survived);
      InterruptionsConserve(cfg, fetch, ApplyAll(c.listing, Attempt(cfg, fetch, c.listing, c.now).txns[..c.survived]),
                            crashes[1..], last);
    }
  }

  lemma {:induction false} NothingOwed(cfg: Settings, fetch: Key -> Option<seq<Candle>>, ps: seq<Position>)
    requires forall p :: p in ps ==> Fate(fetch, p).None?
    ensures Surviving(fetch, ps) == multiset(ps) && Due(cfg, fetch, ps) == multiset{}
  {
    if |ps| > 0 {
      NothingOwed(cfg, fetch, ps[..|ps| - 1]);
      assert ps == ps[..|ps| - 1] + [ps[|ps| - 1]];
      assert ps[|ps| - 1] in ps;
    }
  }

  /** The store after some interruptions and then one recovery that runs to its end. */
  ghost predicate RecoveredTo(
    cfg: Settings, fetch: Key -> Option<seq<Candle>>, s: Store, crashes: seq<Interruption>,
    listing: Store, now: int, final: Store)
  {
    && (exists last :: Interrupted(cfg, fetch, s, crashes, last) && SameStore(last, listing))
    && Answered(fetch, listing.positions)
    && final == ApplyAll(listing, Attempt(cfg, fetch, listing, now).txns)
  }

  lemma {:induction false} RecoveredToDestiny(
    cfg: Settings, fetch: Key -> Option<seq<Candle>>, s: Store, crashes: seq<Interruption>,
    listing: Store, now: int, final: Store)
    requires Consistent(cfg, s) && s.account.Some? && RecoveredTo(cfg, fetch, s, crashes, listing, now, final)
    ensures Consistent(cfg, final) && final.account.Some?
    ensures Destiny(final.account.value.starting, multiset(final.positions), multiset(UntimedAll(final.trades)))
            == DestinyOf(cfg, fetch, s)
  {
    var last :| Interrupted(cfg, fetch, s, crashes, last) && SameStore(last, listing);
    InterruptionsConserve(cfg, fetch, s, crashes, last);
    ConsistentInAnyOrder(cfg, last, listing);
    DestinyInAnyOrder(cfg, fetch, last, listing);
    var txns := Attempt(cfg, fetch, listing, now).txns;
    AttemptConserves(cfg, fetch, listing, now, |txns|);
    assert txns[..|txns|] == txns;
    FinishedOwesNothing(cfg, fetch, listing, now);
    NothingOwed(cfg, fetch, final.positions);
  }

  lemma {:induction false} CashIsDetermined(cfg: Settings, s: Store, u: Store)
    requires Consistent(cfg, s) && Consistent(cfg, u) && s.account.Some? && u.account.Some?
    requires s.account.value.starting == u.account.value.starting
    requires multiset(s.positions) == multiset(u.positions)
    requires multiset(UntimedAll(s.trades)) == multiset(UntimedAll(u.trades))
    ensures s.account.value.cash == u.account.value.cash && s.account.value.realized == u.account.value.realized
  {
    SumPermutation(EntryFeeOf, s.positions, u.positions);
    SumPermutation(NetOf, UntimedAll(s.trades), UntimedAll(u.trades));
    SumEqual(NetOf, s.trades, UntimedAll(s.trades));
    SumEqual(NetOf, u.trades, UntimedAll(u.trades));
  }

  /**
   * Exactly once: two recoveries from the same stored rows over the same candles, each
   * interrupted anywhere and any number of times, end with the same positions, the same
   * trades up to their closing time, and the same cash.
   */
  lemma {:induction false} RecoveryIsExactlyOnce(
    cfg: Settings, fetch: Key -> Option<seq<Candle>>, s: Store,
    crashes: seq<Interruption>, listing: Store, now: int, final: Store,
    crashes': seq<Interruption>, listing': Store, now': int, final': Store)
    requires Consistent(cfg, s) && s.account.Some?
    requires RecoveredTo(cfg, fetch, s, crashes, listing, now, final)
    requires RecoveredTo(cfg, fetch, s, crashes', listing', now', final')
    ensures multiset(final.positions) == multiset(final'.positions)
    ensures multiset(UntimedAll(final.trades)) == multiset(UntimedAll(final'.trades))
    ensures final.account.Some? && final'.account.Some?
    ensures final.account.value.cash == final'.account.value.cash
    ensures final.account.value.realized == final'.account.value.realized
  {
    RecoveredToDestiny(cfg, fetch, s, crashes, listing, now, final);
    RecoveredToDestiny(cfg, fetch, s, crashes', listing', now', final');
    CashIsDetermined(cfg, final, final');
  }
}
