/**
 * Which marks a restart finds: complete candles write the positions of their symbol, forming ones
 * leave the rows of the positions they do not end as they were.
 */
module StoredMarks {
  import opened Common
  import opened Tables
  import opened Configuration
  import opened Market
  import opened Risk
  import opened Ledger
  import opened LedgerInvariants
  import opened Durability

  ghost function Rows(base: Store, b: Book): seq<Position> {
    ApplyAll(base, b.txns).positions
  }

  lemma {:induction false} RowsAreDistinct(cfg: Settings, base: Store, b: Book)
    requires Durable(cfg, base, b)
    ensures Distinct(PositionKey, Rows(base, b))
  {
    assert b.txns[..|b.txns|] == b.txns;
  }

  /** A row still has its position. */
  ghost predicate Held(open: seq<Position>, row: Position) {
    exists p :: p in open && p.id == row.id
  }

  /** Positions of the symbol are still to come, or stored as they are in memory. */
  ghost predicate Storing(open: seq<Position>, rows: seq<Position>, left: seq<Position>, symbol: string) {
    forall p :: p in open && p.id.symbol == symbol ==> p in left || p in rows
  }

  /** Rows from before are still there as long as their position is open. */
  ghost predicate Keeping(before: seq<Position>, open: seq<Position>, rows: seq<Position>) {
    forall row :: row in before && Held(open, row) ==> row in rows
  }

  // ---------------------------------------------------------------------
  // One position
  // ---------------------------------------------------------------------

  lemma {:induction false} RowsOfObserve(cfg: Settings, base: Store, b: Book, p: Position, c: Candle, now: int)
    ensures Rows(base, Observe(cfg, b, p, c, now)) ==
            if ExitOf(p.terms, c).Some? then Drop(PositionKey, Rows(base, b), p.id)
            else if c.isClosed then Put(PositionKey, Rows(base, b), Marked(cfg, p, c))
            else Rows(base, b)
  {
    var (next, t) := UpdateOrClose(cfg, b, p, c, now);
    if t.Some? {
      ApplyOneMore(base, b.txns, PersistClose(next.account, t.value));
    } else {
      ApplyOneMore(base, b.txns, PersistOpen(next.account, Marked(cfg, p, c)));
    }
  }

  lemma {:induction false} OpenAfterObserve(cfg: Settings, b: Book, p: Position, c: Candle, now: int)
    requires Sound(cfg, b) && p in b.open
    ensures forall q :: q in Observe(cfg, b, p, c, now).open ==>
              (q in b.open && q.id != p.id) || (ExitOf(p.terms, c).None? && q == Marked(cfg, p, c))
  {
    match ExitOf(p.terms, c)
    case Some(e) => CloseIsSound(cfg, b, p, e, now);
    case None => MarkIsSound(cfg, b, p, c);
  }

  lemma {:induction false} DropStores(
    open: seq<Position>, next: seq<Position>, rows: seq<Position>, ps: seq<Position>, symbol: string)
    requires |ps| > 0 && Distinct(PositionKey, rows) && Storing(open, rows, ps, symbol)
    requires forall q :: q in next ==> q in open && q.id != ps[0].id
    ensures Storing(next, Drop(PositionKey, rows, ps[0].id), ps[1..], symbol)
  {
    DropRemoves(PositionKey, rows, ps[0].id);
    assert forall p :: p in ps <==> p == ps[0] || p in ps[1..];
  }

  lemma {:induction false} PutStores(
    open: seq<Position>, next: seq<Position>, rows: seq<Position>, ps: seq<Position>, marked: Position, symbol: string)
    requires |ps| > 0 && Distinct(PositionKey, rows) && Storing(open, rows, ps, symbol) && marked.id == ps[0].id
    requires forall q :: q in next ==> (q in open && q.id != ps[0].id) || q == marked
    ensures Storing(next, Put(PositionKey, rows, marked), ps[1..], symbol)
  {
    PutKeepsDistinct(PositionKey, rows, marked);
    assert forall p :: p in ps <==> p == ps[0] || p in ps[1..];
  }

  lemma {:induction false} ObserveStores(
    cfg: Settings, base: Store, b: Book, ps: seq<Position>, c: Candle, now: int)
    requires Sound(cfg, b) && Durable(cfg, base, b) && |ps| > 0 && ps[0] in b.open && c.isClosed
    requires Storing(b.open, Rows(base, b), ps, c.symbol)
    ensures var next := Observe(cfg, b, ps[0], c, now); Storing(next.open, Rows(base, next), ps[1..], c.symbol)
  {
    RowsOfObserve(cfg, base, b, ps[0], c, now);
    OpenAfterObserve(cfg, b, ps[0], c, now);
    RowsAreDistinct(cfg, base, b);
    var next := Observe(cfg, b, ps[0], c, now);
    if ExitOf(ps[0].terms, c).Some? {
      DropStores(b.open, next.open, Rows(base, b), ps, c.symbol);
    } else {
      PutStores(b.open, next.open, Rows(base, b), ps, Marked(cfg, ps[0], c), c.symbol);
    }
  }

  lemma {:induction false} ObserveKeeps(
    cfg: Settings, base: Store, before: seq<Position>, b: Book, p: Position, c: Candle, now: int)
    requires Sound(cfg, b) && Durable(cfg, base, b) && p in b.open && Keeping(before, b.open, Rows(base, b))
    requires c.isClosed ==> forall row :: row in before ==> row.id != p.id
    ensures var next := Observe(cfg, b, p, c, now); Keeping(before, next.open, Rows(base, next))
  {
    RowsOfObserve(cfg, base, b, p, c, now);
    OpenAfterObserve(cfg, b, p, c, now);
    RowsAreDistinct(cfg, base, b);
    DropRemoves(PositionKey, Rows(base, b), p.id);
    PutKeepsDistinct(PositionKey, Rows(base, b), Marked(cfg, p, c));
    var next := Observe(cfg, b, p, c, now);
    forall row | row in before && Held(next.open, row) ensures row in Rows(base, next) {
      var q :| q in next.open && q.id == row.id;
      assert Held(b.open, row);
    }
  }

  // ---------------------------------------------------------------------
  // All positions of the symbol, then the plans that wait
  // ---------------------------------------------------------------------

  lemma {:induction false} ObserveAllStores(
    cfg: Settings, base: Store, b: Book, ps: seq<Position>, c: Candle, now: int)
    requires Sound(cfg, b) && Durable(cfg, base, b) && Listed(b, ps) && c.isClosed
    requires Storing(b.open, Rows(base, b), ps, c.symbol)
    ensures var next := ObserveAll(cfg, b, ps, c, now); Storing(next.open, Rows(base, next), [], c.symbol)
    decreases |ps|
  {
    if |ps| > 0 {
      assert ps[0] in ps;
      ObserveStores(cfg, base, b, ps, c, now);
      ObserveIsSound(cfg, b, ps[0], c, now);
      ObserveIsDurable(cfg, base, b, ps[0], c, now);
      ListedAfterOne(cfg, b, ps, c, now);
      ObserveAllStores(cfg, base, Observe(cfg, b, ps[0], c, now), ps[1..], c, now);
    }
  }

  lemma {:induction false} ObserveAllKeeps(
    cfg: Settings, base: Store, before: seq<Position>, b: Book, ps: seq<Position>, c: Candle, now: int)
    requires Sound(cfg, b) && Durable(cfg, base, b) && Listed(b, ps) && Keeping(before, b.open, Rows(base, b))
    requires c.isClosed ==> forall row, p :: row in before && p in ps ==> row.id != p.id
    ensures var next := ObserveAll(cfg, b, ps, c, now); Keeping(before, next.open, Rows(base, next))
    decreases |ps|
  {
    if |ps| > 0 {
      assert ps[0] in ps && forall p :: p in ps[1..] ==> p in ps;
      ObserveKeeps(cfg, base, before, b, ps[0], c, now);
      ObserveIsSound(cfg, b, ps[0], c, now);
      ObserveIsDurable(cfg, base, b, ps[0], c, now);
      ListedAfterOne(cfg, b, ps, c, now);
      ObserveAllKeeps(cfg, base, before, Observe(cfg, b, ps[0], c, now), ps[1..], c, now);
    }
  }

  ghost predicate NoneWaits(before: seq<Position>, waiting: seq<Pending>) {
    forall row, w :: row in before && w in waiting ==> row.id != w.id
  }

  lemma {:induction false} FillStores(
    cfg: Settings, base: Store, before: seq<Position>, b: Book, w: Pending, c: Candle, price: real, now: int,
    feed: Feed)
    requires Sound(cfg, b) && Durable(cfg, base, b) && w in b.pending && NoneWaits(before, b.pending)
    requires Keeping(before, b.open, Rows(base, b))
    ensures var next := Fill(cfg, b, w, c, price, now, feed);
            && Keeping(before, next.open, Rows(base, next)) && NoneWaits(before, next.pending)
            && (Storing(b.open, Rows(base, b), [], c.symbol) ==> Storing(next.open, Rows(base, next), [], c.symbol))
  {
    FillIsSound(cfg, b, w, c, price, now, feed);
    RowsAreDistinct(cfg, base, b);
    if MayFill(cfg, b, w.plan, now, feed) {
      var p := FillPosition(cfg, w.id, w.plan, c, price, now);
      var next := Fill(cfg, b, w, c, price, now, feed);
      ApplyOneMore(base, b.txns, PersistOpen(next.account, p));
      PutKeepsDistinct(PositionKey, Rows(base, b), p);
      assert Unused(b, w.id);
      forall row | row in before && Held(next.open, row) ensures row in Rows(base, next) {
        var q :| q in next.open && q.id == row.id;
        assert Held(b.open, row);
      }
    }
  }

  lemma {:induction false} FillAllStores(
    cfg: Settings, base: Store, before: seq<Position>, b: Book, ws: seq<Pending>, c: Candle, price: real, now: int,
    feed: Feed)
    requires Sound(cfg, b) && Durable(cfg, base, b) && Queued(b, ws) && NoneWaits(before, b.pending)
    requires Keeping(before, b.open, Rows(base, b))
    ensures var next := FillAll(cfg, b, ws, c, price, now, feed);
            && Keeping(before, next.open, Rows(base, next))
            && (Storing(b.open, Rows(base, b), [], c.symbol) ==> Storing(next.open, Rows(base, next), [], c.symbol))
    decreases |ws|
  {
    if |ws| > 0 {
      QueuedAfterOne(cfg, b, ws, c, price, now, feed);
      if ws[0].plan.symbol != c.symbol {
        FillAllStores(cfg, base, before, b, ws[1..], c, price, now, feed);
      } else {
        assert ws[0] in ws;
        FillStores(cfg, base, before, b, ws[0], c, price, now, feed);
        FillIsSound(cfg, b, ws[0], c, price, now, feed);
        FillIsDurable(cfg, base, b, ws[0], c, price, now, feed);
        FillAllStores(cfg, base, before, Fill(cfg, b, ws[0], c, price, now, feed), ws[1..], c, price, now, feed);
      }
    }
  }

  // ---------------------------------------------------------------------
  // A whole candle
  // ---------------------------------------------------------------------

  /** The rows that a candle does not rewrite: all of them while it forms, and those of other symbols. */
  ghost predicate Spared(c: Candle, rows: seq<Position>, row: Position) {
    row in rows && (c.isClosed ==> row.id.symbol != c.symbol)
  }

  ghost function SparedRows(c: Candle, rows: seq<Position>): (r: seq<Position>)
    ensures forall row :: row in r <==> Spared(c, rows, row)
  {
    if |rows| == 0 then []
    else
      var front := SparedRows(c, rows[..|rows| - 1]);
      assert rows == rows[..|rows| - 1] + [rows[|rows| - 1]];
      if c.isClosed ==> rows[|rows| - 1].id.symbol != c.symbol then front + [rows[|rows| - 1]] else front
  }

  lemma {:induction false} ResetKeepsRows(base: Store, b: Book, now: int)
    ensures Rows(base, ResetDay(b, now)) == Rows(base, b)
  {
    if b.account.day != Day(now) {
      ApplyOneMore(base, b.txns, PersistAccount(ResetDay(b, now).account));
    }
  }

  lemma {:induction false} RowsAreHeld(cfg: Settings, base: Store, b: Book, row: Position)
    requires Durable(cfg, base, b) && row in Rows(base, b)
    ensures Held(b.open, row)
  {
    var rows := Rows(base, b);
    var i :| 0 <= i < |rows| && rows[i] == row;
    assert Core(rows[i]) == Core(b.open[i]) && Core(row).id == row.id && Core(b.open[i]).id == b.open[i].id;
  }

  lemma {:induction false} NoRowWaits(cfg: Settings, base: Store, b: Book)
    requires Sound(cfg, b) && Durable(cfg, base, b)
    ensures NoneWaits(Rows(base, b), b.pending)
  {
    forall row, w | row in Rows(base, b) && w in b.pending ensures row.id != w.id {
      RowsAreHeld(cfg, base, b, row);
      assert Unused(b, w.id);
    }
  }

  /**
   * After a complete candle every position of its symbol is stored exactly as it is in memory, mark
   * and time included; the other rows, and after a forming candle all of them, are as they were for
   * as long as their positions are open.
   */
  lemma {:induction false} CandleStoresMarks(
    cfg: Settings, base: Store, b: Book, c: Candle, entryPrice: Option<real>, now: int, feed: Feed)
    requires Sound(cfg, b) && Durable(cfg, base, b)
    ensures var next := ProcessCandle(cfg, b, c, entryPrice, now, feed);
            c.isClosed ==> forall p :: p in next.open && p.id.symbol == c.symbol ==> p in Rows(base, next)
    ensures var next := ProcessCandle(cfg, b, c, entryPrice, now, feed);
            forall row :: row in Rows(base, b) && (c.isClosed ==> row.id.symbol != c.symbol) && Held(next.open, row) ==>
              row in Rows(base, next)
  {
    ResetIsSound(cfg, b, now);
    ResetIsDurable(cfg, base, b, now);
    ResetKeepsRows(base, b, now);
    var today := ResetDay(b, now);
    SelectionIsListed(today.open, c.symbol);
    var existing := PositionsOf(today.open, c.symbol);
    var before := SparedRows(c, Rows(base, b));
    ObserveAllKeeps(cfg, base, before, today, existing, c, now);
    if c.isClosed {
      ObserveAllStores(cfg, base, today, existing, c, now);
    }
    ObserveAllIsSound(cfg, today, existing, c, now);
    ObserveAllIsDurable(cfg, base, today, existing, c, now);
    NoRowWaits(cfg, base, today);
    var observed := ObserveAll(cfg, today, existing, c, now);
    FillAllStores(cfg, base, before, observed, observed.pending, c, EntryPrice(c, entryPrice), now, feed);
  }
}
