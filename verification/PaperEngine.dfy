/** The paper execution engine and its repository, changed in place, step by step. */
module PaperEngine {
  import opened Common
  import opened Tables
  import opened Configuration
  import opened Market
  import opened Risk
  import opened Ledger

  class PaperRepository {
    var account: Option<Account>
    var positions: seq<Position>
    var trades: seq<Trade>

    ghost function State(): Store
      reads this
    {
      Store(account, positions, trades)
    }

    constructor ()
      ensures State() == EMPTY_STORE
    {
      account, positions, trades := None, [], [];
    }

    method PersistOpening(a: Account, p: Position)
      modifies this
      ensures State() == Apply(old(State()), PersistOpen(a, p))
    {
      account := Some(a);
      positions := Put(PositionKey, positions, p);
    }

    method PersistClosing(a: Account, t: Trade)
      modifies this
      ensures State() == Apply(old(State()), PersistClose(a, t))
    {
      account := Some(a);
      positions := Drop(PositionKey, positions, t.id);
      if !Has(TradeKey, trades, t.id) {
        trades := trades + [t];
      }
    }

    method PersistOnlyAccount(a: Account)
      modifies this
      ensures State() == Apply(old(State()), PersistAccount(a))
    {
      account := Some(a);
    }

    method Commit(t: Txn)
      modifies this
      ensures State() == Apply(old(State()), t)
    {
      match t
      case PersistOpen(a, p) => PersistOpening(a, p);
      case PersistClose(a, trade) => PersistClosing(a, trade);
      case PersistAccount(a) => PersistOnlyAccount(a);
    }
  }

  class PaperExecutionEngine {
    const settings: Settings
    const repository: PaperRepository?
    var account: Account
    var pending: seq<Pending>
    var open: seq<Position>
    var closed: seq<Trade>
    var seen: seq<PlanId>
    var recovery: RecoveryStatus
    var paused: bool
    ghost var history: seq<Trade>
    ghost var txns: seq<Txn>
    ghost const base: Store

    ghost function View(): Book
      reads this
    {
      Book(account, pending, open, closed, seen, recovery, paused, history, txns)
    }

    /** With a repository, the stored rows are those of the transactions so far. */
    ghost predicate Valid()
      reads this, repository
    {
      repository != null ==> repository.State() == ApplyAll(base, txns)
    }

    constructor (settings: Settings, repository: PaperRepository?, now: int)
      ensures Valid() && View() == Opening(settings.startingBalance, now)
      ensures this.settings == settings && this.repository == repository
      ensures repository != null ==> base == repository.State()
    {
      this.settings := settings;
      this.repository := repository;
      base := if repository == null then EMPTY_STORE else repository.State();
      account := NewAccount(settings.startingBalance, now);
      pending, open, closed, seen := [], [], [], [];
      recovery, paused := RecoveryComplete, false;
      history, txns := [], [];
    }

    method Persist(t: Txn)
      requires Valid()
      modifies this`txns, repository
      ensures Valid() && View() == Write(old(View()), t)
    {
      if repository != null {
        repository.Commit(t);
      }
      assert (txns + [t])[..|txns|] == txns;
      txns := txns + [t];
    }

    method ResetDayIfNeeded(now: int) returns (changed: bool)
      requires Valid()
      modifies this, repository
      ensures Valid() && View() == ResetDay(old(View()), now)
      ensures changed <==> old(account.day) != Day(now)
    {
      changed := account.day != Day(now);
      if changed {
        account := account.(day := Day(now), realizedToday := 0.0);
        Persist(PersistAccount(account));
      }
    }

    method RevalueEquity()
      modifies this`account
      ensures account == Revalued(old(account), open)
    {
      var net := Sum(UnrealizedOf, open);
      account := account.(equity := account.cash + net, openCount := |open|);
    }

    method Close(p: Position, e: Exit, now: int) returns (t: Trade)
      modifies this
      ensures txns == old(txns)
      ensures (View(), t) == ClosePosition(settings, old(View()), p, e, now)
    {
      t := CloseTrade(settings, p, e, now);
      var exitFee := ExitFeeAt(settings, p.terms, t.exitFill);
      open := Drop(PositionKey, open, p.id);
      closed := LastN(closed + [t], settings.maxPaperTradeHistory);
      history := history + [t];
      var cash := account.cash + t.gross - exitFee;
      var wins := account.wins + Count(t.net > 0.0);
      account := account.(
        cash := cash, equity := cash, realized := account.realized + t.net,
        realizedToday := account.realizedToday + t.net, gross := account.gross + t.gross,
        fees := account.fees + exitFee, openCount := |open|, closedCount := account.closedCount + 1, wins := wins,
        losses := account.losses + Count(t.net < 0.0), winRate := ShareOf(wins, account.closedCount + 1));
    }

    method Update(p: Position, c: Candle, now: int) returns (t: Option<Trade>)
      modifies this
      ensures txns == old(txns)
      ensures (View(), t) == UpdateOrClose(settings, old(View()), p, c, now)
    {
      if StopHit(p.terms, c) {
        var trade := Close(p, Exit(StopTrigger(p.terms, c), StopLoss), now);
        return Some(trade);
      }
      if TargetHit(p.terms, c) {
        var trade := Close(p, Exit(TargetTrigger(p.terms, c), TakeProfit), now);
        return Some(trade);
      }
      open := Put(PositionKey, open, Marked(settings, p, c));
      RevalueEquity();
      t := None;
    }

    method ObserveOne(p: Position, c: Candle, now: int)
      requires Valid()
      modifies this, repository
      ensures Valid() && View() == Observe(settings, old(View()), p, c, now)
    {
      var t := Update(p, c, now);
      if t.Some? {
        Persist(PersistClose(account, t.value));
      } else if c.isClosed {
        Persist(PersistOpen(account, Marked(settings, p, c)));
      }
    }

    method FillOne(w: Pending, c: Candle, price: real, now: int, feed: Feed) returns (filled: bool)
      requires Valid()
      modifies this, repository
      ensures Valid() && View() == Fill(settings, old(View()), w, c, price, now, feed)
      ensures filled <==> MayFill(settings, old(View()), w.plan, now, feed)
    {
      filled := ValidPlan(settings, w.plan, now) && feed.Healthy(w.plan.symbol)
                && |open| < settings.maxOpenPositions;
      if filled {
        var p := FillPosition(settings, w.id, w.plan, c, price, now);
        open := Put(PositionKey, open, p);
        account := account.(cash := account.cash - p.terms.entryFee, fees := account.fees + p.terms.entryFee,
                            openCount := |open|);
        RevalueEquity();
        pending := Drop(PendingKey, pending, w.id);
        Persist(PersistOpen(account, p));
      } else {
        pending := Drop(PendingKey, pending, w.id);
      }
    }

    method ProcessMarketCandle(c: Candle, entryPrice: Option<real>, now: int, feed: Feed) returns (report: Report)
      requires Valid()
      modifies this, repository
      ensures Valid() && View() == ProcessCandle(settings, old(View()), c, entryPrice, now, feed)
      ensures report == ReportOf(Changes(settings, old(View()), c, entryPrice, now, feed), account)
    {
      var changed := ResetDayIfNeeded(now);
      ghost var today := View();
      var existing := PositionsOf(open, c.symbol);
      for i := 0 to |existing|
        invariant Valid()
        invariant ObserveAll(settings, View(), existing[i..], c, now) == ObserveAll(settings, today, existing, c, now)
      {
        ObserveOne(existing[i], c, now);
        assert existing[i..][1..] == existing[i + 1..];
      }
      changed := changed || |existing| > 0;
      ghost var observed := View();
      assert observed == ObserveAll(settings, today, existing, c, now);
      var price := if entryPrice.Some? && entryPrice.value != 0.0 then entryPrice.value else c.close;
      var waiting := pending;
      var anyFilled := false;
      for i := 0 to |waiting|
        invariant Valid()
        invariant FillAll(settings, View(), waiting[i..], c, price, now, feed)
                  == FillAll(settings, observed, waiting, c, price, now, feed)
        invariant anyFilled || AnyFills(settings, View(), waiting[i..], c, price, now, feed)
                  <==> AnyFills(settings, observed, waiting, c, price, now, feed)
      {
        assert waiting[i..][1..] == waiting[i + 1..];
        if waiting[i].plan.symbol == c.symbol {
          var filled := FillOne(waiting[i], c, price, now, feed);
          anyFilled := anyFilled || filled;
        }
      }
      report := ReportOf(changed || anyFilled, account);
    }

    method Submit(p: Plan, now: int) returns (accepted: bool)
      requires Valid()
      modifies this, repository
      ensures Valid() && (View(), accepted) == ProcessPlan(settings, old(View()), p, now)
    {
      if p.sourceOpen.None? {
        return false;
      }
      var id := PlanId(p.symbol, p.timeframe, p.sourceOpen.value);
      var _ := ResetDayIfNeeded(now);
      if !recovery.RecoveryComplete? || paused || id in seen {
        return false;
      }
      seen := LastN(seen + [id], settings.maxPaperTradeHistory * 2);
      if !ValidPlan(settings, p, now) {
        return false;
      }
      pending := Put(PendingKey, pending, Pending(id, p));
      accepted := true;
    }

    method SetEntriesPaused(value: bool)
      requires Valid()
      modifies this`paused
      ensures Valid() && View() == old(View()).(paused := value)
    {
      paused := value;
    }

    /** Ends by telling the risk engine, which refuses an account without equity: then the start fails. */
    method RestoreState(stored: Option<Account>, positions: seq<Position>, trades: seq<Trade>) returns (report: Report)
      requires Valid()
      modifies this
      ensures Valid() && View() == Restore(settings, old(View()), stored, positions, trades)
      ensures report == ReportOf(true, account)
      ensures report.Rejected? <==> account.equity <= 0.0
    {
      if stored.Some? {
        account := stored.value;
      }
      open := Awaiting(positions);
      closed := LastN(closed + LastN(trades, settings.maxPaperTradeHistory), settings.maxPaperTradeHistory);
      history := history + trades;
      account := account.(openCount := |open|);
      recovery := if |positions| == 0 then RecoveryComplete else RecoveryOutstanding;
      report := ReportOf(true, account);
    }

    method RecoverOne(id: PlanId, c: Candle, now: int)
      requires Valid()
      modifies this, repository
      ensures Valid() && View() == RecoverCandle(settings, old(View()), id, c, now)
    {
      var i := Find(PositionKey, open, id);
      if i < |open| {
        var t := Update(open[i], c, now);
        if t.Some? {
          Persist(PersistClose(account, t.value));
        }
      }
    }

    method RecoverWith(p: Position, candles: seq<Candle>, now: int)
      requires Valid()
      modifies this, repository
      ensures Valid() && View() == RecoverPosition(settings, old(View()), p, candles, now)
    {
      var missed := Missed(p, candles);
      ghost var before := View();
      for i := 0 to |missed|
        invariant Valid()
        invariant RecoverCandles(settings, View(), p.id, missed[i..], now)
                  == RecoverCandles(settings, before, p.id, missed, now)
      {
        RecoverOne(p.id, missed[i], now);
        assert missed[i..][1..] == missed[i + 1..];
      }
      var i := Find(PositionKey, open, p.id);
      if i < |open| {
        open := open[i := open[i].(status := Open)];
      }
    }

    method ReconcileRecoveredPositions(fetch: Key -> Option<seq<Candle>>, now: int)
      requires Valid()
      modifies this, repository
      ensures Valid() && View() == Reconcile(settings, old(View()), fetch, now)
    {
      if !recovery.RecoveryOutstanding? {
        return;
      }
      var recovered := open;
      ghost var before := View();
      for i := 0 to |recovered|
        invariant Valid()
        invariant RecoverAll(settings, View(), recovered[i..], fetch, now)
                  == RecoverAll(settings, before, recovered, fetch, now)
      {
        assert recovered[i..][1..] == recovered[i + 1..];
        var answer := fetch(Key(recovered[i].id.symbol, recovered[i].id.timeframe));
        if answer.None? {
          recovery := RecoveryFailed;
          return;
        }
        RecoverWith(recovered[i], answer.value, now);
      }
      recovery := RecoveryComplete;
      Persist(PersistAccount(account));
      if account.equity <= 0.0 {
        recovery := RecoveryFailed;
      }
    }
  }
}
