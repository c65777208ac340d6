/**
 * Exits: where they happen, what a stop-out costs compared with the plan, and how the replay
 * of finished candles compares with watching the market live.
 */
module Exits {
  import opened Common
  import opened Sorting
  import opened Configuration
  import opened Market
  import opened Strategy
  import opened Risk
  import opened RiskGuarantees
  import opened Ledger
  import opened Recovery

  /** Every exit happens at a price the candle traded, before slippage. */
  lemma {:induction false} ExitIsInsideCandle(t: Terms, c: Candle)
    requires WellFormed(c) && !t.direction.NoTrade?
    ensures ExitOf(t, c).Some? ==> c.low <= ExitOf(t, c).value.trigger <= c.high
  {
  }

  // ---------------------------------------------------------------------
  // Live observation and replay
  // ---------------------------------------------------------------------

  predicate LevelsOrdered(t: Terms) {
    match t.direction
    case Long => t.stop < t.target
    case Short => t.target < t.stop
    case NoTrade => false
  }

  /** Snapshots of one candle as it forms: the open is fixed and the range only widens. */
  ghost predicate Forming(obs: seq<Candle>) {
    && |obs| > 0
    && (forall i :: 0 <= i < |obs| ==> obs[i].open == obs[0].open && obs[i].low <= obs[i].open <= obs[i].high)
    && (forall i, j :: 0 <= i <= j < |obs| ==> obs[j].low <= obs[i].low && obs[i].high <= obs[j].high)
  }

  lemma {:induction false} HitsOnlyGrow(t: Terms, obs: seq<Candle>, i: nat)
    requires Forming(obs) && i < |obs|
    ensures StopHit(t, obs[i]) ==> StopHit(t, obs[|obs| - 1])
    ensures TargetHit(t, obs[i]) ==> TargetHit(t, obs[|obs| - 1])
    ensures StopTrigger(t, obs[i]) == StopTrigger(t, obs[|obs| - 1])
    ensures TargetTrigger(t, obs[i]) == TargetTrigger(t, obs[|obs| - 1])
  {
    assert obs[i].open == obs[0].open && obs[|obs| - 1].open == obs[0].open;
    assert obs[|obs| - 1].low <= obs[i].low && obs[i].high <= obs[|obs| - 1].high;
  }

  /** The live exit is the exit of one of the snapshots, and exists as soon as any has one. */
  lemma {:induction false} FirstExitIsSomeExit(t: Terms, obs: seq<Candle>)
    ensures match FirstExit(t, obs)
            case Some(e) => exists i :: 0 <= i < |obs| && ExitOf(t, obs[i]) == Some(e)
            case None => forall i :: 0 <= i < |obs| ==> ExitOf(t, obs[i]).None?
  {
    if |obs| > 0 && ExitOf(t, obs[0]).None? {
      FirstExitIsSomeExit(t, obs[1..]);
      match FirstExit(t, obs[1..])
      case Some(e) =>
        var i :| 0 <= i < |obs[1..]| && ExitOf(t, obs[1..][i]) == Some(e);
        assert ExitOf(t, obs[i + 1]) == Some(e);
      case None =>
        forall i | 0 <= i < |obs| ensures ExitOf(t, obs[i]).None? {
          if i > 0 {
            assert obs[1..][i - 1] == obs[i];
          }
        }
    }
  }

  /** The same exit, or a stop where the live engine took the target first, at a trigger strictly worse. */
  predicate NoBetter(t: Terms, replay: Option<Exit>, live: Option<Exit>) {
    || live == replay
    || (&& live.Some? && replay.Some?
        && live.value.reason == TakeProfit && replay.value.reason == StopLoss
        && (if t.direction.Long? then replay.value.trigger < live.value.trigger
            else live.value.trigger < replay.value.trigger))
  }

  /** Replaying only the finished candle is never better than having watched it form. */
  lemma {:induction false} ReplayIsConservative(t: Terms, obs: seq<Candle>)
    requires LevelsOrdered(t) && Forming(obs)
    ensures NoBetter(t, ExitOf(t, obs[|obs| - 1]), FirstExit(t, obs))
  {
    FirstExitIsSomeExit(t, obs);
    var last := obs[|obs| - 1];
    match FirstExit(t, obs)
    case None => assert ExitOf(t, last).None?;
    case Some(e) =>
      var i :| 0 <= i < |obs| && ExitOf(t, obs[i]) == Some(e);
      HitsOnlyGrow(t, obs, i);
      assert obs[i].open == obs[0].open && last.open == obs[0].open;
  }

  /** All snapshots of several candles, in the order they were watched. */
  function Watching(groups: seq<seq<Candle>>): seq<Candle> {
    if |groups| == 0 then [] else groups[0] + Watching(groups[1..])
  }

  /** The finished candles alone. */
  function Finished(groups: seq<seq<Candle>>): seq<Candle> {
    if |groups| == 0 then []
    else if |groups[0]| == 0 then Finished(groups[1..])
    else [groups[0][|groups[0]| - 1]] + Finished(groups[1..])
  }

  lemma {:induction false} FirstExitOfBoth(t: Terms, before: seq<Candle>, after: seq<Candle>)
    ensures FirstExit(t, before + after) ==
            if FirstExit(t, before).Some? then FirstExit(t, before) else FirstExit(t, after)
  {
    if |before| == 0 {
      assert before + after == after;
    } else {
      assert (before + after)[1..] == before[1..] + after;
      FirstExitOfBoth(t, before[1..], after);
    }
  }

  lemma {:induction false} NoBetterAfter(t: Terms, first: seq<Candle>, rest: seq<Candle>, watched: seq<Candle>)
    requires LevelsOrdered(t) && Forming(first) && NoBetter(t, FirstExit(t, rest), FirstExit(t, watched))
    ensures NoBetter(t, FirstExit(t, [first[|first| - 1]] + rest), FirstExit(t, first + watched))
  {
    var last := first[|first| - 1];
    ReplayIsConservative(t, first);
    FirstExitOfBoth(t, first, watched);
    FirstExitOfBoth(t, [last], rest);
    assert FirstExit(t, [last]) == ExitOf(t, last);
  }

  /**
   * Over any number of candles the replay of the finished ones is never better than watching
   * them all.  As this holds of every shorter history too, the same candle ends the position.
   */
  lemma {:induction false} ReplayOfManyIsConservative(t: Terms, groups: seq<seq<Candle>>)
    requires LevelsOrdered(t) && forall k :: 0 <= k < |groups| ==> Forming(groups[k])
    ensures NoBetter(t, FirstExit(t, Finished(groups)), FirstExit(t, Watching(groups)))
  {
    if |groups| > 0 {
      assert Forming(groups[0]);
      ReplayOfManyIsConservative(t, groups[1..]);
      NoBetterAfter(t, groups[0], Finished(groups[1..]), Watching(groups[1..]));
    }
  }

  /** The share of a price change that reaches the account after exit slippage and exit fee. */
  function KeptShare(cfg: Settings, d: Direction): real {
    var s := if d.Long? then 1.0 - cfg.exitSlippageBps / 10_000.0 else 1.0 + cfg.exitSlippageBps / 10_000.0;
    var f := if d.Long? then 1.0 - cfg.paperFeeBps / 10_000.0 else 1.0 + cfg.paperFeeBps / 10_000.0;
    Product(s, f)
  }

  lemma {:induction false} FourFactors(x: real, s: real, q: real, f: real)
    ensures (x * s) * q * f == x * q * (s * f)
  {
  }

  lemma {:induction false} NetDifference(cfg: Settings, p: Position, e: Exit, e': Exit, now: int)
    requires !p.terms.direction.NoTrade?
    ensures var difference := CloseTrade(cfg, p, e, now).net - CloseTrade(cfg, p, e', now).net;
            difference == (if p.terms.direction.Long? then e.trigger - e'.trigger else e'.trigger - e.trigger)
                          * p.terms.quantity * KeptShare(cfg, p.terms.direction)
  {
    var t := p.terms;
    var bps, slip := cfg.paperFeeBps / 10_000.0, cfg.exitSlippageBps / 10_000.0;
    var s := if t.direction.Long? then 1.0 - slip else 1.0 + slip;
    var f := if t.direction.Long? then 1.0 - bps else 1.0 + bps;
    var x, x' := e.trigger * s, e'.trigger * s;
    assert Fee(Product(x, t.quantity), cfg.paperFeeBps) == (x * t.quantity) * bps;
    assert Fee(Product(x', t.quantity), cfg.paperFeeBps) == (x' * t.quantity) * bps;
    if t.direction.Long? {
      assert x * t.quantity - x' * t.quantity - ((x * t.quantity) * bps - (x' * t.quantity) * bps)
             == ((e.trigger - e'.trigger) * s) * t.quantity * f;
      FourFactors(e.trigger - e'.trigger, s, t.quantity, f);
    } else {
      assert x' * t.quantity - x * t.quantity - ((x * t.quantity) * bps - (x' * t.quantity) * bps)
             == ((e'.trigger - e.trigger) * s) * t.quantity * f;
      FourFactors(e'.trigger - e.trigger, s, t.quantity, f);
    }
  }

  /**
   * When the two disagree the replay's result is strictly worse exactly when costs leave a
   * positive share of a price change; that always holds for shorts, and for longs unless the
   * slippage or the fee is a hundred percent or more.
   */
  lemma {:induction false} DisagreementCosts(cfg: Settings, p: Position, obs: seq<Candle>, now: int)
    requires LevelsOrdered(p.terms) && Forming(obs) && p.terms.quantity > 0.0
    requires FirstExit(p.terms, obs) != ExitOf(p.terms, obs[|obs| - 1])
    ensures FirstExit(p.terms, obs).Some? && ExitOf(p.terms, obs[|obs| - 1]).Some?
    ensures CloseTrade(cfg, p, ExitOf(p.terms, obs[|obs| - 1]).value, now).net
            < CloseTrade(cfg, p, FirstExit(p.terms, obs).value, now).net
            <==> KeptShare(cfg, p.terms.direction) > 0.0
    ensures p.terms.direction.Short? ==> KeptShare(cfg, p.terms.direction) > 0.0
    ensures p.terms.direction.Long? && cfg.exitSlippageBps < 10_000.0 && cfg.paperFeeBps < 10_000.0 ==>
              KeptShare(cfg, p.terms.direction) > 0.0
  {
    var t := p.terms;
    ReplayIsConservative(t, obs);
    var live, replay := FirstExit(t, obs).value, ExitOf(t, obs[|obs| - 1]).value;
    NetDifference(cfg, p, live, replay, now);
    var gap := if t.direction.Long? then live.trigger - replay.trigger else replay.trigger - live.trigger;
    ProductPositive(gap, t.quantity);
    PositiveTimesSign(gap * t.quantity, KeptShare(cfg, t.direction));
    if t.direction.Short? {
      ProductPositive(1.0 + cfg.exitSlippageBps / 10_000.0, 1.0 + cfg.paperFeeBps / 10_000.0);
    } else if cfg.exitSlippageBps < 10_000.0 && cfg.paperFeeBps < 10_000.0 {
      ProductPositive(1.0 - cfg.exitSlippageBps / 10_000.0, 1.0 - cfg.paperFeeBps / 10_000.0);
    }
  }

  // ---------------------------------------------------------------------
  // What recovery does not look at
  // ---------------------------------------------------------------------

  /**
   * Recovery replays only candles that close after the position was last written.  A position
   * filled while its candle was still forming is written with that candle's closing time, so
   * the rest of that candle is skipped: the outcome is that of watching it exactly when the
   * finished candle reaches neither level, or the later candles happen to give the same exit.
   */
  lemma {:induction false} RecoverySkipsTheFillCandle(p: Position, c: Candle, later: seq<Candle>)
    requires Watermark(p) == c.closeTime
    requires forall i :: 0 <= i < |later| ==> later[i].closeTime > c.closeTime
    requires SortedBy(OpensNoLater, later)
    ensures Missed(p, [c] + later) == later
    ensures FirstExit(p.terms, Missed(p, [c] + later)) == FirstExit(p.terms, [c] + later) <==>
            (ExitOf(p.terms, c).None? || ExitOf(p.terms, c) == FirstExit(p.terms, later))
  {
    assert ([c] + later)[1..] == later;
    UnseenFrom(c.closeTime, [c] + later, 1);
    SortOfSorted(OpensNoLater, later);
  }

  lemma {:induction false} UnseenFrom(mark: int, cs: seq<Candle>, n: nat)
    requires n <= |cs|
    requires forall i :: 0 <= i < n ==> cs[i].closeTime <= mark
    requires forall i :: n <= i < |cs| ==> cs[i].closeTime > mark
    ensures Unseen(mark, cs) == cs[n..]
  {
    if |cs| > 0 {
      var front := cs[..|cs| - 1];
      if n < |cs| {
        UnseenFrom(mark, front, n);
        assert cs[n..] == front[n..] + [cs[|cs| - 1]];
      } else {
        UnseenFrom(mark, front, n - 1);
      }
    }
  }

  const SAMPLE: Position :=
    Position(PlanId("A", "1m", 0), Terms(Long, 100.0, 100.0, 1.0, 100.0, 99.0, 102.0, 1.0, 0.0),
             Mark(100.0, 0.0, 0.0, 0.0), 60_000, Some(60_000), 0, 59_999, Some(119_999), Open)

  /** A long stopped out later in the candle it was filled in is recovered as a winner. */
  lemma {:induction false} SkippedStopBecomesTarget()
    ensures var fillCandle := Candle("A", "1m", 60_000, 119_999, 100.0, 100.5, 98.0, 99.5, 1.0, true);
            var rally := Candle("A", "1m", 120_000, 179_999, 99.5, 103.0, 99.5, 102.5, 1.0, true);
            && FirstExit(SAMPLE.terms, [fillCandle, rally]) == Some(Exit(99.0, StopLoss))
            && FirstExit(SAMPLE.terms, Missed(SAMPLE, [fillCandle, rally])) == Some(Exit(102.0, TakeProfit))
  {
    var fillCandle := Candle("A", "1m", 60_000, 119_999, 100.0, 100.5, 98.0, 99.5, 1.0, true);
    var rally := Candle("A", "1m", 120_000, 179_999, 99.5, 103.0, 99.5, 102.5, 1.0, true);
    RecoverySkipsTheFillCandle(SAMPLE, fillCandle, [rally]);
    assert [fillCandle] + [rally] == [fillCandle, rally];
    assert ExitOf(SAMPLE.terms, rally) == Some(Exit(102.0, TakeProfit));
    assert FirstExit(SAMPLE.terms, [rally]) == ExitOf(SAMPLE.terms, rally);
  }

  // ---------------------------------------------------------------------
  // The cost of a stop-out
  // ---------------------------------------------------------------------

  /** How far the fill price had moved against the position since it was planned. */
  function Drift(d: Direction, entry: real, price: real): real {
    if d.Long? then price - entry else entry - price
  }

  /** Slippage for each unit, at the entry and at the stop. */
  function SlippagePerUnit(price: real, stop: real, entryBps: real, exitBps: real): real {
    Product(price, entryBps / 10_000.0) + Product(stop, exitBps / 10_000.0)
  }

  lemma {:induction false} LongStopOut(q: real, entry: real, price: real, stop: real, e: real, x: real)
    ensures Product(Product(stop, 1.0 - x) - Product(price, 1.0 + e), q)
            == -Product(q, entry - stop) - Product(q, price - entry) - Product(q, Product(price, e) + Product(stop, x))
  {
    var u, v := price * e, stop * x;
    assert stop * (1.0 - x) - price * (1.0 + e) == stop - price - (u + v);
    assert (stop - price - (u + v)) * q == -(q * (entry - stop)) - q * (price - entry) - q * (u + v);
  }

  lemma {:induction false} ShortStopOut(q: real, entry: real, price: real, stop: real, e: real, x: real)
    ensures Product(Product(price, 1.0 - e) - Product(stop, 1.0 + x), q)
            == -Product(q, stop - entry) - Product(q, entry - price) - Product(q, Product(price, e) + Product(stop, x))
  {
    var u, v := price * e, stop * x;
    assert price * (1.0 - e) - stop * (1.0 + x) == price - stop - (u + v);
    assert (price - stop - (u + v)) * q == -(q * (stop - entry)) - q * (entry - price) - q * (u + v);
  }

  /** Planned risk, drift and slippage make up the gross loss of a stop-out. */
  lemma {:induction false} StopOutGross(
    d: Direction, q: real, entry: real, price: real, stop: real, distance: real, entryBps: real, exitBps: real)
    requires !d.NoTrade? && distance == (if d.Long? then entry - stop else stop - entry)
    ensures GrossPnl(EntryFill(price, d, entryBps), ExitFill(stop, d, exitBps), q, d)
            == -Product(q, distance) - Product(q, Drift(d, entry, price))
               - Product(q, SlippagePerUnit(price, stop, entryBps, exitBps))
  {
    if d.Long? {
      LongStopOut(q, entry, price, stop, entryBps / 10_000.0, exitBps / 10_000.0);
    } else {
      ShortStopOut(q, entry, price, stop, entryBps / 10_000.0, exitBps / 10_000.0);
    }
  }

  /**
   * A position filled from an approved plan and stopped without a gap loses the planned risk,
   * plus the drift between plan and fill, plus slippage on both sides; nothing else.
   */
  lemma {:induction false} StopOutLoss(
    cfg: Settings, s: Signal, feed: Option<Feed>, a: RiskAccount, planned: int,
    id: PlanId, fillCandle: Candle, price: real, filled: int, c: Candle, now: int)
    requires BuildPlan(cfg, s, feed, a, planned).approved
    requires ValidPlan(cfg, BuildPlan(cfg, s, feed, a, planned), filled)
    requires var p := FillPosition(cfg, id, BuildPlan(cfg, s, feed, a, planned), fillCandle, price, filled);
             StopHit(p.terms, c) && StopTrigger(p.terms, c) == p.terms.stop
    ensures var plan := BuildPlan(cfg, s, feed, a, planned);
            var p := FillPosition(cfg, id, plan, fillCandle, price, filled);
            var t := CloseTrade(cfg, p, ExitOf(p.terms, c).value, now);
            && ExitOf(p.terms, c) == Some(Exit(plan.stop.value, StopLoss))
            && t.gross == -plan.actualRisk.value
                          - Product(plan.quantity.value, Drift(plan.direction, plan.entry.value, price))
                          - Product(plan.quantity.value, SlippagePerUnit(price, plan.stop.value,
                                                                         cfg.entrySlippageBps, cfg.exitSlippageBps))
            && t.net == t.gross - p.terms.entryFee - ExitFeeAt(cfg, p.terms, t.exitFill)
            && plan.actualRisk.value <= Product(a.equity, cfg.riskPerTrade)
  {
    var plan := BuildPlan(cfg, s, feed, a, planned);
    ApprovedPlanKeepsBudgets(cfg, s, feed, a, planned);
    StopOutGross(plan.direction, plan.quantity.value, plan.entry.value, price, plan.stop.value,
                 plan.stopDistance.value, cfg.entrySlippageBps, cfg.exitSlippageBps);
  }
}
