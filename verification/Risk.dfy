/** Stop placement, position sizing, the approval guards, and the plan built from them. */
module Risk {
  import opened Common
  import opened Configuration
  import opened Market
  import opened Strategy

  datatype AccountRecord = AccountRecord(equity: real, realizedToday: real, openCount: nat) {
    function DailyLossUsed(): real {
      Max(-realizedToday, 0.0)
    }
  }

  /** The risk engine refuses to hold an account whose equity is not positive. */
  type RiskAccount = a: AccountRecord | a.equity > 0.0 witness AccountRecord(1.0, 0.0, 0)

  datatype Reason =
    | NotActionable | ScoreTooLow | MissingIdentity | MissingTime | SignalStale | InvalidPrice | InvalidAtr
    | FeedUnhealthy | StopTooTight | StopTooWide
    | TooManyPositions | DailyLossReached | DailyLossExceeded | RewardTooSmall | CostsEatReward

  datatype Plan = Plan(
    symbol: string, timeframe: string, direction: Direction, score: int,
    entry: Option<real>, stop: Option<real>, target: Option<real>,
    stopDistance: Option<real>, stopBps: Option<real>, plannedRisk: Option<real>, actualRisk: Option<real>,
    notional: Option<real>, quantity: Option<real>, reward: Option<real>, rr: Option<real>,
    fees: Option<real>, slippage: Option<real>, netReward: Option<real>,
    approved: bool, reasons: seq<Reason>,
    generatedAt: Option<int>, sourceOpen: Option<int>, sourceClose: Option<int>)

  // ---------------------------------------------------------------------
  // Levels and sizes; a missing result is the ValueError that the sizing functions raise
  // ---------------------------------------------------------------------

  datatype Levels = Levels(stop: real, target: real, distance: real)

  function PlanLevels(d: Direction, entry: real, atr: real, multiplier: real, rr: real): Option<Levels> {
    if d.NoTrade? || entry <= 0.0 || atr <= 0.0 || multiplier <= 0.0 || rr <= 0.0 then None
    else
      var distance := Product(atr, multiplier);
      if d.Long? then Some(Levels(entry - distance, entry + Product(distance, rr), distance))
      else Some(Levels(entry + distance, entry - Product(distance, rr), distance))
  }

  datatype Size = Size(quantity: real, notional: real)

  function SizeFromRisk(risk: real, distance: real, entry: real): Option<Size> {
    if risk <= 0.0 || distance <= 0.0 || entry <= 0.0 then None
    else
      var quantity := Ratio(risk, distance);
      Some(Size(quantity, Product(quantity, entry)))
  }

  datatype Capped = Capped(notional: real, quantity: real, risk: real)

  function CapNotional(notional: real, entry: real, distance: real, maximum: real): Option<Capped> {
    if maximum <= 0.0 || entry <= 0.0 || distance <= 0.0 then None
    else
      var capped := Min(notional, maximum);
      var quantity := Ratio(capped, entry);
      Some(Capped(capped, quantity, Product(quantity, distance)))
  }

  /** `bps` basis points of an amount. */
  function BpsOf(amount: real, bps: real): real {
    amount * bps / 10_000.0
  }

  // ---------------------------------------------------------------------
  // Guards
  // ---------------------------------------------------------------------

  function If(condition: bool, reason: Reason): seq<Reason> {
    if condition then [reason] else []
  }

  function SignalReasons(s: Signal, cfg: Settings, now: int): seq<Reason> {
    If(s.direction.NoTrade? || !s.actionable, NotActionable)
    + If(s.score < cfg.signalMinScore, ScoreTooLow)
    + If(s.openTime.None? || s.closeTime.None?, MissingIdentity)
    + (if s.generatedAt.None? then [MissingTime]
       else If(now - s.generatedAt.value > 1000 * cfg.maxSignalAgeSeconds, SignalStale))
    + If(s.close.None? || s.close.value <= 0.0, InvalidPrice)
    + If(s.atr.None? || s.atr.value <= 0.0, InvalidAtr)
  }

  function MarketReasons(symbol: string, feed: Option<Feed>): seq<Reason> {
    If(feed.Some? && !feed.value.Healthy(symbol), FeedUnhealthy)
  }

  function DailyLimit(equity: real, cfg: Settings): real {
    Product(equity, cfg.maxDailyLoss)
  }

  function AccountReasons(a: RiskAccount, proposed: real, cfg: Settings): seq<Reason> {
    var limit := DailyLimit(a.equity, cfg);
    If(a.openCount >= cfg.maxOpenPositions, TooManyPositions)
    + (if a.DailyLossUsed() >= limit then [DailyLossReached]
       else If(a.DailyLossUsed() + proposed > limit, DailyLossExceeded))
  }

  // ---------------------------------------------------------------------
  // The plan
  // ---------------------------------------------------------------------

  function BasePlan(s: Signal, now: int): Plan {
    Plan(s.symbol, s.timeframe, s.direction, s.score, None, None, None, None, None, None, None, None, None,
         None, None, None, None, None, false, [], Some(now), s.openTime, s.closeTime)
  }

  function PlannedRisk(equity: real, cfg: Settings): real {
    Product(equity, cfg.riskPerTrade)
  }

  function MaximumNotional(equity: real, cfg: Settings): real {
    Product(equity, cfg.maxPositionNotionalMultiplier)
  }

  lemma {:induction false} ProductPositive(a: real, b: real)
    requires a > 0.0 && b > 0.0
    ensures Product(a, b) > 0.0
  {
  }

  function WithLevels(base: Plan, entry: real, l: Levels, planned: real): Plan
    requires entry > 0.0
  {
    base.(entry := Some(entry), stop := Some(l.stop), target := Some(l.target),
          stopDistance := Some(l.distance), stopBps := Some(Product(Ratio(l.distance, entry), 10_000.0)),
          plannedRisk := Some(planned))
  }

  /** Everything a plan says about money, once its quantity is known. */
  datatype Economics = Economics(reward: real, rr: real, fees: real, slippage: real, netReward: real)

  function PlanEconomics(cfg: Settings, c: Capped, distance: real): Economics {
    var reward := Product(Product(c.quantity, distance), cfg.targetRr);
    var fees := BpsOf(c.notional * 2.0, cfg.estimatedFeeBps);
    var slippage := BpsOf(c.notional * 2.0, cfg.estimatedSlippageBps);
    Economics(reward, if c.risk > 0.0 then Ratio(reward, c.risk) else 0.0, fees, slippage, reward - fees - slippage)
  }

  function FinishPlan(p: Plan, c: Capped, e: Economics, reasons: seq<Reason>): Plan {
    p.(actualRisk := Some(c.risk), notional := Some(c.notional), quantity := Some(c.quantity),
       reward := Some(e.reward), rr := Some(e.rr), fees := Some(e.fees), slippage := Some(e.slippage),
       netReward := Some(e.netReward), approved := reasons == [], reasons := reasons)
  }

  function SizedPlan(cfg: Settings, p: Plan, a: RiskAccount, c: Capped, distance: real): Plan {
    var e := PlanEconomics(cfg, c, distance);
    FinishPlan(p, c, e,
               AccountReasons(a, c.risk, cfg) + If(e.rr < cfg.minRr, RewardTooSmall)
               + If(e.netReward <= 0.0, CostsEatReward))
  }

  /** The size taken at entry price `entry` with its stop `distance` away. */
  function SizeFor(cfg: Settings, equity: real, entry: real, distance: real): Capped
    requires equity > 0.0 && entry > 0.0 && distance > 0.0
  {
    ProductPositive(equity, cfg.riskPerTrade);
    ProductPositive(equity, cfg.maxPositionNotionalMultiplier);
    var raw := SizeFromRisk(PlannedRisk(equity, cfg), distance, entry).value;
    CapNotional(raw.notional, entry, distance, MaximumNotional(equity, cfg)).value
  }

  function LevelsFor(cfg: Settings, d: Direction, entry: real, atr: real): (l: Levels)
    requires !d.NoTrade? && entry > 0.0 && atr > 0.0
    ensures l.distance > 0.0
  {
    ProductPositive(atr, cfg.atrStopMultiplier);
    PlanLevels(d, entry, atr, cfg.atrStopMultiplier, cfg.targetRr).value
  }

  /** The checked parts never raise here: the guards before them rule every bad input out. */
  function BuildPlan(cfg: Settings, s: Signal, feed: Option<Feed>, a: RiskAccount, now: int): Plan {
    var reasons := SignalReasons(s, cfg, now) + MarketReasons(s.symbol, feed);
    var base := BasePlan(s, now);
    if reasons != [] then base.(reasons := reasons)
    else
      var entry := s.close.value;
      var levels := LevelsFor(cfg, s.direction, entry, s.atr.value);
      var p := WithLevels(base, entry, levels, PlannedRisk(a.equity, cfg));
      if p.stopBps.value < cfg.minStopDistanceBps then p.(reasons := [StopTooTight])
      else if p.stopBps.value > cfg.maxStopDistanceBps then p.(reasons := [StopTooWide])
      else SizedPlan(cfg, p, a, SizeFor(cfg, a.equity, entry, levels.distance), levels.distance)
  }

  function SignalKey(s: Signal): Key {
    Key(s.symbol, s.timeframe)
  }

  function ProcessSignal(
    cfg: Settings, watermarks: map<Key, int>, a: RiskAccount, s: Signal, feed: Option<Feed>, now: int)
    : (map<Key, int>, Option<Plan>)
  {
    if Passes(watermarks, SignalKey(s), s.openTime) then
      (watermarks[SignalKey(s) := s.openTime.value], Some(BuildPlan(cfg, s, feed, a, now)))
    else (watermarks, None)
  }

  class RiskEngine {
    const settings: Settings
    var lastOpenTime: map<Key, int>
    var account: RiskAccount

    constructor (settings: Settings)
      ensures this.settings == settings && lastOpenTime == map[]
      ensures account == AccountRecord(settings.startingBalance, 0.0, 0)
    {
      this.settings := settings;
      lastOpenTime := map[];
      account := AccountRecord(settings.startingBalance, 0.0, 0);
    }

    method ReplaceAccount(a: RiskAccount)
      modifies this`account
      ensures account == a
    {
      account := a;
    }

    method Process(s: Signal, feed: Option<Feed>, now: int) returns (plan: Option<Plan>)
      modifies this`lastOpenTime
      ensures lastOpenTime == ProcessSignal(settings, old(lastOpenTime), account, s, feed, now).0
      ensures plan == ProcessSignal(settings, old(lastOpenTime), account, s, feed, now).1
    {
      var key := SignalKey(s);
      if s.openTime.None? {
        return None;
      }
      if key in lastOpenTime && s.openTime.value <= lastOpenTime[key] {
        return None;
      }
      plan := Some(BuildPlan(settings, s, feed, account, now));
      lastOpenTime := lastOpenTime[key := s.openTime.value];
    }
  }
}
