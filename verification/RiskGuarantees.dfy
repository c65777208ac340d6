/** What an approved plan promises, and exactly which signals and accounts get one. */
module RiskGuarantees {
  import opened Common
  import opened Configuration
  import opened Market
  import opened Strategy
  import opened Risk

  lemma {:induction false} RatioTimes(a: real, b: real)
    requires b != 0.0
    ensures Product(Ratio(a, b), b) == a
  {
  }

  lemma {:induction false} ProductMonotone(a: real, b: real, c: real)
    requires c > 0.0
    ensures a <= b <==> Product(a, c) <= Product(b, c)
  {
    ScaleOrder(c, a, b);
  }

  lemma {:induction false} RatioMonotone(a: real, b: real, c: real)
    requires c > 0.0 && a <= b
    ensures Ratio(a, c) <= Ratio(b, c)
  {
    RatioTimes(a, c);
    RatioTimes(b, c);
    ProductMonotone(Ratio(a, c), Ratio(b, c), c);
  }

  lemma {:induction false} RatioPositive(a: real, b: real)
    requires a > 0.0 && b > 0.0
    ensures Ratio(a, b) > 0.0
  {
    RatioTimes(a, b);
    if Ratio(a, b) <= 0.0 {
      ProductMonotone(Ratio(a, b), 0.0, b);
    }
  }

  lemma {:induction false} RatioOfProduct(a: real, b: real)
    requires b != 0.0
    ensures Ratio(Product(a, b), b) == a
  {
    QuotientUnique(a * b, b, a);
  }

  /** Levels and sizes are refused exactly without a direction or for an amount that is not positive. */
  lemma {:induction false} SizingRefusesIff(
    d: Direction, entry: real, atr: real, multiplier: real, rr: real, risk: real, distance: real, maximum: real)
    ensures PlanLevels(d, entry, atr, multiplier, rr).Some? <==>
              (d == Long || d == Short) && entry > 0.0 && atr > 0.0 && multiplier > 0.0 && rr > 0.0
    ensures SizeFromRisk(risk, distance, entry).Some? <==> risk > 0.0 && distance > 0.0 && entry > 0.0
    ensures CapNotional(risk, entry, distance, maximum).Some? <==> maximum > 0.0 && entry > 0.0 && distance > 0.0
  {
  }

  /** The size is the largest that respects both the risk budget and the notional cap. */
  lemma {:induction false} SizeRespectsBudgets(cfg: Settings, equity: real, entry: real, distance: real)
    requires equity > 0.0 && entry > 0.0 && distance > 0.0
    ensures var c := SizeFor(cfg, equity, entry, distance);
            && c.quantity > 0.0 && c.notional > 0.0 && c.risk > 0.0
            && c.risk == Product(c.quantity, distance) && c.notional == Product(c.quantity, entry)
            && c.risk <= Product(equity, cfg.riskPerTrade)
            && c.notional <= Product(equity, cfg.maxPositionNotionalMultiplier)
            && (c.risk == Product(equity, cfg.riskPerTrade)
                || c.notional == Product(equity, cfg.maxPositionNotionalMultiplier))
  {
    ProductPositive(equity, cfg.riskPerTrade);
    ProductPositive(equity, cfg.maxPositionNotionalMultiplier);
    var planned, maximum := PlannedRisk(equity, cfg), MaximumNotional(equity, cfg);
    var raw := Ratio(planned, distance);
    RatioPositive(planned, distance);
    ProductPositive(raw, entry);
    var capped := Min(Product(raw, entry), maximum);
    var quantity := Ratio(capped, entry);
    RatioPositive(capped, entry);
    RatioTimes(capped, entry);
    ProductPositive(quantity, distance);
    RatioMonotone(capped, Product(raw, entry), entry);
    RatioOfProduct(raw, entry);
    ProductMonotone(quantity, raw, distance);
    RatioTimes(planned, distance);
  }

  lemma {:induction false} RewardRatioIsTarget(risk: real, target: real)
    requires risk > 0.0
    ensures Ratio(Product(risk, target), risk) == target
  {
    QuotientUnique(risk * target, risk, target);
  }

  /** Reward less costs, in units of the notional, compares the stop distance with the round-trip cost. */
  lemma {:induction false} NetRewardInBps(quantity: real, entry: real, distance: real, rr: real, fee: real, slip: real)
    requires quantity > 0.0 && entry > 0.0
    ensures var notional := Product(quantity, entry);
            var stopBps := Product(Ratio(distance, entry), 10_000.0);
            Product(Product(quantity, distance), rr) - BpsOf(notional * 2.0, fee) - BpsOf(notional * 2.0, slip)
            == (notional / 10_000.0) * (Product(rr, stopBps) - 2.0 * (fee + slip))
  {
    var ratio := Ratio(distance, entry);
    RatioTimes(distance, entry);
    var notional := quantity * entry;
    assert quantity * distance == notional * ratio by {
      assert quantity * (ratio * entry) == (quantity * entry) * ratio;
    }
    assert (quantity * distance) * rr == (notional / 10_000.0) * (rr * (ratio * 10_000.0)) by {
      assert (notional * ratio) * rr == notional * (rr * ratio);
    }
    assert BpsOf(notional * 2.0, fee) + BpsOf(notional * 2.0, slip) == (notional / 10_000.0) * (2.0 * (fee + slip));
  }

  predicate CostsLeaveReward(cfg: Settings, stopBps: real) {
    Product(cfg.targetRr, stopBps) > 2.0 * (cfg.estimatedFeeBps + cfg.estimatedSlippageBps)
  }

  lemma {:induction false} PositiveTimesSign(a: real, b: real)
    requires a > 0.0
    ensures a * b > 0.0 <==> b > 0.0
  {
    ScaleOrder(a, 0.0, b);
  }

  /** Whether costs eat the reward depends on the stop distance and the settings, never on the account. */
  lemma {:induction false} EconomicsOfSize(cfg: Settings, equity: real, entry: real, distance: real)
    requires equity > 0.0 && entry > 0.0 && distance > 0.0
    ensures var e := PlanEconomics(cfg, SizeFor(cfg, equity, entry, distance), distance);
            && e.rr == cfg.targetRr
            && (e.netReward > 0.0 <==> CostsLeaveReward(cfg, Product(Ratio(distance, entry), 10_000.0)))
  {
    SizeRespectsBudgets(cfg, equity, entry, distance);
    var c := SizeFor(cfg, equity, entry, distance);
    RewardRatioIsTarget(c.risk, cfg.targetRr);
    NetRewardInBps(c.quantity, entry, distance, cfg.targetRr, cfg.estimatedFeeBps, cfg.estimatedSlippageBps);
    PositiveTimesSign(c.notional / 10_000.0,
      Product(cfg.targetRr, Product(Ratio(distance, entry), 10_000.0))
      - 2.0 * (cfg.estimatedFeeBps + cfg.estimatedSlippageBps));
  }

  /** The checks on the signal and on the feed. */
  predicate Admissible(cfg: Settings, s: Signal, feed: Option<Feed>, now: int) {
    && !s.direction.NoTrade? && s.actionable && s.score >= cfg.signalMinScore
    && s.openTime.Some? && s.closeTime.Some?
    && s.generatedAt.Some? && now - s.generatedAt.value <= 1000 * cfg.maxSignalAgeSeconds
    && s.close.Some? && s.close.value > 0.0 && s.atr.Some? && s.atr.value > 0.0
    && (feed.Some? ==> feed.value.Healthy(s.symbol))
  }

  function StopBpsOf(cfg: Settings, s: Signal): real
    requires s.close.Some? && s.close.value > 0.0 && s.atr.Some?
  {
    Product(Ratio(Product(s.atr.value, cfg.atrStopMultiplier), s.close.value), 10_000.0)
  }

  /** The account has room for one more position and for the risk it would add today. */
  predicate HasRoom(cfg: Settings, a: RiskAccount, risk: real) {
    && a.openCount < cfg.maxOpenPositions
    && WithinDailyLimit(a.realizedToday, risk, Product(a.equity, cfg.maxDailyLoss))
  }

  /** What was lost today, and that with the new risk added; a profit of today buys no further risk. */
  predicate WithinDailyLimit(realizedToday: real, risk: real, limit: real) {
    -realizedToday < limit && risk - realizedToday <= limit && risk <= limit
  }

  lemma {:induction false} RoomMeansNoReasons(cfg: Settings, a: RiskAccount, risk: real)
    ensures AccountReasons(a, risk, cfg) == [] <==> HasRoom(cfg, a, risk)
  {
    ProductPositive(a.equity, cfg.maxDailyLoss);
  }

  lemma {:induction false} AdmissibleMeansNoReasons(cfg: Settings, s: Signal, feed: Option<Feed>, now: int)
    ensures SignalReasons(s, cfg, now) + MarketReasons(s.symbol, feed) == [] <==> Admissible(cfg, s, feed, now)
  {
  }

  /** The complete rule of approval, in terms of the inputs alone. */
  predicate Approvable(cfg: Settings, s: Signal, feed: Option<Feed>, a: RiskAccount, now: int) {
    && Admissible(cfg, s, feed, now)
    && cfg.minStopDistanceBps <= StopBpsOf(cfg, s) <= cfg.maxStopDistanceBps
    && cfg.targetRr >= cfg.minRr
    && CostsLeaveReward(cfg, StopBpsOf(cfg, s))
    && HasRoom(cfg, a, SizeFor(cfg, a.equity, s.close.value,
                               LevelsFor(cfg, s.direction, s.close.value, s.atr.value).distance).risk)
  }

  /** A plan is approved exactly when it carries no reason, and exactly when the rule above holds. */
  lemma {:induction false} ApprovedIff(cfg: Settings, s: Signal, feed: Option<Feed>, a: RiskAccount, now: int)
    ensures var p := BuildPlan(cfg, s, feed, a, now);
            && (p.approved <==> p.reasons == [])
            && (p.approved <==> Approvable(cfg, s, feed, a, now))
  {
    AdmissibleMeansNoReasons(cfg, s, feed, now);
    if Admissible(cfg, s, feed, now) {
      var entry := s.close.value;
      var distance := LevelsFor(cfg, s.direction, entry, s.atr.value).distance;
      EconomicsOfSize(cfg, a.equity, entry, distance);
      RoomMeansNoReasons(cfg, a, SizeFor(cfg, a.equity, entry, distance).risk);
    }
  }

  /** Stop below entry below target for a long, the mirror image for a short. */
  predicate Ordered(d: Direction, stop: real, entry: real, target: real) {
    match d
    case Long => stop < entry < target
    case Short => target < entry < stop
    case NoTrade => false
  }

  lemma {:induction false} LevelsAreOrdered(cfg: Settings, d: Direction, entry: real, atr: real)
    requires !d.NoTrade? && entry > 0.0 && atr > 0.0
    ensures var l := LevelsFor(cfg, d, entry, atr);
            && l.distance == Product(atr, cfg.atrStopMultiplier)
            && Ordered(d, l.stop, entry, l.target)
            && Abs(entry - l.stop) == l.distance
            && Abs(l.target - entry) == Product(l.distance, cfg.targetRr)
  {
    ProductPositive(atr, cfg.atrStopMultiplier);
    ProductPositive(Product(atr, cfg.atrStopMultiplier), cfg.targetRr);
  }

  predicate Complete(p: Plan) {
    && p.entry.Some? && p.stop.Some? && p.target.Some? && p.quantity.Some? && p.actualRisk.Some?
    && p.notional.Some? && p.stopDistance.Some? && p.stopBps.Some? && p.rr.Some? && p.netReward.Some?
    && p.sourceOpen.Some? && p.sourceClose.Some? && p.generatedAt.Some?
  }

  /** Every promise an approved plan makes to the account that asked for it. */
  lemma {:induction false} ApprovedPlanKeepsBudgets(
    cfg: Settings, s: Signal, feed: Option<Feed>, a: RiskAccount, now: int)
    requires BuildPlan(cfg, s, feed, a, now).approved
    ensures var p := BuildPlan(cfg, s, feed, a, now);
            && Complete(p) && p.symbol == s.symbol && p.direction == s.direction
            && p.quantity.value > 0.0
            && p.actualRisk.value == Product(p.quantity.value, p.stopDistance.value)
            && p.actualRisk.value <= Product(a.equity, cfg.riskPerTrade)
            && p.notional.value == Product(p.quantity.value, p.entry.value)
            && p.notional.value <= Product(a.equity, cfg.maxPositionNotionalMultiplier)
            && WithinDailyLimit(a.realizedToday, p.actualRisk.value, Product(a.equity, cfg.maxDailyLoss))
            && a.openCount < cfg.maxOpenPositions
            && Ordered(p.direction, p.stop.value, p.entry.value, p.target.value)
            && Abs(p.entry.value - p.stop.value) == p.stopDistance.value
            && p.rr.value == cfg.targetRr && cfg.targetRr >= cfg.minRr
            && p.netReward.value > 0.0
  {
    ApprovedIff(cfg, s, feed, a, now);
    var entry := s.close.value;
    LevelsAreOrdered(cfg, s.direction, entry, s.atr.value);
    var distance := LevelsFor(cfg, s.direction, entry, s.atr.value).distance;
    SizeRespectsBudgets(cfg, a.equity, entry, distance);
    EconomicsOfSize(cfg, a.equity, entry, distance);
    AdmissibleMeansNoReasons(cfg, s, feed, now);
  }

  /** Every figure of an approved plan, in terms of the signal, the account and the settings. */
  lemma {:induction false} ApprovedPlanFigures(
    cfg: Settings, s: Signal, feed: Option<Feed>, a: RiskAccount, now: int)
    requires BuildPlan(cfg, s, feed, a, now).approved
    ensures var p := BuildPlan(cfg, s, feed, a, now);
            && Complete(p) && p.plannedRisk.Some? && p.reward.Some? && p.fees.Some? && p.slippage.Some?
            && p.symbol == s.symbol && p.timeframe == s.timeframe && p.direction == s.direction && p.score == s.score
            && p.sourceOpen == s.openTime && p.sourceClose == s.closeTime && p.generatedAt == Some(now)
            && p.entry == s.close && s.atr.Some?
            && p.stopDistance.value == Product(s.atr.value, cfg.atrStopMultiplier)
            && Product(p.stopBps.value, p.entry.value) == Product(10_000.0, p.stopDistance.value)
            && p.plannedRisk.value == Product(a.equity, cfg.riskPerTrade)
            && (p.actualRisk.value == p.plannedRisk.value
                || p.notional.value == Product(a.equity, cfg.maxPositionNotionalMultiplier))
            && p.reward.value == Product(p.actualRisk.value, cfg.targetRr)
            && Product(10_000.0, p.fees.value) == Product(2.0 * p.notional.value, cfg.estimatedFeeBps)
            && Product(10_000.0, p.slippage.value) == Product(2.0 * p.notional.value, cfg.estimatedSlippageBps)
            && p.netReward.value == p.reward.value - p.fees.value - p.slippage.value
  {
    ApprovedIff(cfg, s, feed, a, now);
    AdmissibleMeansNoReasons(cfg, s, feed, now);
    var entry := s.close.value;
    LevelsAreOrdered(cfg, s.direction, entry, s.atr.value);
    var distance := LevelsFor(cfg, s.direction, entry, s.atr.value).distance;
    SizeRespectsBudgets(cfg, a.equity, entry, distance);
    BpsTimesWhole(distance, entry);
    FiguresOf(cfg, SizeFor(cfg, a.equity, entry, distance), distance);
  }

  lemma {:induction false} BpsTimesWhole(part: real, whole: real)
    requires whole > 0.0
    ensures Product(Product(Ratio(part, whole), 10_000.0), whole) == Product(10_000.0, part)
  {
    var q := part / whole;
    assert (q * 10_000.0) * whole == 10_000.0 * (q * whole);
  }

  lemma {:induction false} FiguresOf(cfg: Settings, c: Capped, distance: real)
    requires c.risk == Product(c.quantity, distance)
    ensures var e := PlanEconomics(cfg, c, distance);
            && e.reward == Product(c.risk, cfg.targetRr)
            && Product(10_000.0, e.fees) == Product(2.0 * c.notional, cfg.estimatedFeeBps)
            && Product(10_000.0, e.slippage) == Product(2.0 * c.notional, cfg.estimatedSlippageBps)
            && e.netReward == e.reward - e.fees - e.slippage
  {
    TenThousandths(c.notional * 2.0, cfg.estimatedFeeBps);
    TenThousandths(c.notional * 2.0, cfg.estimatedSlippageBps);
  }

  lemma {:induction false} TenThousandths(amount: real, bps: real)
    ensures Product(10_000.0, BpsOf(amount, bps)) == Product(amount, bps)
  {
  }
}
