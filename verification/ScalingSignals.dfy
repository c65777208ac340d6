/** Indicators, signals and plans commute with a change of units. */
module ScalingSignals {
  import opened Common
  import opened Configuration
  import opened Market
  import opened Indicators
  import opened Strategy
  import opened Risk
  import opened Scaling

  // ---------------------------------------------------------------------
  // Indicators
  // ---------------------------------------------------------------------

  lemma {:induction false} AverageScales(k: real, xs: seq<real>, ys: seq<real>)
    requires k > 0.0 && |xs| > 0 && |ys| == |xs| && forall i :: 0 <= i < |xs| ==> ys[i] == Product(k, xs[i])
    ensures Average(ys) == Product(k, Average(xs))
  {
    SumInUnits(Itself, k, xs, ys);
    RatioOfScaled(k, Sum(Itself, xs), |xs| as real);
  }

  lemma {:induction false} NextEmaScales(k: real, x: real, previous: real, n: nat)
    ensures NextEma(Product(k, x), Product(k, previous), n) == Product(k, NextEma(x, previous, n))
  {
    var m := (n + 1) as real;
    ScaleQuotient(k, (x - previous) * 2.0, m);
    assert (k * x - k * previous) * 2.0 == k * ((x - previous) * 2.0);
  }

  lemma {:induction false} NextWilderScales(k: real, x: real, previous: real, n: nat)
    requires n > 0
    ensures NextWilder(Product(k, x), Product(k, previous), n) == Product(k, NextWilder(x, previous, n))
  {
    var m := (n - 1) as real;
    ScaleQuotient(k, previous * m + x, n as real);
    assert (k * previous) * m + k * x == k * (previous * m + x);
  }

  lemma {:induction false} RsiScales(k: real, gain: NonNegative, loss: NonNegative)
    requires k > 0.0
    ensures RsiFromAverages(Grown(k, gain), Grown(k, loss)) == RsiFromAverages(gain, loss)
  {
    ScaleOrder(k, gain, 0.0);
    ScaleOrder(k, loss, 0.0);
    if gain > 0.0 && loss > 0.0 {
      ScaleBothSides(k, gain, loss);
    }
  }

  lemma {:induction false} DifferencesScale(k: real, a: real, b: real)
    requires k > 0.0
    ensures Abs(Product(k, a) - Product(k, b)) == Product(k, Abs(a - b))
    ensures Max(Product(k, a) - Product(k, b), 0.0) == Product(k, Max(a - b, 0.0))
    ensures Max(-(Product(k, a) - Product(k, b)), 0.0) == Product(k, Max(-(a - b), 0.0))
  {
    ProductDistributes(k, a, b);
    ProductDistributes(k, a - b, 0.0);
    ProductExtremes(k, a - b, 0.0);
    ProductExtremes(k, -(a - b), 0.0);
  }

  lemma {:induction false} TrueRangeScales(k: real, high: real, low: real, previous: Option<real>)
    requires k > 0.0
    ensures TrueRange(Product(k, high), Product(k, low), Times(k, previous))
            == Product(k, TrueRange(high, low, previous))
  {
    ProductDistributes(k, high, low);
    if previous.Some? {
      var p := previous.value;
      DifferencesScale(k, high, p);
      DifferencesScale(k, low, p);
      ProductExtremes(k, Abs(high - p), Abs(low - p));
      ProductExtremes(k, high - low, Max(Abs(high - p), Abs(low - p)));
    }
  }

  lemma {:induction false} AllTimesAppend(k: real, xs: seq<real>, x: real)
    ensures AllTimes(k, xs + [x]) == AllTimes(k, xs) + [Product(k, x)]
  {
  }

  lemma {:induction false} UpdateEmaScales(k: real, n: nat, e: Ema, x: real)
    requires k > 0.0
    ensures UpdateEma(n, EmaIn(k, e), Product(k, x)) == EmaIn(k, UpdateEma(n, e, x))
  {
    if e.value.Some? {
      NextEmaScales(k, x, e.value.value, n);
    } else {
      AllTimesAppend(k, e.seed, x);
      AverageScales(k, e.seed + [x], AllTimes(k, e.seed + [x]));
    }
  }

  lemma {:induction false} UpdateWilderScales(k: real, n: nat, e: Ema, x: real)
    requires k > 0.0 && n > 0
    ensures UpdateWilder(n, EmaIn(k, e), Product(k, x)) == EmaIn(k, UpdateWilder(n, e, x))
  {
    if e.value.Some? {
      NextWilderScales(k, x, e.value.value, n);
    } else {
      AllTimesAppend(k, e.seed, x);
      AverageScales(k, e.seed + [x], AllTimes(k, e.seed + [x]));
    }
  }

  lemma {:induction false} UpdateAtrScales(z: Scale, n: nat, previous: Option<real>, e: Ema, c: Candle)
    requires n > 0
    ensures UpdateAtr(n, Times(z.k, previous), EmaIn(z.k, e), CandleIn(z, c))
            == EmaIn(z.k, UpdateAtr(n, previous, e, c))
  {
    TrueRangeScales(z.k, c.high, c.low, previous);
    UpdateWilderScales(z.k, n, e, TrueRange(c.high, c.low, previous));
  }

  lemma {:induction false} AllGrownAppend(k: real, xs: seq<NonNegative>, x: NonNegative)
    requires k > 0.0
    ensures AllGrown(k, xs + [x]) == AllGrown(k, xs) + [Grown(k, x)]
  {
  }

  lemma {:induction false} AverageGrows(k: real, xs: seq<NonNegative>)
    requires k > 0.0 && |xs| > 0
    ensures AverageNonNegative(AllGrown(k, xs)) == Grown(k, AverageNonNegative(xs))
  {
    AverageScales(k, xs, AllGrown(k, xs));
  }

  /** The update of gains and losses, once the two movements are known. */
  lemma {:induction false} SeededMomentumScales(k: real, gains: seq<NonNegative>, losses: seq<NonNegative>)
    requires k > 0.0 && |gains| > 0 && |losses| > 0
    ensures var g, l := AverageNonNegative(gains), AverageNonNegative(losses);
            var g', l' := AverageNonNegative(AllGrown(k, gains)), AverageNonNegative(AllGrown(k, losses));
            g' == Grown(k, g) && l' == Grown(k, l) && RsiFromAverages(g', l') == RsiFromAverages(g, l)
  {
    AverageGrows(k, gains);
    AverageGrows(k, losses);
    RsiScales(k, AverageNonNegative(gains), AverageNonNegative(losses));
  }

  lemma {:induction false} SmoothedMomentumScales(
    k: real, n: nat, gain: NonNegative, loss: NonNegative, g: NonNegative, l: NonNegative)
    requires k > 0.0 && n > 0
    ensures var g1, l1 := NextWilder(gain, g, n), NextWilder(loss, l, n);
            var g2, l2 := NextWilder(Grown(k, gain), Grown(k, g), n), NextWilder(Grown(k, loss), Grown(k, l), n);
            g2 == Grown(k, g1) && l2 == Grown(k, l1) && RsiFromAverages(g2, l2) == RsiFromAverages(g1, l1)
  {
    NextWilderScales(k, gain, g, n);
    NextWilderScales(k, loss, l, n);
    RsiScales(k, NextWilder(gain, g, n), NextWilder(loss, l, n));
  }

  lemma {:induction false} UpdateRsiScales(k: real, n: nat, previous: Option<real>, m: Momentum, close: real)
    requires k > 0.0 && n > 0
    ensures UpdateRsi(n, Times(k, previous), MomentumIn(k, m), Product(k, close)).0
            == MomentumIn(k, UpdateRsi(n, previous, m, close).0)
    ensures UpdateRsi(n, Times(k, previous), MomentumIn(k, m), Product(k, close)).1
            == UpdateRsi(n, previous, m, close).1
  {
    if previous.Some? {
      DifferencesScale(k, close, previous.value);
      var change := close - previous.value;
      var gain: NonNegative, loss: NonNegative := Max(change, 0.0), Max(-change, 0.0);
      if m.averageGain.None? || m.averageLoss.None? {
        AllGrownAppend(k, m.gains, gain);
        AllGrownAppend(k, m.losses, loss);
        SeededMomentumScales(k, m.gains + [gain], m.losses + [loss]);
      } else {
        SmoothedMomentumScales(k, n, gain, loss, m.averageGain.value, m.averageLoss.value);
      }
    }
  }

  lemma {:induction false} TradedValueScales(z: Scale, c: Candle)
    ensures TradedValue(CandleIn(z, c)) == Product(TurnoverUnit(z), TradedValue(c))
  {
    var price := c.high + c.low + c.close;
    ScaleQuotient(z.k, price, 3.0);
    assert z.k * c.high + z.k * c.low + z.k * c.close == z.k * price;
    var typical := price / 3.0;
    assert (z.k * typical) * (z.m * c.volume) == (z.k * z.m) * (typical * c.volume);
  }

  lemma {:induction false} VwapRatioScales(z: Scale, numerator: real, volume: real)
    requires volume > 0.0
    ensures Product(z.m, volume) > 0.0
    ensures Ratio(Product(TurnoverUnit(z), numerator), Product(z.m, volume)) == Product(z.k, Ratio(numerator, volume))
  {
    ProductPositive(z.m, volume);
    var r := numerator / volume;
    assert (z.k * z.m) * numerator == (z.k * r) * (z.m * volume) by {
      assert numerator == r * volume;
      assert (z.k * r) * (z.m * volume) == (z.k * z.m) * (r * volume);
    }
    QuotientUnique((z.k * z.m) * numerator, z.m * volume, z.k * r);
  }

  lemma {:induction false} SessionGrows(z: Scale, base: Session, c: Candle)
    ensures SessionIn(z, base).numerator + TradedValue(CandleIn(z, c))
            == Product(TurnoverUnit(z), base.numerator + TradedValue(c))
    ensures SessionIn(z, base).volume + CandleIn(z, c).volume == Product(z.m, base.volume + c.volume)
  {
    TradedValueScales(z, c);
    ProductDistributes(TurnoverUnit(z), base.numerator, TradedValue(c));
    ProductDistributes(z.m, base.volume, c.volume);
  }

  lemma {:induction false} EmptySessionScales(z: Scale, day: Option<int>)
    ensures SessionIn(z, Session(day, 0.0, 0.0)) == Session(day, 0.0, 0.0)
  {
    ProductDistributes(TurnoverUnit(z), 0.0, 0.0);
    ProductDistributes(z.m, 0.0, 0.0);
  }

  lemma {:induction false} UpdateVwapScales(z: Scale, s: Session, c: Candle)
    ensures UpdateVwap(SessionIn(z, s), CandleIn(z, c)).0 == SessionIn(z, UpdateVwap(s, c).0)
    ensures UpdateVwap(SessionIn(z, s), CandleIn(z, c)).1 == Times(z.k, UpdateVwap(s, c).1)
  {
    var day := Some(Day(c.openTime));
    var next := UpdateVwap(s, c).0;
    EmptySessionScales(z, day);
    SessionGrows(z, if s.day != day then Session(day, 0.0, 0.0) else s, c);
    ProductOrder(z.m, next.volume, 0.0);
    if next.volume > 0.0 {
      VwapRatioScales(z, next.numerator, next.volume);
    }
  }

  lemma {:induction false} WindowScales(m: real, xs: seq<real>, n: nat)
    ensures LastN(AllTimes(m, xs), n) == AllTimes(m, LastN(xs, n))
  {
  }

  lemma {:induction false} VolumesScale(m: real, n: nat, volumes: seq<real>, volume: real)
    requires m > 0.0 && n > 0
    ensures LastN(AllTimes(m, volumes) + [Product(m, volume)], n) == AllTimes(m, LastN(volumes + [volume], n))
    ensures VolumeMa(n, AllTimes(m, LastN(volumes + [volume], n)))
            == Times(m, VolumeMa(n, LastN(volumes + [volume], n)))
  {
    var all := volumes + [volume];
    AllTimesAppend(m, volumes, volume);
    WindowScales(m, all, n);
    if |LastN(all, n)| == n {
      AverageScales(m, LastN(all, n), AllTimes(m, LastN(all, n)));
    }
  }

  lemma {:induction false} MakeSnapshotScales(
    z: Scale, c: Candle, fast: Option<real>, slow: Option<real>, rsi: Option<real>, atr: Option<real>,
    vwap: Option<real>, volumeMa: Option<real>)
    ensures MakeSnapshot(CandleIn(z, c), Times(z.k, fast), Times(z.k, slow), rsi, Times(z.k, atr), Times(z.k, vwap),
                         Times(z.m, volumeMa))
            == SnapshotIn(z, MakeSnapshot(c, fast, slow, rsi, atr, vwap, volumeMa))
  {
  }

  /** One candle: every indicator value changes by its own unit, and RSI not at all. */
  lemma {:induction false} AdvanceScales(z: Scale, cfg: Settings, s: IndicatorState, c: Candle)
    ensures Advance(SettingsIn(z, cfg), StateIn(z, s), CandleIn(z, c)).0 == StateIn(z, Advance(cfg, s, c).0)
    ensures Advance(SettingsIn(z, cfg), StateIn(z, s), CandleIn(z, c)).1 == SnapshotIn(z, Advance(cfg, s, c).1)
  {
    var fast, slow := UpdateEma(cfg.emaFastPeriod, s.fast, c.close), UpdateEma(cfg.emaSlowPeriod, s.slow, c.close);
    var (momentum, rsi) := UpdateRsi(cfg.rsiPeriod, s.previousClose, s.momentum, c.close);
    var range := UpdateAtr(cfg.atrPeriod, s.previousClose, s.range, c);
    var (session, vwap) := UpdateVwap(s.session, c);
    var volumes := LastN(s.volumes + [c.volume], cfg.volumeMaPeriod);
    UpdateEmaScales(z.k, cfg.emaFastPeriod, s.fast, c.close);
    UpdateEmaScales(z.k, cfg.emaSlowPeriod, s.slow, c.close);
    UpdateRsiScales(z.k, cfg.rsiPeriod, s.previousClose, s.momentum, c.close);
    UpdateAtrScales(z, cfg.atrPeriod, s.previousClose, s.range, c);
    UpdateVwapScales(z, s.session, c);
    VolumesScale(z.m, cfg.volumeMaPeriod, s.volumes, c.volume);
    MakeSnapshotScales(z, c, fast.value, slow.value, rsi, range.value, vwap, VolumeMa(cfg.volumeMaPeriod, volumes));
    AdvanceFromParts(cfg, s, c, fast, slow, momentum, rsi, range, session, vwap);
    AdvanceFromParts(SettingsIn(z, cfg), StateIn(z, s), CandleIn(z, c), EmaIn(z.k, fast), EmaIn(z.k, slow),
                     MomentumIn(z.k, momentum), rsi, EmaIn(z.k, range), SessionIn(z, session), Times(z.k, vwap));
  }

  lemma {:induction false} ValidationIgnoresUnits(z: Scale, c: Candle, symbols: seq<string>, timeframe: string)
    ensures ValidateCandle(CandleIn(z, c), symbols, timeframe) == ValidateCandle(c, symbols, timeframe)
  {
    ProductOrder(z.k, c.open, 0.0);
    ProductOrder(z.k, c.high, 0.0);
    ProductOrder(z.k, c.low, 0.0);
    ProductOrder(z.k, c.close, 0.0);
    ProductOrder(z.m, c.volume, 0.0);
    ProductOrder(z.k, c.high, c.low);
    ProductOrder(z.k, c.high, c.open);
    ProductOrder(z.k, c.high, c.close);
    ProductOrder(z.k, c.open, c.low);
    ProductOrder(z.k, c.close, c.low);
  }

  lemma {:induction false} InitialStateScales(z: Scale)
    ensures StateIn(z, INITIAL) == INITIAL
  {
    EmptySessionScales(z, None);
  }

  lemma {:induction false} StateAtScales(z: Scale, states: map<Key, IndicatorState>, key: Key)
    ensures StateAt(StatesIn(z, states), key) == StateIn(z, StateAt(states, key))
  {
    InitialStateScales(z);
  }

  lemma {:induction false} StatesUpdate(z: Scale, states: map<Key, IndicatorState>, key: Key, s: IndicatorState)
    ensures StatesIn(z, states)[key := StateIn(z, s)] == StatesIn(z, states[key := s])
  {
  }

  function ProcessedIn(z: Scale, r: Result<(map<Key, IndicatorState>, Option<Snapshot>), MarketError>)
    : Result<(map<Key, IndicatorState>, Option<Snapshot>), MarketError>
  {
    match r
    case Err(e) => Err(e)
    case Ok(p) => Ok((StatesIn(z, p.0), if p.1.None? then None else Some(SnapshotIn(z, p.1.value))))
  }

  lemma {:induction false} ProcessScales(z: Scale, cfg: Settings, states: map<Key, IndicatorState>, c: Candle)
    ensures Process(SettingsIn(z, cfg), StatesIn(z, states), CandleIn(z, c)) == ProcessedIn(z, Process(cfg, states, c))
  {
    ValidationIgnoresUnits(z, c, cfg.symbols, cfg.defaultTimeframe);
    var key := KeyOf(c);
    var s := StateAt(states, key);
    StateAtScales(z, states, key);
    AdvanceScales(z, cfg, s, c);
    StatesUpdate(z, states, key, s);
    StatesUpdate(z, states, key, Advance(cfg, s, c).0);
  }

  // ---------------------------------------------------------------------
  // Signals
  // ---------------------------------------------------------------------

  lemma {:induction false} FiltersIgnoreUnits(k: real, a: real, b: real)
    requires k > 0.0
    ensures BpsDistance(Product(k, a), Product(k, b)) == BpsDistance(a, b)
    ensures RatioOf(Product(k, a), Product(k, b)) == RatioOf(a, b)
    ensures RelativeBps(Product(k, a), Product(k, b)) == RelativeBps(a, b)
  {
    ProductOrder(k, b, 0.0);
    DifferencesScale(k, a, b);
    if b > 0.0 {
      RatioOfScaled(k, Abs(a - b), b);
      RatioOfScaled(k, a, b);
    }
  }

  function ValuesIn(z: Scale, v: Values): Values {
    Values(Product(z.k, v.close), Product(z.k, v.emaFast), Product(z.k, v.emaSlow), v.rsi, Product(z.k, v.atr),
           Product(z.k, v.vwap), Product(z.m, v.volume), Product(z.m, v.volumeMa))
  }

  lemma {:induction false} RulesIgnoreUnits(z: Scale, cfg: Settings, v: Values)
    ensures Bullish(ValuesIn(z, v)) == Bullish(v)
    ensures Score(SettingsIn(z, cfg), ValuesIn(z, v)) == Score(cfg, v)
    ensures AllPass(SettingsIn(z, cfg), ValuesIn(z, v)) == AllPass(cfg, v)
  {
    ProductOrder(z.k, v.emaSlow, v.emaFast);
    ProductOrder(z.k, v.vwap, v.close);
    ProductOrder(z.k, v.close, v.vwap);
    FiltersIgnoreUnits(z.k, v.emaFast, v.emaSlow);
    FiltersIgnoreUnits(z.k, v.close, v.vwap);
    FiltersIgnoreUnits(z.m, v.volume, v.volumeMa);
    FiltersIgnoreUnits(z.k, v.atr, v.close);
  }

  /** Every score and every verdict of the strategy is free of units. */
  lemma {:induction false} EvaluationIgnoresUnits(z: Scale, cfg: Settings, s: Snapshot)
    ensures Evaluated(SettingsIn(z, cfg), SnapshotIn(z, s)) == Evaluated(cfg, s)
  {
    if s.ready && ValuesOf(s).Some? {
      var v := ValuesOf(s).value;
      ProductOrder(z.k, v.emaFast, v.emaSlow);
      RulesIgnoreUnits(z, cfg, v);
      assert ValuesOf(SnapshotIn(z, s)) == Some(ValuesIn(z, v));
    }
  }

  lemma {:induction false} BuildSignalScales(z: Scale, cfg: Settings, s: Snapshot, feed: Option<Feed>, wall: int)
    ensures BuildSignal(SettingsIn(z, cfg), SnapshotIn(z, s), feed, wall)
            == SignalIn(z, BuildSignal(cfg, s, feed, wall))
  {
    EvaluationIgnoresUnits(z, cfg, s);
  }

  // ---------------------------------------------------------------------
  // Plans
  // ---------------------------------------------------------------------

  lemma {:induction false} BpsOfScales(c: real, amount: real, bps: real)
    ensures BpsOf(Product(c, amount), bps) == Product(c, BpsOf(amount, bps))
  {
    ScaleQuotient(c, amount * bps, 10_000.0);
    assert (c * amount) * bps == c * (amount * bps);
  }

  function LevelsIn(z: Scale, l: Levels): Levels {
    Levels(Product(z.k, l.stop), Product(z.k, l.target), Product(z.k, l.distance))
  }

  lemma {:induction false} LevelsScale(z: Scale, cfg: Settings, d: Direction, entry: real, atr: real)
    requires !d.NoTrade? && entry > 0.0 && atr > 0.0
    ensures Product(z.k, entry) > 0.0 && Product(z.k, atr) > 0.0
    ensures LevelsFor(SettingsIn(z, cfg), d, Product(z.k, entry), Product(z.k, atr))
            == LevelsIn(z, LevelsFor(cfg, d, entry, atr))
  {
    ProductPositive(z.k, entry);
    ProductPositive(z.k, atr);
    var distance := Product(atr, cfg.atrStopMultiplier);
    ProductOfProduct(z.k, atr, cfg.atrStopMultiplier);
    ProductOfProduct(z.k, distance, cfg.targetRr);
    ProductDistributes(z.k, entry, distance);
    ProductDistributes(z.k, entry, Product(distance, cfg.targetRr));
  }

  function CappedIn(z: Scale, c: Capped): Capped {
    Capped(Product(z.c, c.notional), Product(z.q, c.quantity), Product(z.c, c.risk))
  }

  lemma {:induction false} SizeScales(z: Scale, cfg: Settings, equity: real, entry: real, distance: real)
    requires equity > 0.0 && entry > 0.0 && distance > 0.0
    ensures Product(z.c, equity) > 0.0 && Product(z.k, entry) > 0.0 && Product(z.k, distance) > 0.0
    ensures SizeFor(SettingsIn(z, cfg), Product(z.c, equity), Product(z.k, entry), Product(z.k, distance))
            == CappedIn(z, SizeFor(cfg, equity, entry, distance))
  {
    ProductPositive(z.c, equity);
    ProductPositive(z.k, entry);
    ProductPositive(z.k, distance);
    var planned, maximum := PlannedRisk(equity, cfg), MaximumNotional(equity, cfg);
    ProductOfProduct(z.c, equity, cfg.riskPerTrade);
    ProductOfProduct(z.c, equity, cfg.maxPositionNotionalMultiplier);
    MoneyOverPrice(z, planned, distance);
    var raw := Product(Ratio(planned, distance), entry);
    QuantityTimesPrice(z, Ratio(planned, distance), entry);
    ProductExtremes(z.c, raw, maximum);
    var capped := Min(raw, maximum);
    MoneyOverPrice(z, capped, entry);
    QuantityTimesPrice(z, Ratio(capped, entry), distance);
  }

  function EconomicsIn(z: Scale, e: Economics): Economics {
    Economics(Product(z.c, e.reward), e.rr, Product(z.c, e.fees), Product(z.c, e.slippage), Product(z.c, e.netReward))
  }

  lemma {:induction false} EconomicsScale(z: Scale, cfg: Settings, c: Capped, distance: real)
    ensures PlanEconomics(SettingsIn(z, cfg), CappedIn(z, c), Product(z.k, distance))
            == EconomicsIn(z, PlanEconomics(cfg, c, distance))
  {
    QuantityTimesPrice(z, c.quantity, distance);
    ProductOfProduct(z.c, Product(c.quantity, distance), cfg.targetRr);
    var reward := Product(Product(c.quantity, distance), cfg.targetRr);
    ProductOrder(z.c, c.risk, 0.0);
    if c.risk > 0.0 {
      RatioOfScaled(z.c, reward, c.risk);
    }
    assert Product(z.c, c.notional) * 2.0 == Product(z.c, c.notional * 2.0);
    BpsOfScales(z.c, c.notional * 2.0, cfg.estimatedFeeBps);
    BpsOfScales(z.c, c.notional * 2.0, cfg.estimatedSlippageBps);
    var fees, slippage :=
      BpsOf(c.notional * 2.0, cfg.estimatedFeeBps), BpsOf(c.notional * 2.0, cfg.estimatedSlippageBps);
    ProductDistributes(z.c, reward, fees);
    ProductDistributes(z.c, reward - fees, slippage);
  }

  lemma {:induction false} AccountGuardIgnoresUnits(z: Scale, cfg: Settings, a: RiskAccount, proposed: real)
    ensures AccountReasons(RiskAccountIn(z, a), Product(z.c, proposed), SettingsIn(z, cfg))
            == AccountReasons(a, proposed, cfg)
  {
    ProductOfProduct(z.c, a.equity, cfg.maxDailyLoss);
    var limit := DailyLimit(a.equity, cfg);
    ProductDistributes(z.c, a.realizedToday, 0.0);
    ProductExtremes(z.c, -a.realizedToday, 0.0);
    var used := a.DailyLossUsed();
    ProductOrder(z.c, limit, used);
    ProductDistributes(z.c, used, proposed);
    ProductOrder(z.c, used + proposed, limit);
  }

  lemma {:induction false} SignalGuardIgnoresUnits(z: Scale, cfg: Settings, s: Signal, now: int)
    ensures SignalReasons(SignalIn(z, s), SettingsIn(z, cfg), now) == SignalReasons(s, cfg, now)
  {
    if s.close.Some? {
      ProductOrder(z.k, s.close.value, 0.0);
    }
    if s.atr.Some? {
      ProductOrder(z.k, s.atr.value, 0.0);
    }
  }

  lemma {:induction false} SizedPlanScales(z: Scale, cfg: Settings, p: Plan, a: RiskAccount, c: Capped, distance: real)
    ensures SizedPlan(SettingsIn(z, cfg), PlanIn(z, p), RiskAccountIn(z, a), CappedIn(z, c), Product(z.k, distance))
            == PlanIn(z, SizedPlan(cfg, p, a, c, distance))
  {
    EconomicsScale(z, cfg, c, distance);
    AccountGuardIgnoresUnits(z, cfg, a, c.risk);
    ProductOrder(z.c, PlanEconomics(cfg, c, distance).netReward, 0.0);
  }

  lemma {:induction false} WithLevelsScales(z: Scale, base: Plan, entry: real, l: Levels, planned: real)
    requires entry > 0.0
    ensures Product(z.k, entry) > 0.0
    ensures WithLevels(PlanIn(z, base), Product(z.k, entry), LevelsIn(z, l), Product(z.c, planned))
            == PlanIn(z, WithLevels(base, entry, l, planned))
  {
    ProductPositive(z.k, entry);
    RatioOfScaled(z.k, l.distance, entry);
  }

  /** The same signal in other units gives the same plan in those units, with the same verdict. */
  lemma {:induction false} BuildPlanScales(
    z: Scale, cfg: Settings, s: Signal, feed: Option<Feed>, a: RiskAccount, now: int)
    ensures BuildPlan(SettingsIn(z, cfg), SignalIn(z, s), feed, RiskAccountIn(z, a), now)
            == PlanIn(z, BuildPlan(cfg, s, feed, a, now))
  {
    SignalGuardIgnoresUnits(z, cfg, s, now);
    if SignalReasons(s, cfg, now) + MarketReasons(s.symbol, feed) == [] {
      var entry, atr := s.close.value, s.atr.value;
      var levels := LevelsFor(cfg, s.direction, entry, atr);
      LevelsScale(z, cfg, s.direction, entry, atr);
      ProductOfProduct(z.c, a.equity, cfg.riskPerTrade);
      WithLevelsScales(z, BasePlan(s, now), entry, levels, PlannedRisk(a.equity, cfg));
      var p := WithLevels(BasePlan(s, now), entry, levels, PlannedRisk(a.equity, cfg));
      SizeScales(z, cfg, a.equity, entry, levels.distance);
      SizedPlanScales(z, cfg, p, a, SizeFor(cfg, a.equity, entry, levels.distance), levels.distance);
    }
  }
}
