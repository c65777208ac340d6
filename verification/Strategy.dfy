/** Deterministic scoring of one closed-candle snapshot, and the engine that emits each signal once. */
module Strategy {
  import opened Common
  import opened Configuration
  import opened Market
  import opened Indicators

  datatype Direction = Long | Short | NoTrade

  datatype Evaluation = Evaluation(direction: Direction, score: int, mandatoryPassed: bool)

  const NOTHING := Evaluation(NoTrade, 0, false)

  const TREND_WEIGHT := 30
  const VWAP_WEIGHT := 20
  const RSI_WEIGHT := 20
  const VOLUME_WEIGHT := 20
  const ATR_WEIGHT := 10

  // ---------------------------------------------------------------------
  // Filters: a missing result marks an invalid reference value
  // ---------------------------------------------------------------------

  function BpsDistance(left: real, right: real): Option<real> {
    if right <= 0.0 then None else Some(Product(Ratio(Abs(left - right), right), 10_000.0))
  }

  function RatioOf(value: real, baseline: real): Option<real> {
    if baseline <= 0.0 then None else Some(Ratio(value, baseline))
  }

  function RelativeBps(value: real, reference: real): Option<real> {
    if reference <= 0.0 then None else Some(Product(Ratio(value, reference), 10_000.0))
  }

  predicate AtLeast(x: Option<real>, limit: real) {
    x.Some? && x.value >= limit
  }

  // ---------------------------------------------------------------------
  // The five rules
  // ---------------------------------------------------------------------

  /** The values of a snapshot in which none is missing. */
  datatype Values = Values(
    close: real, emaFast: real, emaSlow: real, rsi: real, atr: real, vwap: real, volume: real, volumeMa: real)

  function ValuesOf(s: Snapshot): Option<Values> {
    if s.close.Some? && s.emaFast.Some? && s.emaSlow.Some? && s.rsi.Some? && s.atr.Some? && s.vwap.Some?
       && s.volume.Some? && s.volumeMa.Some?
    then Some(Values(s.close.value, s.emaFast.value, s.emaSlow.value, s.rsi.value, s.atr.value, s.vwap.value,
                     s.volume.value, s.volumeMa.value))
    else None
  }

  predicate Bullish(v: Values) {
    v.emaFast > v.emaSlow
  }

  predicate TrendPasses(cfg: Settings, v: Values) {
    AtLeast(BpsDistance(v.emaFast, v.emaSlow), cfg.minEmaSeparationBps)
  }

  predicate VwapPasses(cfg: Settings, v: Values) {
    && (if Bullish(v) then v.close > v.vwap else v.close < v.vwap)
    && AtLeast(BpsDistance(v.close, v.vwap), cfg.minVwapDistanceBps)
  }

  predicate RsiPasses(cfg: Settings, v: Values) {
    if Bullish(v) then cfg.rsiLongMin <= v.rsi <= cfg.rsiLongMax else cfg.rsiShortMin <= v.rsi <= cfg.rsiShortMax
  }

  predicate VolumePasses(cfg: Settings, v: Values) {
    AtLeast(RatioOf(v.volume, v.volumeMa), cfg.minVolumeRatio)
  }

  predicate AtrPasses(cfg: Settings, v: Values) {
    AtLeast(RelativeBps(v.atr, v.close), cfg.minAtrBps) && RelativeBps(v.atr, v.close).value <= cfg.maxAtrBps
  }

  function Points(passed: bool, weight: int): int {
    if passed then weight else 0
  }

  /** What the accumulating evaluation amounts to: the weights of the rules that pass. */
  function Score(cfg: Settings, v: Values): int {
    Points(TrendPasses(cfg, v), TREND_WEIGHT) + Points(VwapPasses(cfg, v), VWAP_WEIGHT)
    + Points(RsiPasses(cfg, v), RSI_WEIGHT) + Points(VolumePasses(cfg, v), VOLUME_WEIGHT)
    + Points(AtrPasses(cfg, v), ATR_WEIGHT)
  }

  predicate AllPass(cfg: Settings, v: Values) {
    TrendPasses(cfg, v) && VwapPasses(cfg, v) && RsiPasses(cfg, v) && VolumePasses(cfg, v) && AtrPasses(cfg, v)
  }

  function Evaluated(cfg: Settings, s: Snapshot): Evaluation {
    var values := ValuesOf(s);
    if !s.ready || values.None? || values.value.emaFast == values.value.emaSlow then NOTHING
    else
      var v := values.value;
      Evaluation(if Bullish(v) then Long else Short, Score(cfg, v), AllPass(cfg, v))
  }

  method Evaluate(cfg: Settings, s: Snapshot) returns (r: Evaluation)
    ensures r == Evaluated(cfg, s)
  {
    if !s.ready {
      return NOTHING;
    }
    var values := ValuesOf(s);
    if values.None? {
      return NOTHING;
    }
    var v := values.value;
    if v.emaFast == v.emaSlow {
      return NOTHING;
    }
    var direction := if v.emaFast > v.emaSlow then Long else Short;
    var score, mandatoryPassed := 0, true;

    var emaDistance := BpsDistance(v.emaFast, v.emaSlow);
    if emaDistance.Some? && emaDistance.value >= cfg.minEmaSeparationBps {
      score := score + TREND_WEIGHT;
    } else {
      mandatoryPassed := false;
    }
    var vwapDistance := BpsDistance(v.close, v.vwap);
    var onSide := if direction.Long? then v.close > v.vwap else v.close < v.vwap;
    if onSide && vwapDistance.Some? && vwapDistance.value >= cfg.minVwapDistanceBps {
      score := score + VWAP_WEIGHT;
    } else {
      mandatoryPassed := false;
    }
    var low, high := cfg.rsiShortMin, cfg.rsiShortMax;
    if direction.Long? {
      low, high := cfg.rsiLongMin, cfg.rsiLongMax;
    }
    if low <= v.rsi <= high {
      score := score + RSI_WEIGHT;
    } else {
      mandatoryPassed := false;
    }
    var volumeRatio := RatioOf(v.volume, v.volumeMa);
    if volumeRatio.Some? && volumeRatio.value >= cfg.minVolumeRatio {
      score := score + VOLUME_WEIGHT;
    } else {
      mandatoryPassed := false;
    }
    var atrBps := RelativeBps(v.atr, v.close);
    if atrBps.Some? && cfg.minAtrBps <= atrBps.value <= cfg.maxAtrBps {
      score := score + ATR_WEIGHT;
    } else {
      mandatoryPassed := false;
    }
    r := Evaluation(direction, score, mandatoryPassed);
  }

  /**
   * Every rule is mandatory, so an evaluation passes exactly when it scores all hundred
   * points, and no accepted minimum score can turn it away: the score gate is redundant.
   */
  lemma {:induction false} PassingMeansFullScore(cfg: Settings, s: Snapshot)
    ensures var e := Evaluated(cfg, s);
            && 0 <= e.score <= 100
            && (e.mandatoryPassed <==> e.score == 100)
            && (e.mandatoryPassed && e.score >= cfg.signalMinScore <==> e.score == 100)
            && (e.score == 100 ==> e.direction == (if s.emaFast.value > s.emaSlow.value then Long else Short))
  {
  }

  // ---------------------------------------------------------------------
  // The rules written out
  // ---------------------------------------------------------------------

  /** A quotient in basis points against a limit, without dividing. */
  lemma {:induction false} BpsAtLeast(part: real, whole: real, limit: real)
    requires whole > 0.0
    ensures Product(Ratio(part, whole), 10_000.0) >= limit <==> 10_000.0 * part >= limit * whole
    ensures Product(Ratio(part, whole), 10_000.0) <= limit <==> 10_000.0 * part <= limit * whole
  {
    var q := part / whole;
    assert part == q * whole;
    ScaleOrder(whole, limit, 10_000.0 * q);
    ScaleOrder(whole, 10_000.0 * q, limit);
    assert (10_000.0 * q) * whole == 10_000.0 * part;
  }

  lemma {:induction false} RatioAtLeast(part: real, whole: real, limit: real)
    requires whole > 0.0
    ensures Ratio(part, whole) >= limit <==> part >= limit * whole
  {
    ScaleOrder(whole, limit, part / whole);
    ScaleOrder(whole, part / whole, limit);
  }

  predicate HasValues(s: Snapshot) {
    && s.close.Some? && s.emaFast.Some? && s.emaSlow.Some? && s.rsi.Some? && s.atr.Some? && s.vwap.Some?
    && s.volume.Some? && s.volumeMa.Some?
  }

  ghost predicate Separated(cfg: Settings, fast: real, slow: real, long: bool) {
    slow > 0.0 && 10_000.0 * (if long then fast - slow else slow - fast) >= cfg.minEmaSeparationBps * slow
  }

  ghost predicate OnSide(cfg: Settings, close: real, vwap: real, long: bool) {
    && vwap > 0.0 && (if long then vwap < close else close < vwap)
    && 10_000.0 * (if long then close - vwap else vwap - close) >= cfg.minVwapDistanceBps * vwap
  }

  ghost predicate InBand(cfg: Settings, rsi: real, long: bool) {
    if long then cfg.rsiLongMin <= rsi && rsi <= cfg.rsiLongMax else cfg.rsiShortMin <= rsi && rsi <= cfg.rsiShortMax
  }

  ghost predicate EnoughVolume(cfg: Settings, volume: real, mean: real) {
    mean > 0.0 && volume >= cfg.minVolumeRatio * mean
  }

  ghost predicate RightRange(cfg: Settings, atr: real, close: real) {
    close > 0.0 && cfg.minAtrBps * close <= 10_000.0 * atr && 10_000.0 * atr <= cfg.maxAtrBps * close
  }

  /** The five conditions on the values of a snapshot, in the order of the rules, for a long or a short. */
  ghost function Conditions(cfg: Settings, s: Snapshot, long: bool): (bool, bool, bool, bool, bool)
    requires HasValues(s)
  {
    (Separated(cfg, s.emaFast.value, s.emaSlow.value, long), OnSide(cfg, s.close.value, s.vwap.value, long),
     InBand(cfg, s.rsi.value, long), EnoughVolume(cfg, s.volume.value, s.volumeMa.value),
     RightRange(cfg, s.atr.value, s.close.value))
  }

  lemma {:induction false} TrendIsSeparation(cfg: Settings, v: Values)
    requires v.emaFast != v.emaSlow
    ensures TrendPasses(cfg, v) <==> Separated(cfg, v.emaFast, v.emaSlow, v.emaFast > v.emaSlow)
  {
    if v.emaSlow > 0.0 {
      BpsAtLeast(Abs(v.emaFast - v.emaSlow), v.emaSlow, cfg.minEmaSeparationBps);
    }
  }

  lemma {:induction false} VwapIsSide(cfg: Settings, v: Values)
    ensures VwapPasses(cfg, v) <==> OnSide(cfg, v.close, v.vwap, v.emaFast > v.emaSlow)
  {
    if v.vwap > 0.0 {
      BpsAtLeast(Abs(v.close - v.vwap), v.vwap, cfg.minVwapDistanceBps);
    }
  }

  lemma {:induction false} VolumeIsEnough(cfg: Settings, v: Values)
    ensures VolumePasses(cfg, v) <==> EnoughVolume(cfg, v.volume, v.volumeMa)
  {
    if v.volumeMa > 0.0 {
      RatioAtLeast(v.volume, v.volumeMa, cfg.minVolumeRatio);
    }
  }

  lemma {:induction false} AtrIsRight(cfg: Settings, v: Values)
    ensures AtrPasses(cfg, v) <==> RightRange(cfg, v.atr, v.close)
  {
    if v.close > 0.0 {
      BpsAtLeast(v.atr, v.close, cfg.minAtrBps);
      BpsAtLeast(v.atr, v.close, cfg.maxAtrBps);
    }
  }

  lemma {:induction false} RulesAreConditions(cfg: Settings, s: Snapshot, v: Values)
    requires HasValues(s) && ValuesOf(s) == Some(v) && v.emaFast != v.emaSlow
    ensures (TrendPasses(cfg, v), VwapPasses(cfg, v), RsiPasses(cfg, v), VolumePasses(cfg, v), AtrPasses(cfg, v))
            == Conditions(cfg, s, s.emaFast.value > s.emaSlow.value)
  {
    TrendIsSeparation(cfg, v);
    VwapIsSide(cfg, v);
    VolumeIsEnough(cfg, v);
    AtrIsRight(cfg, v);
  }

  function PointsFor(conditions: (bool, bool, bool, bool, bool)): int {
    (if conditions.0 then 30 else 0) + (if conditions.1 then 20 else 0) + (if conditions.2 then 20 else 0)
    + (if conditions.3 then 20 else 0) + (if conditions.4 then 10 else 0)
  }

  /** Whether a snapshot can be scored at all: the averages must differ to give a direction. */
  predicate Scorable(s: Snapshot) {
    s.ready && HasValues(s) && s.emaFast.value != s.emaSlow.value
  }

  /**
   * The score in terms of the values of the snapshot: the direction of the averages decides on
   * which side of VWAP the price must be and which band RSI must lie in, and a hundred points
   * mean that all five conditions hold.
   */
  lemma {:induction false} ScoreWrittenOut(cfg: Settings, s: Snapshot)
    ensures var e := Evaluated(cfg, s);
            if !Scorable(s) then e.direction == NoTrade && e.score == 0 && !e.mandatoryPassed
            else
              var long := s.emaFast.value > s.emaSlow.value;
              var conditions := Conditions(cfg, s, long);
              && e.direction == (if long then Long else Short)
              && e.score == PointsFor(conditions)
              && (e.score == 100 <==> conditions == (true, true, true, true, true))
              && (e.mandatoryPassed <==> conditions == (true, true, true, true, true))
  {
    if Scorable(s) {
      RulesAreConditions(cfg, s, ValuesOf(s).value);
    }
  }

  // ---------------------------------------------------------------------
  // Signals
  // ---------------------------------------------------------------------

  datatype Signal = Signal(
    symbol: string, timeframe: string, direction: Direction, score: int,
    openTime: Option<int>, closeTime: Option<int>, generatedAt: Option<int>, actionable: bool,
    close: Option<real>, atr: Option<real>)

  predicate StaleFor(feed: Option<Feed>, symbol: string) {
    feed.Some? && feed.value.StateOf(symbol).Stale?
  }

  /** `wall` is the wall clock, which the strategy reads even when it is replaying the past. */
  function SignalFrom(s: Snapshot, e: Evaluation, actionable: bool, wall: int): Signal {
    Signal(s.symbol, s.timeframe, if actionable then e.direction else NoTrade, e.score,
           s.openTime, s.closeTime, Some(wall), actionable, s.close, s.atr)
  }

  function BuildSignal(cfg: Settings, s: Snapshot, feed: Option<Feed>, wall: int): Signal {
    if StaleFor(feed, s.symbol) then SignalFrom(s, NOTHING, false, wall)
    else
      var e := Evaluated(cfg, s);
      SignalFrom(s, e, e.mandatoryPassed && e.score >= cfg.signalMinScore, wall)
  }

  function SnapshotKey(s: Snapshot): Key {
    Key(s.symbol, s.timeframe)
  }

  /** A later engine accepts an item only if it opens after the last one accepted for its key. */
  predicate Passes(watermarks: map<Key, int>, k: Key, openTime: Option<int>) {
    openTime.Some? && (k in watermarks ==> openTime.value > watermarks[k])
  }

  function ProcessSnapshot(cfg: Settings, watermarks: map<Key, int>, s: Snapshot, feed: Option<Feed>, wall: int)
    : (map<Key, int>, Option<Signal>)
  {
    if Passes(watermarks, SnapshotKey(s), s.openTime) then
      (watermarks[SnapshotKey(s) := s.openTime.value], Some(BuildSignal(cfg, s, feed, wall)))
    else (watermarks, None)
  }

  /** The feed of the symbol: its own status, or that of the whole feed when it has none. */
  ghost predicate FeedIs(feed: Feed, symbol: string, state: FeedState) {
    if symbol in feed.symbols then feed.symbols[symbol] == state else feed.overall == state
  }

  /** A snapshot is scored unless its feed is stale. */
  ghost predicate Scored(s: Snapshot, feed: Option<Feed>) {
    Scorable(s) && (feed.Some? ==> !FeedIs(feed.value, s.symbol, Stale))
  }

  /** A trade is signalled exactly on a feed that is not stale and with all five conditions. */
  ghost predicate Tradable(cfg: Settings, s: Snapshot, feed: Option<Feed>) {
    Scored(s, feed) && Conditions(cfg, s, s.emaFast.value > s.emaSlow.value) == (true, true, true, true, true)
  }

  /** What a signal says, in terms of the snapshot and the feed. */
  ghost predicate SignalSays(cfg: Settings, s: Snapshot, feed: Option<Feed>, wall: int, g: Signal) {
    && g.symbol == s.symbol && g.timeframe == s.timeframe && g.openTime == s.openTime && g.closeTime == s.closeTime
    && g.close == s.close && g.atr == s.atr && g.generatedAt == Some(wall)
    && (g.actionable <==> Tradable(cfg, s, feed))
    && g.direction == (if !g.actionable then NoTrade else if s.emaFast.value > s.emaSlow.value then Long else Short)
    && (g.actionable ==> g.score == 100)
    && g.score == (if Scored(s, feed) then PointsFor(Conditions(cfg, s, s.emaFast.value > s.emaSlow.value)) else 0)
  }

  lemma {:induction false} SignalWrittenOut(cfg: Settings, s: Snapshot, feed: Option<Feed>, wall: int)
    ensures SignalSays(cfg, s, feed, wall, BuildSignal(cfg, s, feed, wall))
  {
    ScoreWrittenOut(cfg, s);
  }

  class StrategyEngine {
    const settings: Settings
    var lastOpenTime: map<Key, int>

    constructor (settings: Settings)
      ensures this.settings == settings && lastOpenTime == map[]
    {
      this.settings := settings;
      lastOpenTime := map[];
    }

    method Process(s: Snapshot, feed: Option<Feed>, wall: int) returns (signal: Option<Signal>)
      modifies this
      ensures lastOpenTime == ProcessSnapshot(settings, old(lastOpenTime), s, feed, wall).0
      ensures signal == ProcessSnapshot(settings, old(lastOpenTime), s, feed, wall).1
      ensures signal.Some? ==> SignalSays(settings, s, feed, wall, signal.value)
    {
      SignalWrittenOut(settings, s, feed, wall);
      var key := SnapshotKey(s);
      if s.openTime.None? {
        return None;
      }
      if key in lastOpenTime && s.openTime.value <= lastOpenTime[key] {
        return None;
      }
      var built;
      if StaleFor(feed, s.symbol) {
        built := SignalFrom(s, NOTHING, false, wall);
      } else {
        var result := Evaluate(settings, s);
        var actionable := result.mandatoryPassed && result.score >= settings.signalMinScore;
        built := SignalFrom(s, result, actionable, wall);
      }
      lastOpenTime := lastOpenTime[key := s.openTime.value];
      signal := Some(built);
    }
  }
}
