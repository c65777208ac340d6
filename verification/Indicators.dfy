/**
 * Incremental technical indicators.  `Advance` and `Process` specify one candle's effect
 * on values; the classes at the end update their fields in place, as the engine does.
 */
module Indicators {
  import opened Common
  import opened Configuration
  import opened Market

  /** Gains and losses, and their averages, are never negative. */
  type NonNegative = r: real | r >= 0.0

  /** A moving average under construction: its seed values, then its current value. */
  datatype Ema = Ema(seed: seq<real>, value: Option<real>)

  datatype Momentum = Momentum(
    gains: seq<NonNegative>, losses: seq<NonNegative>,
    averageGain: Option<NonNegative>, averageLoss: Option<NonNegative>)

  datatype Session = Session(day: Option<int>, numerator: real, volume: real)

  datatype IndicatorState = IndicatorState(
    fast: Ema, slow: Ema, previousClose: Option<real>, momentum: Momentum, range: Ema,
    session: Session, volumes: seq<real>, lastOpenTime: Option<int>)

  datatype Snapshot = Snapshot(
    symbol: string, timeframe: string, openTime: Option<int>, closeTime: Option<int>,
    close: Option<real>, emaFast: Option<real>, emaSlow: Option<real>, rsi: Option<real>,
    atr: Option<real>, vwap: Option<real>, volume: Option<real>, volumeMa: Option<real>, ready: bool)

  const INITIAL := IndicatorState(
    Ema([], None), Ema([], None), None, Momentum([], [], None, None), Ema([], None),
    Session(None, 0.0, 0.0), [], None)

  // ---------------------------------------------------------------------
  // Calculation helpers
  // ---------------------------------------------------------------------

  function Itself(x: real): real {
    x
  }

  function Average(xs: seq<real>): real
    requires |xs| > 0
  {
    Sum(Itself, xs) / (|xs| as real)
  }

  function AverageNonNegative(xs: seq<NonNegative>): NonNegative
    requires |xs| > 0
  {
    assert forall i :: 0 <= i < |xs| ==> Itself(xs[i]) >= 0.0;
    SumNonNegative<real>(Itself, xs);
    Average(xs)
  }

  function NextEma(value: real, previous: real, period: nat): real {
    (value - previous) * 2.0 / ((period + 1) as real) + previous
  }

  /** Wilder's smoothing of an average gain, an average loss or a true range. */
  function NextWilder(value: real, previous: real, period: nat): (r: real)
    requires period > 0
    ensures value >= 0.0 && previous >= 0.0 ==> r >= 0.0
  {
    assert previous >= 0.0 ==> previous * ((period - 1) as real) >= 0.0;
    (previous * ((period - 1) as real) + value) / (period as real)
  }

  function RsiOfStrength(strength: real): real
    requires strength >= 0.0
  {
    100.0 - 100.0 / (1.0 + strength)
  }

  function RsiFromAverages(gain: NonNegative, loss: NonNegative): real {
    if gain == 0.0 && loss == 0.0 then 50.0
    else if loss == 0.0 then 100.0
    else if gain == 0.0 then 0.0
    else
      RsiOfStrength(gain / loss)
  }

  function TrueRange(high: real, low: real, previousClose: Option<real>): real {
    if previousClose.None? then high - low
    else Max(high - low, Max(Abs(high - previousClose.value), Abs(low - previousClose.value)))
  }

  function TypicalPrice(high: real, low: real, close: real): real {
    (high + low + close) / 3.0
  }

  function TradedValue(c: Candle): real {
    Product(TypicalPrice(c.high, c.low, c.close), c.volume)
  }

  // ---------------------------------------------------------------------
  // One candle
  // ---------------------------------------------------------------------

  function UpdateEma(period: nat, e: Ema, x: real): Ema {
    if e.value.Some? then e.(value := Some(NextEma(x, e.value.value, period)))
    else if |e.seed| + 1 == period then Ema(e.seed + [x], Some(Average(e.seed + [x])))
    else e.(seed := e.seed + [x])
  }

  function UpdateRsi(period: nat, previousClose: Option<real>, m: Momentum, close: real): (Momentum, Option<real>)
    requires period > 0
  {
    if previousClose.None? then (m, None)
    else
      var change := close - previousClose.value;
      var gain, loss := Max(change, 0.0), Max(-change, 0.0);
      if m.averageGain.None? || m.averageLoss.None? then
        var gains, losses := m.gains + [gain], m.losses + [loss];
        if |gains| < period then (m.(gains := gains, losses := losses), None)
        else
          var g, l := AverageNonNegative(gains), AverageNonNegative(losses);
          (Momentum(gains, losses, Some(g), Some(l)), Some(RsiFromAverages(g, l)))
      else
        var g := NextWilder(gain, m.averageGain.value, period);
        var l := NextWilder(loss, m.averageLoss.value, period);
        (m.(averageGain := Some(g), averageLoss := Some(l)), Some(RsiFromAverages(g, l)))
  }

  function UpdateWilder(period: nat, e: Ema, x: real): Ema
    requires period > 0
  {
    if e.value.None? then
      var seed := e.seed + [x];
      Ema(seed, if |seed| < period then None else Some(Average(seed)))
    else e.(value := Some(NextWilder(x, e.value.value, period)))
  }

  function UpdateAtr(period: nat, previousClose: Option<real>, e: Ema, c: Candle): Ema
    requires period > 0
  {
    UpdateWilder(period, e, TrueRange(c.high, c.low, previousClose))
  }

  function UpdateVwap(s: Session, c: Candle): (Session, Option<real>) {
    var day := Some(Day(c.openTime));
    var base := if s.day != day then Session(day, 0.0, 0.0) else s;
    var next := Session(day, base.numerator + TradedValue(c), base.volume + c.volume);
    (next, if next.volume > 0.0 then Some(Ratio(next.numerator, next.volume)) else None)
  }

  function VolumeMa(period: nat, volumes: seq<real>): Option<real>
    requires period > 0
  {
    if |volumes| == period then Some(Average(volumes)) else None
  }

  function MakeSnapshot(
    c: Candle, fast: Option<real>, slow: Option<real>, rsi: Option<real>, atr: Option<real>,
    vwap: Option<real>, volumeMa: Option<real>): Snapshot
  {
    if fast.Some? && slow.Some? && rsi.Some? && atr.Some? && vwap.Some? && volumeMa.Some? then
      Snapshot(c.symbol, c.timeframe, Some(c.openTime), Some(c.closeTime), Some(c.close),
               fast, slow, rsi, atr, vwap, Some(c.volume), volumeMa, true)
    else
      Snapshot(c.symbol, c.timeframe, Some(c.openTime), Some(c.closeTime), Some(c.close),
               None, None, None, None, None, Some(c.volume), None, false)
  }

  function Advance(cfg: Settings, s: IndicatorState, c: Candle): (IndicatorState, Snapshot) {
    var fast := UpdateEma(cfg.emaFastPeriod, s.fast, c.close);
    var slow := UpdateEma(cfg.emaSlowPeriod, s.slow, c.close);
    var (momentum, rsi) := UpdateRsi(cfg.rsiPeriod, s.previousClose, s.momentum, c.close);
    var range := UpdateAtr(cfg.atrPeriod, s.previousClose, s.range, c);
    var (session, vwap) := UpdateVwap(s.session, c);
    var volumes := LastN(s.volumes + [c.volume], cfg.volumeMaPeriod);
    (IndicatorState(fast, slow, Some(c.close), momentum, range, session, volumes, Some(c.openTime)),
     MakeSnapshot(c, fast.value, slow.value, rsi, range.value, vwap, VolumeMa(cfg.volumeMaPeriod, volumes)))
  }

  lemma {:induction false} AdvanceFromParts(
    cfg: Settings, s: IndicatorState, c: Candle, fast: Ema, slow: Ema, momentum: Momentum, rsi: Option<real>,
    range: Ema, session: Session, vwap: Option<real>)
    requires fast == UpdateEma(cfg.emaFastPeriod, s.fast, c.close)
    requires slow == UpdateEma(cfg.emaSlowPeriod, s.slow, c.close)
    requires momentum == UpdateRsi(cfg.rsiPeriod, s.previousClose, s.momentum, c.close).0
    requires rsi == UpdateRsi(cfg.rsiPeriod, s.previousClose, s.momentum, c.close).1
    requires range == UpdateAtr(cfg.atrPeriod, s.previousClose, s.range, c)
    requires session == UpdateVwap(s.session, c).0 && vwap == UpdateVwap(s.session, c).1
    ensures var volumes := LastN(s.volumes + [c.volume], cfg.volumeMaPeriod);
            Advance(cfg, s, c) ==
            (IndicatorState(fast, slow, Some(c.close), momentum, range, session, volumes, Some(c.openTime)),
             MakeSnapshot(c, fast.value, slow.value, rsi, range.value, vwap, VolumeMa(cfg.volumeMaPeriod, volumes)))
  {
  }

  // ---------------------------------------------------------------------
  // The engine: one state for each symbol and timeframe
  // ---------------------------------------------------------------------

  function StateAt(states: map<Key, IndicatorState>, k: Key): IndicatorState {
    if k in states then states[k] else INITIAL
  }

  predicate IsNewer(s: IndicatorState, c: Candle) {
    s.lastOpenTime.None? || c.openTime > s.lastOpenTime.value
  }

  /** A candle no newer than the last one of its key is ignored. */
  function Accept(cfg: Settings, s: IndicatorState, c: Candle): (r: (IndicatorState, Option<Snapshot>))
  {
    if IsNewer(s, c) then (Advance(cfg, s, c).0, Some(Advance(cfg, s, c).1)) else (s, None)
  }

  function ProcessClosed(cfg: Settings, states: map<Key, IndicatorState>, c: Candle)
    : (r: (map<Key, IndicatorState>, Option<Snapshot>))
  {
    var (next, snapshot) := Accept(cfg, StateAt(states, KeyOf(c)), c);
    (states[KeyOf(c) := next], snapshot)
  }

  /** Open candles are ignored before they are checked; an invalid closed candle raises. */
  function Process(cfg: Settings, states: map<Key, IndicatorState>, c: Candle)
    : (r: Result<(map<Key, IndicatorState>, Option<Snapshot>), MarketError>)
  {
    if !c.isClosed then Ok((states, None))
    else
      var error := ValidateCandle(c, cfg.symbols, cfg.defaultTimeframe);
      if error.Some? then Err(error.value) else Ok(ProcessClosed(cfg, states, c))
  }

  // ---------------------------------------------------------------------
  // The same, in place
  // ---------------------------------------------------------------------

  class SymbolIndicatorState {
    var fastSeed: seq<real>
    var slowSeed: seq<real>
    var emaFast: Option<real>
    var emaSlow: Option<real>
    var previousClose: Option<real>
    var gains: seq<NonNegative>
    var losses: seq<NonNegative>
    var averageGain: Option<NonNegative>
    var averageLoss: Option<NonNegative>
    var atrSeed: seq<real>
    var atr: Option<real>
    var sessionDay: Option<int>
    var vwapNumerator: real
    var vwapVolume: real
    var volumes: seq<real>
    var lastOpenTime: Option<int>

    ghost function View(): IndicatorState
      reads this
    {
      IndicatorState(
        Ema(fastSeed, emaFast), Ema(slowSeed, emaSlow), previousClose,
        Momentum(gains, losses, averageGain, averageLoss), Ema(atrSeed, atr),
        Session(sessionDay, vwapNumerator, vwapVolume), volumes, lastOpenTime)
    }

    constructor ()
      ensures View() == INITIAL
    {
      fastSeed, slowSeed, emaFast, emaSlow := [], [], None, None;
      previousClose, gains, losses, averageGain, averageLoss := None, [], [], None, None;
      atrSeed, atr := [], None;
      sessionDay, vwapNumerator, vwapVolume := None, 0.0, 0.0;
      volumes, lastOpenTime := [], None;
    }

    /** A seed list is appended to until it holds `period` values, and never again. */
    static method StepEma(value: real, seed: seq<real>, previous: Option<real>, period: nat)
      returns (grown: seq<real>, current: Option<real>)
      ensures Ema(grown, if current.Some? then current else previous) == UpdateEma(period, Ema(seed, previous), value)
    {
      if previous.Some? {
        return seed, Some(NextEma(value, previous.value, period));
      }
      grown := seed + [value];
      current := if |grown| == period then Some(Average(grown)) else None;
    }

    method StepRsi(cfg: Settings, close: real) returns (rsi: Option<real>)
      modifies this`gains, this`losses, this`averageGain, this`averageLoss
      ensures View().momentum == UpdateRsi(cfg.rsiPeriod, previousClose, old(View().momentum), close).0
      ensures rsi == UpdateRsi(cfg.rsiPeriod, previousClose, old(View().momentum), close).1
    {
      if previousClose.None? {
        return None;
      }
      var change := close - previousClose.value;
      var gain, loss := Max(change, 0.0), Max(-change, 0.0);
      if averageGain.None? || averageLoss.None? {
        gains := gains + [gain];
        losses := losses + [loss];
        if |gains| < cfg.rsiPeriod {
          return None;
        }
        averageGain := Some(AverageNonNegative(gains));
        averageLoss := Some(AverageNonNegative(losses));
      } else {
        averageGain := Some(NextWilder(gain, averageGain.value, cfg.rsiPeriod));
        averageLoss := Some(NextWilder(loss, averageLoss.value, cfg.rsiPeriod));
      }
      rsi := Some(RsiFromAverages(averageGain.value, averageLoss.value));
    }

    method StepAtr(cfg: Settings, c: Candle) returns (value: Option<real>)
      modifies this`atrSeed, this`atr
      ensures View().range == UpdateAtr(cfg.atrPeriod, previousClose, old(View().range), c)
      ensures value == atr
    {
      var range := TrueRange(c.high, c.low, previousClose);
      if atr.None? {
        atrSeed := atrSeed + [range];
        if |atrSeed| < cfg.atrPeriod {
          return None;
        }
        atr := Some(Average(atrSeed));
      } else {
        atr := Some(NextWilder(range, atr.value, cfg.atrPeriod));
      }
      value := atr;
    }

    method StepVwap(c: Candle) returns (vwap: Option<real>)
      modifies this`sessionDay, this`vwapNumerator, this`vwapVolume
      ensures View().session == UpdateVwap(old(View().session), c).0
      ensures vwap == UpdateVwap(old(View().session), c).1
    {
      if sessionDay != Some(Day(c.openTime)) {
        sessionDay := Some(Day(c.openTime));
        vwapNumerator, vwapVolume := 0.0, 0.0;
      }
      vwapNumerator := vwapNumerator + TradedValue(c);
      vwapVolume := vwapVolume + c.volume;
      vwap := if vwapVolume > 0.0 then Some(Ratio(vwapNumerator, vwapVolume)) else None;
    }

    method StepEmas(cfg: Settings, close: real)
      modifies this`fastSeed, this`emaFast, this`slowSeed, this`emaSlow
      ensures View().fast == UpdateEma(cfg.emaFastPeriod, old(View().fast), close)
      ensures View().slow == UpdateEma(cfg.emaSlowPeriod, old(View().slow), close)
    {
      var fast, slow;
      fastSeed, fast := StepEma(close, fastSeed, emaFast, cfg.emaFastPeriod);
      if fast.Some? {
        emaFast := fast;
      }
      slowSeed, slow := StepEma(close, slowSeed, emaSlow, cfg.emaSlowPeriod);
      if slow.Some? {
        emaSlow := slow;
      }
    }

    method StepWilders(cfg: Settings, c: Candle) returns (rsi: Option<real>, atrValue: Option<real>)
      modifies this`gains, this`losses, this`averageGain, this`averageLoss, this`atrSeed, this`atr
      ensures View().momentum == UpdateRsi(cfg.rsiPeriod, previousClose, old(View().momentum), c.close).0
      ensures rsi == UpdateRsi(cfg.rsiPeriod, previousClose, old(View().momentum), c.close).1
      ensures View().range == UpdateAtr(cfg.atrPeriod, previousClose, old(View().range), c)
      ensures atrValue == atr
    {
      rsi := StepRsi(cfg, c.close);
      atrValue := StepAtr(cfg, c);
    }

    method Finish(cfg: Settings, c: Candle, rsi: Option<real>, atrValue: Option<real>, vwap: Option<real>)
      returns (snapshot: Snapshot)
      modifies this`volumes, this`previousClose, this`lastOpenTime
      ensures volumes == LastN(old(volumes) + [c.volume], cfg.volumeMaPeriod)
      ensures previousClose == Some(c.close) && lastOpenTime == Some(c.openTime)
      ensures snapshot == MakeSnapshot(c, emaFast, emaSlow, rsi, atrValue, vwap, VolumeMa(cfg.volumeMaPeriod, volumes))
    {
      volumes := LastN(volumes + [c.volume], cfg.volumeMaPeriod);
      var volumeMa := VolumeMa(cfg.volumeMaPeriod, volumes);
      previousClose, lastOpenTime := Some(c.close), Some(c.openTime);
      snapshot := MakeSnapshot(c, emaFast, emaSlow, rsi, atrValue, vwap, volumeMa);
    }

    method AdvanceInPlace(cfg: Settings, c: Candle) returns (snapshot: Snapshot)
      modifies this
      ensures View() == Advance(cfg, old(View()), c).0
      ensures snapshot == Advance(cfg, old(View()), c).1
    {
      ghost var s := View();
      StepEmas(cfg, c.close);
      var rsi, atrValue := StepWilders(cfg, c);
      var vwap := StepVwap(c);
      ghost var v := View();
      AdvanceFromParts(cfg, s, c, v.fast, v.slow, v.momentum, rsi, v.range, v.session, vwap);
      snapshot := Finish(cfg, c, rsi, atrValue, vwap);
    }
  }

  class IndicatorEngine {
    const settings: Settings
    var states: map<Key, SymbolIndicatorState>
    ghost var Repr: set<object>

    ghost predicate Valid()
      reads this, Repr
    {
      && this in Repr
      && (forall k :: k in states ==> states[k] in Repr && states[k] as object != this)
      && (forall k, l :: k in states && l in states && k != l ==> states[k] != states[l])
    }

    ghost function View(): (m: map<Key, IndicatorState>)
      requires Valid()
      reads this, Repr
    {
      map k | k in states :: states[k].View()
    }

    constructor (settings: Settings)
      ensures Valid() && fresh(Repr) && View() == map[] && this.settings == settings
    {
      this.settings := settings;
      states := map[];
      Repr := {this};
    }

    /** The state of a key, created on first use. */
    method StateFor(key: Key) returns (state: SymbolIndicatorState)
      requires Valid()
      modifies this
      ensures Valid() && fresh(Repr - old(Repr))
      ensures key in states && states[key] == state
      ensures View() == old(View())[key := StateAt(old(View()), key)]
    {
      if key !in states {
        var created := new SymbolIndicatorState();
        states := states[key := created];
        Repr := Repr + {created};
      }
      state := states[key];
    }

    /** Changing the state of one key in place changes that entry of the view and no other. */
    twostate lemma {:induction false} OneEntryChanged(key: Key)
      requires old(Valid()) && Valid() && unchanged(this) && key in states
      requires forall k :: k in states && k != key ==> unchanged(states[k])
      ensures View() == old(View())[key := states[key].View()]
    {
    }

    /** One closed and valid candle of a key whose state exists. */
    method Admit(key: Key, state: SymbolIndicatorState, c: Candle) returns (snapshot: Option<Snapshot>)
      requires Valid() && key in states && states[key] == state
      modifies state
      ensures Valid()
      ensures View() == old(View())[key := state.View()]
      ensures (state.View(), snapshot) == Accept(settings, old(state.View()), c)
    {
      if state.lastOpenTime.Some? && c.openTime <= state.lastOpenTime.value {
        assert View() == old(View());
        return None;
      }
      var advanced := state.AdvanceInPlace(settings, c);
      OneEntryChanged(key);
      snapshot := Some(advanced);
    }

    method ProcessValid(c: Candle) returns (snapshot: Option<Snapshot>)
      requires Valid()
      modifies Repr
      ensures Valid() && fresh(Repr - old(Repr))
      ensures View() == ProcessClosed(settings, old(View()), c).0
      ensures snapshot == ProcessClosed(settings, old(View()), c).1
    {
      ghost var before := View();
      var state := StateFor(KeyOf(c));
      assert View()[KeyOf(c)] == state.View();
      snapshot := Admit(KeyOf(c), state, c);
    }

    /** An error leaves the engine as it was. */
    method ProcessCandle(c: Candle) returns (r: Result<Option<Snapshot>, MarketError>)
      requires Valid()
      modifies Repr
      ensures Valid() && fresh(Repr - old(Repr))
      ensures match Process(settings, old(View()), c)
              case Err(e) => r == Err(e) && View() == old(View())
              case Ok(p) => r == Ok(p.1) && View() == p.0
    {
      if !c.isClosed {
        return Ok(None);
      }
      var error := ValidateCandle(c, settings.symbols, settings.defaultTimeframe);
      if error.Some? {
        return Err(error.value);
      }
      var snapshot := ProcessValid(c);
      r := Ok(snapshot);
    }
  }
}
