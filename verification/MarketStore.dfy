/** The bounded in-memory store of candles, against an unbounded log of the same stream. */
module MarketStore {
  import opened Common
  import opened Market

  /** What is kept of one symbol and timeframe: closed candles, and the one still forming. */
  datatype Slot = Slot(closed: seq<Candle>, current: Option<Candle>)

  const EMPTY := Slot([], None)

  function Last(cs: seq<Candle>): Candle
    requires |cs| > 0
  {
    cs[|cs| - 1]
  }

  predicate OlderThanClosed(cs: seq<Candle>, c: Candle) {
    |cs| > 0 && c.openTime < Last(cs).openTime
  }

  predicate CorrectsLatest(cs: seq<Candle>, c: Candle) {
    |cs| > 0 && c.openTime == Last(cs).openTime
  }

  /** A closed candle ends the forming one of the same or an earlier time. */
  function UpsertClosed(limit: nat, s: Slot, c: Candle): Slot {
    if OlderThanClosed(s.closed, c) then s
    else if CorrectsLatest(s.closed, c) then
      if Last(s.closed) == c then s else Slot(s.closed[|s.closed| - 1 := c], None)
    else
      Slot(LastN(s.closed + [c], limit),
           if s.current.Some? && s.current.value.openTime <= c.openTime then None else s.current)
  }

  function UpsertOpen(s: Slot, c: Candle): Slot {
    if |s.closed| > 0 && c.openTime <= Last(s.closed).openTime then s
    else if s.current.Some? && c.openTime < s.current.value.openTime then s
    else s.(current := Some(c))
  }

  function Upsert(limit: nat, s: Slot, c: Candle): Slot {
    if c.isClosed then UpsertClosed(limit, s, c) else UpsertOpen(s, c)
  }

  /** The slot after a whole stream of updates. */
  function SlotAfter(limit: nat, stream: seq<Candle>): Slot {
    if |stream| == 0 then EMPTY else Upsert(limit, SlotAfter(limit, stream[..|stream| - 1]), stream[|stream| - 1])
  }

  // ---------------------------------------------------------------------
  // The unbounded log
  // ---------------------------------------------------------------------

  /** Every closed candle ever accepted, in order; only the latest may still be corrected. */
  function Log(stream: seq<Candle>): seq<Candle> {
    if |stream| == 0 then []
    else LogNext(Log(stream[..|stream| - 1]), stream[|stream| - 1])
  }

  function LogNext(log: seq<Candle>, c: Candle): seq<Candle> {
    if !c.isClosed || OlderThanClosed(log, c) then log
    else if CorrectsLatest(log, c) then log[|log| - 1 := c]
    else log + [c]
  }

  ghost predicate Increasing(cs: seq<Candle>) {
    forall i, j :: 0 <= i < j < |cs| ==> cs[i].openTime < cs[j].openTime
  }

  /** The closed candles, followed by the forming one. */
  function Everything(cs: seq<Candle>, current: Option<Candle>): seq<Candle> {
    cs + (if current.Some? then [current.value] else [])
  }

  ghost predicate NewerThanAll(log: seq<Candle>, current: Option<Candle>) {
    current.Some? ==> !current.value.isClosed && (|log| > 0 ==> Last(log).openTime < current.value.openTime)
  }

  ghost predicate SlotOk(limit: nat, s: Slot, log: seq<Candle>) {
    s.closed == LastN(log, limit) && Increasing(log) && NewerThanAll(log, s.current)
  }

  lemma {:induction false} LastOfLastN(log: seq<Candle>, limit: nat)
    requires limit > 0
    ensures |LastN(log, limit)| > 0 <==> |log| > 0
    ensures |log| > 0 ==> Last(LastN(log, limit)) == Last(log)
  {
  }

  lemma {:induction false} CorrectLastN(log: seq<Candle>, limit: nat, c: Candle)
    requires limit > 0 && |log| > 0
    ensures var kept := LastN(log, limit);
            |kept| > 0 && kept[|kept| - 1 := c] == LastN(log[|log| - 1 := c], limit)
  {
    var kept := LastN(log, limit);
    var x, y := kept[|kept| - 1 := c], LastN(log[|log| - 1 := c], limit);
    assert |x| == |y|;
    forall i | 0 <= i < |x| ensures x[i] == y[i] {
    }
  }

  lemma {:induction false} LogStaysIncreasing(log: seq<Candle>, c: Candle)
    requires Increasing(log)
    ensures Increasing(LogNext(log, c))
  {
    var next := LogNext(log, c);
    if |log| > 0 {
      assert forall i :: 0 <= i < |log| ==> log[i].openTime <= Last(log).openTime;
    }
    forall i, j | 0 <= i < j < |next| ensures next[i].openTime < next[j].openTime {
    }
  }

  lemma {:induction false} CorrectionKeepsSlot(limit: nat, s: Slot, log: seq<Candle>, c: Candle)
    requires limit > 0 && SlotOk(limit, s, log) && c.isClosed && CorrectsLatest(log, c)
    ensures SlotOk(limit, Upsert(limit, s, c), log[|log| - 1 := c])
  {
    LastOfLastN(log, limit);
    LogStaysIncreasing(log, c);
    if Last(log) == c {
      SameCorrection(log, c);
    } else {
      CorrectLastN(log, limit, c);
    }
  }

  lemma {:induction false} AppendKeepsSlot(limit: nat, s: Slot, log: seq<Candle>, c: Candle)
    requires limit > 0 && SlotOk(limit, s, log)
    requires c.isClosed && !CorrectsLatest(log, c) && !OlderThanClosed(log, c)
    ensures SlotOk(limit, Upsert(limit, s, c), log + [c])
  {
    LastOfLastN(log, limit);
    LogStaysIncreasing(log, c);
    LastNAppend(log, c, limit);
  }

  lemma {:induction false} UpsertKeepsSlot(limit: nat, s: Slot, log: seq<Candle>, c: Candle)
    requires limit > 0 && SlotOk(limit, s, log)
    ensures SlotOk(limit, Upsert(limit, s, c), LogNext(log, c))
  {
    LastOfLastN(log, limit);
    if c.isClosed && CorrectsLatest(log, c) {
      CorrectionKeepsSlot(limit, s, log, c);
    } else if c.isClosed && !OlderThanClosed(log, c) {
      AppendKeepsSlot(limit, s, log, c);
    }
  }

  lemma {:induction false} SameCorrection(log: seq<Candle>, c: Candle)
    requires |log| > 0 && Last(log) == c
    ensures log[|log| - 1 := c] == log
  {
  }

  /**
   * After any stream of updates: the closed candles are the newest of the unbounded log, the
   * log is in strict order of time, and a forming candle is newer than all of them.
   */
  lemma {:induction false} StoreRefinesLog(limit: nat, stream: seq<Candle>)
    requires limit > 0
    ensures SlotOk(limit, SlotAfter(limit, stream), Log(stream))
  {
    if |stream| > 0 {
      var front := stream[..|stream| - 1];
      StoreRefinesLog(limit, front);
      UpsertKeepsSlot(limit, SlotAfter(limit, front), Log(front), stream[|stream| - 1]);
    }
  }

  /**
   * A forming candle is lost exactly to a closed candle that is not late and either is at least
   * as new, or corrects the latest closed candle; in the second case it is lost although newer.
   */
  lemma {:induction false} FormingIsLostIff(limit: nat, s: Slot, log: seq<Candle>, c: Candle)
    requires limit > 0 && SlotOk(limit, s, log) && s.current.Some?
    ensures Upsert(limit, s, c).current.None? <==>
              && c.isClosed && (|s.closed| > 0 ==> c.openTime >= Last(s.closed).openTime)
              && (s.current.value.openTime <= c.openTime || (CorrectsLatest(s.closed, c) && c != Last(s.closed)))
  {
    LastOfLastN(log, limit);
  }

  function At(openTime: int, close: real, isClosed: bool): Candle {
    Candle("BTCUSDT", "1m", openTime, openTime + 59_999, 100.0, 102.0, 99.0, close, 1.0, isClosed)
  }

  /** A corrected close arrives after the next minute has begun: the forming minute disappears. */
  lemma {:induction false} CorrectionDropsForming(limit: nat)
    requires limit > 0
    ensures var early := [At(0, 100.0, true), At(60_000, 101.0, false)];
            && SlotAfter(limit, early).current == Some(At(60_000, 101.0, false))
            && SlotAfter(limit, early + [At(0, 100.5, true)]) == Slot([At(0, 100.5, true)], None)
  {
    var a, b, c := At(0, 100.0, true), At(60_000, 101.0, false), At(0, 100.5, true);
    assert [a, b][..1] == [a] && [a][..0] == [];
    assert LastN([a], limit) == [a];
    assert SlotAfter(limit, [a]) == Slot([a], None);
    assert ([a, b] + [c])[..2] == [a, b];
    assert [a][0 := c] == [c];
  }

  /**
   * An update arrives late if a newer candle is closed already, or, before it is closed, if one as
   * new is or a newer one forms.
   */
  predicate ArrivesLate(s: Slot, c: Candle) {
    || (|s.closed| > 0 && c.openTime < s.closed[|s.closed| - 1].openTime)
    || (!c.isClosed && |s.closed| > 0 && c.openTime == s.closed[|s.closed| - 1].openTime)
    || (!c.isClosed && s.current.Some? && c.openTime < s.current.value.openTime)
  }

  /** A late update changes nothing; any other is the newest of its kind afterwards. */
  lemma {:induction false} NewestUpdateIsKept(limit: nat, s: Slot, c: Candle)
    requires limit > 0
    ensures var next := Upsert(limit, s, c);
            if ArrivesLate(s, c) then next == s
            else if c.isClosed then |next.closed| > 0 && next.closed[|next.closed| - 1] == c
            else next.current == Some(c) && next.closed == s.closed
  {
  }

  lemma {:induction false} SameUnlessAccepted(limit: nat, s: Slot, c: Candle)
    requires limit > 0
    ensures Upsert(limit, s, c) == s <==>
              || (c.isClosed && OlderThanClosed(s.closed, c))
              || (c.isClosed && CorrectsLatest(s.closed, c) && Last(s.closed) == c)
              || (!c.isClosed && |s.closed| > 0 && c.openTime <= Last(s.closed).openTime)
              || (!c.isClosed && s.current.Some? && c.openTime < s.current.value.openTime)
              || (!c.isClosed && s.current == Some(c))
  {
    if c.isClosed && !OlderThanClosed(s.closed, c) && !CorrectsLatest(s.closed, c) {
      assert Last(LastN(s.closed + [c], limit)) == c;
      assert |s.closed| > 0 ==> Last(s.closed).openTime != c.openTime;
    } else if c.isClosed && CorrectsLatest(s.closed, c) && Last(s.closed) != c {
      assert Last(s.closed[|s.closed| - 1 := c]) == c;
    }
  }

  // ---------------------------------------------------------------------
  // Reading
  // ---------------------------------------------------------------------

  function Latest(s: Slot): Option<Candle> {
    if s.current.Some? then s.current else if |s.closed| > 0 then Some(Last(s.closed)) else None
  }

  function Recent(s: Slot, count: int): seq<Candle> {
    Tail(Everything(s.closed, s.current), count)
  }

  lemma {:induction false} NewestOfKept(log: seq<Candle>, tail: seq<Candle>, limit: nat, count: nat)
    requires count <= limit
    ensures LastN(LastN(log, limit) + tail, count) == LastN(log + tail, count)
  {
    var x, y := LastN(LastN(log, limit) + tail, count), LastN(log + tail, count);
    assert |x| == |y|;
    forall i | 0 <= i < |x| ensures x[i] == y[i] {
    }
  }

  lemma {:induction false} EverythingIsIncreasing(log: seq<Candle>, current: Option<Candle>)
    requires Increasing(log) && NewerThanAll(log, current)
    ensures Increasing(Everything(log, current))
  {
    if current.Some? && |log| > 0 {
      assert forall i :: 0 <= i < |log| ==> log[i].openTime <= Last(log).openTime;
    }
  }

  lemma {:induction false} NewestIsIncreasing(cs: seq<Candle>, count: nat)
    requires Increasing(cs)
    ensures Increasing(LastN(cs, count))
  {
  }

  lemma {:induction false} LatestIsLast(limit: nat, s: Slot, log: seq<Candle>)
    requires limit > 0 && SlotOk(limit, s, log)
    ensures var all := Everything(log, s.current); Latest(s) == (if |all| > 0 then Some(Last(all)) else None)
  {
    LastOfLastN(log, limit);
  }

  lemma {:induction false} RecentOfSlot(limit: nat, s: Slot, log: seq<Candle>, count: nat)
    requires 0 < count <= limit && SlotOk(limit, s, log)
    ensures Recent(s, count) == LastN(Everything(log, s.current), count) && Increasing(Recent(s, count))
  {
    NewestOfKept(log, if s.current.Some? then [s.current.value] else [], limit, count);
    EverythingIsIncreasing(log, s.current);
    NewestIsIncreasing(Everything(log, s.current), count);
  }

  /** Within the limit, the recent candles are the newest ever known, as if nothing had been dropped. */
  lemma {:induction false} RecentIsNewest(limit: nat, stream: seq<Candle>, count: nat)
    requires 0 < count <= limit
    ensures var s, all := SlotAfter(limit, stream), Everything(Log(stream), SlotAfter(limit, stream).current);
            && Recent(s, count) == LastN(all, count)
            && Increasing(Recent(s, count))
            && Latest(s) == (if |all| > 0 then Some(Last(all)) else None)
  {
    StoreRefinesLog(limit, stream);
    LatestIsLast(limit, SlotAfter(limit, stream), Log(stream));
    RecentOfSlot(limit, SlotAfter(limit, stream), Log(stream), count);
  }

  // ---------------------------------------------------------------------
  // The store, in place
  // ---------------------------------------------------------------------

  class CandleStore {
    const limit: nat
    var closed: map<Key, seq<Candle>>
    var current: map<Key, Candle>
    ghost var streams: map<Key, seq<Candle>>

    function SlotOf(key: Key): Slot
      reads this
    {
      Slot(if key in closed then closed[key] else [], if key in current then Some(current[key]) else None)
    }

    ghost function StreamOf(key: Key): seq<Candle>
      reads this
    {
      if key in streams then streams[key] else []
    }

    /** Every slot is what its own stream of updates makes of it. */
    ghost predicate Valid()
      reads this
    {
      limit > 0 && forall key :: SlotOf(key) == SlotAfter(limit, StreamOf(key))
    }

    constructor (limit: nat)
      requires limit > 0
      ensures Valid() && this.limit == limit && streams == map[]
    {
      this.limit := limit;
      closed, current, streams := map[], map[], map[];
    }

    /** The index of the candle with this opening time; there can only be one, the last. */
    static method FindOpening(history: seq<Candle>, openTime: int) returns (index: Option<nat>)
      requires Increasing(history) && (|history| > 0 ==> Last(history).openTime <= openTime)
      ensures index == if |history| > 0 && Last(history).openTime == openTime then Some(|history| - 1) else None
    {
      assert forall i :: 0 <= i < |history| - 1 ==> history[i].openTime < Last(history).openTime;
      for i := 0 to |history|
        invariant forall k :: 0 <= k < i ==> history[k].openTime != openTime
      {
        if history[i].openTime == openTime {
          return Some(i);
        }
      }
      index := None;
    }

    method StoreClosed(key: Key, c: Candle) returns (changed: bool)
      requires limit > 0 && Increasing(SlotOf(key).closed)
      modifies this`closed, this`current
      ensures SlotOf(key) == UpsertClosed(limit, old(SlotOf(key)), c)
      ensures changed <==> SlotOf(key) != old(SlotOf(key))
      ensures forall other :: other != key ==> SlotOf(other) == old(SlotOf(other))
    {
      var history := if key in closed then closed[key] else [];
      SameUnlessAccepted(limit, SlotOf(key), c.(isClosed := true));
      closed := closed[key := history];
      if |history| > 0 && c.openTime < Last(history).openTime {
        return false;
      }
      var index := FindOpening(history, c.openTime);
      if index.Some? {
        if history[index.value] == c {
          return false;
        }
        closed := closed[key := history[index.value := c]];
        current := current - {key};
        return true;
      }
      closed := closed[key := LastN(history + [c], limit)];
      if key in current && current[key].openTime <= c.openTime {
        current := current - {key};
      }
      changed := true;
    }

    method StoreOpen(key: Key, c: Candle) returns (changed: bool)
      modifies this`current
      ensures SlotOf(key) == UpsertOpen(old(SlotOf(key)), c)
      ensures changed <==> SlotOf(key) != old(SlotOf(key))
      ensures forall other :: other != key ==> SlotOf(other) == old(SlotOf(other))
    {
      if key in closed && |closed[key]| > 0 && c.openTime <= Last(closed[key]).openTime {
        return false;
      }
      if key in current && c.openTime < current[key].openTime {
        return false;
      }
      if key in current && current[key] == c {
        return false;
      }
      current := current[key := c];
      changed := true;
    }

    /** Reports whether anything changed, and touches only the candle's own key. */
    method UpsertCandle(c: Candle) returns (changed: bool)
      requires Valid()
      modifies this
      ensures Valid()
      ensures streams == old(streams)[KeyOf(c) := old(StreamOf(KeyOf(c))) + [c]]
      ensures changed <==> SlotOf(KeyOf(c)) != old(SlotOf(KeyOf(c)))
    {
      var key := KeyOf(c);
      ghost var before := StreamOf(key);
      assert (before + [c])[..|before|] == before;
      ClosedIncreasing(key);
      if c.isClosed {
        changed := StoreClosed(key, c);
      } else {
        changed := StoreOpen(key, c);
      }
      streams := streams[key := before + [c]];
      assert SlotOf(key) == SlotAfter(limit, StreamOf(key));
      forall other | other != key ensures SlotOf(other) == SlotAfter(limit, StreamOf(other)) {
        assert StreamOf(other) == old(StreamOf(other));
      }
    }

    lemma ClosedIncreasing(key: Key)
      requires Valid()
      ensures Increasing(SlotOf(key).closed)
    {
      StoreRefinesLog(limit, StreamOf(key));
      NewestIsIncreasing(Log(StreamOf(key)), limit);
    }

    method GetLatestCandle(symbol: string, timeframe: string) returns (c: Option<Candle>)
      requires Valid()
      ensures c == Latest(SlotAfter(limit, StreamOf(Key(symbol, timeframe))))
    {
      var key := Key(symbol, timeframe);
      if key in current {
        return Some(current[key]);
      }
      assert SlotOf(key) == SlotAfter(limit, StreamOf(key));
      c := if key in closed && |closed[key]| > 0 then Some(Last(closed[key])) else None;
    }

    method GetRecentCandles(symbol: string, timeframe: string, count: int) returns (cs: seq<Candle>)
      requires Valid()
      ensures cs == Recent(SlotAfter(limit, StreamOf(Key(symbol, timeframe))), count)
    {
      var key := Key(symbol, timeframe);
      var candles := if key in closed then closed[key] else [];
      if key in current {
        candles := candles + [current[key]];
      }
      assert SlotOf(key) == SlotAfter(limit, StreamOf(key));
      assert SlotOf(key).closed + [] == SlotOf(key).closed;
      cs := Tail(candles, count);
    }
  }
}
