/**
 * When a restart cannot lead to a repeated identity: if the candles that follow are newer than
 * what was stored, and in particular if the warm-up has already seen candles as late as that.
 */
module ForwardWarmUp {
  import opened Common
  import opened Configuration
  import opened Market
  import opened Indicators
  import opened Sorting
  import opened Strategy
  import opened Ledger
  import opened Session
  import opened BacktestInvariants
  import opened Forward
  import opened ForwardRuns

  // ---------------------------------------------------------------------
  // Newer candles
  // ---------------------------------------------------------------------

  /** The first candle of a key that the indicators accept opens after everything stored of that key. */
  ghost predicate FirstIsNewer(w: Platform, c: Candle) {
    c.isClosed && KeyOf(c) !in w.engines.riskMarks && IsNewer(StateAt(w.engines.states, KeyOf(c)), c) ==>
      forall id :: id in StoredKeys(w.base) && Key(id.symbol, id.timeframe) == KeyOf(c) ==> id.openTime < c.openTime
  }

  /** Once a key has a watermark, everything stored of that key is behind it. */
  ghost predicate Behind(marks: map<Key, int>, base: Store) {
    forall id :: id in StoredKeys(base) && Key(id.symbol, id.timeframe) in marks ==> Covers(marks, id)
  }

  lemma {:induction false} NewerIsNotStored(w: Platform, c: Candle)
    requires Behind(w.engines.riskMarks, w.base) && FirstIsNewer(w, c)
    requires c.isClosed && IsNewer(StateAt(w.engines.states, KeyOf(c)), c)
    requires Passes(w.engines.riskMarks, KeyOf(c), Some(c.openTime))
    ensures IdOf(c) !in StoredKeys(w.base)
    ensures Behind(w.engines.riskMarks[KeyOf(c) := c.openTime], w.base)
  {
    var marks := w.engines.riskMarks;
    forall id | Covers(marks, id) ensures Covers(marks[KeyOf(c) := c.openTime], id) {
    }
  }

  lemma {:induction false} AnalysisOfNewer(cfg: Settings, w: Platform, c: Candle, m: Moment)
    requires Behind(w.engines.riskMarks, w.base) && FirstIsNewer(w, c)
    ensures !Repeated(cfg, w, c, m)
    ensures var next := Analysed(cfg, w, c, m); Behind(next.engines.riskMarks, next.base)
  {
    var p := AnalysisAdvances(cfg, w, c, m);
    if p.Some? {
      NewerIsNotStored(w, c);
    }
  }

  lemma {:induction false} SeeingStaysBehind(
    cfg: Settings, w: Platform, c: Candle, feed: Feed, now: int, verdict: Option<bool>)
    requires Behind(w.engines.riskMarks, w.base) && FirstIsNewer(w, c)
    ensures var seen := Judged(Watched(cfg, w, c, now, feed), verdict);
            Behind(seen.engines.riskMarks, seen.base) && FirstIsNewer(seen, c)
  {
    SeeingLeavesEngines(cfg, w, c, now, feed, verdict);
  }

  lemma {:induction false} IngestOfNewer(
    cfg: Settings, w: Platform, c: Candle, feed: Feed, now: int, verdict: Option<bool>, m: Moment)
    requires Behind(w.engines.riskMarks, w.base) && FirstIsNewer(w, c)
    ensures !Repeated(cfg, Judged(Watched(cfg, w, c, now, feed), verdict), c, m)
    ensures var next := Ingested(cfg, w, c, feed, now, verdict, m); Behind(next.engines.riskMarks, next.base)
  {
    SeeingStaysBehind(cfg, w, c, feed, now, verdict);
    AnalysisOfNewer(cfg, Judged(Watched(cfg, w, c, now, feed), verdict), c, m);
  }

  lemma {:induction false} EventOfNewer(cfg: Settings, w: Platform, a: Event)
    requires Behind(w.engines.riskMarks, w.base) && (a.Ingest? ==> FirstIsNewer(w, a.candle))
    ensures !Repeats(cfg, w, a)
    ensures var next := Forward.Next(cfg, w, a); Behind(next.engines.riskMarks, next.base)
  {
    match a
    case Ingest(c, feed, now, verdict, m) => IngestOfNewer(cfg, w, c, feed, now, verdict, m);
    case SetEntries(_) =>
    case ReadBook(_) =>
    case Reconciling(_, _) =>
    case Restart(_, _, _, _) =>
  }

  /** If after every restart each key goes on with candles newer than what was stored, nothing is repeated. */
  lemma {:induction false} NewerRunsDoNotRepeat(
    cfg: Settings, start: int, warm: string -> Option<seq<Candle>>, events: seq<Event>, ws: seq<Platform>, n: nat)
    requires IsForwardRun(cfg, start, warm, events, ws) && n <= |events|
    requires forall j :: 0 <= j < n && events[j].Ingest? ==> FirstIsNewer(ws[j], events[j].candle)
    ensures Behind(ws[n].engines.riskMarks, ws[n].base) && NoRepeats(cfg, events, ws, n)
  {
    if n > 0 {
      NewerRunsDoNotRepeat(cfg, start, warm, events, ws, n - 1);
      EventOfNewer(cfg, ws[n - 1], events[n - 1]);
      assert ws[n - 1 + 1] == Forward.Next(cfg, ws[n - 1], events[n - 1]);
    }
  }

  // ---------------------------------------------------------------------
  // Warm indicators
  // ---------------------------------------------------------------------

  /** The indicators of a key have already seen a candle as late as this one. */
  ghost predicate SeenAsLate(states: map<Key, IndicatorState>, k: Key, openTime: int) {
    var last := StateAt(states, k).lastOpenTime;
    last.Some? && openTime <= last.value
  }

  /** The warm-up has reached everything that was stored. */
  ghost predicate Warm(w: Platform) {
    forall id :: id in StoredKeys(w.base) ==> SeenAsLate(w.engines.states, Key(id.symbol, id.timeframe), id.openTime)
  }

  /** Processing a candle forgets nothing, and a complete one is seen. */
  lemma {:induction false} ProcessingSees(
    cfg: Settings, states: map<Key, IndicatorState>, c: Candle, k: Key, openTime: int)
    requires Process(cfg, states, c).Ok?
    ensures SeenAsLate(states, k, openTime) ==> SeenAsLate(Process(cfg, states, c).value.0, k, openTime)
    ensures c.isClosed ==> SeenAsLate(Process(cfg, states, c).value.0, KeyOf(c), c.openTime)
  {
  }

  lemma {:induction false} WarmKeysAreNewer(w: Platform, c: Candle)
    requires Warm(w)
    ensures FirstIsNewer(w, c)
  {
  }

  lemma {:induction false} WarmingSees(
    cfg: Settings, states: map<Key, IndicatorState>, cs: seq<Candle>, k: Key, openTime: int)
    requires forall i :: 0 <= i < |cs| && cs[i].isClosed ==>
             ValidateCandle(cs[i], cfg.symbols, cfg.defaultTimeframe).None?
    ensures SeenAsLate(states, k, openTime) ==> SeenAsLate(Warmed(cfg, states, cs), k, openTime)
    ensures forall i :: 0 <= i < |cs| && cs[i].isClosed ==>
              SeenAsLate(Warmed(cfg, states, cs), KeyOf(cs[i]), cs[i].openTime)
    decreases |cs|
  {
    if |cs| > 0 {
      var first := Process(cfg, states, cs[0]);
      assert first.Ok?;
      ProcessingSees(cfg, states, cs[0], k, openTime);
      WarmingSees(cfg, first.value.0, cs[1..], k, openTime);
      WarmingSees(cfg, first.value.0, cs[1..], KeyOf(cs[0]), cs[0].openTime);
    }
  }

  /** Every download that succeeds holds valid candles only. */
  ghost predicate Usable(cfg: Settings, warm: string -> Option<seq<Candle>>) {
    forall s, c :: s in cfg.symbols && warm(s).Some? && c in warm(s).value && c.isClosed ==>
      ValidateCandle(c, cfg.symbols, cfg.defaultTimeframe).None?
  }

  lemma {:induction false} SortedHistory(cfg: Settings, warm: string -> Option<seq<Candle>>, s: string)
    requires Usable(cfg, warm) && s in cfg.symbols && warm(s).Some?
    ensures var cs := Sort(OpensNoLater, warm(s).value);
            && (forall c :: c in cs <==> c in warm(s).value)
            && (forall i :: 0 <= i < |cs| && cs[i].isClosed ==>
                  ValidateCandle(cs[i], cfg.symbols, cfg.defaultTimeframe).None?)
  {
    SortIsPermutation(OpensNoLater, warm(s).value);
    SameMembers(Sort(OpensNoLater, warm(s).value), warm(s).value);
  }

  lemma {:induction false} WarmUpSees(
    cfg: Settings, states: map<Key, IndicatorState>, symbols: seq<string>, warm: string -> Option<seq<Candle>>,
    k: Key, openTime: int)
    requires Usable(cfg, warm) && forall s :: s in symbols ==> s in cfg.symbols
    ensures SeenAsLate(states, k, openTime) ==> SeenAsLate(WarmUp(cfg, states, symbols, warm), k, openTime)
    ensures forall s, c :: s in symbols && warm(s).Some? && c in warm(s).value && c.isClosed ==>
              SeenAsLate(WarmUp(cfg, states, symbols, warm), KeyOf(c), c.openTime)
    decreases |symbols|
  {
    if |symbols| > 0 {
      var first := symbols[0];
      match warm(first)
      case None => WarmUpSees(cfg, states, symbols[1..], warm, k, openTime);
      case Some(history) =>
        var cs := Sort(OpensNoLater, history);
        SortedHistory(cfg, warm, first);
        WarmingSees(cfg, states, cs, k, openTime);
        var next := Warmed(cfg, states, cs);
        WarmUpSees(cfg, next, symbols[1..], warm, k, openTime);
        forall c | c in history && c.isClosed
          ensures SeenAsLate(WarmUp(cfg, states, symbols, warm), KeyOf(c), c.openTime)
        {
          WarmUpSees(cfg, next, symbols[1..], warm, KeyOf(c), c.openTime);
        }
    }
  }

  /** The downloaded history of every stored identity's key goes as far as the identity's candle. */
  ghost predicate Reaches(cfg: Settings, listing: Store, warm: string -> Option<seq<Candle>>) {
    Usable(cfg, warm) && forall id :: id in StoredKeys(listing) ==>
      && id.symbol in cfg.symbols && warm(id.symbol).Some?
      && exists c :: c in warm(id.symbol).value && c.isClosed && id.openTime <= c.openTime
                     && KeyOf(c) == Key(id.symbol, id.timeframe)
  }

  lemma {:induction false} ReachingWarmsUp(
    cfg: Settings, listing: Store, now: int, warm: string -> Option<seq<Candle>>, r: Records)
    requires Reaches(cfg, listing, warm)
    ensures Warm(Started(cfg, listing, now, warm, r))
  {
    var w := Started(cfg, listing, now, warm, r);
    forall id | id in StoredKeys(listing)
      ensures SeenAsLate(w.engines.states, Key(id.symbol, id.timeframe), id.openTime)
    {
      var c :| c in warm(id.symbol).value && c.isClosed && id.openTime <= c.openTime
               && KeyOf(c) == Key(id.symbol, id.timeframe);
      WarmUpSees(cfg, map[], cfg.symbols, warm, KeyOf(c), c.openTime);
    }
  }

  lemma {:induction false} LearningKeepsWarm(cfg: Settings, w: Platform, c: Candle, m: Moment)
    requires Warm(w)
    ensures Warm(Analysed(cfg, w, c, m))
  {
    var r := Process(cfg, w.engines.states, c);
    AnalysisLearns(cfg, w, r, m);
    if r.Ok? {
      forall id | id in StoredKeys(w.base)
        ensures SeenAsLate(r.value.0, Key(id.symbol, id.timeframe), id.openTime)
      {
        ProcessingSees(cfg, w.engines.states, c, Key(id.symbol, id.timeframe), id.openTime);
      }
    }
  }

  lemma {:induction false} AnalysisLearns(
    cfg: Settings, w: Platform, r: Result<(map<Key, IndicatorState>, Option<Snapshot>), MarketError>, m: Moment)
    ensures Learned(cfg, w, r, m).base == w.base
    ensures Learned(cfg, w, r, m).engines.states == if r.Ok? then r.value.0 else w.engines.states
  {
  }

  lemma {:induction false} WarmthLasts(cfg: Settings, w: Platform, a: Event)
    requires Warm(w) && !a.Restart?
    ensures Warm(Forward.Next(cfg, w, a))
  {
    match a
    case Ingest(c, feed, now, verdict, m) =>
      SeeingLeavesEngines(cfg, w, c, now, feed, verdict);
      LearningKeepsWarm(cfg, Judged(Watched(cfg, w, c, now, feed), verdict), c, m);
    case SetEntries(_) =>
    case ReadBook(_) =>
    case Reconciling(_, _) =>
  }

  /** The downloads of a restart reach everything it finds stored. */
  ghost predicate WarmRestart(cfg: Settings, a: Event) {
    a.Restart? ==> Reaches(cfg, a.listing, a.warm)
  }

  lemma {:induction false} EventStaysWarm(cfg: Settings, w: Platform, a: Event)
    requires Warm(w) && WarmRestart(cfg, a)
    ensures Warm(Forward.Next(cfg, w, a))
  {
    if a.Restart? {
      ReachingWarmsUp(cfg, a.listing, a.now, a.warm, Lose(w.records, w.book, a.listing));
    } else {
      WarmthLasts(cfg, w, a);
    }
  }

  lemma {:induction false} RunStaysWarm(
    cfg: Settings, start: int, warm: string -> Option<seq<Candle>>, events: seq<Event>, ws: seq<Platform>, n: nat)
    requires IsForwardRun(cfg, start, warm, events, ws) && n <= |events|
    requires forall j :: 0 <= j < n ==> WarmRestart(cfg, events[j])
    ensures Warm(ws[n])
  {
    if n > 0 {
      RunStaysWarm(cfg, start, warm, events, ws, n - 1);
      EventStaysWarm(cfg, ws[n - 1], events[n - 1]);
      assert ws[n - 1 + 1] == Forward.Next(cfg, ws[n - 1], events[n - 1]);
    }
  }

  /** If the warm-up after every restart reaches what was stored, nothing is repeated, whatever candles come. */
  lemma {:induction false} WarmRunsDoNotRepeat(
    cfg: Settings, start: int, warm: string -> Option<seq<Candle>>, events: seq<Event>, ws: seq<Platform>, n: nat)
    requires IsForwardRun(cfg, start, warm, events, ws) && n <= |events|
    requires forall j :: 0 <= j < n ==> WarmRestart(cfg, events[j])
    ensures NoRepeats(cfg, events, ws, n)
  {
    forall j | 0 <= j < n && events[j].Ingest? ensures FirstIsNewer(ws[j], events[j].candle) {
      RunStaysWarm(cfg, start, warm, events, ws, j);
      WarmKeysAreNewer(ws[j], events[j].candle);
    }
    NewerRunsDoNotRepeat(cfg, start, warm, events, ws, n);
  }
}
