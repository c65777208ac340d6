/** Forward validation: metrics of the stored trades, the acceptance rules, and the pause they control. */
module Validation {
  import opened Common
  import opened Sorting
  import opened Ledger
  import opened LedgerEquity
  import opened PaperEngine
  import opened Drawdown

  // ---------------------------------------------------------------------
  // Drawdown over the trades
  // ---------------------------------------------------------------------

  predicate ClosesNoLater(t: Trade, u: Trade) {
    t.closedAt <= u.closedAt
  }

  datatype Progress = Progress(equity: real, peak: real, drawdown: real, lastHigh: Option<int>)

  function Progressed(p: Progress, t: Trade): Progress {
    var equity := p.equity + t.net;
    if equity >= p.peak then Progress(equity, equity, p.drawdown, Some(t.closedAt))
    else if p.peak > 0.0 then p.(equity := equity, drawdown := Max(p.drawdown, Fall(p.peak, equity)))
    else p.(equity := equity)
  }

  function ProgressOf(starting: real, ts: seq<Trade>): Progress {
    if |ts| == 0 then Progress(starting, starting, 0.0, None)
    else Progressed(ProgressOf(starting, ts[..|ts| - 1]), ts[|ts| - 1])
  }

  method WalkTrades(starting: real, ts: seq<Trade>) returns (p: Progress)
    ensures p == ProgressOf(starting, ts)
  {
    var equity, peak, maximum, lastHigh: Option<int> := starting, starting, 0.0, None;
    for i := 0 to |ts|
      invariant Progress(equity, peak, maximum, lastHigh) == ProgressOf(starting, ts[..i])
    {
      assert ts[..i + 1][..i] == ts[..i];
      equity := equity + ts[i].net;
      if equity >= peak {
        peak, lastHigh := equity, Some(ts[i].closedAt);
      } else if peak > 0.0 {
        maximum := Max(maximum, Fall(peak, equity));
      }
    }
    assert ts[..|ts|] == ts;
    p := Progress(equity, peak, maximum, lastHigh);
  }

  /** The balance before the first trade and after each one. */
  function Balances(starting: real, ts: seq<Trade>): (r: seq<real>)
    ensures |r| == |ts| + 1 && r[0] == starting
  {
    if |ts| == 0 then [starting]
    else
      var front := Balances(starting, ts[..|ts| - 1]);
      front + [front[|front| - 1] + ts[|ts| - 1].net]
  }

  lemma {:induction false} BalancesAddUp(starting: real, ts: seq<Trade>)
    ensures Balances(starting, ts)[|ts|] == starting + Sum(NetOf, ts)
  {
    if |ts| > 0 {
      BalancesAddUp(starting, ts[..|ts| - 1]);
    }
  }

  lemma {:induction false} WalkFollowsBalances(starting: real, ts: seq<Trade>)
    requires starting > 0.0
    ensures var p, es := ProgressOf(starting, ts), Balances(starting, ts);
            p.equity == es[|ts|] && p.peak == Peak(es) && p.drawdown == RunningDrawdown(es)
  {
    if |ts| > 0 {
      var front := ts[..|ts| - 1];
      WalkFollowsBalances(starting, front);
      var es := Balances(starting, ts);
      assert es[..|es| - 1] == Balances(starting, front);
      PeakIsHighest(Balances(starting, front));
      RunningIsAttained(Balances(starting, front));
    }
  }

  /**
   * The drawdown reported is the greatest fall between any two moments exactly when every
   * balance below zero falls no further from the lowest balance before it than some fall from
   * a peak, and so whenever the balance stays above water.
   */
  lemma {:induction false} ForwardDrawdownIsWorst(starting: real, ts: seq<Trade>)
    requires starting > 0.0
    ensures WorstFall(Balances(starting, ts), ProgressOf(starting, ts).drawdown)
            <==> LossesBelowZeroCovered(Balances(starting, ts))
    ensures (forall i :: 0 <= i <= |ts| ==> Balances(starting, ts)[i] >= 0.0) ==>
              LossesBelowZeroCovered(Balances(starting, ts))
    ensures ProgressOf(starting, ts).equity == starting + Sum(NetOf, ts)
    ensures forall i :: 0 <= i <= |ts| ==> Balances(starting, ts)[i] <= ProgressOf(starting, ts).peak
  {
    WalkFollowsBalances(starting, ts);
    RunningIsWorstIff(Balances(starting, ts));
    BalancesAddUp(starting, ts);
    PeakIsHighest(Balances(starting, ts));
  }

  // ---------------------------------------------------------------------
  // Losing streaks
  // ---------------------------------------------------------------------

  /** `n` losses in a row, from trade `i` on. */
  ghost predicate LosingRun(ts: seq<Trade>, i: nat, n: nat) {
    i + n <= |ts| && forall k :: i <= k < i + n ==> ts[k].net < 0.0
  }

  ghost predicate LongestLosingRun(ts: seq<Trade>, n: nat) {
    && (exists i: nat :: LosingRun(ts, i, n))
    && (forall i: nat, m: nat :: LosingRun(ts, i, m) ==> m <= n)
  }

  /**
   * A run that ends where a streak ends is no longer than the streak, if a trade that is not a loss
   * comes before it.
   */
  lemma {:induction false} RunsEndHere(ts: seq<Trade>, end: nat, streak: nat)
    requires streak <= end <= |ts| && (streak < end ==> ts[end - streak - 1].net >= 0.0)
    ensures forall i: nat, m: nat :: LosingRun(ts, i, m) && i + m == end ==> m <= streak
  {
  }

  method MaximumLosingStreak(trades: seq<Trade>) returns (maximum: nat)
    ensures LongestLosingRun(Sort(ClosesNoLater, trades), maximum)
  {
    var ts := Sort(ClosesNoLater, trades);
    var streak: nat := 0;
    maximum := 0;
    ghost var from: nat := 0;
    for k := 0 to |ts|
      invariant streak <= k && streak <= maximum
      invariant LosingRun(ts, k - streak, streak)
      invariant streak < k ==> ts[k - streak - 1].net >= 0.0
      invariant LosingRun(ts, from, maximum)
      invariant forall i: nat, m: nat :: LosingRun(ts, i, m) && i + m <= k ==> m <= maximum
    {
      streak := if ts[k].net < 0.0 then streak + 1 else 0;
      RunsEndHere(ts, k + 1, streak);
      if streak > maximum {
        maximum, from := streak, k + 1 - streak;
      }
    }
  }

  // ---------------------------------------------------------------------
  // Days on which the daily loss was reached
  // ---------------------------------------------------------------------

  function DaysOf(ts: seq<Trade>): (r: set<int>)
    ensures forall d :: d in r <==> exists i :: 0 <= i < |ts| && Day(ts[i].closedAt) == d
  {
    set i | 0 <= i < |ts| :: Day(ts[i].closedAt)
  }

  function LockDays(ts: seq<Trade>, threshold: real): set<int> {
    set d | d in DaysOf(ts) && ClosedOn(ts, d) <= threshold
  }

  /** Each day's net result. */
  method DailyResults(ts: seq<Trade>) returns (daily: map<int, real>)
    ensures daily.Keys == DaysOf(ts)
    ensures forall d :: d in daily ==> daily[d] == ClosedOn(ts, d)
  {
    daily := map[];
    for i := 0 to |ts|
      invariant daily.Keys == DaysOf(ts[..i])
      invariant forall d :: d in daily ==> daily[d] == ClosedOn(ts[..i], d)
    {
      var day := Day(ts[i].closedAt);
      OneMoreDay(ts, i);
      daily := daily[day := (if day in daily then daily[day] else 0.0) + ts[i].net];
    }
    assert ts[..|ts|] == ts;
  }

  lemma {:induction false} NoTradeThatDay(ts: seq<Trade>, d: int)
    requires d !in DaysOf(ts)
    ensures ClosedOn(ts, d) == 0.0
  {
    if |ts| > 0 {
      var front := ts[..|ts| - 1];
      assert forall i :: 0 <= i < |front| ==> front[i] == ts[i];
      NoTradeThatDay(front, d);
    }
  }

  lemma {:induction false} OneMoreDay(ts: seq<Trade>, i: nat)
    requires i < |ts|
    ensures DaysOf(ts[..i + 1]) == DaysOf(ts[..i]) + {Day(ts[i].closedAt)}
    ensures forall d :: ClosedOn(ts[..i + 1], d)
                        == ClosedOn(ts[..i], d) + (if Day(ts[i].closedAt) == d then ts[i].net else 0.0)
    ensures Day(ts[i].closedAt) !in DaysOf(ts[..i]) ==> ClosedOn(ts[..i], Day(ts[i].closedAt)) == 0.0
  {
    var shorter, longer := ts[..i], ts[..i + 1];
    assert longer[..i] == shorter;
    forall d ensures d in DaysOf(longer) <==> d in DaysOf(shorter) || d == Day(ts[i].closedAt) {
      if d in DaysOf(shorter) {
        var k :| 0 <= k < |shorter| && Day(shorter[k].closedAt) == d;
        assert Day(longer[k].closedAt) == d;
      }
      if d == Day(ts[i].closedAt) {
        assert Day(longer[i].closedAt) == d;
      }
    }
    if Day(ts[i].closedAt) !in DaysOf(shorter) {
      NoTradeThatDay(shorter, Day(ts[i].closedAt));
    }
  }

  lemma {:induction false} OneDayLess(locks: set<int>, rest: set<int>, day: int)
    requires day in rest
    ensures |locks - (rest - {day})| == |locks - rest| + (if day in locks then 1 else 0)
  {
    if day in locks {
      assert locks - (rest - {day}) == (locks - rest) + {day};
    } else {
      assert locks - (rest - {day}) == locks - rest;
    }
  }

  method DailyLockEvents(ts: seq<Trade>, threshold: real) returns (count: nat)
    ensures count == |LockDays(ts, threshold)|
  {
    var daily := DailyResults(ts);
    ghost var locks := LockDays(ts, threshold);
    assert forall d :: d in daily.Keys ==> (d in locks <==> daily[d] <= threshold);
    var rest := daily.Keys;
    assert locks - rest == {};
    count := 0;
    while rest != {}
      invariant rest <= daily.Keys && count == |locks - rest|
      decreases |rest|
    {
      var day :| day in rest;
      OneDayLess(locks, rest, day);
      rest := rest - {day};
      if daily[day] <= threshold {
        count := count + 1;
      }
    }
    assert locks - rest == locks;
  }

  // ---------------------------------------------------------------------
  // Metrics
  // ---------------------------------------------------------------------

  predicate IsGain(t: Trade) { t.net > 0.0 }
  predicate IsSetback(t: Trade) { t.net < 0.0 }
  predicate HasRisk(t: Trade) { t.risk > 0.0 }

  function MultipleOf(t: Trade): real {
    if t.risk > 0.0 then Ratio(t.net, t.risk) else 0.0
  }

  function Mean(total: real, count: nat): Option<real> {
    if count == 0 then None else Some(Ratio(total, count as real))
  }

  function ProfitFactorOf(ts: seq<Trade>): Option<real> {
    var losses := Sum(NetOf, Filter(IsSetback, ts));
    if losses == 0.0 then None else Some(Ratio(Sum(NetOf, Filter(IsGain, ts)), Abs(losses)))
  }

  /** The mean result in units of the risk taken, over the trades that took any. */
  function ExpectancyR(ts: seq<Trade>): Option<real> {
    Mean(Sum(MultipleOf, Filter(HasRisk, ts)), |Filter(HasRisk, ts)|)
  }

  function ExpectancyNet(ts: seq<Trade>): Option<real> {
    Mean(Sum(NetOf, ts), |ts|)
  }

  // ---------------------------------------------------------------------
  // Rules
  // ---------------------------------------------------------------------

  datatype GateSettings = GateSettings(
    symbols: seq<string>, minTrades: nat, minDays: nat, minExpectancyR: real, minProfitFactor: real,
    maxDrawdownPercent: real, maxConsecutiveLosses: nat, maxDailyLocks: nat, maxDailyLoss: real,
    minTradesPerSymbol: nat, minHealthySymbols: nat, pauseOnFail: bool)

  /** What the gate learns from monitoring and from the session record. */
  datatype Evidence = Evidence(sessionPaused: bool, healthy: bool, sessionDays: nat, starting: real)

  datatype Verdict = Pass | Fail | InsufficientData | SessionPaused

  predicate EnoughSample(g: GateSettings, e: Evidence, ts: seq<Trade>) {
    |ts| >= g.minTrades && e.sessionDays >= g.minDays
  }

  predicate ExpectancyOk(g: GateSettings, ts: seq<Trade>) {
    && ExpectancyR(ts).Some? && ExpectancyNet(ts).Some?
    && ExpectancyR(ts).value >= g.minExpectancyR && ExpectancyNet(ts).value > 0.0
  }

  /** Without a losing trade a positive result is enough. */
  predicate ProfitFactorOk(g: GateSettings, ts: seq<Trade>) {
    if ProfitFactorOf(ts).None? then Sum(NetOf, ts) > 0.0 else ProfitFactorOf(ts).value >= g.minProfitFactor
  }

  function TradesOf(symbol: string, ts: seq<Trade>): seq<Trade> {
    if |ts| == 0 then []
    else
      var front := TradesOf(symbol, ts[..|ts| - 1]);
      if ts[|ts| - 1].id.symbol == symbol then front + [ts[|ts| - 1]] else front
  }

  predicate HealthySymbol(g: GateSettings, symbol: string, ts: seq<Trade>) {
    var own := TradesOf(symbol, ts);
    && |own| >= g.minTradesPerSymbol
    && ExpectancyR(own).Some? && ExpectancyR(own).value > 0.0
    && (ProfitFactorOf(own).None? || ProfitFactorOf(own).value >= g.minProfitFactor)
  }

  function CountHealthy(g: GateSettings, symbols: seq<string>, ts: seq<Trade>): nat {
    if |symbols| == 0 then 0
    else CountHealthy(g, symbols[..|symbols| - 1], ts) + (if HealthySymbol(g, symbols[|symbols| - 1], ts) then 1 else 0)
  }

  function LockThreshold(g: GateSettings, e: Evidence): real {
    Product(-e.starting, g.maxDailyLoss)
  }

  /** The acceptance criteria on trades in order of their close, stated over the whole record. */
  ghost predicate Acceptable(g: GateSettings, e: Evidence, ts: seq<Trade>) {
    && ExpectancyOk(g, ts) && ProfitFactorOk(g, ts)
    && ProgressOf(e.starting, ts).drawdown <= g.maxDrawdownPercent
    && (forall i: nat, n: nat :: LosingRun(ts, i, n) ==> n <= g.maxConsecutiveLosses)
    && |LockDays(ts, LockThreshold(g, e))| <= g.maxDailyLocks
    && CountHealthy(g, g.symbols, ts) >= g.minHealthySymbols
  }

  /** Poor health fails the session even before there is enough data; a pause hides every other verdict. */
  ghost function VerdictOn(g: GateSettings, e: Evidence, ts: seq<Trade>): Verdict {
    if e.sessionPaused then SessionPaused
    else if !e.healthy then Fail
    else if !EnoughSample(g, e, ts) then InsufficientData
    else if !Acceptable(g, e, ts) then Fail
    else Pass
  }

  datatype Rule = Health | Sample | Expectancy | Factor | DrawdownRule | Streak | DailyLocks | Coverage

  lemma {:induction false} CountOneMore(g: GateSettings, symbols: seq<string>, i: nat, ts: seq<Trade>)
    requires i < |symbols|
    ensures CountHealthy(g, symbols[..i + 1], ts) ==
            CountHealthy(g, symbols[..i], ts) + (if HealthySymbol(g, symbols[i], ts) then 1 else 0)
  {
    assert symbols[..i + 1][..i] == symbols[..i];
  }

  method CountHealthySymbols(g: GateSettings, ts: seq<Trade>) returns (healthy: nat)
    ensures healthy == CountHealthy(g, g.symbols, ts)
  {
    healthy := 0;
    for i := 0 to |g.symbols|
      invariant healthy == CountHealthy(g, g.symbols[..i], ts)
    {
      CountOneMore(g, g.symbols, i, ts);
      if HealthySymbol(g, g.symbols[i], ts) {
        healthy := healthy + 1;
      }
    }
    assert g.symbols[..|g.symbols|] == g.symbols;
  }

  lemma {:induction false} LongestRunDecides(ts: seq<Trade>, longest: nat, limit: nat)
    requires LongestLosingRun(ts, longest)
    ensures longest <= limit <==> forall i: nat, n: nat :: LosingRun(ts, i, n) ==> n <= limit
  {
  }

  /** The hard rules that fail, given a large enough sample; `ts` is in order of the close. */
  method HardFailures(g: GateSettings, e: Evidence, ts: seq<Trade>) returns (failures: set<Rule>)
    requires Sort(ClosesNoLater, ts) == ts
    ensures failures == {} <==> Acceptable(g, e, ts)
  {
    failures := {};
    if !ExpectancyOk(g, ts) {
      failures := failures + {Expectancy};
    }
    if !ProfitFactorOk(g, ts) {
      failures := failures + {Factor};
    }
    var progress := WalkTrades(e.starting, ts);
    if progress.drawdown > g.maxDrawdownPercent {
      failures := failures + {DrawdownRule};
    }
    var streak := MaximumLosingStreak(ts);
    LongestRunDecides(ts, streak, g.maxConsecutiveLosses);
    if streak > g.maxConsecutiveLosses {
      failures := failures + {Streak};
    }
    var locks := DailyLockEvents(ts, LockThreshold(g, e));
    if locks > g.maxDailyLocks {
      failures := failures + {DailyLocks};
    }
    var healthy := CountHealthySymbols(g, ts);
    if healthy < g.minHealthySymbols {
      failures := failures + {Coverage};
    }
  }

  // ---------------------------------------------------------------------
  // The gate
  // ---------------------------------------------------------------------

  function PauseAfter(pauseOnFail: bool, paused: bool, v: Verdict): bool {
    if v.Fail? && pauseOnFail then true
    else if v.Pass? then false
    else paused
  }

  function PauseAfterAll(pauseOnFail: bool, paused: bool, vs: seq<Verdict>): bool {
    if |vs| == 0 then paused
    else PauseAfter(pauseOnFail, PauseAfterAll(pauseOnFail, paused, vs[..|vs| - 1]), vs[|vs| - 1])
  }

  predicate Conclusive(v: Verdict) {
    v.Pass? || v.Fail?
  }

  /** Entries stay paused from a failure until the next pass: missing data and manual pauses never lift it. */
  lemma {:induction false} PauseFollowsLastConclusion(paused: bool, vs: seq<Verdict>, i: nat)
    requires i < |vs| && Conclusive(vs[i]) && forall j :: i < j < |vs| ==> !Conclusive(vs[j])
    ensures PauseAfterAll(true, paused, vs) <==> vs[i].Fail?
  {
    if i < |vs| - 1 {
      PauseFollowsLastConclusion(paused, vs[..|vs| - 1], i);
    }
  }

  /** With pausing on failure switched off, a pause lasts until the next pass. */
  lemma {:induction false} PauseLastsUntilPass(paused: bool, vs: seq<Verdict>)
    ensures PauseAfterAll(false, paused, vs) <==> paused && forall j :: 0 <= j < |vs| ==> !vs[j].Pass?
  {
    if |vs| > 0 {
      var front := vs[..|vs| - 1];
      PauseLastsUntilPass(paused, front);
      assert forall j :: 0 <= j < |front| ==> front[j] == vs[j];
    }
  }

  class ValidationEngine {
    const settings: GateSettings
    const paper: PaperExecutionEngine
    var current: Option<Verdict>

    ghost predicate Valid()
      reads this, paper, paper.repository
    {
      paper.Valid()
    }

    constructor (settings: GateSettings, paper: PaperExecutionEngine)
      requires paper.Valid()
      ensures Valid() && this.settings == settings && this.paper == paper && current == None
    {
      this.settings := settings;
      this.paper := paper;
      current := None;
    }

    method Decide(e: Evidence, ts: seq<Trade>) returns (v: Verdict)
      requires Sort(ClosesNoLater, ts) == ts
      ensures v == VerdictOn(settings, e, ts)
    {
      if e.sessionPaused {
        return SessionPaused;
      }
      if !e.healthy {
        return Fail;
      }
      if !EnoughSample(settings, e, ts) {
        return InsufficientData;
      }
      var failures := HardFailures(settings, e, ts);
      v := if failures != {} then Fail else Pass;
    }

    /** Judges the stored trades and moves the pause flag, and nothing else of the paper engine. */
    method Evaluate(e: Evidence, stored: seq<Trade>) returns (v: Verdict)
      requires Valid()
      modifies this, paper
      ensures Valid()
      ensures v == VerdictOn(settings, e, Sort(ClosesNoLater, stored)) && current == Some(v)
      ensures paper.View() == old(paper.View()).(paused := PauseAfter(settings.pauseOnFail, old(paper.paused), v))
    {
      var ts := Sort(ClosesNoLater, stored);
      SortedOnce(stored);
      v := Decide(e, ts);
      current := Some(v);
      if v.Fail? && settings.pauseOnFail {
        paper.SetEntriesPaused(true);
      } else if v.Pass? {
        paper.SetEntriesPaused(false);
      }
    }
  }

  lemma {:induction false} SortedOnce(ts: seq<Trade>)
    ensures Sort(ClosesNoLater, Sort(ClosesNoLater, ts)) == Sort(ClosesNoLater, ts)
  {
    SortSorts(ClosesNoLater, ts);
    SortOfSorted(ClosesNoLater, Sort(ClosesNoLater, ts));
  }
}
