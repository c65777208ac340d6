/** The acceptance criteria of forward validation, as sums and counts over the stored trades. */
module Criteria {
  import opened Common
  import opened Strategy
  import opened Ledger
  import opened LedgerEquity
  import opened Validation

  // ---------------------------------------------------------------------
  // Over all trades, or over those of one symbol
  // ---------------------------------------------------------------------

  predicate Counted(symbol: Option<string>, t: Trade) {
    symbol.Some? ==> t.id.symbol == symbol.value
  }

  function Every(symbol: Option<string>): Trade -> bool {
    (t: Trade) => Counted(symbol, t)
  }

  function Risked(symbol: Option<string>): Trade -> bool {
    (t: Trade) => Counted(symbol, t) && t.risk > 0.0
  }

  function Won(symbol: Option<string>): Trade -> bool {
    (t: Trade) => Counted(symbol, t) && t.net > 0.0
  }

  function Lost(symbol: Option<string>): Trade -> bool {
    (t: Trade) => Counted(symbol, t) && t.net < 0.0
  }

  function Result(t: Trade): real { t.net }

  /** The result in units of the risk. */
  function InRisk(t: Trade): real { if t.risk == 0.0 then 0.0 else t.net / t.risk }

  /** The trades of a symbol, or all of them. */
  function Chosen(symbol: Option<string>, ts: seq<Trade>): seq<Trade> {
    match symbol
    case Some(x) => TradesOf(x, ts)
    case None => ts
  }

  lemma {:induction false} ChosenGrows(symbol: Option<string>, ts: seq<Trade>)
    requires |ts| > 0
    ensures Chosen(symbol, ts)
            == Chosen(symbol, ts[..|ts| - 1]) + (if Counted(symbol, ts[|ts| - 1]) then [ts[|ts| - 1]] else [])
  {
  }

  /** Adding up over the trades of a symbol is adding up over all trades where they are of that symbol. */
  lemma {:induction false} OverChosen(
    symbol: Option<string>, p: Trade -> bool, f: Trade -> real, q: Trade -> bool, g: Trade -> real, ts: seq<Trade>)
    requires forall t :: q(t) <==> Counted(symbol, t) && p(t)
    requires forall t :: p(t) ==> f(t) == g(t)
    ensures CountIf(p, Chosen(symbol, ts)) == CountIf(q, ts)
    ensures SumIf(p, f, Chosen(symbol, ts)) == SumIf(q, g, ts)
  {
    if |ts| > 0 {
      var own := Chosen(symbol, ts[..|ts| - 1]);
      OverChosen(symbol, p, f, q, g, ts[..|ts| - 1]);
      ChosenGrows(symbol, ts);
      assert (own + [ts[|ts| - 1]])[..|own|] == own;
    }
  }

  predicate Any(t: Trade) { true }

  lemma {:induction false} SumOfAll(f: Trade -> real, ts: seq<Trade>)
    ensures SumIf(Any, f, ts) == Sum(f, ts) && CountIf(Any, ts) == |ts|
  {
    if |ts| > 0 {
      SumOfAll(f, ts[..|ts| - 1]);
    }
  }

  lemma {:induction false} ChosenTotals(symbol: Option<string>, ts: seq<Trade>)
    ensures |Chosen(symbol, ts)| == CountIf(Every(symbol), ts)
    ensures Sum(NetOf, Chosen(symbol, ts)) == SumIf(Every(symbol), Result, ts)
  {
    OverChosen(symbol, Any, NetOf, Every(symbol), Result, ts);
    SumOfAll(NetOf, Chosen(symbol, ts));
  }

  lemma {:induction false} ChosenRisks(symbol: Option<string>, ts: seq<Trade>)
    ensures |Filter(HasRisk, Chosen(symbol, ts))| == CountIf(Risked(symbol), ts)
    ensures Sum(MultipleOf, Filter(HasRisk, Chosen(symbol, ts))) == SumIf(Risked(symbol), InRisk, ts)
  {
    OverChosen(symbol, HasRisk, MultipleOf, Risked(symbol), InRisk, ts);
    FilteredCount(HasRisk, Chosen(symbol, ts));
    FilteredSum(HasRisk, MultipleOf, Chosen(symbol, ts));
  }

  lemma {:induction false} ChosenGains(symbol: Option<string>, ts: seq<Trade>)
    ensures Sum(NetOf, Filter(IsGain, Chosen(symbol, ts))) == SumIf(Won(symbol), Result, ts)
    ensures Sum(NetOf, Filter(IsSetback, Chosen(symbol, ts))) == SumIf(Lost(symbol), Result, ts)
  {
    OverChosen(symbol, IsGain, NetOf, Won(symbol), Result, ts);
    OverChosen(symbol, IsSetback, NetOf, Lost(symbol), Result, ts);
    FilteredSum(IsGain, NetOf, Chosen(symbol, ts));
    FilteredSum(IsSetback, NetOf, Chosen(symbol, ts));
  }

  // ---------------------------------------------------------------------
  // The criteria
  // ---------------------------------------------------------------------

  /** What was won is at least so many times what was lost, if anything was. */
  predicate Earned(won: real, lost: real, factor: real) {
    lost != 0.0 ==> won >= Product(factor, -lost)
  }

  ghost predicate EarnsFactor(symbol: Option<string>, ts: seq<Trade>, factor: real) {
    Earned(SumIf(Won(symbol), Result, ts), SumIf(Lost(symbol), Result, ts), factor)
  }

  /** Enough trades of the symbol, a positive expectancy, and no profit factor below the limit. */
  ghost predicate Healthy(g: GateSettings, ts: seq<Trade>, symbol: string) {
    && CountIf(Every(Some(symbol)), ts) >= g.minTradesPerSymbol
    && CountIf(Risked(Some(symbol)), ts) > 0 && SumIf(Risked(Some(symbol)), InRisk, ts) > 0.0
    && EarnsFactor(Some(symbol), ts, g.minProfitFactor)
  }

  ghost function HealthySymbols(g: GateSettings, ts: seq<Trade>, symbols: seq<string>): nat {
    if |symbols| == 0 then 0
    else
      HealthySymbols(g, ts, symbols[..|symbols| - 1])
      + (if Healthy(g, ts, symbols[|symbols| - 1]) then 1 else 0)
  }

  /** The days on which trades closed with a loss, all together, of the daily limit or more. */
  ghost function LostDays(g: GateSettings, e: Evidence, ts: seq<Trade>): set<int> {
    set d | d in DaysOf(ts) && -ClosedOn(ts, d) >= Product(e.starting, g.maxDailyLoss)
  }

  ghost predicate Met(g: GateSettings, e: Evidence, ts: seq<Trade>) {
    && CountIf(Risked(None), ts) > 0
    && SumIf(Risked(None), InRisk, ts) >= Product(g.minExpectancyR, CountIf(Risked(None), ts) as real)
    && SumIf(Every(None), Result, ts) > 0.0 && EarnsFactor(None, ts, g.minProfitFactor)
    && ProgressOf(e.starting, ts).drawdown <= g.maxDrawdownPercent
    && (forall i: nat, n: nat :: LosingRun(ts, i, n) ==> n <= g.maxConsecutiveLosses)
    && |LostDays(g, e, ts)| <= g.maxDailyLocks
    && HealthySymbols(g, ts, g.symbols) >= g.minHealthySymbols
  }

  lemma {:induction false} LossesAreNegative(p: Trade -> bool, ts: seq<Trade>)
    requires forall t :: p(t) ==> t.net < 0.0
    ensures SumIf(p, Result, ts) <= 0.0
  {
    if |ts| > 0 {
      LossesAreNegative(p, ts[..|ts| - 1]);
    }
  }

  lemma {:induction false} RatioPositive(part: real, whole: real)
    requires whole > 0.0
    ensures Ratio(part, whole) > 0.0 <==> part > 0.0
  {
    ScaleOrder(whole, 0.0, part / whole);
  }

  lemma {:induction false} MeanIs(own: Option<real>, total: real, count: nat, limit: real)
    requires own == Mean(total, count)
    ensures own.Some? <==> count > 0
    ensures own.Some? ==> (own.value >= limit <==> total >= Product(limit, count as real))
    ensures own.Some? ==> (own.value > 0.0 <==> total > 0.0)
  {
    if count > 0 {
      RatioAtLeast(total, count as real, limit);
      RatioPositive(total, count as real);
    }
  }

  lemma {:induction false} FactorIs(own: Option<real>, won: real, lost: real, factor: real)
    requires lost <= 0.0 && own == if lost == 0.0 then None else Some(Ratio(won, Abs(lost)))
    ensures own.None? <==> lost == 0.0
    ensures own.None? || own.value >= factor <==> Earned(won, lost, factor)
  {
    if lost != 0.0 {
      RatioAtLeast(won, -lost, factor);
    }
  }

  lemma {:induction false} FactorIsEarned(symbol: Option<string>, ts: seq<Trade>, factor: real)
    ensures var own := ProfitFactorOf(Chosen(symbol, ts));
            && (own.None? <==> SumIf(Lost(symbol), Result, ts) == 0.0)
            && (own.None? || own.value >= factor <==> EarnsFactor(symbol, ts, factor))
  {
    ChosenGains(symbol, ts);
    LossesAreNegative(Lost(symbol), ts);
    var won, lost := SumIf(Won(symbol), Result, ts), SumIf(Lost(symbol), Result, ts);
    var own := ProfitFactorOf(Chosen(symbol, ts));
    FactorIs(own, won, lost, factor);
  }

  lemma {:induction false} ExpectancyIsMean(symbol: Option<string>, ts: seq<Trade>, limit: real)
    ensures var own, count := ExpectancyR(Chosen(symbol, ts)), CountIf(Risked(symbol), ts);
            && (own.Some? <==> count > 0)
            && (own.Some? ==>
                  (own.value >= limit <==> SumIf(Risked(symbol), InRisk, ts) >= Product(limit, count as real)))
            && (own.Some? ==> (own.value > 0.0 <==> SumIf(Risked(symbol), InRisk, ts) > 0.0))
  {
    ChosenRisks(symbol, ts);
    MeanIs(ExpectancyR(Chosen(symbol, ts)), SumIf(Risked(symbol), InRisk, ts), CountIf(Risked(symbol), ts), limit);
  }

  lemma {:induction false} SymbolIsHealthy(g: GateSettings, ts: seq<Trade>, symbol: string)
    ensures HealthySymbol(g, symbol, ts) <==> Healthy(g, ts, symbol)
  {
    ChosenTotals(Some(symbol), ts);
    ExpectancyIsMean(Some(symbol), ts, 0.0);
    FactorIsEarned(Some(symbol), ts, g.minProfitFactor);
  }

  lemma {:induction false} SymbolsAreHealthy(g: GateSettings, ts: seq<Trade>, symbols: seq<string>)
    ensures CountHealthy(g, symbols, ts) == HealthySymbols(g, ts, symbols)
  {
    if |symbols| > 0 {
      SymbolsAreHealthy(g, ts, symbols[..|symbols| - 1]);
      SymbolIsHealthy(g, ts, symbols[|symbols| - 1]);
    }
  }

  lemma {:induction false} LocksAreLostDays(g: GateSettings, e: Evidence, ts: seq<Trade>)
    ensures LockDays(ts, LockThreshold(g, e)) == LostDays(g, e, ts)
  {
    var x, y := e.starting, g.maxDailyLoss;
    assert Product(-x, y) == -Product(x, y);
  }

  lemma {:induction false} ResultIsPositive(ts: seq<Trade>)
    ensures Sum(NetOf, ts) == SumIf(Every(None), Result, ts)
    ensures ExpectancyNet(ts).Some? && ExpectancyNet(ts).value > 0.0 <==> Sum(NetOf, ts) > 0.0
  {
    ChosenTotals(None, ts);
    MeanIs(ExpectancyNet(ts), Sum(NetOf, ts), |ts|, 0.0);
  }

  lemma {:induction false} FactorIff(g: GateSettings, ts: seq<Trade>)
    requires SumIf(Every(None), Result, ts) > 0.0
    ensures ProfitFactorOk(g, ts) <==> EarnsFactor(None, ts, g.minProfitFactor)
  {
    FactorIsEarned(None, ts, g.minProfitFactor);
    ResultIsPositive(ts);
  }

  lemma {:induction false} ExpectancyIff(g: GateSettings, ts: seq<Trade>)
    ensures ExpectancyOk(g, ts) <==>
            && CountIf(Risked(None), ts) > 0
            && SumIf(Risked(None), InRisk, ts) >= Product(g.minExpectancyR, CountIf(Risked(None), ts) as real)
            && SumIf(Every(None), Result, ts) > 0.0
  {
    ExpectancyIsMean(None, ts, g.minExpectancyR);
    ResultIsPositive(ts);
  }

  lemma {:induction false} AcceptableIffMet(g: GateSettings, e: Evidence, ts: seq<Trade>)
    ensures Acceptable(g, e, ts) <==> Met(g, e, ts)
  {
    ExpectancyIff(g, ts);
    if SumIf(Every(None), Result, ts) > 0.0 {
      FactorIff(g, ts);
    }
    LocksAreLostDays(g, e, ts);
    SymbolsAreHealthy(g, ts, g.symbols);
  }

  /**
   * A session passes exactly if it is not paused, its data is healthy, it has run long enough with
   * enough trades, and every criterion is met; a large enough healthy sample that misses one fails.
   */
  lemma {:induction false} PassesIff(g: GateSettings, e: Evidence, ts: seq<Trade>)
    ensures VerdictOn(g, e, ts) == Pass <==>
              && !e.sessionPaused && e.healthy && |ts| >= g.minTrades && e.sessionDays >= g.minDays
              && Met(g, e, ts)
    ensures VerdictOn(g, e, ts) == Fail <==>
              && !e.sessionPaused
              && (e.healthy ==> |ts| >= g.minTrades && e.sessionDays >= g.minDays && !Met(g, e, ts))
    ensures VerdictOn(g, e, ts) == SessionPaused <==> e.sessionPaused
  {
    AcceptableIffMet(g, e, ts);
  }
}
