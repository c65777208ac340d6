/**
 * What the figures of a backtest mean, entry by entry of its journal, candle by candle of its
 * curve, and plan by plan of its counts.
 */
module BacktestFigures {
  import opened Common
  import opened Configuration
  import opened Market
  import opened Indicators
  import opened Strategy
  import opened Risk
  import opened Ledger
  import opened Backtest
  import opened BacktestInvariants
  import opened BacktestReconciliation
  import opened Marks

  // ---------------------------------------------------------------------
  // Shares
  // ---------------------------------------------------------------------

  /** `share` of `count` is `part`; there is none of nothing. */
  ghost predicate IsShare(share: Option<real>, part: real, count: nat) {
    match share
    case Some(x) => count > 0 && Product(x, count as real) == part
    case None => count == 0
  }

  lemma {:induction false} ShareIsShare(part: real, count: nat)
    ensures IsShare(Share(part, count), part, count)
  {
  }

  // ---------------------------------------------------------------------
  // The entries of a journal
  // ---------------------------------------------------------------------

  predicate Gains(e: JournalEntry) { e.net > 0.0 }
  predicate Loses(e: JournalEntry) { e.net < 0.0 }
  predicate Risks(e: JournalEntry) { e.plannedRisk.Some? && e.plannedRisk.value != 0.0 }
  function Result(e: JournalEntry): real { e.net }
  function Multiple(e: JournalEntry): real { if e.rMultiple.Some? then e.rMultiple.value else 0.0 }

  /** The result in units of the planned risk, wherever there was any. */
  ghost predicate MultiplesOk(es: seq<JournalEntry>) {
    forall e :: e in es ==>
      && (e.rMultiple.Some? <==> Risks(e))
      && (Risks(e) ==> e.rMultiple.Some? && Product(e.rMultiple.value, e.plannedRisk.value) == e.net)
  }

  /** What was won for each unit lost; none while nothing was lost. */
  ghost predicate IsProfitFactor(factor: Option<real>, won: real, lost: real) {
    match factor
    case Some(x) => lost != 0.0 && Product(x, -lost) == won
    case None => lost == 0.0
  }

  lemma {:induction false} ProfitFactorIs(won: real, lost: real)
    requires lost <= 0.0
    ensures IsProfitFactor(ProfitFactor(won, lost), won, lost)
  {
  }

  lemma {:induction false} LossesAreNegative(es: seq<JournalEntry>)
    ensures SumIf(Loses, Result, es) <= 0.0
  {
    if |es| > 0 {
      LossesAreNegative(es[..|es| - 1]);
    }
  }

  lemma {:induction false} SameCounts(es: seq<JournalEntry>)
    requires MultiplesOk(es)
    ensures CountIf(IsWin, es) == CountIf(Gains, es) && CountIf(IsLoss, es) == CountIf(Loses, es)
    ensures CountIf(HasMultiple, es) == CountIf(Risks, es)
    ensures SumIf(IsWin, EntryNet, es) == SumIf(Gains, Result, es)
    ensures SumIf(IsLoss, EntryNet, es) == SumIf(Loses, Result, es)
    ensures SumIf(HasMultiple, EntryMultiple, es) == SumIf(Risks, Multiple, es)
    ensures Sum(EntryNet, es) == Sum(Result, es)
  {
    if |es| > 0 {
      assert es[|es| - 1] in es && forall e :: e in es[..|es| - 1] ==> e in es;
      SameCounts(es[..|es| - 1]);
    }
  }

  /** The figures of a slice, over its entries. */
  ghost predicate SliceSays(s: Slice, es: seq<JournalEntry>) {
    && s.trades == |es| && s.wins == CountIf(Gains, es) && s.net == Sum(Result, es)
    && IsProfitFactor(s.profitFactor, SumIf(Gains, Result, es), SumIf(Loses, Result, es))
    && IsShare(s.averageR, SumIf(Risks, Multiple, es), CountIf(Risks, es))
  }

  lemma {:induction false} FiguresOfEntries(es: seq<JournalEntry>)
    requires MultiplesOk(es)
    ensures |Filter(IsWin, es)| == CountIf(Gains, es) && |Filter(IsLoss, es)| == CountIf(Loses, es)
    ensures Sum(EntryNet, Filter(IsWin, es)) == SumIf(Gains, Result, es)
    ensures Sum(EntryNet, Filter(IsLoss, es)) == SumIf(Loses, Result, es)
    ensures Sum(EntryNet, es) == Sum(Result, es)
    ensures IsShare(AverageMultiple(es), SumIf(Risks, Multiple, es), CountIf(Risks, es))
  {
    SameCounts(es);
    FilteredCount(IsWin, es);
    FilteredCount(IsLoss, es);
    FilteredCount(HasMultiple, es);
    FilteredSum(IsWin, EntryNet, es);
    FilteredSum(IsLoss, EntryNet, es);
    FilteredSum(HasMultiple, EntryMultiple, es);
    ShareIsShare(SumIf(Risks, Multiple, es), CountIf(Risks, es));
  }

  lemma {:induction false} SliceTells(es: seq<JournalEntry>)
    requires MultiplesOk(es)
    ensures SliceSays(PerformanceSlice(es), es)
  {
    FiguresOfEntries(es);
    LossesAreNegative(es);
    ProfitFactorIs(SumIf(Gains, Result, es), SumIf(Loses, Result, es));
  }

  // ---------------------------------------------------------------------
  // Slices
  // ---------------------------------------------------------------------

  /** The entries for which a condition holds, in order. */
  ghost predicate Picks(p: JournalEntry -> bool, es: seq<JournalEntry>, picked: seq<JournalEntry>) {
    && (forall e :: e in picked ==> e in es && p(e))
    && (forall e :: e in es && p(e) ==> multiset(picked)[e] == multiset(es)[e])
  }

  function ForSymbol(symbol: string): JournalEntry -> bool {
    (e: JournalEntry) => e.symbol == symbol
  }

  function InDirection(d: Direction): JournalEntry -> bool {
    (e: JournalEntry) => e.direction == d
  }

  lemma {:induction false} SymbolIsPicked(es: seq<JournalEntry>, symbol: string)
    ensures Picks(ForSymbol(symbol), es, OfSymbol(es, symbol))
  {
    if |es| > 0 {
      SymbolIsPicked(es[..|es| - 1], symbol);
      assert es == es[..|es| - 1] + [es[|es| - 1]];
      PickOneMore(ForSymbol(symbol), es[..|es| - 1], OfSymbol(es[..|es| - 1], symbol), es[|es| - 1]);
    }
  }

  lemma {:induction false} DirectionIsPicked(es: seq<JournalEntry>, d: Direction)
    ensures Picks(InDirection(d), es, OfDirection(es, d))
  {
    if |es| > 0 {
      DirectionIsPicked(es[..|es| - 1], d);
      assert es == es[..|es| - 1] + [es[|es| - 1]];
      PickOneMore(InDirection(d), es[..|es| - 1], OfDirection(es[..|es| - 1], d), es[|es| - 1]);
    }
  }

  lemma {:induction false} PickOneMore(
    p: JournalEntry -> bool, es: seq<JournalEntry>, picked: seq<JournalEntry>, e: JournalEntry)
    requires Picks(p, es, picked)
    ensures Picks(p, es + [e], if p(e) then picked + [e] else picked)
  {
    if p(e) && e !in es {
      assert e !in picked && multiset(picked)[e] == 0;
    }
  }

  lemma {:induction false} PickedMultiples(p: JournalEntry -> bool, es: seq<JournalEntry>, picked: seq<JournalEntry>)
    requires Picks(p, es, picked) && MultiplesOk(es)
    ensures MultiplesOk(picked)
  {
  }

  // ---------------------------------------------------------------------
  // The summary
  // ---------------------------------------------------------------------

  /** The greatest of some amounts, or nothing when there are none. */
  ghost predicate IsGreatest(x: real, amounts: seq<real>) {
    if |amounts| == 0 then x == 0.0 else x in amounts && forall i :: 0 <= i < |amounts| ==> amounts[i] <= x
  }

  function Drawdowns(curve: seq<EquityPoint>): seq<real> {
    seq(|curve|, i requires 0 <= i < |curve| => curve[i].drawdown)
  }

  lemma {:induction false} WorstIsGreatest(curve: seq<EquityPoint>)
    ensures IsGreatest(WorstDrawdown(curve), Drawdowns(curve))
  {
    if |curve| > 1 {
      var front := curve[..|curve| - 1];
      WorstIsGreatest(front);
      assert Drawdowns(curve) == Drawdowns(front) + [curve[|curve| - 1].drawdown];
    } else if |curve| == 1 {
      assert Drawdowns(curve) == [curve[0].drawdown];
    }
  }

  /** The figures of a summary, over its own journal and curve. */
  ghost predicate SummarySays(cfg: Settings, q: Request, s: Summary) {
    var es := s.journal;
    && s.starting == cfg.backtestStartingBalance
    && s.trades == |es| && s.wins == CountIf(Gains, es) && s.losses == CountIf(Loses, es)
    && s.breakeven == |es| - CountIf(Gains, es) - CountIf(Loses, es)
    && s.grossProfit == SumIf(Gains, Result, es) && s.grossLoss == SumIf(Loses, Result, es)
    && s.net == Sum(Result, es) && s.gross == Sum(EntryGross, es) && s.fees == Sum(EntryFees, es)
    && IsShare(s.winRate, CountIf(Gains, es) as real, |es|) && IsShare(s.expectancy, Sum(Result, es), |es|)
    && IsProfitFactor(s.profitFactor, s.grossProfit, s.grossLoss)
    && IsShare(s.averageR, SumIf(Risks, Multiple, es), CountIf(Risks, es))
    && IsGreatest(s.maxDrawdown, Drawdowns(s.curve))
    && Product(s.returnPercent, s.starting) == Product(100.0, s.ending - s.starting)
    && (forall x :: x in s.symbols <==> x in q.symbols)
    && (forall x :: x in s.symbols ==> SliceOver(ForSymbol(x), es, s.symbols[x]))
    && Long in s.directions && SliceOver(InDirection(Long), es, s.directions[Long])
    && Short in s.directions && SliceOver(InDirection(Short), es, s.directions[Short])
  }

  ghost predicate SliceOver(p: JournalEntry -> bool, es: seq<JournalEntry>, s: Slice) {
    exists picked :: Picks(p, es, picked) && SliceSays(s, picked)
  }

  lemma {:induction false} MultipleIsResult(net: real, risk: Option<real>)
    ensures MultipleOf(net, risk).Some? <==> risk.Some? && risk.value != 0.0
    ensures MultipleOf(net, risk).Some? ==> Product(MultipleOf(net, risk).value, risk.value) == net
  {
  }

  lemma {:induction false} JournalMultiples(trades: seq<Trade>, plans: map<PlanId, Plan>)
    ensures MultiplesOk(Journal(trades, plans))
  {
    var es := Journal(trades, plans);
    forall e | e in es
      ensures e.rMultiple.Some? <==> Risks(e)
      ensures Risks(e) ==> e.rMultiple.Some? && Product(e.rMultiple.value, e.plannedRisk.value) == e.net
    {
      var i :| 0 <= i < |es| && es[i] == e;
      MultipleIsResult(e.net, e.plannedRisk);
    }
  }

  lemma {:induction false} SlicesTell(q: Request, es: seq<JournalEntry>)
    requires MultiplesOk(es)
    ensures forall x :: x in SymbolSlices(q, es) ==> SliceOver(ForSymbol(x), es, SymbolSlices(q, es)[x])
    ensures SliceOver(InDirection(Long), es, DirectionSlices(es)[Long])
    ensures SliceOver(InDirection(Short), es, DirectionSlices(es)[Short])
  {
    forall x | x in SymbolSlices(q, es) ensures SliceOver(ForSymbol(x), es, SymbolSlices(q, es)[x]) {
      SymbolSliceTells(es, x);
    }
    DirectionSliceTells(es, Long);
    DirectionSliceTells(es, Short);
  }

  lemma {:induction false} SymbolSliceTells(es: seq<JournalEntry>, x: string)
    requires MultiplesOk(es)
    ensures SliceOver(ForSymbol(x), es, PerformanceSlice(OfSymbol(es, x)))
  {
    SymbolIsPicked(es, x);
    PickedMultiples(ForSymbol(x), es, OfSymbol(es, x));
    SliceTells(OfSymbol(es, x));
  }

  lemma {:induction false} DirectionSliceTells(es: seq<JournalEntry>, d: Direction)
    requires MultiplesOk(es)
    ensures SliceOver(InDirection(d), es, PerformanceSlice(OfDirection(es, d)))
  {
    DirectionIsPicked(es, d);
    PickedMultiples(InDirection(d), es, OfDirection(es, d));
    SliceTells(OfDirection(es, d));
  }

  lemma {:induction false} ReturnIs(starting: real, ending: real)
    requires starting > 0.0
    ensures Product(ReturnPercent(starting, ending), starting) == Product(100.0, ending - starting)
  {
    var q := (ending - starting) / starting;
    assert (q * 100.0) * starting == 100.0 * (q * starting);
  }

  lemma {:induction false} SummarizeTells(
    cfg: Settings, q: Request, a: Account, es: seq<JournalEntry>, curve: seq<EquityPoint>, counts: Counts)
    requires MultiplesOk(es) && a.starting > 0.0 && a.starting == cfg.backtestStartingBalance
    ensures SummarySays(cfg, q, Summarize(q, a, es, curve, counts))
  {
    FiguresOfEntries(es);
    LossesAreNegative(es);
    ProfitFactorIs(SumIf(Gains, Result, es), SumIf(Loses, Result, es));
    ShareIsShare(CountIf(Gains, es) as real, |es|);
    ShareIsShare(Sum(Result, es), |es|);
    WorstIsGreatest(curve);
    ReturnIs(a.starting, a.equity);
    SlicesTell(q, es);
  }

  /** Every figure of a backtest's summary is the one its journal and its curve give. */
  lemma {:induction false} SummaryFigures(cfg: Settings, q: Request, cs: seq<Candle>, wall: nat -> int)
    requires RunBacktest(cfg, q, cs, wall).Ok?
    ensures SummarySays(cfg, q, RunBacktest(cfg, q, cs, wall).value)
    ensures var s := RunBacktest(cfg, q, cs, wall).value;
            s.ending == if |s.curve| == 0 then s.starting else s.curve[|s.curve| - 1].equity
    ensures MultiplesOk(RunBacktest(cfg, q, cs, wall).value.journal)
  {
    SummaryOfReplay(cfg, q, cs, wall);
    var r := ReplayOf(cfg, q, cs, wall).value;
    EveryReplayIsSound(ReplaySettings(cfg), ReplayFeed(q), q.start, Ordered(q, cs), wall);
    if |Ordered(q, cs)| > 0 {
      LastPoint(ReplaySettings(cfg), ReplayFeed(q), q.start, Ordered(q, cs), wall);
    }
    var trades := Tail(r.book.closed, cfg.maxPaperTradeHistory);
    JournalMultiples(trades, r.plans);
    SummarizeTells(cfg, q, r.book.account, Journal(trades, r.plans), r.curve, r.counts);
  }

  // ---------------------------------------------------------------------
  // Requests
  // ---------------------------------------------------------------------

  /** A request is accepted exactly for the configured timeframe and symbols and a short enough span. */
  lemma {:induction false} RequestIsAcceptedIff(cfg: Settings, q: Request)
    ensures ValidateRequest(cfg, q).None? <==>
              && q.timeframe == cfg.defaultTimeframe
              && (forall s :: s in q.symbols ==> Upper(s) in cfg.symbols)
              && q.end - q.start < 24 * 60 * 60 * 1000 * (cfg.maxBacktestDays + 1)
  {
    assert forall i :: 0 <= i < |q.symbols| ==> q.symbols[i] in q.symbols;
  }

  // ---------------------------------------------------------------------
  // No plan is rejected twice for the same reason
  // ---------------------------------------------------------------------

  /** The order in which the reasons are looked for. */
  function Rank(r: Reason): nat {
    match r
    case NotActionable => 0
    case ScoreTooLow => 1
    case MissingIdentity => 2
    case MissingTime => 3
    case SignalStale => 4
    case InvalidPrice => 5
    case InvalidAtr => 6
    case FeedUnhealthy => 7
    case StopTooTight => 8
    case StopTooWide => 9
    case TooManyPositions => 10
    case DailyLossReached => 11
    case DailyLossExceeded => 12
    case RewardTooSmall => 13
    case CostsEatReward => 14
  }

  /** Reasons found in order, each at most once. */
  ghost predicate InRank(rs: seq<Reason>, from: nat, to: nat) {
    |rs| > 0 ==>
      && from <= Rank(rs[|rs| - 1]) < to
      && InRank(rs[..|rs| - 1], from, Rank(rs[|rs| - 1]))
  }

  lemma {:induction false} RanksJoin(rs: seq<Reason>, more: seq<Reason>, from: nat, mid: nat, to: nat)
    requires InRank(rs, from, mid) && InRank(more, mid, to) && from <= mid <= to
    ensures InRank(rs + more, from, to)
  {
    if |more| > 0 {
      var front, last := more[..|more| - 1], more[|more| - 1];
      RanksJoin(rs, front, from, mid, Rank(last));
      assert (rs + more)[..|rs + more| - 1] == rs + front;
    } else {
      assert rs + more == rs;
      RanksWiden(rs, from, mid, to);
    }
  }

  lemma {:induction false} RanksWiden(rs: seq<Reason>, from: nat, mid: nat, to: nat)
    requires InRank(rs, from, mid) && mid <= to
    ensures InRank(rs, from, to)
  {
  }

  lemma {:induction false} RankedOnce(rs: seq<Reason>, from: nat, to: nat)
    requires InRank(rs, from, to)
    ensures forall x :: multiset(rs)[x] == if x in rs then 1 else 0
    ensures forall x :: x in rs ==> Rank(x) < to
  {
    if |rs| > 0 {
      var front, last := rs[..|rs| - 1], rs[|rs| - 1];
      RankedOnce(front, from, Rank(last));
      assert rs == front + [last];
    }
  }

  lemma {:induction false} Next(rs: seq<Reason>, condition: bool, reason: Reason, mid: nat)
    requires InRank(rs, 0, mid) && mid <= Rank(reason)
    ensures InRank(rs + If(condition, reason), 0, Rank(reason) + 1)
  {
    assert [reason][..0] == [];
    RanksJoin(rs, If(condition, reason), 0, mid, Rank(reason) + 1);
  }

  lemma {:induction false} FirstThreeRanked(a: bool, b: bool, c: bool)
    ensures InRank(If(a, NotActionable) + If(b, ScoreTooLow) + If(c, MissingIdentity), 0, 3)
  {
    assert [] + If(a, NotActionable) == If(a, NotActionable);
    Next([], a, NotActionable, 0);
    Next(If(a, NotActionable), b, ScoreTooLow, 1);
    Next(If(a, NotActionable) + If(b, ScoreTooLow), c, MissingIdentity, 2);
  }

  lemma {:induction false} LastTwoRanked(rs: seq<Reason>, a: bool, b: bool)
    requires InRank(rs, 0, 5)
    ensures InRank(rs + If(a, InvalidPrice) + If(b, InvalidAtr), 0, 7)
  {
    Next(rs, a, InvalidPrice, 5);
    Next(rs + If(a, InvalidPrice), b, InvalidAtr, 6);
  }

  lemma {:induction false} SignalReasonsRanked(s: Signal, cfg: Settings, now: int)
    ensures InRank(SignalReasons(s, cfg, now), 0, 7)
  {
    var a, b := s.direction.NoTrade? || !s.actionable, s.score < cfg.signalMinScore;
    var c := s.openTime.None? || s.closeTime.None?;
    var late := s.generatedAt.Some? && now - s.generatedAt.value > 1000 * cfg.maxSignalAgeSeconds;
    var first := If(a, NotActionable) + If(b, ScoreTooLow) + If(c, MissingIdentity);
    FirstThreeRanked(a, b, c);
    TimeRanked(first, s.generatedAt.None?, late);
    LastTwoRanked(first + (if s.generatedAt.None? then [MissingTime] else If(late, SignalStale)),
                  s.close.None? || s.close.value <= 0.0, s.atr.None? || s.atr.value <= 0.0);
  }

  lemma {:induction false} TimeRanked(rs: seq<Reason>, missing: bool, late: bool)
    requires InRank(rs, 0, 3)
    ensures InRank(rs + (if missing then [MissingTime] else If(late, SignalStale)), 0, 5)
  {
    Next(rs, true, MissingTime, 3);
    Next(rs, late, SignalStale, 3);
    RanksWiden(rs + [MissingTime], 0, 4, 5);
  }

  lemma {:induction false} EndReasonsRanked(a: RiskAccount, proposed: real, cfg: Settings, low: bool, costly: bool)
    ensures InRank(AccountReasons(a, proposed, cfg) + If(low, RewardTooSmall) + If(costly, CostsEatReward), 0, 15)
  {
    AccountReasonsRanked(a, proposed, cfg);
    Next(AccountReasons(a, proposed, cfg), low, RewardTooSmall, 13);
    Next(AccountReasons(a, proposed, cfg) + If(low, RewardTooSmall), costly, CostsEatReward, 14);
  }

  lemma {:induction false} DailyReasonsRanked(full: bool, reached: bool, exceeded: bool)
    ensures var daily := if reached then [DailyLossReached] else If(exceeded, DailyLossExceeded);
            InRank(If(full, TooManyPositions) + daily, 0, 13)
  {
    var first := If(full, TooManyPositions);
    assert [] + first == first;
    Next([], full, TooManyPositions, 0);
    Next(first, true, DailyLossReached, 11);
    RanksWiden(first + [DailyLossReached], 0, 12, 13);
    Next(first, exceeded, DailyLossExceeded, 11);
  }

  lemma {:induction false} AccountReasonsRanked(a: RiskAccount, proposed: real, cfg: Settings)
    ensures InRank(AccountReasons(a, proposed, cfg), 0, 13)
  {
    var limit := DailyLimit(a.equity, cfg);
    DailyReasonsRanked(a.openCount >= cfg.maxOpenPositions, a.DailyLossUsed() >= limit,
                       a.DailyLossUsed() + proposed > limit);
  }

  lemma {:induction false} FirstReasonsRanked(cfg: Settings, s: Signal, feed: Option<Feed>, now: int)
    ensures InRank(SignalReasons(s, cfg, now) + MarketReasons(s.symbol, feed), 0, 8)
  {
    SignalReasonsRanked(s, cfg, now);
    Next(SignalReasons(s, cfg, now), feed.Some? && !feed.value.Healthy(s.symbol), FeedUnhealthy, 7);
  }

  lemma {:induction false} SizedReasonsRanked(cfg: Settings, p: Plan, a: RiskAccount, c: Capped, distance: real)
    ensures InRank(SizedPlan(cfg, p, a, c, distance).reasons, 0, 15)
  {
    var e := PlanEconomics(cfg, c, distance);
    EndReasonsRanked(a, c.risk, cfg, e.rr < cfg.minRr, e.netReward <= 0.0);
  }

  lemma {:induction false} PlanReasonsRanked(cfg: Settings, s: Signal, feed: Option<Feed>, a: RiskAccount, now: int)
    ensures InRank(BuildPlan(cfg, s, feed, a, now).reasons, 0, 15)
    ensures BuildPlan(cfg, s, feed, a, now).direction == s.direction
  {
    FirstReasonsRanked(cfg, s, feed, now);
    if SignalReasons(s, cfg, now) + MarketReasons(s.symbol, feed) != [] {
      RanksWiden(SignalReasons(s, cfg, now) + MarketReasons(s.symbol, feed), 0, 8, 15);
    } else {
      var entry := s.close.value;
      var levels := LevelsFor(cfg, s.direction, entry, s.atr.value);
      var p := WithLevels(BasePlan(s, now), entry, levels, PlannedRisk(a.equity, cfg));
      assert [StopTooTight][..0] == [] && [StopTooWide][..0] == [];
      SizedReasonsRanked(cfg, p, a, SizeFor(cfg, a.equity, entry, levels.distance), levels.distance);
    }
  }

  lemma {:induction false} PlanReasonsOnce(cfg: Settings, s: Signal, feed: Option<Feed>, a: RiskAccount, now: int)
    ensures var rs := BuildPlan(cfg, s, feed, a, now).reasons;
            forall x :: multiset(rs)[x] == if x in rs then 1 else 0
    ensures BuildPlan(cfg, s, feed, a, now).direction == s.direction
  {
    PlanReasonsRanked(cfg, s, feed, a, now);
    RankedOnce(BuildPlan(cfg, s, feed, a, now).reasons, 0, 15);
  }

  // ---------------------------------------------------------------------
  // The counts
  // ---------------------------------------------------------------------

  ghost function PlansWith(p: Plan -> bool, plans: map<PlanId, Plan>): set<PlanId> {
    set id | id in plans && p(plans[id])
  }

  function Going(d: Direction): Plan -> bool {
    (p: Plan) => p.direction == d
  }

  predicate IsApproved(p: Plan) { p.approved }
  predicate IsRejected(p: Plan) { !p.approved }

  function RejectedFor(x: Reason): Plan -> bool {
    (p: Plan) => !p.approved && x in p.reasons
  }

  /** The counts of a backtest number its plans: by direction, by approval, and by reason of rejection. */
  ghost predicate CountsTell(n: Counts, plans: map<PlanId, Plan>) {
    && n.long == |PlansWith(Going(Long), plans)| && n.short == |PlansWith(Going(Short), plans)|
    && n.noTrade == |PlansWith(Going(NoTrade), plans)|
    && n.approved == |PlansWith(IsApproved, plans)| && n.rejected == |PlansWith(IsRejected, plans)|
    && forall x :: n.reasons[x] == |PlansWith(RejectedFor(x), plans)|
  }

  lemma {:induction false} OneMorePlan(p: Plan -> bool, plans: map<PlanId, Plan>, id: PlanId, plan: Plan)
    requires id !in plans
    ensures |PlansWith(p, plans[id := plan])| == |PlansWith(p, plans)| + (if p(plan) then 1 else 0)
  {
    assert PlansWith(p, plans[id := plan]) == PlansWith(p, plans) + (if p(plan) then {id} else {});
  }

  lemma {:induction false} CountsOneMore(n: Counts, plans: map<PlanId, Plan>, id: PlanId, plan: Plan)
    requires CountsTell(n, plans) && id !in plans
    requires forall x :: multiset(plan.reasons)[x] == if x in plan.reasons then 1 else 0
    ensures CountsTell(CountPlan(CountSignal(n, plan.direction), plan), plans[id := plan])
  {
    OneMorePlan(Going(Long), plans, id, plan);
    OneMorePlan(Going(Short), plans, id, plan);
    OneMorePlan(Going(NoTrade), plans, id, plan);
    OneMorePlan(IsApproved, plans, id, plan);
    OneMorePlan(IsRejected, plans, id, plan);
    var next := CountPlan(CountSignal(n, plan.direction), plan);
    forall x ensures next.reasons[x] == |PlansWith(RejectedFor(x), plans[id := plan])| {
      OneMorePlan(RejectedFor(x), plans, id, plan);
    }
  }

  /** Each signal becomes a plan, recorded under an identity of its own. */
  ghost predicate CountsOk(r: Replay) {
    && r.strategyMarks == r.riskMarks && CountsTell(r.counts, r.plans)
    && PlansCovered(r.riskMarks, r.plans)
  }

  ghost predicate PlansCovered(marks: map<Key, int>, plans: map<PlanId, Plan>) {
    forall id :: id in plans ==> Covers(marks, id)
  }

  ghost predicate NothingCounted(r: Replay, next: Replay) {
    && next.strategyMarks == r.strategyMarks && next.riskMarks == r.riskMarks
    && next.counts == r.counts && next.plans == r.plans
  }

  lemma {:induction false} PlanIsNamed(cfg: Settings, s: Signal, feed: Option<Feed>, a: RiskAccount, now: int)
    requires s.openTime.Some?
    ensures Identity(BuildPlan(cfg, s, feed, a, now)) == Some(PlanId(s.symbol, s.timeframe, s.openTime.value))
  {
  }

  lemma {:induction false} PlanIsCounted(cfg: Settings, r: Replay, p: Plan, now: int)
    requires Identity(p).Some?
    ensures var next := OnPlan(cfg, r, p, now);
            && next.strategyMarks == r.strategyMarks && next.riskMarks == r.riskMarks
            && next.counts == CountPlan(r.counts, p) && next.plans == r.plans[Identity(p).value := p]
  {
  }

  lemma {:induction false} SignalIsCounted(cfg: Settings, feed: Feed, r: Replay, s: Signal, now: int)
    requires Passes(r.riskMarks, SignalKey(s), s.openTime)
    ensures var (plan, next) := (BuildPlan(cfg, s, Some(feed), r.riskAccount, now), OnSignal(cfg, feed, r, s, now));
            && next.strategyMarks == r.strategyMarks && next.riskMarks == r.riskMarks[SignalKey(s) := s.openTime.value]
            && next.counts == CountPlan(CountSignal(r.counts, s.direction), plan)
            && next.plans == r.plans[PlanId(s.symbol, s.timeframe, s.openTime.value) := plan]
  {
    PlanIsNamed(cfg, s, Some(feed), r.riskAccount, now);
    var (marked, plan) := Planned(cfg, feed, r, s, now);
    PlanIsCounted(cfg, marked, plan.value, now);
  }

  lemma {:induction false} SignalKeepsCounts(cfg: Settings, feed: Feed, r: Replay, s: Signal, now: int)
    requires Passes(r.riskMarks, SignalKey(s), s.openTime) && CountsTell(r.counts, r.plans)
    requires PlansCovered(r.riskMarks, r.plans)
    ensures var next := OnSignal(cfg, feed, r, s, now);
            && next.strategyMarks == r.strategyMarks && next.riskMarks == r.riskMarks[SignalKey(s) := s.openTime.value]
            && CountsTell(next.counts, next.plans) && PlansCovered(next.riskMarks, next.plans)
  {
    SignalIsCounted(cfg, feed, r, s, now);
    PlanReasonsOnce(cfg, s, Some(feed), r.riskAccount, now);
    var plan := BuildPlan(cfg, s, Some(feed), r.riskAccount, now);
    NewIsCovered(r.riskMarks, r.plans, SignalKey(s), s.openTime.value, plan);
    CountsOneMore(r.counts, r.plans, PlanId(s.symbol, s.timeframe, s.openTime.value), plan);
  }

  lemma {:induction false} NewIsCovered(marks: map<Key, int>, plans: map<PlanId, Plan>, k: Key, at: int, plan: Plan)
    requires PlansCovered(marks, plans) && Passes(marks, k, Some(at))
    ensures PlanId(k.symbol, k.timeframe, at) !in plans
    ensures PlansCovered(marks[k := at], plans[PlanId(k.symbol, k.timeframe, at) := plan])
  {
  }

  lemma {:induction false} SnapshotKeepsCounts(
    cfg: Settings, feed: Feed, r: Replay, s: Snapshot, now: int, wall: int)
    requires CountsOk(r)
    ensures CountsOk(OnSnapshot(cfg, feed, r, s, now, wall))
  {
    var (marks, signal) := ProcessSnapshot(cfg, r.strategyMarks, s, Some(feed), wall);
    if signal.Some? {
      SignalWrittenOut(cfg, s, Some(feed), wall);
      SignalKeepsCounts(cfg, feed, r.(strategyMarks := marks), signal.value, now);
    }
  }

  lemma {:induction false} StepKeepsCounts(cfg: Settings, feed: Feed, r: Replay, c: Candle, wall: int)
    requires CountsOk(r) && Step(cfg, feed, r, c, wall).Ok?
    ensures CountsOk(Step(cfg, feed, r, c, wall).value)
  {
    var executed, analysed := StepParts(cfg, feed, r, c, wall);
    assert NothingCounted(r, executed);
    var processed := Process(cfg, executed.states, c).value;
    var stated := executed.(states := processed.0);
    assert NothingCounted(r, stated);
    if processed.1.Some? {
      SnapshotKeepsCounts(cfg, feed, stated, processed.1.value, c.closeTime, wall);
    }
    assert NothingCounted(analysed, Record(analysed, c));
  }

  lemma {:induction false} ReplayCounts(cfg: Settings, feed: Feed, start: int, cs: seq<Candle>, wall: nat -> int)
    requires Replayed(cfg, feed, start, cs, wall).Ok?
    ensures CountsOk(Replayed(cfg, feed, start, cs, wall).value)
  {
    if |cs| > 0 {
      var before, after := LastStep(cfg, feed, start, cs, wall);
      ReplayCounts(cfg, feed, start, cs[..|cs| - 1], wall);
      StepKeepsCounts(cfg, feed, before, cs[|cs| - 1], wall(|cs| - 1));
    } else {
      assert forall p :: PlansWith(p, map[]) == {};
    }
  }

  /**
   * The counts of a backtest number the plans it recorded, one for each signal: the directions, the
   * approvals and, for each reason, the rejections.
   */
  lemma {:induction false} CountsOfBacktest(cfg: Settings, q: Request, cs: seq<Candle>, wall: nat -> int)
    returns (r: Replay)
    requires RunBacktest(cfg, q, cs, wall).Ok?
    ensures Replayed(ReplaySettings(cfg), ReplayFeed(q), q.start, Ordered(q, cs), wall) == Ok(r)
    ensures CountsTell(RunBacktest(cfg, q, cs, wall).value.counts, r.plans)
  {
    SummaryOfReplay(cfg, q, cs, wall);
    r := ReplayOf(cfg, q, cs, wall).value;
    ReplayCounts(ReplaySettings(cfg), ReplayFeed(q), q.start, Ordered(q, cs), wall);
  }
}
