/**
 * A change of units: prices by `k`, volumes by `m`, money by `c`, and quantities by `q`,
 * where a quantity times a price is an amount of money.
 */
module Scaling {
  import opened Common
  import opened Configuration
  import opened Market
  import opened Indicators
  import opened Strategy
  import opened Risk
  import opened Ledger
  import opened Backtest

  datatype Units = Units(k: real, m: real, c: real, q: real) {
    predicate Valid() {
      k > 0.0 && m > 0.0 && c > 0.0 && q > 0.0 && q * k == c
    }
  }

  type Scale = z: Units | z.Valid() witness Units(1.0, 1.0, 1.0, 1.0)

  // ---------------------------------------------------------------------
  // The scaled form of every record
  // ---------------------------------------------------------------------

  function SettingsIn(z: Scale, cfg: Settings): Settings {
    ProductPositive(z.c, cfg.startingBalance);
    ProductPositive(z.c, cfg.backtestStartingBalance);
    cfg.(startingBalance := Product(z.c, cfg.startingBalance),
         backtestStartingBalance := Product(z.c, cfg.backtestStartingBalance))
  }

  function CandleIn(z: Scale, x: Candle): Candle {
    x.(open := Product(z.k, x.open), high := Product(z.k, x.high), low := Product(z.k, x.low),
       close := Product(z.k, x.close), volume := Product(z.m, x.volume))
  }

  function CandlesIn(z: Scale, xs: seq<Candle>): (r: seq<Candle>)
    ensures |r| == |xs| && forall i :: 0 <= i < |xs| ==> r[i] == CandleIn(z, xs[i])
  {
    seq(|xs|, i requires 0 <= i < |xs| => CandleIn(z, xs[i]))
  }

  function Times(k: real, x: Option<real>): Option<real> {
    if x.None? then None else Some(Product(k, x.value))
  }

  function AllTimes(k: real, xs: seq<real>): (r: seq<real>)
    ensures |r| == |xs| && forall i :: 0 <= i < |xs| ==> r[i] == Product(k, xs[i])
  {
    seq(|xs|, i requires 0 <= i < |xs| => Product(k, xs[i]))
  }

  function Grown(k: real, x: NonNegative): NonNegative
    requires k > 0.0
  {
    ProductNonNegative(k, x);
    Product(k, x)
  }

  function GrownOption(k: real, x: Option<NonNegative>): Option<NonNegative>
    requires k > 0.0
  {
    if x.None? then None else Some(Grown(k, x.value))
  }

  function AllGrown(k: real, xs: seq<NonNegative>): (r: seq<NonNegative>)
    requires k > 0.0
    ensures |r| == |xs| && forall i :: 0 <= i < |xs| ==> r[i] == Grown(k, xs[i])
  {
    seq(|xs|, i requires 0 <= i < |xs| => Grown(k, xs[i]))
  }

  function EmaIn(k: real, e: Ema): Ema {
    Ema(AllTimes(k, e.seed), Times(k, e.value))
  }

  function MomentumIn(k: real, m: Momentum): Momentum
    requires k > 0.0
  {
    Momentum(AllGrown(k, m.gains), AllGrown(k, m.losses), GrownOption(k, m.averageGain), GrownOption(k, m.averageLoss))
  }

  /** The unit of a price times a volume. */
  function TurnoverUnit(z: Scale): real {
    Product(z.k, z.m)
  }

  function SessionIn(z: Scale, s: Session): Session {
    Session(s.day, Product(TurnoverUnit(z), s.numerator), Product(z.m, s.volume))
  }

  function StateIn(z: Scale, s: IndicatorState): IndicatorState {
    IndicatorState(EmaIn(z.k, s.fast), EmaIn(z.k, s.slow), Times(z.k, s.previousClose), MomentumIn(z.k, s.momentum),
                   EmaIn(z.k, s.range), SessionIn(z, s.session), AllTimes(z.m, s.volumes), s.lastOpenTime)
  }

  function StatesIn(z: Scale, states: map<Key, IndicatorState>): map<Key, IndicatorState> {
    map key | key in states :: StateIn(z, states[key])
  }

  /** RSI is a percentage and keeps its value. */
  function SnapshotIn(z: Scale, s: Snapshot): Snapshot {
    s.(close := Times(z.k, s.close), emaFast := Times(z.k, s.emaFast), emaSlow := Times(z.k, s.emaSlow),
       atr := Times(z.k, s.atr), vwap := Times(z.k, s.vwap), volume := Times(z.m, s.volume),
       volumeMa := Times(z.m, s.volumeMa))
  }

  function SignalIn(z: Scale, s: Signal): Signal {
    s.(close := Times(z.k, s.close), atr := Times(z.k, s.atr))
  }

  /** Distances in basis points and the reward ratio keep their values. */
  function PlanIn(z: Scale, p: Plan): Plan {
    p.(entry := Times(z.k, p.entry), stop := Times(z.k, p.stop), target := Times(z.k, p.target),
       stopDistance := Times(z.k, p.stopDistance), plannedRisk := Times(z.c, p.plannedRisk),
       actualRisk := Times(z.c, p.actualRisk), notional := Times(z.c, p.notional), quantity := Times(z.q, p.quantity),
       reward := Times(z.c, p.reward), fees := Times(z.c, p.fees), slippage := Times(z.c, p.slippage),
       netReward := Times(z.c, p.netReward))
  }

  function RiskAccountIn(z: Scale, a: RiskAccount): RiskAccount {
    ProductPositive(z.c, a.equity);
    AccountRecord(Product(z.c, a.equity), Product(z.c, a.realizedToday), a.openCount)
  }

  function TermsIn(z: Scale, t: Terms): Terms {
    Terms(t.direction, Product(z.k, t.entryReference), Product(z.k, t.entryFill), Product(z.q, t.quantity),
          Product(z.c, t.notional), Product(z.k, t.stop), Product(z.k, t.target), Product(z.c, t.risk),
          Product(z.c, t.entryFee))
  }

  function MarkIn(z: Scale, x: Mark): Mark {
    Mark(Product(z.k, x.price), Product(z.c, x.exitFee), Product(z.c, x.gross), Product(z.c, x.net))
  }

  function PositionIn(z: Scale, p: Position): Position {
    p.(terms := TermsIn(z, p.terms), mark := MarkIn(z, p.mark))
  }

  function PositionsIn(z: Scale, ps: seq<Position>): (r: seq<Position>)
    ensures |r| == |ps| && forall i :: 0 <= i < |ps| ==> r[i] == PositionIn(z, ps[i])
  {
    seq(|ps|, i requires 0 <= i < |ps| => PositionIn(z, ps[i]))
  }

  function PendingIn(z: Scale, w: Pending): Pending {
    Pending(w.id, PlanIn(z, w.plan))
  }

  function WaitingIn(z: Scale, ws: seq<Pending>): (r: seq<Pending>)
    ensures |r| == |ws| && forall i :: 0 <= i < |ws| ==> r[i] == PendingIn(z, ws[i])
  {
    seq(|ws|, i requires 0 <= i < |ws| => PendingIn(z, ws[i]))
  }

  function ExitIn(z: Scale, e: Option<Exit>): Option<Exit> {
    if e.None? then None else Some(Exit(Product(z.k, e.value.trigger), e.value.reason))
  }

  function TradeIn(z: Scale, t: Trade): Trade {
    t.(entryFill := Product(z.k, t.entryFill), exitFill := Product(z.k, t.exitFill),
       quantity := Product(z.q, t.quantity),
       risk := Product(z.c, t.risk), gross := Product(z.c, t.gross), fees := Product(z.c, t.fees),
       net := Product(z.c, t.net))
  }

  function TradesIn(z: Scale, ts: seq<Trade>): (r: seq<Trade>)
    ensures |r| == |ts| && forall i :: 0 <= i < |ts| ==> r[i] == TradeIn(z, ts[i])
  {
    seq(|ts|, i requires 0 <= i < |ts| => TradeIn(z, ts[i]))
  }

  function AccountIn(z: Scale, a: Account): Account {
    a.(starting := Product(z.c, a.starting), cash := Product(z.c, a.cash), equity := Product(z.c, a.equity),
       realized := Product(z.c, a.realized), realizedToday := Product(z.c, a.realizedToday),
       gross := Product(z.c, a.gross), fees := Product(z.c, a.fees))
  }

  function TxnIn(z: Scale, t: Txn): Txn {
    match t
    case PersistOpen(a, p) => PersistOpen(AccountIn(z, a), PositionIn(z, p))
    case PersistClose(a, t) => PersistClose(AccountIn(z, a), TradeIn(z, t))
    case PersistAccount(a) => PersistAccount(AccountIn(z, a))
  }

  function TxnsIn(z: Scale, ts: seq<Txn>): (r: seq<Txn>)
    ensures |r| == |ts| && forall i :: 0 <= i < |ts| ==> r[i] == TxnIn(z, ts[i])
  {
    seq(|ts|, i requires 0 <= i < |ts| => TxnIn(z, ts[i]))
  }

  function BookIn(z: Scale, b: Book): Book {
    Book(AccountIn(z, b.account), WaitingIn(z, b.pending), PositionsIn(z, b.open), TradesIn(z, b.closed), b.seen,
         b.recovery, b.paused, TradesIn(z, b.history), TxnsIn(z, b.txns))
  }

  function PlansIn(z: Scale, plans: map<PlanId, Plan>): map<PlanId, Plan> {
    map id | id in plans :: PlanIn(z, plans[id])
  }

  function PointIn(z: Scale, p: EquityPoint): EquityPoint {
    EquityPoint(p.timestamp, Product(z.c, p.equity), Product(z.c, p.drawdown), p.drawdownPercent)
  }

  function CurveIn(z: Scale, ps: seq<EquityPoint>): (r: seq<EquityPoint>)
    ensures |r| == |ps| && forall i :: 0 <= i < |ps| ==> r[i] == PointIn(z, ps[i])
  {
    seq(|ps|, i requires 0 <= i < |ps| => PointIn(z, ps[i]))
  }

  function ReplayIn(z: Scale, r: Replay): Replay {
    Replay(StatesIn(z, r.states), r.strategyMarks, r.riskMarks, RiskAccountIn(z, r.riskAccount), BookIn(z, r.book),
           PlansIn(z, r.plans), r.counts, Product(z.c, r.peak), CurveIn(z, r.curve))
  }

  function EntryIn(z: Scale, e: JournalEntry): JournalEntry {
    e.(entryPrice := Product(z.k, e.entryPrice), stop := Times(z.k, e.stop), target := Times(z.k, e.target),
       exitPrice := Product(z.k, e.exitPrice), quantity := Product(z.q, e.quantity),
       plannedRisk := Times(z.c, e.plannedRisk), gross := Product(z.c, e.gross), fees := Product(z.c, e.fees),
       net := Product(z.c, e.net))
  }

  function EntriesIn(z: Scale, es: seq<JournalEntry>): (r: seq<JournalEntry>)
    ensures |r| == |es| && forall i :: 0 <= i < |es| ==> r[i] == EntryIn(z, es[i])
  {
    seq(|es|, i requires 0 <= i < |es| => EntryIn(z, es[i]))
  }

  function SliceIn(z: Scale, s: Slice): Slice {
    s.(net := Product(z.c, s.net))
  }

  /** Counts, rates, factors, multiples and percentages keep their values; money and prices scale. */
  function SummaryIn(z: Scale, s: Summary): Summary {
    s.(starting := Product(z.c, s.starting), ending := Product(z.c, s.ending),
       grossProfit := Product(z.c, s.grossProfit), grossLoss := Product(z.c, s.grossLoss),
       gross := Product(z.c, s.gross), net := Product(z.c, s.net), fees := Product(z.c, s.fees),
       expectancy := Times(z.c, s.expectancy), maxDrawdown := Product(z.c, s.maxDrawdown),
       symbols := map x | x in s.symbols :: SliceIn(z, s.symbols[x]),
       directions := map x | x in s.directions :: SliceIn(z, s.directions[x]),
       journal := EntriesIn(z, s.journal), curve := CurveIn(z, s.curve))
  }

  // ---------------------------------------------------------------------
  // Arithmetic of scaling
  // ---------------------------------------------------------------------

  lemma {:induction false} ProductDistributes(k: real, a: real, b: real)
    ensures Product(k, a) + Product(k, b) == Product(k, a + b)
    ensures Product(k, a) - Product(k, b) == Product(k, a - b)
    ensures Product(k, 0.0) == 0.0 && -Product(k, a) == Product(k, -a)
  {
  }

  lemma {:induction false} ProductOrder(k: real, a: real, b: real)
    requires k > 0.0
    ensures Product(k, a) <= Product(k, b) <==> a <= b
    ensures Product(k, a) < Product(k, b) <==> a < b
    ensures Product(k, a) == Product(k, b) <==> a == b
    ensures Product(k, a) <= 0.0 <==> a <= 0.0
    ensures Product(k, a) < 0.0 <==> a < 0.0
    ensures Product(k, a) == 0.0 <==> a == 0.0
  {
    ScaleOrder(k, a, b);
  }

  lemma {:induction false} ProductExtremes(k: real, a: real, b: real)
    requires k > 0.0
    ensures Max(Product(k, a), Product(k, b)) == Product(k, Max(a, b))
    ensures Min(Product(k, a), Product(k, b)) == Product(k, Min(a, b))
    ensures Max(Product(k, a), 0.0) == Product(k, Max(a, 0.0))
    ensures Abs(Product(k, a)) == Product(k, Abs(a))
  {
    ScaleExtremes(k, a, b);
  }

  /** A factor can be moved inside either side of a product. */
  lemma {:induction false} ProductOfProduct(k: real, a: real, b: real)
    ensures Product(Product(k, a), b) == Product(k, Product(a, b))
    ensures Product(a, Product(k, b)) == Product(k, Product(a, b))
  {
  }

  lemma {:induction false} RatioOfScaled(k: real, a: real, b: real)
    requires k > 0.0 && b != 0.0
    ensures Product(k, b) != 0.0 && Ratio(Product(k, a), Product(k, b)) == Ratio(a, b)
    ensures Ratio(Product(k, a), b) == Product(k, Ratio(a, b))
  {
    ScaleBothSides(k, a, b);
    ScaleQuotient(k, a, b);
  }

  /** A quantity times a price scales like money. */
  lemma {:induction false} QuantityTimesPrice(z: Scale, quantity: real, price: real)
    ensures Product(Product(z.q, quantity), Product(z.k, price)) == Product(z.c, Product(quantity, price))
    ensures Product(Product(z.k, price), Product(z.q, quantity)) == Product(z.c, Product(price, quantity))
  {
    var x := quantity * price;
    assert (z.q * quantity) * (z.k * price) == (z.q * z.k) * x;
  }

  lemma {:induction false} MoneyOverPrice(z: Scale, money: real, price: real)
    requires price != 0.0
    ensures Product(z.k, price) != 0.0
    ensures Ratio(Product(z.c, money), Product(z.k, price)) == Product(z.q, Ratio(money, price))
  {
    ScaleOrder(z.k, price, 0.0);
    var r := money / price;
    assert z.c * money == (z.q * r) * (z.k * price) by {
      assert r * price == money;
      assert (z.q * r) * (z.k * price) == (z.q * z.k) * (r * price);
    }
    QuotientUnique(z.c * money, z.k * price, z.q * r);
  }

  lemma {:induction false} SumInUnits<T>(f: T -> real, c: real, xs: seq<T>, ys: seq<T>)
    requires |xs| == |ys| && forall i :: 0 <= i < |xs| ==> f(ys[i]) == Product(c, f(xs[i]))
    ensures Sum(f, ys) == Product(c, Sum(f, xs))
  {
    SumScale(f, c, xs, ys);
  }
}
