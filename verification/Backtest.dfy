/**
 The event-driven backtester of src/backtest.py with the cost model of
 src/costs.py: weekly close signals, filled on the next bar.  One simulation is a
 fold over the bars; Err is a raised exception.
 */
module Backtest {
  import opened Common
  import opened Numbers
  import opened Quantities

  type Symbol = nat

  const SECONDS_PER_DAY := 86400

  datatype Config = Config(initialCash: real, feeRate: real, slippageRate: real, intervalDays: nat, tolerance: real)

  predicate ConfigOk(c: Config) {
    && 0.0 < c.initialCash && 0.0 <= c.feeRate < 1.0 && 0.0 <= c.slippageRate < 1.0
    && 0 < c.intervalDays && c.intervalDays % 7 == 0
    && 0.0 <= c.tolerance <= 0.000001
  }

  /** Asset columns, bar timestamps in seconds, ISO week of each bar, and one row of closes per bar. */
  datatype Market = Market(assets: seq<Symbol>, time: seq<int>, week: seq<int>, prices: seq<map<Symbol, real>>)

  /** What the constructor accepts: a sorted index without duplicates and positive closes throughout. */
  predicate MarketOk(m: Market) {
    && |m.time| == |m.week| == |m.prices| && 0 < |m.prices|
    && Distinct(m.assets)
    && (forall i, j :: 0 <= i < j < |m.time| ==> m.time[i] < m.time[j])
    && forall i :: 0 <= i < |m.prices| ==> PricesOk(m.assets, m.prices[i])
  }

  predicate PricesOk(assets: seq<Symbol>, prices: map<Symbol, real>) {
    forall a :: a in assets ==> a in prices && 0.0 < prices[a]
  }

  datatype Name = Cash | Asset(symbol: Symbol)

  /** What a target function returns: None is anything `dict()` refuses. */
  type Signal = Option<map<Name, Num>>
  type Target = (Market, nat) -> Signal
  type Weights = map<Name, real>

  datatype Error = BadWeights | NegativeCash

  datatype Order = Order(id: nat, bar: nat, signal: int, symbol: Symbol, side: Side, requested: real, weight: real)
  datatype Fill = Fill(order: Order, bar: nat, quantity: real, market: real, execution: real, fee: real, slippage: real)
  datatype Account = Account(cash: real, quantities: map<Symbol, real>, fills: seq<Fill>)
  datatype EquityRow = EquityRow(bar: nat, equity: real, cash: real)
  datatype PositionRow = PositionRow(bar: nat, symbol: Symbol, quantity: real, value: real, weight: real)
  datatype Sim = Sim(account: Account, pending: seq<Order>, orders: seq<Order>, last: Option<nat>,
                     equity: seq<EquityRow>, positions: seq<PositionRow>)

  function Lookup(m: map<Symbol, real>, s: Symbol): real {
    if s in m then m[s] else 0.0
  }

  // ------------------------------------------------------------------- weights

  function WeightOf(w: Weights, n: Name): real {
    if n in w then w[n] else 0.0
  }

  /** Sum of the risky weights, asset by asset. */
  function RiskyTotal(assets: seq<Symbol>, w: Weights): real {
    if assets == [] then 0.0
    else RiskyTotal(assets[..|assets| - 1], w) + WeightOf(w, Asset(assets[|assets| - 1]))
  }

  predicate Known(m: Market, n: Name) {
    n.Cash? || n.symbol in m.assets
  }

  /** `_extract_weights`. */
  function ExtractWeights(c: Config, m: Market, signal: Signal): Result<Weights, Error> {
    if signal.None? || exists n :: n in signal.value && (!Known(m, n) || signal.value[n].NonFinite?) then Err(BadWeights)
    else
      var w := map n | n in signal.value :: signal.value[n].v;
      if exists n :: n in w && w[n] < 0.0 then Err(BadWeights)
      else if RiskyTotal(m.assets, w) > 1.0 + c.tolerance then Err(BadWeights)
      else if Cash in w && (w[Cash] > 1.0 + c.tolerance || Abs(RiskyTotal(m.assets, w) + w[Cash] - 1.0) > c.tolerance)
        then Err(BadWeights)
      else Ok(w)
  }

  // -------------------------------------------------------------------- orders

  /** `ExecutionCostModel.execution_price`. */
  function ExecutionPrice(c: Config, price: real, side: Side): real {
    if side.Buy? then Times(price, 1.0 + c.slippageRate) else Times(price, 1.0 - c.slippageRate)
  }

  /** `ExecutionCostModel.fee`. */
  function Fee(c: Config, quantity: real, price: real): real {
    Times(Abs(Times(quantity, price)), c.feeRate)
  }

  function Value(assets: seq<Symbol>, quantities: map<Symbol, real>, prices: map<Symbol, real>): real {
    if assets == [] then 0.0
    else
      var a := assets[|assets| - 1];
      Value(assets[..|assets| - 1], quantities, prices) + Times(Lookup(quantities, a), Lookup(prices, a))
  }

  function Equity(m: Market, a: Account, prices: map<Symbol, real>): real {
    a.cash + Value(m.assets, a.quantities, prices)
  }

  function Delta(equity: real, weight: real, price: real, held: real): real
    requires price != 0.0
  {
    Times(equity, weight) / price - held
  }

  /** One asset of `create_orders`. */
  function CreateOne(c: Config, m: Market, w: Weights, bar: nat, signal: int, equity: real, s: Sim, a: Symbol): Sim
    requires bar < |m.prices| && PricesOk(m.assets, m.prices[bar]) && a in m.assets
  {
    var weight := WeightOf(w, Asset(a));
    var delta := Delta(equity, weight, m.prices[bar][a], Lookup(s.account.quantities, a));
    if Abs(delta) <= c.tolerance then s
    else
      var order := Order(|s.orders| + 1, bar, signal, a, if delta > 0.0 then Buy else Sell, Abs(delta), weight);
      s.(orders := s.orders + [order], pending := s.pending + [order])
  }

  /** `create_orders` over the first n assets. */
  function CreateOrders(c: Config, m: Market, w: Weights, bar: nat, signal: int, s: Sim, n: nat): Sim
    requires bar < |m.prices| && PricesOk(m.assets, m.prices[bar]) && n <= |m.assets|
  {
    if n == 0 then s.(pending := [])
    else CreateOne(c, m, w, bar, signal, Equity(m, s.account, m.prices[bar]),
                   CreateOrders(c, m, w, bar, signal, s, n - 1), m.assets[n - 1])
  }

  // ----------------------------------------------------------------- execution

  function OnSide(orders: seq<Order>, side: Side): (r: seq<Order>)
    ensures forall i :: 0 <= i < |r| ==> r[i] in orders && r[i].side == side
  {
    if orders == [] then []
    else
      var rest := OnSide(orders[..|orders| - 1], side);
      if orders[|orders| - 1].side == side then rest + [orders[|orders| - 1]] else rest
  }

  function FillOf(c: Config, prices: map<Symbol, real>, bar: nat, o: Order, quantity: real): Fill {
    var market := Lookup(prices, o.symbol);
    var execution := ExecutionPrice(c, market, o.side);
    Fill(o, bar, quantity, market, execution, Fee(c, quantity, execution),
         Times(quantity, if o.side.Sell? then market - execution else execution - market))
  }

  /** Sell at most what is held; dust below the tolerance is dropped. */
  function SellOne(c: Config, prices: map<Symbol, real>, bar: nat, a: Account, o: Order): Account {
    var held := Lookup(a.quantities, o.symbol);
    var quantity := Min(o.requested, held);
    var f := FillOf(c, prices, bar, o, quantity);
    var left := held - quantity;
    Account(a.cash + (Times(quantity, f.execution) - f.fee),
            a.quantities[o.symbol := if left < c.tolerance then 0.0 else left],
            a.fills + [f])
  }

  function Sells(c: Config, prices: map<Symbol, real>, bar: nat, a: Account, orders: seq<Order>): Account {
    if orders == [] then a
    else SellOne(c, prices, bar, Sells(c, prices, bar, a, orders[..|orders| - 1]), orders[|orders| - 1])
  }

  function CostOf(c: Config, prices: map<Symbol, real>, o: Order): real {
    Times(Times(o.requested, ExecutionPrice(c, Lookup(prices, o.symbol), Buy)), 1.0 + c.feeRate)
  }

  function Required(c: Config, prices: map<Symbol, real>, orders: seq<Order>): real {
    if orders == [] then 0.0
    else Required(c, prices, orders[..|orders| - 1]) + CostOf(c, prices, orders[|orders| - 1])
  }

  function BuyOne(c: Config, prices: map<Symbol, real>, bar: nat, scale: real, a: Account, o: Order): Account {
    var quantity := Times(o.requested, scale);
    var f := FillOf(c, prices, bar, o, quantity);
    Account(a.cash - (Times(quantity, f.execution) + f.fee),
            a.quantities[o.symbol := Lookup(a.quantities, o.symbol) + quantity],
            a.fills + [f])
  }

  function Buys(c: Config, prices: map<Symbol, real>, bar: nat, scale: real, a: Account, orders: seq<Order>): Account {
    if orders == [] then a
    else BuyOne(c, prices, bar, scale, Buys(c, prices, bar, scale, a, orders[..|orders| - 1]), orders[|orders| - 1])
  }

  function ScaleFor(cash: real, required: real): real {
    if required > 0.0 then BuyScale(cash, required) else 1.0
  }

  /** `execute_orders`: sells, then every buy scaled by the same share. */
  function ExecuteOrders(c: Config, prices: map<Symbol, real>, bar: nat, a: Account, orders: seq<Order>): Result<Account, Error> {
    var sells, buys := OnSide(orders, Sell), OnSide(orders, Buy);
    var sold := Sells(c, prices, bar, a, sells);
    var bought := Buys(c, prices, bar, ScaleFor(sold.cash, Required(c, prices, buys)), sold, buys);
    if bought.cash < -0.00000001 then Err(NegativeCash)
    else Ok(bought.(cash := Max(0.0, bought.cash)))
  }

  // ---------------------------------------------------------------- the bar loop

  predicate LastOfWeek(m: Market, i: nat)
    requires |m.week| == |m.prices| && i < |m.prices|
  {
    i < |m.prices| - 1 && m.week[i] != m.week[i + 1]
  }

  predicate Due(c: Config, m: Market, last: Option<nat>, i: nat)
    requires |m.time| == |m.week| == |m.prices| && i < |m.prices|
  {
    && LastOfWeek(m, i)
    && (last.Some? && last.value < |m.time| ==> (m.time[i] - m.time[last.value]) / SECONDS_PER_DAY >= c.intervalDays)
  }

  function PositionRows(m: Market, s: Sim, i: nat, equity: real, n: nat): seq<PositionRow>
    requires i < |m.prices| && n <= |m.assets|
  {
    if n == 0 then []
    else
      var a := m.assets[n - 1];
      var quantity := Lookup(s.account.quantities, a);
      var value := Times(quantity, Lookup(m.prices[i], a));
      PositionRows(m, s, i, equity, n - 1)
      + [PositionRow(i, a, quantity, value, if equity > 0.0 then value / equity else 0.0)]
  }

  /** Mark the account to the bar's closes. */
  function Record(m: Market, s: Sim, i: nat): Sim
    requires i < |m.prices|
  {
    var equity := Equity(m, s.account, m.prices[i]);
    s.(equity := s.equity + [EquityRow(i, equity, s.account.cash)],
       positions := s.positions + PositionRows(m, s, i, equity, |m.assets|))
  }

  datatype Start = Start(weights: Option<map<Name, Num>>, signal: Option<int>)

  /** Queue the bar's orders, if it has a signal. */
  function QueueOrders(c: Config, m: Market, target: Option<Target>, start: Start, s: Sim, i: nat): Result<Sim, Error>
    requires MarketOk(m) && i < |m.prices|
  {
    if i == 0 && start.weights.Some? then
      var w :- ExtractWeights(c, m, start.weights);
      var submitted := if start.signal.Some? then start.signal.value else m.time[i];
      Ok(CreateOrders(c, m, w, i, submitted, s, |m.assets|))
    else if target.Some? && Due(c, m, s.last, i) then
      var w :- ExtractWeights(c, m, target.value(m, i));
      Ok(CreateOrders(c, m, w, i, m.time[i], s, |m.assets|).(last := Some(i)))
    else Ok(s)
  }

  /** One bar: fill what is pending, mark to market, queue the bar's orders. */
  function Bar(c: Config, m: Market, target: Option<Target>, start: Start, s: Sim, i: nat): Result<Sim, Error>
    requires MarketOk(m) && i < |m.prices|
  {
    var account :- ExecuteOrders(c, m.prices[i], i, s.account, s.pending);
    QueueOrders(c, m, target, start, Record(m, s.(account := account, pending := []), i), i)
  }

  function Opening(c: Config): Sim {
    Sim(Account(c.initialCash, map[], []), [], [], None, [], [])
  }

  /** `run`, through the first n bars. */
  function Run(c: Config, m: Market, target: Option<Target>, start: Start, n: nat): Result<Sim, Error>
    requires MarketOk(m) && n <= |m.prices|
  {
    if n == 0 then Ok(Opening(c))
    else
      var s :- Run(c, m, target, start, n - 1);
      Bar(c, m, target, start, s, n - 1)
  }

  function FullRun(c: Config, m: Market, target: Option<Target>, start: Start): Result<Sim, Error>
    requires MarketOk(m)
  {
    Run(c, m, target, start, |m.prices|)
  }
}
