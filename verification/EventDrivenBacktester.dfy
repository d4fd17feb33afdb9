/** The backtester as it runs: one pass over the bars, updating cash, quantities and the record lists in place. */
module EventDrivenBacktester {
  import opened Common
  import opened Numbers
  import opened Quantities
  import opened Backtest
  import opened BacktestSafety

  class Simulation {
    const c: Config
    const m: Market
    var cash: real
    var quantities: map<Symbol, real>
    var fills: seq<Fill>
    var pending: seq<Order>
    var orders: seq<Order>
    var last: Option<nat>
    var equity: seq<EquityRow>
    var positions: seq<PositionRow>
    var nextOrderId: nat

    function View(): Sim
      reads this
    {
      Sim(Account(cash, quantities, fills), pending, orders, last, equity, positions)
    }

    constructor (c: Config, m: Market)
      ensures this.c == c && this.m == m && View() == Opening(c) && nextOrderId == 1
    {
      this.c, this.m := c, m;
      cash, quantities, fills := c.initialCash, map[], [];
      pending, orders, last, equity, positions, nextOrderId := [], [], None, [], [], 1;
    }

    /** `create_orders`. */
    method CreateOrders(w: Weights, signal: int, bar: nat)
      requires bar < |m.prices| && PricesOk(m.assets, m.prices[bar]) && nextOrderId == |orders| + 1
      modifies this`pending, this`orders, this`nextOrderId
      ensures View() == Backtest.CreateOrders(c, m, w, bar, signal, old(View()), |m.assets|)
      ensures nextOrderId == |orders| + 1
    {
      var prices := m.prices[bar];
      var total := Equity(m, View().account, prices);
      pending := [];
      for i := 0 to |m.assets|
        invariant nextOrderId == |orders| + 1
        invariant View() == Backtest.CreateOrders(c, m, w, bar, signal, old(View()), i)
      {
        hide Delta, Equity;
        var a := m.assets[i];
        var weight := WeightOf(w, Asset(a));
        var delta := Delta(total, weight, prices[a], Lookup(quantities, a));
        if Abs(delta) > c.tolerance {
          var order := Order(nextOrderId, bar, signal, a, if delta > 0.0 then Buy else Sell, Abs(delta), weight);
          nextOrderId := nextOrderId + 1;
          orders := orders + [order];
          pending := pending + [order];
        }
      }
    }

    /** One sell of `execute_orders`. */
    method SellOrder(o: Order, prices: map<Symbol, real>, bar: nat)
      requires o.side.Sell?
      modifies this`cash, this`quantities, this`fills
      ensures View() == old(View()).(account := SellOne(c, prices, bar, old(View()).account, o))
    {
      hide Fee, ExecutionPrice;
      var held, market := Lookup(quantities, o.symbol), Lookup(prices, o.symbol);
      var quantity := Min(o.requested, held);
      var execution := ExecutionPrice(c, market, Sell);
      var fee := Fee(c, quantity, execution);
      cash := cash + (Times(quantity, execution) - fee);
      var left := held - quantity;
      if left < c.tolerance {
        left := 0.0;
      }
      quantities := quantities[o.symbol := left];
      fills := fills + [Fill(o, bar, quantity, market, execution, fee, Times(quantity, market - execution))];
    }

    /** One scaled buy. */
    method BuyOrder(o: Order, scale: real, prices: map<Symbol, real>, bar: nat)
      requires o.side.Buy?
      modifies this`cash, this`quantities, this`fills
      ensures View() == old(View()).(account := BuyOne(c, prices, bar, scale, old(View()).account, o))
    {
      hide Fee, ExecutionPrice;
      var market := Lookup(prices, o.symbol);
      var quantity := Times(o.requested, scale);
      var execution := ExecutionPrice(c, market, Buy);
      var fee := Fee(c, quantity, execution);
      cash := cash - (Times(quantity, execution) + fee);
      quantities := quantities[o.symbol := Lookup(quantities, o.symbol) + quantity];
      fills := fills + [Fill(o, bar, quantity, market, execution, fee, Times(quantity, execution - market))];
    }

    method FillSells(sells: seq<Order>, prices: map<Symbol, real>, bar: nat)
      requires forall i :: 0 <= i < |sells| ==> sells[i].side.Sell?
      modifies this`cash, this`quantities, this`fills
      ensures View() == old(View()).(account := Sells(c, prices, bar, old(View()).account, sells))
    {
      for i := 0 to |sells|
        invariant View() == old(View()).(account := Sells(c, prices, bar, old(View()).account, sells[..i]))
      {
        hide SellOne;
        assert sells[..i + 1][..i] == sells[..i];
        SellOrder(sells[i], prices, bar);
      }
      assert sells[..|sells|] == sells;
    }

    method RequiredCash(buys: seq<Order>, prices: map<Symbol, real>) returns (required: real)
      ensures required == Required(c, prices, buys)
    {
      required := 0.0;
      for i := 0 to |buys|
        invariant required == Required(c, prices, buys[..i])
      {
        assert buys[..i + 1][..i] == buys[..i];
        required := required + Times(Times(buys[i].requested, ExecutionPrice(c, Lookup(prices, buys[i].symbol), Buy)), 1.0 + c.feeRate);
      }
      assert buys[..|buys|] == buys;
    }

    method FillBuys(buys: seq<Order>, scale: real, prices: map<Symbol, real>, bar: nat)
      requires forall i :: 0 <= i < |buys| ==> buys[i].side.Buy?
      modifies this`cash, this`quantities, this`fills
      ensures View() == old(View()).(account := Buys(c, prices, bar, scale, old(View()).account, buys))
    {
      for i := 0 to |buys|
        invariant View() == old(View()).(account := Buys(c, prices, bar, scale, old(View()).account, buys[..i]))
      {
        hide BuyOne;
        assert buys[..i + 1][..i] == buys[..i];
        BuyOrder(buys[i], scale, prices, bar);
      }
      assert buys[..|buys|] == buys;
    }

    /** `execute_orders`: false when the negative-cash error would be raised. */
    method ExecuteOrders(bar: nat) returns (ok: bool)
      requires bar < |m.prices|
      modifies this`cash, this`quantities, this`fills
      ensures match Backtest.ExecuteOrders(c, m.prices[bar], bar, old(View()).account, pending)
              case Ok(a) => ok && View() == old(View()).(account := a)
              case Err(_) => !ok
    {
      hide OnSide, Sells, Buys, Required;
      var prices := m.prices[bar];
      var sells, buys := OnSide(pending, Sell), OnSide(pending, Buy);
      FillSells(sells, prices, bar);
      var required := RequiredCash(buys, prices);
      FillBuys(buys, if required > 0.0 then Min(1.0, cash / required) else 1.0, prices, bar);
      if cash < -0.00000001 {
        return false;
      }
      if cash < 0.0 {
        cash := 0.0;
      }
      ok := true;
    }

    /** Equity, cash and position rows of the bar. */
    method RecordBar(bar: nat)
      requires bar < |m.prices|
      modifies this`equity, this`positions
      ensures View() == Record(m, old(View()), bar)
    {
      var prices := m.prices[bar];
      var total := Equity(m, View().account, prices);
      equity := equity + [EquityRow(bar, total, cash)];
      ghost var marked := View();
      assert PositionRows(m, old(View()), bar, total, 0) == [];
      for i := 0 to |m.assets|
        invariant View() == marked.(positions := old(positions) + PositionRows(m, old(View()), bar, total, i))
      {
        hide Equity;
        var a := m.assets[i];
        var quantity := Lookup(quantities, a);
        var value := Times(quantity, Lookup(prices, a));
        positions := positions + [PositionRow(bar, a, quantity, value, if total > 0.0 then value / total else 0.0)];
      }
    }

    /** One bar of `run`. */
    method Step(target: Option<Target>, start: Start, bar: nat) returns (r: Result<(), Error>)
      requires MarketOk(m) && bar < |m.prices| && nextOrderId == |orders| + 1
      modifies this
      ensures match Bar(c, m, target, start, old(View()), bar)
              case Ok(s) => r == Ok(()) && View() == s && nextOrderId == |orders| + 1
              case Err(error) => r == Err(error)
    {
      hide Backtest.ExecuteOrders, Backtest.CreateOrders, ExtractWeights, Record, PricesOk;
      var executed := ExecuteOrders(bar);
      if !executed {
        NegativeCashOnly(c, m.prices[bar], bar, old(View()).account, old(pending));
        return Err(NegativeCash);
      }
      pending := [];
      ghost var filled := View();
      RecordBar(bar);
      RecordKeeps(m, filled, bar);
      if bar == 0 && start.weights.Some? {
        var w := ExtractWeights(c, m, start.weights);
        if w.Err? {
          return Err(w.error);
        }
        CreateOrders(w.value, if start.signal.Some? then start.signal.value else m.time[bar], bar);
      } else if target.Some? && Due(c, m, last, bar) {
        var w := ExtractWeights(c, m, target.value(m, bar));
        if w.Err? {
          return Err(w.error);
        }
        CreateOrders(w.value, m.time[bar], bar);
        last := Some(bar);
      }
      r := Ok(());
    }

    /** The loop of `run`. */
    method RunBars(target: Option<Target>, start: Start) returns (r: Result<Sim, Error>)
      requires MarketOk(m) && nextOrderId == |orders| + 1 && Run(c, m, target, start, 0) == Ok(View())
      modifies this
      ensures r == FullRun(c, m, target, start)
    {
      hide Run, Bar;
      for i := 0 to |m.prices|
        invariant nextOrderId == |orders| + 1
        invariant Run(c, m, target, start, i) == Ok(View())
      {
        RunNext(c, m, target, start, View(), i);
        var stepped := Step(target, start, i);
        if stepped.Err? {
          RunFails(c, m, target, start, i + 1, |m.prices|);
          return Err(stepped.error);
        }
      }
      r := Ok(View());
    }
  }

  lemma NegativeCashOnly(c: Config, prices: map<Symbol, real>, bar: nat, a: Account, orders: seq<Order>)
    ensures var r := Backtest.ExecuteOrders(c, prices, bar, a, orders); r.Err? ==> r.error == NegativeCash
  {
  }

  lemma RecordKeeps(m: Market, s: Sim, i: nat)
    requires i < |m.prices|
    ensures Record(m, s, i).last == s.last && Record(m, s, i).orders == s.orders && Record(m, s, i).pending == s.pending
  {
  }

  lemma RunNext(c: Config, m: Market, target: Option<Target>, start: Start, s: Sim, i: nat)
    requires MarketOk(m) && i < |m.prices| && Run(c, m, target, start, i) == Ok(s)
    ensures Run(c, m, target, start, i + 1) == Bar(c, m, target, start, s, i)
  {
    hide Bar, MarketOk;
  }

  lemma RunNone(c: Config, m: Market, target: Option<Target>, start: Start)
    requires MarketOk(m)
    ensures Run(c, m, target, start, 0) == Ok(Opening(c))
  {
  }

  /** `EventDrivenBacktester.run`: only bad weights can raise; otherwise the whole history is solvent and accounted for. */
  method RunBacktest(c: Config, m: Market, target: Option<Target>, start: Start) returns (r: Result<Sim, Error>)
    requires ConfigOk(c) && MarketOk(m)
    ensures r == FullRun(c, m, target, start)
    ensures if r.Ok? then SimOk(m, r.value, |m.prices|) else r.error.BadWeights?
  {
    hide Run, Bar, SimOk;
    RunSolvent(c, m, target, start, |m.prices|);
    RunNone(c, m, target, start);
    var simulation := new Simulation(c, m);
    r := simulation.RunBars(target, start);
  }

  lemma {:induction false} RunFails(c: Config, m: Market, target: Option<Target>, start: Start, i: nat, n: nat)
    requires MarketOk(m) && i <= n <= |m.prices| && Run(c, m, target, start, i).Err?
    ensures Run(c, m, target, start, n) == Run(c, m, target, start, i)
  {
    hide Bar;
    if i < n {
      RunFails(c, m, target, start, i, n - 1);
    }
  }
}
