/** Solvency, cost accounting, fill timing and absence of look-ahead of the backtester. */
module BacktestSafety {
  import opened Common
  import opened Numbers
  import opened Quantities
  import opened Backtest

  // ------------------------------------------------------------------ solvency

  predicate Priced(prices: map<Symbol, real>, s: Symbol) {
    s in prices && 0.0 < prices[s]
  }

  predicate NoShorts(a: Account) {
    forall s :: s in a.quantities ==> 0.0 <= a.quantities[s]
  }

  predicate OrderOk(prices: map<Symbol, real>, o: Order) {
    Priced(prices, o.symbol) && 0.0 <= o.requested
  }

  predicate OrdersOk(prices: map<Symbol, real>, orders: seq<Order>) {
    forall i :: 0 <= i < |orders| ==> OrderOk(prices, orders[i])
  }

  lemma PricePositive(c: Config, price: real, side: Side)
    requires ConfigOk(c) && 0.0 < price
    ensures 0.0 < ExecutionPrice(c, price, side)
    ensures side.Buy? ==> price <= ExecutionPrice(c, price, side)
    ensures side.Sell? ==> ExecutionPrice(c, price, side) <= price
  {
    TimesUnit(price, c.slippageRate);
    TimesNonneg(price, c.slippageRate);
    TimesNonneg(price, 1.0 - c.slippageRate);
  }

  /** Of a non-negative quantity the fee is the fee rate's share of the notional, and each cost is non-negative. */
  lemma FillCosts(c: Config, prices: map<Symbol, real>, bar: nat, o: Order, quantity: real)
    requires ConfigOk(c) && OrderOk(prices, o) && 0.0 <= quantity
    ensures var f := FillOf(c, prices, bar, o, quantity);
            && f.fee == Times(Times(quantity, f.execution), c.feeRate)
            && 0.0 <= f.fee <= Times(quantity, f.execution) && 0.0 <= f.slippage
            && f.slippage == (if o.side.Sell? then Times(quantity, f.market) - Times(quantity, f.execution)
                              else Times(quantity, f.execution) - Times(quantity, f.market))
  {
    var market := Lookup(prices, o.symbol);
    var execution := ExecutionPrice(c, market, o.side);
    PricePositive(c, market, o.side);
    var notional := Times(quantity, execution);
    TimesNonneg(quantity, execution);
    TimesNonneg(notional, c.feeRate);
    TimesMono(c.feeRate, 1.0, notional);
    assert Times(notional, 1.0) == notional;
    TimesNonneg(quantity, if o.side.Sell? then market - execution else execution - market);
    TimesSum(quantity, market, -execution);
    TimesSum(quantity, execution, -market);
    assert Times(quantity, -execution) == -Times(quantity, execution) && Times(quantity, -market) == -Times(quantity, market);
  }

  lemma SellOneSolvent(c: Config, prices: map<Symbol, real>, bar: nat, a: Account, o: Order)
    requires ConfigOk(c) && OrderOk(prices, o) && o.side.Sell? && NoShorts(a)
    ensures var b := SellOne(c, prices, bar, a, o); a.cash <= b.cash && NoShorts(b)
  {
    FillCosts(c, prices, bar, o, Min(o.requested, Lookup(a.quantities, o.symbol)));
  }

  lemma {:induction false} SellsSolvent(c: Config, prices: map<Symbol, real>, bar: nat, a: Account, orders: seq<Order>)
    requires ConfigOk(c) && OrdersOk(prices, orders) && NoShorts(a)
    requires forall i :: 0 <= i < |orders| ==> orders[i].side.Sell?
    ensures var b := Sells(c, prices, bar, a, orders); a.cash <= b.cash && NoShorts(b)
  {
    hide SellOne, NoShorts, OrderOk;
    if orders != [] {
      var n := |orders| - 1;
      SellsSolvent(c, prices, bar, a, orders[..n]);
      SellOneSolvent(c, prices, bar, Sells(c, prices, bar, a, orders[..n]), orders[n]);
    }
  }

  /** A scaled buy costs exactly its share of the unscaled cost. */
  lemma BuyOneCost(c: Config, prices: map<Symbol, real>, bar: nat, scale: real, a: Account, o: Order)
    requires ConfigOk(c) && OrderOk(prices, o) && o.side.Buy? && NoShorts(a) && 0.0 <= scale
    ensures var b := BuyOne(c, prices, bar, scale, a, o);
            b.cash == a.cash - Times(scale, CostOf(c, prices, o)) && NoShorts(b)
    ensures 0.0 <= CostOf(c, prices, o)
  {
    var quantity := Times(o.requested, scale);
    var execution := ExecutionPrice(c, Lookup(prices, o.symbol), Buy);
    TimesNonneg(o.requested, scale);
    FillCosts(c, prices, bar, o, quantity);
    PricePositive(c, Lookup(prices, o.symbol), Buy);
    var notional := Times(quantity, execution);
    var full := Times(o.requested, execution);
    TimesUnit(notional, c.feeRate);
    assert notional == Times(scale, full);
    assert Times(notional, 1.0 + c.feeRate) == Times(scale, Times(full, 1.0 + c.feeRate));
    TimesNonneg(o.requested, execution);
    TimesNonneg(full, 1.0 + c.feeRate);
  }

  lemma {:induction false} BuysCost(c: Config, prices: map<Symbol, real>, bar: nat, scale: real, a: Account,
                                    orders: seq<Order>)
    requires ConfigOk(c) && OrdersOk(prices, orders) && NoShorts(a) && 0.0 <= scale
    requires forall i :: 0 <= i < |orders| ==> orders[i].side.Buy?
    ensures var b := Buys(c, prices, bar, scale, a, orders);
            b.cash == a.cash - Times(scale, Required(c, prices, orders)) && NoShorts(b)
    ensures 0.0 <= Required(c, prices, orders)
  {
    hide BuyOne, NoShorts, OrderOk, CostOf, Times;
    if orders == [] {
      TimesZero(scale);
    } else {
      var n := |orders| - 1;
      BuysCost(c, prices, bar, scale, a, orders[..n]);
      BuyOneCost(c, prices, bar, scale, Buys(c, prices, bar, scale, a, orders[..n]), orders[n]);
      TimesSum(scale, Required(c, prices, orders[..n]), CostOf(c, prices, orders[n]));
    }
  }

  lemma TimesZero(a: real)
    ensures Times(a, 0.0) == 0.0
  {
  }

  /** Execution never raises, never clamps cash, and leaves no short and no negative cash. */
  lemma ExecuteSolvent(c: Config, prices: map<Symbol, real>, bar: nat, a: Account, orders: seq<Order>)
    requires ConfigOk(c) && OrdersOk(prices, orders) && NoShorts(a) && 0.0 <= a.cash
    ensures var sells, buys := OnSide(orders, Sell), OnSide(orders, Buy);
            var sold := Sells(c, prices, bar, a, sells);
            var scale := ScaleFor(sold.cash, Required(c, prices, buys));
            var bought := Buys(c, prices, bar, scale, sold, buys);
            && 0.0 <= scale && 0.0 <= bought.cash && NoShorts(bought) && NoShorts(sold)
            && ExecuteOrders(c, prices, bar, a, orders) == Ok(bought)
  {
    hide NoShorts, Sells, Buys, Required, OrderOk;
    var sells, buys := OnSide(orders, Sell), OnSide(orders, Buy);
    SellsSolvent(c, prices, bar, a, sells);
    var sold := Sells(c, prices, bar, a, sells);
    var required := Required(c, prices, buys);
    if required > 0.0 {
      ScaleFits(sold.cash, required);
    }
    var scale := ScaleFor(sold.cash, required);
    BuysCost(c, prices, bar, scale, sold, buys);
  }

  // --------------------------------------------------------- what is queued

  /** Bookkeeping of queued orders after n bars: ids count up, pending orders are the last ones, made on the last bar. */
  predicate Queued(m: Market, s: Sim, n: nat) {
    && |s.pending| <= |s.orders| && s.pending == s.orders[|s.orders| - |s.pending|..]
    && (forall i :: 0 <= i < |s.orders| ==> s.orders[i].id == i + 1 && s.orders[i].bar < n)
    && (forall i :: 0 <= i < |s.orders| ==> s.orders[i].symbol in m.assets && 0.0 <= s.orders[i].requested)
    && forall i :: 0 <= i < |s.pending| ==> s.pending[i].bar == n - 1
  }

  lemma CreateOneQueued(c: Config, m: Market, w: Weights, bar: nat, signal: int, equity: real, s: Sim, a: Symbol)
    requires bar < |m.prices| && PricesOk(m.assets, m.prices[bar]) && a in m.assets && Queued(m, s, bar + 1)
    requires ConfigOk(c)
    ensures var t := CreateOne(c, m, w, bar, signal, equity, s, a);
            && Queued(m, t, bar + 1) && t == s.(orders := t.orders, pending := t.pending)
            && |s.orders| <= |t.orders| && t.orders[..|s.orders|] == s.orders
            && |t.orders| - |t.pending| == |s.orders| - |s.pending|
  {
    hide Delta, WeightOf;
  }

  lemma {:induction false} CreateOrdersQueued(c: Config, m: Market, w: Weights, bar: nat, signal: int, s: Sim, n: nat)
    requires bar < |m.prices| && PricesOk(m.assets, m.prices[bar]) && n <= |m.assets| && ConfigOk(c)
    requires Queued(m, s, bar) && s.pending == []
    ensures var t := CreateOrders(c, m, w, bar, signal, s, n);
            && Queued(m, t, bar + 1) && t == s.(orders := t.orders, pending := t.pending)
            && |s.orders| <= |t.orders| && t.orders[..|s.orders|] == s.orders
            && |t.orders| - |t.pending| == |s.orders|
  {
    if n == 0 {
      assert s.orders[..|s.orders|] == s.orders;
    } else {
      CreateOrdersQueued(c, m, w, bar, signal, s, n - 1);
      hide CreateOne, Queued, Equity;
      var t := CreateOrders(c, m, w, bar, signal, s, n - 1);
      CreateOneQueued(c, m, w, bar, signal, Equity(m, t.account, m.prices[bar]), t, m.assets[n - 1]);
      var u := CreateOrders(c, m, w, bar, signal, s, n);
      assert u.orders[..|s.orders|] == u.orders[..|t.orders|][..|s.orders|];
    }
  }

  /** What the pending orders of an asset add to it, were they filled in full. */
  function Signed(orders: seq<Order>, a: Symbol): real {
    if orders == [] then 0.0
    else
      var o := orders[|orders| - 1];
      Signed(orders[..|orders| - 1], a) + (if o.symbol != a then 0.0 else if o.side.Buy? then o.requested else -o.requested)
  }

  function Desired(equity: real, weight: real, price: real): real
    requires price != 0.0
  {
    Times(equity, weight) / price
  }

  lemma CreateOneAims(c: Config, m: Market, w: Weights, bar: nat, signal: int, equity: real, s: Sim, a: Symbol)
    requires bar < |m.prices| && PricesOk(m.assets, m.prices[bar]) && a in m.assets
    ensures var t := CreateOne(c, m, w, bar, signal, equity, s, a);
            var gap := Desired(equity, WeightOf(w, Asset(a)), m.prices[bar][a]) - Lookup(s.account.quantities, a);
            && t.account == s.account
            && (forall k :: k != a ==> Signed(t.pending, k) == Signed(s.pending, k))
            && Signed(t.pending, a) - Signed(s.pending, a) == if Abs(gap) <= c.tolerance then 0.0 else gap
  {
    var t := CreateOne(c, m, w, bar, signal, equity, s, a);
    if t.pending != s.pending {
      assert t.pending[..|s.pending|] == s.pending;
    }
  }

  /** Filled in full at the signal's prices, the queued orders bring the asset to its weight of the equity, within the tolerance. */
  predicate Aimed(c: Config, m: Market, w: Weights, bar: nat, s: Sim, pending: seq<Order>, a: Symbol)
    requires bar < |m.prices| && PricesOk(m.assets, m.prices[bar]) && a in m.assets
  {
    var desired := Desired(Equity(m, s.account, m.prices[bar]), WeightOf(w, Asset(a)), m.prices[bar][a]);
    Abs(Lookup(s.account.quantities, a) + Signed(pending, a) - desired) <= c.tolerance
  }

  lemma CreateOneReaches(c: Config, m: Market, w: Weights, bar: nat, signal: int, s: Sim, t: Sim, a: Symbol)
    requires ConfigOk(c) && bar < |m.prices| && PricesOk(m.assets, m.prices[bar]) && a in m.assets
    requires t.account == s.account && Signed(t.pending, a) == 0.0
    ensures var u := CreateOne(c, m, w, bar, signal, Equity(m, s.account, m.prices[bar]), t, a);
            && u.account == s.account && Aimed(c, m, w, bar, s, u.pending, a)
            && forall k :: k != a ==> Signed(u.pending, k) == Signed(t.pending, k)
  {
    hide CreateOne, Equity, Signed, Desired, PricesOk;
    CreateOneAims(c, m, w, bar, signal, Equity(m, s.account, m.prices[bar]), t, a);
  }

  lemma SameAim(c: Config, m: Market, w: Weights, bar: nat, s: Sim, p: seq<Order>, q: seq<Order>, a: Symbol)
    requires bar < |m.prices| && PricesOk(m.assets, m.prices[bar]) && a in m.assets
    requires Aimed(c, m, w, bar, s, p, a) && Signed(q, a) == Signed(p, a)
    ensures Aimed(c, m, w, bar, s, q, a)
  {
  }

  /** The queued orders aim at the target weights, for every asset. */
  lemma {:induction false} OrdersReachTargets(c: Config, m: Market, w: Weights, bar: nat, signal: int, s: Sim, n: nat)
    requires ConfigOk(c) && bar < |m.prices| && PricesOk(m.assets, m.prices[bar]) && Distinct(m.assets)
    requires n <= |m.assets|
    ensures var t := CreateOrders(c, m, w, bar, signal, s, n);
            && t.account == s.account
            && (forall i :: 0 <= i < n ==> Aimed(c, m, w, bar, s, t.pending, m.assets[i]))
            && forall a :: a !in m.assets[..n] ==> Signed(t.pending, a) == 0.0
  {
    hide CreateOne, Equity, Signed, Desired, PricesOk, ConfigOk, Aimed;
    if n == 0 {
      NothingSigned();
    } else {
      OrdersReachTargets(c, m, w, bar, signal, s, n - 1);
      var a := m.assets[n - 1];
      assert m.assets[..n] == m.assets[..n - 1] + [a];
      assert a !in m.assets[..n - 1];
      var t, u := CreateOrders(c, m, w, bar, signal, s, n - 1), CreateOrders(c, m, w, bar, signal, s, n);
      CreateOneReaches(c, m, w, bar, signal, s, t, a);
      forall i | 0 <= i < n - 1
        ensures Aimed(c, m, w, bar, s, u.pending, m.assets[i])
      {
        assert m.assets[i] != a;
        SameAim(c, m, w, bar, s, t.pending, u.pending, m.assets[i]);
      }
    }
  }

  lemma NothingSigned()
    ensures forall a :: Signed([], a) == 0.0
  {
  }

  // -------------------------------------------------------------------- timing

  function FilledOrders(fills: seq<Fill>): seq<Order> {
    seq(|fills|, i requires 0 <= i < |fills| => fills[i].order)
  }

  /** What one execution appends: one fill per order, on this bar. */
  ghost predicate Appends(before: seq<Fill>, after: seq<Fill>, orders: seq<Order>, bar: nat) {
    && |after| == |before| + |orders| && after[..|before|] == before
    && (forall i :: |before| <= i < |after| ==> after[i].bar == bar)
    && FilledOrders(after[|before|..]) == orders
  }

  lemma AppendOne(before: seq<Fill>, after: seq<Fill>, orders: seq<Order>, bar: nat, f: Fill)
    requires Appends(before, after, orders, bar) && f.bar == bar
    ensures Appends(before, after + [f], orders + [f.order], bar)
  {
    assert (after + [f])[|before|..] == after[|before|..] + [f];
    assert FilledOrders(after[|before|..] + [f]) == FilledOrders(after[|before|..]) + [f.order];
    assert (after + [f])[..|before|] == after[..|before|];
  }

  lemma {:induction false} SellsAppend(c: Config, prices: map<Symbol, real>, bar: nat, a: Account, orders: seq<Order>)
    ensures Appends(a.fills, Sells(c, prices, bar, a, orders).fills, orders, bar)
  {
    if orders == [] {
      assert FilledOrders(a.fills[|a.fills|..]) == [];
    } else {
      var n := |orders| - 1;
      SellsAppend(c, prices, bar, a, orders[..n]);
      var b := Sells(c, prices, bar, a, orders[..n]);
      var quantity := Min(orders[n].requested, Lookup(b.quantities, orders[n].symbol));
      AppendOne(a.fills, b.fills, orders[..n], bar, FillOf(c, prices, bar, orders[n], quantity));
      assert orders == orders[..n] + [orders[n]];
    }
  }

  lemma {:induction false} BuysAppend(c: Config, prices: map<Symbol, real>, bar: nat, scale: real, a: Account,
                                      orders: seq<Order>)
    ensures Appends(a.fills, Buys(c, prices, bar, scale, a, orders).fills, orders, bar)
  {
    if orders == [] {
      assert FilledOrders(a.fills[|a.fills|..]) == [];
    } else {
      var n := |orders| - 1;
      BuysAppend(c, prices, bar, scale, a, orders[..n]);
      var b := Buys(c, prices, bar, scale, a, orders[..n]);
      AppendOne(a.fills, b.fills, orders[..n], bar, FillOf(c, prices, bar, orders[n], Times(orders[n].requested, scale)));
      assert orders == orders[..n] + [orders[n]];
    }
  }

  lemma {:induction false} SidesPartition(orders: seq<Order>)
    ensures multiset(OnSide(orders, Sell)) + multiset(OnSide(orders, Buy)) == multiset(orders)
  {
    if orders != [] {
      var rest, o := orders[..|orders| - 1], orders[|orders| - 1];
      SidesPartition(rest);
      assert orders == rest + [o];
      if o.side.Sell? {
        assert OnSide(orders, Sell) == OnSide(rest, Sell) + [o] && OnSide(orders, Buy) == OnSide(rest, Buy);
      } else {
        assert OnSide(orders, Buy) == OnSide(rest, Buy) + [o] && OnSide(orders, Sell) == OnSide(rest, Sell);
      }
    }
  }

  /** Each pending order is filled exactly once, on this bar. */
  lemma ExecuteFillsEach(c: Config, prices: map<Symbol, real>, bar: nat, a: Account, orders: seq<Order>)
    requires ConfigOk(c) && OrdersOk(prices, orders) && NoShorts(a) && 0.0 <= a.cash
    ensures var r := ExecuteOrders(c, prices, bar, a, orders);
            r.Ok? && FillsEach(a.fills, r.value.fills, orders, bar)
  {
    hide Sells, Buys, Required, OrderOk, NoShorts, OnSide, FilledOrders;
    ExecuteSolvent(c, prices, bar, a, orders);
    var sells, buys := OnSide(orders, Sell), OnSide(orders, Buy);
    var sold := Sells(c, prices, bar, a, sells);
    var scale := ScaleFor(sold.cash, Required(c, prices, buys));
    SellsAppend(c, prices, bar, a, sells);
    BuysAppend(c, prices, bar, scale, sold, buys);
    SidesPartition(orders);
    AppendsTwice(a.fills, sold.fills, Buys(c, prices, bar, scale, sold, buys).fills, sells, buys, bar);
    Sizes(sells, buys, orders);
  }

  ghost predicate FillsEach(before: seq<Fill>, after: seq<Fill>, orders: seq<Order>, bar: nat) {
    && |after| == |before| + |orders| && after[..|before|] == before
    && (forall i :: |before| <= i < |after| ==> after[i].bar == bar && after[i].order in orders)
    && multiset(FilledOrders(after)) == multiset(FilledOrders(before)) + multiset(orders)
  }

  lemma Sizes(a: seq<Order>, b: seq<Order>, c: seq<Order>)
    requires multiset(a) + multiset(b) == multiset(c)
    ensures |a| + |b| == |c|
  {
    assert |multiset(a) + multiset(b)| == |a| + |b|;
  }

  lemma AppendsTwice(x: seq<Fill>, y: seq<Fill>, z: seq<Fill>, a: seq<Order>, b: seq<Order>, bar: nat)
    requires Appends(x, y, a, bar) && Appends(y, z, b, bar)
    ensures |z| == |x| + |a| + |b| && z[..|x|] == x
    ensures forall i :: |x| <= i < |z| ==> z[i].bar == bar && (z[i].order in a || z[i].order in b)
    ensures multiset(FilledOrders(z)) == multiset(FilledOrders(x)) + (multiset(a) + multiset(b))
  {
    assert z[..|x|] == z[..|y|][..|x|];
    forall i | |x| <= i < |z|
      ensures z[i].bar == bar && (z[i].order in a || z[i].order in b)
    {
      if i < |y| {
        assert z[i] == z[..|y|][i] == y[i];
        assert FilledOrders(y[|x|..])[i - |x|] == y[i].order;
      } else {
        assert FilledOrders(z[|y|..])[i - |y|] == z[i].order;
      }
    }
    assert FilledOrders(z) == FilledOrders(x) + (a + b) by {
      assert z == x + y[|x|..] + z[|y|..];
      assert FilledOrders(z) == FilledOrders(x) + FilledOrders(y[|x|..]) + FilledOrders(z[|y|..]);
    }
  }

  // ------------------------------------------------------------ the bar loop

  /** What holds after n bars. */
  ghost predicate SimOk(m: Market, s: Sim, n: nat) {
    && 0.0 <= s.account.cash && NoShorts(s.account) && Queued(m, s, n)
    && multiset(FilledOrders(s.account.fills)) == multiset(s.orders[..|s.orders| - |s.pending|])
    && (forall i :: 0 <= i < |s.account.fills| ==> s.account.fills[i].bar == s.account.fills[i].order.bar + 1)
    && (n >= |m.prices| > 1 ==> s.pending == [])
    && |s.equity| == n && forall i :: 0 <= i < n ==> s.equity[i].bar == i && 0.0 <= s.equity[i].cash
  }

  /** After a bar's fills, before its decision. */
  ghost predicate Filled(m: Market, s: Sim, t: Sim, i: nat) {
    && 0.0 <= t.account.cash && NoShorts(t.account)
    && t.orders == s.orders && t.pending == [] && t.last == s.last
    && FillsEach(s.account.fills, t.account.fills, s.pending, i)
    && |t.equity| == |s.equity| + 1 && t.equity[..|s.equity|] == s.equity
    && t.equity[|s.equity|].bar == i && t.equity[|s.equity|].cash == t.account.cash
    && |s.positions| <= |t.positions| && t.positions[..|s.positions|] == s.positions
  }

  lemma PendingOk(m: Market, s: Sim, i: nat)
    requires MarketOk(m) && Queued(m, s, i) && i < |m.prices|
    ensures OrdersOk(m.prices[i], s.pending)
  {
    forall k | 0 <= k < |s.pending|
      ensures OrderOk(m.prices[i], s.pending[k])
    {
      assert s.pending[k] == s.orders[|s.orders| - |s.pending| + k];
    }
  }

  /** The fills of bar i, marked: the state `QueueOrders` sees. */
  function Marked(c: Config, m: Market, s: Sim, i: nat): Result<Sim, Error>
    requires MarketOk(m) && i < |m.prices|
  {
    var account :- ExecuteOrders(c, m.prices[i], i, s.account, s.pending);
    Ok(Record(m, s.(account := account, pending := []), i))
  }

  lemma MarkedFilled(c: Config, m: Market, s: Sim, i: nat)
    requires ConfigOk(c) && MarketOk(m) && i < |m.prices| && SimOk(m, s, i)
    ensures Marked(c, m, s, i).Ok? && Filled(m, s, Marked(c, m, s, i).value, i)
  {
    PendingOk(m, s, i);
    hide Queued, OrdersOk, MarketOk, PositionRows, Equity, NoShorts, Sells, Buys, Required, FillsEach;
    ExecuteSolvent(c, m.prices[i], i, s.account, s.pending);
    ExecuteFillsEach(c, m.prices[i], i, s.account, s.pending);
  }

  lemma FilledQueued(m: Market, s: Sim, t: Sim, i: nat)
    requires SimOk(m, s, i) && Filled(m, s, t, i)
    ensures Queued(m, t, i)
    ensures multiset(FilledOrders(t.account.fills)) == multiset(t.orders)
    ensures forall k :: 0 <= k < |t.account.fills| ==> t.account.fills[k].bar == t.account.fills[k].order.bar + 1
  {
    hide NoShorts, FilledOrders;
    assert s.orders == s.orders[..|s.orders| - |s.pending|] + s.pending;
    forall k | 0 <= k < |t.account.fills|
      ensures t.account.fills[k].bar == t.account.fills[k].order.bar + 1
    {
      if k < |s.account.fills| {
        assert t.account.fills[k] == t.account.fills[..|s.account.fills|][k];
      }
    }
  }

  /** What a bar's decision adds: orders of this bar, all of them pending. */
  ghost predicate Decided(m: Market, t: Sim, u: Sim, i: nat) {
    && Queued(m, u, i + 1) && u == t.(orders := u.orders, pending := u.pending, last := u.last)
    && |t.orders| <= |u.orders| && u.orders[..|t.orders|] == t.orders && |u.orders| - |u.pending| == |t.orders|
    && (i + 1 >= |m.prices| > 1 ==> u.pending == [])
  }

  lemma MarketPrices(m: Market, i: nat)
    requires MarketOk(m) && i < |m.prices|
    ensures PricesOk(m.assets, m.prices[i]) && |m.time| == |m.week| == |m.prices|
  {
  }

  lemma QueuedLater(m: Market, t: Sim, i: nat)
    requires Queued(m, t, i) && t.pending == []
    ensures Queued(m, t, i + 1)
  {
  }

  lemma QueueDecides(c: Config, m: Market, target: Option<Target>, start: Start, t: Sim, i: nat)
    requires ConfigOk(c) && MarketOk(m) && i < |m.prices| && Queued(m, t, i) && t.pending == []
    requires QueueOrders(c, m, target, start, t, i).Ok?
    ensures Decided(m, t, QueueOrders(c, m, target, start, t, i).value, i)
  {
    hide ExtractWeights, CreateOrders, MarketOk, PricesOk, ConfigOk, Queued;
    MarketPrices(m, i);
    QueuedLater(m, t, i);
    assert t.orders[..|t.orders|] == t.orders;
    if i == 0 && start.weights.Some? {
      var w := ExtractWeights(c, m, start.weights).value;
      CreateOrdersQueued(c, m, w, i, if start.signal.Some? then start.signal.value else m.time[i], t, |m.assets|);
    } else if target.Some? && Due(c, m, t.last, i) {
      var w := ExtractWeights(c, m, target.value(m, i)).value;
      CreateOrdersQueued(c, m, w, i, m.time[i], t, |m.assets|);
      QueuedSame(m, CreateOrders(c, m, w, i, m.time[i], t, |m.assets|), QueueOrders(c, m, target, start, t, i).value, i + 1);
    }
  }

  lemma QueuedSame(m: Market, s: Sim, t: Sim, n: nat)
    requires Queued(m, s, n) && t.orders == s.orders && t.pending == s.pending
    ensures Queued(m, t, n)
  {
  }

  lemma SimOkAfter(m: Market, s: Sim, t: Sim, u: Sim, i: nat)
    requires SimOk(m, s, i) && Filled(m, s, t, i) && Decided(m, t, u, i)
    ensures SimOk(m, u, i + 1)
  {
    FilledQueued(m, s, t, i);
    hide NoShorts, FilledOrders, FillsEach, Queued;
    assert u.equity == t.equity;
    forall k | 0 <= k <= i
      ensures t.equity[k].bar == k && 0.0 <= t.equity[k].cash
    {
      assert k < i ==> t.equity[..i][k] == t.equity[k];
    }
  }

  /** Every bar of an accepted run keeps the account solvent and fills the previous bar's orders. */
  lemma BarOk(c: Config, m: Market, target: Option<Target>, start: Start, s: Sim, i: nat)
    requires ConfigOk(c) && MarketOk(m) && i < |m.prices| && SimOk(m, s, i)
    ensures var r := Bar(c, m, target, start, s, i);
            && (r.Ok? ==> SimOk(m, r.value, i + 1))
            && (r.Err? ==> r.error.BadWeights?)
            && Marked(c, m, s, i).Ok? && r == QueueOrders(c, m, target, start, Marked(c, m, s, i).value, i)
  {
    hide SimOk, Filled, Decided, Record, CreateOrders, ExecuteOrders;
    MarkedFilled(c, m, s, i);
    var t := Marked(c, m, s, i).value;
    FilledQueued(m, s, t, i);
    PendingEmpty(m, s, t, i);
    if QueueOrders(c, m, target, start, t, i).Ok? {
      QueueDecides(c, m, target, start, t, i);
      SimOkAfter(m, s, t, QueueOrders(c, m, target, start, t, i).value, i);
    }
  }

  lemma PendingEmpty(m: Market, s: Sim, t: Sim, i: nat)
    requires Filled(m, s, t, i)
    ensures t.pending == []
  {
  }

  lemma OpeningOk(c: Config, m: Market)
    requires ConfigOk(c)
    ensures MarketOk(m) ==> SimOk(m, Opening(c), 0)
  {
    assert FilledOrders([]) == [];
  }

  /**
   Every run, over every price table, target function and initial allocation:
   the negative-cash error is unreachable, the only exception is for weights, and
   after each bar cash and quantities are non-negative.
   */
  lemma {:induction false} RunSolvent(c: Config, m: Market, target: Option<Target>, start: Start, n: nat)
    requires ConfigOk(c) && MarketOk(m) && n <= |m.prices|
    ensures var r := Run(c, m, target, start, n);
            if r.Ok? then SimOk(m, r.value, n) else r.error.BadWeights?
  {
    hide SimOk, Bar, MarketOk;
    if n == 0 {
      OpeningOk(c, m);
    } else {
      RunSolvent(c, m, target, start, n - 1);
      var r := Run(c, m, target, start, n - 1);
      if r.Ok? {
        BarOk(c, m, target, start, r.value, n - 1);
      }
    }
  }

  /**
   Timing: in a finished run of more than one bar each order is filled exactly
   once, on the bar after its signal bar; order ids are all different.
   */
  lemma EachOrderFilledOnce(c: Config, m: Market, target: Option<Target>, start: Start)
    requires ConfigOk(c) && MarketOk(m) && FullRun(c, m, target, start).Ok? && 1 < |m.prices|
    ensures var s := FullRun(c, m, target, start).value;
            && multiset(FilledOrders(s.account.fills)) == multiset(s.orders)
            && (forall i, j :: 0 <= i < j < |s.orders| ==> s.orders[i].id < s.orders[j].id)
            && forall i :: 0 <= i < |s.account.fills| ==> s.account.fills[i].bar == s.account.fills[i].order.bar + 1
  {
    hide FilledOrders, NoShorts, Run;
    RunSolvent(c, m, target, start, |m.prices|);
    var s := FullRun(c, m, target, start).value;
    assert s.orders[..|s.orders|] == s.orders;
  }

  /** With a single bar there is no next bar, and nothing is ever filled. */
  lemma SingleBarNeverFills(c: Config, m: Market, target: Option<Target>, start: Start)
    requires ConfigOk(c) && MarketOk(m) && FullRun(c, m, target, start).Ok? && |m.prices| == 1
    ensures FullRun(c, m, target, start).value.account.fills == []
  {
    hide CreateOrders, Record;
    OpeningOk(c, m);
    BarOk(c, m, target, start, Opening(c), 0);
    assert Run(c, m, target, start, 1) == Bar(c, m, target, start, Opening(c), 0);
    var t := Marked(c, m, Opening(c), 0).value;
    MarkedFilled(c, m, Opening(c), 0);
    FilledQueued(m, Opening(c), t, 0);
    assert Run(c, m, target, start, 0) == Ok(Opening(c));
    QueueDecides(c, m, target, start, t, 0);
  }

  // -------------------------------------------------------------------- equity

  /** Changing one asset's quantity moves the marked value by that change alone. */
  lemma {:induction false} ValueMoves(assets: seq<Symbol>, q: map<Symbol, real>, prices: map<Symbol, real>,
                                      a: Symbol, x: real)
    requires Distinct(assets)
    ensures Value(assets, q[a := x], prices)
         == Value(assets, q, prices) + (if a in assets then Times(x - Lookup(q, a), Lookup(prices, a)) else 0.0)
  {
    hide Times;
    if assets != [] {
      var n := |assets| - 1;
      ValueMoves(assets[..n], q, prices, a, x);
      assert assets == assets[..n] + [assets[n]];
      if assets[n] == a {
        assert a !in assets[..n];
        TimesLess(x, Lookup(q, a), Lookup(prices, a));
      }
    }
  }

  lemma TimesLess(a: real, b: real, c: real)
    ensures Times(a - b, c) == Times(a, c) - Times(b, c)
  {
  }

  function Costs(fills: seq<Fill>): real {
    if fills == [] then 0.0
    else Costs(fills[..|fills| - 1]) + (fills[|fills| - 1].fee + fills[|fills| - 1].slippage)
  }

  /** `after` extends the fills of `before` and its equity is lower by exactly their costs and the value of the dust dropped. */
  ghost predicate CostOnly(m: Market, prices: map<Symbol, real>, dust: real, before: Account, after: Account) {
    && |before.fills| <= |after.fills| && after.fills[..|before.fills|] == before.fills
    && (forall i :: |before.fills| <= i < |after.fills| ==> 0.0 <= after.fills[i].fee && 0.0 <= after.fills[i].slippage)
    && Equity(m, after, prices) + Costs(after.fills[|before.fills|..]) + dust == Equity(m, before, prices)
  }

  /** The value, at the bar's close, of what a sell leaves below the tolerance. */
  function DustOf(c: Config, prices: map<Symbol, real>, a: Account, o: Order): real {
    var left := Lookup(a.quantities, o.symbol) - Min(o.requested, Lookup(a.quantities, o.symbol));
    if left < c.tolerance then Times(left, Lookup(prices, o.symbol)) else 0.0
  }

  function Dust(c: Config, prices: map<Symbol, real>, bar: nat, a: Account, sells: seq<Order>): real {
    if sells == [] then 0.0
    else
      var rest, o := sells[..|sells| - 1], sells[|sells| - 1];
      Dust(c, prices, bar, a, rest) + DustOf(c, prices, Sells(c, prices, bar, a, rest), o)
  }

  /** The closes of the assets sold, one per order. */
  function PriceTotal(prices: map<Symbol, real>, orders: seq<Order>): real {
    if orders == [] then 0.0
    else PriceTotal(prices, orders[..|orders| - 1]) + Lookup(prices, orders[|orders| - 1].symbol)
  }

  lemma DustOfBounds(c: Config, prices: map<Symbol, real>, a: Account, o: Order)
    requires ConfigOk(c) && OrderOk(prices, o)
    ensures 0.0 <= DustOf(c, prices, a, o) <= Times(c.tolerance, Lookup(prices, o.symbol))
  {
    var price := Lookup(prices, o.symbol);
    var left := Lookup(a.quantities, o.symbol) - Min(o.requested, Lookup(a.quantities, o.symbol));
    TimesNonneg(left, price);
    TimesNonneg(c.tolerance, price);
    if left < c.tolerance {
      TimesMono(left, c.tolerance, price);
    }
  }

  /** Dust is never negative and worth at most one tolerance of each asset sold. */
  lemma {:induction false} DustBounds(c: Config, prices: map<Symbol, real>, bar: nat, a: Account, sells: seq<Order>)
    requires ConfigOk(c) && OrdersOk(prices, sells)
    ensures 0.0 <= Dust(c, prices, bar, a, sells) <= Times(c.tolerance, PriceTotal(prices, sells))
  {
    hide Sells, OrderOk, DustOf, Times;
    if sells == [] {
      TimesNonneg(c.tolerance, 0.0);
    } else {
      var rest, o := sells[..|sells| - 1], sells[|sells| - 1];
      DustBounds(c, prices, bar, a, rest);
      DustOfBounds(c, prices, Sells(c, prices, bar, a, rest), o);
      TimesSum(c.tolerance, PriceTotal(prices, rest), Lookup(prices, o.symbol));
    }
  }

  lemma CostOnlyStep(m: Market, prices: map<Symbol, real>, d: real, dust: real, x: Account, y: Account, z: Account)
    requires CostOnly(m, prices, d, x, y) && |z.fills| == |y.fills| + 1 && CostOnly(m, prices, dust, y, z)
    ensures CostOnly(m, prices, d + dust, x, z)
  {
    hide Equity;
    var added := y.fills[|x.fills|..];
    var f := z.fills[|y.fills|];
    assert z.fills == z.fills[..|y.fills|] + [f];
    assert z.fills[|x.fills|..] == added + [f];
    assert (added + [f])[..|added|] == added;
    assert z.fills[|y.fills|..] == [f] && [f][..0] == [];
    assert Costs(z.fills[|y.fills|..]) == f.fee + f.slippage;
    assert z.fills[..|x.fills|] == z.fills[..|y.fills|][..|x.fills|];
  }

  lemma KeptOrDropped(left: real, quantity: real, kept: real, price: real)
    requires kept == left || kept == 0.0
    ensures Times(kept - (left + quantity), price) == -Times(quantity, price) - (if kept == left then 0.0 else Times(left, price))
    ensures left == 0.0 ==> Times(left, price) == 0.0
  {
  }

  lemma SellOneCosts(c: Config, m: Market, prices: map<Symbol, real>, bar: nat, a: Account, o: Order)
    requires ConfigOk(c) && Distinct(m.assets) && OrderOk(prices, o) && o.symbol in m.assets && o.side.Sell?
    requires NoShorts(a)
    ensures CostOnly(m, prices, DustOf(c, prices, a, o), a, SellOne(c, prices, bar, a, o))
  {
    var b := SellOne(c, prices, bar, a, o);
    var held := Lookup(a.quantities, o.symbol);
    var quantity := Min(o.requested, held);
    var price := Lookup(prices, o.symbol);
    var left := held - quantity;
    var kept := if left < c.tolerance then 0.0 else left;
    FillCosts(c, prices, bar, o, quantity);
    ValueMoves(m.assets, a.quantities, prices, o.symbol, kept);
    KeptOrDropped(left, quantity, kept, price);
    hide FillOf, Value, OrderOk, Times;
    var f := b.fills[|a.fills|];
    assert b.fills[|a.fills|..] == [f] && [f][..0] == [];
    assert Costs([f]) == f.fee + f.slippage;
  }

  lemma BuyOneCosts(c: Config, m: Market, prices: map<Symbol, real>, bar: nat, scale: real, a: Account, o: Order)
    requires ConfigOk(c) && Distinct(m.assets) && OrderOk(prices, o) && o.symbol in m.assets && o.side.Buy?
    requires 0.0 <= scale
    ensures CostOnly(m, prices, 0.0, a, BuyOne(c, prices, bar, scale, a, o))
  {
    var b := BuyOne(c, prices, bar, scale, a, o);
    var quantity := Times(o.requested, scale);
    TimesNonneg(o.requested, scale);
    FillCosts(c, prices, bar, o, quantity);
    ValueMoves(m.assets, a.quantities, prices, o.symbol, Lookup(a.quantities, o.symbol) + quantity);
    var f := b.fills[|a.fills|];
    assert b.fills[|a.fills|..] == [f] && [f][..0] == [];
    assert Costs([f]) == f.fee + f.slippage;
  }

  predicate Traded(m: Market, prices: map<Symbol, real>, orders: seq<Order>) {
    forall i :: 0 <= i < |orders| ==> OrderOk(prices, orders[i]) && orders[i].symbol in m.assets
  }

  lemma CostOnlySelf(m: Market, prices: map<Symbol, real>, a: Account)
    ensures CostOnly(m, prices, 0.0, a, a)
  {
    assert a.fills[|a.fills|..] == [];
  }

  lemma {:induction false} SellsCosts(c: Config, m: Market, prices: map<Symbol, real>, bar: nat, a: Account,
                                      orders: seq<Order>)
    requires ConfigOk(c) && Distinct(m.assets) && Traded(m, prices, orders) && NoShorts(a)
    requires forall i :: 0 <= i < |orders| ==> orders[i].side.Sell?
    ensures CostOnly(m, prices, Dust(c, prices, bar, a, orders), a, Sells(c, prices, bar, a, orders))
    ensures NoShorts(Sells(c, prices, bar, a, orders))
  {
    hide CostOnly, NoShorts, OrderOk, DustOf;
    if orders == [] {
      CostOnlySelf(m, prices, a);
    } else {
      var n := |orders| - 1;
      SellsCosts(c, m, prices, bar, a, orders[..n]);
      var b := Sells(c, prices, bar, a, orders[..n]);
      SellOneCosts(c, m, prices, bar, b, orders[n]);
      SellOneSolvent(c, prices, bar, b, orders[n]);
      CostOnlyStep(m, prices, Dust(c, prices, bar, a, orders[..n]), DustOf(c, prices, b, orders[n]), a, b,
                   SellOne(c, prices, bar, b, orders[n]));
    }
  }

  lemma {:induction false} BuysCosts(c: Config, m: Market, prices: map<Symbol, real>, bar: nat, scale: real,
                                     dust: real, x: Account, a: Account, orders: seq<Order>)
    requires ConfigOk(c) && Distinct(m.assets) && Traded(m, prices, orders) && 0.0 <= scale
    requires CostOnly(m, prices, dust, x, a)
    requires forall i :: 0 <= i < |orders| ==> orders[i].side.Buy?
    ensures CostOnly(m, prices, dust, x, Buys(c, prices, bar, scale, a, orders))
  {
    hide CostOnly, OrderOk;
    if orders != [] {
      var n := |orders| - 1;
      BuysCosts(c, m, prices, bar, scale, dust, x, a, orders[..n]);
      var b := Buys(c, prices, bar, scale, a, orders[..n]);
      BuyOneCosts(c, m, prices, bar, scale, b, orders[n]);
      CostOnlyStep(m, prices, dust, 0.0, x, b, BuyOne(c, prices, bar, scale, b, orders[n]));
    }
  }

  /** What a bar's sells drop, at its closes. */
  function BarDust(c: Config, prices: map<Symbol, real>, bar: nat, a: Account, orders: seq<Order>): real {
    Dust(c, prices, bar, a, OnSide(orders, Sell))
  }

  /**
   A bar's fills lower the equity, at that bar's closes, by exactly their fees and
   slippage and the dust dropped, which is worth at most one tolerance of each
   asset sold: nothing at zero tolerance.
   */
  lemma ExecuteCosts(c: Config, m: Market, i: nat, a: Account, orders: seq<Order>)
    requires ConfigOk(c) && MarketOk(m) && i < |m.prices| && NoShorts(a) && 0.0 <= a.cash
    requires Traded(m, m.prices[i], orders)
    ensures var r := ExecuteOrders(c, m.prices[i], i, a, orders);
            var dust := BarDust(c, m.prices[i], i, a, orders);
            && r.Ok? && CostOnly(m, m.prices[i], dust, a, r.value)
            && 0.0 <= dust <= Times(c.tolerance, PriceTotal(m.prices[i], OnSide(orders, Sell)))
            && (c.tolerance == 0.0 ==> dust == 0.0)
  {
    var prices := m.prices[i];
    hide CostOnly, NoShorts, OrderOk, Sells, Buys, Required, Dust, PriceTotal, PricesOk;
    assert OrdersOk(prices, orders);
    ExecuteSolvent(c, prices, i, a, orders);
    var sells, buys := OnSide(orders, Sell), OnSide(orders, Buy);
    SidesTraded(m, prices, orders);
    hide OnSide;
    DustBounds(c, prices, i, a, sells);
    SellsCosts(c, m, prices, i, a, sells);
    var sold := Sells(c, prices, i, a, sells);
    BuysCosts(c, m, prices, i, ScaleFor(sold.cash, Required(c, prices, buys)), Dust(c, prices, i, a, sells), a, sold, buys);
  }

  lemma SidesTraded(m: Market, prices: map<Symbol, real>, orders: seq<Order>)
    requires Traded(m, prices, orders)
    ensures Traded(m, prices, OnSide(orders, Sell)) && OrdersOk(prices, OnSide(orders, Sell))
    ensures Traded(m, prices, OnSide(orders, Buy)) && OrdersOk(prices, OnSide(orders, Buy))
  {
    hide OrderOk;
  }

  /** Over a whole run: each recorded equity is last bar's holdings at today's closes less today's costs and dust. */
  lemma BarEquity(c: Config, m: Market, target: Option<Target>, start: Start, n: nat)
    requires ConfigOk(c) && MarketOk(m) && n < |m.prices| && Run(c, m, target, start, n + 1).Ok?
    ensures var s, t := Run(c, m, target, start, n), Run(c, m, target, start, n + 1).value;
            && s.Ok? && CostOnly(m, m.prices[n], BarDust(c, m.prices[n], n, s.value.account, s.value.pending), s.value.account, t.account)
            && |t.equity| == n + 1 && t.equity[n] == EquityRow(n, Equity(m, t.account, m.prices[n]), t.account.cash)
  {
    hide Run, CostOnly, Equity, ExecuteOrders, NoShorts;
    assert Run(c, m, target, start, n + 1) == (match Run(c, m, target, start, n) case Ok(s) => Bar(c, m, target, start, s, n) case Err(e) => Err(e)) by {
      RunStep(c, m, target, start, n);
    }
    RunSolvent(c, m, target, start, n);
    var s := Run(c, m, target, start, n).value;
    BarOk(c, m, target, start, s, n);
    PendingTraded(m, s, n);
    ExecuteCosts(c, m, n, s.account, s.pending);
    var t := Marked(c, m, s, n).value;
    MarkedFilled(c, m, s, n);
    FilledQueued(m, s, t, n);
    QueueDecides(c, m, target, start, t, n);
  }

  lemma RunStep(c: Config, m: Market, target: Option<Target>, start: Start, n: nat)
    requires MarketOk(m) && n < |m.prices|
    ensures Run(c, m, target, start, n + 1)
         == (match Run(c, m, target, start, n) case Ok(s) => Bar(c, m, target, start, s, n) case Err(e) => Err(e))
  {
  }

  lemma PendingTraded(m: Market, s: Sim, i: nat)
    requires MarketOk(m) && Queued(m, s, i) && i < |m.prices|
    ensures Traded(m, m.prices[i], s.pending)
  {
    forall k | 0 <= k < |s.pending|
      ensures OrderOk(m.prices[i], s.pending[k]) && s.pending[k].symbol in m.assets
    {
      assert s.pending[k] == s.orders[|s.orders| - |s.pending| + k];
    }
  }

  // ------------------------------------------------------------ no look-ahead

  /** The same calendar, and the same closes through bar k. */
  predicate AgreeThrough(m1: Market, m2: Market, k: nat) {
    && m1.assets == m2.assets && m1.time == m2.time && m1.week == m2.week
    && |m1.prices| == |m2.prices| && k < |m1.prices|
    && forall i :: 0 <= i <= k ==> m1.prices[i] == m2.prices[i]
  }

  /** A target function that reads only rows at or before its date. */
  ghost predicate PrefixOnly(target: Target) {
    forall m1: Market, m2: Market, i: nat :: MarketOk(m1) && MarketOk(m2) && AgreeThrough(m1, m2, i) ==> target(m1, i) == target(m2, i)
  }

  lemma {:induction false} CreateOrdersAgree(c: Config, m1: Market, m2: Market, w: Weights, bar: nat, signal: int,
                                             s: Sim, n: nat)
    requires AgreeThrough(m1, m2, bar) && PricesOk(m1.assets, m1.prices[bar]) && n <= |m1.assets|
    ensures CreateOrders(c, m1, w, bar, signal, s, n) == CreateOrders(c, m2, w, bar, signal, s, n)
  {
    if n > 0 {
      hide PricesOk, Value, Delta;
      CreateOrdersAgree(c, m1, m2, w, bar, signal, s, n - 1);
    }
  }

  lemma {:induction false} PositionRowsAgree(m1: Market, m2: Market, s: Sim, i: nat, equity: real, n: nat)
    requires AgreeThrough(m1, m2, i) && n <= |m1.assets|
    ensures PositionRows(m1, s, i, equity, n) == PositionRows(m2, s, i, equity, n)
  {
    if n > 0 {
      PositionRowsAgree(m1, m2, s, i, equity, n - 1);
    }
  }

  lemma BarAgrees(c: Config, m1: Market, m2: Market, target: Option<Target>, start: Start, s: Sim, i: nat)
    requires MarketOk(m1) && MarketOk(m2) && AgreeThrough(m1, m2, i)
    requires target.Some? ==> PrefixOnly(target.value)
    ensures Bar(c, m1, target, start, s, i) == Bar(c, m2, target, start, s, i)
  {
    hide ExecuteOrders, CreateOrders, PricesOk;
    var account := ExecuteOrders(c, m1.prices[i], i, s.account, s.pending);
    if account.Ok? {
      var s1 := s.(account := account.value, pending := []);
      PositionRowsAgree(m1, m2, s1, i, Equity(m1, s1.account, m1.prices[i]), |m1.assets|);
      var t := Record(m1, s1, i);
      assert t == Record(m2, s1, i);
      QueueAgrees(c, m1, m2, target, start, t, i);
    }
  }

  lemma ExtractAgrees(c: Config, m1: Market, m2: Market, signal: Signal)
    requires m1.assets == m2.assets
    ensures ExtractWeights(c, m1, signal) == ExtractWeights(c, m2, signal)
  {
  }

  lemma QueueAgrees(c: Config, m1: Market, m2: Market, target: Option<Target>, start: Start, t: Sim, i: nat)
    requires MarketOk(m1) && MarketOk(m2) && AgreeThrough(m1, m2, i)
    requires target.Some? ==> PrefixOnly(target.value)
    ensures QueueOrders(c, m1, target, start, t, i) == QueueOrders(c, m2, target, start, t, i)
  {
    hide ExtractWeights, CreateOrders, PricesOk;
    forall w: Weights, signal: int
      ensures CreateOrders(c, m1, w, i, signal, t, |m1.assets|) == CreateOrders(c, m2, w, i, signal, t, |m1.assets|)
    {
      CreateOrdersAgree(c, m1, m2, w, i, signal, t, |m1.assets|);
    }
    ExtractAgrees(c, m1, m2, start.weights);
    if target.Some? {
      assert target.value(m1, i) == target.value(m2, i);
      ExtractAgrees(c, m1, m2, target.value(m1, i));
    }
  }

  lemma {:induction false} RunAgrees(c: Config, m1: Market, m2: Market, target: Option<Target>, start: Start,
                                     k: nat, n: nat)
    requires MarketOk(m1) && MarketOk(m2) && AgreeThrough(m1, m2, k) && n <= k + 1
    requires target.Some? ==> PrefixOnly(target.value)
    ensures Run(c, m1, target, start, n) == Run(c, m2, target, start, n)
  {
    hide Bar, MarketOk, PrefixOnly;
    if n > 0 {
      RunAgrees(c, m1, m2, target, start, k, n - 1);
      var r := Run(c, m1, target, start, n - 1);
      if r.Ok? {
        BarAgrees(c, m1, m2, target, start, r.value, n - 1);
      }
    }
  }

  /** `after` only adds records of bars from n on. */
  ghost predicate AddsFrom(before: Sim, after: Sim, n: nat) {
    && |before.orders| <= |after.orders| && after.orders[..|before.orders|] == before.orders
    && (forall i :: |before.orders| <= i < |after.orders| ==> after.orders[i].bar >= n)
    && |before.account.fills| <= |after.account.fills| && after.account.fills[..|before.account.fills|] == before.account.fills
    && (forall i :: |before.account.fills| <= i < |after.account.fills| ==> after.account.fills[i].bar >= n)
    && |before.equity| <= |after.equity| && after.equity[..|before.equity|] == before.equity
    && (forall i :: |before.equity| <= i < |after.equity| ==> after.equity[i].bar >= n)
    && |before.positions| <= |after.positions| && after.positions[..|before.positions|] == before.positions
    && forall i :: |before.positions| <= i < |after.positions| ==> after.positions[i].bar >= n
  }

  lemma {:induction false} PositionRowsBar(m: Market, s: Sim, i: nat, equity: real, n: nat)
    requires i < |m.prices| && n <= |m.assets|
    ensures forall k :: 0 <= k < |PositionRows(m, s, i, equity, n)| ==> PositionRows(m, s, i, equity, n)[k].bar == i
  {
    if n > 0 {
      PositionRowsBar(m, s, i, equity, n - 1);
    }
  }

  lemma MarkedPositions(c: Config, m: Market, s: Sim, i: nat)
    requires MarketOk(m) && i < |m.prices| && Marked(c, m, s, i).Ok?
    ensures var t := Marked(c, m, s, i).value;
            && |s.positions| <= |t.positions| && t.positions[..|s.positions|] == s.positions
            && forall k :: |s.positions| <= k < |t.positions| ==> t.positions[k].bar == i
  {
    hide ExecuteOrders, PositionRows, MarketOk;
    var account := ExecuteOrders(c, m.prices[i], i, s.account, s.pending).value;
    var s1 := s.(account := account, pending := []);
    PositionRowsBar(m, s1, i, Equity(m, account, m.prices[i]), |m.assets|);
  }

  lemma QueuedBars(m: Market, t: Sim, u: Sim, i: nat)
    requires Decided(m, t, u, i)
    ensures forall k :: |t.orders| <= k < |u.orders| ==> u.orders[k].bar == i
  {
    forall k | |t.orders| <= k < |u.orders|
      ensures u.orders[k].bar == i
    {
      assert u.orders[k] == u.pending[k - |t.orders|];
    }
  }

  lemma BarAdds(c: Config, m: Market, target: Option<Target>, start: Start, s: Sim, i: nat)
    requires ConfigOk(c) && MarketOk(m) && i < |m.prices| && SimOk(m, s, i) && Bar(c, m, target, start, s, i).Ok?
    ensures AddsFrom(s, Bar(c, m, target, start, s, i).value, i)
  {
    hide Queued, FilledOrders, NoShorts, Record, ExecuteOrders, QueueOrders, Bar;
    BarOk(c, m, target, start, s, i);
    MarkedFilled(c, m, s, i);
    MarkedPositions(c, m, s, i);
    var t := Marked(c, m, s, i).value;
    FilledQueued(m, s, t, i);
    QueueDecides(c, m, target, start, t, i);
    QueuedBars(m, t, QueueOrders(c, m, target, start, t, i).value, i);
  }

  lemma AddsTransitive(a: Sim, b: Sim, d: Sim, n: nat, k: nat)
    requires AddsFrom(a, b, n) && AddsFrom(b, d, k) && n <= k
    ensures AddsFrom(a, d, n)
  {
    OrdersTransitive(a.orders, b.orders, d.orders, n);
    FillsTransitive(a.account.fills, b.account.fills, d.account.fills, n);
    assert d.equity[..|a.equity|] == d.equity[..|b.equity|][..|a.equity|];
    assert d.positions[..|a.positions|] == d.positions[..|b.positions|][..|a.positions|];
    forall i | |a.equity| <= i < |d.equity|
      ensures d.equity[i].bar >= n
    {
      assert i < |b.equity| ==> d.equity[i] == d.equity[..|b.equity|][i];
    }
    forall i | |a.positions| <= i < |d.positions|
      ensures d.positions[i].bar >= n
    {
      assert i < |b.positions| ==> d.positions[i] == d.positions[..|b.positions|][i];
    }
  }

  lemma OrdersTransitive(a: seq<Order>, b: seq<Order>, d: seq<Order>, n: nat)
    requires |a| <= |b| <= |d| && b[..|a|] == a && d[..|b|] == b
    requires forall i :: |a| <= i < |b| ==> b[i].bar >= n
    requires forall i :: |b| <= i < |d| ==> d[i].bar >= n
    ensures d[..|a|] == a && forall i :: |a| <= i < |d| ==> d[i].bar >= n
  {
    assert d[..|a|] == d[..|b|][..|a|];
    forall i | |a| <= i < |b| ensures d[i].bar >= n {
      assert d[i] == d[..|b|][i];
    }
  }

  lemma FillsTransitive(a: seq<Fill>, b: seq<Fill>, d: seq<Fill>, n: nat)
    requires |a| <= |b| <= |d| && b[..|a|] == a && d[..|b|] == b
    requires forall i :: |a| <= i < |b| ==> b[i].bar >= n
    requires forall i :: |b| <= i < |d| ==> d[i].bar >= n
    ensures d[..|a|] == a && forall i :: |a| <= i < |d| ==> d[i].bar >= n
  {
    assert d[..|a|] == d[..|b|][..|a|];
    forall i | |a| <= i < |b| ensures d[i].bar >= n {
      assert d[i] == d[..|b|][i];
    }
  }

  /** A run that gets to bar `later` had all the records of its first n bars already. */
  lemma {:induction false} RunAdds(c: Config, m: Market, target: Option<Target>, start: Start, n: nat, later: nat)
    requires ConfigOk(c) && MarketOk(m) && n <= later <= |m.prices| && Run(c, m, target, start, later).Ok?
    ensures Run(c, m, target, start, n).Ok?
    ensures AddsFrom(Run(c, m, target, start, n).value, Run(c, m, target, start, later).value, n)
    decreases later
  {
    hide Bar, SimOk, MarketOk, AddsFrom;
    if n == later {
      AddsNothing(Run(c, m, target, start, n).value, n);
    } else {
      RunStep(c, m, target, start, later - 1);
      RunAdds(c, m, target, start, n, later - 1);
      RunSolvent(c, m, target, start, later - 1);
      var s := Run(c, m, target, start, later - 1).value;
      BarAdds(c, m, target, start, s, later - 1);
      AddsTransitive(Run(c, m, target, start, n).value, s, Run(c, m, target, start, later).value, n, later - 1);
    }
  }

  lemma AddsNothing(s: Sim, n: nat)
    ensures AddsFrom(s, s, n)
  {
  }

  /**
   No look-ahead: with the same calendar and the same closes through bar k, and a
   target function that reads only rows at or before its date, the simulation
   through bar k is the same, and whatever either history holds later only adds
   records of later bars.
   */
  lemma NoLookAhead(c: Config, m1: Market, m2: Market, target: Option<Target>, start: Start, k: nat)
    requires ConfigOk(c) && MarketOk(m1) && MarketOk(m2) && AgreeThrough(m1, m2, k)
    requires target.Some? ==> PrefixOnly(target.value)
    ensures var s := Run(c, m1, target, start, k + 1);
            && s == Run(c, m2, target, start, k + 1)
            && (FullRun(c, m1, target, start).Ok? ==> s.Ok? && AddsFrom(s.value, FullRun(c, m1, target, start).value, k + 1))
            && (FullRun(c, m2, target, start).Ok? ==> s.Ok? && AddsFrom(s.value, FullRun(c, m2, target, start).value, k + 1))
  {
    hide Run, MarketOk, PrefixOnly, AddsFrom;
    RunAgrees(c, m1, m2, target, start, k, k + 1);
    if FullRun(c, m1, target, start).Ok? {
      RunAdds(c, m1, target, start, k + 1, |m1.prices|);
    }
    if FullRun(c, m2, target, start).Ok? {
      RunAdds(c, m2, target, start, k + 1, |m2.prices|);
    }
  }
}
