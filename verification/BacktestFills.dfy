/**
 What a bar fills, exactly: sells up to what is held, buys at the one share the
 cash can pay for, every price and cost from the bar's close and the two rates, and
 the cash and quantities that remain.
 */
module BacktestFills {
  import opened Common
  import opened Numbers
  import opened Quantities
  import opened Backtest
  import opened BacktestSafety
  import opened BacktestSignals

  /** Filled at the bar's close moved against the trade by the slippage rate, with the fee on the notional. */
  predicate PricedAt(c: Config, f: Fill, close: real) {
    && f.market == close
    && f.execution == (if f.order.side == Buy then close * (1.0 + c.slippageRate) else close * (1.0 - c.slippageRate))
    && f.fee == f.quantity * f.execution * c.feeRate
    && f.slippage == f.quantity * (if f.order.side == Buy then f.execution - close else close - f.execution)
  }

  predicate DistinctOrders(orders: seq<Order>) {
    forall j, k :: 0 <= j < k < |orders| ==> orders[j].symbol != orders[k].symbol
  }

  /** Cash the sells of these orders bring in. */
  function Proceeds(c: Config, prices: map<Symbol, real>, a: Account, sells: seq<Order>): real
    requires OrdersOk(prices, sells)
  {
    if sells == [] then 0.0
    else
      var o := sells[|sells| - 1];
      var q := Sold(a, o);
      var notional := q * (prices[o.symbol] * (1.0 - c.slippageRate));
      Proceeds(c, prices, a, sells[..|sells| - 1]) + (notional - notional * c.feeRate)
  }

  /** Cash the buys would take in full. */
  function Need(c: Config, prices: map<Symbol, real>, buys: seq<Order>): real
    requires OrdersOk(prices, buys)
  {
    if buys == [] then 0.0
    else
      var o := buys[|buys| - 1];
      var notional := o.requested * (prices[o.symbol] * (1.0 + c.slippageRate));
      Need(c, prices, buys[..|buys| - 1]) + (notional + notional * c.feeRate)
  }

  /** Everything asked for when the cash suffices, and otherwise exactly what uses it up. */
  predicate SharesOut(cash: real, need: real, share: real) {
    if need <= cash then share == 1.0 else share * need == cash
  }

  /** A sell fills up to what is held. */
  function Sold(a: Account, o: Order): real {
    var held := QuantityOf(a.quantities, o.symbol);
    if o.requested <= held then o.requested else held
  }

  /** What is left of a holding; below the tolerance, nothing. */
  function Left(c: Config, a: Account, o: Order): real {
    var rest := QuantityOf(a.quantities, o.symbol) - Sold(a, o);
    if rest < c.tolerance then 0.0 else rest
  }

  // ----------------------------------------------------------------------- sells

  /** A sell's fill, and the quantity it leaves. */
  predicate Sale(c: Config, bar: nat, close: real, a: Account, o: Order, f: Fill, left: real) {
    f.order == o && f.bar == bar && f.quantity == Sold(a, o) && PricedAt(c, f, close) && left == Left(c, a, o)
  }

  ghost predicate SellsFilled(c: Config, prices: map<Symbol, real>, bar: nat, a: Account, sells: seq<Order>, b: Account)
    requires OrdersOk(prices, sells)
  {
    && |b.fills| == |a.fills| + |sells| && b.fills[..|a.fills|] == a.fills
    && (forall k :: 0 <= k < |sells| ==>
          var o := sells[k];
          Sale(c, bar, prices[o.symbol], a, o, b.fills[|a.fills| + k], QuantityOf(b.quantities, o.symbol)))
    && (forall s :: !HasOrder(sells, s) ==> QuantityOf(b.quantities, s) == QuantityOf(a.quantities, s))
    && b.cash == a.cash + Proceeds(c, prices, a, sells)
  }

  lemma PricedExactly(c: Config, prices: map<Symbol, real>, bar: nat, o: Order, quantity: real)
    requires ConfigOk(c) && OrderOk(prices, o) && 0.0 <= quantity
    ensures var f := FillOf(c, prices, bar, o, quantity);
            f.order == o && f.bar == bar && f.quantity == quantity && PricedAt(c, f, prices[o.symbol])
  {
    FillCosts(c, prices, bar, o, quantity);
  }

  lemma SellOneExactly(c: Config, prices: map<Symbol, real>, bar: nat, a: Account, o: Order)
    requires ConfigOk(c) && OrderOk(prices, o) && o.side.Sell? && NoShorts(a)
    ensures var b := SellOne(c, prices, bar, a, o);
            && |b.fills| == |a.fills| + 1 && b.fills[..|a.fills|] == a.fills
            && var f := b.fills[|a.fills|];
               && f.order == o && f.bar == bar && f.quantity == Sold(a, o) && PricedAt(c, f, prices[o.symbol])
               && QuantityOf(b.quantities, o.symbol) == Left(c, a, o)
               && (forall s :: s != o.symbol ==> QuantityOf(b.quantities, s) == QuantityOf(a.quantities, s))
               && b.cash == a.cash + (f.quantity * f.execution - f.quantity * f.execution * c.feeRate)
  {
    PricedExactly(c, prices, bar, o, Sold(a, o));
    hide FillOf, PricedAt;
  }

  lemma {:induction false} SellsExactly(c: Config, prices: map<Symbol, real>, bar: nat, a: Account, sells: seq<Order>)
    requires ConfigOk(c) && OrdersOk(prices, sells) && NoShorts(a) && DistinctOrders(sells)
    requires forall k :: 0 <= k < |sells| ==> sells[k].side.Sell?
    ensures SellsFilled(c, prices, bar, a, sells, Sells(c, prices, bar, a, sells)) && NoShorts(Sells(c, prices, bar, a, sells))
  {
    hide NoShorts, SellsFilled, OrderOk, ConfigOk, SellOne, Proceeds, PricedAt, Sold, Left;
    if sells == [] {
      NothingSold(c, prices, bar, a);
    } else {
      var n := |sells| - 1;
      SellsExactly(c, prices, bar, a, sells[..n]);
      var b := Sells(c, prices, bar, a, sells[..n]);
      assert OrderOk(prices, sells[n]);
      SellOneExactly(c, prices, bar, b, sells[n]);
      SellOneSolvent(c, prices, bar, b, sells[n]);
      UnsoldYet(c, prices, bar, a, sells, b);
      var d := SellOne(c, prices, bar, b, sells[n]);
      ProceedsMore(c, prices, a, sells, d.fills[|b.fills|]);
      SellsMore(c, prices, bar, a, sells, b, d, d.cash - b.cash);
    }
  }

  lemma NothingSold(c: Config, prices: map<Symbol, real>, bar: nat, a: Account)
    ensures SellsFilled(c, prices, bar, a, [], a)
  {
    assert a.fills[..|a.fills|] == a.fills;
  }

  lemma NotBefore(orders: seq<Order>, n: nat)
    requires n < |orders| && DistinctOrders(orders)
    ensures !HasOrder(orders[..n], orders[n].symbol)
  {
  }

  lemma ProceedsMore(c: Config, prices: map<Symbol, real>, a: Account, sells: seq<Order>, f: Fill)
    requires sells != [] && OrdersOk(prices, sells)
    requires var o := sells[|sells| - 1];
             o.side.Sell? && f.order == o && f.quantity == Sold(a, o) && PricedAt(c, f, prices[o.symbol])
    ensures Proceeds(c, prices, a, sells)
         == Proceeds(c, prices, a, sells[..|sells| - 1]) + (f.quantity * f.execution - f.quantity * f.execution * c.feeRate)
  {
    hide Sold;
    assert OrderOk(prices, f.order);
    assert f.execution == prices[f.order.symbol] * (1.0 - c.slippageRate);
  }

  lemma SellsMore(c: Config, prices: map<Symbol, real>, bar: nat, a: Account, sells: seq<Order>, b: Account, d: Account, gain: real)
    requires sells != [] && OrdersOk(prices, sells) && DistinctOrders(sells)
    requires SellsFilled(c, prices, bar, a, sells[..|sells| - 1], b)
    requires |d.fills| == |b.fills| + 1 && d.fills[..|b.fills|] == b.fills
    requires var o, f := sells[|sells| - 1], d.fills[|b.fills|];
             && Sale(c, bar, prices[o.symbol], a, o, f, QuantityOf(d.quantities, o.symbol))
             && (forall s :: s != o.symbol ==> QuantityOf(d.quantities, s) == QuantityOf(b.quantities, s))
    requires Proceeds(c, prices, a, sells) == Proceeds(c, prices, a, sells[..|sells| - 1]) + gain && d.cash == b.cash + gain
    ensures SellsFilled(c, prices, bar, a, sells, d)
  {
    hide Sale, HasOrder, QuantityOf, Proceeds;
    var n := |sells| - 1;
    var o := sells[n];
    forall s
      ensures HasOrder(sells, s) <==> HasOrder(sells[..n], s) || s == o.symbol
    {
      assert sells == sells[..n] + [o];
      OrderedMore(sells[..n], o);
    }
    assert d.fills[..|a.fills|] == d.fills[..|b.fills|][..|a.fills|];
    forall k | 0 <= k < |sells|
      ensures Sale(c, bar, prices[sells[k].symbol], a, sells[k], d.fills[|a.fills| + k], QuantityOf(d.quantities, sells[k].symbol))
    {
      if k < n {
        assert d.fills[|a.fills| + k] == d.fills[..|b.fills|][|a.fills| + k] == b.fills[|a.fills| + k];
        assert sells[..n][k] == sells[k] && sells[k].symbol != o.symbol;
      }
    }
    assert |d.fills| == |a.fills| + |sells| && d.fills[..|a.fills|] == a.fills;
    assert d.cash == a.cash + Proceeds(c, prices, a, sells);
    assert forall s :: !HasOrder(sells, s) ==> QuantityOf(d.quantities, s) == QuantityOf(a.quantities, s);
  }

  lemma UnsoldYet(c: Config, prices: map<Symbol, real>, bar: nat, a: Account, sells: seq<Order>, b: Account)
    requires sells != [] && OrdersOk(prices, sells) && DistinctOrders(sells)
    requires SellsFilled(c, prices, bar, a, sells[..|sells| - 1], b)
    ensures var o := sells[|sells| - 1]; Sold(b, o) == Sold(a, o) && Left(c, b, o) == Left(c, a, o)
  {
    hide PricedAt, Proceeds;
    NotBefore(sells, |sells| - 1);
    assert QuantityOf(b.quantities, sells[|sells| - 1].symbol) == QuantityOf(a.quantities, sells[|sells| - 1].symbol);
  }

  // ------------------------------------------------------------------------ buys

  /** A buy's fill at the share, and the quantity it makes of what was held. */
  predicate Purchase(c: Config, bar: nat, close: real, share: real, held: real, o: Order, f: Fill, after: real) {
    && f.order == o && f.bar == bar && f.quantity == o.requested * share && PricedAt(c, f, close)
    && after == held + o.requested * share
  }

  ghost predicate BuysFilled(c: Config, prices: map<Symbol, real>, bar: nat, share: real, a: Account, buys: seq<Order>, b: Account)
    requires OrdersOk(prices, buys)
  {
    && |b.fills| == |a.fills| + |buys| && b.fills[..|a.fills|] == a.fills
    && (forall k :: 0 <= k < |buys| ==>
          var o := buys[k];
          Purchase(c, bar, prices[o.symbol], share, QuantityOf(a.quantities, o.symbol), o, b.fills[|a.fills| + k], QuantityOf(b.quantities, o.symbol)))
    && forall s :: !HasOrder(buys, s) ==> QuantityOf(b.quantities, s) == QuantityOf(a.quantities, s)
  }

  lemma BuyOneExactly(c: Config, prices: map<Symbol, real>, bar: nat, share: real, a: Account, o: Order)
    requires ConfigOk(c) && OrderOk(prices, o) && o.side.Buy? && 0.0 <= share
    ensures var b := BuyOne(c, prices, bar, share, a, o);
            && |b.fills| == |a.fills| + 1 && b.fills[..|a.fills|] == a.fills
            && var f := b.fills[|a.fills|];
               && f.order == o && f.bar == bar && f.quantity == o.requested * share && PricedAt(c, f, prices[o.symbol])
               && QuantityOf(b.quantities, o.symbol) == QuantityOf(a.quantities, o.symbol) + o.requested * share
               && forall s :: s != o.symbol ==> QuantityOf(b.quantities, s) == QuantityOf(a.quantities, s)
  {
    TimesNonneg(o.requested, share);
    PricedExactly(c, prices, bar, o, Times(o.requested, share));
    hide FillOf, PricedAt;
  }

  lemma {:induction false} BuysExactly(c: Config, prices: map<Symbol, real>, bar: nat, share: real, a: Account, buys: seq<Order>)
    requires ConfigOk(c) && OrdersOk(prices, buys) && DistinctOrders(buys) && 0.0 <= share
    requires forall k :: 0 <= k < |buys| ==> buys[k].side.Buy?
    ensures BuysFilled(c, prices, bar, share, a, buys, Buys(c, prices, bar, share, a, buys))
  {
    hide BuysFilled, OrderOk, ConfigOk, BuyOne, PricedAt, QuantityOf;
    if buys == [] {
      NothingBought(c, prices, bar, share, a);
    } else {
      var n := |buys| - 1;
      BuysExactly(c, prices, bar, share, a, buys[..n]);
      var b := Buys(c, prices, bar, share, a, buys[..n]);
      assert OrderOk(prices, buys[n]);
      BuyOneExactly(c, prices, bar, share, b, buys[n]);
      UnboughtYet(c, prices, bar, share, a, buys, b);
      BuysMore(c, prices, bar, share, a, buys, b, BuyOne(c, prices, bar, share, b, buys[n]));
    }
  }

  lemma NothingBought(c: Config, prices: map<Symbol, real>, bar: nat, share: real, a: Account)
    ensures BuysFilled(c, prices, bar, share, a, [], a)
  {
    assert a.fills[..|a.fills|] == a.fills;
  }

  lemma BuysMore(c: Config, prices: map<Symbol, real>, bar: nat, share: real, a: Account, buys: seq<Order>, b: Account, d: Account)
    requires buys != [] && OrdersOk(prices, buys) && DistinctOrders(buys)
    requires BuysFilled(c, prices, bar, share, a, buys[..|buys| - 1], b)
    requires |d.fills| == |b.fills| + 1 && d.fills[..|b.fills|] == b.fills
    requires var o, f := buys[|buys| - 1], d.fills[|b.fills|];
             && Purchase(c, bar, prices[o.symbol], share, QuantityOf(a.quantities, o.symbol), o, f, QuantityOf(d.quantities, o.symbol))
             && forall s :: s != o.symbol ==> QuantityOf(d.quantities, s) == QuantityOf(b.quantities, s)
    ensures BuysFilled(c, prices, bar, share, a, buys, d)
  {
    hide Purchase, HasOrder, QuantityOf;
    var n := |buys| - 1;
    var o := buys[n];
    forall s
      ensures HasOrder(buys, s) <==> HasOrder(buys[..n], s) || s == o.symbol
    {
      assert buys == buys[..n] + [o];
      OrderedMore(buys[..n], o);
    }
    assert d.fills[..|a.fills|] == d.fills[..|b.fills|][..|a.fills|];
    forall k | 0 <= k < |buys|
      ensures var q := buys[k];
              Purchase(c, bar, prices[q.symbol], share, QuantityOf(a.quantities, q.symbol), q, d.fills[|a.fills| + k], QuantityOf(d.quantities, q.symbol))
    {
      if k < n {
        assert d.fills[|a.fills| + k] == d.fills[..|b.fills|][|a.fills| + k] == b.fills[|a.fills| + k];
        assert buys[..n][k] == buys[k] && buys[k].symbol != o.symbol;
      }
    }
    assert forall s :: !HasOrder(buys, s) ==> QuantityOf(d.quantities, s) == QuantityOf(a.quantities, s);
  }

  lemma UnboughtYet(c: Config, prices: map<Symbol, real>, bar: nat, share: real, a: Account, buys: seq<Order>, b: Account)
    requires buys != [] && OrdersOk(prices, buys) && DistinctOrders(buys)
    requires BuysFilled(c, prices, bar, share, a, buys[..|buys| - 1], b)
    ensures QuantityOf(b.quantities, buys[|buys| - 1].symbol) == QuantityOf(a.quantities, buys[|buys| - 1].symbol)
  {
    hide PricedAt;
    NotBefore(buys, |buys| - 1);
  }

  // ------------------------------------------------------------------------ bars

  lemma {:induction false} NeedIsRequired(c: Config, prices: map<Symbol, real>, buys: seq<Order>)
    requires OrdersOk(prices, buys)
    ensures Need(c, prices, buys) == Required(c, prices, buys)
  {
    if buys != [] {
      NeedIsRequired(c, prices, buys[..|buys| - 1]);
      var o := buys[|buys| - 1];
      assert OrderOk(prices, o);
      TimesUnit(Times(o.requested, ExecutionPrice(c, Lookup(prices, o.symbol), Buy)), c.feeRate);
    }
  }

  lemma ShareExactly(cash: real, need: real)
    requires 0.0 <= cash && 0.0 <= need
    ensures SharesOut(cash, need, ScaleFor(cash, need))
  {
    if 0.0 < need {
      DivCancel(cash, need);
      if need <= cash {
        DivMono(need, cash, need);
        assert need / need == 1.0;
      } else if cash / need >= 1.0 {
        MulMono(1.0, cash / need, need);
      }
    }
  }

  lemma SideDistinct(orders: seq<Order>, side: Side)
    requires DistinctOrders(orders)
    ensures DistinctOrders(OnSide(orders, side))
    ensures forall o :: o in orders && o.side == side ==> o in OnSide(orders, side)
  {
    if orders != [] {
      var n := |orders| - 1;
      SideDistinct(orders[..n], side);
      assert orders == orders[..n] + [orders[n]];
      var rest := OnSide(orders[..n], side);
      forall k | 0 <= k < |rest|
        ensures rest[k].symbol != orders[n].symbol
      {
        assert rest[k] in orders[..n];
        var j :| 0 <= j < n && orders[j] == rest[k];
      }
    }
  }

  /** The two stages of a bar's fills, with the account between them. */
  ghost predicate BarFilled(c: Config, prices: map<Symbol, real>, bar: nat, a: Account, orders: seq<Order>, mid: Account, share: real, b: Account)
    requires OrdersOk(prices, OnSide(orders, Sell)) && OrdersOk(prices, OnSide(orders, Buy))
  {
    && SellsFilled(c, prices, bar, a, OnSide(orders, Sell), mid)
    && SharesOut(mid.cash, Need(c, prices, OnSide(orders, Buy)), share)
    && BuysFilled(c, prices, bar, share, mid, OnSide(orders, Buy), b)
  }

  /**
   A bar's fills, exactly: first each sell up to what is held, then each buy at
   the common share of what the cash can pay for, at the bar's closes.
   */
  lemma ExecuteFillsExactly(c: Config, prices: map<Symbol, real>, bar: nat, a: Account, orders: seq<Order>) returns (mid: Account, share: real)
    requires ConfigOk(c) && OrdersOk(prices, orders) && DistinctOrders(orders) && NoShorts(a) && 0.0 <= a.cash
    ensures ExecuteOrders(c, prices, bar, a, orders).Ok?
    ensures OrdersOk(prices, OnSide(orders, Sell)) && OrdersOk(prices, OnSide(orders, Buy))
    ensures BarFilled(c, prices, bar, a, orders, mid, share, ExecuteOrders(c, prices, bar, a, orders).value)
    ensures forall o :: o in orders <==> o in OnSide(orders, Sell) || o in OnSide(orders, Buy)
  {
    hide Sells, Buys, Required, Need, SellsFilled, BuysFilled, NoShorts, OrderOk, ConfigOk, SharesOut, BuyScale, Proceeds;
    ExecuteSolvent(c, prices, bar, a, orders);
    var sells, buys := OnSide(orders, Sell), OnSide(orders, Buy);
    SideDistinct(orders, Sell);
    SideDistinct(orders, Buy);
    mid := Sells(c, prices, bar, a, sells);
    SellsExactly(c, prices, bar, a, sells);
    SellsSolvent(c, prices, bar, a, sells);
    NeedIsRequired(c, prices, buys);
    BuysCost(c, prices, bar, 0.0, mid, buys);
    share := ScaleFor(mid.cash, Required(c, prices, buys));
    ShareExactly(mid.cash, Required(c, prices, buys));
    BuysExactly(c, prices, bar, share, mid, buys);
  }

  /** Over a whole run: every bar fills the orders the bar before decided on, exactly so. */
  lemma RunFillsExactly(c: Config, m: Market, target: Option<Target>, start: Start, i: nat) returns (mid: Account, share: real)
    requires ConfigOk(c) && MarketOk(m) && i < |m.prices| && Run(c, m, target, start, i + 1).Ok?
    ensures var s, t := Run(c, m, target, start, i), Run(c, m, target, start, i + 1).value;
            && s.Ok? && OrdersOk(m.prices[i], OnSide(s.value.pending, Sell)) && OrdersOk(m.prices[i], OnSide(s.value.pending, Buy))
            && BarFilled(c, m.prices[i], i, s.value.account, s.value.pending, mid, share, t.account)
            && forall o :: o in s.value.pending <==> o in OnSide(s.value.pending, Sell) || o in OnSide(s.value.pending, Buy)
  {
    RunPrefix(c, m, target, start, i, i + 1);
    RunSolvent(c, m, target, start, i);
    PendingDistinct(c, m, target, start, i);
    BarAccount(c, m, target, start, i);
    hide Run, BarFilled, ExecuteOrders, MarketOk, FillsEach, NoShorts, OnSide;
    var s := Run(c, m, target, start, i).value;
    PendingOk(m, s, i);
    mid, share := ExecuteFillsExactly(c, m.prices[i], i, s.account, s.pending);
  }

  lemma PendingDistinct(c: Config, m: Market, target: Option<Target>, start: Start, i: nat)
    requires ConfigOk(c) && MarketOk(m) && i <= |m.prices| && Run(c, m, target, start, i).Ok?
    ensures DistinctOrders(Run(c, m, target, start, i).value.pending)
  {
    hide Run, MarketOk, QueueOrders;
    if i == 0 {
      RunNone(c, m, target, start);
    } else {
      RunPrefix(c, m, target, start, i - 1, i);
      var marked := RunQueues(c, m, target, start, i - 1);
      QueuedDistinct(c, m, target, start, marked, i - 1);
    }
  }

  lemma QueuedDistinct(c: Config, m: Market, target: Option<Target>, start: Start, s: Sim, i: nat)
    requires MarketOk(m) && i < |m.prices| && s.pending == [] && QueueOrders(c, m, target, start, s, i).Ok?
    ensures DistinctOrders(QueueOrders(c, m, target, start, s, i).value.pending)
  {
    hide QueueOrders, MarketOk, Due, OrderReaches, Settled, HasOrder;
    QueueDecidesExactly(c, m, target, start, s, i);
  }

  lemma BarAccount(c: Config, m: Market, target: Option<Target>, start: Start, i: nat)
    requires ConfigOk(c) && MarketOk(m) && i < |m.prices| && Run(c, m, target, start, i + 1).Ok?
    ensures Run(c, m, target, start, i).Ok?
    ensures var s := Run(c, m, target, start, i).value;
            var r := ExecuteOrders(c, m.prices[i], i, s.account, s.pending);
            r.Ok? && Run(c, m, target, start, i + 1).value.account == r.value
  {
    RunStep(c, m, target, start, i);
    hide Run, ExecuteOrders, Record, QueueOrders, MarketOk;
    var s := Run(c, m, target, start, i).value;
    var account := ExecuteOrders(c, m.prices[i], i, s.account, s.pending).value;
    var t := s.(account := account, pending := []);
    RecordKeeps(m, t, i);
    QueueKeepsAccount(c, m, target, start, Record(m, t, i), i);
  }

  lemma RecordKeeps(m: Market, s: Sim, i: nat)
    requires i < |m.prices|
    ensures Record(m, s, i).account == s.account && Record(m, s, i).pending == s.pending
  {
  }

  lemma QueueKeepsAccount(c: Config, m: Market, target: Option<Target>, start: Start, s: Sim, i: nat)
    requires MarketOk(m) && i < |m.prices| && s.pending == [] && QueueOrders(c, m, target, start, s, i).Ok?
    ensures QueueOrders(c, m, target, start, s, i).value.account == s.account
  {
    QueueDecidesExactly(c, m, target, start, s, i);
  }

  /** Fills of bars before n, each priced at its own bar's close. */
  predicate AllPriced(c: Config, m: Market, n: nat, fills: seq<Fill>)
    requires n <= |m.prices|
  {
    forall k :: 0 <= k < |fills| ==>
      fills[k].bar < n && fills[k].order.symbol in m.prices[fills[k].bar] && PricedAt(c, fills[k], m.prices[fills[k].bar][fills[k].order.symbol])
  }

  lemma PricedMore(c: Config, m: Market, n: nat, before: seq<Fill>, after: seq<Fill>)
    requires n < |m.prices| && AllPriced(c, m, n, before) && |before| <= |after| && after[..|before|] == before
    requires forall k :: |before| <= k < |after| ==>
               after[k].bar == n && after[k].order.symbol in m.prices[n] && PricedAt(c, after[k], m.prices[n][after[k].order.symbol])
    ensures AllPriced(c, m, n + 1, after)
  {
    hide PricedAt;
    forall k | 0 <= k < |before|
      ensures after[k] == before[k]
    {
      assert after[k] == after[..|before|][k];
    }
  }

  /** Every fill of a run is priced at its bar's close and carries the costs the two rates make of it. */
  lemma {:induction false} EveryFillPriced(c: Config, m: Market, target: Option<Target>, start: Start, n: nat)
    requires ConfigOk(c) && MarketOk(m) && n <= |m.prices| && Run(c, m, target, start, n).Ok?
    ensures AllPriced(c, m, n, Run(c, m, target, start, n).value.account.fills)
  {
    hide MarketOk, PricedAt, OnSide, AllPriced, BarFilled, Run;
    if n == 0 {
      RunNone(c, m, target, start);
      assert AllPriced(c, m, 0, []) by {
        NonePriced(c, m);
      }
    } else {
      RunPrefix(c, m, target, start, n - 1, n);
      EveryFillPriced(c, m, target, start, n - 1);
      var mid, share := RunFillsExactly(c, m, target, start, n - 1);
      var s, t := Run(c, m, target, start, n - 1).value, Run(c, m, target, start, n).value;
      BarPriced(c, m.prices[n - 1], n - 1, s.account, s.pending, mid, share, t.account);
      PricedMore(c, m, n - 1, s.account.fills, t.account.fills);
    }
  }

  lemma NonePriced(c: Config, m: Market)
    ensures AllPriced(c, m, 0, [])
  {
  }

  lemma BarPriced(c: Config, prices: map<Symbol, real>, bar: nat, a: Account, orders: seq<Order>, mid: Account, share: real, b: Account)
    requires OrdersOk(prices, OnSide(orders, Sell)) && OrdersOk(prices, OnSide(orders, Buy))
    requires BarFilled(c, prices, bar, a, orders, mid, share, b)
    ensures |a.fills| <= |b.fills| && b.fills[..|a.fills|] == a.fills
    ensures forall k :: |a.fills| <= k < |b.fills| ==>
              b.fills[k].bar == bar && b.fills[k].order.symbol in prices && PricedAt(c, b.fills[k], prices[b.fills[k].order.symbol])
  {
    hide PricedAt, Need, Proceeds, OnSide;
    assert b.fills[..|a.fills|] == b.fills[..|mid.fills|][..|a.fills|];
    forall k | |a.fills| <= k < |b.fills|
      ensures b.fills[k].bar == bar && b.fills[k].order.symbol in prices && PricedAt(c, b.fills[k], prices[b.fills[k].order.symbol])
    {
      if k < |mid.fills| {
        assert b.fills[k] == b.fills[..|mid.fills|][k];
        assert mid.fills[|a.fills| + (k - |a.fills|)].order == OnSide(orders, Sell)[k - |a.fills|];
        assert OrderOk(prices, OnSide(orders, Sell)[k - |a.fills|]);
      } else {
        assert b.fills[|mid.fills| + (k - |mid.fills|)].order == OnSide(orders, Buy)[k - |mid.fills|];
        assert OrderOk(prices, OnSide(orders, Buy)[k - |mid.fills|]);
      }
    }
  }

  // ------------------------------------------------------------------- records

  /** A column's quantity, its value at the close, and its part of the equity where there is any. */
  ghost predicate RowOf(m: Market, account: Account, bar: nat, equity: real, a: Symbol, row: PositionRow)
    requires bar < |m.prices| && PricesOk(m.assets, m.prices[bar]) && a in m.assets
  {
    var quantity := QuantityOf(account.quantities, a);
    var value := Times(quantity, m.prices[bar][a]);
    && row.bar == bar && row.symbol == a && row.quantity == quantity && row.value == value
    && (if 0.0 < equity then Times(row.weight, equity) == value else row.weight == 0.0)
  }

  ghost predicate BarRows(m: Market, account: Account, bar: nat, equity: real, rows: seq<PositionRow>, n: nat)
    requires bar < |m.prices| && PricesOk(m.assets, m.prices[bar]) && n <= |m.assets|
  {
    |rows| == n && forall k :: 0 <= k < n ==> RowOf(m, account, bar, equity, m.assets[k], rows[k])
  }

  lemma RowIsRow(m: Market, account: Account, bar: nat, equity: real, a: Symbol)
    requires bar < |m.prices| && PricesOk(m.assets, m.prices[bar]) && a in m.assets
    ensures var quantity := Lookup(account.quantities, a);
            var value := Times(quantity, Lookup(m.prices[bar], a));
            RowOf(m, account, bar, equity, a, PositionRow(bar, a, quantity, value, if equity > 0.0 then value / equity else 0.0))
  {
    if 0.0 < equity {
      DivCancel(Times(Lookup(account.quantities, a), Lookup(m.prices[bar], a)), equity);
    }
  }

  lemma {:induction false} RowsExactly(m: Market, s: Sim, bar: nat, equity: real, n: nat)
    requires bar < |m.prices| && PricesOk(m.assets, m.prices[bar]) && n <= |m.assets|
    ensures BarRows(m, s.account, bar, equity, PositionRows(m, s, bar, equity, n), n)
  {
    hide RowOf, PricesOk, Times;
    if n > 0 {
      RowsExactly(m, s, bar, equity, n - 1);
      RowIsRow(m, s.account, bar, equity, m.assets[n - 1]);
    }
  }

  lemma RecordExactly(m: Market, s: Sim, i: nat)
    requires i < |m.prices| && PricesOk(m.assets, m.prices[i])
    ensures var equity := s.account.cash + Worth(m.assets, s.account.quantities, m.prices[i]);
            var t := Record(m, s, i);
            && t.equity == s.equity + [EquityRow(i, equity, s.account.cash)]
            && |s.positions| <= |t.positions| && t.positions[..|s.positions|] == s.positions
            && BarRows(m, s.account, i, equity, t.positions[|s.positions|..], |m.assets|)
  {
    hide BarRows, PositionRows, Worth, Value, PricesOk;
    WorthIsValue(m.assets, s.account.quantities, m.prices[i]);
    RowsExactly(m, s, i, Equity(m, s.account, m.prices[i]), |m.assets|);
    assert Record(m, s, i).positions[|s.positions|..] == PositionRows(m, s, i, Equity(m, s.account, m.prices[i]), |m.assets|);
  }

  /** What a bar records, exactly: one equity row of cash and holdings at the close, and one row for each column. */
  lemma BarRecordsExactly(c: Config, m: Market, target: Option<Target>, start: Start, i: nat)
    requires ConfigOk(c) && MarketOk(m) && i < |m.prices| && Run(c, m, target, start, i + 1).Ok?
    ensures PricesOk(m.assets, m.prices[i]) && Run(c, m, target, start, i).Ok?
    ensures var s, t := Run(c, m, target, start, i).value, Run(c, m, target, start, i + 1).value;
            var equity := t.account.cash + Worth(m.assets, t.account.quantities, m.prices[i]);
            && t.equity == s.equity + [EquityRow(i, equity, t.account.cash)]
            && |s.positions| <= |t.positions| && t.positions[..|s.positions|] == s.positions
            && BarRows(m, t.account, i, equity, t.positions[|s.positions|..], |m.assets|)
  {
    hide Run, ExecuteOrders, QueueOrders, MarketOk, Worth, BarRows, Record, PricesOk, ConfigOk;
    RunStep(c, m, target, start, i);
    BarAccount(c, m, target, start, i);
    MarketPrices(m, i);
    var s := Run(c, m, target, start, i).value;
    var account := ExecuteOrders(c, m.prices[i], i, s.account, s.pending).value;
    var filled := s.(account := account, pending := []);
    RecordKeeps(m, filled, i);
    RecordExactly(m, filled, i);
    QueueKeepsRecords(c, m, target, start, Record(m, filled, i), i);
  }

  lemma QueueKeepsRecords(c: Config, m: Market, target: Option<Target>, start: Start, s: Sim, i: nat)
    requires MarketOk(m) && i < |m.prices| && s.pending == [] && QueueOrders(c, m, target, start, s, i).Ok?
    ensures var t := QueueOrders(c, m, target, start, s, i).value; t.equity == s.equity && t.positions == s.positions
  {
    hide ExtractWeights, Due, MarketOk, CreateOrders;
    MarketPrices(m, i);
    if i == 0 && start.weights.Some? {
      CreateKeepsRecords(c, m, ExtractWeights(c, m, start.weights).value, i, if start.signal.Some? then start.signal.value else m.time[i], s, |m.assets|);
    } else if target.Some? && Due(c, m, s.last, i) {
      CreateKeepsRecords(c, m, ExtractWeights(c, m, target.value(m, i)).value, i, m.time[i], s, |m.assets|);
    }
  }

  lemma {:induction false} CreateKeepsRecords(c: Config, m: Market, w: Weights, bar: nat, signal: int, s: Sim, n: nat)
    requires bar < |m.prices| && PricesOk(m.assets, m.prices[bar]) && n <= |m.assets|
    ensures var t := CreateOrders(c, m, w, bar, signal, s, n); t.equity == s.equity && t.positions == s.positions
  {
    if n > 0 {
      CreateKeepsRecords(c, m, w, bar, signal, s, n - 1);
    }
  }
}
