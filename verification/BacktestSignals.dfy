/**
 When the backtester asks for a signal and what it makes of it: exactly which bars
 are signal bars, which weights are accepted, and which orders they become.
 */
module BacktestSignals {
  import opened Common
  import opened Numbers
  import opened Quantities
  import opened Backtest
  import opened BacktestSafety

  // ---------------------------------------------------------------- signal bars

  /** The week key changes after the bar. */
  predicate WeekCloses(m: Market, i: nat) {
    i + 1 < |m.week| && m.week[i] != m.week[i + 1]
  }

  /** The run asked its target function at bar i, and so far has not asked again. */
  predicate Signalled(c: Config, m: Market, target: Option<Target>, start: Start, i: nat)
    requires MarketOk(m) && i < |m.prices|
  {
    var r := Run(c, m, target, start, i + 1);
    r.Ok? && r.value.last == Some(i)
  }

  /** The last signal bar before bar n, if any. */
  ghost predicate LastBefore(c: Config, m: Market, target: Option<Target>, start: Start, n: nat, last: Option<nat>)
    requires MarketOk(m) && n <= |m.prices|
  {
    match last
    case None => forall j :: 0 <= j < n ==> !Signalled(c, m, target, start, j)
    case Some(k) => k < n && Signalled(c, m, target, start, k) && forall j :: k < j < n ==> !Signalled(c, m, target, start, j)
  }

  lemma QueueLast(c: Config, m: Market, target: Option<Target>, start: Start, t: Sim, i: nat)
    requires MarketOk(m) && i < |m.prices| && QueueOrders(c, m, target, start, t, i).Ok?
    ensures var u := QueueOrders(c, m, target, start, t, i).value;
            u.last == if (i == 0 && start.weights.Some?) || target.None? || !Due(c, m, t.last, i) then t.last else Some(i)
  {
    hide ExtractWeights, Due, MarketOk, CreateOrders;
    MarketPrices(m, i);
    if i == 0 && start.weights.Some? {
      CreateLast(c, m, ExtractWeights(c, m, start.weights).value, i, if start.signal.Some? then start.signal.value else m.time[i], t, |m.assets|);
    }
  }

  lemma {:induction false} CreateLast(c: Config, m: Market, w: Weights, bar: nat, signal: int, s: Sim, n: nat)
    requires bar < |m.prices| && PricesOk(m.assets, m.prices[bar]) && n <= |m.assets|
    ensures CreateOrders(c, m, w, bar, signal, s, n).last == s.last
  {
    if n > 0 {
      CreateLast(c, m, w, bar, signal, s, n - 1);
    }
  }

  lemma BarLast(c: Config, m: Market, target: Option<Target>, start: Start, i: nat)
    requires MarketOk(m) && i < |m.prices| && Run(c, m, target, start, i + 1).Ok?
    ensures var s, t := Run(c, m, target, start, i), Run(c, m, target, start, i + 1).value;
            && s.Ok?
            && t.last == if (i == 0 && start.weights.Some?) || target.None? || !Due(c, m, s.value.last, i) then s.value.last else Some(i)
  {
    RunStep(c, m, target, start, i);
    hide Run, ExecuteOrders, QueueOrders, Due, Record, MarketOk;
    var s := Run(c, m, target, start, i).value;
    var account := ExecuteOrders(c, m.prices[i], i, s.account, s.pending).value;
    var t := Record(m, s.(account := account, pending := []), i);
    RecordLast(m, s.(account := account, pending := []), i);
    QueueLast(c, m, target, start, t, i);
  }

  lemma RecordLast(m: Market, s: Sim, i: nat)
    requires i < |m.prices|
    ensures Record(m, s, i).last == s.last
  {
  }

  lemma {:induction false} LastIsLast(c: Config, m: Market, target: Option<Target>, start: Start, n: nat)
    requires MarketOk(m) && n <= |m.prices| && Run(c, m, target, start, n).Ok?
    ensures LastBefore(c, m, target, start, n, Run(c, m, target, start, n).value.last)
  {
    hide Run, Due, MarketOk;
    if n == 0 {
      assert Run(c, m, target, start, 0) == Ok(Opening(c)) by {
        RunNone(c, m, target, start);
      }
    } else {
      BarLast(c, m, target, start, n - 1);
      LastIsLast(c, m, target, start, n - 1);
    }
  }

  lemma RunNone(c: Config, m: Market, target: Option<Target>, start: Start)
    requires MarketOk(m)
    ensures Run(c, m, target, start, 0) == Ok(Opening(c))
  {
  }

  lemma WholeDays(seconds: int, days: nat)
    ensures seconds / 86400 >= days <==> days * 86400 <= seconds
  {
  }

  /**
   The signal bars, exactly: a bar is one if and only if the week key changes
   after it and at least `intervalDays` whole days have passed since every earlier
   one; a start allocation takes the first bar's place.
   */
  lemma SignalBarsExactly(c: Config, m: Market, target: Option<Target>, start: Start, i: nat)
    requires MarketOk(m) && i < |m.prices| && Run(c, m, target, start, i + 1).Ok?
    ensures Signalled(c, m, target, start, i)
       <==> && target.Some? && WeekCloses(m, i) && !(i == 0 && start.weights.Some?)
            && forall j :: 0 <= j < i && Signalled(c, m, target, start, j) ==> c.intervalDays * 86400 <= m.time[i] - m.time[j]
  {
    hide Run, MarketOk, Due, Signalled, LastBefore;
    BarLast(c, m, target, start, i);
    LastIsLast(c, m, target, start, i);
    var last := Run(c, m, target, start, i).value.last;
    DueExactly(c, m, target, start, i, last);
    LastNotYet(c, m, target, start, i, last);
    assert Signalled(c, m, target, start, i) <==> Run(c, m, target, start, i + 1).value.last == Some(i) by {
      SignalledIs(c, m, target, start, i);
    }
  }

  lemma SignalledIs(c: Config, m: Market, target: Option<Target>, start: Start, i: nat)
    requires MarketOk(m) && i < |m.prices| && Run(c, m, target, start, i + 1).Ok?
    ensures Signalled(c, m, target, start, i) <==> Run(c, m, target, start, i + 1).value.last == Some(i)
  {
    hide Run;
  }

  lemma LastNotYet(c: Config, m: Market, target: Option<Target>, start: Start, i: nat, last: Option<nat>)
    requires MarketOk(m) && i < |m.prices| && LastBefore(c, m, target, start, i, last)
    ensures last != Some(i)
  {
  }

  lemma DueExactly(c: Config, m: Market, target: Option<Target>, start: Start, i: nat, last: Option<nat>)
    requires MarketOk(m) && i < |m.prices| && LastBefore(c, m, target, start, i, last)
    ensures |m.time| == |m.week| == |m.prices|
    ensures Due(c, m, last, i)
       <==> && WeekCloses(m, i)
            && forall j :: 0 <= j < i && Signalled(c, m, target, start, j) ==> c.intervalDays * 86400 <= m.time[i] - m.time[j]
  {
    hide Signalled, PricesOk;
    if last.Some? {
      WholeDays(m.time[i] - m.time[last.value], c.intervalDays);
      forall j | 0 <= j < i && Signalled(c, m, target, start, j)
        ensures m.time[j] <= m.time[last.value]
      {
      }
    }
  }

  /** With an interval of a week and weekly closes at least a week apart, every weekly close is a signal bar. */
  lemma EveryCloseSignals(c: Config, m: Market, target: Option<Target>, i: nat)
    requires MarketOk(m) && i < |m.prices| && Run(c, m, target, Start(None, None), i + 1).Ok? && c.intervalDays == 7
    requires forall j, k :: 0 <= j < k < |m.time| && WeekCloses(m, j) && WeekCloses(m, k) ==> 7 * 86400 <= m.time[k] - m.time[j]
    ensures Signalled(c, m, target, Start(None, None), i) <==> target.Some? && WeekCloses(m, i)
  {
    hide Run, MarketOk, Signalled;
    MarketPrices(m, i);
    SignalBarsExactly(c, m, target, Start(None, None), i);
    forall j | 0 <= j < i && Signalled(c, m, target, Start(None, None), j)
      ensures WeekCloses(m, j)
    {
      RunPrefix(c, m, target, Start(None, None), j + 1, i + 1);
      SignalBarsExactly(c, m, target, Start(None, None), j);
    }
  }

  lemma {:induction false} RunPrefix(c: Config, m: Market, target: Option<Target>, start: Start, n: nat, later: nat)
    requires MarketOk(m) && n <= later <= |m.prices| && Run(c, m, target, start, later).Ok?
    ensures Run(c, m, target, start, n).Ok?
  {
    if n < later {
      RunPrefix(c, m, target, start, n, later - 1);
    }
  }

  // ------------------------------------------------------------ accepted weights

  /** Sum of what the signal gives the price columns. */
  function GivenTotal(assets: seq<Symbol>, given: map<Name, Num>): real
    requires forall n :: n in given ==> given[n].Fin?
  {
    if assets == [] then 0.0
    else
      var n := Asset(assets[|assets| - 1]);
      GivenTotal(assets[..|assets| - 1], given) + (if n in given then given[n].v else 0.0)
  }

  lemma {:induction false} GivenIsRisky(assets: seq<Symbol>, given: map<Name, Num>, w: Weights)
    requires forall n :: n in given ==> given[n].Fin?
    requires w == map n | n in given :: given[n].v
    ensures GivenTotal(assets, given) == RiskyTotal(assets, w)
  {
    if assets != [] {
      GivenIsRisky(assets[..|assets| - 1], given, w);
    }
  }

  /**
   Which signals are accepted, exactly: every name is a column or CASH, every
   weight a finite number and not negative, the columns total at most one, and
   CASH, where given, is at most one and completes the total to one, each up to
   the tolerance.  The weights are then the numbers given.
   */
  lemma WeightsAcceptedExactly(c: Config, m: Market, signal: Signal)
    ensures var r := ExtractWeights(c, m, signal);
            && (r.Ok? <==>
                  && signal.Some?
                  && (forall n :: n in signal.value ==>
                        (n == Cash || n.symbol in m.assets) && signal.value[n].Fin? && 0.0 <= signal.value[n].v)
                  && var total := GivenTotal(m.assets, signal.value);
                     && total <= 1.0 + c.tolerance
                     && (Cash in signal.value ==>
                           && signal.value[Cash].v <= 1.0 + c.tolerance
                           && 1.0 - c.tolerance <= total + signal.value[Cash].v <= 1.0 + c.tolerance))
            && (r.Ok? ==> r.value == map n | n in signal.value :: signal.value[n].v)
  {
    if signal.Some? && forall n :: n in signal.value ==> Known(m, n) && signal.value[n].Fin? {
      var w := map n | n in signal.value :: signal.value[n].v;
      GivenIsRisky(m.assets, signal.value, w);
      hide RiskyTotal, GivenTotal;
      if n :| n in w && w[n] < 0.0 {
        assert n in signal.value && signal.value[n].v < 0.0;
      } else {
        forall n | n in signal.value
          ensures 0.0 <= signal.value[n].v
        {
          assert n in w && w[n] == signal.value[n].v;
        }
      }
    }
  }

  // -------------------------------------------------------------------- orders

  function QuantityOf(quantities: map<Symbol, real>, a: Symbol): real {
    if a in quantities then quantities[a] else 0.0
  }

  /** The listed assets' quantities at these closes. */
  function Worth(assets: seq<Symbol>, quantities: map<Symbol, real>, prices: map<Symbol, real>): real
    requires PricesOk(assets, prices)
  {
    if assets == [] then 0.0
    else
      var a := assets[|assets| - 1];
      Worth(assets[..|assets| - 1], quantities, prices) + QuantityOf(quantities, a) * prices[a]
  }

  /** What the weights want the asset to be worth; an asset without a weight should be worth nothing. */
  function Wanted(m: Market, account: Account, w: Weights, bar: nat, a: Symbol): real
    requires bar < |m.prices| && PricesOk(m.assets, m.prices[bar])
  {
    if Asset(a) in w then (account.cash + Worth(m.assets, account.quantities, m.prices[bar])) * w[Asset(a)] else 0.0
  }

  /** The asset is worth what is wanted, up to the tolerance's worth of it. */
  predicate Settled(c: Config, m: Market, account: Account, w: Weights, bar: nat, a: Symbol)
    requires bar < |m.prices| && PricesOk(m.assets, m.prices[bar]) && a in m.assets
  {
    var price := m.prices[bar][a];
    var wanted := Wanted(m, account, w, bar, a);
    wanted - c.tolerance * price <= QuantityOf(account.quantities, a) * price <= wanted + c.tolerance * price
  }

  /** Filled in full at the bar's close, the order makes the asset worth what is wanted. */
  ghost predicate OrderReaches(c: Config, m: Market, account: Account, w: Weights, bar: nat, signal: int, o: Order)
    requires bar < |m.prices| && PricesOk(m.assets, m.prices[bar])
  {
    && o.symbol in m.assets && o.bar == bar && o.signal == signal && c.tolerance < o.requested
    && o.weight == (if Asset(o.symbol) in w then w[Asset(o.symbol)] else 0.0)
    && (QuantityOf(account.quantities, o.symbol) + if o.side == Buy then o.requested else -o.requested) * m.prices[bar][o.symbol]
       == Wanted(m, account, w, bar, o.symbol)
  }

  predicate HasOrder(orders: seq<Order>, a: Symbol) {
    exists k :: 0 <= k < |orders| && orders[k].symbol == a
  }

  /** Exactly one order for each listed asset that is not settled, in column order, and none for the others. */
  ghost predicate OrdersReach(c: Config, m: Market, account: Account, w: Weights, bar: nat, signal: int, orders: seq<Order>, n: nat)
    requires bar < |m.prices| && PricesOk(m.assets, m.prices[bar]) && n <= |m.assets|
  {
    && (forall k :: 0 <= k < |orders| ==> OrderReaches(c, m, account, w, bar, signal, orders[k]))
    && (forall j, k :: 0 <= j < k < |orders| ==> orders[j].symbol != orders[k].symbol)
    && forall a :: HasOrder(orders, a) <==> a in m.assets[..n] && !Settled(c, m, account, w, bar, a)
  }

  lemma {:induction false} WorthIsValue(assets: seq<Symbol>, quantities: map<Symbol, real>, prices: map<Symbol, real>)
    requires PricesOk(assets, prices)
    ensures Worth(assets, quantities, prices) == Value(assets, quantities, prices)
  {
    if assets != [] {
      WorthIsValue(assets[..|assets| - 1], quantities, prices);
    }
  }

  lemma GapIs(c: Config, m: Market, account: Account, w: Weights, bar: nat, a: Symbol)
    requires bar < |m.prices| && PricesOk(m.assets, m.prices[bar]) && a in m.assets
    ensures Delta(Equity(m, account, m.prices[bar]), WeightOf(w, Asset(a)), m.prices[bar][a], Lookup(account.quantities, a))
         == Wanted(m, account, w, bar, a) / m.prices[bar][a] - QuantityOf(account.quantities, a)
  {
    WorthIsValue(m.assets, account.quantities, m.prices[bar]);
    var equity := account.cash + Worth(m.assets, account.quantities, m.prices[bar]);
    assert Equity(m, account, m.prices[bar]) == equity;
    hide Worth, Value;
    assert Times(equity, WeightOf(w, Asset(a))) == Wanted(m, account, w, bar, a) by {
      assert Times(equity, 0.0) == 0.0;
    }
  }

  lemma GapReaches(c: Config, m: Market, account: Account, w: Weights, bar: nat, a: Symbol)
    requires bar < |m.prices| && PricesOk(m.assets, m.prices[bar]) && a in m.assets
    ensures var gap := Delta(Equity(m, account, m.prices[bar]), WeightOf(w, Asset(a)), m.prices[bar][a], Lookup(account.quantities, a));
            && (QuantityOf(account.quantities, a) + gap) * m.prices[bar][a] == Wanted(m, account, w, bar, a)
            && (Abs(gap) <= c.tolerance <==> Settled(c, m, account, w, bar, a))
  {
    GapIs(c, m, account, w, bar, a);
    hide Wanted, QuantityOf, Equity, WeightOf, Delta;
    MoveReaches(Wanted(m, account, w, bar, a), m.prices[bar][a], QuantityOf(account.quantities, a),
                Delta(Equity(m, account, m.prices[bar]), WeightOf(w, Asset(a)), m.prices[bar][a], Lookup(account.quantities, a)), c.tolerance);
  }

  lemma CreateOneReachesWanted(c: Config, m: Market, w: Weights, bar: nat, signal: int, s: Sim, a: Symbol, n: nat)
    requires bar < |m.prices| && PricesOk(m.assets, m.prices[bar]) && n < |m.assets| && m.assets[n] == a && Distinct(m.assets)
    requires OrdersReach(c, m, s.account, w, bar, signal, s.pending, n)
    ensures var t := CreateOne(c, m, w, bar, signal, Equity(m, s.account, m.prices[bar]), s, a);
            && t.account == s.account && OrdersReach(c, m, s.account, w, bar, signal, t.pending, n + 1)
            && |s.pending| <= |t.pending| && t.pending[..|s.pending|] == s.pending
            && t.orders == s.orders + t.pending[|s.pending|..]
  {
    GapReaches(c, m, s.account, w, bar, a);
    var t := CreateOne(c, m, w, bar, signal, Equity(m, s.account, m.prices[bar]), s, a);
    assert a !in m.assets[..n] && m.assets[..n + 1] == m.assets[..n] + [a];
    hide Wanted, Equity, Settled, Delta, PricesOk;
    if Settled(c, m, s.account, w, bar, a) {
      assert t == s;
      assert t.pending[..|s.pending|] == s.pending && t.pending[|s.pending|..] == [];
    } else {
      var o := t.pending[|s.pending|];
      assert t.pending == s.pending + [o];
      assert OrderReaches(c, m, s.account, w, bar, signal, o);
      assert t.pending[|s.pending|..] == [o];
      assert !HasOrder(s.pending, a);
      OrderedMore(s.pending, o);
    }
  }

  lemma OrderedMore(orders: seq<Order>, o: Order)
    ensures forall a :: HasOrder(orders + [o], a) <==> HasOrder(orders, a) || a == o.symbol
  {
    forall a
      ensures HasOrder(orders + [o], a) <==> HasOrder(orders, a) || a == o.symbol
    {
      assert (orders + [o])[|orders|] == o;
      if k :| 0 <= k < |orders| && orders[k].symbol == a {
        assert (orders + [o])[k].symbol == a;
      }
    }
  }

  lemma {:induction false} CreateReaches(c: Config, m: Market, w: Weights, bar: nat, signal: int, s: Sim, n: nat)
    requires bar < |m.prices| && PricesOk(m.assets, m.prices[bar]) && n <= |m.assets| && Distinct(m.assets)
    ensures var t := CreateOrders(c, m, w, bar, signal, s, n);
            && t.account == s.account && OrdersReach(c, m, s.account, w, bar, signal, t.pending, n)
            && t.orders == s.orders + t.pending
  {
    hide CreateOne, OrdersReach, PricesOk, Equity;
    if n == 0 {
      NoOrdersReach(c, m, s.account, w, bar, signal);
    } else {
      CreateReaches(c, m, w, bar, signal, s, n - 1);
      var t := CreateOrders(c, m, w, bar, signal, s, n - 1);
      var u := CreateOrders(c, m, w, bar, signal, s, n);
      CreateOneReachesWanted(c, m, w, bar, signal, t, m.assets[n - 1], n - 1);
      assert u.pending == t.pending + u.pending[|t.pending|..];
    }
  }

  lemma NoOrdersReach(c: Config, m: Market, account: Account, w: Weights, bar: nat, signal: int)
    requires bar < |m.prices| && PricesOk(m.assets, m.prices[bar])
    ensures OrdersReach(c, m, account, w, bar, signal, [], 0)
  {
  }

  // ------------------------------------------------------------- a bar's decision

  /** The weights a bar acts on and the instant it records for them. */
  ghost predicate ActsOn(c: Config, m: Market, target: Option<Target>, start: Start, i: nat, signal: Signal, instant: int)
    requires MarketOk(m) && i < |m.prices|
  {
    if i == 0 && start.weights != None then signal == start.weights && instant == (if start.signal != None then start.signal.value else m.time[0])
    else target.Some? && Signalled(c, m, target, start, i) && signal == target.value(m, i) && instant == m.time[i]
  }

  /**
   What a bar decides, exactly: with a start allocation or on a signal bar, one
   order for each asset not worth its weight of cash and holdings at the close, of
   just the size that would make it so; otherwise nothing.
   */
  lemma BarDecidesExactly(c: Config, m: Market, target: Option<Target>, start: Start, i: nat)
    requires ConfigOk(c) && MarketOk(m) && i < |m.prices| && Run(c, m, target, start, i + 1).Ok?
    ensures var s, t := Run(c, m, target, start, i), Run(c, m, target, start, i + 1).value;
            && s.Ok? && t.orders == s.value.orders + t.pending
            && (forall signal: Signal, instant: int :: ActsOn(c, m, target, start, i, signal, instant) ==>
                  && signal.Some? && (forall n :: n in signal.value ==> signal.value[n].Fin?)
                  && OrdersReach(c, m, t.account, map n | n in signal.value :: signal.value[n].v, i, instant, t.pending, |m.assets|))
            && ((forall signal: Signal, instant: int :: !ActsOn(c, m, target, start, i, signal, instant)) ==> t.pending == [])
  {
    hide Run, MarketOk, Due, LastBefore, Signalled, QueueOrders, OrdersReach;
    MarketPrices(m, i);
    var marked := RunQueues(c, m, target, start, i);
    QueueDecidesExactly(c, m, target, start, marked, i);
    ActsWhenDue(c, m, target, start, i);
    hide ActsOn;
    if i == 0 && start.weights.Some? {
      assert ActsOn(c, m, target, start, i, start.weights, if start.signal.Some? then start.signal.value else m.time[i]);
    } else if target.Some? && Due(c, m, marked.last, i) {
      assert ActsOn(c, m, target, start, i, target.value(m, i), m.time[i]);
    }
  }

  /** The state a bar's decision is made in. */
  lemma RunQueues(c: Config, m: Market, target: Option<Target>, start: Start, i: nat) returns (marked: Sim)
    requires ConfigOk(c) && MarketOk(m) && i < |m.prices| && Run(c, m, target, start, i + 1).Ok?
    ensures var s := Run(c, m, target, start, i);
            s.Ok? && marked.orders == s.value.orders && marked.pending == [] && marked.last == s.value.last
    ensures QueueOrders(c, m, target, start, marked, i) == Run(c, m, target, start, i + 1)
  {
    RunSolvent(c, m, target, start, i);
    RunStep(c, m, target, start, i);
    hide Run, SimOk, Bar, MarketOk, QueueOrders, FillsEach, NoShorts;
    var s := Run(c, m, target, start, i).value;
    BarOk(c, m, target, start, s, i);
    MarkedFilled(c, m, s, i);
    hide Filled;
    MarkedKeeps(c, m, s, i);
    marked := Marked(c, m, s, i).value;
  }

  lemma MarkedKeeps(c: Config, m: Market, s: Sim, i: nat)
    requires MarketOk(m) && i < |m.prices| && Marked(c, m, s, i).Ok?
    ensures var t := Marked(c, m, s, i).value; t.orders == s.orders && t.pending == [] && t.last == s.last
  {
    hide ExecuteOrders, PositionRows;
  }

  /** A bar acts on its start allocation, or exactly when a signal is due. */
  lemma ActsWhenDue(c: Config, m: Market, target: Option<Target>, start: Start, i: nat)
    requires MarketOk(m) && i < |m.prices| && Run(c, m, target, start, i + 1).Ok?
    ensures |m.time| == |m.week| == |m.prices| && Run(c, m, target, start, i).Ok?
    ensures var starts := i == 0 && start.weights.Some?;
            var due := target.Some? && Due(c, m, Run(c, m, target, start, i).value.last, i);
            forall signal: Signal, instant: int ::
              ActsOn(c, m, target, start, i, signal, instant)
              <==> || (starts && signal == start.weights && instant == (if start.signal.Some? then start.signal.value else m.time[i]))
                   || (!starts && due && signal == target.value(m, i) && instant == m.time[i])
  {
    hide Run, MarketOk, Due, LastBefore, Signalled;
    MarketPrices(m, i);
    BarLast(c, m, target, start, i);
    LastIsLast(c, m, target, start, i);
    LastNotYet(c, m, target, start, i, Run(c, m, target, start, i).value.last);
    SignalledIs(c, m, target, start, i);
  }

  lemma QueueDecidesExactly(c: Config, m: Market, target: Option<Target>, start: Start, s: Sim, i: nat)
    requires MarketOk(m) && i < |m.prices| && s.pending == [] && QueueOrders(c, m, target, start, s, i).Ok?
    ensures |m.time| == |m.prices| && PricesOk(m.assets, m.prices[i])
    ensures var t := QueueOrders(c, m, target, start, s, i).value;
            var starts := i == 0 && start.weights.Some?;
            var instant := if starts then (if start.signal.Some? then start.signal.value else m.time[i]) else m.time[i];
            var due := target.Some? && Due(c, m, s.last, i);
            && t.account == s.account && t.orders == s.orders + t.pending
            && (!starts && !due ==> t.pending == [])
            && (starts || due ==>
                  var signal := if starts then start.weights else target.value(m, i);
                  && signal.Some? && (forall n :: n in signal.value ==> signal.value[n].Fin?)
                  && OrdersReach(c, m, s.account, map n | n in signal.value :: signal.value[n].v, i, instant, t.pending, |m.assets|))
  {
    MarketPrices(m, i);
    var starts := i == 0 && start.weights.Some?;
    var instant := if starts then (if start.signal.Some? then start.signal.value else m.time[i]) else m.time[i];
    assert Distinct(m.assets);
    hide ExtractWeights, CreateOrders, OrdersReach, Due, GivenTotal, MarketOk;
    if starts || (target.Some? && Due(c, m, s.last, i)) {
      var signal := if starts then start.weights else target.value(m, i);
      WeightsAcceptedExactly(c, m, signal);
      CreateReaches(c, m, ExtractWeights(c, m, signal).value, i, instant, s, |m.assets|);
    }
  }

  /** What a backtest configuration may be: any positive capital, rates from zero, a tolerance from zero, whole weeks. */
  lemma ConfigsExactly(c: Config)
    ensures ConfigOk(c)
       <==> && c.initialCash > 0.0 && c.feeRate >= 0.0 && c.feeRate < 1.0 && c.slippageRate >= 0.0 && c.slippageRate < 1.0
            && c.tolerance >= 0.0 && 1000000.0 * c.tolerance <= 1.0
            && 7 <= c.intervalDays && c.intervalDays == 7 * (c.intervalDays / 7)
  {
  }
}
