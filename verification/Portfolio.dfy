/** Capped inverse-volatility weights: `build_target_weights` of src/portfolio.py. */
module Portfolio {
  import opened Common
  import opened Numbers
  import opened Quantities
  import opened Backtest

  datatype Limits = Limits(maxAssets: int, caps: map<Symbol, real>, altcoins: set<Symbol>, maxAltcoin: real)

  /** What StrategyConfig validates of caps and limits. */
  predicate LimitsOk(l: Limits) {
    && 0 <= l.maxAssets && 0.0 <= l.maxAltcoin <= 1.0
    && forall a :: a in l.caps ==> 0.0 <= l.caps[a] <= 1.0
  }

  datatype Failure = NegativeMaxAssets | Leverage

  /** Risky weights and the explicit cash weight. */
  datatype Allocation = Allocation(risky: map<Symbol, real>, cash: real)

  predicate Usable(vol: map<Symbol, Num>, a: Symbol) {
    a in vol && vol[a].Fin? && 0.0 < vol[a].v
  }

  /** The ranking scan: usable assets in order, stopping at `max` of them. */
  function Select(ranked: seq<Symbol>, vol: map<Symbol, Num>, max: nat, selected: seq<Symbol>): seq<Symbol>
    decreases |ranked|
  {
    if ranked == [] || |selected| == max then selected
    else Select(ranked[1..], vol, max, if Usable(vol, ranked[0]) then selected + [ranked[0]] else selected)
  }

  /** The keys of a dictionary filled in this order. */
  function Keys(selected: seq<Symbol>): (r: seq<Symbol>)
    ensures Distinct(r) && |r| <= |selected|
    ensures forall a :: a in r <==> a in selected
  {
    if selected == [] then []
    else
      var rest := Keys(selected[..|selected| - 1]);
      var last := selected[|selected| - 1];
      if last in rest then rest else rest + [last]
  }

  function Total(keys: seq<Symbol>, w: map<Symbol, real>): real {
    if keys == [] then 0.0
    else Total(keys[..|keys| - 1], w) + Lookup(w, keys[|keys| - 1])
  }

  function AltTotal(keys: seq<Symbol>, w: map<Symbol, real>, altcoins: set<Symbol>): real {
    if keys == [] then 0.0
    else
      var last := keys[|keys| - 1];
      AltTotal(keys[..|keys| - 1], w, altcoins) + (if last in altcoins then Lookup(w, last) else 0.0)
  }

  function InverseOf(vol: map<Symbol, Num>, a: Symbol): real {
    if Usable(vol, a) then 1.0 / vol[a].v else 0.0
  }

  function Inverses(keys: seq<Symbol>, vol: map<Symbol, Num>): map<Symbol, real> {
    map a | a in keys :: InverseOf(vol, a)
  }

  function CapOf(l: Limits, a: Symbol): real {
    if a in l.caps then l.caps[a] else 1.0
  }

  /** Each asset's inverse-volatility share, cut at its cap. */
  function Capped(keys: seq<Symbol>, inverse: map<Symbol, real>, l: Limits): map<Symbol, real>
    requires Total(keys, inverse) != 0.0
  {
    map a | a in keys :: Min(Lookup(inverse, a) / Total(keys, inverse), CapOf(l, a))
  }

  function Rescaled(w: map<Symbol, real>, altcoins: set<Symbol>, scale: real): map<Symbol, real> {
    map a | a in w :: if a in altcoins then Times(w[a], scale) else w[a]
  }

  /** The aggregate altcoin limit. */
  function Limited(keys: seq<Symbol>, w: map<Symbol, real>, l: Limits): map<Symbol, real> {
    var total := AltTotal(keys, w, l.altcoins);
    if total > l.maxAltcoin && total != 0.0 then Rescaled(w, l.altcoins, l.maxAltcoin / total) else w
  }

  function Allocate(keys: seq<Symbol>, w: map<Symbol, real>): Result<Allocation, Failure> {
    var invested := Total(keys, w);
    if invested > 1.0 + 0.000000000001 then Err(Leverage) else Ok(Allocation(w, Max(0.0, 1.0 - invested)))
  }

  lemma {:induction false} SelectUsable(ranked: seq<Symbol>, vol: map<Symbol, Num>, max: nat, selected: seq<Symbol>)
    requires |selected| <= max && forall a :: a in selected ==> Usable(vol, a)
    ensures var r := Select(ranked, vol, max, selected);
            && |r| <= max && (forall a :: a in r ==> Usable(vol, a))
            && forall a :: a in r ==> a in selected || a in ranked
    decreases |ranked|
  {
    if ranked != [] && |selected| != max {
      SelectUsable(ranked[1..], vol, max, if Usable(vol, ranked[0]) then selected + [ranked[0]] else selected);
    }
  }

  lemma {:induction false} TotalPositive(keys: seq<Symbol>, w: map<Symbol, real>)
    requires forall a :: a in keys ==> 0.0 < Lookup(w, a)
    ensures 0.0 <= Total(keys, w) && (keys != [] ==> 0.0 < Total(keys, w))
  {
    if keys != [] {
      TotalPositive(keys[..|keys| - 1], w);
    }
  }

  lemma InversesPositive(keys: seq<Symbol>, vol: map<Symbol, Num>)
    requires forall a :: a in keys ==> Usable(vol, a)
    ensures forall a :: a in keys ==> 0.0 < Lookup(Inverses(keys, vol), a)
  {
    forall a | a in keys
      ensures 0.0 < InverseOf(vol, a)
    {
      InversePositive(vol[a].v);
    }
  }

  lemma InversePositive(x: real)
    requires 0.0 < x
    ensures 0.0 < 1.0 / x
  {
    DivNonneg(1.0, x);
    DivCancel(1.0, x);
  }

  /** The assets that get a weight. */
  function Chosen(ranked: seq<Symbol>, vol: map<Symbol, Num>, l: Limits): (keys: seq<Symbol>)
    requires 0 <= l.maxAssets
    ensures Distinct(keys) && |keys| <= l.maxAssets
    ensures forall a :: a in keys ==> Usable(vol, a) && a in ranked
  {
    SelectUsable(ranked, vol, l.maxAssets, []);
    Keys(Select(ranked, vol, l.maxAssets, []))
  }

  /** `build_target_weights`. */
  function BuildTargetWeights(ranked: seq<Symbol>, vol: map<Symbol, Num>, l: Limits): Result<Allocation, Failure> {
    if l.maxAssets < 0 then Err(NegativeMaxAssets)
    else
      var keys := Chosen(ranked, vol, l);
      if keys == [] then Ok(Allocation(map[], 1.0))
      else
        var inverse := Inverses(keys, vol);
        InversesPositive(keys, vol);
        TotalPositive(keys, inverse);
        Allocate(keys, Limited(keys, Capped(keys, inverse, l), l))
  }

  // ---------------------------------------------------------------- constraints

  /** Every constraint at once, for weights over exactly these keys. */
  ghost predicate Feasible(keys: seq<Symbol>, w: map<Symbol, real>, l: Limits) {
    && w.Keys == (set a | a in keys)
    && (forall a :: a in w ==> 0.0 <= w[a] <= CapOf(l, a))
    && AltTotal(keys, w, l.altcoins) <= l.maxAltcoin
    && Total(keys, w) <= 1.0
  }

  /** A sum of shares of a total is at most one. */
  lemma {:induction false} SharesSum(keys: seq<Symbol>, all: seq<Symbol>, inverse: map<Symbol, real>,
                                     w: map<Symbol, real>)
    requires 0.0 < Total(all, inverse) && forall a :: a in keys ==> Lookup(w, a) <= Lookup(inverse, a) / Total(all, inverse)
    ensures Total(keys, w) <= Total(keys, inverse) / Total(all, inverse)
  {
    if keys == [] {
      DivNonneg(0.0, Total(all, inverse));
    } else {
      var n := |keys| - 1;
      SharesSum(keys[..n], all, inverse, w);
      DivSum(Total(keys[..n], inverse), Lookup(inverse, keys[n]), Total(all, inverse));
    }
  }

  lemma DivSum(a: real, b: real, c: real)
    requires 0.0 < c
    ensures (a + b) / c == a / c + b / c
  {
  }

  lemma DivSelf(a: real)
    requires 0.0 < a
    ensures a / a == 1.0
  {
  }

  lemma {:induction false} TotalMonotone(keys: seq<Symbol>, v: map<Symbol, real>, w: map<Symbol, real>)
    requires forall a :: a in keys ==> Lookup(v, a) <= Lookup(w, a)
    ensures Total(keys, v) <= Total(keys, w)
  {
    if keys != [] {
      TotalMonotone(keys[..|keys| - 1], v, w);
    }
  }

  lemma {:induction false} AltTotalScales(keys: seq<Symbol>, w: map<Symbol, real>, altcoins: set<Symbol>, scale: real)
    requires forall a :: a in keys ==> a in w
    ensures AltTotal(keys, Rescaled(w, altcoins, scale), altcoins) == Times(AltTotal(keys, w, altcoins), scale)
  {
    if keys != [] {
      var n := |keys| - 1;
      AltTotalScales(keys[..n], w, altcoins, scale);
      assert Times(AltTotal(keys[..n], w, altcoins) + Lookup(w, keys[n]), scale)
          == Times(AltTotal(keys[..n], w, altcoins), scale) + Times(Lookup(w, keys[n]), scale);
    }
  }

  lemma CappedWithin(keys: seq<Symbol>, inverse: map<Symbol, real>, l: Limits)
    requires LimitsOk(l) && 0.0 < Total(keys, inverse) && forall a :: a in keys ==> 0.0 < Lookup(inverse, a)
    ensures var w := Capped(keys, inverse, l);
            && w.Keys == (set a | a in keys) && (forall a :: a in w ==> 0.0 <= w[a] <= CapOf(l, a))
            && Total(keys, w) <= 1.0
  {
    var w := Capped(keys, inverse, l);
    forall a | a in w
      ensures 0.0 <= w[a] <= CapOf(l, a)
    {
      DivNonneg(Lookup(inverse, a), Total(keys, inverse));
    }
    SharesSum(keys, keys, inverse, w);
    DivSelf(Total(keys, inverse));
  }

  lemma {:induction false} AltTotalNonneg(keys: seq<Symbol>, w: map<Symbol, real>, altcoins: set<Symbol>)
    requires forall a :: a in w ==> 0.0 <= w[a]
    ensures 0.0 <= AltTotal(keys, w, altcoins)
  {
    if keys != [] {
      AltTotalNonneg(keys[..|keys| - 1], w, altcoins);
    }
  }

  lemma ScaleWithin(limit: real, total: real)
    requires 0.0 <= limit < total
    ensures 0.0 <= limit / total <= 1.0 && Times(total, limit / total) == limit
  {
    DivNonneg(limit, total);
    DivMono(limit, total, total);
    DivSelf(total);
    DivCancel(limit, total);
  }

  lemma RescaledWithin(w: map<Symbol, real>, altcoins: set<Symbol>, scale: real)
    requires 0.0 <= scale <= 1.0 && forall a :: a in w ==> 0.0 <= w[a]
    ensures var v := Rescaled(w, altcoins, scale);
            v.Keys == w.Keys && forall a :: a in v ==> 0.0 <= v[a] <= w[a]
  {
    var v := Rescaled(w, altcoins, scale);
    forall a | a in v
      ensures 0.0 <= v[a] <= w[a]
    {
      TimesNonneg(w[a], scale);
      TimesMono(scale, 1.0, w[a]);
      assert Times(w[a], 1.0) == w[a];
    }
  }

  lemma LimitedFeasible(keys: seq<Symbol>, w: map<Symbol, real>, l: Limits)
    requires LimitsOk(l) && w.Keys == (set a | a in keys) && Total(keys, w) <= 1.0
    requires forall a :: a in w ==> 0.0 <= w[a] <= CapOf(l, a)
    ensures Feasible(keys, Limited(keys, w, l), l)
  {
    hide Times, CapOf, Total, AltTotal, Rescaled;
    var total := AltTotal(keys, w, l.altcoins);
    AltTotalNonneg(keys, w, l.altcoins);
    if total > l.maxAltcoin {
      var scale := l.maxAltcoin / total;
      ScaleWithin(l.maxAltcoin, total);
      AltTotalScales(keys, w, l.altcoins, scale);
      RescaledWithin(w, l.altcoins, scale);
      var v := Rescaled(w, l.altcoins, scale);
      assert forall a :: a in v.Keys <==> a in w.Keys;
      TotalMonotone(keys, v, w);
    }
  }

  /**
   The constraints compose: for every ranking, volatility table and limits the
   leverage error is unreachable, at most `maxAssets` are weighted, each weight is
   between zero and its cap, altcoins stay within their limit, and with cash the
   weights sum to exactly one.
   */
  lemma ConstraintsCompose(ranked: seq<Symbol>, vol: map<Symbol, Num>, l: Limits)
    requires LimitsOk(l)
    ensures var r := BuildTargetWeights(ranked, vol, l);
            var keys := Chosen(ranked, vol, l);
            && r.Ok? && Feasible(keys, r.value.risky, l) && |keys| <= l.maxAssets
            && 0.0 <= r.value.cash && Total(keys, r.value.risky) + r.value.cash == 1.0
  {
    var keys := Chosen(ranked, vol, l);
    if keys == [] {
      assert Feasible(keys, map[], l);
    } else {
      hide Chosen, Capped, Limited, Inverses, Feasible;
      var inverse := Inverses(keys, vol);
      InversesPositive(keys, vol);
      TotalPositive(keys, inverse);
      CappedWithin(keys, inverse, l);
      LimitedFeasible(keys, Capped(keys, inverse, l), l);
      FeasibleTotal(keys, Limited(keys, Capped(keys, inverse, l), l), l);
    }
  }

  lemma FeasibleTotal(keys: seq<Symbol>, w: map<Symbol, real>, l: Limits)
    requires Feasible(keys, w, l)
    ensures Total(keys, w) <= 1.0
  {
  }

  /** Each asset's plain inverse-volatility share. */
  function Shares(keys: seq<Symbol>, inverse: map<Symbol, real>): map<Symbol, real>
    requires Total(keys, inverse) != 0.0
  {
    map a | a in keys :: Lookup(inverse, a) / Total(keys, inverse)
  }

  /** Weights that are within every cap and the altcoin limit as they are. */
  predicate NothingBinds(keys: seq<Symbol>, w: map<Symbol, real>, l: Limits) {
    (forall a :: a in keys ==> Lookup(w, a) <= CapOf(l, a)) && AltTotal(keys, w, l.altcoins) <= l.maxAltcoin
  }

  /** The plain shares of the chosen assets. */
  function ChosenShares(ranked: seq<Symbol>, vol: map<Symbol, Num>, l: Limits): map<Symbol, real>
    requires 0 <= l.maxAssets && Chosen(ranked, vol, l) != []
  {
    var keys := Chosen(ranked, vol, l);
    InversesPositive(keys, vol);
    TotalPositive(keys, Inverses(keys, vol));
    Shares(keys, Inverses(keys, vol))
  }

  lemma SharesTotalOne(keys: seq<Symbol>, inverse: map<Symbol, real>)
    requires 0.0 < Total(keys, inverse)
    ensures Total(keys, Shares(keys, inverse)) == 1.0
  {
    SharesExact(keys, keys, inverse, Shares(keys, inverse));
    DivSelf(Total(keys, inverse));
  }

  lemma LimitedBelow(keys: seq<Symbol>, w: map<Symbol, real>, l: Limits)
    requires LimitsOk(l) && forall a :: a in w ==> 0.0 <= w[a]
    ensures Limited(keys, w, l).Keys == w.Keys && forall a :: a in w ==> Limited(keys, w, l)[a] <= w[a]
  {
    var total := AltTotal(keys, w, l.altcoins);
    if total > l.maxAltcoin {
      ScaleWithin(l.maxAltcoin, total);
      RescaledWithin(w, l.altcoins, l.maxAltcoin / total);
    }
  }

  lemma {:induction false} SameTotalSame(keys: seq<Symbol>, v: map<Symbol, real>, w: map<Symbol, real>)
    requires forall a :: a in keys ==> Lookup(v, a) <= Lookup(w, a)
    requires Total(keys, v) == Total(keys, w)
    ensures forall a :: a in keys ==> Lookup(v, a) == Lookup(w, a)
  {
    if keys != [] {
      var n := |keys| - 1;
      TotalMonotone(keys[..n], v, w);
      SameTotalSame(keys[..n], v, w);
      assert keys == keys[..n] + [keys[n]];
    }
  }

  lemma {:induction false} AltTotalSame(keys: seq<Symbol>, v: map<Symbol, real>, w: map<Symbol, real>, altcoins: set<Symbol>)
    requires forall a :: a in keys ==> Lookup(v, a) == Lookup(w, a)
    ensures AltTotal(keys, v, altcoins) == AltTotal(keys, w, altcoins)
  {
    if keys != [] {
      AltTotalSame(keys[..|keys| - 1], v, w, altcoins);
    }
  }

  /** The weights add up to one exactly when nothing binds, and then they are the plain shares. */
  lemma InvestedExactly(keys: seq<Symbol>, inverse: map<Symbol, real>, l: Limits)
    requires LimitsOk(l) && 0.0 < Total(keys, inverse) && forall a :: a in keys ==> 0.0 < Lookup(inverse, a)
    ensures var v := Limited(keys, Capped(keys, inverse, l), l);
            && (Total(keys, v) == 1.0 <==> NothingBinds(keys, Shares(keys, inverse), l))
            && (Total(keys, v) == 1.0 ==> v == Shares(keys, inverse))
  {
    var shares, w := Shares(keys, inverse), Capped(keys, inverse, l);
    var v := Limited(keys, w, l);
    hide Limited, AltTotal, Total, CapOf;
    SharesTotalOne(keys, inverse);
    CappedWithin(keys, inverse, l);
    LimitedBelow(keys, w, l);
    if Total(keys, v) == 1.0 {
      LimitedFeasible(keys, w, l);
      SameTotalSame(keys, v, shares);
      AltTotalSame(keys, v, shares, l.altcoins);
      assert forall a :: a in keys <==> a in v.Keys;
      assert v == shares;
    }
    if NothingBinds(keys, shares, l) {
      assert w == shares;
      LimitedSlack(keys, w, l);
    }
  }

  /**
   Cash is held exactly when some limit binds: nothing stays in cash if and only
   if every plain inverse-volatility share is within its cap and the altcoins'
   shares are within theirs, and then the weights are those shares.
   */
  lemma FullyInvestedExactly(ranked: seq<Symbol>, vol: map<Symbol, Num>, l: Limits)
    requires LimitsOk(l) && Chosen(ranked, vol, l) != []
    ensures var r := BuildTargetWeights(ranked, vol, l);
            var shares := ChosenShares(ranked, vol, l);
            && r.Ok? && (r.value.cash == 0.0 <==> NothingBinds(Chosen(ranked, vol, l), shares, l))
            && (r.value.cash == 0.0 ==> r.value.risky == shares)
  {
    ConstraintsCompose(ranked, vol, l);
    var keys := Chosen(ranked, vol, l);
    hide Chosen, Inverses, Limited, Capped, Shares, NothingBinds, Feasible, Total;
    InversesPositive(keys, vol);
    TotalPositive(keys, Inverses(keys, vol));
    InvestedExactly(keys, Inverses(keys, vol), l);
  }

  lemma LimitedSlack(keys: seq<Symbol>, w: map<Symbol, real>, l: Limits)
    requires AltTotal(keys, w, l.altcoins) <= l.maxAltcoin
    ensures Limited(keys, w, l) == w
  {
  }

  /** Where nothing binds, every risky weight times its volatility is the same and nothing stays in cash. */
  lemma UnconstrainedIsInverseVolatility(ranked: seq<Symbol>, vol: map<Symbol, Num>, l: Limits, a: Symbol, b: Symbol)
    requires LimitsOk(l) && a in Chosen(ranked, vol, l) && b in Chosen(ranked, vol, l)
    requires NothingBinds(Chosen(ranked, vol, l), ChosenShares(ranked, vol, l), l)
    ensures var r := BuildTargetWeights(ranked, vol, l);
            && r.Ok? && a in r.value.risky && b in r.value.risky && r.value.cash == 0.0
            && Times(r.value.risky[a], vol[a].v) == Times(r.value.risky[b], vol[b].v)
  {
    FullyInvestedExactly(ranked, vol, l);
    var keys := Chosen(ranked, vol, l);
    hide Chosen;
    InversesPositive(keys, vol);
    TotalPositive(keys, Inverses(keys, vol));
    CancelTwice(vol[a].v, Total(keys, Inverses(keys, vol)));
    CancelTwice(vol[b].v, Total(keys, Inverses(keys, vol)));
  }

  /**
   Caps are not redistributed: any two assets below their caps, neither of them an
   altcoin, keep the inverse-volatility proportion whatever happened to the others.
   */
  lemma UncappedKeepProportion(ranked: seq<Symbol>, vol: map<Symbol, Num>, l: Limits, a: Symbol, b: Symbol)
    requires LimitsOk(l) && a in Chosen(ranked, vol, l) && b in Chosen(ranked, vol, l) && a !in l.altcoins
    requires b !in l.altcoins
    ensures var r := BuildTargetWeights(ranked, vol, l);
            && r.Ok? && a in r.value.risky && b in r.value.risky
            && (r.value.risky[a] < CapOf(l, a) && r.value.risky[b] < CapOf(l, b)
                ==> Times(r.value.risky[a], vol[a].v) == Times(r.value.risky[b], vol[b].v))
  {
    ConstraintsCompose(ranked, vol, l);
    var keys := Chosen(ranked, vol, l);
    hide Chosen, Feasible;
    var inverse := Inverses(keys, vol);
    InversesPositive(keys, vol);
    TotalPositive(keys, inverse);
    var w := Capped(keys, inverse, l);
    var risky := BuildTargetWeights(ranked, vol, l).value.risky;
    assert risky == Limited(keys, w, l);
    assert risky[a] == w[a] && risky[b] == w[b];
    CancelTwice(vol[a].v, Total(keys, inverse));
    CancelTwice(vol[b].v, Total(keys, inverse));
  }

  lemma CancelTwice(v: real, total: real)
    requires 0.0 < v && 0.0 < total
    ensures Times((1.0 / v) / total, v) == 1.0 / total
  {
    DivCancel(1.0, v);
    var x := 1.0 / v;
    assert x * v == 1.0;
    assert (x / total) * v == (x * v) / total;
  }

  lemma {:induction false} SharesExact(keys: seq<Symbol>, all: seq<Symbol>, inverse: map<Symbol, real>,
                                       w: map<Symbol, real>)
    requires 0.0 < Total(all, inverse) && forall a :: a in keys ==> Lookup(w, a) == Lookup(inverse, a) / Total(all, inverse)
    ensures Total(keys, w) == Total(keys, inverse) / Total(all, inverse)
  {
    if keys == [] {
      DivCancel(0.0, Total(all, inverse));
    } else {
      var n := |keys| - 1;
      SharesExact(keys[..n], all, inverse, w);
      DivSum(Total(keys[..n], inverse), Lookup(inverse, keys[n]), Total(all, inverse));
    }
  }

  // --------------------------------------------- accepted by the backtester

  /** The returned dictionary, as the backtester receives it. */
  function AsSignal(a: Allocation): map<Name, Num> {
    map n | n in Names(a) :: Fin(WeightIn(a, n))
  }

  function Names(a: Allocation): set<Name> {
    (set s | s in a.risky :: Asset(s)) + {Cash}
  }

  function WeightIn(a: Allocation, n: Name): real {
    if n.Cash? then a.cash else Lookup(a.risky, n.symbol)
  }

  function AsWeights(a: Allocation): Weights {
    map n | n in Names(a) :: WeightIn(a, n)
  }

  function WithRisky(assets: seq<Symbol>, keys: seq<Symbol>, w: map<Symbol, real>): real {
    if assets == [] then 0.0
    else
      var a := assets[|assets| - 1];
      WithRisky(assets[..|assets| - 1], keys, w) + (if a in keys then Lookup(w, a) else 0.0)
  }

  /** The backtester's sum over its columns is the sum over the weighted assets. */
  lemma {:induction false} RiskyTotalIs(assets: seq<Symbol>, keys: seq<Symbol>, a: Allocation)
    requires a.risky.Keys == (set k | k in keys)
    ensures RiskyTotal(assets, AsWeights(a)) == WithRisky(assets, keys, a.risky)
  {
    if assets != [] {
      var n := |assets| - 1;
      RiskyTotalIs(assets[..n], keys, a);
      assert Asset(assets[n]) in Names(a) <==> assets[n] in a.risky.Keys;
    }
  }

  lemma {:induction false} WithOneMore(assets: seq<Symbol>, keys: seq<Symbol>, k: Symbol, w: map<Symbol, real>)
    requires Distinct(assets) && k !in keys
    ensures WithRisky(assets, keys + [k], w) == WithRisky(assets, keys, w) + (if k in assets then Lookup(w, k) else 0.0)
  {
    if assets != [] {
      var n := |assets| - 1;
      WithOneMore(assets[..n], keys, k, w);
      assert assets == assets[..n] + [assets[n]];
      assert assets[n] !in assets[..n];
    }
  }

  lemma {:induction false} WithNone(assets: seq<Symbol>, w: map<Symbol, real>)
    ensures WithRisky(assets, [], w) == 0.0
  {
    if assets != [] {
      WithNone(assets[..|assets| - 1], w);
    }
  }

  lemma {:induction false} WithRiskyTotal(assets: seq<Symbol>, keys: seq<Symbol>, w: map<Symbol, real>)
    requires Distinct(assets) && Distinct(keys) && forall k :: k in keys ==> k in assets
    ensures WithRisky(assets, keys, w) == Total(keys, w)
  {
    if keys == [] {
      WithNone(assets, w);
    } else {
      var n := |keys| - 1;
      WithRiskyTotal(assets, keys[..n], w);
      assert keys == keys[..n] + [keys[n]];
      assert keys[n] !in keys[..n];
      WithOneMore(assets, keys[..n], keys[n], w);
    }
  }

  /** The backtester's weight check accepts every feasible allocation of its own columns, even at zero tolerance. */
  lemma ExtractAccepts(c: Config, m: Market, keys: seq<Symbol>, a: Allocation, l: Limits)
    requires ConfigOk(c) && Distinct(m.assets) && Distinct(keys) && (forall k :: k in keys ==> k in m.assets)
    requires Feasible(keys, a.risky, l) && 0.0 <= a.cash && Total(keys, a.risky) + a.cash == 1.0
    ensures ExtractWeights(c, m, Some(AsSignal(a))) == Ok(AsWeights(a))
  {
    RiskyTotalIs(m.assets, keys, a);
    WithRiskyTotal(m.assets, keys, a.risky);
    TotalNonneg(keys, a.risky);
    hide RiskyTotal, WithRisky, Total, AltTotal, CapOf;
    var signal := AsSignal(a);
    assert forall s :: s in a.risky <==> s in a.risky.Keys;
    var w := map n | n in signal :: signal[n].v;
    assert w == AsWeights(a);
  }

  lemma {:induction false} TotalNonneg(keys: seq<Symbol>, w: map<Symbol, real>)
    requires forall a :: a in w ==> 0.0 <= w[a]
    ensures 0.0 <= Total(keys, w)
  {
    if keys != [] {
      TotalNonneg(keys[..|keys| - 1], w);
    }
  }

  /** End to end: whatever was built from assets of the table is accepted. */
  lemma BuiltIsAccepted(c: Config, m: Market, ranked: seq<Symbol>, vol: map<Symbol, Num>, l: Limits)
    requires ConfigOk(c) && MarketOk(m) && LimitsOk(l) && forall k :: k in ranked ==> k in m.assets
    ensures BuildTargetWeights(ranked, vol, l).Ok?
    ensures ExtractWeights(c, m, Some(AsSignal(BuildTargetWeights(ranked, vol, l).value))).Ok?
  {
    ConstraintsCompose(ranked, vol, l);
    hide BuildTargetWeights, Feasible, MarketOk;
    assert Distinct(m.assets) by {
      MarketDistinct(m);
    }
    ExtractAccepts(c, m, Chosen(ranked, vol, l), BuildTargetWeights(ranked, vol, l).value, l);
  }

  lemma MarketDistinct(m: Market)
    requires MarketOk(m)
    ensures Distinct(m.assets)
  {
  }

  // ------------------------------------------------------------------ as it runs

  /** `build_target_weights` as it runs: a scan with an early exit, then a dictionary rescaled in place. */
  method Build(ranked: seq<Symbol>, vol: map<Symbol, Num>, l: Limits) returns (r: Result<Allocation, Failure>)
    ensures r == BuildTargetWeights(ranked, vol, l)
    ensures LimitsOk(l) ==> r.Ok? && 0.0 <= r.value.cash && forall a :: a in r.value.risky ==> 0.0 <= r.value.risky[a] <= CapOf(l, a)
  {
    if l.maxAssets < 0 {
      return Err(NegativeMaxAssets);
    }
    if LimitsOk(l) {
      BuiltBounds(ranked, vol, l);
    }
    hide Limited, Capped, Chosen, CapOf, LimitsOk, Total, Inverses;
    var keys := SelectAssets(ranked, vol, l);
    if keys == [] {
      return Ok(Allocation(map[], 1.0));
    }
    var inverse := Inverses(keys, vol);
    InversesPositive(keys, vol);
    TotalPositive(keys, inverse);
    CappedKeys(keys, inverse, l);
    var weights := Capped(keys, inverse, l);
    weights := LimitAltcoins(keys, weights, l);
    var invested := Total(keys, weights);
    if invested > 1.0 + 0.000000000001 {
      return Err(Leverage);
    }
    r := Ok(Allocation(weights, Max(0.0, 1.0 - invested)));
  }

  lemma CappedKeys(keys: seq<Symbol>, inverse: map<Symbol, real>, l: Limits)
    requires Total(keys, inverse) != 0.0
    ensures Capped(keys, inverse, l).Keys == set a | a in keys
  {
  }

  lemma BuiltBounds(ranked: seq<Symbol>, vol: map<Symbol, Num>, l: Limits)
    requires LimitsOk(l)
    ensures var r := BuildTargetWeights(ranked, vol, l);
            r.Ok? && 0.0 <= r.value.cash && forall a :: a in r.value.risky ==> 0.0 <= r.value.risky[a] <= CapOf(l, a)
  {
    hide BuildTargetWeights, Feasible, CapOf;
    ConstraintsCompose(ranked, vol, l);
    FeasibleBounds(Chosen(ranked, vol, l), BuildTargetWeights(ranked, vol, l).value.risky, l);
  }

  lemma FeasibleBounds(keys: seq<Symbol>, w: map<Symbol, real>, l: Limits)
    requires Feasible(keys, w, l)
    ensures forall a :: a in w ==> 0.0 <= w[a] <= CapOf(l, a)
  {
  }

  /** The ranking loop with its early exit. */
  method SelectAssets(ranked: seq<Symbol>, vol: map<Symbol, Num>, l: Limits) returns (keys: seq<Symbol>)
    requires 0 <= l.maxAssets
    ensures keys == Chosen(ranked, vol, l)
  {
    var selected := [];
    var i := 0;
    assert ranked[0..] == ranked;
    while i < |ranked| && |selected| < l.maxAssets
      invariant 0 <= i <= |ranked| && |selected| <= l.maxAssets
      invariant Select(ranked, vol, l.maxAssets, []) == Select(ranked[i..], vol, l.maxAssets, selected)
    {
      assert ranked[i..][1..] == ranked[i + 1..];
      if Usable(vol, ranked[i]) {
        selected := selected + [ranked[i]];
      }
      i := i + 1;
    }
    keys := Keys(selected);
  }

  /** The aggregate altcoin limit, applied in place. */
  method LimitAltcoins(keys: seq<Symbol>, w: map<Symbol, real>, l: Limits) returns (r: map<Symbol, real>)
    requires Distinct(keys) && w.Keys == set a | a in keys
    ensures r == Limited(keys, w, l)
  {
    var total := AltTotal(keys, w, l.altcoins);
    r := w;
    if total > l.maxAltcoin && total != 0.0 {
      r := RescaleAltcoins(keys, w, l.altcoins, l.maxAltcoin / total);
    }
  }

  method RescaleAltcoins(keys: seq<Symbol>, w: map<Symbol, real>, altcoins: set<Symbol>,
                         scale: real) returns (r: map<Symbol, real>)
    requires Distinct(keys) && w.Keys == set a | a in keys
    ensures r == Rescaled(w, altcoins, scale)
  {
    r := w;
    for i := 0 to |keys|
      invariant r.Keys == w.Keys
      invariant forall a :: a in w ==> r[a] == if a in keys[..i] && a in altcoins then Times(w[a], scale) else w[a]
    {
      var a := keys[i];
      assert a in w.Keys && a !in keys[..i];
      if a in altcoins {
        r := r[a := Times(r[a], scale)];
      }
    }
    assert keys[..|keys|] == keys;
  }
}
