/** The target weights in terms of the ranking, the volatilities and the limits alone. */
module PortfolioRules {
  import opened Common
  import opened Numbers
  import opened Quantities
  import opened Backtest
  import opened Portfolio

  /** A volatility that can be weighted by. */
  predicate Weighable(vol: map<Symbol, Num>, a: Symbol) {
    a in vol && match vol[a] case NonFinite => false case Fin(v) => 0.0 < v
  }

  /** The first n weighable assets of the ranking. */
  function FirstWeighable(ranked: seq<Symbol>, vol: map<Symbol, Num>, n: nat): seq<Symbol> {
    if n == 0 || ranked == [] then []
    else if Weighable(vol, ranked[0]) then [ranked[0]] + FirstWeighable(ranked[1..], vol, n - 1)
    else FirstWeighable(ranked[1..], vol, n)
  }

  /** Sum of the inverse volatilities. */
  function InverseSum(keys: seq<Symbol>, vol: map<Symbol, Num>): real
    requires forall a :: a in keys ==> Weighable(vol, a)
  {
    if keys == [] then 0.0
    else
      var a := keys[|keys| - 1];
      assert Weighable(vol, a);
      InverseSum(keys[..|keys| - 1], vol) + 1.0 / vol[a].v
  }

  /** The asset's share of that sum, cut at its cap. */
  function CutShare(keys: seq<Symbol>, vol: map<Symbol, Num>, l: Portfolio.Limits, a: Symbol): real
    requires forall k :: k in keys ==> Weighable(vol, k)
    requires a in keys && InverseSum(keys, vol) > 0.0
  {
    var share := (1.0 / vol[a].v) / InverseSum(keys, vol);
    if a in l.caps && l.caps[a] < share then l.caps[a] else if share < 1.0 then share else 1.0
  }

  function AltSum(keys: seq<Symbol>, all: seq<Symbol>, vol: map<Symbol, Num>, l: Portfolio.Limits): real
    requires forall k :: k in all ==> Weighable(vol, k)
    requires InverseSum(all, vol) > 0.0 && forall k :: k in keys ==> k in all
  {
    if keys == [] then 0.0
    else
      var a := keys[|keys| - 1];
      AltSum(keys[..|keys| - 1], all, vol, l) + (if a in l.altcoins then CutShare(all, vol, l, a) else 0.0)
  }

  /** The final weight: altcoins that together exceed their limit are cut in proportion to exactly that limit. */
  ghost predicate WeightIs(keys: seq<Symbol>, vol: map<Symbol, Num>, l: Portfolio.Limits, a: Symbol, w: real)
    requires forall k :: k in keys ==> Weighable(vol, k)
    requires a in keys && InverseSum(keys, vol) > 0.0
  {
    var cut, alts := CutShare(keys, vol, l, a), AltSum(keys, keys, vol, l);
    if a in l.altcoins && l.maxAltcoin < alts then w * alts == cut * l.maxAltcoin else w == cut
  }

  // -------------------------------------------------------------------- choosing

  lemma {:induction false} SelectIs(ranked: seq<Symbol>, vol: map<Symbol, Num>, max: nat, selected: seq<Symbol>)
    requires |selected| <= max
    ensures Select(ranked, vol, max, selected) == selected + FirstWeighable(ranked, vol, max - |selected|)
    decreases |ranked|
  {
    if ranked != [] && |selected| < max {
      assert Usable(vol, ranked[0]) <==> Weighable(vol, ranked[0]);
      SelectIs(ranked[1..], vol, max, if Usable(vol, ranked[0]) then selected + [ranked[0]] else selected);
    }
  }

  /** The assets weighted are the first weighable ones of the ranking, as many as allowed, each once. */
  lemma ChosenExactly(ranked: seq<Symbol>, vol: map<Symbol, Num>, l: Portfolio.Limits)
    requires 0 <= l.maxAssets
    ensures var keys := Chosen(ranked, vol, l);
            Distinct(keys) && forall a :: a in keys <==> a in FirstWeighable(ranked, vol, l.maxAssets)
  {
    SelectIs(ranked, vol, l.maxAssets, []);
  }

  // ------------------------------------------------------------------ weighting

  lemma {:induction false} InverseSumIs(keys: seq<Symbol>, all: seq<Symbol>, vol: map<Symbol, Num>)
    requires (forall a :: a in all ==> Weighable(vol, a)) && forall a :: a in keys ==> a in all
    ensures Total(keys, Inverses(all, vol)) == InverseSum(keys, vol)
  {
    if keys != [] {
      InverseSumIs(keys[..|keys| - 1], all, vol);
    }
  }

  lemma CutIs(keys: seq<Symbol>, vol: map<Symbol, Num>, l: Portfolio.Limits, a: Symbol)
    requires (forall k :: k in keys ==> Weighable(vol, k)) && a in keys && InverseSum(keys, vol) > 0.0
    requires Total(keys, Inverses(keys, vol)) == InverseSum(keys, vol) && LimitsOk(l)
    ensures Lookup(Capped(keys, Inverses(keys, vol), l), a) == CutShare(keys, vol, l, a)
  {
  }

  lemma {:induction false} AltSumIs(keys: seq<Symbol>, all: seq<Symbol>, vol: map<Symbol, Num>, l: Portfolio.Limits)
    requires (forall k :: k in all ==> Weighable(vol, k)) && InverseSum(all, vol) > 0.0 && forall k :: k in keys ==> k in all
    requires Total(all, Inverses(all, vol)) == InverseSum(all, vol) && LimitsOk(l)
    ensures AltTotal(keys, Capped(all, Inverses(all, vol), l), l.altcoins) == AltSum(keys, all, vol, l)
  {
    hide Capped, CutShare;
    if keys != [] {
      AltSumIs(keys[..|keys| - 1], all, vol, l);
      CutIs(all, vol, l, keys[|keys| - 1]);
    }
  }

  lemma LimitedWeights(keys: seq<Symbol>, vol: map<Symbol, Num>, l: Portfolio.Limits)
    requires LimitsOk(l) && keys != [] && forall a :: a in keys ==> Weighable(vol, a) && Usable(vol, a)
    ensures 0.0 < Total(keys, Inverses(keys, vol)) && 0.0 < InverseSum(keys, vol)
    ensures var w := Limited(keys, Capped(keys, Inverses(keys, vol), l), l);
            (forall a :: a in w <==> a in keys) && forall a :: a in keys ==> WeightIs(keys, vol, l, a, w[a])
  {
    hide Capped, Limited, CutShare, Total, AltTotal, AltSum, InverseSum, Inverses;
    var inverse := Inverses(keys, vol);
    InversesPositive(keys, vol);
    TotalPositive(keys, inverse);
    InverseSumIs(keys, keys, vol);
    AltSumIs(keys, keys, vol, l);
    var cut := Capped(keys, inverse, l);
    CappedKeys(keys, inverse, l);
    forall a | a in keys
      ensures a in cut && cut[a] == CutShare(keys, vol, l, a)
    {
      CutIs(keys, vol, l, a);
    }
    LimitedIs(keys, cut, l);
    assert forall a :: a in Limited(keys, cut, l) <==> a in Limited(keys, cut, l).Keys;
  }

  /**
   Every weight, exactly: the first weighable assets of the ranking share in
   proportion to their inverse volatility, each is cut at its cap, altcoins over
   their common limit are scaled to exactly that limit, and the rest is cash.
   */
  lemma WeightsExactly(ranked: seq<Symbol>, vol: map<Symbol, Num>, l: Portfolio.Limits)
    requires LimitsOk(l)
    ensures var keys := Chosen(ranked, vol, l);
            var r := BuildTargetWeights(ranked, vol, l);
            && (forall a :: a in keys ==> Weighable(vol, a)) && (keys != [] ==> InverseSum(keys, vol) > 0.0)
            && r.Ok? && (forall a :: a in r.value.risky <==> a in keys)
            && (forall a :: a in keys ==> WeightIs(keys, vol, l, a, r.value.risky[a]))
            && r.value.cash == 1.0 - Total(keys, r.value.risky)
  {
    ConstraintsCompose(ranked, vol, l);
    var keys := Chosen(ranked, vol, l);
    assert forall a :: Usable(vol, a) <==> Weighable(vol, a);
    hide Chosen, Feasible, Limited, Capped, WeightIs, Total, InverseSum, Inverses;
    if keys != [] {
      LimitedWeights(keys, vol, l);
    }
  }

  lemma LimitedIs(keys: seq<Symbol>, cut: map<Symbol, real>, l: Portfolio.Limits)
    requires LimitsOk(l)
    ensures var total := AltTotal(keys, cut, l.altcoins);
            var w := Limited(keys, cut, l);
            && w.Keys == cut.Keys
            && forall a :: a in cut ==>
                 if a in l.altcoins && l.maxAltcoin < total then w[a] * total == cut[a] * l.maxAltcoin else w[a] == cut[a]
  {
    var total := AltTotal(keys, cut, l.altcoins);
    hide AltTotal;
    if l.maxAltcoin < total {
      DivCancel(l.maxAltcoin, total);
      forall a | a in cut && a in l.altcoins
        ensures Times(cut[a], l.maxAltcoin / total) * total == cut[a] * l.maxAltcoin
      {
        Reassociate(cut[a], l.maxAltcoin / total, total);
      }
    }
  }

  lemma Reassociate(a: real, b: real, c: real)
    ensures Times(a, b) * c == a * (b * c)
  {
  }

  /** The mapping handed on names every weighted asset, and CASH with the rest. */
  lemma SignalExactly(a: Allocation)
    ensures var signal := AsSignal(a);
            && Name.Cash in signal && signal[Name.Cash] == Fin(a.cash)
            && (forall s: Symbol :: Asset(s) in signal <==> s in a.risky)
            && forall s: Symbol :: s in a.risky ==> signal[Asset(s)] == Fin(a.risky[s])
  {
  }

  /** The limits a configuration may set include their extremes. */
  lemma ExtremeLimitsAllowed(a: Symbol, b: Symbol, altcoins: set<Symbol>)
    requires a != b
    ensures LimitsOk(Portfolio.Limits(0, map[a := 0.0, b := 1.0], altcoins, 0.0))
    ensures LimitsOk(Portfolio.Limits(1, map[], altcoins, 1.0))
  {
  }
}
