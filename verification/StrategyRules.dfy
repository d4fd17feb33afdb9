/**
 The signal in terms of the price table alone: when it stays in cash, which assets
 it ranks and in what order, and what it weights them by.
 */
module StrategyRules {
  import opened Common
  import opened Numbers
  import opened Quantities
  import opened Backtest
  import opened BacktestSafety
  import opened Portfolio
  import opened Strategy

  /** The close k bars before bar i. */
  function Close(m: Market, i: nat, a: Symbol, k: nat): real
    requires MarketOk(m) && k <= i < |m.prices| && a in m.assets
  {
    m.prices[i - k][a]
  }

  /** Sum of the closes of bar i and the bars before it, n in all. */
  function LastCloses(m: Market, i: nat, a: Symbol, n: nat): real
    requires MarketOk(m) && i < |m.prices| && n <= i + 1 && a in m.assets
  {
    if n == 0 then 0.0 else LastCloses(m, i, a, n - 1) + Close(m, i, a, n - 1)
  }

  /** Enough bars for every window. */
  predicate LongEnough(s: StrategyConfig, i: nat) {
    s.shortDays <= i && s.longDays <= i && s.skipDays <= i && s.trendDays <= i + 1 && s.volatilityDays <= i
  }

  /** The closes the volatility estimate sees: one more than its number of returns. */
  function Window(s: StrategyConfig, m: Market, i: nat, a: Symbol): seq<real>
    requires MarketOk(m) && i < |m.prices| && a in m.assets && s.volatilityDays <= i
  {
    seq(s.volatilityDays + 1, k requires 0 <= k <= s.volatilityDays => Close(m, i, a, s.volatilityDays - k))
  }

  /** The asset rose over the short span and over the long one up to the skip, and its volatility is a number. */
  predicate Rising(s: StrategyConfig, est: Estimator, m: Market, i: nat, a: Symbol)
    requires MarketOk(m) && i < |m.prices| && StrategyOk(s) && LongEnough(s, i) && a in m.assets
  {
    && Close(m, i, a, s.shortDays) < Close(m, i, a, 0)
    && Close(m, i, a, s.longDays) < Close(m, i, a, s.skipDays)
    && est(Window(s, m, i, a)).Fin?
  }

  /** How far it rose over the long span, as a ratio. */
  function Rise(s: StrategyConfig, m: Market, i: nat, a: Symbol): real
    requires MarketOk(m) && i < |m.prices| && StrategyOk(s) && LongEnough(s, i) && a in m.assets
  {
    CloseIsPositive(m, i, a, s.longDays);
    Close(m, i, a, s.skipDays) / Close(m, i, a, s.longDays)
  }

  lemma CloseIsPositive(m: Market, i: nat, a: Symbol, k: nat)
    requires MarketOk(m) && k <= i < |m.prices| && a in m.assets
    ensures 0.0 < Close(m, i, a, k)
  {
  }

  /** a is ranked ahead of b: it rose further, or as far and has the smaller name. */
  predicate Ahead(s: StrategyConfig, m: Market, i: nat, a: Symbol, b: Symbol)
    requires MarketOk(m) && i < |m.prices| && StrategyOk(s) && LongEnough(s, i) && a in m.assets && b in m.assets
  {
    Rise(s, m, i, b) < Rise(s, m, i, a) || (Rise(s, m, i, a) == Rise(s, m, i, b) && a <= b)
  }

  /** BTC closes above the average of its last trendDays closes, multiplied out. */
  predicate TrendUp(s: StrategyConfig, m: Market, i: nat)
    requires MarketOk(m) && i < |m.prices| && LongEnough(s, i) && s.btc in m.assets
  {
    LastCloses(m, i, s.btc, s.trendDays) < s.trendDays as real * Close(m, i, s.btc, 0)
  }

  // ------------------------------------------------------------------ the parts

  lemma BackIsClose(m: Market, i: nat, a: Symbol, k: nat)
    requires MarketOk(m) && k <= i < |m.prices| && a in m.assets
    ensures Back(Strategy.History(m, i, a), k) == Close(m, i, a, k)
  {
  }

  lemma {:induction false} SumIsLast(m: Market, i: nat, a: Symbol, n: nat)
    requires MarketOk(m) && i < |m.prices| && n <= i + 1 && a in m.assets
    ensures Sum(Strategy.History(m, i, a)[i + 1 - n..]) == LastCloses(m, i, a, n)
  {
    var h := Strategy.History(m, i, a);
    if n > 0 {
      SumIsLast(m, i, a, n - 1);
      assert h[i + 1 - n..] == [h[i + 1 - n]] + h[i + 1 - (n - 1)..];
      SumFront(h[i + 1 - n], h[i + 1 - (n - 1)..]);
    }
  }

  lemma {:induction false} SumFront(x: real, s: seq<real>)
    ensures Sum([x] + s) == x + Sum(s)
  {
    var t := [x] + s;
    if s == [] {
      assert t[..0] == [];
    } else {
      SumFront(x, s[..|s| - 1]);
      assert t[..|t| - 1] == [x] + s[..|s| - 1];
    }
  }

  lemma RatioAbove(a: real, b: real)
    requires 0.0 < a && 0.0 < b
    ensures 0.0 < a / b - 1.0 <==> b < a
  {
    DivCancel(a, b);
    if 1.0 < a / b {
      MulStrict(1.0, a / b, b);
    } else {
      MulMono(a / b, 1.0, b);
    }
  }

  lemma MeanBelow(sum: real, days: nat, last: real)
    requires 0 < days
    ensures sum / (days as real) < last <==> sum < days as real * last
  {
    var d := days as real;
    DivCancel(sum, d);
    if sum / d < last {
      MulStrict(sum / d, last, d);
    } else {
      MulMono(last, sum / d, d);
    }
  }

  lemma TrendIs(s: StrategyConfig, m: Market, i: nat)
    requires MarketOk(m) && i < |m.prices| && StrategyOk(s) && LongEnough(s, i) && s.btc in m.assets
    ensures Enough(s, i + 1) && (AboveTrend(s, m, i) <==> TrendUp(s, m, i))
  {
    hide MarketOk;
    SumIsLast(m, i, s.btc, s.trendDays);
    BackIsClose(m, i, s.btc, 0);
    MeanBelow(LastCloses(m, i, s.btc, s.trendDays), s.trendDays, Close(m, i, s.btc, 0));
  }

  lemma WindowIs(s: StrategyConfig, m: Market, i: nat, a: Symbol)
    requires MarketOk(m) && i < |m.prices| && a in m.assets && s.volatilityDays <= i
    ensures Strategy.History(m, i, a)[i - s.volatilityDays..] == Window(s, m, i, a)
  {
    var tail, window := Strategy.History(m, i, a)[i - s.volatilityDays..], Window(s, m, i, a);
    assert |tail| == |window|;
    forall k | 0 <= k < |tail|
      ensures tail[k] == window[k]
    {
      var j := i - s.volatilityDays + k;
      assert tail[k] == Strategy.History(m, i, a)[j] == m.prices[j][a];
      assert window[k] == Close(m, i, a, s.volatilityDays - k);
    }
  }

  lemma EligibleIs(s: StrategyConfig, est: Estimator, m: Market, i: nat, a: Symbol)
    requires MarketOk(m) && i < |m.prices| && StrategyOk(s) && LongEnough(s, i) && a in m.assets
    ensures Enough(s, i + 1)
    ensures Eligible(s, est, m, i, a) <==> Rising(s, est, m, i, a)
    ensures Lookup(MomentumKey(s, m, i), a) == Rise(s, m, i, a) - 1.0
    ensures Volatility(s, est, m, i, a) == FlooredVolatility(s, est, m, i, a)
  {
    BackIsClose(m, i, a, 0);
    BackIsClose(m, i, a, s.shortDays);
    BackIsClose(m, i, a, s.skipDays);
    BackIsClose(m, i, a, s.longDays);
    CloseIsPositive(m, i, a, 0);
    CloseIsPositive(m, i, a, s.shortDays);
    CloseIsPositive(m, i, a, s.skipDays);
    CloseIsPositive(m, i, a, s.longDays);
    WindowIs(s, m, i, a);
    hide MarketOk, Close, Strategy.History, Back;
    RatioAbove(Close(m, i, a, 0), Close(m, i, a, s.shortDays));
    RatioAbove(Close(m, i, a, s.skipDays), Close(m, i, a, s.longDays));
  }

  /** The estimate over the window, never below one part in a trillion. */
  function FlooredVolatility(s: StrategyConfig, est: Estimator, m: Market, i: nat, a: Symbol): Num
    requires MarketOk(m) && i < |m.prices| && a in m.assets && s.volatilityDays <= i
  {
    match est(Window(s, m, i, a))
    case NonFinite => NonFinite
    case Fin(v) => if v < 0.000000000001 then Fin(0.000000000001) else Fin(v)
  }

  // ---------------------------------------------------------------- the signal

  /** The ranking in terms of closes: rising assets only, the furthest risen first, none left out that is ahead of one taken. */
  ghost predicate RanksRising(s: StrategyConfig, est: Estimator, m: Market, i: nat, ranked: seq<Symbol>)
    requires MarketOk(m) && i < |m.prices| && StrategyOk(s) && LongEnough(s, i)
  {
    && |ranked| <= s.limits.maxAssets
    && (forall k :: 0 <= k < |ranked| ==> ranked[k] in m.assets && Rising(s, est, m, i, ranked[k]))
    && (forall j, k :: 0 <= j < k < |ranked| ==> ranked[j] in m.assets && ranked[k] in m.assets && Ahead(s, m, i, ranked[j], ranked[k]))
    && forall b :: b in m.assets && b !in ranked && Rising(s, est, m, i, b) ==>
         |ranked| == s.limits.maxAssets && forall k :: 0 <= k < |ranked| ==> ranked[k] in m.assets && Ahead(s, m, i, ranked[k], b)
  }

  lemma KeysAgree(s: StrategyConfig, est: Estimator, m: Market, i: nat, a: Symbol, b: Symbol)
    requires MarketOk(m) && i < |m.prices| && StrategyOk(s) && LongEnough(s, i) && a in m.assets && b in m.assets
    ensures Enough(s, i + 1) && (Before(MomentumKey(s, m, i), a, b) <==> Ahead(s, m, i, a, b))
    ensures Eligible(s, est, m, i, a) <==> Rising(s, est, m, i, a)
  {
    hide MarketOk, StrategyOk, LongEnough, Rising, Eligible, MomentumKey, Rise;
    EligibleIs(s, est, m, i, a);
    EligibleIs(s, est, m, i, b);
  }

  lemma RankedIs(s: StrategyConfig, est: Estimator, m: Market, i: nat)
    requires MarketOk(m) && i < |m.prices| && StrategyOk(s) && LongEnough(s, i)
    ensures Enough(s, i + 1) && RanksRising(s, est, m, i, Ranked(s, est, m, i))
  {
    hide MarketOk, StrategyOk, LongEnough, Rising, Eligible, MomentumKey, Ranked, Rise, Before, Ahead, Enough;
    EnoughIs(s, i);
    RankedAreBest(s, est, m, i);
    forall a, b | a in m.assets && b in m.assets
      ensures Before(MomentumKey(s, m, i), a, b) <==> Ahead(s, m, i, a, b)
      ensures Eligible(s, est, m, i, a) <==> Rising(s, est, m, i, a)
    {
      KeysAgree(s, est, m, i, a, b);
    }
    var key, ranked := MomentumKey(s, m, i), Ranked(s, est, m, i);
    forall j, k | 0 <= j < k < |ranked|
      ensures ranked[j] in m.assets && ranked[k] in m.assets && Ahead(s, m, i, ranked[j], ranked[k])
    {
      assert Before(key, ranked[j], ranked[k]);
    }
  }

  lemma EnoughIs(s: StrategyConfig, i: nat)
    requires StrategyOk(s)
    ensures Enough(s, i + 1) <==> LongEnough(s, i)
  {
  }

  /**
   The whole signal from the price table: it is given exactly when every window is
   full and BTC is a column; below the trend it ranks nothing and is all cash;
   above it ranks the rising assets by how far they rose, and weights them by the
   volatility of their last closes.
   */
  lemma SignalExactly(s: StrategyConfig, est: Estimator, m: Market, i: nat)
    requires MarketOk(m) && i < |m.prices| && StrategyOk(s)
    ensures var r := GenerateSignal(s, est, m, i);
            && (r.Ok? <==> LongEnough(s, i) && s.btc in m.assets)
            && (r == Err(NotEnoughHistory) <==> !LongEnough(s, i))
            && (r == Err(MissingBtc) <==> LongEnough(s, i) && s.btc !in m.assets)
            && (r.Ok? ==>
                  && (r.value.aboveTrend <==> TrendUp(s, m, i))
                  && (if TrendUp(s, m, i) then RanksRising(s, est, m, i, r.value.ranked)
                      else r.value.ranked == [] && r.value.weights == Allocation(map[], 1.0))
                  && BuildTargetWeights(r.value.ranked, map a | a in m.assets :: FlooredVolatility(s, est, m, i, a), s.limits)
                     == Ok(r.value.weights))
  {
    EnoughIs(s, i);
    assert LimitsOk(s.limits) && 0 < s.limits.maxAssets;
    if LongEnough(s, i) && s.btc in m.assets {
      TrendIs(s, m, i);
      RankedIs(s, est, m, i);
      forall a | a in m.assets
        ensures Volatility(s, est, m, i, a) == FlooredVolatility(s, est, m, i, a)
      {
        EligibleIs(s, est, m, i, a);
      }
      hide MarketOk, Enough, StrategyOk, LongEnough, AboveTrend, TrendUp, Ranked, RanksRising, Volatility, FlooredVolatility, BuildTargetWeights;
      assert Volatilities(s, est, m, i) == map a | a in m.assets :: FlooredVolatility(s, est, m, i, a);
      var ranked := if AboveTrend(s, m, i) then Ranked(s, est, m, i) else [];
      ConstraintsCompose(ranked, Volatilities(s, est, m, i), s.limits);
      NothingRanked(Volatilities(s, est, m, i), s.limits);
    }
  }

  lemma NothingRanked(vol: map<Symbol, Num>, l: Portfolio.Limits)
    requires LimitsOk(l)
    ensures BuildTargetWeights([], vol, l) == Ok(Allocation(map[], 1.0))
  {
  }

  /** The shortest spans a configuration may set. */
  lemma ShortestSpansAllowed(l: Portfolio.Limits, btc: Symbol)
    requires LimitsOk(l) && 1 <= l.maxAssets
    ensures StrategyOk(StrategyConfig(1, 1, 0, 1, 2, l, btc))
    ensures forall s: StrategyConfig :: StrategyOk(s) ==> s.skipDays < s.longDays && 1 <= s.shortDays && 1 <= s.trendDays && 2 <= s.volatilityDays
  {
  }
}
