/**
 The momentum signal of src/strategy.py over a price table: ratios at indexed
 endpoints, a moving-average regime filter, ranking and portfolio construction.
 The volatility estimator is a parameter that sees only the window's closes.
 */
module Strategy {
  import opened Common
  import opened Numbers
  import opened Quantities
  import opened Backtest
  import opened BacktestSafety
  import opened Portfolio

  datatype StrategyConfig = StrategyConfig(
    shortDays: nat, longDays: nat, skipDays: nat, trendDays: nat, volatilityDays: nat, limits: Portfolio.Limits, btc: Symbol)

  predicate StrategyOk(s: StrategyConfig) {
    && 0 < s.shortDays && 0 < s.longDays && 0 < s.trendDays && 2 <= s.volatilityDays && s.skipDays < s.longDays
    && 0 < s.limits.maxAssets && LimitsOk(s.limits)
  }

  /** Annualised standard deviation of the log returns between consecutive closes. */
  type Estimator = seq<real> -> Num

  datatype SignalError = NotEnoughHistory | MissingBtc | Refused(failure: Portfolio.Failure)

  datatype StrategySignal = StrategySignal(ranked: seq<Symbol>, weights: Allocation, aboveTrend: bool)

  function MaxNat(a: nat, b: nat): nat {
    if a < b then b else a
  }

  function RequiredObservations(s: StrategyConfig): nat
    requires StrategyOk(s)
  {
    MaxNat(MaxNat(MaxNat(s.shortDays, s.longDays), MaxNat(s.skipDays, s.trendDays - 1)), s.volatilityDays) + 1
  }

  /** Closes of one asset at or before bar i. */
  function History(m: Market, i: nat, a: Symbol): (h: seq<real>)
    requires MarketOk(m) && i < |m.prices| && a in m.assets
    ensures |h| == i + 1 && forall k :: 0 <= k < |h| ==> 0.0 < h[k]
  {
    seq(i + 1, k requires 0 <= k <= i => m.prices[k][a])
  }

  /** `P[t - k]`. */
  function Back(h: seq<real>, k: nat): real
    requires k < |h|
  {
    h[|h| - 1 - k]
  }

  function Momentum(h: seq<real>, from: nat, to: nat): real
    requires from < |h| && to < |h| && forall k :: 0 <= k < |h| ==> 0.0 < h[k]
  {
    Back(h, to) / Back(h, from) - 1.0
  }

  function Sum(h: seq<real>): real {
    if h == [] then 0.0 else Sum(h[..|h| - 1]) + h[|h| - 1]
  }

  function Mean(h: seq<real>, days: nat): real
    requires 0 < days <= |h|
  {
    Sum(h[|h| - days..]) / (days as real)
  }

  /** The estimate, clipped from below. */
  function Clipped(x: Num): Num {
    if x.Fin? then Fin(Max(x.v, 0.000000000001)) else x
  }

  predicate Enough(s: StrategyConfig, n: nat)
    requires StrategyOk(s)
  {
    RequiredObservations(s) <= n
  }

  /** Exactly the observations that every window and every indexed endpoint needs. */
  lemma RequiredExactly(s: StrategyConfig, n: nat)
    requires StrategyOk(s)
    ensures Enough(s, n) <==>
              && s.shortDays < n && s.longDays < n && s.skipDays < n && s.trendDays <= n && s.volatilityDays + 1 <= n
  {
  }

  function ShortMomentum(s: StrategyConfig, m: Market, i: nat, a: Symbol): real
    requires MarketOk(m) && i < |m.prices| && a in m.assets && StrategyOk(s) && Enough(s, i + 1)
  {
    Momentum(History(m, i, a), s.shortDays, 0)
  }

  /** `P[t - skip] / P[t - long] - 1`. */
  function LongMomentum(s: StrategyConfig, m: Market, i: nat, a: Symbol): real
    requires MarketOk(m) && i < |m.prices| && a in m.assets && StrategyOk(s) && Enough(s, i + 1)
  {
    Momentum(History(m, i, a), s.longDays, s.skipDays)
  }

  function Volatility(s: StrategyConfig, est: Estimator, m: Market, i: nat, a: Symbol): Num
    requires MarketOk(m) && i < |m.prices| && a in m.assets && StrategyOk(s) && Enough(s, i + 1)
  {
    Clipped(est(History(m, i, a)[i - s.volatilityDays..]))
  }

  predicate Eligible(s: StrategyConfig, est: Estimator, m: Market, i: nat, a: Symbol)
    requires MarketOk(m) && i < |m.prices| && a in m.assets && StrategyOk(s) && Enough(s, i + 1)
  {
    && 0.0 < ShortMomentum(s, m, i, a) && 0.0 < LongMomentum(s, m, i, a)
    && Volatility(s, est, m, i, a).Fin? && 0.0 < Volatility(s, est, m, i, a).v
  }

  /** Eligible columns, in column order. */
  function EligibleAssets(s: StrategyConfig, est: Estimator, m: Market, i: nat, n: nat): (r: seq<Symbol>)
    requires MarketOk(m) && i < |m.prices| && StrategyOk(s) && Enough(s, i + 1) && n <= |m.assets|
    ensures forall a :: a in r <==> a in m.assets[..n] && Eligible(s, est, m, i, a)
    ensures Distinct(r)
  {
    if n == 0 then []
    else
      var rest := EligibleAssets(s, est, m, i, n - 1);
      var a := m.assets[n - 1];
      assert m.assets[..n] == m.assets[..n - 1] + [a];
      assert a !in m.assets[..n - 1];
      if Eligible(s, est, m, i, a) then rest + [a] else rest
  }

  // ------------------------------------------------------------------- ranking

  /** The sort key `(-momentum, asset)`. */
  predicate Before(key: map<Symbol, real>, a: Symbol, b: Symbol) {
    Lookup(key, a) > Lookup(key, b) || (Lookup(key, a) == Lookup(key, b) && a <= b)
  }

  predicate Sorted(key: map<Symbol, real>, s: seq<Symbol>) {
    forall i, j :: 0 <= i < j < |s| ==> Before(key, s[i], s[j])
  }

  function Insert(key: map<Symbol, real>, s: seq<Symbol>, a: Symbol): seq<Symbol> {
    if s == [] then [a]
    else if Before(key, s[|s| - 1], a) then s + [a]
    else Insert(key, s[..|s| - 1], a) + [s[|s| - 1]]
  }

  function Sort(key: map<Symbol, real>, s: seq<Symbol>): seq<Symbol> {
    if s == [] then [] else Insert(key, Sort(key, s[..|s| - 1]), s[|s| - 1])
  }

  lemma BeforeTotal(key: map<Symbol, real>, a: Symbol, b: Symbol, d: Symbol)
    ensures Before(key, a, b) || Before(key, b, a)
    ensures Before(key, a, b) && Before(key, b, d) ==> Before(key, a, d)
  {
  }

  lemma {:induction false} InsertMembers(key: map<Symbol, real>, s: seq<Symbol>, a: Symbol)
    ensures multiset(Insert(key, s, a)) == multiset(s) + multiset{a}
  {
    hide Before;
    if s != [] && !Before(key, s[|s| - 1], a) {
      var n := |s| - 1;
      InsertMembers(key, s[..n], a);
      assert s == s[..n] + [s[n]];
    }
  }

  lemma {:induction false} InsertSorts(key: map<Symbol, real>, s: seq<Symbol>, a: Symbol)
    requires Sorted(key, s)
    ensures Sorted(key, Insert(key, s, a))
  {
    hide Before;
    if s == [] {
    } else if Before(key, s[|s| - 1], a) {
      forall i | 0 <= i < |s|
        ensures Before(key, s[i], a)
      {
        BeforeTotal(key, s[i], s[|s| - 1], a);
      }
    } else {
      var n := |s| - 1;
      InsertSorts(key, s[..n], a);
      var r := Insert(key, s[..n], a);
      InsertMembers(key, s[..n], a);
      forall i | 0 <= i < |r|
        ensures Before(key, r[i], s[n])
      {
        assert r[i] in multiset(r);
        if r[i] != a {
          assert r[i] in s[..n];
        } else {
          BeforeTotal(key, a, s[n], a);
        }
      }
    }
  }

  lemma {:induction false} SortSorts(key: map<Symbol, real>, s: seq<Symbol>)
    ensures Sorted(key, Sort(key, s)) && multiset(Sort(key, s)) == multiset(s)
  {
    if s != [] {
      SortSorts(key, s[..|s| - 1]);
      InsertSorts(key, Sort(key, s[..|s| - 1]), s[|s| - 1]);
      InsertMembers(key, Sort(key, s[..|s| - 1]), s[|s| - 1]);
      assert s == s[..|s| - 1] + [s[|s| - 1]];
    }
  }

  function Take(s: seq<Symbol>, n: nat): seq<Symbol> {
    if n < |s| then s[..n] else s
  }

  /** The assets the signal ranks, best first. */
  function Ranked(s: StrategyConfig, est: Estimator, m: Market, i: nat): seq<Symbol>
    requires MarketOk(m) && i < |m.prices| && StrategyOk(s) && Enough(s, i + 1)
  {
    Take(Sort(MomentumKey(s, m, i), EligibleAssets(s, est, m, i, |m.assets|)), s.limits.maxAssets)
  }

  function MomentumKey(s: StrategyConfig, m: Market, i: nat): map<Symbol, real>
    requires MarketOk(m) && i < |m.prices| && StrategyOk(s) && Enough(s, i + 1)
  {
    map a | a in m.assets :: LongMomentum(s, m, i, a)
  }

  /** The ranking takes the best eligible assets and no others, all different, as many as allowed. */
  lemma RankedAreBest(s: StrategyConfig, est: Estimator, m: Market, i: nat)
    requires MarketOk(m) && i < |m.prices| && StrategyOk(s) && Enough(s, i + 1)
    ensures var r := Ranked(s, est, m, i);
            var key := MomentumKey(s, m, i);
            && |r| <= s.limits.maxAssets
            && (forall a :: a in r ==> a in m.assets && Eligible(s, est, m, i, a))
            && (forall a, b :: a in r && b in m.assets && Eligible(s, est, m, i, b) && b !in r ==> Before(key, a, b))
            && ((exists b :: b in m.assets && Eligible(s, est, m, i, b) && b !in r) ==> |r| == s.limits.maxAssets)
            && Sorted(key, r)
  {
    var key := MomentumKey(s, m, i);
    var all := EligibleAssets(s, est, m, i, |m.assets|);
    var sorted := Sort(key, all);
    hide Eligible, MomentumKey, Before, Sort;
    SortSorts(key, all);
    assert m.assets[..|m.assets|] == m.assets;
    SameMembers(sorted, all);
    var r := Ranked(s, est, m, i);
    forall a, b | a in r && b in all && b !in r
      ensures Before(key, a, b)
    {
      var j :| 0 <= j < |r| && r[j] == a;
      var k :| 0 <= k < |sorted| && sorted[k] == b;
      NotInPrefix(sorted, |r|, k);
    }
  }

  lemma NotInPrefix(s: seq<Symbol>, n: nat, k: nat)
    requires k < |s| && n <= |s| && s[k] !in s[..n]
    ensures n <= k
  {
  }

  lemma SameMembers(s: seq<Symbol>, t: seq<Symbol>)
    requires multiset(s) == multiset(t)
    ensures forall a :: a in s <==> a in t
  {
    forall a
      ensures a in s <==> a in t
    {
      assert a in s <==> a in multiset(s);
      assert a in t <==> a in multiset(t);
    }
  }

  // -------------------------------------------------------------------- signal

  function AboveTrend(s: StrategyConfig, m: Market, i: nat): bool
    requires MarketOk(m) && i < |m.prices| && StrategyOk(s) && Enough(s, i + 1) && s.btc in m.assets
  {
    var h := History(m, i, s.btc);
    Back(h, 0) > Mean(h, s.trendDays)
  }

  function Volatilities(s: StrategyConfig, est: Estimator, m: Market, i: nat): map<Symbol, Num>
    requires MarketOk(m) && i < |m.prices| && StrategyOk(s) && Enough(s, i + 1)
  {
    map a | a in m.assets :: Volatility(s, est, m, i, a)
  }

  /** `generate_signal` as of bar i. */
  function GenerateSignal(s: StrategyConfig, est: Estimator, m: Market, i: nat): Result<StrategySignal, SignalError>
    requires MarketOk(m) && i < |m.prices| && StrategyOk(s)
  {
    if !Enough(s, i + 1) then Err(NotEnoughHistory)
    else if s.btc !in m.assets then Err(MissingBtc)
    else
      var above := AboveTrend(s, m, i);
      var ranked := if above then Ranked(s, est, m, i) else [];
      match BuildTargetWeights(ranked, Volatilities(s, est, m, i), s.limits)
      case Err(failure) => Err(Refused(failure))
      case Ok(allocation) => Ok(StrategySignal(ranked, allocation, above))
  }

  /** The strategy as the backtester's target function; None stands for an exception. */
  function StrategyTarget(s: StrategyConfig, est: Estimator): Target
    requires StrategyOk(s)
  {
    (m: Market, i: nat) =>
      if MarketOk(m) && i < |m.prices| && GenerateSignal(s, est, m, i).Ok?
      then Some(AsSignal(GenerateSignal(s, est, m, i).value.weights))
      else None
  }

  // ------------------------------------------------------------- no look-ahead

  lemma HistoryAgrees(m1: Market, m2: Market, i: nat, a: Symbol)
    requires MarketOk(m1) && MarketOk(m2) && AgreeThrough(m1, m2, i) && a in m1.assets
    ensures History(m1, i, a) == History(m2, i, a)
  {
  }

  lemma {:induction false} EligibleAgrees(s: StrategyConfig, est: Estimator, m1: Market, m2: Market, i: nat, n: nat)
    requires MarketOk(m1) && MarketOk(m2) && AgreeThrough(m1, m2, i) && StrategyOk(s) && Enough(s, i + 1)
    requires n <= |m1.assets|
    ensures EligibleAssets(s, est, m1, i, n) == EligibleAssets(s, est, m2, i, n)
  {
    hide MarketOk, Momentum, Clipped, Enough, StrategyOk, Distinct;
    if n > 0 {
      EligibleAgrees(s, est, m1, m2, i, n - 1);
      HistoryAgrees(m1, m2, i, m1.assets[n - 1]);
    }
  }

  /** `generate_signal` reads only rows at or before its date: tables that agree so far give the same signal. */
  lemma SignalReadsPrefix(s: StrategyConfig, est: Estimator, m1: Market, m2: Market, i: nat)
    requires MarketOk(m1) && MarketOk(m2) && AgreeThrough(m1, m2, i) && StrategyOk(s)
    ensures GenerateSignal(s, est, m1, i) == GenerateSignal(s, est, m2, i)
  {
    hide MarketOk, Momentum, Clipped, Enough, StrategyOk, Sort, BuildTargetWeights, Mean;
    if Enough(s, i + 1) {
      EligibleAgrees(s, est, m1, m2, i, |m1.assets|);
      forall a | a in m1.assets
        ensures History(m1, i, a) == History(m2, i, a)
      {
        HistoryAgrees(m1, m2, i, a);
      }
      assert MomentumKey(s, m1, i) == MomentumKey(s, m2, i);
      assert Volatilities(s, est, m1, i) == Volatilities(s, est, m2, i);
    }
  }

  /** So the strategy, as a target function, reads only rows at or before its date. */
  lemma StrategyReadsPrefix(s: StrategyConfig, est: Estimator)
    requires StrategyOk(s)
    ensures PrefixOnly(StrategyTarget(s, est))
  {
    hide GenerateSignal, AgreeThrough, MarketOk, StrategyOk;
    forall m1: Market, m2: Market, i: nat | MarketOk(m1) && MarketOk(m2) && AgreeThrough(m1, m2, i)
      ensures StrategyTarget(s, est)(m1, i) == StrategyTarget(s, est)(m2, i)
    {
      SignalReadsPrefix(s, est, m1, m2, i);
      AgreeWithin(m1, m2, i);
    }
  }

  lemma AgreeWithin(m1: Market, m2: Market, i: nat)
    requires AgreeThrough(m1, m2, i)
    ensures i < |m1.prices| && i < |m2.prices|
  {
  }

  /** A backtest of the strategy never sees the future. */
  lemma StrategyNoLookAhead(c: Config, s: StrategyConfig, est: Estimator, m1: Market, m2: Market, start: Start, k: nat)
    requires ConfigOk(c) && StrategyOk(s) && MarketOk(m1) && MarketOk(m2) && AgreeThrough(m1, m2, k)
    ensures Run(c, m1, Some(StrategyTarget(s, est)), start, k + 1) == Run(c, m2, Some(StrategyTarget(s, est)), start, k + 1)
  {
    hide Run, StrategyTarget, PrefixOnly, MarketOk;
    StrategyReadsPrefix(s, est);
    NoLookAhead(c, m1, m2, Some(StrategyTarget(s, est)), start, k);
  }

  /** Every signal the strategy gives is one the backtester accepts. */
  lemma SignalAccepted(c: Config, s: StrategyConfig, est: Estimator, m: Market, i: nat)
    requires ConfigOk(c) && StrategyOk(s) && MarketOk(m) && i < |m.prices| && Enough(s, i + 1) && s.btc in m.assets
    ensures ExtractWeights(c, m, StrategyTarget(s, est)(m, i)).Ok?
  {
    var ranked := if AboveTrend(s, m, i) then Ranked(s, est, m, i) else [];
    RankedAreBest(s, est, m, i);
    hide Ranked, AboveTrend, Volatilities, BuildTargetWeights, ExtractWeights, AsSignal, MarketOk, Enough, Eligible;
    BuiltIsAccepted(c, m, ranked, Volatilities(s, est, m, i), s.limits);
  }

  /** With enough history before the first weekly close, the backtest of the strategy cannot raise at all. */
  lemma {:induction false} StrategyRunsThrough(c: Config, s: StrategyConfig, est: Estimator, m: Market, n: nat)
    requires ConfigOk(c) && StrategyOk(s) && MarketOk(m) && s.btc in m.assets && n <= |m.prices|
    requires forall i :: 0 <= i < |m.prices| && LastOfWeek(m, i) ==> Enough(s, i + 1)
    ensures Run(c, m, Some(StrategyTarget(s, est)), Start(None, None), n).Ok?
  {
    hide SimOk, Bar, StrategyTarget, Enough, MarketOk;
    if n > 0 {
      var target, start := Some(StrategyTarget(s, est)), Start(None, None);
      StrategyRunsThrough(c, s, est, m, n - 1);
      RunSolvent(c, m, target, start, n - 1);
      BarRunsThrough(c, s, est, m, Run(c, m, target, start, n - 1).value, n - 1);
    }
  }

  lemma BarRunsThrough(c: Config, s: StrategyConfig, est: Estimator, m: Market, sim: Sim, i: nat)
    requires ConfigOk(c) && StrategyOk(s) && MarketOk(m) && s.btc in m.assets && i < |m.prices| && SimOk(m, sim, i)
    requires LastOfWeek(m, i) ==> Enough(s, i + 1)
    ensures Bar(c, m, Some(StrategyTarget(s, est)), Start(None, None), sim, i).Ok?
  {
    hide SimOk, Bar, StrategyTarget, Enough, ExtractWeights, CreateOrders, Marked;
    BarOk(c, m, Some(StrategyTarget(s, est)), Start(None, None), sim, i);
    if LastOfWeek(m, i) {
      SignalAccepted(c, s, est, m, i);
    }
  }
}
