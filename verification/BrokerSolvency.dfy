/**
 Buy scaling is solvent: for any sells and buys the cash left after the sells,
 scaled over the buys, covers every buy still to come.  The insufficient-cash
 rejection and the negative-cash error are unreachable in exact arithmetic.
 */
module BrokerSolvency {
  import opened Common
  import opened Numbers
  import opened Quantities
  import opened Broker

  /** Every position is non-negative. */
  predicate NoShorts(positions: map<Symbol, Position>) {
    forall s :: s in positions ==> 0.0 <= positions[s].quantity
  }

  predicate DistinctSymbols(ps: seq<Proposal>) {
    forall i, j :: 0 <= i < j < |ps| ==> ps[i].symbol != ps[j].symbol
  }

  /** What `_proposals` hands to `_execute`. */
  predicate ProposalsOk(e: Env, ps: seq<Proposal>) {
    && DistinctSymbols(ps)
    && forall i :: 0 <= i < |ps| ==>
         && ps[i].symbol in e.config.assets
         && ps[i].key == Key(e.signal, ps[i].symbol)
         && e.config.tolerance < ps[i].requested
  }

  predicate EnvOk(e: Env) {
    ConfigOk(e.config) && SnapshotOk(e.config, e.snapshot)
  }

  lemma QuotedProposals(e: Env, ps: seq<Proposal>)
    requires EnvOk(e) && ProposalsOk(e, ps)
    ensures ProposalsQuoted(e, ps)
  {
  }

  // ------------------------------------------------------------------- prices

  /** Buys execute above mid, sells below it and above zero. */
  lemma TermsOrdered(c: Config, q: Quote, side: Side)
    requires ConfigOk(c) && QuoteOk(q)
    ensures var t := ExecutionTerms(c, q, side);
            && 0.0 < t.execution && t.mid == Mid(q)
            && (side.Buy? ==> t.mid <= t.base <= t.execution)
            && (side.Sell? ==> t.execution <= t.base <= t.mid)
  {
    var mid := Mid(q);
    var t := ExecutionTerms(c, q, side);
    if side.Buy? {
      TimesUnit(mid, c.spreadRate);
      TimesNonneg(mid, c.spreadRate);
      TimesUnit(t.base, c.slippageRate);
      TimesNonneg(t.base, c.slippageRate);
    } else {
      TimesUnit(mid, c.spreadRate);
      TimesNonneg(mid, c.spreadRate);
      TimesNonneg(mid, 1.0 - c.spreadRate);
      TimesUnit(t.base, c.slippageRate);
      TimesNonneg(t.base, c.slippageRate);
      TimesNonneg(t.base, 1.0 - c.slippageRate);
    }
  }

  /** A planned fill: quoted, priced by `_execution_terms`, of positive quantity. */
  predicate ExecOk(e: Env, x: Exec) {
    && x.proposal.symbol in e.config.assets && x.proposal.symbol in e.snapshot.quotes
    && x.terms == TermsFor(e, x.proposal)
    && 0.0 < x.quantity
  }

  /** Never more than was proposed. */
  predicate WithinRequest(x: Exec) {
    x.quantity <= x.proposal.requested
  }

  lemma FeeBelowNotional(e: Env, x: Exec)
    requires EnvOk(e) && ExecOk(e, x)
    ensures var f := FillOf(e, x);
            0.0 <= f.fee <= Times(f.quantity, f.execution)
    ensures x.proposal.side.Buy? ==> CashDelta(FillOf(e, x)) == -CostOf(e.config, x)
    ensures x.proposal.side.Sell? ==> 0.0 <= CashDelta(FillOf(e, x))
    ensures 0.0 < CostOf(e.config, x)
  {
    TermsOrdered(e.config, e.snapshot.quotes[x.proposal.symbol], x.proposal.side);
    var notional := Times(x.quantity, x.terms.execution);
    TimesNonneg(x.quantity, x.terms.execution);
    TimesUnit(notional, e.config.feeRate);
    TimesNonneg(notional, e.config.feeRate);
    TimesNonneg(notional, 1.0 - e.config.feeRate);
  }

  // -------------------------------------------------------------------- plans

  /** Everything but rejections and decisions is as before. */
  predicate SameLedgers(a: Book, b: Book) {
    a.(rejections := b.rejections, decisions := b.decisions) == b
  }

  lemma CheckRangeKeepsLedgers(e: Env, b: Book, p: Proposal)
    requires p.symbol in e.snapshot.quotes && CheckRange(e, b, p).Ok?
    ensures SameLedgers(b, CheckRange(e, b, p).value.0)
  {
  }

  lemma NormalizeForBounds(e: Env, a: Symbol, q: real)
    requires a in e.snapshot.quotes && NormalizeFor(e, a, q).Accepted?
    ensures e.config.tolerance < NormalizeFor(e, a, q).quantity <= q
  {
    NormalizeBounds(Get(e.snapshot.rules, a), e.config.requireRules, e.config.tolerance, q,
                    ReferenceFor(e.snapshot, a), NormalizeFor(e, a, q).quantity);
  }

  /** The quantity came out of the exchange-rule normaliser. */
  ghost predicate Normalized(e: Env, x: Exec) {
    && x.proposal.symbol in e.snapshot.quotes
    && exists q :: NormalizeFor(e, x.proposal.symbol, q) == Accepted(x.quantity)
  }

  ghost predicate SellPlanned(e: Env, positions: map<Symbol, Position>, sells: seq<Proposal>, n: nat, w: Work)
    requires n <= |sells|
  {
    && (forall i :: 0 <= i < |w.execs| ==>
          && ExecOk(e, w.execs[i]) && Normalized(e, w.execs[i]) && w.execs[i].proposal in sells[..n]
          && w.execs[i].quantity <= Held(positions, w.execs[i].proposal.symbol) && WithinRequest(w.execs[i]))
    && forall i, j :: 0 <= i < j < |w.execs| ==> w.execs[i].proposal.symbol != w.execs[j].proposal.symbol
  }

  lemma {:induction false} PlanSellsSound(e: Env, positions: map<Symbol, Position>, b: Book, sells: seq<Proposal>,
                                          n: nat)
    requires EnvOk(e) && ProposalsOk(e, sells) && n <= |sells| && ProposalsQuoted(e, sells)
    ensures var r := PlanSells(e, positions, b, sells, n);
            r.Ok? ==> SameLedgers(b, r.value.book) && SellPlanned(e, positions, sells, n, r.value)
  {
    hide CheckRange, NormalizeFor, ExecutionTerms;
    if n > 0 && PlanSells(e, positions, b, sells, n).Ok? {
      PlanSellsSound(e, positions, b, sells, n - 1);
      var w := PlanSells(e, positions, b, sells, n - 1).value;
      var p := sells[n - 1];
      CheckRangeKeepsLedgers(e, w.book, p);
      assert sells[..n] == sells[..n - 1] + [p];
      var requested := Min(p.requested, Held(positions, p.symbol));
      var v := NormalizeFor(e, p.symbol, requested);
      if v.Accepted? {
        NormalizeForBounds(e, p.symbol, requested);
      }
    }
  }

  ghost predicate BuyPlanned(e: Env, buys: seq<Proposal>, n: nat, w: Work)
    requires n <= |buys|
  {
    && (forall i :: 0 <= i < |w.execs| ==>
          && ExecOk(e, w.execs[i]) && w.execs[i].proposal in buys[..n]
          && w.execs[i].quantity == w.execs[i].proposal.requested)
    && forall i, j :: 0 <= i < j < |w.execs| ==> w.execs[i].proposal.symbol != w.execs[j].proposal.symbol
  }

  lemma {:induction false} PlanBuysSound(e: Env, b: Book, buys: seq<Proposal>, n: nat)
    requires EnvOk(e) && ProposalsOk(e, buys) && n <= |buys| && ProposalsQuoted(e, buys)
    ensures var r := PlanBuys(e, b, buys, n);
            r.Ok? ==> SameLedgers(b, r.value.book) && BuyPlanned(e, buys, n, r.value)
  {
    hide CheckRange, ExecutionTerms;
    if n > 0 && PlanBuys(e, b, buys, n).Ok? {
      PlanBuysSound(e, b, buys, n - 1);
      CheckRangeKeepsLedgers(e, PlanBuys(e, b, buys, n - 1).value.book, buys[n - 1]);
      assert buys[..n] == buys[..n - 1] + [buys[n - 1]];
    }
  }

  lemma {:induction false} OnSideDistinct(e: Env, ps: seq<Proposal>, side: Side)
    requires ProposalsOk(e, ps)
    ensures ProposalsOk(e, OnSide(ps, side))
  {
    if ps != [] {
      var rest := ps[..|ps| - 1];
      OnSideDistinct(e, rest, side);
      forall i | 0 <= i < |OnSide(rest, side)|
        ensures OnSide(rest, side)[i].symbol != ps[|ps| - 1].symbol
      {
        assert OnSide(rest, side)[i] in rest;
      }
    }
  }

  // -------------------------------------------------------------------- sells

  lemma PersistFillLedgers(e: Env, b: Book, x: Exec)
    requires PersistFill(e, b, x).Ok?
    ensures var b' := PersistFill(e, b, x).value;
            && b'.cash == b.cash + CashDelta(FillOf(e, x))
            && b'.positions.Keys == b.positions.Keys + {x.proposal.symbol}
            && (forall s :: s != x.proposal.symbol ==> Held(b'.positions, s) == Held(b.positions, s))
            && Held(b'.positions, x.proposal.symbol)
               == Snap(e.config, Held(b.positions, x.proposal.symbol) + QuantityDelta(FillOf(e, x)))
            && b'.rejections == b.rejections && b'.decisions == b.decisions
  {
  }

  predicate SellsCovered(e: Env, b: Book, execs: seq<Exec>) {
    && (forall i :: 0 <= i < |execs| ==>
          && ExecOk(e, execs[i]) && execs[i].proposal.side.Sell?
          && execs[i].quantity <= Held(b.positions, execs[i].proposal.symbol))
    && forall i, j :: 0 <= i < j < |execs| ==> execs[i].proposal.symbol != execs[j].proposal.symbol
  }

  predicate Untouched(execs: seq<Exec>, s: Symbol) {
    forall i :: 0 <= i < |execs| ==> execs[i].proposal.symbol != s
  }

  /** One covered sell raises cash and leaves no short. */
  lemma SellStep(e: Env, b: Book, x: Exec)
    requires EnvOk(e) && ExecOk(e, x) && x.proposal.side.Sell? && NoShorts(b.positions)
    requires x.quantity <= Held(b.positions, x.proposal.symbol)
    ensures match PersistFill(e, b, x)
            case Ok(b') => b.cash <= b'.cash && NoShorts(b'.positions)
            case Err(error) => error == DuplicateOrder
  {
    FeeBelowNotional(e, x);
    if PersistFill(e, b, x).Ok? {
      PersistFillLedgers(e, b, x);
    }
  }

  /** Sells only raise cash, never oversell, and leave unsold symbols alone. */
  lemma {:induction false} FillSellsSolvent(e: Env, b: Book, execs: seq<Exec>)
    requires EnvOk(e) && SellsCovered(e, b, execs) && NoShorts(b.positions)
    ensures match FillAll(e, b, execs)
            case Err(error) => error == DuplicateOrder
            case Ok(b') =>
              && b.cash <= b'.cash && NoShorts(b'.positions)
              && b'.rejections == b.rejections && b'.decisions == b.decisions
              && forall s :: Untouched(execs, s) ==> Held(b'.positions, s) == Held(b.positions, s)
  {
    hide ExecutionTerms, CashDelta, PersistFill, ExecOk, NoShorts;
    if execs != [] {
      var n := |execs| - 1;
      var x := execs[n];
      FillSellsSolvent(e, b, execs[..n]);
      if FillAll(e, b, execs[..n]).Ok? {
        var w := FillAll(e, b, execs[..n]).value;
        assert Untouched(execs[..n], x.proposal.symbol);
        SellStep(e, w, x);
        if PersistFill(e, w, x).Ok? {
          PersistFillLedgers(e, w, x);
          forall s | Untouched(execs, s)
            ensures Held(PersistFill(e, w, x).value.positions, s) == Held(b.positions, s)
          {
            assert Untouched(execs[..n], s);
          }
        }
      }
    }
  }

  // --------------------------------------------------------------------- buys

  predicate BuysOk(e: Env, execs: seq<Exec>) {
    forall i :: 0 <= i < |execs| ==> ExecOk(e, execs[i]) && execs[i].proposal.side.Buy?
  }

  /** A buy rounded down from its scaled share costs at most the scaled share of its requirement. */
  lemma ScaledCost(e: Env, x: Exec, scale: real, n: real)
    requires EnvOk(e) && ExecOk(e, x) && 0.0 < n <= Times(x.quantity, scale)
    ensures CostOf(e.config, x.(quantity := n)) <= Times(scale, CostOf(e.config, x))
  {
    TermsOrdered(e.config, e.snapshot.quotes[x.proposal.symbol], x.proposal.side);
    var price, fee := x.terms.execution, 1.0 + e.config.feeRate;
    TimesMono(n, Times(x.quantity, scale), price);
    TimesMono(Times(n, price), Times(Times(x.quantity, scale), price), fee);
    assert Times(Times(Times(x.quantity, scale), price), fee) == Times(scale, Times(Times(x.quantity, price), fee));
  }

  /** One scaled buy: never short of cash, and it spends no more than its share. */
  lemma FillBuySolvent(e: Env, scale: real, b: Book, x: Exec)
    requires EnvOk(e) && ExecOk(e, x) && x.proposal.side.Buy? && NoShorts(b.positions)
    requires 0.0 <= scale && Times(scale, CostOf(e.config, x)) <= b.cash
    ensures FillBuy(e, scale, b, x) != Err(ZeroDivision) && FillBuy(e, scale, b, x) != Err(NegativeCash)
    ensures FillBuy(e, scale, b, x).Ok? ==>
              var b' := FillBuy(e, scale, b, x).value;
              && b.cash - Times(scale, CostOf(e.config, x)) <= b'.cash && NoShorts(b'.positions)
              && (b'.rejections == b.rejections
                  || (|b'.rejections| == |b.rejections| + 1 && b'.rejections[..|b.rejections|] == b.rejections
                      && !b'.rejections[|b.rejections|].reason.InsufficientCash?))
  {
    var scaled := Times(x.quantity, scale);
    var v := NormalizeFor(e, x.proposal.symbol, scaled);
    FeeBelowNotional(e, x);
    TimesNonneg(scale, CostOf(e.config, x));
    if v.Accepted? {
      var y := x.(quantity := v.quantity);
      NormalizeForBounds(e, x.proposal.symbol, scaled);
      ScaledCost(e, x, scale, v.quantity);
      FeeBelowNotional(e, y);
      TimesUnit(Times(v.quantity, x.terms.execution), e.config.feeRate);
      if PersistFill(e, b, y).Ok? {
        PersistFillLedgers(e, b, y);
      }
    } else {
      NormalizeNeverShortOfCash(e, x.proposal.symbol, scaled);
    }
  }

  lemma NormalizeNeverShortOfCash(e: Env, a: Symbol, q: real)
    requires a in e.snapshot.quotes
    ensures NormalizeFor(e, a, q) != Rejected(InsufficientCash)
  {
  }

  predicate NoNewCashRejection(before: seq<Rejection>, after: seq<Rejection>) {
    && |before| <= |after| && after[..|before|] == before
    && forall i :: |before| <= i < |after| ==> !after[i].reason.InsufficientCash?
  }

  lemma NoCashTransitive(a: seq<Rejection>, b: seq<Rejection>, c: seq<Rejection>)
    requires NoNewCashRejection(a, b) && NoNewCashRejection(b, c)
    ensures NoNewCashRejection(a, c)
  {
    assert c[..|a|] == c[..|b|][..|a|];
    forall i | |a| <= i < |c|
      ensures !c[i].reason.InsufficientCash?
    {
      if i < |b| {
        assert c[i] == c[..|b|][i];
      }
    }
  }

  lemma RequiredStep(c: Config, execs: seq<Exec>, n: nat)
    requires 0 < n <= |execs|
    ensures Required(c, execs[..n]) == Required(c, execs[..n - 1]) + CostOf(c, execs[n - 1])
  {
    assert execs[..n][..n - 1] == execs[..n - 1];
  }

  lemma {:induction false} RequiredMonotone(e: Env, execs: seq<Exec>, n: nat)
    requires EnvOk(e) && BuysOk(e, execs) && n <= |execs|
    ensures Required(e.config, execs[..n]) <= Required(e.config, execs)
    decreases |execs| - n
  {
    if n == |execs| {
      assert execs[..n] == execs;
    } else {
      RequiredStep(e.config, execs, n + 1);
      FeeBelowNotional(e, execs[n]);
      RequiredMonotone(e, execs, n + 1);
    }
  }

  lemma RequiredNone(c: Config, execs: seq<Exec>, scale: real)
    ensures Times(scale, Required(c, execs[..0])) == 0.0
  {
  }

  /** After n buys the cash still covers the scaled requirement of all the others. */
  lemma {:induction false} FillBuysSolvent(e: Env, scale: real, b: Book, execs: seq<Exec>, n: nat)
    requires EnvOk(e) && BuysOk(e, execs) && ExecsQuoted(e, execs) && n <= |execs| && NoShorts(b.positions)
    requires 0.0 <= scale && Times(scale, Required(e.config, execs)) <= b.cash
    ensures var r := FillBuys(e, scale, b, execs, n);
            && r != Err(ZeroDivision) && r != Err(NegativeCash)
            && (r.Ok? ==>
                  && Times(scale, Required(e.config, execs)) - Times(scale, Required(e.config, execs[..n])) <= r.value.cash
                  && NoShorts(r.value.positions)
                  && NoNewCashRejection(b.rejections, r.value.rejections))
  {
    hide Times, FillBuy, Required, CostOf, ExecOk;
    if n == 0 {
      RequiredNone(e.config, execs, scale);
    } else {
      FillBuysSolvent(e, scale, b, execs, n - 1);
      var r := FillBuys(e, scale, b, execs, n - 1);
      if r.Ok? {
        var x := execs[n - 1];
        RequiredStep(e.config, execs, n);
        RequiredMonotone(e, execs, n);
        TimesMono(Required(e.config, execs[..n]), Required(e.config, execs), scale);
        TimesSum(scale, Required(e.config, execs[..n - 1]), CostOf(e.config, x));
        FillBuySolvent(e, scale, r.value, x);
      }
    }
  }

  /**
   The weekly execution is solvent for every book, snapshot and proposal list:
   it never raises the negative-cash or division error, never rejects a buy for
   cash, and commits only books with non-negative cash and positions.
   */
  lemma ExecuteSolvent(e: Env, b: Book, ps: seq<Proposal>, rejections: seq<Rejection>)
    requires EnvOk(e) && ProposalsOk(e, ps) && ProposalsQuoted(e, ps)
    requires 0.0 <= b.cash && NoShorts(b.positions)
    requires forall i :: 0 <= i < |rejections| ==> !rejections[i].reason.InsufficientCash?
    ensures var r := Execute(e, b, ps, rejections);
            && r != Err(NegativeCash) && r != Err(ZeroDivision)
            && (r.Ok? ==> 0.0 <= r.value.cash && NoShorts(r.value.positions)
                          && NoNewCashRejection(b.rejections, r.value.rejections))
  {
    hide PlanSells, PlanBuys, FillAll, ExecuteBuys, CheckEvidence, ExecOk, OnSide;
    var sells, buys := OnSide(ps, Sell), OnSide(ps, Buy);
    OnSideDistinct(e, ps, Sell);
    OnSideDistinct(e, ps, Buy);
    QuotedProposals(e, sells);
    QuotedProposals(e, buys);
    CheckEvidenceErrors(e.config, e.snapshot);
    var staged := StageEvidence(e, b, ps, rejections);
    PlanSellsSound(e, b.positions, staged, sells, |sells|);
    PlanSellsNoCash(e, b.positions, staged, sells, |sells|);
    assert NoNewCashRejection(b.rejections, staged.rejections);
    var sellPlan := PlanSells(e, b.positions, staged, sells, |sells|);
    if CheckEvidence(e.config, e.snapshot).Ok? && sellPlan.Ok? {
      PlanBuysSound(e, sellPlan.value.book, buys, |buys|);
      PlanBuysNoCash(e, sellPlan.value.book, buys, |buys|);
      var buyPlan := PlanBuys(e, sellPlan.value.book, buys, |buys|);
      if buyPlan.Ok? {
        PlannedQuoted(e, sellPlan.value.book, buys, |buys|);
        SoldBoughtSolvent(e, buyPlan.value.book, sellPlan.value.execs, buyPlan.value.execs);
        NoCashTransitive(b.rejections, staged.rejections, sellPlan.value.book.rejections);
        NoCashTransitive(b.rejections, sellPlan.value.book.rejections, buyPlan.value.book.rejections);
        if Execute(e, b, ps, rejections).Ok? {
          NoCashTransitive(b.rejections, buyPlan.value.book.rejections, Execute(e, b, ps, rejections).value.rejections);
        }
      }
    }
  }

  lemma CheckEvidenceErrors(c: Config, s: Snapshot)
    ensures CheckEvidence(c, s) != Err(NegativeCash) && CheckEvidence(c, s) != Err(ZeroDivision)
  {
  }

  lemma SoldBoughtSolvent(e: Env, b: Book, sells: seq<Exec>, buys: seq<Exec>)
    requires EnvOk(e) && SellsCovered(e, b, sells) && BuysOk(e, buys) && ExecsQuoted(e, buys)
    requires 0.0 <= b.cash && NoShorts(b.positions)
    ensures var sold := FillAll(e, b, sells);
            && sold != Err(NegativeCash) && sold != Err(ZeroDivision)
            && (sold.Ok? ==>
                  var bought := ExecuteBuys(e, sold.value, buys);
                  && bought != Err(NegativeCash) && bought != Err(ZeroDivision)
                  && (bought.Ok? ==> 0.0 <= bought.value.cash && NoShorts(bought.value.positions)
                                     && NoNewCashRejection(b.rejections, bought.value.rejections)))
  {
    FillSellsSolvent(e, b, sells);
    var sold := FillAll(e, b, sells);
    var required := Required(e.config, buys);
    if sold.Ok? && 0.0 < required {
      ScaleFits(sold.value.cash, required);
      FillBuysSolvent(e, BuyScale(sold.value.cash, required), sold.value, buys, |buys|);
      assert buys[..|buys|] == buys;
    }
  }

  lemma CheckRangeNoCash(e: Env, b: Book, p: Proposal)
    requires p.symbol in e.snapshot.quotes
    ensures match CheckRange(e, b, p)
            case Ok(r) => NoNewCashRejection(b.rejections, r.0.rejections)
            case Err(error) => error == InvalidEvidence
  {
  }

  lemma {:induction false} PlanSellsNoCash(e: Env, positions: map<Symbol, Position>, b: Book, sells: seq<Proposal>,
                                           n: nat)
    requires n <= |sells| && ProposalsQuoted(e, sells)
    ensures var r := PlanSells(e, positions, b, sells, n);
            if r.Ok? then NoNewCashRejection(b.rejections, r.value.book.rejections) else r.error == InvalidEvidence
  {
    hide CheckRange, NormalizeFor, ExecutionTerms;
    if n > 0 && PlanSells(e, positions, b, sells, n - 1).Err? {
      PlanSellsNoCash(e, positions, b, sells, n - 1);
    } else if n > 0 {
      PlanSellsNoCash(e, positions, b, sells, n - 1);
      var p := sells[n - 1];
      var w := PlanSells(e, positions, b, sells, n - 1).value;
      CheckRangeNoCash(e, w.book, p);
      if CheckRange(e, w.book, p).Ok? {
        NoCashTransitive(b.rejections, w.book.rejections, CheckRange(e, w.book, p).value.0.rejections);
      }
      NormalizeNeverShortOfCash(e, p.symbol, Min(p.requested, Held(positions, p.symbol)));
    }
  }

  lemma {:induction false} PlanBuysNoCash(e: Env, b: Book, buys: seq<Proposal>, n: nat)
    requires n <= |buys| && ProposalsQuoted(e, buys)
    ensures var r := PlanBuys(e, b, buys, n);
            if r.Ok? then NoNewCashRejection(b.rejections, r.value.book.rejections) else r.error == InvalidEvidence
  {
    hide CheckRange, ExecutionTerms;
    if n > 0 && PlanBuys(e, b, buys, n - 1).Err? {
      PlanBuysNoCash(e, b, buys, n - 1);
    } else if n > 0 {
      PlanBuysNoCash(e, b, buys, n - 1);
      var w := PlanBuys(e, b, buys, n - 1).value;
      CheckRangeNoCash(e, w.book, buys[n - 1]);
      if CheckRange(e, w.book, buys[n - 1]).Ok? {
        NoCashTransitive(b.rejections, w.book.rejections, CheckRange(e, w.book, buys[n - 1]).value.0.rejections);
      }
    }
  }
}
