/**
 A committed execution is, on the ledgers, a plain sequence of fills: one per
 filled proposal, with distinct symbols, normalised quantities and covered sells.
 Every ledger property of the execution follows by induction over that sequence.
 */
module BrokerTrace {
  import opened Common
  import opened Numbers
  import opened Quantities
  import opened Broker
  import opened BrokerSolvency

  predicate LedgerEq(a: Book, b: Book) {
    && a.cash == b.cash && a.positions == b.positions
    && a.orders == b.orders && a.fills == b.fills
    && a.cashLedger == b.cashLedger && a.positionLedger == b.positionLedger
  }

  lemma PersistFillCongruent(e: Env, a: Book, b: Book, x: Exec)
    requires LedgerEq(a, b)
    ensures match PersistFill(e, a, x)
            case Ok(a') => PersistFill(e, b, x).Ok? && LedgerEq(a', PersistFill(e, b, x).value)
            case Err(error) => PersistFill(e, b, x) == Err(error)
  {
  }

  lemma {:induction false} FillAllCongruent(e: Env, a: Book, b: Book, xs: seq<Exec>)
    requires LedgerEq(a, b)
    ensures match FillAll(e, a, xs)
            case Ok(a') => FillAll(e, b, xs).Ok? && LedgerEq(a', FillAll(e, b, xs).value)
            case Err(error) => FillAll(e, b, xs) == Err(error)
  {
    hide PersistFill;
    if xs != [] {
      var n := |xs| - 1;
      FillAllCongruent(e, a, b, xs[..n]);
      if FillAll(e, a, xs[..n]).Ok? {
        PersistFillCongruent(e, FillAll(e, a, xs[..n]).value, FillAll(e, b, xs[..n]).value, xs[n]);
      }
    }
  }

  lemma {:induction false} FillAllConcat(e: Env, b: Book, xs: seq<Exec>, ys: seq<Exec>)
    requires FillAll(e, b, xs).Ok?
    ensures FillAll(e, b, xs + ys) == FillAll(e, FillAll(e, b, xs).value, ys)
  {
    hide PersistFill;
    if ys == [] {
      assert xs + ys == xs;
    } else {
      var n := |ys| - 1;
      FillAllConcat(e, b, xs, ys[..n]);
      assert (xs + ys)[..|xs + ys| - 1] == xs + ys[..n];
    }
  }

  predicate Untraded(xs: seq<Exec>, ys: seq<Exec>) {
    forall i, j :: 0 <= i < |xs| && 0 <= j < |ys| ==> xs[i].proposal.symbol != ys[j].proposal.symbol
  }

  predicate DistinctExecs(xs: seq<Exec>) {
    forall i, j :: 0 <= i < j < |xs| ==> xs[i].proposal.symbol != xs[j].proposal.symbol
  }

  /** The buys of `FillBuys` as the sequence of fills they are on the ledgers. */
  ghost predicate BuyTrace(e: Env, execs: seq<Exec>, xs: seq<Exec>) {
    && DistinctExecs(xs)
    && forall i :: 0 <= i < |xs| ==>
         && ExecOk(e, xs[i]) && Normalized(e, xs[i]) && WithinRequest(xs[i])
         && exists j :: 0 <= j < |execs| && execs[j].proposal == xs[i].proposal
  }

  lemma {:induction false} FillBuysTrace(e: Env, scale: real, b: Book, execs: seq<Exec>, n: nat) returns (xs: seq<Exec>)
    requires EnvOk(e) && BuysOk(e, execs) && ExecsQuoted(e, execs) && DistinctExecs(execs) && n <= |execs|
    requires scale <= 1.0 && forall i :: 0 <= i < |execs| ==> WithinRequest(execs[i])
    requires FillBuys(e, scale, b, execs, n).Ok?
    ensures BuyTrace(e, execs[..n], xs)
    ensures FillAll(e, b, xs).Ok? && LedgerEq(FillAll(e, b, xs).value, FillBuys(e, scale, b, execs, n).value)
  {
    hide PersistFill, NormalizeFor, ExecutionTerms;
    if n == 0 {
      xs := [];
    } else {
      xs := FillBuysTrace(e, scale, b, execs, n - 1);
      var w := FillBuys(e, scale, b, execs, n - 1).value;
      var x := execs[n - 1];
      forall i | 0 <= i < |xs|
        ensures exists j :: 0 <= j < n && execs[..n][j].proposal == xs[i].proposal
        ensures xs[i].proposal.symbol != x.proposal.symbol
      {
        var j :| 0 <= j < n - 1 && execs[..n - 1][j].proposal == xs[i].proposal;
        assert execs[..n][j] == execs[..n - 1][j] == execs[j];
      }
      var v := NormalizeFor(e, x.proposal.symbol, Times(x.quantity, scale));
      var w' := FillBuys(e, scale, b, execs, n).value;
      if !LedgerEq(w, w') {
        var y := x.(quantity := v.quantity);
        NormalizeForBounds(e, x.proposal.symbol, Times(x.quantity, scale));
        TimesMono(scale, 1.0, x.quantity);
        assert Times(x.quantity, 1.0) == x.quantity;
        PersistFillCongruent(e, FillAll(e, b, xs).value, w, y);
        assert (xs + [y])[..|xs|] == xs;
        assert execs[..n][n - 1].proposal == y.proposal;
        xs := xs + [y];
      }
    }
  }

  ghost predicate Traced(e: Env, b: Book, ps: seq<Proposal>, xs: seq<Exec>) {
    && DistinctExecs(xs)
    && forall i :: 0 <= i < |xs| ==>
         && ExecOk(e, xs[i]) && Normalized(e, xs[i]) && xs[i].proposal in ps && WithinRequest(xs[i])
         && (xs[i].proposal.side.Sell? ==> xs[i].quantity <= Held(b.positions, xs[i].proposal.symbol))
  }

  /** The intermediate results of one committed execution. */
  ghost predicate Committed(e: Env, b: Book, ps: seq<Proposal>, rejections: seq<Rejection>,
                            sellPlan: Work, buyPlan: Work, sold: Book, bought: Book)
    requires EnvOk(e) && ProposalsOk(e, ps) && ProposalsQuoted(e, ps)
  {
    var staged := StageEvidence(e, b, ps, rejections);
    var sells, buys := OnSide(ps, Sell), OnSide(ps, Buy);
    && PlanSells(e, b.positions, staged, sells, |sells|) == Ok(sellPlan)
    && PlanBuys(e, sellPlan.book, buys, |buys|) == Ok(buyPlan)
    && ExecsQuoted(e, buyPlan.execs)
    && FillAll(e, buyPlan.book, sellPlan.execs) == Ok(sold)
    && ExecuteBuys(e, sold, buyPlan.execs) == Ok(bought)
    && 0.0 <= bought.cash
    && Execute(e, b, ps, rejections) == Ok(Settle(e, bought, |bought.rejections| - |b.rejections|))
  }

  lemma ExecuteStages(e: Env, b: Book, ps: seq<Proposal>, rejections: seq<Rejection>)
    returns (sellPlan: Work, buyPlan: Work, sold: Book, bought: Book)
    requires EnvOk(e) && ProposalsOk(e, ps) && ProposalsQuoted(e, ps)
    requires Execute(e, b, ps, rejections).Ok?
    ensures Committed(e, b, ps, rejections, sellPlan, buyPlan, sold, bought)
  {
    hide PlanSells, PlanBuys, FillAll, ExecuteBuys;
    var staged := StageEvidence(e, b, ps, rejections);
    var sells, buys := OnSide(ps, Sell), OnSide(ps, Buy);
    sellPlan := PlanSells(e, b.positions, staged, sells, |sells|).value;
    buyPlan := PlanBuys(e, sellPlan.book, buys, |buys|).value;
    PlannedQuoted(e, sellPlan.book, buys, |buys|);
    sold := FillAll(e, buyPlan.book, sellPlan.execs).value;
    bought := ExecuteBuys(e, sold, buyPlan.execs).value;
  }

  lemma SidesDisjoint(ps: seq<Proposal>, a: Proposal, b: Proposal)
    requires DistinctSymbols(ps) && a in ps && b in ps && a.side != b.side
    ensures a.symbol != b.symbol
  {
  }

  predicate AllOn(xs: seq<Exec>, side: Side) {
    forall i :: 0 <= i < |xs| ==> xs[i].proposal.side == side
  }

  lemma TracedConcat(e: Env, b: Book, ps: seq<Proposal>, xs: seq<Exec>, ys: seq<Exec>)
    requires ProposalsOk(e, ps) && Traced(e, b, ps, xs) && Traced(e, b, ps, ys)
    requires AllOn(xs, Sell) && AllOn(ys, Buy)
    ensures Traced(e, b, ps, xs + ys)
  {
    hide ExecOk, Normalized;
    forall i, j | 0 <= i < j < |xs + ys|
      ensures (xs + ys)[i].proposal.symbol != (xs + ys)[j].proposal.symbol
    {
      if i < |xs| <= j {
        SidesDisjoint(ps, xs[i].proposal, ys[j - |xs|].proposal);
      }
    }
  }

  lemma SoldTrace(e: Env, b: Book, ps: seq<Proposal>, rejections: seq<Rejection>, sellPlan: Work)
    requires EnvOk(e) && ProposalsOk(e, ps) && ProposalsQuoted(e, ps)
    requires var sells := OnSide(ps, Sell);
             PlanSells(e, b.positions, StageEvidence(e, b, ps, rejections), sells, |sells|) == Ok(sellPlan)
    ensures Traced(e, b, ps, sellPlan.execs) && AllOn(sellPlan.execs, Sell)
  {
    hide PlanSells, ExecOk, Normalized, OnSide;
    var sells := OnSide(ps, Sell);
    OnSideDistinct(e, ps, Sell);
    PlanSellsSound(e, b.positions, StageEvidence(e, b, ps, rejections), sells, |sells|);
    assert sells[..|sells|] == sells;
  }

  /** The sells and then the buys that a committed execution fills. */
  lemma ExecuteSplit(e: Env, b: Book, ps: seq<Proposal>, rejections: seq<Rejection>)
    returns (sells: seq<Exec>, buys: seq<Exec>)
    requires EnvOk(e) && ProposalsOk(e, ps) && ProposalsQuoted(e, ps)
    requires Execute(e, b, ps, rejections).Ok?
    ensures Traced(e, b, ps, sells + buys) && AllOn(sells, Sell) && AllOn(buys, Buy)
    ensures var xs := FillAll(e, b, sells + buys);
            xs.Ok? && LedgerEq(xs.value, Execute(e, b, ps, rejections).value)
    ensures var planned := PlanSells(e, b.positions, StageEvidence(e, b, ps, rejections), OnSide(ps, Sell), |OnSide(ps, Sell)|);
            planned.Ok? && planned.value.execs == sells
  {
    var sellPlan, buyPlan, sold, bought := ExecuteStages(e, b, ps, rejections);
    buys := BoughtTrace(e, b, ps, rejections, sellPlan, buyPlan, sold, bought);
    SoldTrace(e, b, ps, rejections, sellPlan);
    hide PlanSells, PlanBuys, FillAll, ExecuteBuys, ExecOk, Normalized, Execute, OnSide, Traced;
    sells := sellPlan.execs;
    FillAllCongruent(e, buyPlan.book, b, sells);
    FillAllCongruent(e, sold, FillAll(e, b, sells).value, buys);
    FillAllConcat(e, b, sells, buys);
    TracedConcat(e, b, ps, sells, buys);
  }

  /** Every committed execution is such a sequence of fills. */
  lemma ExecuteTrace(e: Env, b: Book, ps: seq<Proposal>, rejections: seq<Rejection>) returns (xs: seq<Exec>)
    requires EnvOk(e) && ProposalsOk(e, ps) && ProposalsQuoted(e, ps)
    requires Execute(e, b, ps, rejections).Ok?
    ensures Traced(e, b, ps, xs)
    ensures FillAll(e, b, xs).Ok? && LedgerEq(FillAll(e, b, xs).value, Execute(e, b, ps, rejections).value)
  {
    hide Execute, FillAll, Traced, PlanSells;
    var sells, buys := ExecuteSplit(e, b, ps, rejections);
    xs := sells + buys;
  }

  lemma BoughtTrace(e: Env, b: Book, ps: seq<Proposal>, rejections: seq<Rejection>,
                    sellPlan: Work, buyPlan: Work, sold: Book, bought: Book) returns (ys: seq<Exec>)
    requires EnvOk(e) && ProposalsOk(e, ps) && ProposalsQuoted(e, ps)
    requires Committed(e, b, ps, rejections, sellPlan, buyPlan, sold, bought)
    ensures SameLedgers(StageEvidence(e, b, ps, rejections), buyPlan.book)
    ensures Traced(e, b, ps, ys) && AllOn(ys, Buy)
    ensures FillAll(e, sold, ys).Ok? && LedgerEq(FillAll(e, sold, ys).value, bought)
  {
    hide PlanSells, PlanBuys, ExecOk, Normalized, Execute, OnSide, FillBuys;
    var staged := StageEvidence(e, b, ps, rejections);
    var sells, buys := OnSide(ps, Sell), OnSide(ps, Buy);
    OnSideDistinct(e, ps, Sell);
    OnSideDistinct(e, ps, Buy);
    PlanSellsSound(e, b.positions, staged, sells, |sells|);
    PlanBuysSound(e, sellPlan.book, buys, |buys|);
    assert buys[..|buys|] == buys;
    var execs := buyPlan.execs;
    var required := Required(e.config, execs);
    if required > 0.0 {
      ys := FillBuysTrace(e, BuyScale(sold.cash, required), sold, execs, |execs|);
      assert execs[..|execs|] == execs;
    } else {
      ys := [];
    }
  }
}
