/**
 Exactly which fills an execution commits: the sells that go through, in order,
 each at its own quantity, and then the buys, all scaled by the one share of their
 cost that the cash after the sells can pay.
 */
module BrokerFills {
  import opened Common
  import opened Numbers
  import opened Quantities
  import opened Broker
  import opened BrokerSolvency
  import opened BrokerTrace
  import opened BrokerLedger
  import opened BrokerWeeks
  import opened BrokerDrift

  // ----------------------------------------------------------------- the lists

  /** The sells that go through, each at the normalised part of what is held. */
  function SellExecs(e: Env, positions: map<Symbol, Position>, sells: seq<Proposal>): seq<Exec>
    requires ProposalsQuoted(e, sells)
  {
    if sells == [] then []
    else
      var p := sells[|sells| - 1];
      var rest := SellExecs(e, positions, sells[..|sells| - 1]);
      match SellFill(e, positions, p)
      case None => rest
      case Some(q) => rest + [Exec(p, q, TermsFor(e, p))]
  }

  /** The buys that pass their PRICE_RANGE check, at the quantity asked for. */
  function BuyExecs(e: Env, buys: seq<Proposal>): seq<Exec>
    requires ProposalsQuoted(e, buys)
  {
    if buys == [] then []
    else
      var p := buys[|buys| - 1];
      var rest := BuyExecs(e, buys[..|buys| - 1]);
      if Proceeds(e, p) then rest + [Exec(p, p.requested, TermsFor(e, p))] else rest
  }

  /** Buys scaled by a common share; those the rules refuse at that size drop out. */
  function ScaledExecs(e: Env, share: real, execs: seq<Exec>): seq<Exec>
    requires ExecsQuoted(e, execs)
  {
    if execs == [] then []
    else
      var x := execs[|execs| - 1];
      var rest := ScaledExecs(e, share, execs[..|execs| - 1]);
      match NormalizeFor(e, x.proposal.symbol, Times(x.quantity, share))
      case Rejected(_) => rest
      case Accepted(n) => rest + [x.(quantity := n)]
  }

  /** Cash the sells bring in, fees paid. */
  function SaleProceeds(c: Config, execs: seq<Exec>): real {
    if execs == [] then 0.0
    else
      var x := execs[|execs| - 1];
      SaleProceeds(c, execs[..|execs| - 1]) + (x.quantity * x.terms.execution - x.quantity * x.terms.execution * c.feeRate)
  }

  /** Cash the buys would take at full size, fees included. */
  function BuyNeed(c: Config, execs: seq<Exec>): real {
    if execs == [] then 0.0
    else
      var x := execs[|execs| - 1];
      BuyNeed(c, execs[..|execs| - 1]) + (x.quantity * x.terms.execution + x.quantity * x.terms.execution * c.feeRate)
  }

  /** The share is everything when the cash suffices, and otherwise exactly what uses it up. */
  predicate ShareOf(cash: real, need: real, share: real) {
    if need <= cash then share == 1.0 else share * need == cash
  }

  function Filled(e: Env, execs: seq<Exec>): seq<Fill> {
    seq(|execs|, i requires 0 <= i < |execs| => FillOf(e, execs[i]))
  }

  // -------------------------------------------------------------------- planning

  lemma {:induction false} SellPlanIs(e: Env, positions: map<Symbol, Position>, b: Book, sells: seq<Proposal>, n: nat)
    requires n <= |sells| && ProposalsQuoted(e, sells) && PlanSells(e, positions, b, sells, n).Ok?
    ensures PlanSells(e, positions, b, sells, n).value.execs == SellExecs(e, positions, sells[..n])
  {
    hide PlanSell, SellFill, TermsFor;
    if n > 0 {
      PlanSellsLast(e, positions, b, sells, n);
      SellPlanIs(e, positions, b, sells, n - 1);
      PlanSellExactly(e, positions, PlanSells(e, positions, b, sells, n - 1).value, sells[n - 1]);
      assert sells[..n][..n - 1] == sells[..n - 1];
    }
  }

  lemma PlanBuyIs(e: Env, w: Work, p: Proposal)
    requires p.symbol in e.snapshot.quotes && PlanBuy(e, w, p).Ok?
    ensures PlanBuy(e, w, p).value.execs == if Proceeds(e, p) then w.execs + [Exec(p, p.requested, TermsFor(e, p))] else w.execs
  {
    hide CheckRange, TermsFor, Proceeds;
    CheckRangeProceeds(e, w.book, p);
  }

  lemma {:induction false} BuyPlanIs(e: Env, b: Book, buys: seq<Proposal>, n: nat)
    requires n <= |buys| && ProposalsQuoted(e, buys) && PlanBuys(e, b, buys, n).Ok?
    ensures PlanBuys(e, b, buys, n).value.execs == BuyExecs(e, buys[..n])
  {
    hide PlanBuy, Proceeds, TermsFor;
    if n > 0 {
      BuyPlanIs(e, b, buys, n - 1);
      PlanBuyIs(e, PlanBuys(e, b, buys, n - 1).value, buys[n - 1]);
      assert buys[..n][..n - 1] == buys[..n - 1];
    }
  }

  // -------------------------------------------------------------------- filling

  lemma PersistFills(e: Env, b: Book, x: Exec)
    requires PersistFill(e, b, x).Ok?
    ensures PersistFill(e, b, x).value.fills == b.fills + [FillOf(e, x)]
    ensures x.proposal.side.Sell? ==>
              PersistFill(e, b, x).value.cash
                == b.cash + (x.quantity * x.terms.execution - x.quantity * x.terms.execution * e.config.feeRate)
  {
  }

  lemma FilledMore(e: Env, execs: seq<Exec>, x: Exec)
    ensures Filled(e, execs + [x]) == Filled(e, execs) + [FillOf(e, x)]
  {
  }

  lemma {:induction false} SellsFilled(e: Env, b: Book, execs: seq<Exec>)
    requires FillAll(e, b, execs).Ok? && AllOn(execs, Sell)
    ensures FillAll(e, b, execs).value.fills == b.fills + Filled(e, execs)
    ensures FillAll(e, b, execs).value.cash == b.cash + SaleProceeds(e.config, execs)
  {
    hide PersistFill, FillOf;
    if execs != [] {
      var n := |execs| - 1;
      SellsFilled(e, b, execs[..n]);
      PersistFills(e, FillAll(e, b, execs[..n]).value, execs[n]);
      FilledMore(e, execs[..n], execs[n]);
      assert execs == execs[..n] + [execs[n]];
    }
  }

  /** One scaled buy, where cash is never the reason to refuse. */
  lemma BuyFilled(e: Env, share: real, b: Book, x: Exec)
    requires x.proposal.symbol in e.snapshot.quotes && FillBuy(e, share, b, x).Ok?
    requires forall i :: |b.rejections| <= i < |FillBuy(e, share, b, x).value.rejections| ==>
               !FillBuy(e, share, b, x).value.rejections[i].reason.InsufficientCash?
    ensures var v := NormalizeFor(e, x.proposal.symbol, Times(x.quantity, share));
            FillBuy(e, share, b, x).value.fills
              == b.fills + (if v.Accepted? then [FillOf(e, x.(quantity := v.quantity))] else [])
  {
    hide NormalizeFor, FillOf;
    var v := NormalizeFor(e, x.proposal.symbol, Times(x.quantity, share));
    if v.Accepted? {
      var rejected := FillBuy(e, share, b, x).value.rejections;
      assert |rejected| == |b.rejections| + 1 ==> !rejected[|b.rejections|].reason.InsufficientCash?;
    }
  }

  lemma {:induction false} BuysFilled(e: Env, share: real, b: Book, execs: seq<Exec>, n: nat)
    requires EnvOk(e) && BuysOk(e, execs) && ExecsQuoted(e, execs) && n <= |execs| && NoShorts(b.positions)
    requires 0.0 <= share && Times(share, Required(e.config, execs)) <= b.cash && FillBuys(e, share, b, execs, n).Ok?
    ensures FillBuys(e, share, b, execs, n).value.fills == b.fills + Filled(e, ScaledExecs(e, share, execs[..n]))
  {
    hide FillBuy, NormalizeFor, FillOf, Required, BuysOk;
    if n > 0 {
      BuysFilled(e, share, b, execs, n - 1);
      var w, x := FillBuys(e, share, b, execs, n - 1).value, execs[n - 1];
      FillBuysSolvent(e, share, b, execs, n);
      FillBuysSolvent(e, share, b, execs, n - 1);
      LaterRejections(b.rejections, w.rejections, FillBuys(e, share, b, execs, n).value.rejections);
      BuyFilled(e, share, w, x);
      var v := NormalizeFor(e, x.proposal.symbol, Times(x.quantity, share));
      var rest := ScaledExecs(e, share, execs[..n - 1]);
      ScaledMore(e, share, execs, n);
      if v.Accepted? {
        FilledMore(e, rest, x.(quantity := v.quantity));
        assert FillBuys(e, share, b, execs, n).value.fills == (b.fills + Filled(e, rest)) + [FillOf(e, x.(quantity := v.quantity))];
      } else {
        assert ScaledExecs(e, share, execs[..n]) == rest;
      }
    }
  }

  lemma ScaledMore(e: Env, share: real, execs: seq<Exec>, n: nat)
    requires 0 < n <= |execs| && ExecsQuoted(e, execs)
    ensures var v := NormalizeFor(e, execs[n - 1].proposal.symbol, Times(execs[n - 1].quantity, share));
            ScaledExecs(e, share, execs[..n])
              == ScaledExecs(e, share, execs[..n - 1]) + (if v.Accepted? then [execs[n - 1].(quantity := v.quantity)] else [])
  {
    hide NormalizeFor;
    var upTo := execs[..n];
    assert upTo[..|upTo| - 1] == execs[..n - 1] && upTo[|upTo| - 1] == execs[n - 1];
  }

  lemma LaterRejections(a: seq<Rejection>, b: seq<Rejection>, c: seq<Rejection>)
    requires NoNewCashRejection(a, b) && NoNewCashRejection(a, c)
    ensures forall i :: |b| <= i < |c| ==> !c[i].reason.InsufficientCash?
  {
  }

  lemma {:induction false} NeedIsRequired(c: Config, execs: seq<Exec>)
    ensures Required(c, execs) == BuyNeed(c, execs)
  {
    if execs != [] {
      NeedIsRequired(c, execs[..|execs| - 1]);
      var x := execs[|execs| - 1];
      TimesUnit(Times(x.quantity, x.terms.execution), c.feeRate);
    }
  }

  lemma ScaleIsShare(cash: real, need: real)
    requires 0.0 <= cash && 0.0 < need
    ensures ShareOf(cash, need, BuyScale(cash, need))
    ensures Times(BuyScale(cash, need), need) <= cash && 0.0 <= BuyScale(cash, need)
  {
    ScaleFits(cash, need);
    DivCancel(cash, need);
    DivNonneg(cash, need);
    if need <= cash {
      DivMono(need, cash, need);
      assert need / need == 1.0;
    } else if cash / need >= 1.0 {
      MulMono(1.0, cash / need, need);
    }
  }

  lemma {:induction false} NothingNeeded(e: Env, execs: seq<Exec>)
    requires EnvOk(e) && forall i :: 0 <= i < |execs| ==> ExecOk(e, execs[i])
    ensures 0.0 <= Required(e.config, execs) && (execs != [] ==> 0.0 < Required(e.config, execs))
  {
    if execs != [] {
      var n := |execs| - 1;
      NothingNeeded(e, execs[..n]);
      FeeBelowNotional(e, execs[n]);
    }
  }

  // ------------------------------------------------------------- the execution

  /**
   The fills of an execution, exactly and in order: those sells, then the buys at
   the common share of what the cash and the sale proceeds can pay for.
   */
  lemma ExecuteFillsExactly(e: Env, b: Book, ps: seq<Proposal>, rejections: seq<Rejection>) returns (share: real)
    requires EnvOk(e) && ProposalsOk(e, ps) && ProposalsQuoted(e, ps) && 0.0 <= b.cash && NoShorts(b.positions)
    requires Execute(e, b, ps, rejections).Ok?
    ensures ProposalsQuoted(e, OnSide(ps, Sell)) && ProposalsQuoted(e, OnSide(ps, Buy))
    ensures var sells, buys := SellExecs(e, b.positions, OnSide(ps, Sell)), BuyExecs(e, OnSide(ps, Buy));
            && ShareOf(b.cash + SaleProceeds(e.config, sells), BuyNeed(e.config, buys), share)
            && ExecsQuoted(e, buys)
            && Execute(e, b, ps, rejections).value.fills == b.fills + Filled(e, sells + ScaledExecs(e, share, buys))
  {
    hide Execute, SellExecs, BuyExecs, ScaledExecs, ShareOf, NoShorts, ProposalsOk, PlanSells, PlanBuys, FillAll, ExecuteBuys, OnSide, Filled,
         StageEvidence, SnapshotOk;
    var sellPlan, buyPlan, sold, bought := ExecuteStages(e, b, ps, rejections);
    share := ExecuteStagesFill(e, b, ps, rejections, sellPlan, buyPlan, sold, bought);
  }

  lemma FilledConcat(e: Env, xs: seq<Exec>, ys: seq<Exec>)
    ensures Filled(e, xs + ys) == Filled(e, xs) + Filled(e, ys)
  {
  }

  lemma ExecuteStagesFill(e: Env, b: Book, ps: seq<Proposal>, rejections: seq<Rejection>,
                          sellPlan: Work, buyPlan: Work, sold: Book, bought: Book) returns (share: real)
    requires EnvOk(e) && ProposalsOk(e, ps) && ProposalsQuoted(e, ps) && 0.0 <= b.cash && NoShorts(b.positions)
    requires Committed(e, b, ps, rejections, sellPlan, buyPlan, sold, bought)
    ensures ProposalsQuoted(e, OnSide(ps, Sell)) && ProposalsQuoted(e, OnSide(ps, Buy))
    ensures var sells, buys := SellExecs(e, b.positions, OnSide(ps, Sell)), BuyExecs(e, OnSide(ps, Buy));
            && ShareOf(b.cash + SaleProceeds(e.config, sells), BuyNeed(e.config, buys), share)
            && ExecsQuoted(e, buys) && bought.fills == b.fills + Filled(e, sells + ScaledExecs(e, share, buys))
  {
    hide PlanSells, PlanBuys, FillAll, FillBuys, Execute, OnSide, ExecOk, Normalized, StageEvidence, SaleProceeds, BuyNeed, Required,
         SellExecs, BuyExecs, ScaledExecs, Filled, ShareOf, NoShorts;
    var staged := StageEvidence(e, b, ps, rejections);
    var sells, buys := OnSide(ps, Sell), OnSide(ps, Buy);
    OnSideDistinct(e, ps, Sell);
    OnSideDistinct(e, ps, Buy);
    assert SameLedgers(staged, buyPlan.book) by {
      PlanSellsSound(e, b.positions, staged, sells, |sells|);
      PlanBuysSound(e, sellPlan.book, buys, |buys|);
    }
    StagedSame(e, b, ps, rejections);
    PlanSellsSound(e, b.positions, staged, sells, |sells|);
    PlanBuysSound(e, sellPlan.book, buys, |buys|);
    SellPlanIs(e, b.positions, staged, sells, |sells|);
    BuyPlanIs(e, sellPlan.book, buys, |buys|);
    assert sells[..|sells|] == sells && buys[..|buys|] == buys;
    SellsFilled(e, buyPlan.book, sellPlan.execs);
    FillSellsSolvent(e, buyPlan.book, sellPlan.execs);
    NeedIsRequired(e.config, buyPlan.execs);
    NothingNeeded(e, buyPlan.execs);
    share := BuysShare(e, sold, buyPlan.execs, bought);
    FilledConcat(e, sellPlan.execs, ScaledExecs(e, share, buyPlan.execs));
  }

  lemma StagedSame(e: Env, b: Book, ps: seq<Proposal>, rejections: seq<Rejection>)
    requires SnapshotOk(e.config, e.snapshot) && ProposalsQuoted(e, ps)
    ensures var staged := StageEvidence(e, b, ps, rejections);
            staged.fills == b.fills && staged.cash == b.cash && staged.positions == b.positions
  {
  }

  lemma BuysShare(e: Env, sold: Book, execs: seq<Exec>, bought: Book) returns (share: real)
    requires EnvOk(e) && BuysOk(e, execs) && ExecsQuoted(e, execs) && 0.0 <= sold.cash && NoShorts(sold.positions)
    requires ExecuteBuys(e, sold, execs) == Ok(bought)
    ensures ShareOf(sold.cash, BuyNeed(e.config, execs), share)
    ensures bought.fills == sold.fills + Filled(e, ScaledExecs(e, share, execs))
  {
    hide FillBuys, BuysOk;
    var need := Required(e.config, execs);
    NeedIsRequired(e.config, execs);
    assert 0.0 <= need && (execs != [] ==> 0.0 < need) by {
      BuysNeed(e, execs);
    }
    if need > 0.0 {
      share := BuyScale(sold.cash, need);
      ScaleIsShare(sold.cash, need);
      BuysFilled(e, share, sold, execs, |execs|);
      assert execs[..|execs|] == execs;
    } else {
      share := 1.0;
    }
  }

  lemma BuysNeed(e: Env, execs: seq<Exec>)
    requires EnvOk(e) && BuysOk(e, execs)
    ensures 0.0 <= Required(e.config, execs) && (execs != [] ==> 0.0 < Required(e.config, execs))
  {
    NothingNeeded(e, execs);
  }

  // ------------------------------------------------------ what the rows show

  /**
   The cost basis, exactly: a buy adds its own price times quantity to what the
   holding cost so far; a sell keeps the cost per unit of what is left, and a
   remainder within the tolerance costs nothing.
   */
  lemma CostBasisExactly(e: Env, b: Book, x: Exec)
    requires PersistFill(e, b, x).Ok?
    ensures var a := x.proposal.symbol;
            var held := if a in b.positions then b.positions[a].quantity else 0.0;
            var cost := if a in b.positions then b.positions[a].averageCost else 0.0;
            var positions := PersistFill(e, b, x).value.positions;
            && a in positions
            && (x.proposal.side == Buy ==>
                  positions[a].averageCost * (held + x.quantity) == held * cost + x.quantity * x.terms.execution)
            && (x.proposal.side == Sell ==>
                  positions[a].averageCost == if e.config.tolerance < held - x.quantity then cost else 0.0)
  {
    var a := x.proposal.symbol;
    if x.proposal.side == Buy {
      var held := if a in b.positions then b.positions[a].quantity else 0.0;
      var cost := if a in b.positions then b.positions[a].averageCost else 0.0;
      DivCancel(Times(held, cost) + Times(x.quantity, x.terms.execution), held + x.quantity);
    }
  }

  /** The quantity on the symbol's last ledger row, zero without one. */
  function LastQuantity(rows: seq<PositionRow>, s: Symbol): real {
    if rows == [] then 0.0
    else if rows[|rows| - 1].symbol == s then rows[|rows| - 1].quantityAfter
    else LastQuantity(rows[..|rows| - 1], s)
  }

  /** Each cash row shows the balance it left, and each symbol's last row the quantity held. */
  ghost predicate RowsShow(b: Book) {
    && (forall i :: 0 <= i < |b.cashLedger| ==> b.cashLedger[i].balanceAfter == CashTotal(b.cashLedger[..i + 1]))
    && b.cash == CashTotal(b.cashLedger)
    && forall s :: Held(b.positions, s) == LastQuantity(b.positionLedger, s)
  }

  lemma PersistShows(e: Env, b: Book, x: Exec)
    requires RowsShow(b) && PersistFill(e, b, x).Ok?
    ensures RowsShow(PersistFill(e, b, x).value)
  {
    hide CashDelta, FillOf;
    var b' := PersistFill(e, b, x).value;
    assert b'.cashLedger[..|b.cashLedger|] == b.cashLedger && b'.positionLedger[..|b.positionLedger|] == b.positionLedger;
    forall i | 0 <= i < |b'.cashLedger|
      ensures b'.cashLedger[i].balanceAfter == CashTotal(b'.cashLedger[..i + 1])
    {
      if i < |b.cashLedger| {
        assert b'.cashLedger[..i + 1] == b.cashLedger[..i + 1];
      } else {
        assert b'.cashLedger[..i + 1] == b'.cashLedger;
      }
    }
    forall s
      ensures Held(b'.positions, s) == LastQuantity(b'.positionLedger, s)
    {
      assert Held(b.positions, s) == LastQuantity(b.positionLedger, s);
    }
  }

  lemma {:induction false} FillAllShows(e: Env, b: Book, execs: seq<Exec>)
    requires RowsShow(b) && FillAll(e, b, execs).Ok?
    ensures RowsShow(FillAll(e, b, execs).value)
  {
    hide RowsShow, PersistFill;
    if execs != [] {
      FillAllLast(e, b, execs);
      FillAllShows(e, b, execs[..|execs| - 1]);
      PersistShows(e, FillAll(e, b, execs[..|execs| - 1]).value, execs[|execs| - 1]);
    }
  }

  lemma SameRowsShow(a: Book, b: Book)
    requires LedgerEq(a, b) && RowsShow(a)
    ensures RowsShow(b)
  {
  }

  lemma RunWeekShows(c: Config, b: Book, w: Week)
    requires ConfigOk(c) && RowsShow(b)
    ensures RowsShow(RunWeek(c, b, w))
  {
    if SnapshotOk(c, w.snapshot) && w.run !in b.outcomes && ExecuteWeek(c, b, w).Ok? {
      var e := WeekEnv(c, w);
      ProposalRejectionsSound(e, b, w.weights);
      var p := Proposals(e, b, w.weights, |c.assets|);
      hide Execute, Proposals, SnapshotOk, FillAll, Traced, RowsShow, ProposalsOk;
      var xs := ExecuteTrace(e, b, p.proposals, p.rejections);
      FillAllShows(e, b, xs);
      SameRowsShow(FillAll(e, b, xs).value, Execute(e, b, p.proposals, p.rejections).value);
    }
  }

  /** After any weeks every cash row shows the running balance, and every asset's last position row the quantity held. */
  lemma {:induction false} WeeksShow(c: Config, weeks: seq<Week>)
    requires ConfigOk(c)
    ensures RowsShow(RunWeeks(c, OpenBook(c), weeks))
  {
    if weeks == [] {
      var b := OpenBook(c);
      assert b.cashLedger[..1] == b.cashLedger && b.cashLedger[..0] == [];
      assert CashTotal(b.cashLedger) == CashTotal(b.cashLedger[..0]) + c.initialCash;
    } else {
      hide RowsShow, RunWeek;
      WeeksShow(c, weeks[..|weeks| - 1]);
      RunWeekShows(c, RunWeeks(c, OpenBook(c), weeks[..|weeks| - 1]), weeks[|weeks| - 1]);
    }
  }
}
