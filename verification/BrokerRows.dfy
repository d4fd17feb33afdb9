/** What each row added by one execution is: the writer's side of the audit. */
module BrokerRows {
  import opened Common
  import opened Numbers
  import opened Quantities
  import opened Broker
  import opened BrokerSolvency
  import opened BrokerTrace
  import opened BrokerIntents
  import opened Reconcile

  ghost predicate FillSound(e: Env, f: Fill) {
    exists x :: ExecOk(e, x) && Normalized(e, x) && x.proposal.key == Key(e.signal, x.proposal.symbol) && f == FillOf(e, x)
  }

  function PriceFor(e: Env, a: Symbol, side: Side): real
    requires a in e.snapshot.quotes
  {
    ExecutionTerms(e.config, e.snapshot.quotes[a], side).execution
  }

  /** A final rule rejection records the notional of the quantity that was refused. */
  ghost predicate FinalSound(e: Env, r: Rejection)
    requires r.symbol in e.snapshot.quotes
  {
    RuleReason(r.reason) ==>
      exists q :: e.config.tolerance < q <= r.requested && r.notional == Times(q, PriceFor(e, r.symbol, r.side))
                  && NormalizeFor(e, r.symbol, q) == Rejected(r.reason)
  }

  ghost predicate RejectionSound(e: Env, r: Rejection) {
    && RejectionOwn(e, r) && r.symbol in e.snapshot.quotes && 0.0 <= r.notional
    && match r.stage
       case ProposalStage => NormalizeFor(e, r.symbol, r.requested) == Rejected(r.reason)
       case FinalStage => FinalSound(e, r)
  }

  /** Rows from position k on are sound. */
  ghost predicate SoundFrom(e: Env, rows: seq<Rejection>, k: nat) {
    forall i :: k <= i < |rows| ==> RejectionSound(e, rows[i])
  }

  ghost predicate FinalFrom(rows: seq<Rejection>, k: nat) {
    forall i :: k <= i < |rows| ==> rows[i].stage.FinalStage?
  }

  ghost predicate DecisionSound(e: Env, d: DecisionRow) {
    && d.run == e.run && d.symbol in e.config.assets && d.symbol in e.snapshot.quotes
    && d.key == Key(e.signal, d.symbol)
    && d.execution == PriceFor(e, d.symbol, d.side)
    && var reference := Get(e.snapshot.references, d.symbol);
       var r := EvaluateRange(RangeOf(e, d.symbol), reference, d.side, d.execution);
       r.Ok? && d.row == RecordRange(r.value, reference)
  }

  ghost predicate DecisionsFrom(e: Env, rows: seq<DecisionRow>, k: nat) {
    forall i :: k <= i < |rows| ==> DecisionSound(e, rows[i])
  }

  /** Every refusing decision has its rejection. */
  ghost predicate Backed(b: Book) {
    forall i :: 0 <= i < |b.decisions| && Refusing(b.decisions[i].row.decision) ==>
      RefusalPersisted(b.rejections, b.decisions[i])
  }

  /** One step's additions to rejections and decisions. */
  ghost predicate Noted(e: Env, before: Book, after: Book) {
    && |before.rejections| <= |after.rejections| && after.rejections[..|before.rejections|] == before.rejections
    && |before.decisions| <= |after.decisions| && after.decisions[..|before.decisions|] == before.decisions
    && SoundFrom(e, after.rejections, |before.rejections|) && FinalFrom(after.rejections, |before.rejections|)
    && DecisionsFrom(e, after.decisions, |before.decisions|)
    && (Backed(before) ==> Backed(after))
    && after.contexts == before.contexts && after.evidence == before.evidence && after.ranges == before.ranges
    && after.outcomes == before.outcomes && after.equity == before.equity
  }

  lemma NotedTransitive(e: Env, a: Book, b: Book, c: Book)
    requires Noted(e, a, b) && Noted(e, b, c)
    ensures Noted(e, a, c)
  {
    hide RejectionSound, DecisionSound, Backed;
    PrefixTransitive(a.rejections, b.rejections, c.rejections);
    PrefixTransitive(a.decisions, b.decisions, c.decisions);
    forall i | |a.rejections| <= i < |c.rejections|
      ensures RejectionSound(e, c.rejections[i]) && c.rejections[i].stage.FinalStage?
    {
      if i < |b.rejections| {
        assert c.rejections[i] == c.rejections[..|b.rejections|][i] == b.rejections[i];
      }
    }
    forall i | |a.decisions| <= i < |c.decisions|
      ensures DecisionSound(e, c.decisions[i])
    {
      if i < |b.decisions| {
        assert c.decisions[i] == c.decisions[..|b.decisions|][i] == b.decisions[i];
      }
    }
  }

  lemma PrefixTransitive<T>(a: seq<T>, b: seq<T>, c: seq<T>)
    requires |a| <= |b| <= |c| && b[..|a|] == a && c[..|b|] == b
    ensures c[..|a|] == a
  {
    assert c[..|a|] == c[..|b|][..|a|];
  }

  lemma BackedGrows(b: Book, b': Book)
    requires Backed(b) && b'.decisions == b.decisions
    requires |b.rejections| <= |b'.rejections| && b'.rejections[..|b.rejections|] == b.rejections
    ensures Backed(b')
  {
    forall i | 0 <= i < |b'.decisions| && Refusing(b'.decisions[i].row.decision)
      ensures RefusalPersisted(b'.rejections, b'.decisions[i])
    {
      assert RefusalPersisted(b.rejections, b.decisions[i]);
      var j :| 0 <= j < |b.rejections| && b.rejections[j].run == b.decisions[i].run && b.rejections[j].key == b.decisions[i].key
               && Some(b.rejections[j].reason) == ReasonText(b.decisions[i].row.decision.reason);
      assert b'.rejections[j] == b'.rejections[..|b.rejections|][j];
    }
  }

  lemma RejectNoted(e: Env, b: Book, r: Rejection)
    requires RejectionSound(e, r) && r.stage.FinalStage?
    ensures Noted(e, b, Reject(b, r))
  {
    hide RejectionSound;
    if Backed(b) {
      BackedGrows(b, Reject(b, r));
    }
  }

  /** A proposal of this run. */
  predicate ProposalOwn(e: Env, p: Proposal) {
    && p.symbol in e.config.assets && p.symbol in e.snapshot.quotes
    && p.key == Key(e.signal, p.symbol) && e.config.tolerance < p.requested
  }

  lemma FinalRejectionSound(e: Env, p: Proposal, q: real, price: real, requested: real)
    requires EnvOk(e) && ProposalOwn(e, p) && q <= p.requested && 0.0 <= q
    requires NormalizeFor(e, p.symbol, q).Rejected? && price == PriceFor(e, p.symbol, p.side) && 0.0 < price
    ensures RejectionSound(e, RejectAt(e, p, NormalizeFor(e, p.symbol, q).reason, Times(q, price), FinalStage))
  {
    TimesNonneg(q, price);
    var r := RejectAt(e, p, NormalizeFor(e, p.symbol, q).reason, Times(q, price), FinalStage);
    if RuleReason(r.reason) {
      assert e.config.tolerance < q;
      assert NormalizeFor(e, r.symbol, q) == Rejected(r.reason);
    }
  }

  lemma BackedAppend(b: Book, b': Book, d: DecisionRow)
    requires Backed(b) && b'.decisions == b.decisions + [d]
    requires |b.rejections| <= |b'.rejections| && b'.rejections[..|b.rejections|] == b.rejections
    requires Refusing(d.row.decision) ==> RefusalPersisted(b'.rejections, d)
    ensures Backed(b')
  {
    BackedGrows(b, b.(rejections := b'.rejections));
    forall i | 0 <= i < |b'.decisions| && Refusing(b'.decisions[i].row.decision)
      ensures RefusalPersisted(b'.rejections, b'.decisions[i])
    {
      if i < |b.decisions| {
        assert b'.decisions[i] == b.decisions[i];
      }
    }
  }

  /** The shape of a checked range: one decision, and a rejection exactly when it refuses. */
  lemma CheckRangeShape(e: Env, b: Book, p: Proposal) returns (d: DecisionRow)
    requires EnvOk(e) && ProposalOwn(e, p) && e.config.requireRangeEvidence && CheckRange(e, b, p).Ok?
    ensures var (b', proceed) := CheckRange(e, b, p).value;
            && DecisionSound(e, d) && d.key == p.key && proceed == !Refusing(d.row.decision)
            && (proceed ==> b' == b.(decisions := b.decisions + [d]))
            && (!proceed ==>
                  && ReasonText(d.row.decision.reason).Some?
                  && b' == b.(decisions := b.decisions + [d], rejections := b.rejections
                       + [RejectAt(e, p, ReasonText(d.row.decision.reason).value,
                                   Times(p.requested, PriceFor(e, p.symbol, p.side)), FinalStage)]))
  {
    var (b', proceed) := CheckRange(e, b, p).value;
    d := b'.decisions[|b.decisions|];
    RangeOutcomeReason(RangeOf(e, p.symbol), Get(e.snapshot.references, p.symbol), p.side, PriceFor(e, p.symbol, p.side));
    hide ExecutionTerms, EvaluateRange;
  }

  lemma CheckRangeNoted(e: Env, b: Book, p: Proposal)
    requires EnvOk(e) && ProposalOwn(e, p) && CheckRange(e, b, p).Ok?
    ensures Noted(e, b, CheckRange(e, b, p).value.0)
  {
    if e.config.requireRangeEvidence {
      TermsOrdered(e.config, e.snapshot.quotes[p.symbol], p.side);
      TimesNonneg(p.requested, PriceFor(e, p.symbol, p.side));
      var d := CheckRangeShape(e, b, p);
      hide CheckRange, ExecutionTerms, DecisionSound, Times;
      var b' := CheckRange(e, b, p).value.0;
      if Refusing(d.row.decision) {
        assert b'.rejections[|b.rejections|].key == d.key;
      }
      if Backed(b) {
        BackedAppend(b, b', d);
      }
    }
  }

  lemma RangeOutcomeReason(rule: RangeEvidence, reference: Option<RuleReference>, side: Side, execution: real)
    ensures var r := EvaluateRange(rule, reference, side, execution);
            r.Ok? ==>
              && (r.value.outcome.RangeRejected? ==> r.value.reason == Some(Exceeded))
              && (r.value.outcome.EvidenceUnavailable? ==> r.value.reason == Some(Unavailable))
  {
  }

  lemma PlanSellNoted(e: Env, positions: map<Symbol, Position>, w: Work, p: Proposal)
    requires EnvOk(e) && ProposalOwn(e, p) && NoShorts(positions) && PlanSell(e, positions, w, p).Ok?
    ensures Noted(e, w.book, PlanSell(e, positions, w, p).value.book)
  {
    CheckRangeNoted(e, w.book, p);
    TermsOrdered(e.config, e.snapshot.quotes[p.symbol], p.side);
    var requested := Min(p.requested, Held(positions, p.symbol));
    var price := PriceFor(e, p.symbol, p.side);
    assert TermsFor(e, p).execution == price;
    hide ExecutionTerms, CheckRange, NormalizeFor, Noted, RejectionSound;
    var (b1, proceed) := CheckRange(e, w.book, p).value;
    match NormalizeFor(e, p.symbol, requested)
    case Rejected(reason) =>
      FinalRejectionSound(e, p, requested, price, requested);
      RejectNoted(e, b1, RejectAt(e, p, reason, Times(requested, price), FinalStage));
      NotedTransitive(e, w.book, b1, Reject(b1, RejectAt(e, p, reason, Times(requested, price), FinalStage)));
    case Accepted(_) =>
  }

  lemma NotedSelf(e: Env, b: Book)
    ensures Noted(e, b, b)
  {
  }

  lemma {:induction false} PlanSellsNoted(e: Env, positions: map<Symbol, Position>, b: Book, sells: seq<Proposal>,
                                          n: nat)
    requires EnvOk(e) && ProposalsOk(e, sells) && n <= |sells| && ProposalsQuoted(e, sells) && NoShorts(positions)
    requires PlanSells(e, positions, b, sells, n).Ok?
    ensures Noted(e, b, PlanSells(e, positions, b, sells, n).value.book)
  {
    hide PlanSell, Noted;
    if n == 0 {
      NotedSelf(e, b);
    } else {
      PlanSellsNoted(e, positions, b, sells, n - 1);
      var w := PlanSells(e, positions, b, sells, n - 1).value;
      PlanSellNoted(e, positions, w, sells[n - 1]);
      NotedTransitive(e, b, w.book, PlanSells(e, positions, b, sells, n).value.book);
    }
  }

  lemma {:induction false} PlanBuysNoted(e: Env, b: Book, buys: seq<Proposal>, n: nat)
    requires EnvOk(e) && ProposalsOk(e, buys) && n <= |buys| && ProposalsQuoted(e, buys)
    requires PlanBuys(e, b, buys, n).Ok?
    ensures Noted(e, b, PlanBuys(e, b, buys, n).value.book)
  {
    hide CheckRange, ExecutionTerms, Noted;
    if n == 0 {
      NotedSelf(e, b);
    } else {
      PlanBuysNoted(e, b, buys, n - 1);
      var w := PlanBuys(e, b, buys, n - 1).value;
      CheckRangeNoted(e, w.book, buys[n - 1]);
      NotedTransitive(e, b, w.book, PlanBuys(e, b, buys, n).value.book);
    }
  }

  lemma PersistFillNoted(e: Env, b: Book, x: Exec)
    requires PersistFill(e, b, x).Ok?
    ensures Noted(e, b, PersistFill(e, b, x).value)
  {
    if Backed(b) {
      BackedGrows(b, PersistFill(e, b, x).value);
    }
  }

  lemma {:induction false} FillAllNoted(e: Env, b: Book, xs: seq<Exec>)
    requires FillAll(e, b, xs).Ok?
    ensures Noted(e, b, FillAll(e, b, xs).value)
  {
    hide PersistFill, Noted;
    if xs == [] {
      NotedSelf(e, b);
    } else {
      var n := |xs| - 1;
      FillAllNoted(e, b, xs[..n]);
      PersistFillNoted(e, FillAll(e, b, xs[..n]).value, xs[n]);
      NotedTransitive(e, b, FillAll(e, b, xs[..n]).value, FillAll(e, b, xs).value);
    }
  }

  predicate PlannedBuy(e: Env, x: Exec) {
    ProposalOwn(e, x.proposal) && ExecOk(e, x) && x.quantity == x.proposal.requested
  }

  lemma FillBuyNoted(e: Env, scale: real, b: Book, x: Exec)
    requires EnvOk(e) && PlannedBuy(e, x) && 0.0 <= scale <= 1.0 && FillBuy(e, scale, b, x).Ok?
    ensures Noted(e, b, FillBuy(e, scale, b, x).value)
  {
    var p := x.proposal;
    var scaled := Times(x.quantity, scale);
    var price := PriceFor(e, p.symbol, p.side);
    assert x.terms.execution == price;
    TermsOrdered(e.config, e.snapshot.quotes[p.symbol], p.side);
    TimesNonneg(x.quantity, scale);
    TimesMono(scale, 1.0, x.quantity);
    assert Times(x.quantity, 1.0) == x.quantity;
    match NormalizeFor(e, p.symbol, scaled)
    case Rejected(reason) =>
      hide ExecutionTerms, NormalizeFor, Noted, RejectionSound, Times;
      FinalRejectionSound(e, p, scaled, price, scaled);
      RejectNoted(e, b, RejectAt(e, p, reason, Times(scaled, price), FinalStage));
    case Accepted(n) =>
      NormalizeForBounds(e, p.symbol, scaled);
      TimesNonneg(n, price);
      hide ExecutionTerms, NormalizeFor, Noted, Times, PersistFill;
      var r := RejectAt(e, p, InsufficientCash, Times(n, price), FinalStage);
      assert RejectionSound(e, r);
      RejectNoted(e, b, r);
      if PersistFill(e, b, x.(quantity := n)).Ok? {
        PersistFillNoted(e, b, x.(quantity := n));
      }
  }

  lemma {:induction false} FillBuysNoted(e: Env, scale: real, b: Book, xs: seq<Exec>, n: nat)
    requires EnvOk(e) && n <= |xs| && ExecsQuoted(e, xs) && 0.0 <= scale <= 1.0
    requires forall i :: 0 <= i < |xs| ==> PlannedBuy(e, xs[i])
    requires FillBuys(e, scale, b, xs, n).Ok?
    ensures Noted(e, b, FillBuys(e, scale, b, xs, n).value)
  {
    hide FillBuy, Noted, PlannedBuy;
    if n == 0 {
      NotedSelf(e, b);
    } else {
      FillBuysNoted(e, scale, b, xs, n - 1);
      var w := FillBuys(e, scale, b, xs, n - 1).value;
      FillBuyNoted(e, scale, w, xs[n - 1]);
      NotedTransitive(e, b, w, FillBuys(e, scale, b, xs, n).value);
    }
  }

  /** From the staged evidence to the end of the fills, only sound rows are added. */
  lemma CommittedNoted(e: Env, b: Book, ps: seq<Proposal>, rejections: seq<Rejection>,
                       sellPlan: Work, buyPlan: Work, sold: Book, bought: Book)
    requires EnvOk(e) && ProposalsOk(e, ps) && ProposalsQuoted(e, ps) && NoShorts(b.positions) && 0.0 <= b.cash
    requires Committed(e, b, ps, rejections, sellPlan, buyPlan, sold, bought)
    ensures Noted(e, StageEvidence(e, b, ps, rejections), bought)
  {
    var staged := StageEvidence(e, b, ps, rejections);
    hide PlanSells, PlanBuys, FillAll, FillBuys, Execute, OnSide, StageEvidence, Noted, ExecOk, Normalized;
    var sells, buys := OnSide(ps, Sell), OnSide(ps, Buy);
    OnSideDistinct(e, ps, Sell);
    OnSideDistinct(e, ps, Buy);
    PlanSellsNoted(e, b.positions, staged, sells, |sells|);
    PlanBuysNoted(e, sellPlan.book, buys, |buys|);
    FillAllNoted(e, buyPlan.book, sellPlan.execs);
    NotedTransitive(e, staged, sellPlan.book, buyPlan.book);
    NotedTransitive(e, staged, buyPlan.book, sold);
    if Required(e.config, buyPlan.execs) > 0.0 {
      BoughtNoted(e, b, ps, rejections, sellPlan, buyPlan, sold, bought);
      NotedTransitive(e, staged, sold, bought);
    }
  }

  lemma BoughtNoted(e: Env, b: Book, ps: seq<Proposal>, rejections: seq<Rejection>,
                    sellPlan: Work, buyPlan: Work, sold: Book, bought: Book)
    requires EnvOk(e) && ProposalsOk(e, ps) && ProposalsQuoted(e, ps) && NoShorts(b.positions) && 0.0 <= b.cash
    requires Committed(e, b, ps, rejections, sellPlan, buyPlan, sold, bought)
    requires Required(e.config, buyPlan.execs) > 0.0
    ensures Noted(e, sold, bought)
  {
    hide PlanSells, PlanBuys, FillAll, FillBuys, Execute, OnSide, Noted, ExecOk, Normalized;
    var buys := OnSide(ps, Buy);
    OnSideDistinct(e, ps, Buy);
    SoldCash(e, b, ps, rejections, sellPlan, buyPlan, sold, bought);
    ScaleFits(sold.cash, Required(e.config, buyPlan.execs));
    PlanBuysSound(e, sellPlan.book, buys, |buys|);
    assert buys[..|buys|] == buys;
    forall i | 0 <= i < |buyPlan.execs|
      ensures PlannedBuy(e, buyPlan.execs[i])
    {
      assert buyPlan.execs[i].proposal in buys;
    }
    FillBuysNoted(e, BuyScale(sold.cash, Required(e.config, buyPlan.execs)), sold, buyPlan.execs, |buyPlan.execs|);
  }

  lemma SoldCash(e: Env, b: Book, ps: seq<Proposal>, rejections: seq<Rejection>,
                 sellPlan: Work, buyPlan: Work, sold: Book, bought: Book)
    requires EnvOk(e) && ProposalsOk(e, ps) && ProposalsQuoted(e, ps) && NoShorts(b.positions) && 0.0 <= b.cash
    requires Committed(e, b, ps, rejections, sellPlan, buyPlan, sold, bought)
    ensures 0.0 <= sold.cash
  {
    hide PlanSells, PlanBuys, FillAll, ExecuteBuys, Execute, OnSide, ExecOk, Normalized;
    var staged := StageEvidence(e, b, ps, rejections);
    var sells, buys := OnSide(ps, Sell), OnSide(ps, Buy);
    OnSideDistinct(e, ps, Sell);
    OnSideDistinct(e, ps, Buy);
    PlanSellsSound(e, b.positions, staged, sells, |sells|);
    PlanBuysSound(e, sellPlan.book, buys, |buys|);
    assert sells[..|sells|] == sells;
    FillSellsSolvent(e, buyPlan.book, sellPlan.execs);
  }
}
