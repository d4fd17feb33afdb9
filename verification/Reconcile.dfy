/**
 `reconcile` of src/paper_store.py: the audit that re-derives accounting and
 rule decisions from the persisted rows alone, joining tables by their ids.
 */
module Reconcile {
  import opened Common
  import opened Numbers
  import opened Quantities
  import opened Broker
  import opened BrokerLedger

  /** Relative difference beyond the tolerance. */
  predicate Differs(c: Config, actual: real, expected: real) {
    Abs(actual - expected) > Times(c.tolerance, Max(1.0, Abs(expected)))
  }

  /** Spread-adjusted and final price the audit expects, from the persisted quote. */
  function ExpectedPrices(c: Config, ctx: Context, side: Side): (real, real) {
    if side.Buy? then
      var base := Max(ctx.ask, Times(ctx.mid, 1.0 + c.spreadRate));
      (base, Times(base, 1.0 + c.slippageRate))
    else
      var base := Min(ctx.bid, Times(ctx.mid, 1.0 - c.spreadRate));
      (base, Times(base, 1.0 - c.slippageRate))
  }

  predicate ContextOk(c: Config, ctx: Context) {
    0.0 < ctx.bid <= ctx.ask && !Differs(c, ctx.mid, (ctx.bid + ctx.ask) / 2.0)
  }

  predicate QuoteOf(ctx: Context, run: RunId, symbol: Symbol) {
    ctx.run == run && ctx.symbol == symbol
  }

  /** Order, fill, both ledger rows and the quote they were executed at. */
  predicate RowsAccounted(c: Config, o: Order, f: Fill, cash: CashRow, pos: PositionRow, ctx: Context) {
    var q := f.quantity;
    var (base, price) := ExpectedPrices(c, ctx, o.side);
    && 0.0 < q && o.symbol == f.symbol && o.side == f.side && o.run == f.run
    && c.tolerance < o.requested && Abs(o.requested - q) <= c.tolerance
    && cash.run == Some(o.run) && pos.run == o.run && pos.symbol == o.symbol
    && !Differs(c, f.mid, ctx.mid)
    && !Differs(c, pos.delta, if o.side.Buy? then q else -q)
    && !Differs(c, cash.amount,
                if o.side.Buy? then -(Times(q, f.execution) + f.fee) else Times(q, f.execution) - f.fee)
    && 0.0 <= f.execution && 0.0 <= f.spreadCost && 0.0 <= f.slippageCost && 0.0 <= f.fee
    && !Differs(c, f.execution, price)
    && !Differs(c, f.spreadCost, Times(q, Abs(base - ctx.mid)))
    && !Differs(c, f.slippageCost, Times(q, Abs(price - base)))
    && !Differs(c, f.fee, Times(Times(q, price), c.feeRate))
  }

  predicate HasFill(b: Book, key: Key) {
    exists j :: 0 <= j < |b.fills| && b.fills[j].key == key
  }

  predicate HasCash(b: Book, key: Key) {
    exists m :: 0 <= m < |b.cashLedger| && b.cashLedger[m].event == FillCash(key)
  }

  predicate HasPosition(b: Book, key: Key) {
    exists n :: 0 <= n < |b.positionLedger| && b.positionLedger[n].key == key
  }

  predicate HasContext(b: Book, run: RunId, symbol: Symbol) {
    exists k :: 0 <= k < |b.contexts| && QuoteOf(b.contexts[k], run, symbol)
  }

  /** Every joined combination of an order's fill, ledger rows and quote is consistent, and none is missing. */
  predicate OrderAccounted(c: Config, b: Book, o: Order) {
    && HasFill(b, o.key) && HasCash(b, o.key) && HasPosition(b, o.key) && HasContext(b, o.run, o.symbol)
    && forall j, m, n, k ::
         && 0 <= j < |b.fills| && b.fills[j].key == o.key
         && 0 <= m < |b.cashLedger| && b.cashLedger[m].event == FillCash(o.key)
         && 0 <= n < |b.positionLedger| && b.positionLedger[n].key == o.key
         && 0 <= k < |b.contexts| && QuoteOf(b.contexts[k], o.run, o.symbol)
         ==> RowsAccounted(c, o, b.fills[j], b.cashLedger[m], b.positionLedger[n], b.contexts[k])
  }

  /** The rejection reason re-derived from the persisted quantity, or from the persisted notional. */
  predicate RejectionAudited(c: Config, e: Evidence, r: Rejection, contexts: seq<Context>) {
    RuleReason(r.reason) ==>
      && 0.0 < r.requested
      && (r.stage.ProposalStage? ==> ExpectedReason(e, r.requested) == Some(r.reason))
      && (r.stage.FinalStage? ==>
            && (exists k :: 0 <= k < |contexts| && QuoteOf(contexts[k], r.run, r.symbol))
            && forall k :: 0 <= k < |contexts| && QuoteOf(contexts[k], r.run, r.symbol) ==>
                 FinalReasonAudited(c, e, r, contexts[k]))
  }

  predicate FinalReasonAudited(c: Config, e: Evidence, r: Rejection, ctx: Context) {
    var price := ExpectedPrices(c, ctx, r.side).1;
    && 0.0 < price
    && 0.0 < r.notional / price <= r.requested + c.tolerance
    && ExpectedReason(e, r.notional / price) == Some(r.reason)
  }

  /** Every fill and rejection of the evidence row's run and symbol agrees with it. */
  predicate EvidenceAudited(c: Config, b: Book, row: EvidenceRow) {
    && EvidenceValid(row.evidence)
    && (forall i, j ::
          && 0 <= i < |b.orders| && b.orders[i].run == row.run && b.orders[i].symbol == row.symbol
          && 0 <= j < |b.fills| && b.fills[j].key == b.orders[i].key
          ==> FillPasses(row.evidence, b.fills[j].quantity))
    && forall i :: 0 <= i < |b.rejections| && b.rejections[i].run == row.run && b.rejections[i].symbol == row.symbol
         ==> RejectionAudited(c, row.evidence, b.rejections[i], b.contexts)
  }

  predicate HasEvidence(b: Book, run: RunId, a: Symbol) {
    exists k :: 0 <= k < |b.evidence| && b.evidence[k].run == run && b.evidence[k].symbol == a
  }

  function ReasonText(r: Option<RangeReason>): Option<Reason> {
    match r
    case Some(Exceeded) => Some(PriceRangeExceeded)
    case Some(Unavailable) => Some(RangeEvidenceUnavailable)
    case _ => None
  }

  predicate Refusing(d: RangeDecision) {
    d.outcome.RangeRejected? || d.outcome.EvidenceUnavailable?
  }

  predicate RefusalPersisted(rejections: seq<Rejection>, d: DecisionRow) {
    exists i :: 0 <= i < |rejections| && rejections[i].run == d.run && rejections[i].key == d.key
                && Some(rejections[i].reason) == ReasonText(d.row.decision.reason)
  }

  /** A decision row against each range evidence, rule evidence and quote row it joins with. */
  predicate DecisionAudited(c: Config, b: Book, d: DecisionRow) {
    && 0.0 < d.execution
    && HasContext(b, d.run, d.symbol)
    && HasRange(b, d.run, d.symbol)
    && (forall k :: 0 <= k < |b.contexts| && QuoteOf(b.contexts[k], d.run, d.symbol) ==>
          d.execution == ExpectedPrices(c, b.contexts[k], d.side).1)
    && (forall i, k ::
          && 0 <= i < |b.ranges| && b.ranges[i].run == d.run && b.ranges[i].symbol == d.symbol
          && 0 <= k < |b.evidence| && b.evidence[k].run == d.run && b.evidence[k].symbol == d.symbol
          ==> ExpectedRange(b.ranges[i].range, b.evidence[k].evidence, d.side, d.execution) == Some(d.row))
    && (Refusing(d.row.decision) ==> RefusalPersisted(b.rejections, d))
  }

  predicate HasRange(b: Book, run: RunId, a: Symbol) {
    exists k :: 0 <= k < |b.ranges| && b.ranges[k].run == run && b.ranges[k].symbol == a
  }

  predicate DecidedIn(b: Book, run: RunId, key: Key) {
    exists i :: 0 <= i < |b.decisions| && b.decisions[i].run == run && b.decisions[i].key == key
  }

  predicate OrderedIn(b: Book, run: RunId, key: Key) {
    exists i :: 0 <= i < |b.orders| && b.orders[i].run == run && b.orders[i].key == key
  }

  predicate FinallyRejectedIn(b: Book, run: RunId, key: Key) {
    exists i :: 0 <= i < |b.rejections| && b.rejections[i].run == run && b.rejections[i].key == key
                && b.rejections[i].stage.FinalStage?
  }

  /** No missing and no orphan PRICE_RANGE decision. */
  predicate DecisionsMatchProposals(b: Book, run: RunId) {
    && (forall i :: 0 <= i < |b.decisions| && b.decisions[i].run == run ==>
          OrderedIn(b, run, b.decisions[i].key) || FinallyRejectedIn(b, run, b.decisions[i].key))
    && (forall i :: 0 <= i < |b.orders| && b.orders[i].run == run ==> DecidedIn(b, run, b.orders[i].key))
    && forall i :: 0 <= i < |b.rejections| && b.rejections[i].run == run && b.rejections[i].stage.FinalStage? ==>
         DecidedIn(b, run, b.rejections[i].key)
  }

  predicate CashReconciles(c: Config, b: Book) {
    -c.tolerance <= b.cash && Abs(b.cash - CashTotal(b.cashLedger)) <= c.tolerance
  }

  predicate PositionReconciles(c: Config, b: Book, s: Symbol) {
    -c.tolerance <= Held(b.positions, s) && Abs(Drift(b, s)) <= c.tolerance
  }

  predicate PositionsReconcile(c: Config, b: Book) {
    && (forall s :: s in b.positions ==> PositionReconciles(c, b, s))
    && forall i :: 0 <= i < |b.positionLedger| ==> PositionReconciles(c, b, b.positionLedger[i].symbol)
  }

  predicate NoOrphanFill(b: Book) {
    forall j :: 0 <= j < |b.fills| ==> 0.0 < b.fills[j].quantity && KeyUsed(b.orders, b.fills[j].key)
  }

  predicate RejectionsValid(b: Book) {
    forall i :: 0 <= i < |b.rejections| ==> 0.0 <= b.rejections[i].notional && b.rejections[i].run in b.outcomes
  }

  predicate RuleEvidenceReconciles(c: Config, b: Book) {
    && (forall i :: 0 <= i < |b.evidence| ==> EvidenceAudited(c, b, b.evidence[i]))
    && forall run, a :: run in b.outcomes && a in c.assets ==> HasEvidence(b, run, a)
  }

  predicate RangeEvidenceReconciles(c: Config, b: Book) {
    c.requireRangeEvidence ==>
      && (forall i :: 0 <= i < |b.ranges| ==> MultipliersBounded(b.ranges[i].range))
      && (forall i :: 0 <= i < |b.decisions| ==> DecisionAudited(c, b, b.decisions[i]))
      && forall run :: run in b.outcomes ==> DecisionsMatchProposals(b, run)
  }

  predicate ContextsReconcile(c: Config, b: Book) {
    forall k :: 0 <= k < |b.contexts| ==> ContextOk(c, b.contexts[k])
  }

  predicate OrdersReconcile(c: Config, b: Book) {
    forall i :: 0 <= i < |b.orders| ==> OrderAccounted(c, b, b.orders[i])
  }

  /** Everything `reconcile` checks of the modelled tables. */
  predicate Reconciles(c: Config, b: Book) {
    && RuleEvidenceReconciles(c, b)
    && RangeEvidenceReconciles(c, b)
    && CashReconciles(c, b)
    && PositionsReconcile(c, b)
    && NoOrphanFill(b)
    && RejectionsValid(b)
    && ContextsReconcile(c, b)
    && OrdersReconcile(c, b)
  }
}
