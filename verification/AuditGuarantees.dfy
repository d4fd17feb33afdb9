/**
 What a passing audit says about any tables at all, however they came about,
 written out in the rows' own fields: each check, and exactly these checks.
 */
module AuditGuarantees {
  import opened Common
  import opened Numbers
  import opened Grid
  import opened Quantities
  import opened QuantityRules
  import opened Broker
  import opened BrokerLedger
  import opened Reconcile

  function Size(x: real): real {
    if x < 0.0 then -x else x
  }

  /** Within the tolerance, relative to the expected value where that exceeds one. */
  predicate Near(c: Config, actual: real, expected: real) {
    Size(actual - expected) <= c.tolerance * (if Size(expected) < 1.0 then 1.0 else Size(expected))
  }

  /** What the fill should have been priced at: the quote, or mid moved by the spread rate if that is worse. */
  function QuotedBase(c: Config, q: Context, side: Side): real {
    if side == Buy then
      var widened := q.mid * (1.0 + c.spreadRate);
      if q.ask < widened then widened else q.ask
    else
      var widened := q.mid * (1.0 - c.spreadRate);
      if widened < q.bid then widened else q.bid
  }

  function SlippedPrice(c: Config, q: Context, side: Side): real {
    QuotedBase(c, q, side) * (if side == Buy then 1.0 + c.slippageRate else 1.0 - c.slippageRate)
  }

  // ------------------------------------------------------------- rows of a fill

  /** Order, fill, ledger rows and quote tell one story. */
  predicate RowsAgree(c: Config, o: Order, f: Fill, cash: CashRow, pos: PositionRow, q: Context) {
    var base, price := QuotedBase(c, q, o.side), SlippedPrice(c, q, o.side);
    var paid := Times(f.quantity, f.execution);
    && 0.0 < f.quantity && c.tolerance < o.requested && Size(o.requested - f.quantity) <= c.tolerance
    && f.symbol == o.symbol && pos.symbol == o.symbol && f.side == o.side
    && f.run == o.run && pos.run == o.run && cash.run == Some(o.run)
    && Near(c, f.mid, q.mid)
    && Near(c, pos.delta, if o.side == Buy then f.quantity else -f.quantity)
    && Near(c, cash.amount, if o.side == Buy then -(paid + f.fee) else paid - f.fee)
    && 0.0 <= f.execution && 0.0 <= f.spreadCost && 0.0 <= f.slippageCost && 0.0 <= f.fee
    && Near(c, f.execution, price)
    && Near(c, f.spreadCost, Times(f.quantity, Size(base - q.mid)))
    && Near(c, f.slippageCost, Times(f.quantity, Size(price - base)))
    && Near(c, f.fee, Times(Times(f.quantity, price), c.feeRate))
  }

  lemma NearExactly(c: Config, actual: real, expected: real)
    ensures Near(c, actual, expected) <==> !Differs(c, actual, expected)
  {
  }

  lemma PricesExactly(c: Config, q: Context, side: Side)
    ensures ExpectedPrices(c, q, side).0 == QuotedBase(c, q, side) && ExpectedPrices(c, q, side).1 == SlippedPrice(c, q, side)
  {
    var (base, price) := ExpectedPrices(c, q, side);
    assert Times(q.mid, 1.0 + c.spreadRate) == q.mid * (1.0 + c.spreadRate);
    assert Times(q.mid, 1.0 - c.spreadRate) == q.mid * (1.0 - c.spreadRate);
    assert base == QuotedBase(c, q, side);
    assert price == Times(base, if side == Buy then 1.0 + c.slippageRate else 1.0 - c.slippageRate);
  }

  lemma SizeExactly(x: real)
    ensures Abs(x) == Size(x)
  {
  }

  lemma RowsExactly(c: Config, o: Order, f: Fill, cash: CashRow, pos: PositionRow, q: Context)
    ensures RowsAccounted(c, o, f, cash, pos, q) <==> RowsAgree(c, o, f, cash, pos, q)
  {
    hide Near, Differs, ExpectedPrices, QuotedBase, SlippedPrice, Size, Abs, Times;
    var base, price := QuotedBase(c, q, o.side), SlippedPrice(c, q, o.side);
    PricesExactly(c, q, o.side);
    var quantity := f.quantity;
    SizeExactly(o.requested - quantity);
    SizeExactly(base - q.mid);
    SizeExactly(price - base);
    var paid := Times(quantity, f.execution);
    NearExactly(c, f.mid, q.mid);
    NearExactly(c, pos.delta, if o.side == Buy then quantity else -quantity);
    NearExactly(c, cash.amount, if o.side == Buy then -(paid + f.fee) else paid - f.fee);
    NearExactly(c, f.execution, price);
    NearExactly(c, f.spreadCost, Times(quantity, Size(base - q.mid)));
    NearExactly(c, f.slippageCost, Times(quantity, Size(price - base)));
    NearExactly(c, f.fee, Times(Times(quantity, price), c.feeRate));
  }

  // ------------------------------------------------------------- rule evidence

  /** Evidence the audit may use: a positive price unless an average could not be verified, and limits that make sense. */
  predicate EvidenceSound(e: Evidence) {
    var l := e.limits;
    var sane := Sane(l.minQuantity) && Sane(l.maxQuantity) && Sane(l.step) && Sane(l.marketMin) && Sane(l.marketMax)
             && Sane(l.marketStep) && Sane(l.minNotional) && Sane(l.notionalMin) && Sane(l.notionalMax);
    && (if e.source == UnverifiableAverage then e.price == None && AveragesPrice(e.flags) else PositiveNumber(e.price))
    && (e.source == LastFallback ==> !AveragesPrice(e.flags))
    && sane && 0 <= e.flags.minNotionalAvgMins && 0 <= e.flags.notionalAvgMins
    && LeavesRoom(ValueOf(l.minQuantity), ValueOf(l.maxQuantity)) && LeavesRoom(ValueOf(l.marketMin), ValueOf(l.marketMax))
    && LeavesRoom(ValueOf(l.notionalMin), ValueOf(l.notionalMax))
    && (e.flags.minNotionalApplies ==> l.minNotional != None) && (e.flags.notionalMinApplies ==> l.notionalMin != None)
    && (e.flags.notionalMaxApplies ==> l.notionalMax != None)
  }

  lemma EvidenceExactly(e: Evidence)
    ensures EvidenceValid(e) <==> EvidenceSound(e)
  {
    var l := e.limits;
    RoomExactly(ValueOf(l.minQuantity), ValueOf(l.maxQuantity));
    RoomExactly(ValueOf(l.marketMin), ValueOf(l.marketMax));
    RoomExactly(ValueOf(l.notionalMin), ValueOf(l.notionalMax));
    SaneExactly(l.minQuantity);
    SaneExactly(l.maxQuantity);
    SaneExactly(l.step);
    SaneExactly(l.marketMin);
    SaneExactly(l.marketMax);
    SaneExactly(l.marketStep);
    SaneExactly(l.minNotional);
    SaneExactly(l.notionalMin);
    SaneExactly(l.notionalMax);
    hide Sane, Malformed, LeavesRoom, Inverted;
  }

  lemma SaneExactly(x: Option<Num>)
    ensures Malformed(x) <==> !Sane(x)
    ensures Exact(x) == ValueOf(x)
    ensures Sane(x) ==> (x != None <==> ValueOf(x) != None)
  {
  }

  /** A filled quantity the recorded limits allow; a notional limit of zero binds nothing. */
  ghost predicate FillAllowed(e: Evidence, q: real) {
    var l := ExactLimits(e.limits);
    && e.source != UnverifiableAverage && ValueOf(e.price) != None
    && WithinQuantities(l, q) && OnBothGrids(l, q)
    && var notional := q * ValueOf(e.price).value;
       && (e.flags.minNotionalApplies && Positive(l.minNotional) ==> l.minNotional.value <= notional)
       && (e.flags.notionalMinApplies && Positive(l.notionalMin) ==> l.notionalMin.value <= notional)
       && (e.flags.notionalMaxApplies && Positive(l.notionalMax) ==> notional <= l.notionalMax.value)
  }

  lemma FillExactly(e: Evidence, q: real)
    ensures FillPasses(e, q) <==> FillAllowed(e, q)
  {
    var l := ExactLimits(e.limits);
    MisalignedIff(q, l.step);
    MisalignedIff(q, l.marketStep);
    assert Exact(e.price) == ValueOf(e.price);
    hide Misaligned, OnGrid;
  }

  /** The rejections whose reasons the audit derives again. */
  lemma DerivedReasonsExactly(r: Reason)
    ensures RuleReason(r) <==>
            r in {BelowMinQuantity, AboveMaxQuantity, BelowMarketMinQuantity, AboveMarketMaxQuantity, LotStepMismatch, MarketLotStepMismatch,
                  BelowMinNotional, BelowMarketNotional, AboveMarketNotional, MarketNotionalReferenceUnverifiable}
  {
  }

  /** The recorded reason follows from the quantity recorded, or from the notional and the quote it was measured at. */
  ghost predicate ReasonFollows(c: Config, e: Evidence, r: Rejection, contexts: seq<Context>) {
    RuleReason(r.reason) ==>
      && 0.0 < r.requested
      && (r.stage == ProposalStage ==> ExpectedReason(e, r.requested) == Some(r.reason))
      && (r.stage == FinalStage ==>
            && (exists k :: 0 <= k < |contexts| && contexts[k].run == r.run && contexts[k].symbol == r.symbol)
            && forall k :: 0 <= k < |contexts| && contexts[k].run == r.run && contexts[k].symbol == r.symbol ==>
                 var price := SlippedPrice(c, contexts[k], r.side);
                 && 0.0 < price && 0.0 < r.notional / price <= r.requested + c.tolerance
                 && ExpectedReason(e, r.notional / price) == Some(r.reason))
  }

  lemma FollowsExactly(c: Config, e: Evidence, r: Rejection, contexts: seq<Context>)
    ensures RejectionAudited(c, e, r, contexts) <==> ReasonFollows(c, e, r, contexts)
  {
    forall k | 0 <= k < |contexts|
      ensures ExpectedPrices(c, contexts[k], r.side).1 == SlippedPrice(c, contexts[k], r.side)
      ensures QuoteOf(contexts[k], r.run, r.symbol) <==> contexts[k].run == r.run && contexts[k].symbol == r.symbol
    {
      PricesExactly(c, contexts[k], r.side);
    }
    hide ExpectedPrices, SlippedPrice, ExpectedReason, RuleReason;
  }

  // -------------------------------------------------------------------- tables

  /** Account cash is not negative and equals its ledger, up to the tolerance; so does each position held or ever traded. */
  ghost predicate BalancesAgree(c: Config, b: Book) {
    && -c.tolerance <= b.cash && Size(b.cash - CashTotal(b.cashLedger)) <= c.tolerance
    && forall s :: s in b.positions || (exists i :: 0 <= i < |b.positionLedger| && b.positionLedger[i].symbol == s) ==>
         var held := if s in b.positions then b.positions[s].quantity else 0.0;
         -c.tolerance <= held && Size(held - DeltaTotal(b.positionLedger, s)) <= c.tolerance
  }

  /** The order has its fill, both ledger rows and its quote, and whatever is found under its key agrees. */
  ghost predicate OrderTraced(c: Config, b: Book, o: Order) {
    && (exists j :: 0 <= j < |b.fills| && b.fills[j].key == o.key)
    && (exists m :: 0 <= m < |b.cashLedger| && b.cashLedger[m].event == FillCash(o.key))
    && (exists n :: 0 <= n < |b.positionLedger| && b.positionLedger[n].key == o.key)
    && (exists k :: 0 <= k < |b.contexts| && b.contexts[k].run == o.run && b.contexts[k].symbol == o.symbol)
    && forall j, m, n, k ::
         && 0 <= j < |b.fills| && b.fills[j].key == o.key
         && 0 <= m < |b.cashLedger| && b.cashLedger[m].event == FillCash(o.key)
         && 0 <= n < |b.positionLedger| && b.positionLedger[n].key == o.key
         && 0 <= k < |b.contexts| && b.contexts[k].run == o.run && b.contexts[k].symbol == o.symbol
         ==> RowsAgree(c, o, b.fills[j], b.cashLedger[m], b.positionLedger[n], b.contexts[k])
  }

  ghost predicate OrdersTraced(c: Config, b: Book) {
    forall i :: 0 <= i < |b.orders| ==> OrderTraced(c, b, b.orders[i])
  }

  /** No fill without an order, no rejection without a run or with a negative notional, no quote out of order. */
  ghost predicate NothingStray(c: Config, b: Book) {
    && FillsOwned(b)
    && (forall i :: 0 <= i < |b.rejections| ==> 0.0 <= b.rejections[i].notional && b.rejections[i].run in b.outcomes)
    && QuotesInOrder(c, b)
  }

  ghost predicate FillsOwned(b: Book) {
    forall j :: 0 <= j < |b.fills| ==>
      0.0 < b.fills[j].quantity && exists i :: 0 <= i < |b.orders| && b.orders[i].key == b.fills[j].key
  }

  predicate QuoteInOrder(c: Config, q: Context) {
    0.0 < q.bid && q.bid <= q.ask && Near(c, q.mid, (q.bid + q.ask) / 2.0)
  }

  ghost predicate QuotesInOrder(c: Config, b: Book) {
    forall k :: 0 <= k < |b.contexts| ==> QuoteInOrder(c, b.contexts[k])
  }

  /** Every run has sound rule evidence for every asset, its fills obey it and its rejections follow from it. */
  ghost predicate RulesAgree(c: Config, b: Book) {
    && (forall run, a :: run in b.outcomes && a in c.assets ==>
          exists k :: 0 <= k < |b.evidence| && b.evidence[k].run == run && b.evidence[k].symbol == a)
    && forall k :: 0 <= k < |b.evidence| ==>
         var row := b.evidence[k];
         && EvidenceSound(row.evidence)
         && (forall i, j ::
               && 0 <= i < |b.orders| && b.orders[i].run == row.run && b.orders[i].symbol == row.symbol
               && 0 <= j < |b.fills| && b.fills[j].key == b.orders[i].key
               ==> FillAllowed(row.evidence, b.fills[j].quantity))
         && forall i :: 0 <= i < |b.rejections| && b.rejections[i].run == row.run && b.rejections[i].symbol == row.symbol ==>
              ReasonFollows(c, row.evidence, b.rejections[i], b.contexts)
  }

  predicate PositiveOrNone(x: Option<real>) {
    x.Some? ==> 0.0 < x.value
  }

  /** Every PRICE_RANGE decision is at the price its quote gives, is what its evidence gives, and has its refusal on file. */
  ghost predicate DecisionFollows(c: Config, b: Book, d: DecisionRow) {
    && 0.0 < d.execution
    && (exists k :: 0 <= k < |b.contexts| && b.contexts[k].run == d.run && b.contexts[k].symbol == d.symbol)
    && (exists k :: 0 <= k < |b.ranges| && b.ranges[k].run == d.run && b.ranges[k].symbol == d.symbol)
    && (forall k :: 0 <= k < |b.contexts| && b.contexts[k].run == d.run && b.contexts[k].symbol == d.symbol ==>
          d.execution == SlippedPrice(c, b.contexts[k], d.side))
    && (forall i, k ::
          && 0 <= i < |b.ranges| && b.ranges[i].run == d.run && b.ranges[i].symbol == d.symbol
          && 0 <= k < |b.evidence| && b.evidence[k].run == d.run && b.evidence[k].symbol == d.symbol
          ==> ExpectedRange(b.ranges[i].range, b.evidence[k].evidence, d.side, d.execution) == Some(d.row))
    && (d.row.decision.outcome == RangeRejected || d.row.decision.outcome == EvidenceUnavailable ==>
          exists i :: && 0 <= i < |b.rejections| && b.rejections[i].run == d.run && b.rejections[i].key == d.key
                      && ((d.row.decision.reason == Some(Exceeded) && b.rejections[i].reason == PriceRangeExceeded)
                          || (d.row.decision.reason == Some(Unavailable) && b.rejections[i].reason == RangeEvidenceUnavailable)))
  }

  /** Under range evidence: sound multipliers, decisions that follow, and one for exactly the orders and final rejections of each run. */
  ghost predicate RangesAgree(c: Config, b: Book) {
    c.requireRangeEvidence ==>
      && (forall k :: 0 <= k < |b.ranges| ==>
            var r := b.ranges[k].range;
            PositiveOrNone(r.bidUp) && PositiveOrNone(r.bidDown) && PositiveOrNone(r.askUp) && PositiveOrNone(r.askDown))
      && (forall i :: 0 <= i < |b.decisions| ==> DecisionFollows(c, b, b.decisions[i]))
      && forall run :: run in b.outcomes ==>
           && (forall i :: 0 <= i < |b.decisions| && b.decisions[i].run == run ==> ProposedIn(b, run, b.decisions[i].key))
           && (forall i :: 0 <= i < |b.orders| && b.orders[i].run == run ==> HasDecision(b, run, b.orders[i].key))
           && forall i :: 0 <= i < |b.rejections| && b.rejections[i].run == run && b.rejections[i].stage == FinalStage ==>
                HasDecision(b, run, b.rejections[i].key)
  }

  ghost predicate HasDecision(b: Book, run: RunId, key: Key) {
    exists i :: 0 <= i < |b.decisions| && b.decisions[i].run == run && b.decisions[i].key == key
  }

  ghost predicate ProposedIn(b: Book, run: RunId, key: Key) {
    || (exists i :: 0 <= i < |b.orders| && b.orders[i].run == run && b.orders[i].key == key)
    || exists i :: 0 <= i < |b.rejections| && b.rejections[i].run == run && b.rejections[i].key == key && b.rejections[i].stage == FinalStage
  }

  // --------------------------------------------------------------- the theorem

  lemma BalancesExactly(c: Config, b: Book)
    ensures CashReconciles(c, b) && PositionsReconcile(c, b) <==> BalancesAgree(c, b)
  {
    hide CashTotal, DeltaTotal;
    SizeExactly(b.cash - CashTotal(b.cashLedger));
    forall s
      ensures PositionReconciles(c, b, s) <==>
              var held := if s in b.positions then b.positions[s].quantity else 0.0;
              -c.tolerance <= held && Size(held - DeltaTotal(b.positionLedger, s)) <= c.tolerance
    {
      SizeExactly(Drift(b, s));
    }
    hide PositionReconciles, Size, Abs;
    if PositionsReconcile(c, b) {
      forall s | s in b.positions || exists i :: 0 <= i < |b.positionLedger| && b.positionLedger[i].symbol == s
        ensures PositionReconciles(c, b, s)
      {
        if i :| 0 <= i < |b.positionLedger| && b.positionLedger[i].symbol == s {
          assert PositionReconciles(c, b, b.positionLedger[i].symbol);
        }
      }
    }
  }

  lemma OrderExactly(c: Config, b: Book, o: Order)
    ensures OrderAccounted(c, b, o) <==> OrderTraced(c, b, o)
  {
    hide RowsAccounted, RowsAgree;
    if OrderAccounted(c, b, o) {
      forall j, m, n, k |
        && 0 <= j < |b.fills| && b.fills[j].key == o.key
        && 0 <= m < |b.cashLedger| && b.cashLedger[m].event == FillCash(o.key)
        && 0 <= n < |b.positionLedger| && b.positionLedger[n].key == o.key
        && 0 <= k < |b.contexts| && b.contexts[k].run == o.run && b.contexts[k].symbol == o.symbol
        ensures RowsAgree(c, o, b.fills[j], b.cashLedger[m], b.positionLedger[n], b.contexts[k])
      {
        assert QuoteOf(b.contexts[k], o.run, o.symbol);
        RowsExactly(c, o, b.fills[j], b.cashLedger[m], b.positionLedger[n], b.contexts[k]);
      }
    }
    if OrderTraced(c, b, o) {
      forall j, m, n, k |
        && 0 <= j < |b.fills| && b.fills[j].key == o.key
        && 0 <= m < |b.cashLedger| && b.cashLedger[m].event == FillCash(o.key)
        && 0 <= n < |b.positionLedger| && b.positionLedger[n].key == o.key
        && 0 <= k < |b.contexts| && QuoteOf(b.contexts[k], o.run, o.symbol)
        ensures RowsAccounted(c, o, b.fills[j], b.cashLedger[m], b.positionLedger[n], b.contexts[k])
      {
        RowsExactly(c, o, b.fills[j], b.cashLedger[m], b.positionLedger[n], b.contexts[k]);
      }
      var k :| 0 <= k < |b.contexts| && b.contexts[k].run == o.run && b.contexts[k].symbol == o.symbol;
      assert QuoteOf(b.contexts[k], o.run, o.symbol);
    }
  }

  lemma OrdersExactly(c: Config, b: Book)
    ensures OrdersReconcile(c, b) <==> OrdersTraced(c, b)
  {
    hide OrderAccounted, OrderTraced;
    forall i | 0 <= i < |b.orders|
      ensures OrderAccounted(c, b, b.orders[i]) <==> OrderTraced(c, b, b.orders[i])
    {
      OrderExactly(c, b, b.orders[i]);
    }
  }

  lemma StrayExactly(c: Config, b: Book)
    ensures NoOrphanFill(b) && RejectionsValid(b) && ContextsReconcile(c, b) <==> NothingStray(c, b)
  {
    QuotesExactly(c, b);
    FillsOwnedExactly(b);
    hide ContextsReconcile, QuotesInOrder, NoOrphanFill, FillsOwned;
  }

  lemma FillsOwnedExactly(b: Book)
    ensures NoOrphanFill(b) <==> FillsOwned(b)
  {
    if NoOrphanFill(b) {
      forall j | 0 <= j < |b.fills|
        ensures 0.0 < b.fills[j].quantity && exists i :: 0 <= i < |b.orders| && b.orders[i].key == b.fills[j].key
      {
        assert KeyUsed(b.orders, b.fills[j].key);
      }
      assert FillsOwned(b);
    }
    if FillsOwned(b) {
      forall j | 0 <= j < |b.fills|
        ensures 0.0 < b.fills[j].quantity && KeyUsed(b.orders, b.fills[j].key)
      {
        var i :| 0 <= i < |b.orders| && b.orders[i].key == b.fills[j].key;
      }
      assert NoOrphanFill(b);
    }
  }

  lemma QuotesExactly(c: Config, b: Book)
    ensures ContextsReconcile(c, b) <==> QuotesInOrder(c, b)
  {
    hide Near, Differs;
    forall k | 0 <= k < |b.contexts|
      ensures Near(c, b.contexts[k].mid, (b.contexts[k].bid + b.contexts[k].ask) / 2.0)
         <==> !Differs(c, b.contexts[k].mid, (b.contexts[k].bid + b.contexts[k].ask) / 2.0)
    {
      NearExactly(c, b.contexts[k].mid, (b.contexts[k].bid + b.contexts[k].ask) / 2.0);
    }
    if ContextsReconcile(c, b) {
      forall k | 0 <= k < |b.contexts|
        ensures QuoteInOrder(c, b.contexts[k])
      {
        assert ContextOk(c, b.contexts[k]);
      }
    }
    if QuotesInOrder(c, b) {
      forall k | 0 <= k < |b.contexts|
        ensures ContextOk(c, b.contexts[k])
      {
        assert QuoteInOrder(c, b.contexts[k]);
      }
    }
  }

  lemma EvidenceRowExactly(c: Config, b: Book, row: EvidenceRow)
    ensures EvidenceAudited(c, b, row) <==>
            && EvidenceSound(row.evidence)
            && (forall i, j ::
                  && 0 <= i < |b.orders| && b.orders[i].run == row.run && b.orders[i].symbol == row.symbol
                  && 0 <= j < |b.fills| && b.fills[j].key == b.orders[i].key
                  ==> FillAllowed(row.evidence, b.fills[j].quantity))
            && forall i :: 0 <= i < |b.rejections| && b.rejections[i].run == row.run && b.rejections[i].symbol == row.symbol ==>
                 ReasonFollows(c, row.evidence, b.rejections[i], b.contexts)
  {
    hide EvidenceValid, EvidenceSound, FillPasses, FillAllowed, RejectionAudited, ReasonFollows;
    EvidenceExactly(row.evidence);
    forall q: real
      ensures FillPasses(row.evidence, q) <==> FillAllowed(row.evidence, q)
    {
      FillExactly(row.evidence, q);
    }
    forall r
      ensures RejectionAudited(c, row.evidence, r, b.contexts) <==> ReasonFollows(c, row.evidence, r, b.contexts)
    {
      FollowsExactly(c, row.evidence, r, b.contexts);
    }
  }

  lemma RulesExactly(c: Config, b: Book)
    ensures RuleEvidenceReconciles(c, b) <==> RulesAgree(c, b)
  {
    hide EvidenceAudited, EvidenceSound, FillAllowed, ReasonFollows;
    forall row
      ensures EvidenceAudited(c, b, row) <==>
              && EvidenceSound(row.evidence)
              && (forall i, j ::
                    && 0 <= i < |b.orders| && b.orders[i].run == row.run && b.orders[i].symbol == row.symbol
                    && 0 <= j < |b.fills| && b.fills[j].key == b.orders[i].key
                    ==> FillAllowed(row.evidence, b.fills[j].quantity))
              && forall i :: 0 <= i < |b.rejections| && b.rejections[i].run == row.run && b.rejections[i].symbol == row.symbol ==>
                   ReasonFollows(c, row.evidence, b.rejections[i], b.contexts)
    {
      EvidenceRowExactly(c, b, row);
    }
  }

  lemma DecisionExactly(c: Config, b: Book, d: DecisionRow)
    ensures DecisionAudited(c, b, d) <==> DecisionFollows(c, b, d)
  {
    hide ExpectedPrices, SlippedPrice, ExpectedRange;
    forall k | 0 <= k < |b.contexts|
      ensures ExpectedPrices(c, b.contexts[k], d.side).1 == SlippedPrice(c, b.contexts[k], d.side)
    {
      PricesExactly(c, b.contexts[k], d.side);
    }
    RefusalExactly(b, d);
    hide RefusalPersisted, Refusing;
  }

  lemma RefusalExactly(b: Book, d: DecisionRow)
    ensures Refusing(d.row.decision) <==> d.row.decision.outcome == RangeRejected || d.row.decision.outcome == EvidenceUnavailable
    ensures RefusalPersisted(b.rejections, d) <==>
            exists i :: && 0 <= i < |b.rejections| && b.rejections[i].run == d.run && b.rejections[i].key == d.key
                        && ((d.row.decision.reason == Some(Exceeded) && b.rejections[i].reason == PriceRangeExceeded)
                            || (d.row.decision.reason == Some(Unavailable) && b.rejections[i].reason == RangeEvidenceUnavailable))
  {
  }

  lemma RangesExactly(c: Config, b: Book)
    ensures RangeEvidenceReconciles(c, b) <==> RangesAgree(c, b)
  {
    hide DecisionAudited, DecisionFollows;
    forall d
      ensures DecisionAudited(c, b, d) <==> DecisionFollows(c, b, d)
    {
      DecisionExactly(c, b, d);
    }
    forall run, key
      ensures DecidedIn(b, run, key) <==> HasDecision(b, run, key)
      ensures OrderedIn(b, run, key) || FinallyRejectedIn(b, run, key) <==> ProposedIn(b, run, key)
    {
    }
    hide DecidedIn, HasDecision, OrderedIn, FinallyRejectedIn, ProposedIn;
  }

  /** The audit passes exactly the tables of which all of this is true, whoever wrote them. */
  lemma AuditExactly(c: Config, b: Book)
    ensures Reconciles(c, b)
       <==> BalancesAgree(c, b) && OrdersTraced(c, b) && NothingStray(c, b) && RulesAgree(c, b) && RangesAgree(c, b)
  {
    hide BalancesAgree, OrdersTraced, NothingStray, RulesAgree, RangesAgree, CashReconciles, PositionsReconcile, OrdersReconcile, NoOrphanFill,
         RejectionsValid, ContextsReconcile, RuleEvidenceReconciles, RangeEvidenceReconciles;
    BalancesExactly(c, b);
    OrdersExactly(c, b);
    StrayExactly(c, b);
    RulesExactly(c, b);
    RangesExactly(c, b);
  }
}
