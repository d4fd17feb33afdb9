/**
 Writer refines checker: starting from a fresh account, after any number of
 weekly executions `reconcile` finds nothing to object to.
 */
module BrokerAudit {
  import opened Common
  import opened Numbers
  import opened Grid
  import opened Quantities
  import opened Broker
  import opened BrokerSolvency
  import opened BrokerTrace
  import opened BrokerLedger
  import opened BrokerIntents
  import opened BrokerRows
  import opened Reconcile

  /** Every step the broker floors to is one the audit sees, as for all parsed rules. */
  predicate StepsVisible(e: Env) {
    EnvOk(e) && forall a :: a in e.config.assets && a in e.snapshot.rules ==> StepsAudited(e.snapshot.rules[a])
  }

  /** The evidence of every asset passes the audit's own validity checks. */
  predicate EvidenceAuditable(e: Env)
    requires EnvOk(e)
  {
    forall a :: a in e.config.assets ==> EvidenceValid(EvidenceOf(e, a).evidence)
  }

  /** The limit a rejection names is one the audit sees. */
  predicate RejectionExplained(e: Env, r: Rejection) {
    RuleReason(r.reason) ==> Visible(Get(e.snapshot.rules, r.symbol), r.reason)
  }

  /** The PRICE_RANGE rule is enforceable, or no reference price was observed. */
  predicate DecisionExplained(e: Env, a: Symbol) {
    RuleEnforceable(RangeOf(e, a)) || !HasReferencePrice(Get(e.snapshot.references, a))
  }

  /** What the rule audit needs of the rows one execution adds. */
  ghost predicate RulesExplained(e: Env, before: Book, after: Book) {
    && EnvOk(e) && EvidenceAuditable(e)
    && forall i :: |before.rejections| <= i < |after.rejections| ==> RejectionExplained(e, after.rejections[i])
  }

  /** What the PRICE_RANGE audit needs of them. */
  ghost predicate RangesExplained(e: Env, before: Book, after: Book) {
    e.config.requireRangeEvidence ==>
      && (forall a :: a in e.config.assets ==> MultipliersBounded(RangeOf(e, a)))
      && forall i :: |before.decisions| <= i < |after.decisions| ==> DecisionExplained(e, after.decisions[i].symbol)
  }

  /**
   Snapshots on which the audit passes whatever is proposed: raw-valued rules,
   evidence that passes the audit's validity checks, and no reference price
   observed for a symbol whose PRICE_RANGE rule is not enforceable.
   */
  predicate CleanEnv(e: Env) {
    && EnvOk(e) && EvidenceAuditable(e)
    && (forall a :: a in e.config.assets && a in e.snapshot.rules ==> RawValued(e.snapshot.rules[a]))
    && (e.config.requireRangeEvidence ==>
          forall a :: a in e.config.assets ==> MultipliersBounded(RangeOf(e, a)) && DecisionExplained(e, a))
  }

  // ------------------------------------------------------- one row at a time

  lemma SameNeverDiffers(c: Config, x: real)
    requires ConfigOk(c)
    ensures !Differs(c, x, x)
  {
    TimesNonneg(c.tolerance, Max(1.0, Abs(x)));
  }

  lemma ExpectedPricesAreTerms(e: Env, a: Symbol, side: Side)
    requires EnvOk(e) && a in e.config.assets
    ensures var t := ExecutionTerms(e.config, e.snapshot.quotes[a], side);
            && ExpectedPrices(e.config, ContextOf(e, a), side) == (t.base, t.execution)
            && ContextOf(e, a).mid == t.mid && 0.0 < t.execution
  {
    TermsOrdered(e.config, e.snapshot.quotes[a], side);
  }

  lemma FillAccountedExactly(e: Env, x: Exec, o: Order, cash: CashRow, pos: PositionRow)
    requires EnvOk(e) && ExecOk(e, x) && Normalized(e, x)
    requires RowsMatch(o, FillOf(e, x), cash, pos)
    ensures RowsAccounted(e.config, o, FillOf(e, x), cash, pos, ContextOf(e, x.proposal.symbol))
  {
    var f := FillOf(e, x);
    var a := x.proposal.symbol;
    var q :| NormalizeFor(e, a, q) == Accepted(x.quantity);
    NormalizeForBounds(e, a, q);
    ExpectedPricesAreTerms(e, a, x.proposal.side);
    FillCosts(e, x);
    hide ExecutionTerms, Differs, Normalized, ContextOf, ExpectedPrices, NormalizeFor, Times;
    SameNeverDiffers(e.config, f.mid);
    SameNeverDiffers(e.config, pos.delta);
    SameNeverDiffers(e.config, cash.amount);
    SameNeverDiffers(e.config, f.execution);
    SameNeverDiffers(e.config, f.spreadCost);
    SameNeverDiffers(e.config, f.slippageCost);
    SameNeverDiffers(e.config, f.fee);
  }

  lemma NormalizedPasses(e: Env, a: Symbol, q: real)
    requires StepsVisible(e) && EvidenceAuditable(e) && a in e.config.assets
    ensures match NormalizeFor(e, a, q)
            case Accepted(n) => FillPasses(EvidenceOf(e, a).evidence, n)
            case Rejected(r) =>
              RuleReason(r) ==> (ExpectedReason(EvidenceOf(e, a).evidence, q) == Some(r) <==> Visible(Get(e.snapshot.rules, a), r))
  {
    hide Normalize, RecordEvidence, FillPasses, ExpectedReason, EvidenceValid, StepsAudited, Visible;
    AuditAgreesExactly(Get(e.snapshot.rules, a), e.config.requireRules, e.config.tolerance, q,
                       Get(e.snapshot.references, a), e.snapshot.quotes[a].last);
  }

  lemma FillSoundPasses(e: Env, f: Fill)
    requires StepsVisible(e) && EvidenceAuditable(e) && FillSound(e, f)
    ensures FillPasses(EvidenceOf(e, f.symbol).evidence, f.quantity)
  {
    var x :| ExecOk(e, x) && Normalized(e, x) && x.proposal.key == Key(e.signal, x.proposal.symbol) && f == FillOf(e, x);
    var q :| NormalizeFor(e, x.proposal.symbol, q) == Accepted(x.quantity);
    hide NormalizeFor, FillPasses, ExecOk, EvidenceAuditable, StepsVisible;
    NormalizedPasses(e, x.proposal.symbol, q);
  }

  lemma FinalRejectionAt(e: Env, r: Rejection, q: real)
    requires StepsVisible(e) && EvidenceAuditable(e)
    requires r.symbol in e.config.assets && r.symbol in e.snapshot.quotes && RuleReason(r.reason)
    requires 0.0 < q <= r.requested + e.config.tolerance && r.notional == Times(q, PriceFor(e, r.symbol, r.side))
    requires NormalizeFor(e, r.symbol, q) == Rejected(r.reason)
    ensures FinalReasonAudited(e.config, EvidenceOf(e, r.symbol).evidence, r, ContextOf(e, r.symbol)) <==> RejectionExplained(e, r)
  {
    hide NormalizeFor, ExecutionTerms, ExpectedPrices, ContextOf, EvidenceOf, ExpectedReason, Times, RuleReason, EvidenceValid, RawValued,
         SnapshotOk, StepsAudited, Visible;
    NormalizedPasses(e, r.symbol, q);
    ExpectedPricesAreTerms(e, r.symbol, r.side);
    DivTimes(q, PriceFor(e, r.symbol, r.side));
  }

  lemma FinalRejectionAudited(e: Env, r: Rejection)
    requires StepsVisible(e) && EvidenceAuditable(e) && RejectionOwn(e, r) && r.symbol in e.snapshot.quotes
    requires FinalSound(e, r) && RuleReason(r.reason)
    ensures FinalReasonAudited(e.config, EvidenceOf(e, r.symbol).evidence, r, ContextOf(e, r.symbol)) <==> RejectionExplained(e, r)
  {
    hide NormalizeFor, PriceFor, ContextOf, EvidenceOf, Times, FinalReasonAudited, SnapshotOk, EvidenceValid, RawValued, Visible,
         EvidenceAuditable, StepsVisible;
    var q :| e.config.tolerance < q <= r.requested && r.notional == Times(q, PriceFor(e, r.symbol, r.side))
             && NormalizeFor(e, r.symbol, q) == Rejected(r.reason);
    assert EnvOk(e) by {
      StepsVisibleEnv(e);
    }
    FinalRejectionAt(e, r, q);
  }

  lemma StepsVisibleEnv(e: Env)
    requires StepsVisible(e)
    ensures EnvOk(e)
  {
  }

  /** A sound rejection passes the audit, against its own evidence and quote, exactly when the limit it names is visible. */
  lemma RejectionSoundAudited(e: Env, r: Rejection, contexts: seq<Context>)
    requires StepsVisible(e) && EvidenceAuditable(e) && RejectionSound(e, r)
    requires r.stage.FinalStage? ==> exists k :: 0 <= k < |contexts| && QuoteOf(contexts[k], r.run, r.symbol)
    requires forall k :: 0 <= k < |contexts| && QuoteOf(contexts[k], r.run, r.symbol) ==> contexts[k] == ContextOf(e, r.symbol)
    ensures RejectionAudited(e.config, EvidenceOf(e, r.symbol).evidence, r, contexts) <==> RejectionExplained(e, r)
  {
    hide NormalizeFor, FinalReasonAudited, ContextOf, EvidenceOf, ExpectedReason, RuleReason, EvidenceValid, RawValued, Visible;
    if RuleReason(r.reason) {
      if r.stage.ProposalStage? {
        NormalizedPasses(e, r.symbol, r.requested);
      } else {
        FinalRejectionAudited(e, r);
      }
    }
  }

  /** A sound PRICE_RANGE decision is the one the audit derives, exactly when its rule is enforceable or no reference was observed. */
  lemma DecisionSoundExpected(e: Env, d: DecisionRow)
    requires EnvOk(e) && e.config.requireRangeEvidence && DecisionSound(e, d) && MultipliersBounded(RangeOf(e, d.symbol))
    ensures ExpectedRange(RangeOf(e, d.symbol), EvidenceOf(e, d.symbol).evidence, d.side, d.execution) == Some(d.row)
       <==> DecisionExplained(e, d.symbol)
    ensures d.execution == ExpectedPrices(e.config, ContextOf(e, d.symbol), d.side).1 && 0.0 < d.execution
  {
    ExpectedPricesAreTerms(e, d.symbol, d.side);
    hide ExecutionTerms, ExpectedPrices, ContextOf, EvidenceValid;
    RangeAuditAgreesExactly(RangeOf(e, d.symbol), Get(e.snapshot.references, d.symbol), Get(e.snapshot.rules, d.symbol),
                            e.snapshot.quotes[d.symbol].last, d.side, d.execution);
  }

  // ---------------------------------------------------------- the book's rows

  /** Every row belongs to a run with an outcome. */
  predicate Closed(b: Book) {
    && (forall i :: 0 <= i < |b.orders| ==> b.orders[i].run in b.outcomes)
    && (forall i :: 0 <= i < |b.rejections| ==> b.rejections[i].run in b.outcomes)
    && (forall i :: 0 <= i < |b.decisions| ==> b.decisions[i].run in b.outcomes)
    && (forall i :: 0 <= i < |b.contexts| ==> b.contexts[i].run in b.outcomes)
    && (forall i :: 0 <= i < |b.evidence| ==> b.evidence[i].run in b.outcomes)
    && forall i :: 0 <= i < |b.ranges| ==> b.ranges[i].run in b.outcomes
  }

  /** The ledgers grow by sound fills of this run. */
  ghost predicate FillsExtended(e: Env, before: Book, after: Book) {
    && AlignedTables(before) && AlignedTables(after)
    && |before.orders| <= |after.orders| && after.orders[..|before.orders|] == before.orders
    && after.fills[..|before.fills|] == before.fills
    && after.cashLedger[..|before.cashLedger|] == before.cashLedger
    && after.positionLedger[..|before.positionLedger|] == before.positionLedger
    && forall i :: |before.orders| <= i < |after.orders| ==>
         after.orders[i].run == e.run && FillSound(e, after.fills[i])
  }

  /** The evidence tables grow by rows describing this run's snapshot. */
  ghost predicate EvidenceExtended(e: Env, before: Book, after: Book) {
    && |before.contexts| <= |after.contexts| && after.contexts[..|before.contexts|] == before.contexts
    && (forall k :: |before.contexts| <= k < |after.contexts| ==>
          after.contexts[k].symbol in e.config.assets && after.contexts[k].symbol in e.snapshot.quotes
          && after.contexts[k] == ContextOf(e, after.contexts[k].symbol))
    && |before.evidence| <= |after.evidence| && after.evidence[..|before.evidence|] == before.evidence
    && (forall k :: |before.evidence| <= k < |after.evidence| ==>
          after.evidence[k].symbol in e.config.assets && after.evidence[k].symbol in e.snapshot.quotes
          && after.evidence[k] == EvidenceOf(e, after.evidence[k].symbol))
    && |before.ranges| <= |after.ranges| && after.ranges[..|before.ranges|] == before.ranges
    && (forall k :: |before.ranges| <= k < |after.ranges| ==>
          after.ranges[k].symbol in e.config.assets
          && after.ranges[k] == RangeEvidenceRow(e.run, after.ranges[k].symbol, RangeOf(e, after.ranges[k].symbol)))
  }

  /** Rejections and decisions grow by sound rows. */
  ghost predicate RowsExtended(e: Env, before: Book, after: Book) {
    && |before.rejections| <= |after.rejections| && after.rejections[..|before.rejections|] == before.rejections
    && SoundFrom(e, after.rejections, |before.rejections|)
    && |before.decisions| <= |after.decisions| && after.decisions[..|before.decisions|] == before.decisions
    && DecisionsFrom(e, after.decisions, |before.decisions|)
    && (Backed(before) ==> Backed(after))
    && after.outcomes.Keys == before.outcomes.Keys + {e.run}
  }

  /** `after` is `before` plus the sound rows of one execution. */
  ghost predicate Extended(e: Env, before: Book, after: Book) {
    FillsExtended(e, before, after) && EvidenceExtended(e, before, after) && RowsExtended(e, before, after)
  }

  /** Each proposal settled and decided: the rows joined to a new row exist. */
  ghost predicate Complete(e: Env, before: Book, after: Book) {
    && (forall i :: |before.orders| <= i < |after.orders| ==> HasContext(after, e.run, after.orders[i].symbol))
    && (forall i :: |before.rejections| <= i < |after.rejections| && after.rejections[i].stage.FinalStage? ==>
          HasContext(after, e.run, after.rejections[i].symbol))
    && (forall a :: a in e.config.assets ==> HasEvidence(after, e.run, a))
    && (e.config.requireRangeEvidence ==>
          && (forall a :: a in e.config.assets ==> HasRange(after, e.run, a))
          && (forall i :: |before.decisions| <= i < |after.decisions| ==>
                HasContext(after, e.run, after.decisions[i].symbol) && HasRange(after, e.run, after.decisions[i].symbol))
          && DecisionsMatchProposals(after, e.run))
  }

  /** The audit's joins, row against row, with tables aligned. */
  ghost predicate JoinsOk(c: Config, b: Book) {
    && AlignedTables(b)
    && (forall i, k :: 0 <= i < |b.orders| && 0 <= k < |b.contexts| && QuoteOf(b.contexts[k], b.orders[i].run, b.orders[i].symbol) ==>
          RowsAccounted(c, b.orders[i], b.fills[i], b.cashLedger[i + 1], b.positionLedger[i], b.contexts[k]))
    && (forall i :: 0 <= i < |b.orders| ==> HasContext(b, b.orders[i].run, b.orders[i].symbol))
    && (forall i :: 0 <= i < |b.orders| ==> 0.0 < b.fills[i].quantity)
    && forall k :: 0 <= k < |b.contexts| ==> ContextOk(c, b.contexts[k])
  }

  ghost predicate RulesOk(c: Config, b: Book) {
    && AlignedTables(b)
    && (forall k :: 0 <= k < |b.evidence| ==> EvidenceValid(b.evidence[k].evidence))
    && (forall i, k ::
          && 0 <= i < |b.orders| && 0 <= k < |b.evidence|
          && b.evidence[k].run == b.orders[i].run && b.evidence[k].symbol == b.orders[i].symbol
          ==> FillPasses(b.evidence[k].evidence, b.fills[i].quantity))
    && (forall i, k ::
          && 0 <= i < |b.rejections| && 0 <= k < |b.evidence|
          && b.evidence[k].run == b.rejections[i].run && b.evidence[k].symbol == b.rejections[i].symbol
          ==> RejectionAudited(c, b.evidence[k].evidence, b.rejections[i], b.contexts))
    && (forall i :: 0 <= i < |b.rejections| ==> 0.0 <= b.rejections[i].notional)
    && forall run, a :: run in b.outcomes && a in c.assets ==> HasEvidence(b, run, a)
  }

  ghost predicate RangesOk(c: Config, b: Book) {
    c.requireRangeEvidence ==>
      && Backed(b)
      && (forall k :: 0 <= k < |b.ranges| ==> MultipliersBounded(b.ranges[k].range))
      && (forall i :: 0 <= i < |b.decisions| ==> DecisionAudited(c, b, b.decisions[i]))
      && forall run :: run in b.outcomes ==> DecisionsMatchProposals(b, run)
  }

  lemma NewContextsOk(e: Env, a: Symbol)
    requires EnvOk(e) && a in e.config.assets
    ensures ContextOk(e.config, ContextOf(e, a))
  {
    SameNeverDiffers(e.config, ContextOf(e, a).mid);
  }

  lemma HasContextGrows(b: Book, b': Book, run: RunId, a: Symbol)
    requires |b.contexts| <= |b'.contexts| && b'.contexts[..|b.contexts|] == b.contexts && HasContext(b, run, a)
    ensures HasContext(b', run, a)
  {
    var k :| 0 <= k < |b.contexts| && QuoteOf(b.contexts[k], run, a);
    assert b'.contexts[k] == b'.contexts[..|b.contexts|][k];
  }

  lemma HasEvidenceGrows(b: Book, b': Book, run: RunId, a: Symbol)
    requires |b.evidence| <= |b'.evidence| && b'.evidence[..|b.evidence|] == b.evidence && HasEvidence(b, run, a)
    ensures HasEvidence(b', run, a)
  {
    var k :| 0 <= k < |b.evidence| && b.evidence[k].run == run && b.evidence[k].symbol == a;
    assert b'.evidence[k] == b'.evidence[..|b.evidence|][k];
  }

  /** Old rows join only with old rows, new rows only with rows of their own run. */
  lemma JoinsKept(e: Env, b: Book, b': Book)
    requires EnvOk(e) && Extended(e, b, b') && Complete(e, b, b') && Closed(b) && e.run !in b.outcomes
    requires JoinsOk(e.config, b)
    ensures JoinsOk(e.config, b')
  {
    hide RowsAccounted, ContextOk, EvidenceValid, SoundFrom, DecisionsFrom, Backed, RawValued, FillSound, RowsMatch, HasContext,
         EvidenceOf, RangeOf, MultipliersBounded, SnapshotOk, DecisionsMatchProposals;
    forall i, k | 0 <= i < |b'.orders| && 0 <= k < |b'.contexts| && QuoteOf(b'.contexts[k], b'.orders[i].run, b'.orders[i].symbol)
      ensures RowsAccounted(e.config, b'.orders[i], b'.fills[i], b'.cashLedger[i + 1], b'.positionLedger[i], b'.contexts[k])
    {
      if i < |b.orders| {
        OldRows(b, b', i);
      }
      assert i < |b.orders| ==> b.orders[i].run in b.outcomes;
      assert k < |b.contexts| ==> b'.contexts[k] == b'.contexts[..|b.contexts|][k];
      if |b.orders| <= i && |b.contexts| <= k {
        NewRowsAccounted(e, b, b', i);
      }
    }
    forall i | 0 <= i < |b'.orders|
      ensures HasContext(b', b'.orders[i].run, b'.orders[i].symbol) && 0.0 < b'.fills[i].quantity
    {
      if i < |b.orders| {
        OldRows(b, b', i);
        HasContextGrows(b, b', b.orders[i].run, b.orders[i].symbol);
      } else {
        NewRowsAccounted(e, b, b', i);
      }
    }
    forall k | 0 <= k < |b'.contexts|
      ensures ContextOk(e.config, b'.contexts[k])
    {
      if k < |b.contexts| {
        assert b'.contexts[k] == b'.contexts[..|b.contexts|][k];
      } else {
        NewContextsOk(e, b'.contexts[k].symbol);
      }
    }
  }

  lemma OldRows(b: Book, b': Book, i: nat)
    requires AlignedTables(b) && AlignedTables(b') && i < |b.orders| <= |b'.orders|
    requires b'.orders[..|b.orders|] == b.orders && b'.fills[..|b.fills|] == b.fills
    requires b'.cashLedger[..|b.cashLedger|] == b.cashLedger
    requires b'.positionLedger[..|b.positionLedger|] == b.positionLedger
    ensures b'.orders[i] == b.orders[i] && b'.fills[i] == b.fills[i]
    ensures b'.cashLedger[i + 1] == b.cashLedger[i + 1] && b'.positionLedger[i] == b.positionLedger[i]
  {
    assert b'.orders[i] == b'.orders[..|b.orders|][i];
    assert b'.fills[i] == b'.fills[..|b.fills|][i];
    assert b'.cashLedger[i + 1] == b'.cashLedger[..|b.cashLedger|][i + 1];
    assert b'.positionLedger[i] == b'.positionLedger[..|b.positionLedger|][i];
  }

  lemma NewRowsAccounted(e: Env, b: Book, b': Book, i: nat)
    requires EnvOk(e) && AlignedTables(b') && i < |b'.orders| && FillSound(e, b'.fills[i])
    ensures b'.orders[i].symbol in e.config.assets && 0.0 < b'.fills[i].quantity
    ensures b'.orders[i].symbol == b'.fills[i].symbol
    ensures RowsAccounted(e.config, b'.orders[i], b'.fills[i], b'.cashLedger[i + 1], b'.positionLedger[i],
                          ContextOf(e, b'.orders[i].symbol))
  {
    var f := b'.fills[i];
    var x :| ExecOk(e, x) && Normalized(e, x) && x.proposal.key == Key(e.signal, x.proposal.symbol) && f == FillOf(e, x);
    assert RowsMatch(b'.orders[i], b'.fills[i], b'.cashLedger[i + 1], b'.positionLedger[i]);
    hide RowsAccounted, Normalized, ContextOf;
    FillAccountedExactly(e, x, b'.orders[i], b'.cashLedger[i + 1], b'.positionLedger[i]);
  }

  lemma RulesKept(e: Env, b: Book, b': Book)
    requires StepsVisible(e) && Extended(e, b, b') && Complete(e, b, b') && Closed(b) && e.run !in b.outcomes
    requires RulesOk(e.config, b) && RulesExplained(e, b, b')
    ensures RulesOk(e.config, b')
  {
    hide EvidenceValid, FillPasses, RejectionAudited, Backed, RawValued, RejectionSound, DecisionsFrom,
         ContextOf, EvidenceOf, RangeOf, MultipliersBounded, SnapshotOk, FillSound, RowsMatch, HasEvidence, HasContext;
    forall k | 0 <= k < |b'.evidence|
      ensures EvidenceValid(b'.evidence[k].evidence)
    {
      if k < |b.evidence| {
        assert b'.evidence[k] == b'.evidence[..|b.evidence|][k];
      }
    }
    forall i, k | 0 <= i < |b'.orders| && 0 <= k < |b'.evidence|
                  && b'.evidence[k].run == b'.orders[i].run && b'.evidence[k].symbol == b'.orders[i].symbol
      ensures FillPasses(b'.evidence[k].evidence, b'.fills[i].quantity)
    {
      FillRulesKept(e, b, b', i, k);
    }
    forall i, k | 0 <= i < |b'.rejections| && 0 <= k < |b'.evidence|
                  && b'.evidence[k].run == b'.rejections[i].run && b'.evidence[k].symbol == b'.rejections[i].symbol
      ensures RejectionAudited(e.config, b'.evidence[k].evidence, b'.rejections[i], b'.contexts)
    {
      RejectionRulesKept(e, b, b', i, k);
    }
    forall i | 0 <= i < |b'.rejections|
      ensures 0.0 <= b'.rejections[i].notional
    {
      RejectionNotionalKept(e, b, b', i);
    }
    forall run, a | run in b'.outcomes && a in e.config.assets
      ensures HasEvidence(b', run, a)
    {
      if run != e.run {
        assert run in b'.outcomes.Keys;
        HasEvidenceGrows(b, b', run, a);
      }
    }
  }

  lemma RejectionNotionalKept(e: Env, b: Book, b': Book, i: nat)
    requires Extended(e, b, b') && i < |b'.rejections|
    requires forall j :: 0 <= j < |b.rejections| ==> 0.0 <= b.rejections[j].notional
    ensures 0.0 <= b'.rejections[i].notional
  {
    if i < |b.rejections| {
      assert b'.rejections[i] == b'.rejections[..|b.rejections|][i];
    } else {
      assert RejectionSound(e, b'.rejections[i]);
    }
  }

  lemma FillRulesKept(e: Env, b: Book, b': Book, i: nat, k: nat)
    requires StepsVisible(e) && EvidenceAuditable(e) && Extended(e, b, b') && Closed(b) && e.run !in b.outcomes && RulesOk(e.config, b)
    requires i < |b'.orders| && k < |b'.evidence|
    requires b'.evidence[k].run == b'.orders[i].run && b'.evidence[k].symbol == b'.orders[i].symbol
    ensures FillPasses(b'.evidence[k].evidence, b'.fills[i].quantity)
  {
    hide EvidenceValid, FillPasses, RejectionAudited, Backed, RawValued, SoundFrom, DecisionsFrom,
         ContextOf, RangeOf, MultipliersBounded, SnapshotOk, FillSound, HasEvidence;
    if i < |b.orders| {
      OldRows(b, b', i);
    }
    if k < |b.evidence| {
      assert b'.evidence[k] == b'.evidence[..|b.evidence|][k] == b.evidence[k];
    }
    if |b.orders| <= i && |b.evidence| <= k {
      assert RowsMatch(b'.orders[i], b'.fills[i], b'.cashLedger[i + 1], b'.positionLedger[i]);
      FillSoundPasses(e, b'.fills[i]);
    }
  }

  lemma ContextsOfRun(e: Env, b: Book, b': Book, run: RunId, a: Symbol)
    requires Extended(e, b, b') && Closed(b) && e.run !in b.outcomes
    ensures run == e.run ==>
              forall k :: 0 <= k < |b'.contexts| && QuoteOf(b'.contexts[k], run, a) ==>
                a in e.snapshot.quotes && b'.contexts[k] == ContextOf(e, a)
    ensures run in b.outcomes ==>
              forall k :: 0 <= k < |b'.contexts| && QuoteOf(b'.contexts[k], run, a) ==> k < |b.contexts| && b'.contexts[k] == b.contexts[k]
  {
    forall k | 0 <= k < |b'.contexts|
      ensures k < |b.contexts| ==> b'.contexts[k] == b.contexts[k]
    {
      if k < |b.contexts| {
        assert b'.contexts[k] == b'.contexts[..|b.contexts|][k];
      }
    }
  }

  lemma RejectionRulesKept(e: Env, b: Book, b': Book, i: nat, k: nat)
    requires StepsVisible(e) && Extended(e, b, b') && Complete(e, b, b') && Closed(b) && e.run !in b.outcomes
    requires RulesOk(e.config, b) && RulesExplained(e, b, b')
    requires i < |b'.rejections| && k < |b'.evidence|
    requires b'.evidence[k].run == b'.rejections[i].run && b'.evidence[k].symbol == b'.rejections[i].symbol
    ensures RejectionAudited(e.config, b'.evidence[k].evidence, b'.rejections[i], b'.contexts)
  {
    hide EvidenceValid, FillPasses, Backed, RawValued, RejectionSound, DecisionsFrom, AlignedTables, FinalReasonAudited,
         ContextOf, RangeOf, MultipliersBounded, SnapshotOk, FillSound, HasEvidence, ExpectedReason, RuleReason, EvidenceOf;
    var r := b'.rejections[i];
    ContextsOfRun(e, b, b', r.run, r.symbol);
    if i < |b.rejections| {
      assert r == b'.rejections[..|b.rejections|][i] == b.rejections[i];
      assert r.run in b.outcomes;
      if k < |b.evidence| {
        assert b'.evidence[k] == b'.evidence[..|b.evidence|][k] == b.evidence[k];
        ContextsFixed(e.config, b.evidence[k].evidence, r, b.contexts, b'.contexts);
      } else {
        NewEvidenceRun(e, b, b', k);
      }
    } else {
      assert RejectionSound(e, r);
      RejectionSoundOwn(e, r);
      RowsOfRun(e, b, b');
      RejectionSoundAudited(e, r, b'.contexts);
    }
  }

  lemma RejectionSoundOwn(e: Env, r: Rejection)
    requires RejectionSound(e, r)
    ensures r.run == e.run && r.symbol in e.config.assets && r.symbol in e.snapshot.quotes
  {
  }

  lemma NewEvidenceRun(e: Env, b: Book, b': Book, k: nat)
    requires Extended(e, b, b') && |b.evidence| <= k < |b'.evidence|
    ensures b'.evidence[k].run == e.run
  {
  }

  lemma ContextsFixed(c: Config, ev: Evidence, r: Rejection, contexts: seq<Context>, contexts': seq<Context>)
    requires |contexts| <= |contexts'| && contexts'[..|contexts|] == contexts
    requires forall k :: 0 <= k < |contexts'| && QuoteOf(contexts'[k], r.run, r.symbol) ==> k < |contexts| && contexts'[k] == contexts[k]
    requires RejectionAudited(c, ev, r, contexts)
    ensures RejectionAudited(c, ev, r, contexts')
  {
    if RuleReason(r.reason) && r.stage.FinalStage? {
      var k :| 0 <= k < |contexts| && QuoteOf(contexts[k], r.run, r.symbol);
      assert contexts'[k] == contexts'[..|contexts|][k];
    }
  }

  lemma RangesKept(e: Env, b: Book, b': Book)
    requires EnvOk(e) && Extended(e, b, b') && Complete(e, b, b') && Closed(b) && e.run !in b.outcomes
    requires RangesOk(e.config, b) && RangesExplained(e, b, b')
    ensures RangesOk(e.config, b')
  {
    if e.config.requireRangeEvidence {
      hide EvidenceValid, RawValued, RejectionSound, DecisionSound, ContextOf, EvidenceOf, SnapshotOk, FillSound, RowsMatch,
           DecisionAudited, DecisionsMatchProposals, Backed, HasContext, HasEvidence;
      forall k | 0 <= k < |b'.ranges|
        ensures MultipliersBounded(b'.ranges[k].range)
      {
        if k < |b.ranges| {
          assert b'.ranges[k] == b'.ranges[..|b.ranges|][k];
        }
      }
      forall i | 0 <= i < |b'.decisions|
        ensures DecisionAudited(e.config, b', b'.decisions[i])
      {
        if i < |b.decisions| {
          assert b'.decisions[i] == b'.decisions[..|b.decisions|][i] == b.decisions[i];
          OldDecisionAudited(e, b, b', b.decisions[i]);
        } else {
          NewDecisionAudited(e, b, b', i);
        }
      }
      forall run | run in b'.outcomes
        ensures DecisionsMatchProposals(b', run)
      {
        if run != e.run {
          assert run in b'.outcomes.Keys;
          OldRunMatches(e, b, b', run);
        }
      }
    }
  }

  lemma OldDecisionAudited(e: Env, b: Book, b': Book, d: DecisionRow)
    requires Extended(e, b, b') && Closed(b) && e.run !in b.outcomes && d.run in b.outcomes
    requires DecisionAudited(e.config, b, d)
    ensures DecisionAudited(e.config, b', d)
  {
    hide EvidenceValid, RawValued, RejectionSound, DecisionSound, ContextOf, EvidenceOf, SnapshotOk, FillSound, RowsMatch,
         AlignedTables, Backed, ExpectedPrices, ExpectedRange, RangeOf;
    ContextsOfRun(e, b, b', d.run, d.symbol);
    HasContextGrows(b, b', d.run, d.symbol);
    assert HasRange(b', d.run, d.symbol) by {
      var k :| 0 <= k < |b.ranges| && b.ranges[k].run == d.run && b.ranges[k].symbol == d.symbol;
      assert b'.ranges[k] == b'.ranges[..|b.ranges|][k];
    }
    forall i, k | && 0 <= i < |b'.ranges| && b'.ranges[i].run == d.run && b'.ranges[i].symbol == d.symbol
                  && 0 <= k < |b'.evidence| && b'.evidence[k].run == d.run && b'.evidence[k].symbol == d.symbol
      ensures ExpectedRange(b'.ranges[i].range, b'.evidence[k].evidence, d.side, d.execution) == Some(d.row)
    {
      if |b.evidence| <= k {
        NewEvidenceRun(e, b, b', k);
      }
      assert k < |b.evidence| ==> b'.evidence[k] == b'.evidence[..|b.evidence|][k];
      assert i < |b.ranges| ==> b'.ranges[i] == b'.ranges[..|b.ranges|][i];
    }
    if Refusing(d.row.decision) {
      var j :| 0 <= j < |b.rejections| && b.rejections[j].run == d.run && b.rejections[j].key == d.key
               && Some(b.rejections[j].reason) == ReasonText(d.row.decision.reason);
      assert b'.rejections[j] == b'.rejections[..|b.rejections|][j];
    }
  }

  lemma NewDecisionAudited(e: Env, b: Book, b': Book, i: nat)
    requires EnvOk(e) && e.config.requireRangeEvidence && Extended(e, b, b') && Complete(e, b, b') && Closed(b)
    requires e.run !in b.outcomes && RangesExplained(e, b, b')
    requires Backed(b) && |b.decisions| <= i < |b'.decisions|
    ensures DecisionAudited(e.config, b', b'.decisions[i])
  {
    hide EvidenceValid, RawValued, RejectionSound, ContextOf, EvidenceOf, SnapshotOk, FillSound, RowsMatch,
         AlignedTables, ExpectedPrices, ExpectedRange, RangeOf, EvaluateRange, MultipliersBounded, DecisionsMatchProposals, HasEvidence;
    var d := b'.decisions[i];
    DecisionSoundExpected(e, d);
    ContextsOfRun(e, b, b', d.run, d.symbol);
    RowsOfRun(e, b, b');
    forall j, k | && 0 <= j < |b'.ranges| && b'.ranges[j].run == d.run && b'.ranges[j].symbol == d.symbol
                  && 0 <= k < |b'.evidence| && b'.evidence[k].run == d.run && b'.evidence[k].symbol == d.symbol
      ensures ExpectedRange(b'.ranges[j].range, b'.evidence[k].evidence, d.side, d.execution) == Some(d.row)
    {
      assert b'.ranges[j].range == RangeOf(e, d.symbol) && b'.evidence[k] == EvidenceOf(e, d.symbol);
    }
  }

  /** Rows of the new run are new rows. */
  lemma RowsOfRun(e: Env, b: Book, b': Book)
    requires Extended(e, b, b') && Closed(b) && e.run !in b.outcomes
    ensures forall k :: 0 <= k < |b'.evidence| && b'.evidence[k].run == e.run ==> |b.evidence| <= k
    ensures forall k :: 0 <= k < |b'.ranges| && b'.ranges[k].run == e.run ==> |b.ranges| <= k
  {
    hide SoundFrom, DecisionsFrom, FillSound, AlignedTables, Backed, ContextOf, EvidenceOf, RangeOf;
    forall k | 0 <= k < |b'.evidence| && k < |b.evidence|
      ensures b'.evidence[k].run in b.outcomes
    {
      assert b'.evidence[k] == b'.evidence[..|b.evidence|][k];
    }
    forall k | 0 <= k < |b'.ranges| && k < |b.ranges|
      ensures b'.ranges[k].run in b.outcomes
    {
      assert b'.ranges[k] == b'.ranges[..|b.ranges|][k];
    }
  }

  lemma OldRunMatches(e: Env, b: Book, b': Book, run: RunId)
    requires Extended(e, b, b') && run in b.outcomes && e.run !in b.outcomes && DecisionsMatchProposals(b, run)
    ensures DecisionsMatchProposals(b', run)
  {
    hide RejectionSound, DecisionSound, FillSound, AlignedTables, Backed, ContextOf, EvidenceOf, RangeOf;
    SameRows(e, b, b', run);
    forall key
      ensures DecidedIn(b, run, key) ==> DecidedIn(b', run, key)
      ensures OrderedIn(b, run, key) ==> OrderedIn(b', run, key)
      ensures FinallyRejectedIn(b, run, key) ==> FinallyRejectedIn(b', run, key)
    {
      if DecidedIn(b, run, key) {
        var i :| 0 <= i < |b.decisions| && b.decisions[i].run == run && b.decisions[i].key == key;
        assert b'.decisions[i] == b'.decisions[..|b.decisions|][i];
      }
      if OrderedIn(b, run, key) {
        var i :| 0 <= i < |b.orders| && b.orders[i].run == run && b.orders[i].key == key;
        assert b'.orders[i] == b'.orders[..|b.orders|][i];
      }
      if FinallyRejectedIn(b, run, key) {
        var i :| 0 <= i < |b.rejections| && b.rejections[i].run == run && b.rejections[i].key == key && b.rejections[i].stage.FinalStage?;
        assert b'.rejections[i] == b'.rejections[..|b.rejections|][i];
      }
    }
  }

  lemma SameRows(e: Env, b: Book, b': Book, run: RunId)
    requires Extended(e, b, b') && run != e.run
    ensures forall i :: 0 <= i < |b'.decisions| && b'.decisions[i].run == run ==> i < |b.decisions| && b'.decisions[i] == b.decisions[i]
    ensures forall i :: 0 <= i < |b'.orders| && b'.orders[i].run == run ==> i < |b.orders| && b'.orders[i] == b.orders[i]
    ensures forall i :: 0 <= i < |b'.rejections| && b'.rejections[i].run == run ==> i < |b.rejections| && b'.rejections[i] == b.rejections[i]
  {
    hide FillSound, AlignedTables, Backed, ContextOf, EvidenceOf, RangeOf;
    forall i | 0 <= i < |b'.decisions| && b'.decisions[i].run == run
      ensures i < |b.decisions| && b'.decisions[i] == b.decisions[i]
    {
      assert i < |b.decisions| by {
        assert |b.decisions| <= i ==> DecisionSound(e, b'.decisions[i]);
      }
      assert b'.decisions[i] == b'.decisions[..|b.decisions|][i];
    }
    forall i | 0 <= i < |b'.orders| && b'.orders[i].run == run
      ensures i < |b.orders| && b'.orders[i] == b.orders[i]
    {
      assert b'.orders[i] == b'.orders[..|b.orders|][i];
    }
    forall i | 0 <= i < |b'.rejections| && b'.rejections[i].run == run
      ensures i < |b.rejections| && b'.rejections[i] == b.rejections[i]
    {
      assert i < |b.rejections| by {
        assert |b.rejections| <= i ==> RejectionSound(e, b'.rejections[i]);
      }
      assert b'.rejections[i] == b'.rejections[..|b.rejections|][i];
    }
  }

  lemma ClosedKept(e: Env, b: Book, b': Book)
    requires Extended(e, b, b') && Closed(b)
    ensures Closed(b')
  {
    hide FillSound, AlignedTables, Backed;
    assert forall run :: run in b'.outcomes <==> run in b'.outcomes.Keys;
    forall i | 0 <= i < |b'.orders| ensures b'.orders[i].run in b'.outcomes {
      assert i < |b.orders| ==> b'.orders[i] == b'.orders[..|b.orders|][i];
    }
    forall i | 0 <= i < |b'.rejections| ensures b'.rejections[i].run in b'.outcomes {
      assert i < |b.rejections| ==> b'.rejections[i] == b'.rejections[..|b.rejections|][i];
      assert i >= |b.rejections| ==> RejectionSound(e, b'.rejections[i]);
    }
    forall i | 0 <= i < |b'.decisions| ensures b'.decisions[i].run in b'.outcomes {
      assert i < |b.decisions| ==> b'.decisions[i] == b'.decisions[..|b.decisions|][i];
      assert i >= |b.decisions| ==> DecisionSound(e, b'.decisions[i]);
    }
    forall i | 0 <= i < |b'.contexts| ensures b'.contexts[i].run in b'.outcomes {
      assert i < |b.contexts| ==> b'.contexts[i] == b'.contexts[..|b.contexts|][i];
    }
    forall i | 0 <= i < |b'.evidence| ensures b'.evidence[i].run in b'.outcomes {
      assert i < |b.evidence| ==> b'.evidence[i] == b'.evidence[..|b.evidence|][i];
    }
    forall i | 0 <= i < |b'.ranges| ensures b'.ranges[i].run in b'.outcomes {
      assert i < |b.ranges| ==> b'.ranges[i] == b'.ranges[..|b.ranges|][i];
    }
  }

  /** A clean snapshot explains whatever its execution records. */
  lemma CleanExplains(e: Env, b: Book, b': Book)
    requires CleanEnv(e) && Extended(e, b, b')
    ensures StepsVisible(e) && RulesExplained(e, b, b') && RangesExplained(e, b, b')
  {
    hide EvidenceValid, EvidenceOf, RangeOf, MultipliersBounded, SnapshotOk, Backed, FinalSound, NormalizeFor, DecisionExplained,
         FillsExtended, EvidenceExtended;
    forall i | |b.rejections| <= i < |b'.rejections|
      ensures RejectionExplained(e, b'.rejections[i])
    {
      assert RejectionSound(e, b'.rejections[i]);
      CleanRejection(e, b'.rejections[i]);
    }
    forall i | |b.decisions| <= i < |b'.decisions|
      ensures b'.decisions[i].symbol in e.config.assets
    {
      assert DecisionSound(e, b'.decisions[i]);
    }
  }

  lemma CleanRejection(e: Env, r: Rejection)
    requires CleanEnv(e) && RejectionSound(e, r)
    ensures RejectionExplained(e, r)
  {
    hide EvidenceAuditable, RangeOf, MultipliersBounded, SnapshotOk, Normalize, Visible, RawValued, PriceFor, DecisionExplained;
    if RuleReason(r.reason) {
      var q :| NormalizeFor(e, r.symbol, q) == Rejected(r.reason);
      var rules := Get(e.snapshot.rules, r.symbol);
      assert rules.Some? ==> RawValued(rules.value);
      RawRejectionVisible(rules, e.config.requireRules, e.config.tolerance, q, ReferenceFor(e.snapshot, r.symbol));
      assert Normalize(rules, e.config.requireRules, e.config.tolerance, q, ReferenceFor(e.snapshot, r.symbol)) == NormalizeFor(e, r.symbol, q);
    }
  }
}
