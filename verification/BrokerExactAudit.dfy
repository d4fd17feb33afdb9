/**
 Writer against checker, exactly: after any number of weeks `reconcile` accepts
 the tables if and only if every committed week explained what it recorded and
 the stranded remainders stay within the tolerance.
 */
module BrokerExactAudit {
  import opened Common
  import opened Numbers
  import opened Quantities
  import opened Broker
  import opened BrokerSolvency
  import opened BrokerLedger
  import opened BrokerRows
  import opened BrokerAudit
  import opened BrokerWeeks
  import opened BrokerDrift
  import opened Reconcile

  // ------------------------------------------- a failed audit never recovers

  lemma EvidenceRowOf(e: Env, b: Book, b': Book, a: Symbol) returns (k: nat)
    requires Extended(e, b, b') && Closed(b) && e.run !in b.outcomes && HasEvidence(b', e.run, a)
    ensures k < |b'.evidence| && b'.evidence[k] == EvidenceRow(e.run, a, b'.evidence[k].evidence)
    ensures a in e.snapshot.quotes && b'.evidence[k] == EvidenceOf(e, a)
  {
    hide FillsExtended, RowsExtended;
    RowsOfRun(e, b, b');
    k :| 0 <= k < |b'.evidence| && b'.evidence[k].run == e.run && b'.evidence[k].symbol == a;
  }

  /** What the audit of the rules finds in the new tables it found in the old ones, and the week's own rows were explained. */
  lemma RulesNeeded(e: Env, b: Book, b': Book)
    requires StepsVisible(e) && Extended(e, b, b') && Complete(e, b, b') && Closed(b) && e.run !in b.outcomes
    requires RulesOk(e.config, b')
    ensures RulesExplained(e, b, b')
  {
    hide EvidenceValid, FillPasses, RejectionAudited, Backed, RawValued, RejectionSound, DecisionsFrom, RejectionExplained,
         ContextOf, EvidenceOf, RangeOf, MultipliersBounded, FillSound, RowsMatch, HasEvidence, HasContext, Extended;
    forall a | a in e.config.assets
      ensures EvidenceValid(EvidenceOf(e, a).evidence)
    {
      var k := EvidenceRowOf(e, b, b', a);
    }
    forall i | |b.rejections| <= i < |b'.rejections|
      ensures RejectionExplained(e, b'.rejections[i])
    {
      RejectionNeeded(e, b, b', i);
    }
  }

  lemma RejectionNeeded(e: Env, b: Book, b': Book, i: nat)
    requires StepsVisible(e) && EvidenceAuditable(e) && Extended(e, b, b') && Complete(e, b, b') && Closed(b)
    requires e.run !in b.outcomes && RulesOk(e.config, b') && |b.rejections| <= i < |b'.rejections|
    ensures RejectionExplained(e, b'.rejections[i])
  {
    hide EvidenceValid, FillPasses, Backed, RawValued, DecisionsFrom, AlignedTables, FinalReasonAudited,
         ContextOf, RangeOf, MultipliersBounded, SnapshotOk, FillSound, HasEvidence, ExpectedReason, RuleReason, EvidenceOf,
         RejectionAudited, RejectionExplained;
    var r := b'.rejections[i];
    assert RejectionSound(e, r);
    hide RejectionSound;
    RejectionSoundOwn(e, r);
    ContextsOfRun(e, b, b', r.run, r.symbol);
    var k := EvidenceRowOf(e, b, b', r.symbol);
    RejectionSoundAudited(e, r, b'.contexts);
  }

  lemma RulesWereOk(e: Env, b: Book, b': Book)
    requires Extended(e, b, b') && Closed(b) && e.run !in b.outcomes && RulesOk(e.config, b')
    ensures RulesOk(e.config, b)
  {
    hide EvidenceValid, FillPasses, RejectionAudited, Backed, RejectionSound, DecisionsFrom, ContextOf, EvidenceOf, RangeOf,
         FillSound, RowsMatch, HasContext;
    forall k | 0 <= k < |b.evidence|
      ensures b.evidence[k] == b'.evidence[k]
    {
      assert b'.evidence[k] == b'.evidence[..|b.evidence|][k];
    }
    forall i | 0 <= i < |b.rejections|
      ensures b.rejections[i] == b'.rejections[i]
    {
      assert b'.rejections[i] == b'.rejections[..|b.rejections|][i];
    }
    forall i | 0 <= i < |b.orders|
      ensures b.orders[i] == b'.orders[i] && b.fills[i] == b'.fills[i]
    {
      OldRows(b, b', i);
    }
    forall i, k | 0 <= i < |b.rejections| && 0 <= k < |b.evidence|
                  && b.evidence[k].run == b.rejections[i].run && b.evidence[k].symbol == b.rejections[i].symbol
      ensures RejectionAudited(e.config, b.evidence[k].evidence, b.rejections[i], b.contexts)
    {
      assert RejectionAudited(e.config, b'.evidence[k].evidence, b'.rejections[i], b'.contexts);
      ContextsOfRun(e, b, b', b.rejections[i].run, b.rejections[i].symbol);
      OldRejectionWasAudited(e.config, b.evidence[k].evidence, b.rejections[i], b.contexts, b'.contexts);
    }
    forall run, a | run in b.outcomes && a in e.config.assets
      ensures HasEvidence(b, run, a)
    {
      assert run in b'.outcomes.Keys;
      var k :| 0 <= k < |b'.evidence| && b'.evidence[k].run == run && b'.evidence[k].symbol == a;
      if |b.evidence| <= k {
        NewEvidenceRun(e, b, b', k);
      }
    }
  }

  lemma OldRejectionWasAudited(c: Config, ev: Evidence, r: Rejection, contexts: seq<Context>, contexts': seq<Context>)
    requires |contexts| <= |contexts'| && contexts'[..|contexts|] == contexts
    requires forall k :: 0 <= k < |contexts'| && QuoteOf(contexts'[k], r.run, r.symbol) ==> k < |contexts| && contexts'[k] == contexts[k]
    requires RejectionAudited(c, ev, r, contexts')
    ensures RejectionAudited(c, ev, r, contexts)
  {
    hide FinalReasonAudited;
    forall k | 0 <= k < |contexts|
      ensures contexts'[k] == contexts[k]
    {
      assert contexts'[k] == contexts'[..|contexts|][k];
    }
  }

  // ------------------------------------------------- PRICE_RANGE decisions

  lemma RangesNeeded(e: Env, b: Book, b': Book)
    requires EnvOk(e) && Extended(e, b, b') && Complete(e, b, b') && Closed(b) && e.run !in b.outcomes
    requires RangesOk(e.config, b')
    ensures RangesExplained(e, b, b')
  {
    if e.config.requireRangeEvidence {
      hide EvidenceValid, RejectionSound, DecisionSound, ContextOf, EvidenceOf, SnapshotOk, FillSound, RowsMatch, DecisionExplained,
           DecisionAudited, DecisionsMatchProposals, Backed, HasContext, HasEvidence, RangeOf, MultipliersBounded;
      RowsOfRun(e, b, b');
      forall a | a in e.config.assets
        ensures MultipliersBounded(RangeOf(e, a))
      {
        var k :| 0 <= k < |b'.ranges| && b'.ranges[k].run == e.run && b'.ranges[k].symbol == a;
        assert b'.ranges[k] == RangeEvidenceRow(e.run, a, RangeOf(e, a));
      }
      forall i | |b.decisions| <= i < |b'.decisions|
        ensures DecisionExplained(e, b'.decisions[i].symbol)
      {
        DecisionNeeded(e, b, b', i);
      }
    }
  }

  lemma DecisionNeeded(e: Env, b: Book, b': Book, i: nat)
    requires EnvOk(e) && e.config.requireRangeEvidence && Extended(e, b, b') && Complete(e, b, b') && Closed(b)
    requires e.run !in b.outcomes && |b.decisions| <= i < |b'.decisions|
    requires DecisionAudited(e.config, b', b'.decisions[i])
    requires forall a :: a in e.config.assets ==> MultipliersBounded(RangeOf(e, a))
    ensures DecisionExplained(e, b'.decisions[i].symbol)
  {
    hide EvidenceValid, RejectionSound, ContextOf, EvidenceOf, SnapshotOk, FillSound, RowsMatch, AlignedTables, ExpectedPrices,
         ExpectedRange, RangeOf, EvaluateRange, MultipliersBounded, DecisionsMatchProposals, HasEvidence, DecisionExplained;
    var d := b'.decisions[i];
    assert DecisionSound(e, d);
    DecisionSoundExpected(e, d);
    RowsOfRun(e, b, b');
    var k := EvidenceRowOf(e, b, b', d.symbol);
    var j :| 0 <= j < |b'.ranges| && b'.ranges[j].run == d.run && b'.ranges[j].symbol == d.symbol;
    assert b'.ranges[j].range == RangeOf(e, d.symbol);
  }

  lemma RangesWereOk(e: Env, b: Book, b': Book)
    requires Extended(e, b, b') && Closed(b) && e.run !in b.outcomes && RangesOk(e.config, b')
    ensures RangesOk(e.config, b)
  {
    if e.config.requireRangeEvidence {
      hide RejectionSound, DecisionSound, ContextOf, EvidenceOf, FillSound, RowsMatch, AlignedTables, RangeOf,
           DecisionAudited, DecisionsMatchProposals, MultipliersBounded;
      forall k | 0 <= k < |b.ranges|
        ensures MultipliersBounded(b.ranges[k].range)
      {
        assert b'.ranges[k] == b'.ranges[..|b.ranges|][k];
      }
      forall i | 0 <= i < |b.decisions|
        ensures DecisionAudited(e.config, b, b.decisions[i])
      {
        assert b'.decisions[i] == b'.decisions[..|b.decisions|][i];
        OldDecisionWasAudited(e, b, b', b.decisions[i]);
      }
      forall i | 0 <= i < |b.decisions| && Refusing(b.decisions[i].row.decision)
        ensures RefusalPersisted(b.rejections, b.decisions[i])
      {
        AuditedIsBacked(e.config, b, b.decisions[i]);
      }
      forall run | run in b.outcomes
        ensures DecisionsMatchProposals(b, run)
      {
        assert run in b'.outcomes.Keys;
        OldRunMatched(e, b, b', run);
      }
    }
  }

  lemma AuditedIsBacked(c: Config, b: Book, d: DecisionRow)
    requires DecisionAudited(c, b, d) && Refusing(d.row.decision)
    ensures RefusalPersisted(b.rejections, d)
  {
  }

  lemma OldDecisionWasAudited(e: Env, b: Book, b': Book, d: DecisionRow)
    requires Extended(e, b, b') && Closed(b) && e.run !in b.outcomes && d.run in b.outcomes
    requires DecisionAudited(e.config, b', d)
    ensures DecisionAudited(e.config, b, d)
  {
    hide RejectionSound, DecisionSound, ContextOf, EvidenceOf, FillSound, RowsMatch, AlignedTables, Backed, ExpectedPrices,
         ExpectedRange, RangeOf;
    ContextsOfRun(e, b, b', d.run, d.symbol);
    SameRows(e, b, b', d.run);
    forall k | 0 <= k < |b.contexts| ensures b'.contexts[k] == b.contexts[k] {
      assert b'.contexts[k] == b'.contexts[..|b.contexts|][k];
    }
    forall k | 0 <= k < |b.ranges| ensures b'.ranges[k] == b.ranges[k] {
      assert b'.ranges[k] == b'.ranges[..|b.ranges|][k];
    }
    forall k | 0 <= k < |b.evidence| ensures b'.evidence[k] == b.evidence[k] {
      assert b'.evidence[k] == b'.evidence[..|b.evidence|][k];
    }
  }

  lemma OldRunMatched(e: Env, b: Book, b': Book, run: RunId)
    requires Extended(e, b, b') && run in b.outcomes && e.run !in b.outcomes && DecisionsMatchProposals(b', run)
    ensures DecisionsMatchProposals(b, run)
  {
    hide RejectionSound, DecisionSound, FillSound, AlignedTables, Backed, ContextOf, EvidenceOf, RangeOf;
    SameRows(e, b, b', run);
    forall i | 0 <= i < |b.decisions| ensures b'.decisions[i] == b.decisions[i] {
      assert b'.decisions[i] == b'.decisions[..|b.decisions|][i];
    }
    forall i | 0 <= i < |b.orders| ensures b'.orders[i] == b.orders[i] {
      assert b'.orders[i] == b'.orders[..|b.orders|][i];
    }
    forall i | 0 <= i < |b.rejections| ensures b'.rejections[i] == b.rejections[i] {
      assert b'.rejections[i] == b'.rejections[..|b.rejections|][i];
    }
    forall key
      ensures DecidedIn(b', run, key) ==> DecidedIn(b, run, key)
      ensures OrderedIn(b', run, key) ==> OrderedIn(b, run, key)
      ensures FinallyRejectedIn(b', run, key) ==> FinallyRejectedIn(b, run, key)
    {
    }
  }

  // ------------------------------------------------------------------ one week

  /** The week commits when run on this book. */
  predicate Commits(c: Config, b: Book, w: Week) {
    SnapshotOk(c, w.snapshot) && w.run !in b.outcomes && ExecuteWeek(c, b, w).Ok?
  }

  /**
   Every evidence row the week records is valid, every rule-based rejection names
   a limit the audit sees, and every PRICE_RANGE decision is about an enforceable
   rule or was made without a reference price.
   */
  ghost predicate WeekExplained(c: Config, b: Book, w: Week) {
    Commits(c, b, w) ==>
      RulesExplained(WeekEnv(c, w), b, ExecuteWeek(c, b, w).value) && RangesExplained(WeekEnv(c, w), b, ExecuteWeek(c, b, w).value)
  }

  /** Rules as parsed: the broker floors to no step the audit does not see. */
  predicate WeekParsed(c: Config, w: Week) {
    ConfigOk(c) && SnapshotOk(c, w.snapshot) ==> StepsVisible(WeekEnv(c, w))
  }

  /** The part of the audit that a week can fail for good. */
  ghost predicate Vetted(c: Config, b: Book) {
    RulesOk(c, b) && RangesOk(c, b)
  }

  lemma ExecuteVettedExactly(e: Env, b: Book, ps: seq<Proposal>, rejections: seq<Rejection>)
    requires StepsVisible(e) && ProposalsOk(e, ps) && ProposalsQuoted(e, ps) && Accounted(e.config, b)
    requires e.run !in b.outcomes && ProposalRejections(e, rejections) && Execute(e, b, ps, rejections).Ok?
    ensures var b' := Execute(e, b, ps, rejections).value;
            && Accounted(e.config, b')
            && (Vetted(e.config, b') <==> Vetted(e.config, b) && RulesExplained(e, b, b') && RangesExplained(e, b, b'))
  {
    hide Execute, BookOk, Closed, JoinsOk, RulesOk, RangesOk, Extended, Complete, ProposalsOk, ProposalsQuoted, RejectionSound,
         RulesExplained, RangesExplained;
    var b' := Execute(e, b, ps, rejections).value;
    ExecuteExtends(e, b, ps, rejections);
    ExecuteKeepsBook(e, b, ps, rejections);
    JoinsKept(e, b, b');
    ClosedKept(e, b, b');
    if Vetted(e.config, b') {
      RulesNeeded(e, b, b');
      RulesWereOk(e, b, b');
      RangesNeeded(e, b, b');
      RangesWereOk(e, b, b');
    } else if Vetted(e.config, b) && RulesExplained(e, b, b') && RangesExplained(e, b, b') {
      RulesKept(e, b, b');
      RangesKept(e, b, b');
    }
  }

  lemma RunWeekVettedExactly(c: Config, b: Book, w: Week)
    requires ConfigOk(c) && Accounted(c, b) && WeekParsed(c, w)
    ensures Accounted(c, RunWeek(c, b, w))
    ensures Vetted(c, RunWeek(c, b, w)) <==> Vetted(c, b) && WeekExplained(c, b, w)
  {
    if Commits(c, b, w) {
      var e := WeekEnv(c, w);
      ProposalRejectionsSound(e, b, w.weights);
      var p := Proposals(e, b, w.weights, |c.assets|);
      hide Execute, Proposals, Accounted, Vetted, ProposalsOk, ProposalsQuoted, SnapshotOk, RejectionSound, StepsVisible,
           RulesExplained, RangesExplained;
      ExecuteVettedExactly(e, b, p.proposals, p.rejections);
    }
  }

  // ------------------------------------------------------------ whole histories

  predicate AllParsed(c: Config, weeks: seq<Week>) {
    forall k :: 0 <= k < |weeks| ==> WeekParsed(c, weeks[k])
  }

  /** Week k of a history explained what it recorded. */
  ghost predicate ExplainedAt(c: Config, weeks: seq<Week>, k: nat)
    requires k < |weeks|
  {
    WeekExplained(c, RunWeeks(c, OpenBook(c), weeks[..k]), weeks[k])
  }

  ghost predicate AllExplained(c: Config, weeks: seq<Week>) {
    forall k :: 0 <= k < |weeks| ==> ExplainedAt(c, weeks, k)
  }

  lemma LastExplained(c: Config, weeks: seq<Week>)
    requires weeks != []
    ensures AllExplained(c, weeks) <==> AllExplained(c, weeks[..|weeks| - 1]) && ExplainedAt(c, weeks, |weeks| - 1)
  {
    hide WeekExplained, RunWeeks;
    var n := |weeks| - 1;
    assert forall k :: 0 <= k < n ==> weeks[..n][..k] == weeks[..k];
    assert forall k :: 0 <= k < n ==> ExplainedAt(c, weeks[..n], k) == ExplainedAt(c, weeks, k);
  }

  lemma OpenAccounted(c: Config)
    requires ConfigOk(c)
    ensures Accounted(c, OpenBook(c)) && Vetted(c, OpenBook(c))
  {
    OpenBookOk(c);
  }

  lemma {:induction false} WeeksVettedExactly(c: Config, weeks: seq<Week>)
    requires ConfigOk(c) && AllParsed(c, weeks)
    ensures Accounted(c, RunWeeks(c, OpenBook(c), weeks))
    ensures Vetted(c, RunWeeks(c, OpenBook(c), weeks)) <==> AllExplained(c, weeks)
  {
    hide Accounted, Vetted, WeekExplained, WeekParsed, RunWeek, AllExplained;
    if weeks == [] {
      OpenAccounted(c);
      NothingToExplain(c);
    } else {
      var n := |weeks| - 1;
      WeeksVettedExactly(c, weeks[..n]);
      RunWeekVettedExactly(c, RunWeeks(c, OpenBook(c), weeks[..n]), weeks[n]);
      LastExplained(c, weeks);
    }
  }

  lemma NothingToExplain(c: Config)
    ensures AllExplained(c, [])
  {
  }

  lemma ReconcilesVetted(c: Config, b: Book)
    requires ConfigOk(c) && Accounted(c, b) && Reconciles(c, b)
    ensures Vetted(c, b) && PositionsReconcile(c, b)
  {
    RulesReconciled(c, b);
    hide OrderAccounted, EvidenceAudited, EvidenceValid, RejectionAudited, HasEvidence, HasContext, ContextOk, RowsAccounted,
         DecisionAudited, DecisionsMatchProposals, MultipliersBounded, PositionReconciles, BookOk, Closed, JoinsOk, RulesOk,
         RefusalPersisted;
    if c.requireRangeEvidence {
      forall i | 0 <= i < |b.decisions| && Refusing(b.decisions[i].row.decision)
        ensures RefusalPersisted(b.rejections, b.decisions[i])
      {
        AuditedIsBacked(c, b, b.decisions[i]);
      }
    }
  }

  lemma RulesReconciled(c: Config, b: Book)
    requires ConfigOk(c) && JoinsOk(c, b) && Reconciles(c, b)
    ensures RulesOk(c, b)
  {
    hide OrderAccounted, EvidenceValid, FillPasses, RejectionAudited, RowsMatch, DistinctKeys, HasEvidence, HasContext,
         ContextOk, RowsAccounted, DecisionAudited, DecisionsMatchProposals, MultipliersBounded, PositionReconciles;
    forall i, k | 0 <= i < |b.orders| && 0 <= k < |b.evidence|
                  && b.evidence[k].run == b.orders[i].run && b.evidence[k].symbol == b.orders[i].symbol
      ensures FillPasses(b.evidence[k].evidence, b.fills[i].quantity)
    {
      assert EvidenceAudited(c, b, b.evidence[k]);
      JoinedAt(b, i, i);
    }
    forall k | 0 <= k < |b.evidence|
      ensures EvidenceValid(b.evidence[k].evidence)
    {
      assert EvidenceAudited(c, b, b.evidence[k]);
    }
    forall i, k | 0 <= i < |b.rejections| && 0 <= k < |b.evidence|
                  && b.evidence[k].run == b.rejections[i].run && b.evidence[k].symbol == b.rejections[i].symbol
      ensures RejectionAudited(c, b.evidence[k].evidence, b.rejections[i], b.contexts)
    {
      assert EvidenceAudited(c, b, b.evidence[k]);
    }
  }

  /**
   When the audit accepts a history, exactly, for all weeks with parsed rules: if
   and only if every week that committed explained its rows and what the sells
   stranded of each symbol sums to at most the tolerance.
   */
  lemma ReconcilesExactly(c: Config, weeks: seq<Week>)
    requires ConfigOk(c) && AllParsed(c, weeks)
    ensures Reconciles(c, RunWeeks(c, OpenBook(c), weeks)) <==> AllExplained(c, weeks) && StrandedWithin(c, weeks)
  {
    hide Accounted, RulesOk, RangesOk, AllExplained, AllParsed, StrandedWithin, PositionsReconcile, Reconciles, RunWeeks;
    var b := RunWeeks(c, OpenBook(c), weeks);
    WeeksVettedExactly(c, weeks);
    PositionsReconcileExactly(c, weeks);
    if Reconciles(c, b) {
      ReconcilesVetted(c, b);
    } else if Vetted(c, b) && PositionsReconcile(c, b) {
      PartsReconcile(c, b);
    }
  }
}
