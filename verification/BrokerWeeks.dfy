/**
 Whole histories: one execution extends the tables by sound, complete rows, so
 the invariants behind `reconcile` survive every week, and the audit passes after
 any number of them.
 */
module BrokerWeeks {
  import opened Common
  import opened Numbers
  import opened Grid
  import opened Quantities
  import opened Broker
  import opened BrokerSolvency
  import opened BrokerTrace
  import opened BrokerLedger
  import opened BrokerIntents
  import opened BrokerRows
  import opened BrokerAudit
  import opened Reconcile

  // ------------------------------------------------------------- the ledgers

  /** The rows appended by a sequence of fills. */
  ghost predicate Appended(e: Env, b: Book, xs: seq<Exec>, w: Book) {
    && AlignedTables(b) && AlignedTables(w)
    && |w.orders| == |b.orders| + |xs| && w.orders[..|b.orders|] == b.orders
    && w.fills[..|b.fills|] == b.fills
    && w.cashLedger[..|b.cashLedger|] == b.cashLedger
    && w.positionLedger[..|b.positionLedger|] == b.positionLedger
    && forall i :: |b.orders| <= i < |w.orders| ==>
         w.orders[i].run == e.run && w.fills[i] == FillOf(e, xs[i - |b.orders|])
  }

  lemma AppendedStep(e: Env, b: Book, xs: seq<Exec>, w: Book, x: Exec, w': Book)
    requires Appended(e, b, xs, w) && PersistFill(e, w, x) == Ok(w')
    ensures Appended(e, b, xs + [x], w')
  {
    PersistFillAligned(e, w, x);
    assert |w.orders| == |w.fills| == |w.positionLedger| && |w.cashLedger| == |w.fills| + 1;
    assert |b.orders| == |b.fills| == |b.positionLedger| && |b.cashLedger| == |b.fills| + 1;
    assert w'.orders[..|b.orders|] == w.orders[..|b.orders|];
    assert w'.fills[..|b.fills|] == w.fills[..|b.fills|];
    assert w'.cashLedger[..|b.cashLedger|] == w.cashLedger[..|b.cashLedger|];
    assert w'.positionLedger[..|b.positionLedger|] == w.positionLedger[..|b.positionLedger|];
    forall i | |b.orders| <= i < |w'.orders|
      ensures w'.orders[i].run == e.run && w'.fills[i] == FillOf(e, (xs + [x])[i - |b.orders|])
    {
      if i < |w.orders| {
        assert w'.orders[i] == w.orders[i] && w'.fills[i] == w.fills[i];
      }
    }
  }

  lemma {:induction false} FillAllAppends(e: Env, b: Book, xs: seq<Exec>)
    requires AlignedTables(b) && FillAll(e, b, xs).Ok?
    ensures Appended(e, b, xs, FillAll(e, b, xs).value)
  {
    if xs == [] {
    } else {
      hide PersistFill, Appended;
      var n := |xs| - 1;
      FillAllLast(e, b, xs);
      FillAllAppends(e, b, xs[..n]);
      AppendedStep(e, b, xs[..n], FillAll(e, b, xs[..n]).value, xs[n], FillAll(e, b, xs).value);
      assert xs == xs[..n] + [xs[n]];
    }
  }

  lemma AppendedIsSound(e: Env, b: Book, ps: seq<Proposal>, xs: seq<Exec>, w: Book, b': Book)
    requires ProposalsOk(e, ps) && Traced(e, b, ps, xs) && Appended(e, b, xs, w) && LedgerEq(w, b')
    ensures FillsExtended(e, b, b')
  {
    hide ExecOk, Normalized, FillOf, RowsMatch;
    forall i | |b.orders| <= i < |b'.orders|
      ensures b'.orders[i].run == e.run && FillSound(e, b'.fills[i])
    {
      var x := xs[i - |b.orders|];
      assert w.fills[i] == FillOf(e, x);
      assert ExecOk(e, x) && Normalized(e, x) && x.proposal.key == Key(e.signal, x.proposal.symbol);
    }
  }

  lemma ExecuteExtendsFills(e: Env, b: Book, ps: seq<Proposal>, rejections: seq<Rejection>)
    requires EnvOk(e) && ProposalsOk(e, ps) && ProposalsQuoted(e, ps) && AlignedTables(b)
    requires Execute(e, b, ps, rejections).Ok?
    ensures FillsExtended(e, b, Execute(e, b, ps, rejections).value)
  {
    var xs := ExecuteTrace(e, b, ps, rejections);
    hide Execute, FillAll, Traced, LedgerEq, Appended, FillsExtended;
    FillAllAppends(e, b, xs);
    AppendedIsSound(e, b, ps, xs, FillAll(e, b, xs).value, Execute(e, b, ps, rejections).value);
  }

  // ------------------------------------------------------------ staged evidence

  predicate QuotesProposals(e: Env, b: Book, ps: seq<Proposal>) {
    forall i :: 0 <= i < |ps| ==> HasContext(b, e.run, ps[i].symbol)
  }

  lemma StagedExtends(e: Env, b: Book, ps: seq<Proposal>, rejections: seq<Rejection>)
    requires EnvOk(e) && ProposalsOk(e, ps) && ProposalsQuoted(e, ps)
    ensures var staged := StageEvidence(e, b, ps, rejections);
            && EvidenceExtended(e, b, staged)
            && QuotesProposals(e, staged, ps)
            && (forall a :: a in e.config.assets ==> HasEvidence(staged, e.run, a))
            && (e.config.requireRangeEvidence ==> forall a :: a in e.config.assets ==> HasRange(staged, e.run, a))
            && staged.rejections == b.rejections + rejections
            && staged.decisions == b.decisions && staged.outcomes == b.outcomes && staged.orders == b.orders
  {
    var staged := StageEvidence(e, b, ps, rejections);
    hide RecordEvidence, Mid;
    forall i | 0 <= i < |ps|
      ensures HasContext(staged, e.run, ps[i].symbol)
    {
      assert staged.contexts[|b.contexts| + i] == ContextOf(e, ps[i].symbol);
    }
    forall a | a in e.config.assets
      ensures HasEvidence(staged, e.run, a)
      ensures e.config.requireRangeEvidence ==> HasRange(staged, e.run, a)
    {
      var i :| 0 <= i < |e.config.assets| && e.config.assets[i] == a;
      assert staged.evidence[|b.evidence| + i] == EvidenceOf(e, a);
      if e.config.requireRangeEvidence {
        assert staged.ranges[|b.ranges| + i] == RangeEvidenceRow(e.run, a, RangeOf(e, a));
      }
    }
  }

  // ------------------------------------------------------- decisions and keys

  /** The rejections `_proposals` hands over. */
  ghost predicate ProposalRejections(e: Env, rejections: seq<Rejection>) {
    forall i :: 0 <= i < |rejections| ==>
      RejectionSound(e, rejections[i]) && rejections[i].stage.ProposalStage? && !rejections[i].reason.InsufficientCash?
  }

  /**
   Over the rows one execution adds: orders and final rejections carry each
   proposal's key once, and so do the PRICE_RANGE decisions when required.
   */
  ghost predicate KeysSettled(e: Env, b: Book, ps: seq<Proposal>, rejected: nat, b': Book)
    requires |b.orders| <= |b'.orders| && rejected <= |b'.rejections| && |b.decisions| <= |b'.decisions|
  {
    && multiset(OrderKeys(b'.orders[|b.orders|..])) + multiset(RejectionKeys(b'.rejections[rejected..]))
       == multiset(ProposalKeys(ps))
    && multiset(DecisionKeys(b'.decisions[|b.decisions|..])) == Decided(e, ps)
  }

  lemma DecisionSuffix(a: seq<DecisionRow>, b: seq<DecisionRow>)
    requires |a| <= |b| && b[..|a|] == a
    ensures multiset(DecisionKeys(b)) == multiset(DecisionKeys(a)) + multiset(DecisionKeys(b[|a|..]))
  {
    assert DecisionKeys(b) == DecisionKeys(a) + DecisionKeys(b[|a|..]) by {
      assert b == a + b[|a|..];
    }
  }

  /** The tables other than the ledgers after one execution: staged evidence, then sound rows for each proposal. */
  ghost predicate RowsSettled(e: Env, b: Book, ps: seq<Proposal>, staged: Book, b': Book) {
    && RowsExtended(e, b, b')
    && b'.contexts == staged.contexts && b'.evidence == staged.evidence && b'.ranges == staged.ranges
    && |b.orders| <= |b'.orders| && |staged.rejections| <= |b'.rejections|
    && FinalFrom(b'.rejections, |staged.rejections|)
    && (forall i :: 0 <= i < |staged.rejections| ==> b'.rejections[i] == staged.rejections[i])
    && KeysSettled(e, b, ps, |staged.rejections|, b')
  }

  lemma ExecuteSettlesRows(e: Env, b: Book, ps: seq<Proposal>, rejections: seq<Rejection>)
    requires EnvOk(e) && ProposalsOk(e, ps) && ProposalsQuoted(e, ps) && NoShorts(b.positions) && 0.0 <= b.cash
    requires ProposalRejections(e, rejections)
    requires Execute(e, b, ps, rejections).Ok?
    ensures RowsSettled(e, b, ps, StageEvidence(e, b, ps, rejections), Execute(e, b, ps, rejections).value)
  {
    var sellPlan, buyPlan, sold, bought := ExecuteStages(e, b, ps, rejections);
    var staged := StageEvidence(e, b, ps, rejections);
    var b' := Execute(e, b, ps, rejections).value;
    hide Execute, StageEvidence, Settled, OrderKeys, RejectionKeys, ProposalKeys, DecisionKeys, RejectionSound, DecisionSound,
         Committed, Decided, Backed, EvidenceExtended, Settle, QuotesProposals, SoundFrom, DecisionsFrom, HasContext, HasEvidence,
         HasRange, EnvOk, ProposalsOk, ProposalsQuoted, NoShorts, KeysSettled, FinalFrom, RowsExtended;
    CommittedNoted(e, b, ps, rejections, sellPlan, buyPlan, sold, bought);
    CommittedSettles(e, b, ps, rejections, sellPlan, buyPlan, sold, bought);
    ExecuteSettles(e, b, ps, rejections);
    StagedSettles(e, b, ps, rejections);
    RejectionsOwn(e, rejections);
    ExecuteOwn(e, b, ps, rejections);
    StagedExtends(e, b, ps, rejections);
    SettleFields(e, bought, |bought.rejections| - |b.rejections|);
    SettledRows(e, b, ps, rejections, staged, bought, b');
    RowsFromStaged(e, b, rejections, staged, bought, b');
  }

  lemma SettleFields(e: Env, b: Book, k: int)
    ensures var b' := Settle(e, b, k);
            && b'.rejections == b.rejections && b'.decisions == b.decisions && b'.orders == b.orders
            && b'.contexts == b.contexts && b'.evidence == b.evidence && b'.ranges == b.ranges
            && b'.outcomes.Keys == b.outcomes.Keys + {e.run}
  {
  }

  lemma RejectionsOwn(e: Env, rejections: seq<Rejection>)
    requires ProposalRejections(e, rejections)
    ensures forall i :: 0 <= i < |rejections| ==> rejections[i].run == e.run
  {
  }

  lemma SettledRows(e: Env, b: Book, ps: seq<Proposal>, rejections: seq<Rejection>, staged: Book, bought: Book,
                    b': Book)
    requires Noted(e, staged, bought)
    requires b'.rejections == bought.rejections && b'.decisions == bought.decisions
    requires staged.rejections == b.rejections + rejections && staged.decisions == b.decisions
    requires staged.orders == b.orders
    requires Settled(staged) == Settled(b) + multiset(RejectionKeys(rejections))
    requires Settled(b') == Settled(b) + multiset(RejectionKeys(rejections)) + multiset(ProposalKeys(ps))
    requires multiset(DecisionKeys(b'.decisions)) == multiset(DecisionKeys(b.decisions)) + Decided(e, ps)
    requires |b.orders| <= |b'.orders| && b'.orders[..|b.orders|] == b.orders
    ensures |b.decisions| <= |b'.decisions| && |staged.rejections| <= |b'.rejections|
    ensures KeysSettled(e, b, ps, |staged.rejections|, b')
  {
    hide RejectionSound, DecisionSound, Backed, Settled, OrderKeys, RejectionKeys, ProposalKeys, DecisionKeys, Decided;
    SettledSuffix(staged, b');
    Cancel(Settled(staged),
           multiset(OrderKeys(b'.orders[|b.orders|..])) + multiset(RejectionKeys(b'.rejections[|staged.rejections|..])),
           multiset(ProposalKeys(ps)));
    DecisionSuffix(b.decisions, b'.decisions);
    Cancel(multiset(DecisionKeys(b.decisions)), multiset(DecisionKeys(b'.decisions[|b.decisions|..])), Decided(e, ps));
  }

  lemma RowsFromStaged(e: Env, b: Book, rejections: seq<Rejection>, staged: Book, bought: Book, b': Book)
    requires Noted(e, staged, bought) && ProposalRejections(e, rejections)
    requires staged.rejections == b.rejections + rejections && staged.decisions == b.decisions
    requires staged.outcomes == b.outcomes
    requires b'.rejections == bought.rejections && b'.decisions == bought.decisions
    requires b'.outcomes.Keys == bought.outcomes.Keys + {e.run}
    ensures RowsExtended(e, b, b')
    ensures FinalFrom(b'.rejections, |b.rejections| + |rejections|)
    ensures forall i :: 0 <= i < |staged.rejections| ==> b'.rejections[i] == staged.rejections[i]
  {
    hide RejectionSound, DecisionSound, RefusalPersisted;
    forall i | 0 <= i < |staged.rejections|
      ensures b'.rejections[i] == staged.rejections[i]
    {
      assert b'.rejections[i] == b'.rejections[..|staged.rejections|][i];
    }
    assert b'.rejections[..|b.rejections|] == b.rejections;
    if Backed(b) {
      BackedGrows(b, staged);
    }
  }

  // --------------------------------------------------------- complete joins

  lemma KeyMembers(ps: seq<Proposal>, orders: seq<Order>, finals: seq<Rejection>, decisions: seq<DecisionRow>, key: Key)
    ensures key in ProposalKeys(ps) <==> exists i :: 0 <= i < |ps| && ps[i].key == key
    ensures key in OrderKeys(orders) <==> exists i :: 0 <= i < |orders| && orders[i].key == key
    ensures key in RejectionKeys(finals) <==> exists i :: 0 <= i < |finals| && finals[i].key == key
    ensures key in DecisionKeys(decisions) <==> exists i :: 0 <= i < |decisions| && decisions[i].key == key
  {
    if key in ProposalKeys(ps) {
      var i :| 0 <= i < |ps| && ProposalKeys(ps)[i] == key;
    }
    if i :| 0 <= i < |ps| && ps[i].key == key {
      assert ProposalKeys(ps)[i] == key;
    }
    if i :| 0 <= i < |orders| && orders[i].key == key {
      assert OrderKeys(orders)[i] == key;
    }
    if i :| 0 <= i < |finals| && finals[i].key == key {
      assert RejectionKeys(finals)[i] == key;
    }
    if i :| 0 <= i < |decisions| && decisions[i].key == key {
      assert DecisionKeys(decisions)[i] == key;
    }
  }

  /** Membership form of the key equations. */
  lemma KeysMatch(e: Env, b: Book, ps: seq<Proposal>, rejected: nat, b': Book, key: Key)
    requires |b.orders| <= |b'.orders| && rejected <= |b'.rejections| && |b.decisions| <= |b'.decisions|
    requires KeysSettled(e, b, ps, rejected, b')
    ensures (key in OrderKeys(b'.orders[|b.orders|..]) || key in RejectionKeys(b'.rejections[rejected..])) <==> key in ProposalKeys(ps)
    ensures e.config.requireRangeEvidence ==> (key in DecisionKeys(b'.decisions[|b.decisions|..]) <==> key in ProposalKeys(ps))
    ensures key in DecisionKeys(b'.decisions[|b.decisions|..]) ==> key in ProposalKeys(ps)
  {
    hide OrderKeys, RejectionKeys, ProposalKeys, DecisionKeys;
    assert key in multiset(OrderKeys(b'.orders[|b.orders|..])) <==> key in OrderKeys(b'.orders[|b.orders|..]);
    assert key in multiset(RejectionKeys(b'.rejections[rejected..])) <==> key in RejectionKeys(b'.rejections[rejected..]);
    assert key in multiset(ProposalKeys(ps)) <==> key in ProposalKeys(ps);
    assert key in multiset(DecisionKeys(b'.decisions[|b.decisions|..])) <==> key in DecisionKeys(b'.decisions[|b.decisions|..]);
  }

  lemma ProposalQuotes(e: Env, b: Book, ps: seq<Proposal>, key: Key, a: Symbol)
    requires ProposalsOk(e, ps) && QuotesProposals(e, b, ps)
    requires key in ProposalKeys(ps) && key == Key(e.signal, a)
    ensures HasContext(b, e.run, a)
  {
    var i :| 0 <= i < |ps| && ProposalKeys(ps)[i] == key;
    assert ps[i].symbol == a;
  }

  lemma SameContexts(b: Book, b': Book, run: RunId, a: Symbol)
    requires b'.contexts == b.contexts && b'.evidence == b.evidence && b'.ranges == b.ranges
    ensures HasContext(b', run, a) == HasContext(b, run, a)
    ensures HasEvidence(b', run, a) == HasEvidence(b, run, a) && HasRange(b', run, a) == HasRange(b, run, a)
  {
  }

  /** What completeness needs of the staged tables. */
  ghost predicate StagedOk(e: Env, ps: seq<Proposal>, staged: Book) {
    && QuotesProposals(e, staged, ps)
    && (forall a :: a in e.config.assets ==> HasEvidence(staged, e.run, a))
    && (e.config.requireRangeEvidence ==> forall a :: a in e.config.assets ==> HasRange(staged, e.run, a))
  }

  lemma NewOrderProposed(e: Env, b: Book, ps: seq<Proposal>, staged: Book, b': Book, i: nat)
    requires FillsExtended(e, b, b') && RowsSettled(e, b, ps, staged, b') && |b.orders| <= i < |b'.orders|
    ensures b'.orders[i].key == Key(e.signal, b'.orders[i].symbol) && b'.orders[i].key in ProposalKeys(ps)
  {
    hide RowsExtended, EvidenceExtended, ProposalKeys, KeysSettled, DistinctKeys, ExecOk, Normalized;
    assert FillSound(e, b'.fills[i]) && RowsMatch(b'.orders[i], b'.fills[i], b'.cashLedger[i + 1], b'.positionLedger[i]);
    KeyMembers(ps, b'.orders[|b.orders|..], b'.rejections[|staged.rejections|..], [], b'.orders[i].key);
    assert b'.orders[i] == b'.orders[|b.orders|..][i - |b.orders|];
    hide FinalFrom;
    AsKeys(e, b, ps, staged, b', b'.orders[i].key);
  }

  lemma AsKeys(e: Env, b: Book, ps: seq<Proposal>, staged: Book, b': Book, key: Key)
    requires RowsSettled(e, b, ps, staged, b')
    ensures |b.orders| <= |b'.orders| && |staged.rejections| <= |b'.rejections| && |b.decisions| <= |b'.decisions|
    ensures (key in OrderKeys(b'.orders[|b.orders|..]) || key in RejectionKeys(b'.rejections[|staged.rejections|..])) <==> key in ProposalKeys(ps)
    ensures e.config.requireRangeEvidence ==> (key in DecisionKeys(b'.decisions[|b.decisions|..]) <==> key in ProposalKeys(ps))
    ensures key in DecisionKeys(b'.decisions[|b.decisions|..]) ==> key in ProposalKeys(ps)
  {
    KeysMatch(e, b, ps, |staged.rejections|, b', key);
  }

  lemma NewFinalProposed(e: Env, b: Book, ps: seq<Proposal>, staged: Book, b': Book, i: nat)
    requires RowsSettled(e, b, ps, staged, b') && |staged.rejections| <= i < |b'.rejections|
    requires |b.rejections| <= |staged.rejections|
    ensures b'.rejections[i].key == Key(e.signal, b'.rejections[i].symbol) && b'.rejections[i].key in ProposalKeys(ps)
  {
    hide Backed, DecisionsFrom, ProposalKeys, KeysSettled, FinalSound, NormalizeFor, FinalFrom;
    assert RejectionSound(e, b'.rejections[i]);
    KeyMembers(ps, [], b'.rejections[|staged.rejections|..], [], b'.rejections[i].key);
    assert b'.rejections[i] == b'.rejections[|staged.rejections|..][i - |staged.rejections|];
    AsKeys(e, b, ps, staged, b', b'.rejections[i].key);
  }

  lemma NewDecisionProposed(e: Env, b: Book, ps: seq<Proposal>, staged: Book, b': Book, i: nat)
    requires RowsSettled(e, b, ps, staged, b') && |b.decisions| <= i < |b'.decisions|
    ensures b'.decisions[i].key == Key(e.signal, b'.decisions[i].symbol) && b'.decisions[i].key in ProposalKeys(ps)
    ensures b'.decisions[i].run == e.run && b'.decisions[i].symbol in e.config.assets
  {
    hide Backed, SoundFrom, ProposalKeys, KeysSettled, EvaluateRange, RecordRange, RangeOf, PriceFor;
    assert DecisionSound(e, b'.decisions[i]);
    KeyMembers(ps, [], [], b'.decisions[|b.decisions|..], b'.decisions[i].key);
    assert b'.decisions[i] == b'.decisions[|b.decisions|..][i - |b.decisions|];
    AsKeys(e, b, ps, staged, b', b'.decisions[i].key);
  }

  /** A proposal's key is decided, and ordered or finally rejected, in the run. */
  lemma ProposedSettled(e: Env, b: Book, ps: seq<Proposal>, staged: Book, b': Book, key: Key)
    requires e.config.requireRangeEvidence
    requires FillsExtended(e, b, b') && RowsSettled(e, b, ps, staged, b') && |b.rejections| <= |staged.rejections|
    requires key in ProposalKeys(ps)
    ensures DecidedIn(b', e.run, key)
    ensures OrderedIn(b', e.run, key) || FinallyRejectedIn(b', e.run, key)
  {
    hide AlignedTables, FillSound, ProposalKeys, KeysSettled, Backed, EvaluateRange, RecordRange, RangeOf, PriceFor, FinalSound,
         NormalizeFor, OrderKeys, RejectionKeys, DecisionKeys;
    AsKeys(e, b, ps, staged, b', key);
    var orders, finals, decisions := b'.orders[|b.orders|..], b'.rejections[|staged.rejections|..], b'.decisions[|b.decisions|..];
    KeyMembers(ps, orders, finals, decisions, key);
    var d :| 0 <= d < |decisions| && decisions[d].key == key;
    assert DecisionSound(e, b'.decisions[|b.decisions| + d]);
    assert b'.decisions[|b.decisions| + d] == decisions[d];
    if i :| 0 <= i < |orders| && orders[i].key == key {
      assert b'.orders[|b.orders| + i] == orders[i];
    } else {
      var i :| 0 <= i < |finals| && finals[i].key == key;
      assert RejectionSound(e, b'.rejections[|staged.rejections| + i]);
      assert b'.rejections[|staged.rejections| + i] == finals[i];
    }
  }

  /** Rows of the run are new, and its final rejections come after the staged ones. */
  lemma RunRowsAreNew(e: Env, b: Book, staged: Book, rejections: seq<Rejection>, b': Book)
    requires Closed(b) && e.run !in b.outcomes && FillsExtended(e, b, b') && RowsExtended(e, b, b')
    requires staged.rejections == b.rejections + rejections && ProposalRejections(e, rejections)
    requires |staged.rejections| <= |b'.rejections|
    requires forall i :: 0 <= i < |staged.rejections| ==> b'.rejections[i] == staged.rejections[i]
    ensures forall i :: 0 <= i < |b'.orders| && b'.orders[i].run == e.run ==> |b.orders| <= i
    ensures forall i :: 0 <= i < |b'.decisions| && b'.decisions[i].run == e.run ==> |b.decisions| <= i
    ensures forall i :: |b.rejections| <= i < |b'.rejections| && b'.rejections[i].stage.FinalStage? ==> |staged.rejections| <= i
    ensures forall i :: 0 <= i < |b'.rejections| && b'.rejections[i].run == e.run && b'.rejections[i].stage.FinalStage? ==>
              |staged.rejections| <= i
  {
    hide AlignedTables, FillSound, Backed, DecisionSound, FinalSound, NormalizeFor;
    forall i | 0 <= i < |b.orders|
      ensures b'.orders[i].run in b.outcomes
    {
      assert b'.orders[i] == b'.orders[..|b.orders|][i];
    }
    forall i | 0 <= i < |b.decisions|
      ensures b'.decisions[i].run in b.outcomes
    {
      assert b'.decisions[i] == b'.decisions[..|b.decisions|][i];
    }
    forall i | 0 <= i < |b.rejections|
      ensures b'.rejections[i].run in b.outcomes
    {
      assert b'.rejections[i] == b'.rejections[..|b.rejections|][i];
    }
    forall i | |b.rejections| <= i < |staged.rejections|
      ensures b'.rejections[i].stage.ProposalStage?
    {
      assert b'.rejections[i] == rejections[i - |b.rejections|];
    }
  }

  lemma JoinsComplete(e: Env, b: Book, ps: seq<Proposal>, staged: Book, rejections: seq<Rejection>, b': Book)
    requires EnvOk(e) && ProposalsOk(e, ps) && Closed(b) && e.run !in b.outcomes
    requires FillsExtended(e, b, b') && RowsSettled(e, b, ps, staged, b') && StagedOk(e, ps, staged)
    requires staged.rejections == b.rejections + rejections && ProposalRejections(e, rejections)
    ensures Complete(e, b, b')
  {
    RunRowsAreNew(e, b, staged, rejections, b');
    hide AlignedTables, FillSound, Backed, DecisionSound, RejectionSound, ProposalKeys, HasContext, HasEvidence, HasRange, KeysSettled,
         ProposalsOk, EnvOk, Closed;
    forall i | |b.orders| <= i < |b'.orders|
      ensures HasContext(b', e.run, b'.orders[i].symbol) && b'.orders[i].key in ProposalKeys(ps)
    {
      NewOrderProposed(e, b, ps, staged, b', i);
      ProposalQuotes(e, staged, ps, b'.orders[i].key, b'.orders[i].symbol);
      SameContexts(staged, b', e.run, b'.orders[i].symbol);
    }
    forall i | |staged.rejections| <= i < |b'.rejections|
      ensures HasContext(b', e.run, b'.rejections[i].symbol) && b'.rejections[i].key in ProposalKeys(ps)
    {
      NewFinalProposed(e, b, ps, staged, b', i);
      ProposalQuotes(e, staged, ps, b'.rejections[i].key, b'.rejections[i].symbol);
      SameContexts(staged, b', e.run, b'.rejections[i].symbol);
    }
    forall i | |b.decisions| <= i < |b'.decisions|
      ensures HasContext(b', e.run, b'.decisions[i].symbol) && b'.decisions[i].key in ProposalKeys(ps)
      ensures e.config.requireRangeEvidence ==> HasRange(b', e.run, b'.decisions[i].symbol)
    {
      NewDecisionProposed(e, b, ps, staged, b', i);
      ProposalQuotes(e, staged, ps, b'.decisions[i].key, b'.decisions[i].symbol);
      SameContexts(staged, b', e.run, b'.decisions[i].symbol);
    }
    forall a | a in e.config.assets
      ensures HasEvidence(b', e.run, a)
      ensures e.config.requireRangeEvidence ==> HasRange(b', e.run, a)
    {
      SameContexts(staged, b', e.run, a);
    }
    if e.config.requireRangeEvidence {
      forall key | key in ProposalKeys(ps)
        ensures DecidedIn(b', e.run, key)
        ensures OrderedIn(b', e.run, key) || FinallyRejectedIn(b', e.run, key)
      {
        ProposedSettled(e, b, ps, staged, b', key);
      }
    }
  }

  /** One committed execution extends the book by sound, complete rows. */
  lemma ExecuteExtends(e: Env, b: Book, ps: seq<Proposal>, rejections: seq<Rejection>)
    requires EnvOk(e) && ProposalsOk(e, ps) && ProposalsQuoted(e, ps) && BookOk(e.config, b)
    requires Closed(b) && e.run !in b.outcomes && ProposalRejections(e, rejections)
    requires Execute(e, b, ps, rejections).Ok?
    ensures Extended(e, b, Execute(e, b, ps, rejections).value)
    ensures Complete(e, b, Execute(e, b, ps, rejections).value)
  {
    hide Execute, StageEvidence, AlignedTables, DriftBounded, RejectionSound, RowsExtended, KeysSettled, Closed, Complete, FillsExtended,
         ProposalsOk, ProposalsQuoted, QuotesProposals, HasContext, HasEvidence, HasRange;
    var staged := StageEvidence(e, b, ps, rejections);
    var b' := Execute(e, b, ps, rejections).value;
    ExecuteExtendsFills(e, b, ps, rejections);
    ExecuteSettlesRows(e, b, ps, rejections);
    StagedExtends(e, b, ps, rejections);
    JoinsComplete(e, b, ps, staged, rejections, b');
  }

  // ------------------------------------------------------- towards the targets

  /** A proposal: its side points from the held to the desired quantity, its size is the distance, normalised. */
  ghost predicate Aimed(e: Env, b: Book, weights: map<Symbol, real>, p: Proposal)
    requires EnvOk(e)
  {
    && p.symbol in e.config.assets
    && var delta := TargetDelta(e, b, weights, p.symbol);
       && (p.side.Buy? <==> delta > 0.0) && p.requested <= Abs(delta)
       && NormalizeFor(e, p.symbol, Abs(delta)) == Accepted(p.requested)
       && p.targetWeight == (if p.symbol in weights then weights[p.symbol] else 0.0)
  }

  lemma {:induction false} ProposalsAimed(e: Env, b: Book, weights: map<Symbol, real>, n: nat)
    requires EnvOk(e) && n <= |e.config.assets|
    ensures forall i :: 0 <= i < |Proposals(e, b, weights, n).proposals| ==> Aimed(e, b, weights, Proposals(e, b, weights, n).proposals[i])
  {
    if n > 0 {
      ProposalsAimed(e, b, weights, n - 1);
      var a := e.config.assets[n - 1];
      hide NormalizeFor, TargetDelta;
      if NormalizeFor(e, a, Abs(TargetDelta(e, b, weights, a))).Accepted? {
        NormalizeForBounds(e, a, Abs(TargetDelta(e, b, weights, a)));
      }
    }
  }

  /** A fill on the side of its asset's target, of at most the distance to it. */
  ghost predicate TowardTarget(e: Env, b: Book, weights: map<Symbol, real>, f: Fill)
    requires EnvOk(e)
  {
    && f.symbol in e.config.assets && 0.0 < f.quantity
    && var delta := TargetDelta(e, b, weights, f.symbol);
       (f.side.Buy? <==> delta > 0.0) && f.quantity <= Abs(delta)
  }

  lemma TracedTowardTarget(e: Env, b: Book, weights: map<Symbol, real>, ps: seq<Proposal>, xs: seq<Exec>, w: Book)
    requires EnvOk(e) && Traced(e, b, ps, xs) && Appended(e, b, xs, w)
    requires forall i :: 0 <= i < |ps| ==> Aimed(e, b, weights, ps[i])
    ensures |b.fills| <= |w.fills| && forall i :: |b.fills| <= i < |w.fills| ==> TowardTarget(e, b, weights, w.fills[i])
  {
    hide TargetDelta, NormalizeFor, Normalized, RowsMatch, DistinctKeys, SnapshotOk, Times;
    forall i | |b.fills| <= i < |w.fills|
      ensures TowardTarget(e, b, weights, w.fills[i])
    {
      assert w.fills[i] == FillOf(e, xs[i - |b.orders|]);
      assert xs[i - |b.orders|].proposal in ps;
    }
  }

  /** No fill of a week overshoots its asset's target. */
  lemma WeekNeverOvershoots(c: Config, b: Book, w: Week)
    requires ConfigOk(c) && SnapshotOk(c, w.snapshot) && AlignedTables(b) && ExecuteWeek(c, b, w).Ok?
    ensures var fills := ExecuteWeek(c, b, w).value.fills;
            && |b.fills| <= |fills|
            && forall i :: |b.fills| <= i < |fills| ==> TowardTarget(WeekEnv(c, w), b, w.weights, fills[i])
  {
    var e := WeekEnv(c, w);
    hide Execute, Proposals, RejectionSound, ProposalsOk, ProposalsQuoted, SnapshotOk, FillAll, AlignedTables, Aimed,
         TowardTarget, Appended, Traced;
    ProposalRejectionsSound(e, b, w.weights);
    ProposalsAimed(e, b, w.weights, |c.assets|);
    var p := Proposals(e, b, w.weights, |c.assets|);
    var xs := ExecuteTrace(e, b, p.proposals, p.rejections);
    FillAllAppends(e, b, xs);
    TracedTowardTarget(e, b, w.weights, p.proposals, xs, FillAll(e, b, xs).value);
  }

  // -------------------------------------------------------------------- weeks

  lemma ProposalRejectionsSound(e: Env, b: Book, weights: map<Symbol, real>)
    requires EnvOk(e)
    ensures var p := Proposals(e, b, weights, |e.config.assets|);
            ProposalsOk(e, p.proposals) && ProposalsQuoted(e, p.proposals) && ProposalRejections(e, p.rejections)
  {
    hide Proposals, NormalizeFor;
    var p := Proposals(e, b, weights, |e.config.assets|);
    ProposalsSound(e, b, weights, |e.config.assets|);
    ProposalsAreQuoted(e, b, weights, |e.config.assets|);
    forall i | 0 <= i < |p.rejections|
      ensures !p.rejections[i].reason.InsufficientCash? && RejectionSound(e, p.rejections[i])
    {
      NormalizeNeverShortOfCash(e, p.rejections[i].symbol, p.rejections[i].requested);
    }
  }

  lemma OpenBookOk(c: Config)
    requires ConfigOk(c)
    ensures BookOk(c, OpenBook(c)) && NoDrift(OpenBook(c)) && OnUnits(OpenBook(c), map[])
  {
    var b := OpenBook(c);
    assert b.cashLedger[..0] == [];
    forall s
      ensures DriftBounded(c, b, s) && Drift(b, s) == 0.0
    {
      assert Held(b.positions, s) == 0.0 && DeltaTotal(b.positionLedger, s) == 0.0;
      assert RowCount(b.positionLedger, s) == 0;
    }
  }

  /**
   After any weeks whatever: cash is the sum of its ledger and not negative, no
   position is short, and each position is within one tolerance per fill of its ledger.
   */
  lemma {:induction false} WeeksKeepBook(c: Config, weeks: seq<Week>)
    requires ConfigOk(c)
    ensures BookOk(c, RunWeeks(c, OpenBook(c), weeks))
  {
    hide BookOk;
    if weeks == [] {
      OpenBookOk(c);
    } else {
      WeeksKeepBook(c, weeks[..|weeks| - 1]);
      RunWeekKeepsBook(c, RunWeeks(c, OpenBook(c), weeks[..|weeks| - 1]), weeks[|weeks| - 1]);
    }
  }

  lemma RunWeekKeepsBook(c: Config, b: Book, w: Week)
    requires ConfigOk(c) && BookOk(c, b)
    ensures BookOk(c, RunWeek(c, b, w))
  {
    if SnapshotOk(c, w.snapshot) && ExecuteWeek(c, b, w).Ok? {
      var e := WeekEnv(c, w);
      ProposalRejectionsSound(e, b, w.weights);
      var p := Proposals(e, b, w.weights, |c.assets|);
      hide Execute, Proposals, BookOk, RejectionSound, ProposalsOk, ProposalsQuoted, SnapshotOk;
      ExecuteKeepsBook(e, b, p.proposals, p.rejections);
    }
  }

  /** A week the audit is promised for: its snapshot halts, or is clean and on the common units. */
  ghost predicate WeekClean(c: Config, unit: map<Symbol, real>, w: Week) {
    SnapshotOk(c, w.snapshot) ==> CleanEnv(WeekEnv(c, w)) && UnitsFor(WeekEnv(c, w), unit)
  }

  ghost predicate Audited(c: Config, unit: map<Symbol, real>, b: Book) {
    && BookOk(c, b) && Closed(b) && OnUnits(b, unit) && NoDrift(b)
    && JoinsOk(c, b) && RulesOk(c, b) && RangesOk(c, b)
  }

  lemma ExecuteKeepsAudited(e: Env, unit: map<Symbol, real>, b: Book, ps: seq<Proposal>, rejections: seq<Rejection>)
    requires CleanEnv(e) && UnitsFor(e, unit) && ProposalsOk(e, ps) && ProposalsQuoted(e, ps)
    requires Audited(e.config, unit, b) && e.run !in b.outcomes && ProposalRejections(e, rejections)
    requires Execute(e, b, ps, rejections).Ok?
    ensures Audited(e.config, unit, Execute(e, b, ps, rejections).value)
  {
    hide Execute, BookOk, Closed, OnUnits, NoDrift, JoinsOk, RulesOk, RangesOk, Extended, Complete, UnitsFor, ProposalsOk, ProposalsQuoted,
         RejectionSound;
    var b' := Execute(e, b, ps, rejections).value;
    ExecuteExtends(e, b, ps, rejections);
    ExecuteKeepsBook(e, b, ps, rejections);
    ExecuteOnUnits(e, b, unit, ps, rejections);
    CleanExplains(e, b, b');
    JoinsKept(e, b, b');
    RulesKept(e, b, b');
    RangesKept(e, b, b');
    ClosedKept(e, b, b');
  }

  lemma RunWeekKeepsAudited(c: Config, unit: map<Symbol, real>, b: Book, w: Week)
    requires ConfigOk(c) && Audited(c, unit, b) && WeekClean(c, unit, w)
    ensures Audited(c, unit, RunWeek(c, b, w))
  {
    if SnapshotOk(c, w.snapshot) && w.run !in b.outcomes && ExecuteWeek(c, b, w).Ok? {
      var e := WeekEnv(c, w);
      ProposalRejectionsSound(e, b, w.weights);
      var p := Proposals(e, b, w.weights, |c.assets|);
      hide Execute, Proposals, Audited, ProposalsOk, ProposalsQuoted, SnapshotOk, CleanEnv, UnitsFor, RejectionSound;
      ExecuteKeepsAudited(e, unit, b, p.proposals, p.rejections);
    }
  }

  lemma {:induction false} WeeksKeepAudited(c: Config, unit: map<Symbol, real>, weeks: seq<Week>)
    requires ConfigOk(c) && forall i :: 0 <= i < |weeks| ==> WeekClean(c, unit, weeks[i])
    ensures Audited(c, unit, RunWeeks(c, OpenBook(c), weeks))
  {
    if weeks == [] {
      OpenBookOk(c);
    } else {
      hide Audited, WeekClean, RunWeek;
      WeeksKeepAudited(c, unit, weeks[..|weeks| - 1]);
      RunWeekKeepsAudited(c, unit, RunWeeks(c, OpenBook(c), weeks[..|weeks| - 1]), weeks[|weeks| - 1]);
    }
  }

  // ----------------------------------------------- the invariant and the audit

  /** Keys are unique, so the joins by key meet only at the same place. */
  lemma JoinedAt(b: Book, i: nat, j: nat)
    requires AlignedTables(b) && i < |b.orders|
    ensures j < |b.fills| && b.fills[j].key == b.orders[i].key ==> j == i
    ensures j < |b.cashLedger| && b.cashLedger[j].event == FillCash(b.orders[i].key) ==> j == i + 1
    ensures j < |b.positionLedger| && b.positionLedger[j].key == b.orders[i].key ==> j == i
    ensures b.fills[i].key == b.orders[i].key && b.positionLedger[i].key == b.orders[i].key
    ensures b.cashLedger[i + 1].event == FillCash(b.orders[i].key)
  {
    assert RowsMatch(b.orders[i], b.fills[i], b.cashLedger[i + 1], b.positionLedger[i]);
    if j < |b.fills| {
      assert RowsMatch(b.orders[j], b.fills[j], b.cashLedger[j + 1], b.positionLedger[j]);
    }
    if 0 < j < |b.cashLedger| {
      assert RowsMatch(b.orders[j - 1], b.fills[j - 1], b.cashLedger[j - 1 + 1], b.positionLedger[j - 1]);
    }
  }

  lemma OrderAudited(c: Config, b: Book, i: nat)
    requires JoinsOk(c, b) && i < |b.orders|
    ensures OrderAccounted(c, b, b.orders[i])
  {
    hide RowsAccounted, ContextOk, RowsMatch, DistinctKeys, HasContext;
    var o := b.orders[i];
    JoinedAt(b, i, 0);
    forall j, m, n, k |
      && 0 <= j < |b.fills| && b.fills[j].key == o.key
      && 0 <= m < |b.cashLedger| && b.cashLedger[m].event == FillCash(o.key)
      && 0 <= n < |b.positionLedger| && b.positionLedger[n].key == o.key
      && 0 <= k < |b.contexts| && QuoteOf(b.contexts[k], o.run, o.symbol)
      ensures RowsAccounted(c, o, b.fills[j], b.cashLedger[m], b.positionLedger[n], b.contexts[k])
    {
      JoinedAt(b, i, j);
      JoinedAt(b, i, m);
      JoinedAt(b, i, n);
    }
  }

  lemma RowEvidenceAudited(c: Config, b: Book, k: nat)
    requires RulesOk(c, b) && k < |b.evidence|
    ensures EvidenceAudited(c, b, b.evidence[k])
  {
    hide EvidenceValid, FillPasses, RejectionAudited, RowsMatch, DistinctKeys, HasEvidence;
    var row := b.evidence[k];
    forall i, j |
      && 0 <= i < |b.orders| && b.orders[i].run == row.run && b.orders[i].symbol == row.symbol
      && 0 <= j < |b.fills| && b.fills[j].key == b.orders[i].key
      ensures FillPasses(row.evidence, b.fills[j].quantity)
    {
      JoinedAt(b, i, j);
    }
  }

  /** What every week keeps, whatever its snapshot. */
  ghost predicate Accounted(c: Config, b: Book) {
    BookOk(c, b) && Closed(b) && JoinsOk(c, b)
  }

  /** On an accounted book the audit passes when rules, PRICE_RANGE decisions and positions do. */
  lemma PartsReconcile(c: Config, b: Book)
    requires ConfigOk(c) && Accounted(c, b) && RulesOk(c, b) && RangesOk(c, b) && PositionsReconcile(c, b)
    ensures Reconciles(c, b)
  {
    hide OrderAccounted, EvidenceAudited, EvidenceValid, FillPasses, RejectionAudited, RowsMatch, DistinctKeys, HasEvidence, HasContext,
         ContextOk, RowsAccounted, DecisionAudited, DecisionsMatchProposals, MultipliersBounded, Backed, DriftBounded, PositionReconciles;
    forall i | 0 <= i < |b.orders|
      ensures OrderAccounted(c, b, b.orders[i])
    {
      OrderAudited(c, b, i);
    }
    forall k | 0 <= k < |b.evidence|
      ensures EvidenceAudited(c, b, b.evidence[k])
    {
      RowEvidenceAudited(c, b, k);
    }
    forall j | 0 <= j < |b.fills|
      ensures KeyUsed(b.orders, b.fills[j].key)
    {
      JoinedAt(b, j, j);
    }
  }

  lemma AuditedReconciles(c: Config, unit: map<Symbol, real>, b: Book)
    requires ConfigOk(c) && Audited(c, unit, b)
    ensures Reconciles(c, b)
  {
    hide Closed, JoinsOk, RulesOk, RangesOk, LedgersOk, OnUnits;
    forall s
      ensures PositionReconciles(c, b, s)
    {
      assert Drift(b, s) == 0.0;
    }
    assert PositionsReconcile(c, b);
    hide PositionsReconcile, BookOk;
    PartsReconcile(c, b);
  }

  /**
   Writer refines checker: whatever the weeks, as long as each snapshot halts the
   run or is clean with quantities on a common unit above the tolerance, the
   audit accepts the resulting tables.
   */
  lemma ReconcileAlwaysPasses(c: Config, unit: map<Symbol, real>, weeks: seq<Week>)
    requires ConfigOk(c) && forall i :: 0 <= i < |weeks| ==> WeekClean(c, unit, weeks[i])
    ensures Reconciles(c, RunWeeks(c, OpenBook(c), weeks))
  {
    hide Audited, WeekClean, Reconciles;
    WeeksKeepAudited(c, unit, weeks);
    AuditedReconciles(c, unit, RunWeeks(c, OpenBook(c), weeks));
  }
}
