/**
 Every intent is accounted for: each asset whose target delta exceeds the
 tolerance ends the week as exactly one filled order or exactly one rejection,
 and the outcome recomputed after the commit is the one written inside it.
 */
module BrokerIntents {
  import opened Common
  import opened Numbers
  import opened Quantities
  import opened Broker
  import opened BrokerSolvency
  import opened BrokerTrace

  function OrderKeys(rows: seq<Order>): seq<Key> {
    seq(|rows|, i requires 0 <= i < |rows| => rows[i].key)
  }

  function RejectionKeys(rows: seq<Rejection>): seq<Key> {
    seq(|rows|, i requires 0 <= i < |rows| => rows[i].key)
  }

  function ProposalKeys(rows: seq<Proposal>): seq<Key> {
    seq(|rows|, i requires 0 <= i < |rows| => rows[i].key)
  }

  function ExecKeys(rows: seq<Exec>): seq<Key> {
    seq(|rows|, i requires 0 <= i < |rows| => rows[i].proposal.key)
  }

  function DecisionKeys(rows: seq<DecisionRow>): seq<Key> {
    seq(|rows|, i requires 0 <= i < |rows| => rows[i].key)
  }

  lemma ProposalKeysAppend(rows: seq<Proposal>, row: Proposal)
    ensures multiset(ProposalKeys(rows + [row])) == multiset(ProposalKeys(rows)) + multiset{row.key}
  {
    assert ProposalKeys(rows + [row]) == ProposalKeys(rows) + [row.key];
  }

  lemma RejectionKeysAppend(rows: seq<Rejection>, row: Rejection)
    ensures multiset(RejectionKeys(rows + [row])) == multiset(RejectionKeys(rows)) + multiset{row.key}
  {
    assert RejectionKeys(rows + [row]) == RejectionKeys(rows) + [row.key];
  }

  lemma ExecKeysAppend(rows: seq<Exec>, row: Exec)
    ensures multiset(ExecKeys(rows + [row])) == multiset(ExecKeys(rows)) + multiset{row.proposal.key}
  {
    assert ExecKeys(rows + [row]) == ExecKeys(rows) + [row.proposal.key];
  }

  /** Adding one key on both sides of a balance. */
  lemma AddOne(a: multiset<Key>, b: multiset<Key>, c: multiset<Key>, d: multiset<Key>, k: multiset<Key>)
    requires a + b == c + d
    ensures (a + k) + b == c + (d + k)
    ensures a + (b + k) == c + (d + k)
  {
    assert a + (b + k) == (a + b) + k;
    assert (a + k) + b == (a + b) + k;
    assert c + (d + k) == (c + d) + k;
  }

  /** The keys of the assets, among the first n, that need a trade. */
  function IntentKeys(e: Env, b: Book, weights: map<Symbol, real>, n: nat): seq<Key>
    requires SnapshotOk(e.config, e.snapshot) && n <= |e.config.assets|
  {
    if n == 0 then []
    else
      var a := e.config.assets[n - 1];
      IntentKeys(e, b, weights, n - 1) + (if Intent(e, b, weights, a) then [Key(e.signal, a)] else [])
  }

  /** A rejection recorded by this run, for a proposal of its own. */
  predicate RejectionOwn(e: Env, r: Rejection) {
    && r.run == e.run && r.symbol in e.config.assets && r.key == Key(e.signal, r.symbol)
    && e.config.tolerance < r.requested
  }

  // ---------------------------------------------------------------- proposals

  /** `_proposals` splits the intents: proposals with positive quantities, and proposal-stage rejections. */
  ghost predicate ProposedOk(e: Env, p: Proposed, n: nat)
    requires n <= |e.config.assets|
  {
    && ProposalsOk(e, p.proposals)
    && (forall i :: 0 <= i < |p.proposals| ==> p.proposals[i].symbol in e.config.assets[..n])
    && (forall i :: 0 <= i < |p.rejections| ==>
          && RejectionOwn(e, p.rejections[i]) && p.rejections[i].stage.ProposalStage? && 0.0 <= p.rejections[i].notional
          && NormalizeFor'(e, p.rejections[i].symbol, p.rejections[i].requested) == Rejected(p.rejections[i].reason))
  }

  function NormalizeFor'(e: Env, a: Symbol, q: real): Verdict {
    if a in e.snapshot.quotes then NormalizeFor(e, a, q) else Rejected(MissingExchangeRules)
  }

  lemma {:induction false} ProposalsSound(e: Env, b: Book, weights: map<Symbol, real>, n: nat)
    requires EnvOk(e) && n <= |e.config.assets|
    ensures ProposedOk(e, Proposals(e, b, weights, n), n)
  {
    hide NormalizeFor, TargetDelta, MarkedValue;
    if n > 0 {
      ProposalsSound(e, b, weights, n - 1);
      var a := e.config.assets[n - 1];
      assert e.config.assets[..n] == e.config.assets[..n - 1] + [a];
      assert a !in e.config.assets[..n - 1];
      if Intent(e, b, weights, a) {
        var p := IntentProposal(e, b, weights, a);
        TimesNonneg(p.requested, Mid(e.snapshot.quotes[a]));
        if NormalizeFor(e, a, p.requested).Accepted? {
          NormalizeForBounds(e, a, p.requested);
        }
      }
    }
  }

  /** The keys of what `_proposals` produced so far. */
  function Handled(p: Proposed): multiset<Key> {
    multiset(ProposalKeys(p.proposals)) + multiset(RejectionKeys(p.rejections))
  }

  function Plus(a: multiset<Key>, b: multiset<Key>): multiset<Key> {
    a + b
  }

  function IntentKey(e: Env, b: Book, weights: map<Symbol, real>, a: Symbol): multiset<Key>
    requires SnapshotOk(e.config, e.snapshot) && a in e.config.assets
  {
    if Intent(e, b, weights, a) then multiset{Key(e.signal, a)} else multiset{}
  }

  function IntentBag(e: Env, b: Book, weights: map<Symbol, real>, n: nat): multiset<Key>
    requires SnapshotOk(e.config, e.snapshot) && n <= |e.config.assets|
  {
    multiset(IntentKeys(e, b, weights, n))
  }

  lemma ProposeStepPartition(e: Env, b: Book, weights: map<Symbol, real>, a: Symbol, acc: Proposed)
    requires EnvOk(e) && a in e.config.assets
    ensures var p := ProposeStep(e, b, weights, a, acc);
            Handled(p) == Plus(Handled(acc), IntentKey(e, b, weights, a))
  {
    hide NormalizeFor, TargetDelta, MarkedValue, ProposalKeys, RejectionKeys;
    if Intent(e, b, weights, a) {
      var p := IntentProposal(e, b, weights, a);
      match NormalizeFor(e, a, p.requested)
      case Accepted(n) =>
        ProposalKeysAppend(acc.proposals, p.(requested := n));
      case Rejected(reason) =>
        RejectionKeysAppend(acc.rejections,
          RejectAt(e, p, reason, Times(p.requested, Mid(e.snapshot.quotes[a])), ProposalStage));
    }
  }

  lemma {:induction false} ProposalsPartition(e: Env, b: Book, weights: map<Symbol, real>, n: nat)
    requires EnvOk(e) && n <= |e.config.assets|
    ensures Handled(Proposals(e, b, weights, n)) == IntentBag(e, b, weights, n)
  {
    hide ProposeStep, Handled, Plus, IntentKey, SnapshotOk, ConfigOk, IntentBag;
    if n == 0 {
      NothingHandled(e, b, weights);
    } else {
      ProposalsPartition(e, b, weights, n - 1);
      ProposeStepPartition(e, b, weights, e.config.assets[n - 1], Proposals(e, b, weights, n - 1));
      IntentKeysStep(e, b, weights, n);
    }
  }

  lemma NothingHandled(e: Env, b: Book, weights: map<Symbol, real>)
    requires SnapshotOk(e.config, e.snapshot)
    ensures Handled(Proposals(e, b, weights, 0)) == IntentBag(e, b, weights, 0)
  {
  }

  lemma IntentKeysStep(e: Env, b: Book, weights: map<Symbol, real>, n: nat)
    requires SnapshotOk(e.config, e.snapshot) && 0 < n <= |e.config.assets|
    ensures IntentBag(e, b, weights, n) == Plus(IntentBag(e, b, weights, n - 1), IntentKey(e, b, weights, e.config.assets[n - 1]))
  {
    hide Intent;
  }

  lemma {:induction false} IntentKeysAre(e: Env, b: Book, weights: map<Symbol, real>, n: nat, k: Key)
    requires EnvOk(e) && n <= |e.config.assets|
    ensures k in IntentKeys(e, b, weights, n) <==>
              k.signal == e.signal && k.symbol in e.config.assets[..n] && Intent(e, b, weights, k.symbol)
  {
    hide Intent;
    if n > 0 {
      IntentKeysAre(e, b, weights, n - 1, k);
      assert e.config.assets[..n] == e.config.assets[..n - 1] + [e.config.assets[n - 1]];
    }
  }

  lemma {:induction false} IntentKeysDistinct(e: Env, b: Book, weights: map<Symbol, real>, n: nat)
    requires EnvOk(e) && n <= |e.config.assets|
    ensures Distinct(IntentKeys(e, b, weights, n))
  {
    hide Intent;
    if n > 0 {
      var a := e.config.assets[n - 1];
      IntentKeysDistinct(e, b, weights, n - 1);
      IntentKeysAre(e, b, weights, n - 1, Key(e.signal, a));
      assert a !in e.config.assets[..n - 1];
    }
  }

  // ------------------------------------------------------- settling proposals

  /** The keys settled so far: filled orders and rejections. */
  function Settled(b: Book): multiset<Key> {
    multiset(OrderKeys(b.orders)) + multiset(RejectionKeys(b.rejections))
  }

  lemma RejectSettles(b: Book, r: Rejection)
    ensures Settled(Reject(b, r)) == Settled(b) + multiset{r.key}
  {
    RejectionKeysAppend(b.rejections, r);
  }

  lemma PersistFillSettles(e: Env, b: Book, x: Exec)
    requires PersistFill(e, b, x).Ok?
    ensures Settled(PersistFill(e, b, x).value) == Settled(b) + multiset{x.proposal.key}
    ensures PersistFill(e, b, x).value.decisions == b.decisions
  {
    var b' := PersistFill(e, b, x).value;
    assert OrderKeys(b'.orders) == OrderKeys(b.orders) + [x.proposal.key];
  }

  lemma CheckRangeSettles(e: Env, b: Book, p: Proposal)
    requires p.symbol in e.snapshot.quotes && CheckRange(e, b, p).Ok?
    ensures var (b', proceed) := CheckRange(e, b, p).value;
            && Settled(b') == Settled(b) + (if proceed then multiset{} else multiset{p.key})
            && multiset(DecisionKeys(b'.decisions))
               == multiset(DecisionKeys(b.decisions)) + (if e.config.requireRangeEvidence then multiset{p.key} else multiset{})
  {
    var (b', proceed) := CheckRange(e, b, p).value;
    if e.config.requireRangeEvidence {
      assert DecisionKeys(b'.decisions) == DecisionKeys(b.decisions) + [p.key];
      if !proceed {
        assert RejectionKeys(b'.rejections) == RejectionKeys(b.rejections) + [p.key];
      }
    }
  }

  /** Decisions owed for the given proposals. */
  function Decided(e: Env, ps: seq<Proposal>): multiset<Key> {
    if e.config.requireRangeEvidence then multiset(ProposalKeys(ps)) else multiset{}
  }

  lemma {:induction false} PlanSellsSettles(e: Env, positions: map<Symbol, Position>, b: Book,
                                            sells: seq<Proposal>, n: nat)
    requires n <= |sells| && ProposalsQuoted(e, sells) && PlanSells(e, positions, b, sells, n).Ok?
    ensures var w := PlanSells(e, positions, b, sells, n).value;
            && Settled(w.book) + multiset(ExecKeys(w.execs)) == Settled(b) + multiset(ProposalKeys(sells[..n]))
            && multiset(DecisionKeys(w.book.decisions)) == multiset(DecisionKeys(b.decisions)) + Decided(e, sells[..n])
  {
    hide PlanSell, Settled, ProposalKeys, ExecKeys, DecisionKeys;
    if n == 0 {
      EmptyKeys(sells);
    } else {
      PlanSellsSettles(e, positions, b, sells, n - 1);
      var w0 := PlanSells(e, positions, b, sells, n - 1).value;
      PrefixKeys(sells, n);
      OneKey(sells[n - 1]);
      PlanSellSettles(e, positions, w0, sells[n - 1]);
      AddOne(Settled(w0.book), multiset(ExecKeys(w0.execs)), Settled(b), multiset(ProposalKeys(sells[..n - 1])),
             multiset{sells[n - 1].key});
    }
  }

  lemma EmptyKeys(ps: seq<Proposal>)
    ensures multiset(ProposalKeys(ps[..0])) == multiset{} && multiset(ExecKeys([])) == multiset{}
  {
    assert ProposalKeys(ps[..0]) == [] && ExecKeys([]) == [];
  }

  lemma PrefixKeys(ps: seq<Proposal>, n: nat)
    requires 0 < n <= |ps|
    ensures multiset(ProposalKeys(ps[..n])) == multiset(ProposalKeys(ps[..n - 1])) + multiset{ps[n - 1].key}
  {
    assert ps[..n] == ps[..n - 1] + [ps[n - 1]];
    ProposalKeysAppend(ps[..n - 1], ps[n - 1]);
  }

  /** One planned sell is either settled by a rejection or joins the fills to come. */
  lemma PlanSellSettles(e: Env, positions: map<Symbol, Position>, w: Work, p: Proposal)
    requires p.symbol in e.snapshot.quotes && PlanSell(e, positions, w, p).Ok?
    ensures var w' := PlanSell(e, positions, w, p).value;
            && Moved(w, w', p.key)
            && multiset(DecisionKeys(w'.book.decisions)) == multiset(DecisionKeys(w.book.decisions)) + Decided(e, [p])
  {
    hide CheckRange, NormalizeFor, ExecutionTerms, Settled, ExecKeys, DecisionKeys;
    CheckRangeSettles(e, w.book, p);
    OneKey(p);
    var (b1, proceed) := CheckRange(e, w.book, p).value;
    var requested := Min(p.requested, Held(positions, p.symbol));
    var terms := TermsFor(e, p);
    match NormalizeFor(e, p.symbol, requested)
    case Rejected(reason) =>
      RejectSettles(b1, RejectAt(e, p, reason, Times(requested, terms.execution), FinalStage));
    case Accepted(n) =>
      ExecKeysAppend(w.execs, Exec(p, n, terms));
  }

  lemma OneKey(p: Proposal)
    ensures multiset(ProposalKeys([p])) == multiset{p.key}
  {
    assert ProposalKeys([p]) == [p.key];
  }

  /** The key moved to the settled keys or to the keys of planned fills. */
  predicate Moved(w: Work, w': Work, key: Key) {
    || (Settled(w'.book) == Settled(w.book) + multiset{key} && w'.execs == w.execs)
    || (Settled(w'.book) == Settled(w.book)
        && multiset(ExecKeys(w'.execs)) == multiset(ExecKeys(w.execs)) + multiset{key})
  }

  lemma PlanBuySettles(e: Env, w: Work, p: Proposal)
    requires p.symbol in e.snapshot.quotes && PlanBuy(e, w, p).Ok?
    ensures var w' := PlanBuy(e, w, p).value;
            && Moved(w, w', p.key)
            && multiset(DecisionKeys(w'.book.decisions)) == multiset(DecisionKeys(w.book.decisions)) + Decided(e, [p])
  {
    hide CheckRange, ExecutionTerms, Settled, ExecKeys, DecisionKeys;
    CheckRangeSettles(e, w.book, p);
    OneKey(p);
    ExecKeysAppend(w.execs, Exec(p, p.requested, TermsFor(e, p)));
  }

  lemma {:induction false} PlanBuysSettles(e: Env, b: Book, buys: seq<Proposal>, n: nat)
    requires n <= |buys| && ProposalsQuoted(e, buys) && PlanBuys(e, b, buys, n).Ok?
    ensures var w := PlanBuys(e, b, buys, n).value;
            && Settled(w.book) + multiset(ExecKeys(w.execs)) == Settled(b) + multiset(ProposalKeys(buys[..n]))
            && multiset(DecisionKeys(w.book.decisions)) == multiset(DecisionKeys(b.decisions)) + Decided(e, buys[..n])
  {
    hide PlanBuy, Settled, ProposalKeys, ExecKeys, DecisionKeys;
    if n == 0 {
      EmptyKeys(buys);
    } else {
      PlanBuysSettles(e, b, buys, n - 1);
      var w0 := PlanBuys(e, b, buys, n - 1).value;
      PrefixKeys(buys, n);
      OneKey(buys[n - 1]);
      PlanBuySettles(e, w0, buys[n - 1]);
      AddOne(Settled(w0.book), multiset(ExecKeys(w0.execs)), Settled(b), multiset(ProposalKeys(buys[..n - 1])),
             multiset{buys[n - 1].key});
    }
  }

  lemma {:induction false} FillAllSettles(e: Env, b: Book, xs: seq<Exec>)
    requires FillAll(e, b, xs).Ok?
    ensures Settled(FillAll(e, b, xs).value) == Settled(b) + multiset(ExecKeys(xs))
    ensures FillAll(e, b, xs).value.decisions == b.decisions
  {
    hide PersistFill, Settled, ExecKeys;
    if xs == [] {
      EmptyKeys([]);
    } else {
      var n := |xs| - 1;
      FillAllSettles(e, b, xs[..n]);
      PersistFillSettles(e, FillAll(e, b, xs[..n]).value, xs[n]);
      ExecKeysAppend(xs[..n], xs[n]);
      assert xs == xs[..n] + [xs[n]];
    }
  }

  lemma FillBuySettles(e: Env, scale: real, b: Book, x: Exec)
    requires x.proposal.symbol in e.snapshot.quotes && FillBuy(e, scale, b, x).Ok?
    ensures Settled(FillBuy(e, scale, b, x).value) == Settled(b) + multiset{x.proposal.key}
    ensures FillBuy(e, scale, b, x).value.decisions == b.decisions
  {
    hide PersistFill, NormalizeFor, Settled;
    var b' := FillBuy(e, scale, b, x).value;
    var v := NormalizeFor(e, x.proposal.symbol, Times(x.quantity, scale));
    match v
    case Rejected(reason) =>
      RejectSettles(b, RejectAt(e, x.proposal, reason, Times(Times(x.quantity, scale), x.terms.execution), FinalStage));
    case Accepted(n) =>
      RejectSettles(b, RejectAt(e, x.proposal, InsufficientCash, Times(n, x.terms.execution), FinalStage));
      if PersistFill(e, b, x.(quantity := n)).Ok? {
        PersistFillSettles(e, b, x.(quantity := n));
      }
  }

  lemma {:induction false} FillBuysSettles(e: Env, scale: real, b: Book, xs: seq<Exec>, n: nat)
    requires n <= |xs| && ExecsQuoted(e, xs) && FillBuys(e, scale, b, xs, n).Ok?
    ensures Settled(FillBuys(e, scale, b, xs, n).value) == Settled(b) + multiset(ExecKeys(xs[..n]))
    ensures FillBuys(e, scale, b, xs, n).value.decisions == b.decisions
  {
    hide FillBuy, Settled, ExecKeys;
    if n == 0 {
      EmptyKeys([]);
      assert xs[..0] == [];
    } else {
      FillBuysSettles(e, scale, b, xs, n - 1);
      FillBuySettles(e, scale, FillBuys(e, scale, b, xs, n - 1).value, xs[n - 1]);
      ExecKeysAppend(xs[..n - 1], xs[n - 1]);
      assert xs[..n] == xs[..n - 1] + [xs[n - 1]];
    }
  }

  /** With at least one planned buy there is cash to require, so no planned buy is skipped. */
  lemma ExecuteBuysSettles(e: Env, b: Book, xs: seq<Exec>)
    requires EnvOk(e) && BuysOk(e, xs) && ExecsQuoted(e, xs) && ExecuteBuys(e, b, xs).Ok?
    ensures Settled(ExecuteBuys(e, b, xs).value) == Settled(b) + multiset(ExecKeys(xs))
    ensures ExecuteBuys(e, b, xs).value.decisions == b.decisions
  {
    hide FillBuys, CostOf, ExecOk, Settled, ExecKeys;
    if xs == [] {
      EmptyKeys([]);
    } else {
      RequiredMonotone(e, xs, 1);
      RequiredStep(e.config, xs, 1);
      FeeBelowNotional(e, xs[0]);
      RequiredNone(e.config, xs, 1.0);
      assert xs[..0] == [];
      FillBuysSettles(e, BuyScale(b.cash, Required(e.config, xs)), b, xs, |xs|);
      assert xs[..|xs|] == xs;
    }
  }

  lemma {:induction false} SidesPartition(ps: seq<Proposal>)
    ensures multiset(ProposalKeys(OnSide(ps, Sell))) + multiset(ProposalKeys(OnSide(ps, Buy))) == multiset(ProposalKeys(ps))
  {
    hide ProposalKeys;
    if ps == [] {
      EmptyKeys(ps);
    } else {
      var rest, p := ps[..|ps| - 1], ps[|ps| - 1];
      SidesPartition(rest);
      ProposalKeysAppend(rest, p);
      assert ps == rest + [p];
      ProposalKeysAppend(OnSide(rest, p.side), p);
    }
  }

  /** One execution settles exactly its proposals and the rejections it was handed. */
  lemma ExecuteSettles(e: Env, b: Book, ps: seq<Proposal>, rejections: seq<Rejection>)
    requires EnvOk(e) && ProposalsOk(e, ps) && ProposalsQuoted(e, ps)
    requires Execute(e, b, ps, rejections).Ok?
    ensures var b' := Execute(e, b, ps, rejections).value;
            && Settled(b') == Settled(b) + multiset(RejectionKeys(rejections)) + multiset(ProposalKeys(ps))
            && multiset(DecisionKeys(b'.decisions)) == multiset(DecisionKeys(b.decisions)) + Decided(e, ps)
  {
    var sellPlan, buyPlan, sold, bought := ExecuteStages(e, b, ps, rejections);
    StagedSettles(e, b, ps, rejections);
    hide Execute, StageEvidence, Settled, ProposalKeys, RejectionKeys, ExecKeys, DecisionKeys, Committed;
    CommittedSettles(e, b, ps, rejections, sellPlan, buyPlan, sold, bought);
    PlansSettle(e, b, ps, rejections, sellPlan, buyPlan, sold, bought);
    FillsSettle(e, b, ps, rejections, sellPlan, buyPlan, sold, bought);
    SidesPartition(ps);
    Balance(Settled(StageEvidence(e, b, ps, rejections)), Settled(sellPlan.book), Settled(buyPlan.book),
            Settled(sold), Settled(bought),
            multiset(ExecKeys(sellPlan.execs)), multiset(ExecKeys(buyPlan.execs)),
            multiset(ProposalKeys(OnSide(ps, Sell))), multiset(ProposalKeys(OnSide(ps, Buy))));
    SettleSettles(e, bought, |bought.rejections| - |b.rejections|);
  }

  lemma PlansSettle(e: Env, b: Book, ps: seq<Proposal>, rejections: seq<Rejection>,
                    sellPlan: Work, buyPlan: Work, sold: Book, bought: Book)
    requires EnvOk(e) && ProposalsOk(e, ps) && ProposalsQuoted(e, ps)
    requires Committed(e, b, ps, rejections, sellPlan, buyPlan, sold, bought)
    ensures var staged := StageEvidence(e, b, ps, rejections);
            && Settled(sellPlan.book) + multiset(ExecKeys(sellPlan.execs))
               == Settled(staged) + multiset(ProposalKeys(OnSide(ps, Sell)))
            && Settled(buyPlan.book) + multiset(ExecKeys(buyPlan.execs))
               == Settled(sellPlan.book) + multiset(ProposalKeys(OnSide(ps, Buy)))
            && multiset(DecisionKeys(buyPlan.book.decisions))
               == multiset(DecisionKeys(staged.decisions)) + Decided(e, OnSide(ps, Sell)) + Decided(e, OnSide(ps, Buy))
  {
    hide PlanSells, PlanBuys, FillAll, ExecuteBuys, Execute, OnSide, StageEvidence,
         Settled, ProposalKeys, RejectionKeys, ExecKeys, DecisionKeys;
    var sells, buys := OnSide(ps, Sell), OnSide(ps, Buy);
    PlanSellsSettles(e, b.positions, StageEvidence(e, b, ps, rejections), sells, |sells|);
    PlanBuysSettles(e, sellPlan.book, buys, |buys|);
    assert sells[..|sells|] == sells && buys[..|buys|] == buys;
  }

  lemma FillsSettle(e: Env, b: Book, ps: seq<Proposal>, rejections: seq<Rejection>,
                    sellPlan: Work, buyPlan: Work, sold: Book, bought: Book)
    requires EnvOk(e) && ProposalsOk(e, ps) && ProposalsQuoted(e, ps)
    requires Committed(e, b, ps, rejections, sellPlan, buyPlan, sold, bought)
    ensures Settled(sold) == Settled(buyPlan.book) + multiset(ExecKeys(sellPlan.execs))
    ensures Settled(bought) == Settled(sold) + multiset(ExecKeys(buyPlan.execs))
    ensures bought.decisions == buyPlan.book.decisions
  {
    hide PlanSells, PlanBuys, FillAll, ExecuteBuys, ExecOk, Execute, OnSide, StageEvidence, Settled, ExecKeys;
    FillAllSettles(e, buyPlan.book, sellPlan.execs);
    OnSideDistinct(e, ps, Buy);
    PlanBuysSound(e, sellPlan.book, OnSide(ps, Buy), |OnSide(ps, Buy)|);
    ExecuteBuysSettles(e, sold, buyPlan.execs);
  }

  lemma StagedSettles(e: Env, b: Book, ps: seq<Proposal>, rejections: seq<Rejection>)
    requires EnvOk(e) && ProposalsQuoted(e, ps)
    ensures Settled(StageEvidence(e, b, ps, rejections)) == Settled(b) + multiset(RejectionKeys(rejections))
    ensures StageEvidence(e, b, ps, rejections).decisions == b.decisions
  {
    var staged := StageEvidence(e, b, ps, rejections);
    assert RejectionKeys(staged.rejections) == RejectionKeys(b.rejections) + RejectionKeys(rejections);
  }

  lemma SettleSettles(e: Env, b: Book, k: int)
    ensures Settled(Settle(e, b, k)) == Settled(b) && Settle(e, b, k).decisions == b.decisions
  {
  }

  /** The two plans and the two fill passes add up. */
  lemma Balance(s0: multiset<Key>, s1: multiset<Key>, s2: multiset<Key>, s3: multiset<Key>, s4: multiset<Key>,
                sellFills: multiset<Key>, buyFills: multiset<Key>, sells: multiset<Key>, buys: multiset<Key>)
    requires s1 + sellFills == s0 + sells && s2 + buyFills == s1 + buys
    requires s3 == s2 + sellFills && s4 == s3 + buyFills
    ensures s4 == s0 + (sells + buys)
  {
    assert s4 == (s2 + sellFills) + buyFills == (s2 + buyFills) + sellFills;
    assert (s2 + buyFills) + sellFills == (s1 + buys) + sellFills == (s1 + sellFills) + buys;
    assert (s1 + sellFills) + buys == (s0 + sells) + buys == s0 + (sells + buys);
  }

  // ----------------------------------------------------------------- this run

  /** New rows belong to this run: the tables grow at their ends. */
  ghost predicate OwnRows(e: Env, before: Book, after: Book) {
    && |before.orders| <= |after.orders| && after.orders[..|before.orders|] == before.orders
    && |before.rejections| <= |after.rejections| && after.rejections[..|before.rejections|] == before.rejections
    && (forall i :: |before.orders| <= i < |after.orders| ==> after.orders[i].run == e.run)
    && forall i :: |before.rejections| <= i < |after.rejections| ==> after.rejections[i].run == e.run
  }

  lemma OwnRowsTransitive(e: Env, a: Book, b: Book, c: Book)
    requires OwnRows(e, a, b) && OwnRows(e, b, c)
    ensures OwnRows(e, a, c)
  {
    assert c.orders[..|a.orders|] == c.orders[..|b.orders|][..|a.orders|];
    assert c.rejections[..|a.rejections|] == c.rejections[..|b.rejections|][..|a.rejections|];
    assert forall i :: |a.orders| <= i < |b.orders| ==> c.orders[i] == c.orders[..|b.orders|][i] == b.orders[i];
    assert forall i :: |a.rejections| <= i < |b.rejections| ==> c.rejections[i] == c.rejections[..|b.rejections|][i] == b.rejections[i];
  }

  lemma PersistFillOwn(e: Env, b: Book, x: Exec)
    requires PersistFill(e, b, x).Ok?
    ensures OwnRows(e, b, PersistFill(e, b, x).value)
  {
  }

  lemma CheckRangeOwn(e: Env, b: Book, p: Proposal)
    requires p.symbol in e.snapshot.quotes && CheckRange(e, b, p).Ok?
    ensures OwnRows(e, b, CheckRange(e, b, p).value.0)
  {
  }

  lemma {:induction false} PlanSellsOwn(e: Env, positions: map<Symbol, Position>, b: Book, sells: seq<Proposal>, n: nat)
    requires n <= |sells| && ProposalsQuoted(e, sells) && PlanSells(e, positions, b, sells, n).Ok?
    ensures OwnRows(e, b, PlanSells(e, positions, b, sells, n).value.book)
  {
    if n > 0 {
      PlanSellsOwn(e, positions, b, sells, n - 1);
      hide CheckRange, NormalizeFor, ExecutionTerms;
      var w := PlanSells(e, positions, b, sells, n - 1).value;
      CheckRangeOwn(e, w.book, sells[n - 1]);
      var b1 := CheckRange(e, w.book, sells[n - 1]).value.0;
      var after := PlanSells(e, positions, b, sells, n).value.book;
      assert OwnRows(e, b1, after);
      OwnRowsTransitive(e, b, w.book, b1);
      OwnRowsTransitive(e, b, b1, after);
    }
  }

  lemma {:induction false} PlanBuysOwn(e: Env, b: Book, buys: seq<Proposal>, n: nat)
    requires n <= |buys| && ProposalsQuoted(e, buys) && PlanBuys(e, b, buys, n).Ok?
    ensures OwnRows(e, b, PlanBuys(e, b, buys, n).value.book)
  {
    if n > 0 {
      PlanBuysOwn(e, b, buys, n - 1);
      hide CheckRange, ExecutionTerms;
      var w := PlanBuys(e, b, buys, n - 1).value;
      CheckRangeOwn(e, w.book, buys[n - 1]);
      OwnRowsTransitive(e, b, w.book, CheckRange(e, w.book, buys[n - 1]).value.0);
    }
  }

  lemma {:induction false} FillAllOwn(e: Env, b: Book, xs: seq<Exec>)
    requires FillAll(e, b, xs).Ok?
    ensures OwnRows(e, b, FillAll(e, b, xs).value)
  {
    if xs != [] {
      var n := |xs| - 1;
      FillAllOwn(e, b, xs[..n]);
      hide PersistFill, OwnRows;
      PersistFillOwn(e, FillAll(e, b, xs[..n]).value, xs[n]);
      OwnRowsTransitive(e, b, FillAll(e, b, xs[..n]).value, FillAll(e, b, xs).value);
    }
  }

  lemma FillBuyOwn(e: Env, scale: real, b: Book, x: Exec)
    requires x.proposal.symbol in e.snapshot.quotes && FillBuy(e, scale, b, x).Ok?
    ensures OwnRows(e, b, FillBuy(e, scale, b, x).value)
  {
    hide NormalizeFor;
  }

  lemma {:induction false} FillBuysOwn(e: Env, scale: real, b: Book, xs: seq<Exec>, n: nat)
    requires n <= |xs| && ExecsQuoted(e, xs) && FillBuys(e, scale, b, xs, n).Ok?
    ensures OwnRows(e, b, FillBuys(e, scale, b, xs, n).value)
  {
    if n > 0 {
      FillBuysOwn(e, scale, b, xs, n - 1);
      hide FillBuy, OwnRows;
      var w := FillBuys(e, scale, b, xs, n - 1).value;
      FillBuyOwn(e, scale, w, xs[n - 1]);
      OwnRowsTransitive(e, b, w, FillBuys(e, scale, b, xs, n).value);
    }
  }

  lemma ExecuteOwn(e: Env, b: Book, ps: seq<Proposal>, rejections: seq<Rejection>)
    requires EnvOk(e) && ProposalsOk(e, ps) && ProposalsQuoted(e, ps)
    requires forall i :: 0 <= i < |rejections| ==> rejections[i].run == e.run
    requires Execute(e, b, ps, rejections).Ok?
    ensures OwnRows(e, b, Execute(e, b, ps, rejections).value)
  {
    var sellPlan, buyPlan, sold, bought := ExecuteStages(e, b, ps, rejections);
    var staged := StageEvidence(e, b, ps, rejections);
    assert OwnRows(e, b, staged);
    hide PlanSells, PlanBuys, FillAll, Execute, OnSide, OwnRows, FillBuys;
    var sells, buys := OnSide(ps, Sell), OnSide(ps, Buy);
    PlanSellsOwn(e, b.positions, staged, sells, |sells|);
    PlanBuysOwn(e, sellPlan.book, buys, |buys|);
    FillAllOwn(e, buyPlan.book, sellPlan.execs);
    OwnRowsTransitive(e, b, staged, sellPlan.book);
    OwnRowsTransitive(e, b, sellPlan.book, buyPlan.book);
    OwnRowsTransitive(e, b, buyPlan.book, sold);
    if Required(e.config, buyPlan.execs) > 0.0 {
      FillBuysOwn(e, BuyScale(sold.cash, Required(e.config, buyPlan.execs)), sold, buyPlan.execs, |buyPlan.execs|);
      OwnRowsTransitive(e, b, sold, bought);
    }
    SettleOwn(e, b, bought, |bought.rejections| - |b.rejections|);
  }

  lemma SettleOwn(e: Env, b: Book, bought: Book, k: int)
    requires OwnRows(e, b, bought)
    ensures OwnRows(e, b, Settle(e, bought, k))
  {
  }

  /** No row of the run exists yet. */
  ghost predicate FreshRun(b: Book, run: RunId) {
    && run !in b.outcomes
    && (forall i :: 0 <= i < |b.orders| ==> b.orders[i].run != run)
    && forall i :: 0 <= i < |b.rejections| ==> b.rejections[i].run != run
  }

  lemma {:induction false} CountRunSuffix(rows: seq<Order>, run: RunId, k: nat)
    requires k <= |rows|
    requires forall i :: 0 <= i < k ==> rows[i].run != run
    requires forall i :: k <= i < |rows| ==> rows[i].run == run
    ensures CountRun(rows, run) == |rows| - k
  {
    if rows != [] {
      if |rows| > k {
        CountRunSuffix(rows[..|rows| - 1], run, k);
      } else {
        CountRunSuffix(rows[..|rows| - 1], run, k - 1);
      }
    }
  }

  lemma {:induction false} CountRejectionsSuffix(rows: seq<Rejection>, run: RunId, k: nat)
    requires k <= |rows|
    requires forall i :: 0 <= i < k ==> rows[i].run != run
    requires forall i :: k <= i < |rows| ==> rows[i].run == run
    ensures CountRejections(rows, run) == |rows| - k
  {
    if rows != [] {
      if |rows| > k {
        CountRejectionsSuffix(rows[..|rows| - 1], run, k);
      } else {
        CountRejectionsSuffix(rows[..|rows| - 1], run, k - 1);
      }
    }
  }

  /** The outcome `run` recomputes from the committed rows; `finish_run` refuses any other. */
  function RecomputedOutcome(b: Book, run: RunId): Outcome {
    var executed, rejected := CountRun(b.orders, run), CountRejections(b.rejections, run);
    Classify(executed + rejected, executed, rejected)
  }

  /** The outcome written in the transaction is the one recomputed after it: no conflict can be raised. */
  lemma OutcomeNeverConflicts(e: Env, b: Book, ps: seq<Proposal>, rejections: seq<Rejection>)
    requires EnvOk(e) && ProposalsOk(e, ps) && ProposalsQuoted(e, ps) && FreshRun(b, e.run)
    requires forall i :: 0 <= i < |rejections| ==> rejections[i].run == e.run
    requires Execute(e, b, ps, rejections).Ok?
    ensures var b' := Execute(e, b, ps, rejections).value;
            e.run in b'.outcomes && b'.outcomes[e.run] == RecomputedOutcome(b', e.run)
  {
    var sellPlan, buyPlan, sold, bought := ExecuteStages(e, b, ps, rejections);
    ExecuteOwn(e, b, ps, rejections);
    hide Execute, Committed, Classify, CountRejections, CountRun;
    var b' := Execute(e, b, ps, rejections).value;
    CommittedSettles(e, b, ps, rejections, sellPlan, buyPlan, sold, bought);
    forall i | 0 <= i < |b.rejections|
      ensures b'.rejections[i].run != e.run
    {
      assert b'.rejections[i] == b'.rejections[..|b.rejections|][i] == b.rejections[i];
    }
    CountRejectionsSuffix(b'.rejections, e.run, |b.rejections|);
  }

  lemma CommittedSettles(e: Env, b: Book, ps: seq<Proposal>, rejections: seq<Rejection>,
                         sellPlan: Work, buyPlan: Work, sold: Book, bought: Book)
    requires EnvOk(e) && ProposalsOk(e, ps) && ProposalsQuoted(e, ps)
    requires Committed(e, b, ps, rejections, sellPlan, buyPlan, sold, bought)
    ensures Execute(e, b, ps, rejections) == Ok(Settle(e, bought, |bought.rejections| - |b.rejections|))
  {
    hide Execute, PlanSells, PlanBuys, FillAll, ExecuteBuys;
  }

  /**
   Every intent, exactly once: over the rows a week adds, the keys of filled
   orders and of rejections together are the keys of the assets whose delta
   exceeds the tolerance, each occurring once.
   */
  lemma WeekAccountsForEveryIntent(c: Config, b: Book, w: Week)
    requires ConfigOk(c) && SnapshotOk(c, w.snapshot) && ExecuteWeek(c, b, w).Ok?
    ensures var e := WeekEnv(c, w);
            var b' := ExecuteWeek(c, b, w).value;
            && OwnRows(e, b, b')
            && multiset(OrderKeys(b'.orders[|b.orders|..])) + multiset(RejectionKeys(b'.rejections[|b.rejections|..]))
               == multiset(IntentKeys(e, b, w.weights, |c.assets|))
            && Distinct(IntentKeys(e, b, w.weights, |c.assets|))
  {
    var e := WeekEnv(c, w);
    var n := |c.assets|;
    var b' := ExecuteWeek(c, b, w).value;
    ProposalsSound(e, b, w.weights, n);
    ProposalsPartition(e, b, w.weights, n);
    IntentKeysDistinct(e, b, w.weights, n);
    ProposalsAreQuoted(e, b, w.weights, n);
    var p := Proposals(e, b, w.weights, n);
    hide Execute, Proposals, IntentKeys, NormalizeFor, NormalizeFor', Settled, OrderKeys, RejectionKeys, ProposalKeys;
    ExecuteSettles(e, b, p.proposals, p.rejections);
    ExecuteOwn(e, b, p.proposals, p.rejections);
    SettledSuffix(b, b');
    Cancel(Settled(b), multiset(OrderKeys(b'.orders[|b.orders|..])) + multiset(RejectionKeys(b'.rejections[|b.rejections|..])),
           multiset(ProposalKeys(p.proposals)) + multiset(RejectionKeys(p.rejections)));
  }

  /**
   What the recorded outcome says: with k intents, of which so many were filled
   and so many rejected, exactly one of the four outcomes, by these counts.
   */
  lemma WeekOutcomeExactly(c: Config, b: Book, w: Week)
    requires ConfigOk(c) && SnapshotOk(c, w.snapshot) && ExecuteWeek(c, b, w).Ok? && FreshRun(b, w.run)
    ensures var b' := ExecuteWeek(c, b, w).value;
            var k := |IntentKeys(WeekEnv(c, w), b, w.weights, |c.assets|)|;
            var filled := |b'.orders| - |b.orders|;
            && w.run in b'.outcomes && 0 <= filled <= k && |b'.rejections| - |b.rejections| == k - filled
            && (b'.outcomes[w.run].NoRebalanceRequired? <==> k == 0)
            && (b'.outcomes[w.run].ExecutionRejected? <==> k > 0 && filled == 0)
            && (b'.outcomes[w.run].FullExecution? <==> k > 0 && filled == k)
            && (b'.outcomes[w.run].PartialExecution? <==> 0 < filled < k)
  {
    var e := WeekEnv(c, w);
    var n := |c.assets|;
    var b' := ExecuteWeek(c, b, w).value;
    ProposalsSound(e, b, w.weights, n);
    ProposalsAreQuoted(e, b, w.weights, n);
    WeekAccountsForEveryIntent(c, b, w);
    var p := Proposals(e, b, w.weights, n);
    hide Execute, Proposals, IntentKeys, NormalizeFor, NormalizeFor', CountRun, CountRejections;
    OutcomeNeverConflicts(e, b, p.proposals, p.rejections);
    CountRunOwn(e, b, b');
    CountSizes(b'.orders[|b.orders|..], b'.rejections[|b.rejections|..], IntentKeys(e, b, w.weights, n));
  }

  lemma CountRunOwn(e: Env, b: Book, b': Book)
    requires OwnRows(e, b, b') && FreshRun(b, e.run)
    ensures CountRun(b'.orders, e.run) == |b'.orders| - |b.orders|
    ensures CountRejections(b'.rejections, e.run) == |b'.rejections| - |b.rejections|
  {
    forall i | 0 <= i < |b.orders|
      ensures b'.orders[i].run != e.run
    {
      assert b'.orders[i] == b'.orders[..|b.orders|][i];
    }
    forall i | 0 <= i < |b.rejections|
      ensures b'.rejections[i].run != e.run
    {
      assert b'.rejections[i] == b'.rejections[..|b.rejections|][i];
    }
    CountRunSuffix(b'.orders, e.run, |b.orders|);
    CountRejectionsSuffix(b'.rejections, e.run, |b.rejections|);
  }

  lemma CountSizes(orders: seq<Order>, rejections: seq<Rejection>, intents: seq<Key>)
    requires multiset(OrderKeys(orders)) + multiset(RejectionKeys(rejections)) == multiset(intents)
    ensures |orders| + |rejections| == |intents|
  {
    assert |multiset(OrderKeys(orders)) + multiset(RejectionKeys(rejections))| == |orders| + |rejections|;
  }

  lemma SettledSuffix(b: Book, b': Book)
    requires |b.orders| <= |b'.orders| && b'.orders[..|b.orders|] == b.orders
    requires |b.rejections| <= |b'.rejections| && b'.rejections[..|b.rejections|] == b.rejections
    ensures Settled(b') == Settled(b)
              + (multiset(OrderKeys(b'.orders[|b.orders|..])) + multiset(RejectionKeys(b'.rejections[|b.rejections|..])))
  {
    assert OrderKeys(b'.orders) == OrderKeys(b.orders) + OrderKeys(b'.orders[|b.orders|..]) by {
      assert b'.orders == b.orders + b'.orders[|b.orders|..];
    }
    assert RejectionKeys(b'.rejections) == RejectionKeys(b.rejections) + RejectionKeys(b'.rejections[|b.rejections|..]) by {
      assert b'.rejections == b.rejections + b'.rejections[|b.rejections|..];
    }
  }

  lemma Cancel(a: multiset<Key>, b: multiset<Key>, c: multiset<Key>)
    requires a + b == a + c
    ensures b == c
  {
    assert forall k :: (a + b)[k] == a[k] + b[k] && (a + c)[k] == a[k] + c[k];
  }
}
