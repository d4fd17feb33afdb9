/**
 Exactly which executions commit: the evidence must be complete and every
 proposal's PRICE_RANGE rule must evaluate; nothing later can raise.
 */
module BrokerCommits {
  import opened Common
  import opened Numbers
  import opened Grid
  import opened Quantities
  import opened Broker
  import opened BrokerSolvency
  import opened BrokerTrace
  import opened BrokerLedger
  import opened BrokerAudit
  import opened BrokerWeeks

  /** The PRICE_RANGE rule of the proposal evaluates without an error. */
  predicate RangeDecides(e: Env, p: Proposal)
    requires p.symbol in e.snapshot.quotes
  {
    e.config.requireRangeEvidence ==>
      EvaluateRange(RangeOf(e, p.symbol), Get(e.snapshot.references, p.symbol), p.side, TermsFor(e, p).execution).Ok?
  }

  /**
   Under range evidence exactly the configured assets have a PRICE_RANGE row and a
   reference row, and each rule was fetched; every reference price is positive.
   */
  ghost predicate EvidenceComplete(c: Config, s: Snapshot) {
    && (c.requireRangeEvidence ==>
          && (forall a :: a in c.assets <==> a in s.ranges)
          && (forall a :: a in c.assets <==> a in s.references)
          && forall a :: a in s.ranges ==> s.ranges[a].status in {RangePresent, RangeAbsent, RuleNotApplicable})
    && forall a :: a in s.references && s.references[a].source == ReferencePrice ==>
         exists price: real :: 0.0 < price && s.references[a].price == Some(Fin(price))
  }

  lemma EvidenceExactly(c: Config, s: Snapshot)
    ensures CheckEvidence(c, s).Ok? <==> EvidenceComplete(c, s)
  {
    var universe := set a | a in c.assets;
    assert s.ranges.Keys == universe <==> forall a :: a in c.assets <==> a in s.ranges;
    assert s.references.Keys == universe <==> forall a :: a in c.assets <==> a in s.references;
    forall a | a in s.references && s.references[a].source.ReferencePrice?
      ensures PositiveFloat(s.references[a].price) <==> exists price: real :: 0.0 < price && s.references[a].price == Some(Fin(price))
    {
      if PositiveFloat(s.references[a].price) {
        assert s.references[a].price == Some(Fin(s.references[a].price.value.v));
      }
    }
  }

  predicate AllDecide(e: Env, ps: seq<Proposal>)
    requires ProposalsQuoted(e, ps)
  {
    forall i :: 0 <= i < |ps| ==> RangeDecides(e, ps[i])
  }

  /** No proposal's order was placed before: its signal time is new. */
  predicate FreshKeys(b: Book, ps: seq<Proposal>) {
    forall i :: 0 <= i < |ps| ==> !KeyUsed(b.orders, ps[i].key)
  }

  lemma {:induction false} PlanSellsDecides(e: Env, positions: map<Symbol, Position>, b: Book, sells: seq<Proposal>, n: nat)
    requires n <= |sells| && ProposalsQuoted(e, sells)
    ensures PlanSells(e, positions, b, sells, n).Ok? <==> forall i :: 0 <= i < n ==> RangeDecides(e, sells[i])
  {
    hide CheckRange, NormalizeFor, RangeDecides;
    if n > 0 {
      PlanSellsDecides(e, positions, b, sells, n - 1);
      if PlanSells(e, positions, b, sells, n - 1).Ok? {
        CheckRangeDecides(e, PlanSells(e, positions, b, sells, n - 1).value.book, sells[n - 1]);
      }
    }
  }

  lemma CheckRangeDecides(e: Env, b: Book, p: Proposal)
    requires p.symbol in e.snapshot.quotes
    ensures CheckRange(e, b, p).Ok? <==> RangeDecides(e, p)
  {
    hide EvaluateRange, TermsFor;
  }

  lemma {:induction false} PlanBuysDecides(e: Env, b: Book, buys: seq<Proposal>, n: nat)
    requires n <= |buys| && ProposalsQuoted(e, buys)
    ensures PlanBuys(e, b, buys, n).Ok? <==> forall i :: 0 <= i < n ==> RangeDecides(e, buys[i])
  {
    hide CheckRange, TermsFor, RangeDecides;
    if n > 0 {
      PlanBuysDecides(e, b, buys, n - 1);
      if PlanBuys(e, b, buys, n - 1).Ok? {
        CheckRangeDecides(e, PlanBuys(e, b, buys, n - 1).value.book, buys[n - 1]);
      }
    }
  }

  // ----------------------------------------------------------- no duplicate order

  predicate Keyed(xs: seq<Exec>, key: Key) {
    exists i :: 0 <= i < |xs| && xs[i].proposal.key == key
  }

  predicate DistinctExecKeys(xs: seq<Exec>) {
    forall i, j :: 0 <= i < j < |xs| ==> xs[i].proposal.key != xs[j].proposal.key
  }

  /** Keys used after fills of `xs` are those used before or of `xs`. */
  ghost predicate KeysFrom(b: Book, xs: seq<Exec>, b': Book) {
    forall key :: KeyUsed(b'.orders, key) ==> KeyUsed(b.orders, key) || Keyed(xs, key)
  }

  ghost predicate NoneUsed(b: Book, xs: seq<Exec>) {
    forall i :: 0 <= i < |xs| ==> !KeyUsed(b.orders, xs[i].proposal.key)
  }

  lemma PersistFresh(e: Env, b: Book, w: Book, xs: seq<Exec>, n: nat, x: Exec)
    requires n < |xs| && DistinctExecKeys(xs) && NoneUsed(b, xs) && KeysFrom(b, xs[..n], w) && x.proposal.key == xs[n].proposal.key
    ensures match PersistFill(e, w, x)
            case Ok(w') => KeysFrom(b, xs[..n + 1], w')
            case Err(error) => error != DuplicateOrder
    ensures KeysFrom(b, xs[..n + 1], w)
  {
    hide CashDelta;
    forall key | Keyed(xs[..n], key)
      ensures Keyed(xs[..n + 1], key) && key != xs[n].proposal.key
    {
      var i :| 0 <= i < n && xs[..n][i].proposal.key == key;
      assert xs[..n + 1][i] == xs[i];
    }
    assert xs[..n + 1][n].proposal.key == x.proposal.key;
    if PersistFill(e, w, x).Ok? {
      var w' := PersistFill(e, w, x).value;
      forall key | KeyUsed(w'.orders, key)
        ensures KeyUsed(w.orders, key) || key == x.proposal.key
      {
        var i :| 0 <= i < |w'.orders| && w'.orders[i].key == key;
        assert i < |w.orders| ==> w.orders[i] == w'.orders[i];
      }
    }
  }

  lemma {:induction false} FillAllFresh(e: Env, b: Book, xs: seq<Exec>, n: nat)
    requires n <= |xs| && DistinctExecKeys(xs) && NoneUsed(b, xs)
    ensures match FillAll(e, b, xs[..n])
            case Ok(w) => KeysFrom(b, xs[..n], w)
            case Err(error) => error != DuplicateOrder
  {
    hide PersistFill, KeysFrom;
    if n == 0 {
      assert KeysFrom(b, [], b) by {
        NothingFilled(b);
      }
    } else {
      FillAllFresh(e, b, xs, n - 1);
      assert xs[..n][..n - 1] == xs[..n - 1];
      if FillAll(e, b, xs[..n - 1]).Ok? {
        PersistFresh(e, b, FillAll(e, b, xs[..n - 1]).value, xs, n - 1, xs[n - 1]);
      }
    }
  }

  lemma NothingFilled(b: Book)
    ensures KeysFrom(b, [], b)
  {
  }

  lemma {:induction false} FillBuysFresh(e: Env, scale: real, b: Book, xs: seq<Exec>, n: nat)
    requires n <= |xs| && ExecsQuoted(e, xs) && DistinctExecKeys(xs) && NoneUsed(b, xs)
    ensures match FillBuys(e, scale, b, xs, n)
            case Ok(w) => KeysFrom(b, xs[..n], w)
            case Err(error) => error != DuplicateOrder
  {
    hide PersistFill, KeysFrom, NormalizeFor;
    if n == 0 {
      NothingFilled(b);
    } else {
      FillBuysFresh(e, scale, b, xs, n - 1);
      if FillBuys(e, scale, b, xs, n - 1).Ok? {
        var w := FillBuys(e, scale, b, xs, n - 1).value;
        PersistFresh(e, b, w, xs, n - 1, xs[n - 1]);
        var v := NormalizeFor(e, xs[n - 1].proposal.symbol, Times(xs[n - 1].quantity, scale));
        if v.Accepted? {
          PersistFresh(e, b, w, xs, n - 1, xs[n - 1].(quantity := v.quantity));
        }
        SameOrders(b, xs[..n], w, FillBuys(e, scale, b, xs, n));
      }
    }
  }

  lemma SameOrders(b: Book, xs: seq<Exec>, w: Book, r: Result<Book, Error>)
    requires KeysFrom(b, xs, w)
    ensures r.Ok? && r.value.orders == w.orders ==> KeysFrom(b, xs, r.value)
  {
  }

  /** Execs planned from proposals of one execution. */
  ghost predicate PlannedFrom(ps: seq<Proposal>, xs: seq<Exec>) {
    DistinctExecs(xs) && forall i :: 0 <= i < |xs| ==> xs[i].proposal in ps
  }

  lemma PlannedFresh(e: Env, b: Book, ps: seq<Proposal>, xs: seq<Exec>)
    requires ProposalsOk(e, ps) && FreshKeys(b, ps) && PlannedFrom(ps, xs)
    ensures DistinctExecKeys(xs) && NoneUsed(b, xs)
  {
    forall i | 0 <= i < |xs|
      ensures !KeyUsed(b.orders, xs[i].proposal.key) && xs[i].proposal.key == Key(e.signal, xs[i].proposal.symbol)
    {
      var k :| 0 <= k < |ps| && ps[k] == xs[i].proposal;
    }
  }

  lemma StillFresh(e: Env, b: Book, sold: Book, ps: seq<Proposal>, sells: seq<Exec>, buys: seq<Exec>)
    requires ProposalsOk(e, ps) && FreshKeys(b, ps) && PlannedFrom(ps, sells) && PlannedFrom(ps, buys)
    requires AllOn(sells, Sell) && AllOn(buys, Buy) && KeysFrom(b, sells, sold)
    ensures NoneUsed(sold, buys)
  {
    PlannedFresh(e, b, ps, buys);
    forall i | 0 <= i < |buys|
      ensures !Keyed(sells, buys[i].proposal.key)
    {
      forall j | 0 <= j < |sells|
        ensures sells[j].proposal.key != buys[i].proposal.key
      {
        var k :| 0 <= k < |ps| && ps[k] == sells[j].proposal;
        var m :| 0 <= m < |ps| && ps[m] == buys[i].proposal;
      }
    }
  }

  /** Sells filled and buys scaled from fresh keys never meet a duplicate order. */
  lemma FillsNeverDuplicate(e: Env, b: Book, ps: seq<Proposal>, sells: seq<Exec>, buys: seq<Exec>)
    requires ProposalsOk(e, ps) && FreshKeys(b, ps) && PlannedFrom(ps, sells) && PlannedFrom(ps, buys) && ExecsQuoted(e, buys)
    requires AllOn(sells, Sell) && AllOn(buys, Buy)
    ensures var sold := FillAll(e, b, sells);
            && sold != Err(DuplicateOrder)
            && (sold.Ok? ==> ExecuteBuys(e, sold.value, buys) != Err(DuplicateOrder))
  {
    hide FillAll, FillBuys, KeysFrom, NoneUsed, DistinctExecKeys, PlannedFrom;
    PlannedFresh(e, b, ps, sells);
    PlannedFresh(e, b, ps, buys);
    FillAllFresh(e, b, sells, |sells|);
    assert sells[..|sells|] == sells;
    var sold := FillAll(e, b, sells);
    if sold.Ok? {
      StillFresh(e, b, sold.value, ps, sells, buys);
      var required := Required(e.config, buys);
      if required > 0.0 {
        FillBuysFresh(e, BuyScale(sold.value.cash, required), sold.value, buys, |buys|);
      }
    }
  }

  lemma PlansAreFrom(e: Env, b: Book, staged: Book, ps: seq<Proposal>, sellPlan: Work, buyPlan: Work)
    requires EnvOk(e) && ProposalsOk(e, ps)
    requires ProposalsQuoted(e, OnSide(ps, Sell)) && ProposalsQuoted(e, OnSide(ps, Buy))
    requires PlanSells(e, b.positions, staged, OnSide(ps, Sell), |OnSide(ps, Sell)|) == Ok(sellPlan)
    requires PlanBuys(e, sellPlan.book, OnSide(ps, Buy), |OnSide(ps, Buy)|) == Ok(buyPlan)
    ensures PlannedFrom(ps, sellPlan.execs) && AllOn(sellPlan.execs, Sell)
    ensures PlannedFrom(ps, buyPlan.execs) && AllOn(buyPlan.execs, Buy) && ExecsQuoted(e, buyPlan.execs)
    ensures SameLedgers(staged, buyPlan.book)
  {
    hide PlanSells, PlanBuys, ExecOk, Normalized;
    var sells, buys := OnSide(ps, Sell), OnSide(ps, Buy);
    OnSideDistinct(e, ps, Sell);
    OnSideDistinct(e, ps, Buy);
    hide OnSide;
    PlanSellsSound(e, b.positions, staged, sells, |sells|);
    PlanBuysSound(e, sellPlan.book, buys, |buys|);
    PlannedQuoted(e, sellPlan.book, buys, |buys|);
    assert sells[..|sells|] == sells && buys[..|buys|] == buys;
  }

  lemma SidesDecide(e: Env, ps: seq<Proposal>)
    requires ProposalsQuoted(e, ps) && ProposalsQuoted(e, OnSide(ps, Sell)) && ProposalsQuoted(e, OnSide(ps, Buy))
    ensures AllDecide(e, ps) <==> AllDecide(e, OnSide(ps, Sell)) && AllDecide(e, OnSide(ps, Buy))
  {
    hide RangeDecides;
    assert forall p :: p in ps ==> p in OnSide(ps, Sell) || p in OnSide(ps, Buy);
    assert forall p :: p in OnSide(ps, Sell) || p in OnSide(ps, Buy) ==> p in ps;
  }

  /**
   When an execution commits, exactly, for proposals of a new signal time: if and
   only if the evidence is complete and valid and the PRICE_RANGE rule of every
   proposal evaluates.  Nothing after that can raise.
   */
  lemma ExecuteCommitsExactly(e: Env, b: Book, ps: seq<Proposal>, rejections: seq<Rejection>)
    requires EnvOk(e) && ProposalsOk(e, ps) && ProposalsQuoted(e, ps) && FreshKeys(b, ps)
    requires 0.0 <= b.cash && NoShorts(b.positions)
    requires forall i :: 0 <= i < |rejections| ==> !rejections[i].reason.InsufficientCash?
    ensures Execute(e, b, ps, rejections).Ok? <==> EvidenceComplete(e.config, e.snapshot) && AllDecide(e, ps)
  {
    EvidenceExactly(e.config, e.snapshot);
    ExecuteSolvent(e, b, ps, rejections);
    hide PlanSells, PlanBuys, FillAll, ExecuteBuys, CheckEvidence, ExecOk, OnSide, RangeDecides, StageEvidence, PlannedFrom,
         EvidenceComplete;
    var sells, buys := OnSide(ps, Sell), OnSide(ps, Buy);
    assert ProposalsQuoted(e, sells) && ProposalsQuoted(e, buys);
    var staged := StageEvidence(e, b, ps, rejections);
    SidesDecide(e, ps);
    PlanSellsDecides(e, b.positions, staged, sells, |sells|);
    var sellPlan := PlanSells(e, b.positions, staged, sells, |sells|);
    if CheckEvidence(e.config, e.snapshot).Ok? && sellPlan.Ok? {
      PlanBuysDecides(e, sellPlan.value.book, buys, |buys|);
      var buyPlan := PlanBuys(e, sellPlan.value.book, buys, |buys|);
      if buyPlan.Ok? {
        PlansAreFrom(e, b, staged, ps, sellPlan.value, buyPlan.value);
        StagedOrders(e, b, ps, rejections);
        FreshLedgers(b, buyPlan.value.book, ps);
        FillsNeverDuplicate(e, buyPlan.value.book, ps, sellPlan.value.execs, buyPlan.value.execs);
        FillErrors(e, buyPlan.value.book, sellPlan.value.execs, buyPlan.value.execs);
      }
    }
  }

  lemma StagedOrders(e: Env, b: Book, ps: seq<Proposal>, rejections: seq<Rejection>)
    requires SnapshotOk(e.config, e.snapshot) && ProposalsQuoted(e, ps)
    ensures StageEvidence(e, b, ps, rejections).orders == b.orders
  {
  }

  lemma FreshLedgers(b: Book, b': Book, ps: seq<Proposal>)
    requires b'.orders == b.orders && FreshKeys(b, ps)
    ensures FreshKeys(b', ps)
  {
  }

  lemma {:induction false} FillAllErrors(e: Env, b: Book, xs: seq<Exec>)
    ensures match FillAll(e, b, xs) case Ok(_) => true case Err(error) => error.DuplicateOrder? || error.ZeroDivision?
  {
    hide CashDelta;
    if xs != [] {
      FillAllErrors(e, b, xs[..|xs| - 1]);
    }
  }

  lemma {:induction false} FillBuysErrors(e: Env, scale: real, b: Book, xs: seq<Exec>, n: nat)
    requires n <= |xs| && ExecsQuoted(e, xs)
    ensures match FillBuys(e, scale, b, xs, n) case Ok(_) => true case Err(error) => error.DuplicateOrder? || error.ZeroDivision?
  {
    hide CashDelta, NormalizeFor;
    if n > 0 {
      FillBuysErrors(e, scale, b, xs, n - 1);
    }
  }

  lemma FillErrors(e: Env, b: Book, sells: seq<Exec>, buys: seq<Exec>)
    requires ExecsQuoted(e, buys)
    ensures match FillAll(e, b, sells)
            case Err(error) => error.DuplicateOrder? || error.ZeroDivision?
            case Ok(sold) =>
              match ExecuteBuys(e, sold, buys)
              case Ok(_) => true
              case Err(error) => error.DuplicateOrder? || error.ZeroDivision?
  {
    hide FillAll, FillBuys;
    FillAllErrors(e, b, sells);
    if FillAll(e, b, sells).Ok? {
      var sold := FillAll(e, b, sells).value;
      var required := Required(e.config, buys);
      if required > 0.0 {
        FillBuysErrors(e, BuyScale(sold.cash, required), sold, buys, |buys|);
      }
    }
  }

  // ------------------------------------------------------ clean weeks do commit

  /** The week's signal time is new to the book. */
  predicate NewSignal(b: Book, signal: int) {
    forall i :: 0 <= i < |b.orders| ==> b.orders[i].key.signal != signal
  }

  lemma WeekCommitsExactly(c: Config, b: Book, w: Week)
    requires ConfigOk(c) && SnapshotOk(c, w.snapshot) && 0.0 <= b.cash && NoShorts(b.positions) && NewSignal(b, w.signal)
    ensures var e := WeekEnv(c, w);
            var ps := Proposals(e, b, w.weights, |c.assets|).proposals;
            && ProposalsQuoted(e, ps)
            && (ExecuteWeek(c, b, w).Ok? <==> EvidenceComplete(c, w.snapshot) && AllDecide(e, ps))
  {
    var e := WeekEnv(c, w);
    var p := Proposals(e, b, w.weights, |c.assets|);
    ProposalRejectionsSound(e, b, w.weights);
    hide Execute, Proposals, EvidenceComplete, RangeDecides;
    ExecuteCommitsExactly(e, b, p.proposals, p.rejections);
  }

  /** Rules with the two raw limits the broker requires, each one unit, and no notional filter. */
  function UnitRules(): SymbolRules {
    ParseRules(true, true, NoFlags, NoRaw.(minQuantity := Some(Fin(1.0)), step := Some(Fin(1.0))), NoFallback)
  }

  /** Such rules for every quoted asset, no reference price, and PRICE_RANGE not applicable. */
  function UnitSnapshot(quotes: map<Symbol, Quote>): Snapshot {
    Snapshot(quotes, map a | a in quotes :: UnitRules(), map a | a in quotes :: RuleReference(None, OtherSource),
             map a | a in quotes :: RangeEvidence(RuleNotApplicable, None, None, None, None, None))
  }

  lemma UnitSnapshotDecides(e: Env, p: Proposal)
    requires EnvOk(e) && p.symbol in e.config.assets && e.snapshot == UnitSnapshot(e.snapshot.quotes)
    ensures RangeDecides(e, p)
  {
    TermsOrdered(e.config, e.snapshot.quotes[p.symbol], p.side);
  }

  /**
   On any book with any valid quotes, under range evidence or not, some snapshot
   is clean and on common units, and its week commits: the audit is promised for it.
   */
  lemma CleanWeeksExist(c: Config, b: Book, quotes: map<Symbol, Quote>, run: RunId, signal: int, weights: map<Symbol, real>)
    requires ConfigOk(c) && 0.0 <= b.cash && NoShorts(b.positions) && NewSignal(b, signal)
    requires SnapshotOk(c, UnitSnapshot(quotes)) && forall a :: a in quotes ==> PositiveFloat(Some(quotes[a].last))
    ensures var w := Week(UnitSnapshot(quotes), run, signal, weights);
            && (exists unit :: WeekClean(c, unit, w)) && CleanEnv(WeekEnv(c, w)) && ExecuteWeek(c, b, w).Ok?
  {
    var w := Week(UnitSnapshot(quotes), run, signal, weights);
    var e := WeekEnv(c, w);
    UnitWeekClean(c, w, map a | a in quotes :: 1.0);
    WeekCommitsExactly(c, b, w);
    ProposalRejectionsSound(e, b, weights);
    hide RangeDecides, Proposals, ExecuteWeek;
    var ps := Proposals(e, b, weights, |c.assets|).proposals;
    forall i | 0 <= i < |ps|
      ensures RangeDecides(e, ps[i])
    {
      UnitSnapshotDecides(e, ps[i]);
    }
    UnitEvidence(c, quotes);
  }

  lemma UnitEvidence(c: Config, quotes: map<Symbol, Quote>)
    requires SnapshotOk(c, UnitSnapshot(quotes))
    ensures EvidenceComplete(c, UnitSnapshot(quotes))
  {
    assert quotes.Keys == set a | a in c.assets;
  }

  lemma UnitWeekClean(c: Config, w: Week, unit: map<Symbol, real>)
    requires ConfigOk(c) && w.snapshot == UnitSnapshot(w.snapshot.quotes) && SnapshotOk(c, w.snapshot)
    requires unit == map a | a in w.snapshot.quotes :: 1.0
    requires forall a :: a in w.snapshot.quotes ==> PositiveFloat(Some(w.snapshot.quotes[a].last))
    ensures WeekClean(c, unit, w) && CleanEnv(WeekEnv(c, w))
  {
    var e := WeekEnv(c, w);
    UnitRulesRaw();
    hide UnitRules, RawValued, LimitsOf, EvidenceValid, OnGrid, QuoteOk;
    forall a | a in c.assets
      ensures EvidenceValid(EvidenceOf(e, a).evidence) && e.snapshot.rules[a] == UnitRules()
    {
      UnitEvidenceValid(Some(RuleReference(None, OtherSource)), w.snapshot.quotes[a].last);
    }
    assert CleanEnv(e);
    assert UnitsFor(e, unit);
  }

  lemma UnitRulesRaw()
    ensures RawValued(UnitRules()) && LimitsOf(UnitRules()).step == Some(1.0) && OnGrid(1.0, 1.0)
  {
    assert 1.0 == Multiple(1, 1.0);
  }

  lemma UnitEvidenceValid(reference: Option<RuleReference>, last: Num)
    requires reference == Some(RuleReference(None, OtherSource)) && PositiveFloat(Some(last))
    ensures EvidenceValid(RecordEvidence(reference, Some(UnitRules()), last))
  {
  }
}
