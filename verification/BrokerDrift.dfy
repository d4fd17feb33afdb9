/**
 The snap to zero, exactly: a stored position departs from the sum of its ledger
 by what sells leave within the tolerance of nothing, and by nothing else.
 */
module BrokerDrift {
  import opened Common
  import opened Numbers
  import opened Quantities
  import opened Broker
  import opened BrokerSolvency
  import opened BrokerTrace
  import opened BrokerLedger
  import opened BrokerWeeks
  import opened BrokerCommits
  import opened Reconcile

  // ------------------------------------------------------------ what is stranded

  /** The PRICE_RANGE check, when there is one, lets the proposal through. */
  predicate Proceeds(e: Env, p: Proposal)
    requires p.symbol in e.snapshot.quotes
  {
    e.config.requireRangeEvidence ==>
      var d := EvaluateRange(RangeOf(e, p.symbol), Get(e.snapshot.references, p.symbol), p.side, TermsFor(e, p).execution);
      d.Ok? && !Refusing(d.value)
  }

  /** The quantity a sell of these holdings would fill; None when it is refused. */
  function SellFill(e: Env, positions: map<Symbol, Position>, p: Proposal): Option<real>
    requires p.symbol in e.snapshot.quotes
  {
    if !Proceeds(e, p) then None
    else
      match NormalizeFor(e, p.symbol, Min(p.requested, Held(positions, p.symbol)))
      case Accepted(n) => Some(n)
      case Rejected(_) => None
  }

  /** What a sell leaves behind, when that is within the tolerance of zero. */
  function Stranded(e: Env, positions: map<Symbol, Position>, p: Proposal): real
    requires p.symbol in e.snapshot.quotes
  {
    if p.side.Buy? || SellFill(e, positions, p).None? then 0.0
    else
      var rest := Held(positions, p.symbol) - SellFill(e, positions, p).value;
      if rest <= e.config.tolerance then rest else 0.0
  }

  /** The same for one symbol over all proposals of an execution. */
  function StrandedOf(e: Env, positions: map<Symbol, Position>, ps: seq<Proposal>, s: Symbol): real
    requires ProposalsQuoted(e, ps)
  {
    if ps == [] then 0.0
    else
      var last := ps[|ps| - 1];
      StrandedOf(e, positions, ps[..|ps| - 1], s) + (if last.symbol == s then Stranded(e, positions, last) else 0.0)
  }

  lemma StrandedBounds(e: Env, positions: map<Symbol, Position>, p: Proposal)
    requires ConfigOk(e.config) && p.symbol in e.snapshot.quotes
    ensures 0.0 <= Stranded(e, positions, p) <= e.config.tolerance
  {
    hide NormalizeFor, Proceeds;
    if SellFill(e, positions, p).Some? {
      NormalizeForBounds(e, p.symbol, Min(p.requested, Held(positions, p.symbol)));
    }
  }

  lemma {:induction false} StrandedOfOne(e: Env, positions: map<Symbol, Position>, ps: seq<Proposal>, s: Symbol)
    requires ConfigOk(e.config) && ProposalsQuoted(e, ps) && DistinctSymbols(ps)
    ensures forall p :: p in ps && p.symbol == s ==> StrandedOf(e, positions, ps, s) == Stranded(e, positions, p)
    ensures (forall p :: p in ps ==> p.symbol != s) ==> StrandedOf(e, positions, ps, s) == 0.0
    ensures 0.0 <= StrandedOf(e, positions, ps, s) <= e.config.tolerance
  {
    hide Stranded;
    if ps != [] {
      var rest, last := ps[..|ps| - 1], ps[|ps| - 1];
      StrandedOfOne(e, positions, rest, s);
      StrandedBounds(e, positions, last);
      assert ps == rest + [last];
      if last.symbol == s {
        assert forall p :: p in rest ==> p.symbol != s;
      }
    }
  }

  // ------------------------------------------------------------------ the fills

  /** What the snap drops from the ledger value of one fill. */
  function Dropped(e: Env, positions: map<Symbol, Position>, x: Exec): real {
    var moved := Held(positions, x.proposal.symbol) + QuantityDelta(FillOf(e, x));
    moved - Snap(e.config, moved)
  }

  lemma FillDrift(e: Env, b: Book, x: Exec, s: Symbol)
    requires PersistFill(e, b, x).Ok?
    ensures var b' := PersistFill(e, b, x).value;
            && Drift(b', s) == Drift(b, s) - (if s == x.proposal.symbol then Dropped(e, b.positions, x) else 0.0)
            && (s != x.proposal.symbol ==> Held(b'.positions, s) == Held(b.positions, s))
  {
    hide CashDelta;
    var b' := PersistFill(e, b, x).value;
    assert b'.positionLedger[..|b.positionLedger|] == b.positionLedger;
  }

  predicate Trades(xs: seq<Exec>, s: Symbol) {
    exists i :: 0 <= i < |xs| && xs[i].proposal.symbol == s
  }

  /** Fills of distinct symbols: each symbol drifts by what its own fill drops, measured against the holdings at the start. */
  lemma {:induction false} FillAllDrift(e: Env, b: Book, xs: seq<Exec>, s: Symbol)
    requires DistinctExecs(xs) && FillAll(e, b, xs).Ok?
    ensures forall i :: 0 <= i < |xs| && xs[i].proposal.symbol == s ==>
              Drift(FillAll(e, b, xs).value, s) == Drift(b, s) - Dropped(e, b.positions, xs[i])
    ensures !Trades(xs, s) ==>
              Drift(FillAll(e, b, xs).value, s) == Drift(b, s) && Held(FillAll(e, b, xs).value.positions, s) == Held(b.positions, s)
  {
    if xs != [] {
      var n := |xs| - 1;
      FillAllLast(e, b, xs);
      var w, b' := FillAll(e, b, xs[..n]).value, FillAll(e, b, xs).value;
      hide PersistFill, Drift, Held, FillAll, Dropped;
      FillAllDrift(e, b, xs[..n], s);
      FillDrift(e, w, xs[n], s);
      if xs[n].proposal.symbol == s {
        assert !Trades(xs[..n], s);
        SameDropped(e, b.positions, w.positions, xs[n]);
      } else {
        assert forall i :: 0 <= i < n ==> xs[..n][i] == xs[i];
        assert Trades(xs[..n], s) ==> Trades(xs, s);
      }
    }
  }

  lemma SameDropped(e: Env, a: map<Symbol, Position>, b: map<Symbol, Position>, x: Exec)
    requires Held(a, x.proposal.symbol) == Held(b, x.proposal.symbol)
    ensures Dropped(e, a, x) == Dropped(e, b, x)
  {
  }

  // --------------------------------------------------------------- the sell plan

  lemma CheckRangeProceeds(e: Env, b: Book, p: Proposal)
    requires p.symbol in e.snapshot.quotes && CheckRange(e, b, p).Ok?
    ensures CheckRange(e, b, p).value.1 == Proceeds(e, p)
  {
  }

  predicate FilledBy(xs: seq<Exec>, p: Proposal) {
    exists i :: 0 <= i < |xs| && xs[i].proposal == p
  }

  /** The planned sells are exactly those whose fill is not refused, each at that quantity. */
  ghost predicate SellsExactly(e: Env, positions: map<Symbol, Position>, sells: seq<Proposal>, xs: seq<Exec>)
    requires ProposalsQuoted(e, sells)
  {
    && (forall i :: 0 <= i < |xs| ==>
          xs[i].proposal in sells && SellFill(e, positions, xs[i].proposal) == Some(xs[i].quantity))
    && forall i :: 0 <= i < |sells| && SellFill(e, positions, sells[i]).Some? ==> FilledBy(xs, sells[i])
  }

  lemma PlanSellExactly(e: Env, positions: map<Symbol, Position>, w: Work, p: Proposal)
    requires p.symbol in e.snapshot.quotes && PlanSell(e, positions, w, p).Ok?
    ensures var fill := SellFill(e, positions, p);
            PlanSell(e, positions, w, p).value.execs
              == if fill.Some? then w.execs + [Exec(p, fill.value, TermsFor(e, p))] else w.execs
  {
    hide CheckRange, NormalizeFor, TermsFor, Proceeds;
    CheckRangeProceeds(e, w.book, p);
  }

  lemma NoSells(e: Env, positions: map<Symbol, Position>)
    ensures SellsExactly(e, positions, [], [])
  {
  }

  lemma PlanSellsLast(e: Env, positions: map<Symbol, Position>, b: Book, sells: seq<Proposal>, n: nat)
    requires 0 < n <= |sells| && ProposalsQuoted(e, sells) && PlanSells(e, positions, b, sells, n).Ok?
    ensures PlanSells(e, positions, b, sells, n - 1).Ok?
    ensures PlanSells(e, positions, b, sells, n) == PlanSell(e, positions, PlanSells(e, positions, b, sells, n - 1).value, sells[n - 1])
  {
    hide PlanSell;
  }

  lemma {:induction false} PlanSellsExactly(e: Env, positions: map<Symbol, Position>, b: Book, sells: seq<Proposal>, n: nat)
    requires n <= |sells| && ProposalsQuoted(e, sells) && PlanSells(e, positions, b, sells, n).Ok?
    ensures SellsExactly(e, positions, sells[..n], PlanSells(e, positions, b, sells, n).value.execs)
  {
    hide PlanSell, SellFill, SellsExactly;
    if n == 0 {
      NoSells(e, positions);
    } else {
      PlanSellsLast(e, positions, b, sells, n);
      var w, p := PlanSells(e, positions, b, sells, n - 1).value, sells[n - 1];
      var xs := PlanSells(e, positions, b, sells, n).value.execs;
      PlanSellExactly(e, positions, w, p);
      PlanSellsExactly(e, positions, b, sells, n - 1);
      SellsGrow(e, positions, sells[..n - 1], w.execs, p, TermsFor(e, p), xs);
      assert sells[..n] == sells[..n - 1] + [p];
    }
  }

  lemma SellsGrow(e: Env, positions: map<Symbol, Position>, sells: seq<Proposal>, xs: seq<Exec>, p: Proposal, t: Terms, ys: seq<Exec>)
    requires ProposalsQuoted(e, sells) && p.symbol in e.snapshot.quotes && SellsExactly(e, positions, sells, xs)
    requires ys == if SellFill(e, positions, p).Some? then xs + [Exec(p, SellFill(e, positions, p).value, t)] else xs
    ensures ProposalsQuoted(e, sells + [p]) && SellsExactly(e, positions, sells + [p], ys)
  {
    hide SellFill;
    forall i | 0 <= i <= |sells| && SellFill(e, positions, (sells + [p])[i]).Some?
      ensures FilledBy(ys, (sells + [p])[i])
    {
      if i < |sells| {
        assert FilledBy(xs, sells[i]);
        var k :| 0 <= k < |xs| && xs[k].proposal == sells[i];
        assert ys[k].proposal == sells[i];
      } else {
        assert ys[|ys| - 1].proposal == p;
      }
    }
  }

  // ---------------------------------------------------------------- one execution

  lemma BuyDropsNothing(e: Env, positions: map<Symbol, Position>, x: Exec)
    requires Normalized(e, x) && x.proposal.side.Buy? && NoShorts(positions)
    ensures Dropped(e, positions, x) == 0.0
  {
    var q :| NormalizeFor(e, x.proposal.symbol, q) == Accepted(x.quantity);
    hide NormalizeFor;
    NormalizeForBounds(e, x.proposal.symbol, q);
  }

  lemma SellDropsStranded(e: Env, positions: map<Symbol, Position>, x: Exec)
    requires ConfigOk(e.config) && x.proposal.symbol in e.snapshot.quotes && x.proposal.side.Sell?
    requires x.quantity <= Held(positions, x.proposal.symbol) && SellFill(e, positions, x.proposal) == Some(x.quantity)
    ensures Dropped(e, positions, x) == Stranded(e, positions, x.proposal)
  {
    hide SellFill;
  }

  /** A symbol of a proposal drifts by what the proposal strands. */
  lemma ProposalDrift(e: Env, b: Book, b': Book, ps: seq<Proposal>, sells: seq<Exec>, buys: seq<Exec>, p: Proposal)
    requires EnvOk(e) && ProposalsOk(e, ps) && ProposalsQuoted(e, ps) && NoShorts(b.positions) && p in ps
    requires Traced(e, b, ps, sells + buys) && AllOn(sells, Sell) && AllOn(buys, Buy)
    requires SellsExactly(e, b.positions, OnSide(ps, Sell), sells)
    requires FillAll(e, b, sells + buys).Ok? && LedgerEq(FillAll(e, b, sells + buys).value, b')
    ensures Drift(b', p.symbol) == Drift(b, p.symbol) - Stranded(e, b.positions, p)
  {
    var xs := sells + buys;
    hide FillAll, ExecOk, SellFill, Stranded, NormalizeFor, OnSide, SnapshotOk, Dropped, Normalized;
    FillAllDrift(e, b, xs, p.symbol);
    SellIsTraded(e, b.positions, ps, sells, buys, p);
    if i :| 0 <= i < |xs| && xs[i].proposal.symbol == p.symbol {
      assert xs[i].proposal == p;
      if p.side.Buy? {
        BuyDropsNothing(e, b.positions, xs[i]);
        BuysStrandNothing(e, b.positions, p);
      } else {
        assert i < |sells| && sells[i] == xs[i];
        SellDropsStranded(e, b.positions, xs[i]);
      }
    } else {
      BuysStrandNothing(e, b.positions, p);
    }
  }

  lemma SellIsTraded(e: Env, positions: map<Symbol, Position>, ps: seq<Proposal>, sells: seq<Exec>, buys: seq<Exec>, p: Proposal)
    requires ProposalsQuoted(e, ps) && p in ps && SellsExactly(e, positions, OnSide(ps, Sell), sells)
    ensures p.side.Sell? && SellFill(e, positions, p).Some? ==> Trades(sells + buys, p.symbol)
  {
    hide SellFill;
    if p.side.Sell? && SellFill(e, positions, p).Some? {
      var k :| 0 <= k < |OnSide(ps, Sell)| && OnSide(ps, Sell)[k] == p;
      assert FilledBy(sells, p);
      var m :| 0 <= m < |sells| && sells[m].proposal == p;
      assert (sells + buys)[m].proposal == p;
    }
  }

  lemma BuysStrandNothing(e: Env, positions: map<Symbol, Position>, p: Proposal)
    requires p.symbol in e.snapshot.quotes && (p.side.Buy? || SellFill(e, positions, p).None?)
    ensures Stranded(e, positions, p) == 0.0
  {
  }

  /** One execution, whatever the rules and quantities: every symbol drifts by exactly what its sell strands. */
  lemma ExecuteDriftExactly(e: Env, b: Book, ps: seq<Proposal>, rejections: seq<Rejection>, s: Symbol)
    requires EnvOk(e) && ProposalsOk(e, ps) && ProposalsQuoted(e, ps) && NoShorts(b.positions)
    requires Execute(e, b, ps, rejections).Ok?
    ensures Drift(Execute(e, b, ps, rejections).value, s) == Drift(b, s) - StrandedOf(e, b.positions, ps, s)
  {
    var sells, buys := ExecuteSplit(e, b, ps, rejections);
    var b' := Execute(e, b, ps, rejections).value;
    hide Execute, FillAll, Traced, PlanSells, StageEvidence, NormalizeFor, Stranded, OnSide, SnapshotOk;
    var onSide := OnSide(ps, Sell);
    PlanSellsExactly(e, b.positions, StageEvidence(e, b, ps, rejections), onSide, |onSide|);
    assert onSide[..|onSide|] == onSide;
    StrandedOfOne(e, b.positions, ps, s);
    if p :| p in ps && p.symbol == s {
      ProposalDrift(e, b, b', ps, sells, buys, p);
    } else {
      UntradedDrift(e, b, b', ps, sells + buys, s);
    }
  }

  lemma UntradedDrift(e: Env, b: Book, b': Book, ps: seq<Proposal>, xs: seq<Exec>, s: Symbol)
    requires Traced(e, b, ps, xs) && FillAll(e, b, xs).Ok? && LedgerEq(FillAll(e, b, xs).value, b')
    requires forall p :: p in ps ==> p.symbol != s
    ensures Drift(b', s) == Drift(b, s)
  {
    hide FillAll, ExecOk, Normalized;
    FillAllDrift(e, b, xs, s);
    assert forall i :: 0 <= i < |xs| ==> xs[i].proposal.symbol != s;
  }

  /** A position stays equal to the sum of its ledger exactly when no sell leaves a remainder within the tolerance. */
  lemma ExecuteNoDriftExactly(e: Env, b: Book, ps: seq<Proposal>, rejections: seq<Rejection>)
    requires EnvOk(e) && ProposalsOk(e, ps) && ProposalsQuoted(e, ps) && NoShorts(b.positions) && NoDrift(b)
    requires Execute(e, b, ps, rejections).Ok?
    ensures NoDrift(Execute(e, b, ps, rejections).value)
       <==> forall p :: p in ps && p.side.Sell? && SellFill(e, b.positions, p).Some? ==>
              var rest := Held(b.positions, p.symbol) - SellFill(e, b.positions, p).value;
              rest == 0.0 || e.config.tolerance < rest
  {
    var b' := Execute(e, b, ps, rejections).value;
    hide Execute, SellFill, SnapshotOk, Drift;
    forall s
      ensures Drift(b', s) == -StrandedOf(e, b.positions, ps, s)
    {
      assert Drift(b, s) == 0.0;
      ExecuteDriftExactly(e, b, ps, rejections, s);
    }
    forall p | p in ps
      ensures Drift(b', p.symbol) == -Stranded(e, b.positions, p)
    {
      StrandedOfOne(e, b.positions, ps, p.symbol);
    }
    if forall p :: p in ps ==> Stranded(e, b.positions, p) == 0.0 {
      forall s
        ensures Drift(b', s) == 0.0
      {
        StrandedOfOne(e, b.positions, ps, s);
        if p :| p in ps && p.symbol == s {
          assert StrandedOf(e, b.positions, ps, s) == Stranded(e, b.positions, p);
        }
      }
    }
  }

  // ------------------------------------------------------------------- equity

  /** The drift of every listed asset at mid. */
  function MarkedDrift(assets: seq<Symbol>, b: Book, quotes: map<Symbol, Quote>): real {
    if assets == [] then 0.0
    else
      var s := assets[|assets| - 1];
      MarkedDrift(assets[..|assets| - 1], b, quotes) + (if s in quotes then Times(Drift(b, s), Mid(quotes[s])) else 0.0)
  }

  /** What an execution strands of the listed assets, at mid. */
  function MarkedStranded(e: Env, positions: map<Symbol, Position>, ps: seq<Proposal>, assets: seq<Symbol>): real
    requires ProposalsQuoted(e, ps)
  {
    if assets == [] then 0.0
    else
      var s := assets[|assets| - 1];
      MarkedStranded(e, positions, ps, assets[..|assets| - 1])
      + (if s in e.snapshot.quotes then Times(StrandedOf(e, positions, ps, s), Mid(e.snapshot.quotes[s])) else 0.0)
  }

  lemma {:induction false} MarkedSplits(assets: seq<Symbol>, b: Book, quotes: map<Symbol, Quote>)
    ensures MarkedValue(assets, b.positions, quotes) == MarkedLedger(assets, b.positionLedger, quotes) + MarkedDrift(assets, b, quotes)
  {
    if assets != [] {
      var s := assets[|assets| - 1];
      MarkedSplits(assets[..|assets| - 1], b, quotes);
      if s in quotes {
        TimesDifference(Held(b.positions, s), DeltaTotal(b.positionLedger, s), Mid(quotes[s]));
      }
    }
  }

  lemma TimesDifference(a: real, b: real, c: real)
    ensures Times(a - b, c) == Times(a, c) - Times(b, c)
  {
  }

  lemma {:induction false} MarkedDriftMoves(e: Env, b: Book, b': Book, ps: seq<Proposal>, assets: seq<Symbol>)
    requires ProposalsQuoted(e, ps)
    requires forall s :: Drift(b', s) == Drift(b, s) - StrandedOf(e, b.positions, ps, s)
    ensures MarkedDrift(assets, b', e.snapshot.quotes)
         == MarkedDrift(assets, b, e.snapshot.quotes) - MarkedStranded(e, b.positions, ps, assets)
  {
    hide StrandedOf, Drift;
    if assets != [] {
      var s := assets[|assets| - 1];
      MarkedDriftMoves(e, b, b', ps, assets[..|assets| - 1]);
      if s in e.snapshot.quotes {
        assert Drift(b', s) == Drift(b, s) - StrandedOf(e, b.positions, ps, s);
        TimesDifference(Drift(b, s), StrandedOf(e, b.positions, ps, s), Mid(e.snapshot.quotes[s]));
      }
    }
  }

  lemma {:induction false} MarkedStrandedZero(e: Env, positions: map<Symbol, Position>, ps: seq<Proposal>, assets: seq<Symbol>)
    requires EnvOk(e) && ProposalsOk(e, ps) && ProposalsQuoted(e, ps) && forall a :: a in assets ==> a in e.config.assets
    ensures 0.0 <= MarkedStranded(e, positions, ps, assets)
    ensures MarkedStranded(e, positions, ps, assets) == 0.0 <==> forall a :: a in assets ==> StrandedOf(e, positions, ps, a) == 0.0
  {
    hide StrandedOf;
    if assets != [] {
      var rest, s := assets[..|assets| - 1], assets[|assets| - 1];
      MarkedStrandedZero(e, positions, ps, rest);
      StrandedOfOne(e, positions, ps, s);
      assert QuoteOk(e.snapshot.quotes[s]);
      TimesNonneg(StrandedOf(e, positions, ps, s), Mid(e.snapshot.quotes[s]));
      assert Times(0.0, Mid(e.snapshot.quotes[s])) == 0.0;
      assert assets == rest + [s];
    }
  }

  /**
   Equity conservation for every execution whatever: stored cash and positions
   marked at mid fall by exactly the recorded costs plus the stranded remainders
   at mid, so by the costs alone exactly when nothing is stranded.
   */
  lemma ExecuteEquityExactly(e: Env, b: Book, ps: seq<Proposal>, rejections: seq<Rejection>)
    requires EnvOk(e) && ProposalsOk(e, ps) && ProposalsQuoted(e, ps) && BookOk(e.config, b)
    requires forall i :: 0 <= i < |rejections| ==> !rejections[i].reason.InsufficientCash?
    requires Execute(e, b, ps, rejections).Ok?
    ensures var b' := Execute(e, b, ps, rejections).value;
            var before, after := Equity(e.config, b, e.snapshot.quotes), Equity(e.config, b', e.snapshot.quotes);
            && |b.fills| <= |b'.fills|
            && after == before - TotalCosts(b'.fills[|b.fills|..]) - MarkedStranded(e, b.positions, ps, e.config.assets)
            && (after == before - TotalCosts(b'.fills[|b.fills|..])
                <==> forall a :: a in e.config.assets ==> StrandedOf(e, b.positions, ps, a) == 0.0)
  {
    var b' := Execute(e, b, ps, rejections).value;
    ExecuteKeepsBook(e, b, ps, rejections);
    hide Execute, StrandedOf, Drift, DriftBounded, AlignedTables, SnapshotOk;
    ExecuteConservesLedgerEquity(e, b, ps, rejections);
    MarkedSplits(e.config.assets, b, e.snapshot.quotes);
    MarkedSplits(e.config.assets, b', e.snapshot.quotes);
    forall s
      ensures Drift(b', s) == Drift(b, s) - StrandedOf(e, b.positions, ps, s)
    {
      ExecuteDriftExactly(e, b, ps, rejections, s);
    }
    MarkedDriftMoves(e, b, b', ps, e.config.assets);
    MarkedStrandedZero(e, b.positions, ps, e.config.assets);
  }

  // -------------------------------------------------------------- whole histories

  /** What one week strands of a symbol: nothing unless it commits. */
  function WeekStranded(c: Config, b: Book, w: Week, s: Symbol): real {
    if !SnapshotOk(c, w.snapshot) || w.run in b.outcomes || ExecuteWeek(c, b, w).Err? then 0.0
    else
      var e := WeekEnv(c, w);
      ProposalsAreQuoted(e, b, w.weights, |c.assets|);
      StrandedOf(e, b.positions, Proposals(e, b, w.weights, |c.assets|).proposals, s)
  }

  function TotalStranded(c: Config, weeks: seq<Week>, s: Symbol): real {
    if weeks == [] then 0.0
    else
      var earlier := weeks[..|weeks| - 1];
      TotalStranded(c, earlier, s) + WeekStranded(c, RunWeeks(c, OpenBook(c), earlier), weeks[|weeks| - 1], s)
  }

  lemma WeekDrift(c: Config, b: Book, w: Week, s: Symbol)
    requires ConfigOk(c) && BookOk(c, b)
    ensures Drift(RunWeek(c, b, w), s) == Drift(b, s) - WeekStranded(c, b, w, s)
    ensures 0.0 <= WeekStranded(c, b, w, s) <= c.tolerance
  {
    hide Drift, LedgersOk;
    if SnapshotOk(c, w.snapshot) && w.run !in b.outcomes && ExecuteWeek(c, b, w).Ok? {
      var e := WeekEnv(c, w);
      ProposalRejectionsSound(e, b, w.weights);
      var p := Proposals(e, b, w.weights, |c.assets|);
      hide Execute, Proposals, SnapshotOk, StrandedOf, BookOk;
      assert NoShorts(b.positions) by {
        BookCovered(c, b);
      }
      ExecuteDriftExactly(e, b, p.proposals, p.rejections, s);
      StrandedOfOne(e, b.positions, p.proposals, s);
    }
  }

  lemma BookCovered(c: Config, b: Book)
    requires BookOk(c, b)
    ensures NoShorts(b.positions)
  {
  }

  /**
   After any weeks whatever, each position is below the sum of its ledger by
   exactly what the sells of those weeks stranded: nothing else drifts, and
   nothing drifts back.
   */
  lemma {:induction false} DriftIsStranded(c: Config, weeks: seq<Week>, s: Symbol)
    requires ConfigOk(c)
    ensures Drift(RunWeeks(c, OpenBook(c), weeks), s) == -TotalStranded(c, weeks, s)
    ensures 0.0 <= TotalStranded(c, weeks, s)
  {
    hide BookOk, RunWeek, WeekStranded;
    if weeks == [] {
      OpenBookOk(c);
    } else {
      var earlier := weeks[..|weeks| - 1];
      DriftIsStranded(c, earlier, s);
      WeeksKeepBook(c, earlier);
      hide Drift;
      WeekDrift(c, RunWeeks(c, OpenBook(c), earlier), weeks[|weeks| - 1], s);
    }
  }

  /** Week k of a history strands nothing of the symbol. */
  predicate Clears(c: Config, weeks: seq<Week>, k: nat, s: Symbol)
    requires k < |weeks|
  {
    WeekStranded(c, RunWeeks(c, OpenBook(c), weeks[..k]), weeks[k], s) == 0.0
  }

  lemma ClearsPrefix(c: Config, weeks: seq<Week>, n: nat, k: nat, s: Symbol)
    requires k < n <= |weeks|
    ensures Clears(c, weeks[..n], k, s) == Clears(c, weeks, k, s)
  {
    assert weeks[..n][..k] == weeks[..k];
  }

  lemma {:induction false} TotalStrandedZero(c: Config, weeks: seq<Week>, s: Symbol)
    requires ConfigOk(c)
    ensures TotalStranded(c, weeks, s) == 0.0 <==> forall k :: 0 <= k < |weeks| ==> Clears(c, weeks, k, s)
  {
    hide WeekStranded, Clears, RunWeeks;
    if weeks != [] {
      var n := |weeks| - 1;
      var earlier := weeks[..n];
      TotalStrandedZero(c, earlier, s);
      forall k | 0 <= k < n
        ensures Clears(c, earlier, k, s) == Clears(c, weeks, k, s)
      {
        ClearsPrefix(c, weeks, n, k, s);
      }
      LastStranded(c, weeks, s);
    }
  }

  lemma LastStranded(c: Config, weeks: seq<Week>, s: Symbol)
    requires ConfigOk(c) && weeks != []
    ensures var n := |weeks| - 1;
            && 0.0 <= TotalStranded(c, weeks[..n], s) <= TotalStranded(c, weeks, s)
            && (TotalStranded(c, weeks, s) == TotalStranded(c, weeks[..n], s) <==> Clears(c, weeks, n, s))
  {
    hide WeekStranded, RunWeeks;
    var n := |weeks| - 1;
    DriftIsStranded(c, weeks[..n], s);
    WeeksKeepBook(c, weeks[..n]);
    WeekDrift(c, RunWeeks(c, OpenBook(c), weeks[..n]), weeks[n], s);
  }

  /** Positions equal their ledgers after any weeks exactly when no week stranded anything. */
  lemma NoDriftExactly(c: Config, weeks: seq<Week>)
    requires ConfigOk(c)
    ensures NoDrift(RunWeeks(c, OpenBook(c), weeks)) <==> forall k, s :: 0 <= k < |weeks| ==> Clears(c, weeks, k, s)
  {
    hide Clears, RunWeeks, TotalStranded;
    var b := RunWeeks(c, OpenBook(c), weeks);
    if NoDrift(b) {
      forall k, s | 0 <= k < |weeks|
        ensures Clears(c, weeks, k, s)
      {
        assert Drift(b, s) == 0.0;
        DriftIsStranded(c, weeks, s);
        TotalStrandedZero(c, weeks, s);
      }
    }
    if forall k, s :: 0 <= k < |weeks| ==> Clears(c, weeks, k, s) {
      forall s
        ensures Drift(b, s) == 0.0
      {
        DriftIsStranded(c, weeks, s);
        TotalStrandedZero(c, weeks, s);
      }
    }
  }

  /** What the weeks stranded of each symbol sums to at most the tolerance. */
  ghost predicate StrandedWithin(c: Config, weeks: seq<Week>) {
    forall s :: TotalStranded(c, weeks, s) <= c.tolerance
  }

  /** The audit accepts the positions after any weeks exactly when the stranded remainders of each symbol sum to at most the tolerance. */
  lemma PositionsReconcileExactly(c: Config, weeks: seq<Week>)
    requires ConfigOk(c)
    ensures PositionsReconcile(c, RunWeeks(c, OpenBook(c), weeks)) <==> StrandedWithin(c, weeks)
  {
    var b := RunWeeks(c, OpenBook(c), weeks);
    hide RunWeeks, TotalStranded, LedgersOk, Drift;
    WeeksKeepBook(c, weeks);
    if PositionsReconcile(c, b) {
      forall s
        ensures TotalStranded(c, weeks, s) <= c.tolerance
      {
        DriftIsStranded(c, weeks, s);
        if i :| 0 <= i < |b.positionLedger| && b.positionLedger[i].symbol == s {
          assert PositionReconciles(c, b, b.positionLedger[i].symbol);
        } else if s !in b.positions {
          NoRowsNoDrift(c, b, s);
        }
      }
    }
    if StrandedWithin(c, weeks) {
      forall s
        ensures PositionReconciles(c, b, s)
      {
        DriftIsStranded(c, weeks, s);
      }
      assert PositionsReconcile(c, b);
    }
  }

  lemma NoRowsNoDrift(c: Config, b: Book, s: Symbol)
    requires ConfigOk(c) && s !in b.positions && forall i :: 0 <= i < |b.positionLedger| ==> b.positionLedger[i].symbol != s
    ensures PositionReconciles(c, b, s)
  {
    NoRowsNoDelta(b.positionLedger, s);
  }

  lemma {:induction false} NoRowsNoDelta(rows: seq<PositionRow>, s: Symbol)
    requires forall i :: 0 <= i < |rows| ==> rows[i].symbol != s
    ensures DeltaTotal(rows, s) == 0.0
  {
    if rows != [] {
      NoRowsNoDelta(rows[..|rows| - 1], s);
    }
  }

  // ------------------------------------------------------------- a drifting account

  /** One asset, no costs, no exchange rules. */
  function PlainConfig(tolerance: real): Config {
    Config([0], 100.0, 0.0, 0.0, 0.0, tolerance, false, false)
  }

  function PlainWeek(run: RunId, weight: real): Week {
    Week(Snapshot(map[0 := Quote(1.0, 1.0, Fin(1.0))], map[], map[], map[]), run, run, map[0 := weight])
  }

  lemma PlainTerms(tolerance: real, run: RunId, weight: real, side: Side)
    requires 0.0 < tolerance < 1.0
    ensures var e := WeekEnv(PlainConfig(tolerance), PlainWeek(run, weight));
            && EnvOk(e) && 0 in e.snapshot.quotes && Mid(e.snapshot.quotes[0]) == 1.0
            && ExecutionTerms(e.config, e.snapshot.quotes[0], side) == Terms(1.0, 1.0, 1.0)
            && CheckEvidence(e.config, e.snapshot).Ok?
            && forall q :: tolerance < q ==> NormalizeFor(e, 0, q) == Accepted(q)
  {
  }

  /** The one proposal of a plain week, when its target is further than the tolerance. */
  lemma PlainProposal(b: Book, tolerance: real, run: RunId, weight: real, delta: real)
    requires 0.0 < tolerance < 1.0 && tolerance < Abs(delta)
    requires delta == Times(b.cash + Held(b.positions, 0), weight) - Held(b.positions, 0)
    ensures var e := WeekEnv(PlainConfig(tolerance), PlainWeek(run, weight));
            && SnapshotOk(e.config, e.snapshot)
            && Proposals(e, b, PlainWeek(run, weight).weights, 1)
               == Proposed([Proposal(Key(run, 0), 0, if delta > 0.0 then Buy else Sell, Abs(delta), weight)], [])
  {
    var e := WeekEnv(PlainConfig(tolerance), PlainWeek(run, weight));
    PlainTerms(tolerance, run, weight, Buy);
    hide NormalizeFor, CheckEvidence, ExecutionTerms;
    assert [0][..0] == [];
    assert MarkedValue([], b.positions, e.snapshot.quotes) == 0.0;
    assert MarkedValue([0], b.positions, e.snapshot.quotes) == Times(Held(b.positions, 0), 1.0);
    assert Equity(e.config, b, e.snapshot.quotes) == b.cash + Held(b.positions, 0);
    assert TargetDelta(e, b, PlainWeek(run, weight).weights, 0) == delta;
  }

  lemma OnSideOne(p: Proposal)
    ensures OnSide([p], Sell) == (if p.side.Sell? then [p] else [])
    ensures OnSide([p], Buy) == (if p.side.Buy? then [p] else [])
  {
    assert [p][..0] == [];
    assert OnSide([], Sell) == [] && OnSide([], Buy) == [];
  }

  lemma PlainBuy(b: Book, tolerance: real, run: RunId, weight: real, q: real)
    requires 0.0 < tolerance < q && tolerance < 1.0 && b.cash == q && b.positions == map[] && !KeyUsed(b.orders, Key(run, 0))
    ensures var e := WeekEnv(PlainConfig(tolerance), PlainWeek(run, weight));
            var p := Proposal(Key(run, 0), 0, Buy, q, weight);
            && SnapshotOk(e.config, e.snapshot) && ProposalsQuoted(e, [p])
            && Execute(e, b, [p], []).Ok?
            && var b' := Execute(e, b, [p], []).value;
               && b'.cash == 0.0 && Held(b'.positions, 0) == q && Drift(b', 0) == Drift(b, 0)
               && b'.outcomes.Keys == b.outcomes.Keys + {run}
               && b'.orders == b.orders + [Order(Key(run, 0), run, 0, Buy, q, weight)]
  {
    var e := WeekEnv(PlainConfig(tolerance), PlainWeek(run, weight));
    var p := Proposal(Key(run, 0), 0, Buy, q, weight);
    PlainTerms(tolerance, run, weight, Buy);
    hide NormalizeFor, CheckEvidence, ExecutionTerms, StageEvidence, MarkedValue, Execute, ExecuteBuys, Drift;
    SoleBuy(e, b, p);
    StagedLedgers(e, b, [p]);
    PlainFill(e, StageEvidence(e, b, [p], []), Exec(p, q, Terms(1.0, 1.0, 1.0)));
  }

  /** Executing one buy alone is filling it and settling. */
  lemma SoleBuy(e: Env, b: Book, p: Proposal)
    requires SnapshotOk(e.config, e.snapshot) && p.symbol in e.snapshot.quotes && p.side.Buy?
    requires CheckEvidence(e.config, e.snapshot).Ok? && !e.config.requireRangeEvidence
    ensures ProposalsQuoted(e, [p])
    ensures var bought := ExecuteBuys(e, StageEvidence(e, b, [p], []), [Exec(p, p.requested, TermsFor(e, p))]);
            bought.Ok? && 0.0 <= bought.value.cash ==>
              Execute(e, b, [p], []) == Ok(Settle(e, bought.value, |bought.value.rejections| - |b.rejections|))
  {
    hide CheckEvidence, StageEvidence, Settle, ExecuteBuys, PlanBuy;
    var staged := StageEvidence(e, b, [p], []);
    OnSideOne(p);
    var sells, buys := OnSide([p], Sell), OnSide([p], Buy);
    hide OnSide;
    PlanBuyPlain(e, Work(staged, []), p);
    assert PlanSells(e, b.positions, staged, sells, 0) == Ok(Work(staged, []));
    assert PlanBuys(e, staged, buys, 0) == Ok(Work(staged, []));
    assert PlanBuys(e, staged, buys, 1) == PlanBuy(e, Work(staged, []), p);
    assert [] + [Exec(p, p.requested, TermsFor(e, p))] == [Exec(p, p.requested, TermsFor(e, p))];
    assert FillAll(e, staged, []) == Ok(staged);
  }

  lemma StagedLedgers(e: Env, b: Book, ps: seq<Proposal>)
    requires SnapshotOk(e.config, e.snapshot) && ProposalsQuoted(e, ps)
    ensures LedgerEq(StageEvidence(e, b, ps, []), b) && StageEvidence(e, b, ps, []).outcomes == b.outcomes
  {
  }

  lemma PlanBuyPlain(e: Env, w: Work, p: Proposal)
    requires p.symbol in e.snapshot.quotes && !e.config.requireRangeEvidence
    ensures PlanBuy(e, w, p) == Ok(Work(w.book, w.execs + [Exec(p, p.requested, TermsFor(e, p))]))
  {
  }

  /** A sole buy for all the cash is filled in full. */
  lemma PlainFill(e: Env, b: Book, x: Exec)
    requires e.config.feeRate == 0.0 && x.terms == Terms(1.0, 1.0, 1.0) && x.quantity == b.cash && x.proposal.side.Buy?
    requires x.proposal.symbol in e.snapshot.quotes && NormalizeFor(e, x.proposal.symbol, x.quantity) == Accepted(x.quantity)
    requires 0.0 < e.config.tolerance < x.quantity && b.positions == map[] && !KeyUsed(b.orders, x.proposal.key)
    ensures ExecuteBuys(e, b, [x]) == PersistFill(e, b, x)
    ensures PersistFill(e, b, x).Ok? && PersistFill(e, b, x).value.cash == 0.0
    ensures Drift(PersistFill(e, b, x).value, x.proposal.symbol) == Drift(b, x.proposal.symbol)
  {
    PlainPersist(e, b, x);
    hide NormalizeFor, PersistFill, Drift;
    assert [x][..0] == [];
    assert Required(e.config, []) == 0.0;
    assert CostOf(e.config, x) == x.quantity;
    assert Required(e.config, [x]) == x.quantity;
    WholeScale(x.quantity);
    assert FillBuys(e, 1.0, b, [x], 0) == Ok(b);
    assert FillBuys(e, 1.0, b, [x], 1) == FillBuy(e, 1.0, b, x);
    assert x.(quantity := x.quantity) == x;
  }

  lemma WholeScale(q: real)
    requires 0.0 < q
    ensures BuyScale(q, q) == 1.0 && Times(q, 1.0) == q
  {
  }

  lemma PlainPersist(e: Env, b: Book, x: Exec)
    requires e.config.feeRate == 0.0 && x.terms == Terms(1.0, 1.0, 1.0) && x.quantity == b.cash && x.proposal.side.Buy?
    requires 0.0 < e.config.tolerance < x.quantity && b.positions == map[] && !KeyUsed(b.orders, x.proposal.key)
    ensures PersistFill(e, b, x).Ok? && PersistFill(e, b, x).value.cash == 0.0
    ensures Drift(PersistFill(e, b, x).value, x.proposal.symbol) == Drift(b, x.proposal.symbol)
    ensures Held(PersistFill(e, b, x).value.positions, x.proposal.symbol) == x.quantity
  {
    FillDrift(e, b, x, x.proposal.symbol);
  }

  lemma PlainSell(b: Book, tolerance: real, run: RunId, weight: real, q: real)
    requires 0.0 < tolerance < q && tolerance < 1.0 && 0.0 <= b.cash && NoShorts(b.positions) && !KeyUsed(b.orders, Key(run, 0))
    ensures var e := WeekEnv(PlainConfig(tolerance), PlainWeek(run, weight));
            var p := Proposal(Key(run, 0), 0, Sell, q, weight);
            && SnapshotOk(e.config, e.snapshot) && ProposalsQuoted(e, [p]) && Execute(e, b, [p], []).Ok?
  {
    var e := WeekEnv(PlainConfig(tolerance), PlainWeek(run, weight));
    var p := Proposal(Key(run, 0), 0, Sell, q, weight);
    PlainTerms(tolerance, run, weight, Sell);
    hide NormalizeFor, CheckEvidence, ExecutionTerms, Execute;
    EvidenceExactly(e.config, e.snapshot);
    ExecuteCommitsExactly(e, b, [p], []);
  }

  lemma PlainStranded(positions: map<Symbol, Position>, tolerance: real, run: RunId, weight: real, q: real)
    requires 0.0 < tolerance < q && tolerance < 1.0 && q <= Held(positions, 0) <= q + tolerance
    ensures var e := WeekEnv(PlainConfig(tolerance), PlainWeek(run, weight));
            var p := Proposal(Key(run, 0), 0, Sell, q, weight);
            ProposalsQuoted(e, [p]) && StrandedOf(e, positions, [p], 0) == Held(positions, 0) - q
  {
    var e := WeekEnv(PlainConfig(tolerance), PlainWeek(run, weight));
    var p := Proposal(Key(run, 0), 0, Sell, q, weight);
    PlainTerms(tolerance, run, weight, Sell);
    hide NormalizeFor, ExecutionTerms;
    assert [p][..0] == [];
    assert SellFill(e, positions, p) == Some(q);
    assert StrandedOf(e, positions, [], 0) == 0.0;
  }

  lemma PlainFirstWeek(tolerance: real)
    requires 0.0 < tolerance < 1.0
    ensures var c := PlainConfig(tolerance);
            var b := RunWeek(c, OpenBook(c), PlainWeek(1, 1.0));
            && ConfigOk(c) && BookOk(c, b) && b.cash == 0.0 && Held(b.positions, 0) == 100.0 && Drift(b, 0) == 0.0
            && b.outcomes.Keys == {1} && !KeyUsed(b.orders, Key(2, 0))
  {
    var c := PlainConfig(tolerance);
    var b := OpenBook(c);
    hide Execute, Proposals, BookOk;
    OpenBookOk(c);
    PlainProposal(b, tolerance, 1, 1.0, 100.0);
    PlainBuy(b, tolerance, 1, 1.0, 100.0);
    RunWeekKeepsBook(c, b, PlainWeek(1, 1.0));
    assert Drift(b, 0) == 0.0;
  }

  lemma PlainSecondWeek(b: Book, tolerance: real)
    requires 0.0 < tolerance < 1.0 && BookOk(PlainConfig(tolerance), b)
    requires b.cash == 0.0 && Held(b.positions, 0) == 100.0 && 2 !in b.outcomes && !KeyUsed(b.orders, Key(2, 0))
    ensures var c := PlainConfig(tolerance);
            Drift(RunWeek(c, b, PlainWeek(2, Times(0.009, tolerance))), 0) == Drift(b, 0) - Times(0.9, tolerance)
  {
    var c, weight, left := PlainConfig(tolerance), Times(0.009, tolerance), Times(0.9, tolerance);
    hide Execute, Proposals, Drift, StrandedOf, BookOk, LedgersOk;
    assert NoShorts(b.positions) by {
      BookCovered(c, b);
    }
    PlainProposal(b, tolerance, 2, weight, left - 100.0);
    PlainSell(b, tolerance, 2, weight, 100.0 - left);
    PlainStranded(b.positions, tolerance, 2, weight, 100.0 - left);
    WeekDrift(c, b, PlainWeek(2, weight), 0);
  }

  /**
   The drift is real: an account that buys an asset with all its cash and the
   next week sells down to nine tenths of the tolerance stores a position that
   far below the sum of its ledger.
   */
  lemma SnapDrifts(tolerance: real)
    requires 0.0 < tolerance < 1.0
    ensures var c := PlainConfig(tolerance);
            var weeks := [PlainWeek(1, 1.0), PlainWeek(2, Times(0.009, tolerance))];
            ConfigOk(c) && Drift(RunWeeks(c, OpenBook(c), weeks), 0) == -Times(0.9, tolerance)
  {
    var c := PlainConfig(tolerance);
    var w1, w2 := PlainWeek(1, 1.0), PlainWeek(2, Times(0.009, tolerance));
    var b := RunWeek(c, OpenBook(c), w1);
    hide RunWeek, Drift, BookOk;
    PlainFirstWeek(tolerance);
    PlainSecondWeek(b, tolerance);
    var weeks := [w1, w2];
    assert [w1][..0] == [] && weeks[..|weeks| - 1] == [w1];
    assert RunWeeks(c, OpenBook(c), []) == OpenBook(c);
    assert RunWeeks(c, OpenBook(c), [w1]) == b;
  }
}
