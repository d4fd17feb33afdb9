/**
 What a week's proposals are for, in units of the quote currency: each one moves
 its asset's holding to the target share of what the account is worth.
 */
module BrokerTargets {
  import opened Common
  import opened Numbers
  import opened Quantities
  import opened Broker
  import opened BrokerSolvency

  /** A quantity of the asset valued halfway between bid and ask. */
  function AtMiddle(quotes: map<Symbol, Quote>, a: Symbol, quantity: real): real
    requires a in quotes
  {
    quantity * ((quotes[a].bid + quotes[a].ask) / 2.0)
  }

  function Quantity(positions: map<Symbol, Position>, a: Symbol): real {
    if a in positions then positions[a].quantity else 0.0
  }

  /** The holdings of the listed assets, valued halfway between bid and ask. */
  function HoldingsWorth(assets: seq<Symbol>, positions: map<Symbol, Position>, quotes: map<Symbol, Quote>): real
    requires forall a :: a in assets ==> a in quotes
  {
    if assets == [] then 0.0
    else
      var a := assets[|assets| - 1];
      HoldingsWorth(assets[..|assets| - 1], positions, quotes) + AtMiddle(quotes, a, Quantity(positions, a))
  }

  /** What the asset should be worth: its weight of cash and holdings; an asset without a weight should be worth nothing. */
  function TargetWorth(e: Env, b: Book, weights: map<Symbol, real>, a: Symbol): real
    requires EnvOk(e)
  {
    if a in weights then (b.cash + HoldingsWorth(e.config.assets, b.positions, e.snapshot.quotes)) * weights[a] else 0.0
  }

  /** Trading q on this side makes the holding worth its target exactly. */
  ghost predicate HitsTarget(e: Env, b: Book, weights: map<Symbol, real>, a: Symbol, side: Side, q: real)
    requires EnvOk(e) && a in e.config.assets
  {
    var held := Quantity(b.positions, a);
    AtMiddle(e.snapshot.quotes, a, if side == Buy then held + q else held - q) == TargetWorth(e, b, weights, a)
  }

  /** The holding is worth its target up to the tolerance's worth of the asset. */
  ghost predicate NearTarget(e: Env, b: Book, weights: map<Symbol, real>, a: Symbol)
    requires EnvOk(e) && a in e.config.assets
  {
    var worth, target := AtMiddle(e.snapshot.quotes, a, Quantity(b.positions, a)), TargetWorth(e, b, weights, a);
    var slack := AtMiddle(e.snapshot.quotes, a, e.config.tolerance);
    target - slack <= worth <= target + slack
  }

  predicate Proposed(ps: seq<Proposal>, a: Symbol) {
    exists i :: 0 <= i < |ps| && ps[i].symbol == a
  }

  predicate Refused(rs: seq<Rejection>, a: Symbol) {
    exists i :: 0 <= i < |rs| && rs[i].symbol == a
  }

  // ------------------------------------------------------------- one asset

  lemma {:induction false} WorthIsMarked(assets: seq<Symbol>, positions: map<Symbol, Position>, quotes: map<Symbol, Quote>)
    requires forall a :: a in assets ==> a in quotes
    ensures HoldingsWorth(assets, positions, quotes) == MarkedValue(assets, positions, quotes)
  {
    if assets != [] {
      WorthIsMarked(assets[..|assets| - 1], positions, quotes);
    }
  }

  lemma DeltaIs(e: Env, b: Book, weights: map<Symbol, real>, a: Symbol)
    requires EnvOk(e) && a in e.config.assets
    ensures var mid := (e.snapshot.quotes[a].bid + e.snapshot.quotes[a].ask) / 2.0;
            && 0.0 < mid && TargetDelta(e, b, weights, a) == TargetWorth(e, b, weights, a) / mid - Quantity(b.positions, a)
  {
    WorthIsMarked(e.config.assets, b.positions, e.snapshot.quotes);
    assert QuoteOk(e.snapshot.quotes[a]);
    hide MarkedValue, HoldingsWorth;
    var worth := b.cash + HoldingsWorth(e.config.assets, b.positions, e.snapshot.quotes);
    assert Equity(e.config, b, e.snapshot.quotes) == worth;
    var weight := if a in weights then weights[a] else 0.0;
    assert Times(worth, weight) == TargetWorth(e, b, weights, a) by {
      assert Times(worth, 0.0) == 0.0;
    }
    assert TargetDelta(e, b, weights, a) == Times(worth, weight) / Mid(e.snapshot.quotes[a]) - Held(b.positions, a);
  }

  lemma DeltaReaches(e: Env, b: Book, weights: map<Symbol, real>, a: Symbol)
    requires EnvOk(e) && a in e.config.assets
    ensures var delta := TargetDelta(e, b, weights, a);
            && AtMiddle(e.snapshot.quotes, a, Quantity(b.positions, a) + delta) == TargetWorth(e, b, weights, a)
            && (Abs(delta) <= e.config.tolerance <==> NearTarget(e, b, weights, a))
  {
    DeltaIs(e, b, weights, a);
    hide TargetDelta, TargetWorth, Quantity;
    var mid := (e.snapshot.quotes[a].bid + e.snapshot.quotes[a].ask) / 2.0;
    MoveReaches(TargetWorth(e, b, weights, a), mid, Quantity(b.positions, a), TargetDelta(e, b, weights, a), e.config.tolerance);
  }

  // ---------------------------------------------------------------- one week

  /** A proposal is the exchange-rule form of the trade that hits the target; where no rules apply it is that trade. */
  ghost predicate ProposalHits(e: Env, b: Book, weights: map<Symbol, real>, p: Proposal)
    requires EnvOk(e)
  {
    && p.symbol in e.config.assets && p.key == Key(e.signal, p.symbol)
    && p.targetWeight == (if p.symbol in weights then weights[p.symbol] else 0.0)
    && (exists q :: e.config.tolerance < q && HitsTarget(e, b, weights, p.symbol, p.side, q)
                    && NormalizeFor(e, p.symbol, q) == Accepted(p.requested))
    && (p.symbol !in e.snapshot.rules ==> HitsTarget(e, b, weights, p.symbol, p.side, p.requested))
  }

  /** A refusal records the trade that would have hit the target, its worth, and the rules' reason. */
  ghost predicate RefusalHits(e: Env, b: Book, weights: map<Symbol, real>, r: Rejection)
    requires EnvOk(e)
  {
    && r.symbol in e.config.assets && r.run == e.run && r.key == Key(e.signal, r.symbol) && r.stage == ProposalStage
    && e.config.tolerance < r.requested && HitsTarget(e, b, weights, r.symbol, r.side, r.requested)
    && NormalizeFor(e, r.symbol, r.requested) == Rejected(r.reason)
    && r.notional == AtMiddle(e.snapshot.quotes, r.symbol, r.requested)
  }

  ghost predicate HitsAll(e: Env, b: Book, weights: map<Symbol, real>, ps: seq<Proposal>, rs: seq<Rejection>)
    requires EnvOk(e)
  {
    && (forall i :: 0 <= i < |ps| ==> ProposalHits(e, b, weights, ps[i]))
    && forall i :: 0 <= i < |rs| ==> RefusalHits(e, b, weights, rs[i])
  }

  lemma StepHits(e: Env, b: Book, weights: map<Symbol, real>, a: Symbol, acc: Broker.Proposed)
    requires EnvOk(e) && a in e.config.assets && HitsAll(e, b, weights, acc.proposals, acc.rejections)
    ensures var next := ProposeStep(e, b, weights, a, acc);
            && HitsAll(e, b, weights, next.proposals, next.rejections)
            && (forall s :: Proposed(next.proposals, s) || Refused(next.rejections, s)
                  <==> Proposed(acc.proposals, s) || Refused(acc.rejections, s) || (s == a && !NearTarget(e, b, weights, a)))
            && |next.proposals| + |next.rejections|
               == |acc.proposals| + |acc.rejections| + (if NearTarget(e, b, weights, a) then 0 else 1)
  {
    DeltaReaches(e, b, weights, a);
    var delta := TargetDelta(e, b, weights, a);
    var next := ProposeStep(e, b, weights, a, acc);
    hide TargetDelta, TargetWorth, NearTarget, SnapshotOk;
    if Abs(delta) > e.config.tolerance {
      var side := if delta > 0.0 then Buy else Sell;
      var q := Abs(delta);
      assert HitsTarget(e, b, weights, a, side, q);
      StepAdds(e, b, weights, a, acc, side, q);
    }
  }

  lemma StepAdds(e: Env, b: Book, weights: map<Symbol, real>, a: Symbol, acc: Broker.Proposed, side: Side, q: real)
    requires EnvOk(e) && a in e.config.assets && HitsAll(e, b, weights, acc.proposals, acc.rejections)
    requires e.config.tolerance < q && HitsTarget(e, b, weights, a, side, q)
    requires q == Abs(TargetDelta(e, b, weights, a)) && side == if TargetDelta(e, b, weights, a) > 0.0 then Buy else Sell
    ensures var next := ProposeStep(e, b, weights, a, acc);
            && HitsAll(e, b, weights, next.proposals, next.rejections)
            && (forall s :: Proposed(next.proposals, s) || Refused(next.rejections, s)
                  <==> Proposed(acc.proposals, s) || Refused(acc.rejections, s) || s == a)
            && |next.proposals| + |next.rejections| == |acc.proposals| + |acc.rejections| + 1
  {
    hide TargetDelta, HitsTarget, TargetWorth, Normalize;
    var next := ProposeStep(e, b, weights, a, acc);
    match NormalizeFor(e, a, q)
    case Accepted(n) =>
      var p := next.proposals[|acc.proposals|];
      assert next.proposals == acc.proposals + [p] && next.rejections == acc.rejections;
      assert ProposalHits(e, b, weights, p) by {
        NoRulesNoChange(e, a, q);
      }
      assert Proposed(next.proposals, a);
      assert forall s :: Proposed(acc.proposals, s) ==> Proposed(next.proposals, s) by {
        Extends(acc.proposals, p);
      }
    case Rejected(reason) =>
      var r := next.rejections[|acc.rejections|];
      assert next.rejections == acc.rejections + [r] && next.proposals == acc.proposals;
      assert RefusalHits(e, b, weights, r);
      assert Refused(next.rejections, a);
      assert forall s :: Refused(acc.rejections, s) ==> Refused(next.rejections, s) by {
        RefusedExtends(acc.rejections, r);
      }
  }

  lemma Extends(ps: seq<Proposal>, p: Proposal)
    ensures forall s :: Proposed(ps, s) ==> Proposed(ps + [p], s)
  {
    forall s | Proposed(ps, s)
      ensures Proposed(ps + [p], s)
    {
      var i :| 0 <= i < |ps| && ps[i].symbol == s;
      assert (ps + [p])[i].symbol == s;
    }
  }

  lemma RefusedExtends(rs: seq<Rejection>, r: Rejection)
    ensures forall s :: Refused(rs, s) ==> Refused(rs + [r], s)
  {
    forall s | Refused(rs, s)
      ensures Refused(rs + [r], s)
    {
      var i :| 0 <= i < |rs| && rs[i].symbol == s;
      assert (rs + [r])[i].symbol == s;
    }
  }

  lemma NoRulesNoChange(e: Env, a: Symbol, q: real)
    requires a in e.snapshot.quotes
    ensures a !in e.snapshot.rules && NormalizeFor(e, a, q).Accepted? ==> NormalizeFor(e, a, q) == Accepted(q)
  {
  }

  /** How many of the listed assets are away from their targets. */
  ghost function AwayCount(e: Env, b: Book, weights: map<Symbol, real>, n: nat): nat
    requires EnvOk(e) && n <= |e.config.assets|
  {
    if n == 0 then 0
    else AwayCount(e, b, weights, n - 1) + (if NearTarget(e, b, weights, e.config.assets[n - 1]) then 0 else 1)
  }

  lemma {:induction false} ProposalsHit(e: Env, b: Book, weights: map<Symbol, real>, n: nat)
    requires EnvOk(e) && n <= |e.config.assets|
    ensures var r := Proposals(e, b, weights, n);
            && HitsAll(e, b, weights, r.proposals, r.rejections)
            && (forall s :: Proposed(r.proposals, s) || Refused(r.rejections, s)
                  <==> s in e.config.assets[..n] && !NearTarget(e, b, weights, s))
            && |r.proposals| + |r.rejections| == AwayCount(e, b, weights, n)
  {
    hide ProposeStep, HitsAll, Proposed, Refused, NearTarget, SnapshotOk;
    if n == 0 {
      NothingHits(e, b, weights);
    } else {
      ProposalsHit(e, b, weights, n - 1);
      StepHits(e, b, weights, e.config.assets[n - 1], Proposals(e, b, weights, n - 1));
      assert e.config.assets[..n] == e.config.assets[..n - 1] + [e.config.assets[n - 1]];
    }
  }

  lemma NothingHits(e: Env, b: Book, weights: map<Symbol, real>)
    requires EnvOk(e)
    ensures HitsAll(e, b, weights, [], [])
    ensures forall s :: !Proposed([], s) && !Refused([], s)
  {
  }

  /**
   The sizing of a week, exactly.  Every proposal and every refusal is about the
   trade after which the asset, at the middle of its quote, is worth its weight of
   cash plus holdings; an asset gets one of the two if and only if it is not worth
   its target already, up to the tolerance's worth, and never both.
   */
  lemma WeekHitsTargets(e: Env, b: Book, weights: map<Symbol, real>)
    requires EnvOk(e)
    ensures var r := Proposals(e, b, weights, |e.config.assets|);
            && (forall i :: 0 <= i < |r.proposals| ==> ProposalHits(e, b, weights, r.proposals[i]))
            && (forall i :: 0 <= i < |r.rejections| ==> RefusalHits(e, b, weights, r.rejections[i]))
            && (forall a :: a in e.config.assets ==>
                  (Proposed(r.proposals, a) || Refused(r.rejections, a) <==> !NearTarget(e, b, weights, a)))
            && |r.proposals| + |r.rejections| == AwayCount(e, b, weights, |e.config.assets|)
  {
    ProposalsHit(e, b, weights, |e.config.assets|);
    assert e.config.assets[..|e.config.assets|] == e.config.assets;
  }

  /** What a configuration may be: any positive capital, rates from zero, and range evidence only with rules. */
  lemma ConfigsExactly(c: Config)
    requires Distinct(c.assets)
    ensures ConfigOk(c)
       <==> && c.initialCash > 0.0 && c.tolerance > 0.0 && c.tolerance < 1.0
            && c.feeRate >= 0.0 && c.feeRate < 1.0 && c.spreadRate >= 0.0 && c.spreadRate < 1.0
            && c.slippageRate >= 0.0 && c.slippageRate < 1.0
            && !(c.requireRangeEvidence && !c.requireRules)
  {
  }
}
