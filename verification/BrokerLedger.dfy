/**
 The accounting identities: cash is the sum of the cash ledger, each position the
 sum of its position ledger up to the snap-to-zero drift, and marked equity falls
 by exactly the recorded costs.
 */
module BrokerLedger {
  import opened Common
  import opened Numbers
  import opened Grid
  import opened Quantities
  import opened Broker
  import opened BrokerSolvency
  import opened BrokerTrace

  function CashTotal(rows: seq<CashRow>): real {
    if rows == [] then 0.0
    else CashTotal(rows[..|rows| - 1]) + rows[|rows| - 1].amount
  }

  function DeltaTotal(rows: seq<PositionRow>, s: Symbol): real {
    if rows == [] then 0.0
    else DeltaTotal(rows[..|rows| - 1], s) + (if rows[|rows| - 1].symbol == s then rows[|rows| - 1].delta else 0.0)
  }

  function RowCount(rows: seq<PositionRow>, s: Symbol): nat {
    if rows == [] then 0
    else RowCount(rows[..|rows| - 1], s) + (if rows[|rows| - 1].symbol == s then 1 else 0)
  }

  /** How far the stored position is from the sum of its ledger. */
  function Drift(b: Book, s: Symbol): real {
    Held(b.positions, s) - DeltaTotal(b.positionLedger, s)
  }

  /** The four rows of one fill, in their tables at the same place. */
  predicate RowsMatch(o: Order, f: Fill, c: CashRow, p: PositionRow) {
    && o.key == f.key == p.key && c.event == FillCash(o.key)
    && o.run == f.run == p.run && c.run == Some(o.run)
    && o.symbol == f.symbol == p.symbol && o.side == f.side
    && o.requested == f.quantity
    && c.amount == CashDelta(f) && p.delta == QuantityDelta(f)
  }

  predicate DistinctKeys(orders: seq<Order>) {
    forall i, j :: 0 <= i < j < |orders| ==> orders[i].key != orders[j].key
  }

  predicate AlignedTables(b: Book) {
    && |b.orders| == |b.fills| == |b.positionLedger| && |b.cashLedger| == |b.fills| + 1
    && b.cashLedger[0].event.InitialCapital?
    && DistinctKeys(b.orders)
    && forall i :: 0 <= i < |b.orders| ==>
         RowsMatch(b.orders[i], b.fills[i], b.cashLedger[i + 1], b.positionLedger[i])
  }

  predicate Fresh(orders: seq<Order>, key: Key) {
    forall i :: 0 <= i < |orders| ==> orders[i].key != key
  }

  lemma PersistFillAligned(e: Env, b: Book, x: Exec)
    requires AlignedTables(b) && PersistFill(e, b, x).Ok?
    ensures var b' := PersistFill(e, b, x).value;
            && AlignedTables(b')
            && b'.orders[..|b.orders|] == b.orders && b'.fills == b.fills + [FillOf(e, x)]
            && b'.orders == b.orders + [Order(x.proposal.key, e.run, x.proposal.symbol, x.proposal.side, x.quantity, x.proposal.targetWeight)]
  {
    var b' := PersistFill(e, b, x).value;
    assert Fresh(b.orders, x.proposal.key);
    forall i | 0 <= i < |b'.orders|
      ensures RowsMatch(b'.orders[i], b'.fills[i], b'.cashLedger[i + 1], b'.positionLedger[i])
    {
      if i < |b.orders| {
        assert RowsMatch(b.orders[i], b.fills[i], b.cashLedger[i + 1], b.positionLedger[i]);
      }
    }
  }

  /** One fill keeps cash on its ledger and moves the drift by the snap alone, at most the tolerance. */
  lemma PersistFillDrift(e: Env, b: Book, x: Exec, s: Symbol)
    requires ConfigOk(e.config) && PersistFill(e, b, x).Ok?
    ensures var b' := PersistFill(e, b, x).value;
            && (b.cash == CashTotal(b.cashLedger) ==> b'.cash == CashTotal(b'.cashLedger))
            && RowCount(b'.positionLedger, s) == RowCount(b.positionLedger, s) + (if s == x.proposal.symbol then 1 else 0)
            && DeltaTotal(b'.positionLedger, s)
               == DeltaTotal(b.positionLedger, s) + (if s == x.proposal.symbol then QuantityDelta(FillOf(e, x)) else 0.0)
            && Abs(Drift(b', s) - Drift(b, s)) <= (if s == x.proposal.symbol then e.config.tolerance else 0.0)
  {
    hide CashDelta;
    var b' := PersistFill(e, b, x).value;
    assert b'.cashLedger[..|b.cashLedger|] == b.cashLedger;
    assert b'.positionLedger[..|b.positionLedger|] == b.positionLedger;
  }

  // --------------------------------------------------------------- invariants

  /** Bookkeeping that holds of every reachable book, whatever the quantities. */
  ghost predicate BookOk(c: Config, b: Book) {
    && 0.0 <= b.cash && NoShorts(b.positions)
    && b.positions.Keys <= (set a | a in c.assets)
    && LedgersOk(c, b)
  }

  /** Each fill of a symbol adds at most one tolerance of drift. */
  predicate DriftBounded(c: Config, b: Book, s: Symbol) {
    Abs(Drift(b, s)) <= Times(RowCount(b.positionLedger, s) as real, c.tolerance)
  }

  lemma FillAllLast(e: Env, b: Book, xs: seq<Exec>)
    requires xs != [] && FillAll(e, b, xs).Ok?
    ensures var n := |xs| - 1;
            && FillAll(e, b, xs[..n]).Ok?
            && PersistFill(e, FillAll(e, b, xs[..n]).value, xs[n]) == FillAll(e, b, xs)
  {
  }

  lemma DriftStep(c: Config, k: nat, before: real, after: real)
    requires Abs(before) <= Times(k as real, c.tolerance) && Abs(after - before) <= c.tolerance
    ensures Abs(after) <= Times((k + 1) as real, c.tolerance)
  {
    MulSucc(k as real, c.tolerance);
    var p := Times(k as real, c.tolerance);
    assert Times((k + 1) as real, c.tolerance) == p + c.tolerance;
  }

  ghost predicate LedgersOk(c: Config, b: Book) {
    && AlignedTables(b) && b.cash == CashTotal(b.cashLedger)
    && forall s :: DriftBounded(c, b, s)
  }

  lemma PersistFillLedgersOk(e: Env, b: Book, x: Exec)
    requires ConfigOk(e.config) && LedgersOk(e.config, b) && PersistFill(e, b, x).Ok?
    ensures LedgersOk(e.config, PersistFill(e, b, x).value)
  {
    hide PersistFill, AlignedTables, Drift, Times;
    var b' := PersistFill(e, b, x).value;
    PersistFillAligned(e, b, x);
    PersistFillDrift(e, b, x, 0);
    forall s
      ensures DriftBounded(e.config, b', s)
    {
      assert DriftBounded(e.config, b, s);
      PersistFillDrift(e, b, x, s);
      if s == x.proposal.symbol {
        DriftStep(e.config, RowCount(b.positionLedger, s), Drift(b, s), Drift(b', s));
      } else {
        assert Drift(b', s) == Drift(b, s);
      }
    }
  }

  /** Any sequence of fills keeps the tables aligned, cash on its ledger and the drift bounded. */
  lemma {:induction false} FillAllLedgersOk(e: Env, b: Book, xs: seq<Exec>)
    requires ConfigOk(e.config) && LedgersOk(e.config, b) && FillAll(e, b, xs).Ok?
    ensures LedgersOk(e.config, FillAll(e, b, xs).value)
  {
    hide PersistFill, LedgersOk;
    if xs != [] {
      var n := |xs| - 1;
      FillAllLast(e, b, xs);
      FillAllLedgersOk(e, b, xs[..n]);
      PersistFillLedgersOk(e, FillAll(e, b, xs[..n]).value, xs[n]);
    }
  }

  lemma {:induction false} FillAllKeys(e: Env, b: Book, xs: seq<Exec>)
    requires FillAll(e, b, xs).Ok?
    requires forall i :: 0 <= i < |xs| ==> xs[i].proposal.symbol in e.config.assets
    requires b.positions.Keys <= (set a | a in e.config.assets)
    ensures FillAll(e, b, xs).value.positions.Keys <= (set a | a in e.config.assets)
  {
    if xs != [] {
      var n := |xs| - 1;
      FillAllLast(e, b, xs);
      FillAllKeys(e, b, xs[..n]);
      hide PersistFill, FillAll;
      PersistFillLedgers(e, FillAll(e, b, xs[..n]).value, xs[n]);
    }
  }

  lemma LedgerEqBook(c: Config, a: Book, b: Book)
    requires LedgerEq(a, b)
    ensures LedgersOk(c, a) ==> LedgersOk(c, b)
    ensures NoDrift(a) ==> NoDrift(b)
  {
    assert forall s :: Drift(a, s) == Drift(b, s);
    if LedgersOk(c, a) {
      forall s
        ensures DriftBounded(c, b, s)
      {
        assert DriftBounded(c, a, s);
      }
    }
    if NoDrift(a) {
      forall s
        ensures Drift(b, s) == 0.0
      {
        assert Drift(a, s) == 0.0;
      }
    }
  }

  /** Every committed execution keeps the bookkeeping invariant. */
  lemma ExecuteKeepsBook(e: Env, b: Book, ps: seq<Proposal>, rejections: seq<Rejection>)
    requires EnvOk(e) && ProposalsOk(e, ps) && ProposalsQuoted(e, ps) && BookOk(e.config, b)
    requires forall i :: 0 <= i < |rejections| ==> !rejections[i].reason.InsufficientCash?
    requires Execute(e, b, ps, rejections).Ok?
    ensures BookOk(e.config, Execute(e, b, ps, rejections).value)
  {
    ExecuteSolvent(e, b, ps, rejections);
    var xs := ExecuteTrace(e, b, ps, rejections);
    hide Execute, FillAll, AlignedTables, Drift, DriftBounded, ExecOk, Normalized;
    FillAllLedgersOk(e, b, xs);
    FillAllKeys(e, b, xs);
    LedgerEqBook(e.config, FillAll(e, b, xs).value, Execute(e, b, ps, rejections).value);
  }

  // -------------------------------------------------------------------- units

  /** A unit per asset, larger than the tolerance, that divides every lot step of the snapshot. */
  ghost predicate UnitsFor(e: Env, unit: map<Symbol, real>) {
    forall a :: a in e.config.assets ==>
      && a in unit && e.config.tolerance < unit[a]
      && a in e.snapshot.rules && Positive(LimitsOf(e.snapshot.rules[a]).step)
      && OnGrid(LimitsOf(e.snapshot.rules[a]).step.value, unit[a])
  }

  ghost predicate OnUnits(b: Book, unit: map<Symbol, real>) {
    forall s :: s in b.positions ==> s in unit && OnGrid(b.positions[s].quantity, unit[s])
  }

  ghost predicate NoDrift(b: Book) {
    forall s :: Drift(b, s) == 0.0
  }

  lemma NormalizedOnUnit(e: Env, unit: map<Symbol, real>, x: Exec)
    requires UnitsFor(e, unit) && x.proposal.symbol in e.config.assets && Normalized(e, x)
    ensures OnGrid(x.quantity, unit[x.proposal.symbol])
  {
    var a := x.proposal.symbol;
    var r := e.snapshot.rules[a];
    var q :| NormalizeFor(e, a, q) == Accepted(x.quantity);
    NormalizeWithRules(r, e.config.requireRules, e.config.tolerance, q, ReferenceFor(e.snapshot, a), x.quantity);
    CoarseOnFine(x.quantity, LimitsOf(r).step.value, unit[a]);
  }

  /** On a common unit the snap never changes a value, so the drift stays what it was. */
  lemma PersistFillOnUnits(e: Env, b: Book, unit: map<Symbol, real>, x: Exec)
    requires ConfigOk(e.config) && UnitsFor(e, unit) && OnUnits(b, unit) && NoDrift(b)
    requires x.proposal.symbol in e.config.assets && Normalized(e, x) && PersistFill(e, b, x).Ok?
    ensures OnUnits(PersistFill(e, b, x).value, unit) && NoDrift(PersistFill(e, b, x).value)
  {
    var a := x.proposal.symbol;
    var b' := PersistFill(e, b, x).value;
    var moved := Held(b.positions, a) + QuantityDelta(FillOf(e, x));
    assert OnGrid(moved, unit[a]) by {
      NormalizedOnUnit(e, unit, x);
      ZeroOnGrid(unit[a]);
      GridClosed(Held(b.positions, a), x.quantity, unit[a]);
    }
    PersistFillLedgers(e, b, x);
    if Abs(moved) <= e.config.tolerance {
      GridGap(moved, unit[a], e.config.tolerance);
    }
    hide PersistFill, OnGrid, UnitsFor, Normalized;
    assert Held(b'.positions, a) == moved;
    forall s
      ensures Drift(b', s) == 0.0
    {
      assert Drift(b, s) == 0.0;
      PersistFillDrift(e, b, x, s);
    }
    forall s | s in b'.positions
      ensures s in unit && OnGrid(b'.positions[s].quantity, unit[s])
    {
      assert Held(b'.positions, s) == b'.positions[s].quantity;
      if s != a {
        assert s in b.positions && Held(b.positions, s) == b.positions[s].quantity;
      }
    }
  }

  lemma {:induction false} FillAllOnUnits(e: Env, b: Book, unit: map<Symbol, real>, xs: seq<Exec>)
    requires ConfigOk(e.config) && UnitsFor(e, unit) && OnUnits(b, unit) && NoDrift(b) && FillAll(e, b, xs).Ok?
    requires forall i :: 0 <= i < |xs| ==> xs[i].proposal.symbol in e.config.assets && Normalized(e, xs[i])
    ensures OnUnits(FillAll(e, b, xs).value, unit) && NoDrift(FillAll(e, b, xs).value)
  {
    hide UnitsFor, OnUnits, NoDrift, Normalized, PersistFill;
    if xs != [] {
      var n := |xs| - 1;
      FillAllLast(e, b, xs);
      FillAllOnUnits(e, b, unit, xs[..n]);
      PersistFillOnUnits(e, FillAll(e, b, xs[..n]).value, unit, xs[n]);
    }
  }

  /** Executions on a common unit leave every position equal to the sum of its ledger. */
  lemma ExecuteOnUnits(e: Env, b: Book, unit: map<Symbol, real>, ps: seq<Proposal>, rejections: seq<Rejection>)
    requires EnvOk(e) && ProposalsOk(e, ps) && ProposalsQuoted(e, ps)
    requires UnitsFor(e, unit) && OnUnits(b, unit) && NoDrift(b)
    requires Execute(e, b, ps, rejections).Ok?
    ensures OnUnits(Execute(e, b, ps, rejections).value, unit) && NoDrift(Execute(e, b, ps, rejections).value)
  {
    var xs := ExecuteTrace(e, b, ps, rejections);
    hide Execute, FillAll, UnitsFor, Normalized;
    FillAllOnUnits(e, b, unit, xs);
    LedgerEqBook(e.config, FillAll(e, b, xs).value, Execute(e, b, ps, rejections).value);
  }

  // ------------------------------------------------------------- average cost

  /** A buy leaves the average cost between the old one and the price paid; a sell keeps it until the position closes. */
  lemma AverageCostBetween(e: Env, b: Book, x: Exec)
    requires EnvOk(e) && ExecOk(e, x) && NoShorts(b.positions) && PersistFill(e, b, x).Ok?
    ensures var a := x.proposal.symbol;
            var before := if a in b.positions then b.positions[a] else Position(0.0, 0.0);
            var after := PersistFill(e, b, x).value.positions[a];
            && (x.proposal.side.Buy? ==> Min(before.averageCost, x.terms.execution) <= after.averageCost <= Max(before.averageCost, x.terms.execution))
            && (x.proposal.side.Sell? && 0.0 < after.quantity ==> after.averageCost == before.averageCost)
  {
    var a := x.proposal.symbol;
    var before := if a in b.positions then b.positions[a] else Position(0.0, 0.0);
    if x.proposal.side.Buy? {
      WeightedMean(before.quantity, x.quantity, before.averageCost, x.terms.execution);
    }
  }

  lemma WeightedMean(p: real, q: real, a: real, b: real)
    requires 0.0 <= p && 0.0 < q
    ensures Min(a, b) <= (Times(p, a) + Times(q, b)) / (p + q) <= Max(a, b)
  {
    var low, high := Min(a, b), Max(a, b);
    TimesMono(low, a, p);
    TimesMono(low, b, q);
    TimesMono(a, high, p);
    TimesMono(b, high, q);
    var total := Times(p, a) + Times(q, b);
    assert Times(p, low) + Times(q, low) == Times(p + q, low) && Times(p, high) + Times(q, high) == Times(p + q, high);
    DivMono(Times(p + q, low), total, p + q);
    DivMono(total, Times(p + q, high), p + q);
    DivTimes(low, p + q);
    DivTimes(high, p + q);
    assert Times(p + q, low) == Times(low, p + q) && Times(p + q, high) == Times(high, p + q);
  }

  // ------------------------------------------------------------------- equity

  /** Mid value of what the position ledgers, not the stored positions, say is held. */
  function MarkedLedger(assets: seq<Symbol>, rows: seq<PositionRow>, quotes: map<Symbol, Quote>): real {
    if assets == [] then 0.0
    else
      var s := assets[|assets| - 1];
      MarkedLedger(assets[..|assets| - 1], rows, quotes)
      + (if s in quotes then Times(DeltaTotal(rows, s), Mid(quotes[s])) else 0.0)
  }

  function LedgerEquity(c: Config, b: Book, quotes: map<Symbol, Quote>): real {
    CashTotal(b.cashLedger) + MarkedLedger(c.assets, b.positionLedger, quotes)
  }

  function Costs(f: Fill): real {
    f.fee + f.spreadCost + f.slippageCost
  }

  function TotalCosts(fills: seq<Fill>): real {
    if fills == [] then 0.0
    else TotalCosts(fills[..|fills| - 1]) + Costs(fills[|fills| - 1])
  }

  lemma {:induction false} NoDriftSameValue(c: Config, b: Book, quotes: map<Symbol, Quote>, assets: seq<Symbol>)
    requires NoDrift(b)
    ensures MarkedValue(assets, b.positions, quotes) == MarkedLedger(assets, b.positionLedger, quotes)
  {
    if assets != [] {
      NoDriftSameValue(c, b, quotes, assets[..|assets| - 1]);
      assert Drift(b, assets[|assets| - 1]) == 0.0;
    }
  }

  /** Changing one symbol's ledger moves the marked total by that change alone. */
  lemma {:induction false} MarkedLedgerMoves(assets: seq<Symbol>, rows: seq<PositionRow>, rows': seq<PositionRow>,
                                             quotes: map<Symbol, Quote>, a: Symbol, delta: real)
    requires Distinct(assets) && a in quotes
    requires forall s :: DeltaTotal(rows', s) == DeltaTotal(rows, s) + (if s == a then delta else 0.0)
    ensures MarkedLedger(assets, rows', quotes)
         == MarkedLedger(assets, rows, quotes) + (if a in assets then Times(delta, Mid(quotes[a])) else 0.0)
  {
    if assets != [] {
      var n := |assets| - 1;
      MarkedLedgerMoves(assets[..n], rows, rows', quotes, a, delta);
      assert assets == assets[..n] + [assets[n]];
      if assets[n] == a {
        assert a !in assets[..n];
        assert Times(DeltaTotal(rows, a) + delta, Mid(quotes[a]))
            == Times(DeltaTotal(rows, a), Mid(quotes[a])) + Times(delta, Mid(quotes[a]));
      }
    }
  }

  /** One fill: the cash moved plus the quantity moved at mid is minus the recorded costs. */
  lemma FillCosts(e: Env, x: Exec)
    requires EnvOk(e) && ExecOk(e, x)
    ensures var f := FillOf(e, x);
            && CashDelta(f) + Times(QuantityDelta(f), f.mid) == -Costs(f)
            && 0.0 <= f.fee && 0.0 <= f.spreadCost && 0.0 <= f.slippageCost
  {
    TermsOrdered(e.config, e.snapshot.quotes[x.proposal.symbol], x.proposal.side);
    FeeBelowNotional(e, x);
    var q, mid, base, price := x.quantity, x.terms.mid, x.terms.base, x.terms.execution;
    TimesNonneg(q, Abs(base - mid));
    TimesNonneg(q, Abs(price - base));
    SplitCost(q, mid, base, price);
    SplitCost(q, price, base, mid);
  }

  lemma SplitCost(q: real, low: real, base: real, high: real)
    requires low <= base <= high || high <= base <= low
    ensures low <= base <= high ==>
              Times(q, Abs(base - low)) + Times(q, Abs(high - base)) == Times(q, high) - Times(q, low)
    ensures Times(-q, low) == -Times(q, low) && Times(-q, high) == -Times(q, high)
  {
  }

  ghost predicate CostsOk(fills: seq<Fill>) {
    forall i :: 0 <= i < |fills| ==>
      0.0 <= fills[i].fee && 0.0 <= fills[i].spreadCost && 0.0 <= fills[i].slippageCost
  }

  /** `after` extends the fills of `before`, and equity by the ledgers fell by their costs. */
  ghost predicate CostOnly(e: Env, before: Book, after: Book) {
    && AlignedTables(after) && |before.fills| <= |after.fills| && after.fills[..|before.fills|] == before.fills
    && LedgerEquity(e.config, after, e.snapshot.quotes) + TotalCosts(after.fills[|before.fills|..])
       == LedgerEquity(e.config, before, e.snapshot.quotes)
    && CostsOk(after.fills[|before.fills|..])
  }

  lemma CostOnlyStep(e: Env, b: Book, w: Book, x: Exec)
    requires EnvOk(e) && ExecOk(e, x) && CostOnly(e, b, w) && PersistFill(e, w, x).Ok?
    ensures CostOnly(e, b, PersistFill(e, w, x).value)
  {
    hide PersistFill, AlignedTables, CashDelta, Times, Costs, ExecOk, LedgerEquity;
    var b' := PersistFill(e, w, x).value;
    FillEquity(e, w, x);
    var added := w.fills[|b.fills|..];
    assert b'.fills[|b.fills|..] == added + [FillOf(e, x)];
    assert (added + [FillOf(e, x)])[..|added|] == added;
  }

  lemma {:induction false} FillAllEquity(e: Env, b: Book, xs: seq<Exec>)
    requires EnvOk(e) && AlignedTables(b) && FillAll(e, b, xs).Ok?
    requires forall i :: 0 <= i < |xs| ==> ExecOk(e, xs[i])
    ensures CostOnly(e, b, FillAll(e, b, xs).value)
  {
    if xs == [] {
      assert b.fills[..|b.fills|] == b.fills;
    } else {
      hide PersistFill, CostOnly, ExecOk;
      var n := |xs| - 1;
      FillAllLast(e, b, xs);
      FillAllEquity(e, b, xs[..n]);
      CostOnlyStep(e, b, FillAll(e, b, xs[..n]).value, xs[n]);
    }
  }

  lemma FillEquity(e: Env, b: Book, x: Exec)
    requires EnvOk(e) && ExecOk(e, x) && AlignedTables(b) && PersistFill(e, b, x).Ok?
    ensures var b' := PersistFill(e, b, x).value;
            && AlignedTables(b') && b'.fills == b.fills + [FillOf(e, x)]
            && LedgerEquity(e.config, b', e.snapshot.quotes) + Costs(FillOf(e, x))
               == LedgerEquity(e.config, b, e.snapshot.quotes)
    ensures CostsOk([FillOf(e, x)])
  {
    var f := FillOf(e, x);
    var b' := PersistFill(e, b, x).value;
    PersistFillAligned(e, b, x);
    FillCosts(e, x);
    assert f.mid == Mid(e.snapshot.quotes[x.proposal.symbol]);
    assert b'.cashLedger[..|b.cashLedger|] == b.cashLedger;
    forall s
      ensures DeltaTotal(b'.positionLedger, s)
           == DeltaTotal(b.positionLedger, s) + (if s == x.proposal.symbol then QuantityDelta(f) else 0.0)
    {
      PersistFillDrift(e, b, x, s);
    }
    MarkedLedgerMoves(e.config.assets, b.positionLedger, b'.positionLedger, e.snapshot.quotes, x.proposal.symbol, QuantityDelta(f));
  }

  /**
   Equity conservation, for every execution: equity by the ledgers falls by
   exactly the fees, spread and slippage costs recorded on the new fills, each
   of them non-negative.
   */
  lemma ExecuteConservesLedgerEquity(e: Env, b: Book, ps: seq<Proposal>, rejections: seq<Rejection>)
    requires EnvOk(e) && ProposalsOk(e, ps) && ProposalsQuoted(e, ps) && AlignedTables(b)
    requires Execute(e, b, ps, rejections).Ok?
    ensures var b' := Execute(e, b, ps, rejections).value;
            && |b.fills| <= |b'.fills|
            && LedgerEquity(e.config, b', e.snapshot.quotes) + TotalCosts(b'.fills[|b.fills|..])
               == LedgerEquity(e.config, b, e.snapshot.quotes)
            && CostsOk(b'.fills[|b.fills|..])
  {
    var xs := ExecuteTrace(e, b, ps, rejections);
    hide Execute, FillAll, ExecOk, Normalized;
    FillAllEquity(e, b, xs);
  }

  /** The equity snapshot of the execution: the committed cash and positions, marked at mid. */
  lemma ExecuteSnapshot(e: Env, b: Book, ps: seq<Proposal>, rejections: seq<Rejection>)
    requires EnvOk(e) && ProposalsOk(e, ps) && ProposalsQuoted(e, ps)
    requires Execute(e, b, ps, rejections).Ok?
    ensures var b' := Execute(e, b, ps, rejections).value;
            b'.equity != [] && b'.equity[|b'.equity| - 1]
              == EquityRow(e.run, b'.cash, MarkedValue(e.config.assets, b'.positions, e.snapshot.quotes), Equity(e.config, b', e.snapshot.quotes))
  {
    hide MarkedValue, Execute;
    var sellPlan, buyPlan, sold, bought := ExecuteStages(e, b, ps, rejections);
  }

  /**
   On a common unit the same holds of the stored cash and positions marked at
   mid: the recorded equity is the equity before the execution less its costs.
   */
  lemma ExecuteConservesEquity(e: Env, b: Book, unit: map<Symbol, real>, ps: seq<Proposal>, rejections: seq<Rejection>)
    requires EnvOk(e) && ProposalsOk(e, ps) && ProposalsQuoted(e, ps) && BookOk(e.config, b)
    requires forall i :: 0 <= i < |rejections| ==> !rejections[i].reason.InsufficientCash?
    requires UnitsFor(e, unit) && OnUnits(b, unit) && NoDrift(b)
    requires Execute(e, b, ps, rejections).Ok?
    ensures var b' := Execute(e, b, ps, rejections).value;
            && |b.fills| <= |b'.fills|
            && Equity(e.config, b', e.snapshot.quotes)
               == Equity(e.config, b, e.snapshot.quotes) - TotalCosts(b'.fills[|b.fills|..])
            && CostsOk(b'.fills[|b.fills|..])
            && b'.equity != [] && b'.equity[|b'.equity| - 1].run == e.run && b'.equity[|b'.equity| - 1].cash == b'.cash
            && b'.equity[|b'.equity| - 1].equity == Equity(e.config, b, e.snapshot.quotes) - TotalCosts(b'.fills[|b.fills|..])
  {
    hide Execute, UnitsFor, OnUnits;
    ExecuteSnapshot(e, b, ps, rejections);
    var b' := Execute(e, b, ps, rejections).value;
    ExecuteConservesLedgerEquity(e, b, ps, rejections);
    ExecuteKeepsBook(e, b, ps, rejections);
    ExecuteOnUnits(e, b, unit, ps, rejections);
    NoDriftSameValue(e.config, b, e.snapshot.quotes, e.config.assets);
    NoDriftSameValue(e.config, b', e.snapshot.quotes, e.config.assets);
  }
}
