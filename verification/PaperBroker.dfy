/**
 The broker as it runs: a transaction object whose methods update the tables step
 by step, as `_execute` and `persist_fill` do, and the broker that commits or
 discards it.  Each method is tied to the function of module Broker it performs.
 */
module PaperBroker {
  import opened Common
  import opened Numbers
  import opened Quantities
  import opened Broker
  import opened BrokerLedger
  import opened BrokerSolvency
  import opened BrokerIntents
  import opened BrokerWeeks
  import opened Reconcile

  /** One open database transaction of `_execute`. */
  class Transaction {
    const e: Env
    var cash: real
    var positions: map<Symbol, Position>
    var orders: seq<Order>
    var fills: seq<Fill>
    var cashLedger: seq<CashRow>
    var positionLedger: seq<PositionRow>
    var contexts: seq<Context>
    var evidence: seq<EvidenceRow>
    var ranges: seq<RangeEvidenceRow>
    var rejections: seq<Rejection>
    var decisions: seq<DecisionRow>
    var equity: seq<EquityRow>
    var outcomes: map<RunId, Outcome>

    function Contents(): Book
      reads this
    {
      Book(cash, positions, orders, fills, cashLedger, positionLedger, contexts, evidence, ranges,
           rejections, decisions, equity, outcomes)
    }

    constructor (e: Env, b: Book)
      ensures this.e == e && Contents() == b
    {
      this.e := e;
      cash, positions, orders, fills := b.cash, b.positions, b.orders, b.fills;
      cashLedger, positionLedger := b.cashLedger, b.positionLedger;
      contexts, evidence, ranges := b.contexts, b.evidence, b.ranges;
      rejections, decisions, equity, outcomes := b.rejections, b.decisions, b.equity, b.outcomes;
    }

    /** `persist_fill`. */
    method PersistFill(x: Exec) returns (r: Result<(), Error>)
      modifies this
      ensures match Broker.PersistFill(e, old(Contents()), x)
              case Ok(b) => r == Ok(()) && Contents() == b
              case Err(error) => r == Err(error)
    {
      hide Times, Abs, KeyUsed;
      var p := x.proposal;
      var notional := Times(x.quantity, x.terms.execution);
      var fee := Times(notional, e.config.feeRate);
      var spreadCost := Times(x.quantity, Abs(x.terms.base - x.terms.mid));
      var slippageCost := Times(x.quantity, Abs(x.terms.execution - x.terms.base));
      var current := if p.symbol in positions then positions[p.symbol] else Position(0.0, 0.0);
      var cashDelta, quantityDelta, newAverage;
      if p.side.Sell? {
        cashDelta := notional - fee;
        quantityDelta := -x.quantity;
        newAverage := if current.quantity - x.quantity > e.config.tolerance then current.averageCost else 0.0;
      } else {
        cashDelta := -(notional + fee);
        quantityDelta := x.quantity;
        if current.quantity + x.quantity == 0.0 {
          return Err(ZeroDivision);
        }
        newAverage := (Times(current.quantity, current.averageCost) + notional) / (current.quantity + x.quantity);
      }
      if KeyUsed(orders, p.key) {
        return Err(DuplicateOrder);
      }
      var newQuantity := Snap(e.config, current.quantity + quantityDelta);
      var newCash := cash + cashDelta;
      var position := Position(newQuantity, newAverage);
      var order := Order(p.key, e.run, p.symbol, p.side, x.quantity, p.targetWeight);
      var fill := Fill(p.key, e.run, p.symbol, p.side, x.quantity, x.terms.mid, x.terms.execution, spreadCost, slippageCost, fee);
      var cashRow := CashRow(FillCash(p.key), Some(e.run), cashDelta, newCash);
      var positionRow := PositionRow(p.key, e.run, p.symbol, quantityDelta, newQuantity);
      ghost var before := Contents();
      assert Broker.PersistFill(e, before, x) == Ok(before.(
        cash := newCash, positions := positions[p.symbol := position], orders := orders + [order], fills := fills + [fill],
        cashLedger := cashLedger + [cashRow], positionLedger := positionLedger + [positionRow]));
      hide Broker.PersistFill, Snap;
      InsertRows(p.symbol, position, order, fill, cashRow, positionRow);
      r := Ok(());
    }

    /** The inserts of one fill; the cash row carries the new balance. */
    method InsertRows(symbol: Symbol, position: Position, order: Order, fill: Fill, cashRow: CashRow,
                      positionRow: PositionRow)
      modifies this
      ensures Contents() == old(Contents()).(
                cash := cashRow.balanceAfter, positions := old(positions)[symbol := position], orders := old(orders) + [order],
                fills := old(fills) + [fill], cashLedger := old(cashLedger) + [cashRow],
                positionLedger := old(positionLedger) + [positionRow])
    {
      cash := cashRow.balanceAfter;
      positions := positions[symbol := position];
      orders := orders + [order];
      fills := fills + [fill];
      cashLedger := cashLedger + [cashRow];
      positionLedger := positionLedger + [positionRow];
    }

    /** `_reject_quantity`. */
    method RejectQuantity(p: Proposal, reason: Reason, notional: real)
      modifies this`rejections
      ensures Contents() == Reject(old(Contents()), RejectAt(e, p, reason, notional, FinalStage))
    {
      rejections := rejections + [RejectAt(e, p, reason, notional, FinalStage)];
    }

    /** The PRICE_RANGE step shared by the sell and the buy loop. */
    method CheckRange(p: Proposal, terms: Terms) returns (r: Result<bool, Error>)
      requires p.symbol in e.snapshot.quotes && terms == TermsFor(e, p)
      modifies this`rejections, this`decisions
      ensures match Broker.CheckRange(e, old(Contents()), p)
              case Ok((b, proceed)) => r == Ok(proceed) && Contents() == b
              case Err(error) => r == Err(error)
    {
      if !e.config.requireRangeEvidence {
        return Ok(true);
      }
      var reference := Get(e.snapshot.references, p.symbol);
      var evaluated := EvaluateRange(RangeOf(e, p.symbol), reference, p.side, terms.execution);
      if evaluated.Err? {
        return Err(InvalidEvidence);
      }
      var d := evaluated.value;
      decisions := decisions + [DecisionRow(e.run, p.key, p.symbol, p.side, terms.execution, RecordRange(d, reference))];
      var notional := Times(p.requested, terms.execution);
      if d.outcome.RangeRejected? {
        RejectQuantity(p, PriceRangeExceeded, notional);
        return Ok(false);
      }
      if d.outcome.EvidenceUnavailable? {
        RejectQuantity(p, RangeEvidenceUnavailable, notional);
        return Ok(false);
      }
      r := Ok(true);
    }

    /** The sell loop: range check, cap at the held quantity, normalise. */
    method PlanSells(held: map<Symbol, Position>, sells: seq<Proposal>) returns (r: Result<seq<Exec>, Error>)
      requires ProposalsQuoted(e, sells)
      modifies this`rejections, this`decisions
      ensures match Broker.PlanSells(e, held, old(Contents()), sells, |sells|)
              case Ok(w) => r == Ok(w.execs) && Contents() == w.book
              case Err(error) => r == Err(error)
    {
      hide PlanSell, Broker.PlanSells, Broker.CheckRange, NormalizeFor, Times;
      PlanNoSells(e, held, Contents(), sells);
      var executable := [];
      for i := 0 to |sells|
        invariant Broker.PlanSells(e, held, old(Contents()), sells, i) == Ok(Work(Contents(), executable))
      {
        var p := sells[i];
        var terms := TermsFor(e, p);
        PlanSellsStep(e, held, old(Contents()), sells, i);
        PlanSellCases(e, held, Work(Contents(), executable), p);
        var proceed := CheckRange(p, terms);
        if proceed.Err? {
          PlanSellsFails(e, held, old(Contents()), sells, i + 1, |sells|);
          return Err(proceed.error);
        }
        if proceed.value {
          var requested := Min(p.requested, Held(held, p.symbol));
          match NormalizeFor(e, p.symbol, requested) {
            case Rejected(reason) => RejectQuantity(p, reason, Times(requested, terms.execution));
            case Accepted(n) => executable := executable + [Exec(p, n, terms)];
          }
        }
      }
      r := Ok(executable);
    }

    /** The buy loop: range check, then the cash each buy would need at full size. */
    method PlanBuys(buys: seq<Proposal>) returns (r: Result<(seq<Exec>, real), Error>)
      requires ProposalsQuoted(e, buys)
      modifies this`rejections, this`decisions
      ensures match Broker.PlanBuys(e, old(Contents()), buys, |buys|)
              case Ok(w) => r == Ok((w.execs, Required(e.config, w.execs))) && Contents() == w.book
              case Err(error) => r == Err(error)
    {
      hide PlanBuy, Broker.PlanBuys, Broker.CheckRange, Required, CostOf, Times;
      PlanNoBuys(e, Contents(), buys);
      var planned, required := [], 0.0;
      for i := 0 to |buys|
        invariant Broker.PlanBuys(e, old(Contents()), buys, i) == Ok(Work(Contents(), planned))
        invariant required == Required(e.config, planned)
      {
        var p := buys[i];
        var terms := TermsFor(e, p);
        PlanBuysStep(e, old(Contents()), buys, i);
        PlanBuyCases(e, Work(Contents(), planned), p);
        var proceed := CheckRange(p, terms);
        if proceed.Err? {
          PlanBuysFails(e, old(Contents()), buys, i + 1, |buys|);
          return Err(proceed.error);
        }
        if proceed.value {
          var x := Exec(p, p.requested, terms);
          RequiredAppend(e.config, planned, x);
          required := required + CostOf(e.config, x);
          planned := planned + [x];
        }
      }
      r := Ok((planned, required));
    }

    /** Persist the planned sells. */
    method FillSells(execs: seq<Exec>) returns (r: Result<(), Error>)
      modifies this
      ensures match FillAll(e, old(Contents()), execs)
              case Ok(b) => r == Ok(()) && Contents() == b
              case Err(error) => r == Err(error)
    {
      for i := 0 to |execs|
        invariant FillAll(e, old(Contents()), execs[..i]) == Ok(Contents())
      {
        hide Broker.PersistFill;
        assert execs[..i + 1][..i] == execs[..i];
        var filled := PersistFill(execs[i]);
        if filled.Err? {
          FillAllFails(e, old(Contents()), execs, i + 1);
          return filled;
        }
      }
      assert execs[..|execs|] == execs;
      r := Ok(());
    }

    /** Scale the buys to the cash, and fill those that still pass. */
    method FillBuys(execs: seq<Exec>, required: real) returns (r: Result<(), Error>)
      requires ExecsQuoted(e, execs) && required == Required(e.config, execs)
      modifies this
      ensures match ExecuteBuys(e, old(Contents()), execs)
              case Ok(b) => r == Ok(()) && Contents() == b
              case Err(error) => r == Err(error)
    {
      if required <= 0.0 {
        return Ok(());
      }
      var scale := Min(1.0, cash / required);
      for i := 0 to |execs|
        invariant Broker.FillBuys(e, scale, old(Contents()), execs, i) == Ok(Contents())
      {
        hide Broker.FillBuy;
        var filled := FillBuy(execs[i], scale);
        if filled.Err? {
          FillBuysFails(e, scale, old(Contents()), execs, i + 1, |execs|);
          return filled;
        }
      }
      r := Ok(());
    }

    /** One scaled buy. */
    method FillBuy(x: Exec, scale: real) returns (r: Result<(), Error>)
      requires x.proposal.symbol in e.snapshot.quotes
      modifies this
      ensures match Broker.FillBuy(e, scale, old(Contents()), x)
              case Ok(b) => r == Ok(()) && Contents() == b
              case Err(error) => r == Err(error)
    {
      hide Broker.PersistFill, NormalizeFor, Times;
      var p := x.proposal;
      var scaled := Times(x.quantity, scale);
      match NormalizeFor(e, p.symbol, scaled) {
        case Rejected(reason) =>
          RejectQuantity(p, reason, Times(scaled, x.terms.execution));
          r := Ok(());
        case Accepted(n) =>
          var notional := Times(n, x.terms.execution);
          if notional + Times(notional, e.config.feeRate) > cash {
            RejectQuantity(p, InsufficientCash, notional);
            r := Ok(());
          } else {
            r := PersistFill(x.(quantity := n));
          }
      }
    }

    /** `_execute`, up to its COMMIT. */
    method Execute(ps: seq<Proposal>, proposalRejections: seq<Rejection>) returns (r: Result<(), Error>)
      requires SnapshotOk(e.config, e.snapshot) && ProposalsQuoted(e, ps)
      modifies this
      ensures match Broker.Execute(e, old(Contents()), ps, proposalRejections)
              case Ok(b) => r == Ok(()) && Contents() == b
              case Err(error) => r == Err(error)
    {
      hide Broker.PlanSells, Broker.PlanBuys, FillAll, ExecuteBuys, CheckEvidence, OnSide, Broker.Settle,
           StageEvidence, Required;
      var checked := CheckEvidence(e.config, e.snapshot);
      if checked.Err? {
        return Err(checked.error);
      }
      ghost var staged := StageEvidence(e, Contents(), ps, proposalRejections);
      var held, before := positions, |rejections|;
      Stage(ps, proposalRejections);
      var sells, buys := OnSide(ps, Sell), OnSide(ps, Buy);
      var sellPlan := PlanSells(held, sells);
      if sellPlan.Err? {
        return Err(sellPlan.error);
      }
      ghost var planned := Contents();
      var buyPlan := PlanBuys(buys);
      if buyPlan.Err? {
        return Err(buyPlan.error);
      }
      PlannedQuoted(e, planned, buys, |buys|);
      var sold := FillSells(sellPlan.value);
      if sold.Err? {
        return Err(sold.error);
      }
      var bought := FillBuys(buyPlan.value.0, buyPlan.value.1);
      if bought.Err? {
        return Err(bought.error);
      }
      if cash < 0.0 {
        return Err(NegativeCash);
      }
      Settle(|rejections| - before);
      r := Ok(());
    }

    /** Equity snapshot and execution outcome, the last writes of the transaction. */
    method Settle(rejected: int)
      modifies this`equity, this`outcomes
      ensures Contents() == Broker.Settle(e, old(Contents()), rejected)
    {
      var value := MarkedValue(e.config.assets, positions, e.snapshot.quotes);
      equity := equity + [EquityRow(e.run, cash, value, cash + value)];
      var executed := CountRun(orders, e.run);
      outcomes := outcomes[e.run := Classify(executed + rejected, executed, rejected)];
    }

    /** Evidence rows and execution contexts, inserted before any decision. */
    method Stage(ps: seq<Proposal>, proposalRejections: seq<Rejection>)
      requires SnapshotOk(e.config, e.snapshot) && ProposalsQuoted(e, ps)
      modifies this`contexts, this`evidence, this`ranges, this`rejections
      ensures Contents() == StageEvidence(e, old(Contents()), ps, proposalRejections)
    {
      var assets := e.config.assets;
      for i := 0 to |assets|
        invariant evidence == old(evidence) + EvidenceRows(e, i) && ranges == old(ranges) + RangeRows(e, i)
        invariant contexts == old(contexts) && rejections == old(rejections)
      {
        hide EvidenceOf, RangeOf;
        assert EvidenceRows(e, i + 1) == EvidenceRows(e, i) + [EvidenceOf(e, assets[i])];
        evidence := evidence + [EvidenceOf(e, assets[i])];
        if e.config.requireRangeEvidence {
          assert RangeRows(e, i + 1) == RangeRows(e, i) + [RangeEvidenceRow(e.run, assets[i], RangeOf(e, assets[i]))];
          ranges := ranges + [RangeEvidenceRow(e.run, assets[i], RangeOf(e, assets[i]))];
        }
      }
      for i := 0 to |ps|
        invariant evidence == old(evidence) + EvidenceRows(e, |assets|) && ranges == old(ranges) + RangeRows(e, |assets|)
        invariant contexts == old(contexts) + ContextRows(e, ps, i) && rejections == old(rejections)
      {
        hide ContextOf;
        assert ContextRows(e, ps, i + 1) == ContextRows(e, ps, i) + [ContextOf(e, ps[i].symbol)];
        contexts := contexts + [ContextOf(e, ps[i].symbol)];
      }
      rejections := rejections + proposalRejections;
    }
  }

  /** The account's database and the weekly run over it. */
  class PaperBroker {
    const config: Config
    var book: Book

    constructor (config: Config)
      requires ConfigOk(config)
      ensures this.config == config && book == OpenBook(config)
    {
      this.config := config;
      book := OpenBook(config);
    }

    /** `_proposals`: one pass over the configured assets. */
    method Proposals(e: Env, weights: map<Symbol, real>) returns (proposals: seq<Proposal>, rejections: seq<Rejection>)
      requires e.config == config && SnapshotOk(config, e.snapshot)
      ensures Proposed(proposals, rejections) == Broker.Proposals(e, book, weights, |config.assets|)
    {
      proposals, rejections := [], [];
      for i := 0 to |config.assets|
        invariant Proposed(proposals, rejections) == Broker.Proposals(e, book, weights, i)
      {
        hide NormalizeFor, TargetDelta;
        var a := config.assets[i];
        var delta := TargetDelta(e, book, weights, a);
        if Abs(delta) > config.tolerance {
          var p := Proposal(Key(e.signal, a), a, if delta > 0.0 then Buy else Sell, Abs(delta), if a in weights then weights[a] else 0.0);
          match NormalizeFor(e, a, p.requested) {
            case Rejected(reason) =>
              var notional := Times(p.requested, Mid(e.snapshot.quotes[a]));
              rejections := rejections + [RejectAt(e, p, reason, notional, ProposalStage)];
            case Accepted(n) => proposals := proposals + [p.(requested := n)];
          }
        }
      }
    }

    /** The trading part of `run`: commit on success, leave the book alone on any error. */
    method RunWeek(w: Week)
      modifies this
      ensures book == Broker.RunWeek(config, old(book), w)
    {
      if !SnapshotOk(config, w.snapshot) || w.run in book.outcomes {
        return;
      }
      var e := WeekEnv(config, w);
      ProposalsAreQuoted(e, book, w.weights, |config.assets|);
      hide Broker.Proposals, Broker.Execute;
      var proposals, rejections := Proposals(e, w.weights);
      var transaction := new Transaction(e, book);
      var executed := transaction.Execute(proposals, rejections);
      if executed.Ok? {
        book := transaction.Contents();
      }
    }

    /** Any number of weeks, each on the book the last one left; the ledgers then agree. */
    method RunWeeks(weeks: seq<Week>)
      requires ConfigOk(config) && book == OpenBook(config)
      modifies this
      ensures book == Broker.RunWeeks(config, OpenBook(config), weeks)
      ensures BookOk(config, book)
    {
      for i := 0 to |weeks|
        invariant book == Broker.RunWeeks(config, OpenBook(config), weeks[..i])
      {
        hide Broker.RunWeek;
        RunWeek(weeks[i]);
        assert weeks[..i + 1][..i] == weeks[..i];
      }
      assert weeks[..|weeks|] == weeks;
      WeeksKeepBook(config, weeks);
    }

    /** The accounting part of `reconcile`: sums accumulated row by row, compared within the tolerance. */
    method ReconcileCash() returns (valid: bool)
      ensures valid <==> CashReconciles(config, book)
    {
      var sum := 0.0;
      for i := 0 to |book.cashLedger|
        invariant sum == CashTotal(book.cashLedger[..i])
      {
        assert book.cashLedger[..i + 1][..i] == book.cashLedger[..i];
        sum := sum + book.cashLedger[i].amount;
      }
      assert book.cashLedger[..|book.cashLedger|] == book.cashLedger;
      valid := -config.tolerance <= book.cash && Abs(book.cash - sum) <= config.tolerance;
    }

    /** `SUM(quantity_delta)` per symbol in one pass over the position ledger. */
    method LedgerPositions() returns (sums: map<Symbol, real>)
      ensures forall s :: DeltaTotal(book.positionLedger, s) == if s in sums then sums[s] else 0.0
      ensures forall s :: s in sums <==> exists i :: 0 <= i < |book.positionLedger| && book.positionLedger[i].symbol == s
    {
      sums := map[];
      var rows := book.positionLedger;
      for i := 0 to |rows|
        invariant forall s :: DeltaTotal(rows[..i], s) == if s in sums then sums[s] else 0.0
        invariant forall s :: s in sums <==> exists k :: 0 <= k < i && rows[k].symbol == s
      {
        assert rows[..i + 1][..i] == rows[..i];
        var s, delta := rows[i].symbol, rows[i].delta;
        sums := sums[s := (if s in sums then sums[s] else 0.0) + delta];
      }
      assert rows[..|rows|] == rows;
    }

    /** Every symbol held or ever traded: not short, and on its ledger within the tolerance. */
    method ReconcilePositions() returns (valid: bool)
      ensures valid <==> PositionsReconcile(config, book)
    {
      var sums := LedgerPositions();
      var symbols := ListOf(book.positions.Keys + sums.Keys);
      PositionsListed(config, book, sums.Keys, symbols);
      hide DeltaTotal, Held, Abs, PositionsReconcile;
      for i := 0 to |symbols|
        invariant forall k :: 0 <= k < i ==> PositionReconciles(config, book, symbols[k])
      {
        var s := symbols[i];
        var held := Held(book.positions, s);
        var ledger := if s in sums then sums[s] else 0.0;
        if held < -config.tolerance || Abs(held - ledger) > config.tolerance {
          assert !PositionReconciles(config, book, s);
          return false;
        }
      }
      valid := true;
    }

    /** `reconcile`: the first failing check makes the account invalid. */
    method Reconcile() returns (valid: bool)
      ensures valid <==> Reconciles(config, book)
    {
      hide RuleEvidenceReconciles, RangeEvidenceReconciles, CashReconciles, PositionsReconcile, NoOrphanFill, RejectionsValid,
           ContextsReconcile, OrderAccounted;
      if !RuleEvidenceReconciles(config, book) || !RangeEvidenceReconciles(config, book) {
        return false;
      }
      var cash := ReconcileCash();
      if !cash {
        return false;
      }
      var positions := ReconcilePositions();
      if !positions {
        return false;
      }
      if !NoOrphanFill(book) || !RejectionsValid(book) || !ContextsReconcile(config, book) {
        return false;
      }
      for i := 0 to |book.orders|
        invariant forall k :: 0 <= k < i ==> OrderAccounted(config, book, book.orders[k])
      {
        if !OrderAccounted(config, book, book.orders[i]) {
          return false;
        }
      }
      valid := true;
    }
  }

  /** The symbols to check are those held and those with ledger rows. */
  lemma PositionsListed(c: Config, b: Book, traded: set<Symbol>, symbols: seq<Symbol>)
    requires forall s :: s in symbols <==> s in b.positions || s in traded
    requires forall s :: s in traded <==> exists i :: 0 <= i < |b.positionLedger| && b.positionLedger[i].symbol == s
    ensures PositionsReconcile(c, b) <==> forall k :: 0 <= k < |symbols| ==> PositionReconciles(c, b, symbols[k])
  {
    hide PositionReconciles;
    if forall k :: 0 <= k < |symbols| ==> PositionReconciles(c, b, symbols[k]) {
      forall s | s in symbols
        ensures PositionReconciles(c, b, s)
      {
      }
      assert forall i :: 0 <= i < |b.positionLedger| ==> b.positionLedger[i].symbol in symbols;
    }
    if PositionsReconcile(c, b) {
      forall s | s in symbols
        ensures PositionReconciles(c, b, s)
      {
      }
    }
  }

  // ---------------------------------------- a failed step fails the whole loop

  lemma PlanSellsStep(e: Env, held: map<Symbol, Position>, b: Book, sells: seq<Proposal>, i: nat)
    requires i < |sells| && ProposalsQuoted(e, sells) && Broker.PlanSells(e, held, b, sells, i).Ok?
    ensures Broker.PlanSells(e, held, b, sells, i + 1) == PlanSell(e, held, Broker.PlanSells(e, held, b, sells, i).value, sells[i])
  {
  }

  lemma PlanNoSells(e: Env, held: map<Symbol, Position>, b: Book, sells: seq<Proposal>)
    requires ProposalsQuoted(e, sells)
    ensures Broker.PlanSells(e, held, b, sells, 0) == Ok(Work(b, []))
  {
  }

  lemma PlanSellCases(e: Env, held: map<Symbol, Position>, w: Work, p: Proposal)
    requires p.symbol in e.snapshot.quotes
    ensures var requested := Min(p.requested, Held(held, p.symbol));
            var terms := TermsFor(e, p);
            match Broker.CheckRange(e, w.book, p)
            case Err(error) => PlanSell(e, held, w, p) == Err(error)
            case Ok((b, proceed)) =>
              PlanSell(e, held, w, p)
              == if !proceed then Ok(Work(b, w.execs))
                 else match NormalizeFor(e, p.symbol, requested)
                      case Rejected(reason) => Ok(Work(Reject(b, RejectAt(e, p, reason, Times(requested, terms.execution), FinalStage)), w.execs))
                      case Accepted(n) => Ok(Work(b, w.execs + [Exec(p, n, terms)]))
  {
    hide Broker.CheckRange, NormalizeFor;
  }

  lemma PlanNoBuys(e: Env, b: Book, buys: seq<Proposal>)
    requires ProposalsQuoted(e, buys)
    ensures Broker.PlanBuys(e, b, buys, 0) == Ok(Work(b, [])) && Required(e.config, []) == 0.0
  {
  }

  lemma PlanBuysStep(e: Env, b: Book, buys: seq<Proposal>, i: nat)
    requires i < |buys| && ProposalsQuoted(e, buys) && Broker.PlanBuys(e, b, buys, i).Ok?
    ensures Broker.PlanBuys(e, b, buys, i + 1) == PlanBuy(e, Broker.PlanBuys(e, b, buys, i).value, buys[i])
  {
    hide PlanBuy;
  }

  lemma PlanBuyCases(e: Env, w: Work, p: Proposal)
    requires p.symbol in e.snapshot.quotes
    ensures match Broker.CheckRange(e, w.book, p)
            case Err(error) => PlanBuy(e, w, p) == Err(error)
            case Ok((b, proceed)) =>
              PlanBuy(e, w, p) == Ok(Work(b, if proceed then w.execs + [Exec(p, p.requested, TermsFor(e, p))] else w.execs))
  {
    hide Broker.CheckRange;
  }

  lemma RequiredAppend(c: Config, execs: seq<Exec>, x: Exec)
    ensures Required(c, execs + [x]) == Required(c, execs) + CostOf(c, x)
  {
    assert (execs + [x])[..|execs|] == execs;
  }

  lemma {:induction false} PlanSellsFails(e: Env, held: map<Symbol, Position>, b: Book, sells: seq<Proposal>,
                                          i: nat, n: nat)
    requires i <= n <= |sells| && ProposalsQuoted(e, sells) && Broker.PlanSells(e, held, b, sells, i).Err?
    ensures Broker.PlanSells(e, held, b, sells, n) == Broker.PlanSells(e, held, b, sells, i)
  {
    hide PlanSell;
    if i < n {
      PlanSellsFails(e, held, b, sells, i, n - 1);
    }
  }

  lemma {:induction false} PlanBuysFails(e: Env, b: Book, buys: seq<Proposal>, i: nat, n: nat)
    requires i <= n <= |buys| && ProposalsQuoted(e, buys) && Broker.PlanBuys(e, b, buys, i).Err?
    ensures Broker.PlanBuys(e, b, buys, n) == Broker.PlanBuys(e, b, buys, i)
  {
    hide PlanBuy;
    if i < n {
      PlanBuysFails(e, b, buys, i, n - 1);
    }
  }

  lemma {:induction false} FillAllFails(e: Env, b: Book, execs: seq<Exec>, i: nat)
    requires i <= |execs| && FillAll(e, b, execs[..i]).Err?
    ensures FillAll(e, b, execs) == FillAll(e, b, execs[..i])
    decreases |execs|
  {
    hide Broker.PersistFill;
    if i < |execs| {
      assert execs[..|execs| - 1][..i] == execs[..i];
      FillAllFails(e, b, execs[..|execs| - 1], i);
    } else {
      assert execs[..i] == execs;
    }
  }

  lemma {:induction false} FillBuysFails(e: Env, scale: real, b: Book, execs: seq<Exec>, i: nat, n: nat)
    requires i <= n <= |execs| && ExecsQuoted(e, execs) && Broker.FillBuys(e, scale, b, execs, i).Err?
    ensures Broker.FillBuys(e, scale, b, execs, n) == Broker.FillBuys(e, scale, b, execs, i)
  {
    hide FillBuy;
    if i < n {
      FillBuysFails(e, scale, b, execs, i, n - 1);
    }
  }
}
