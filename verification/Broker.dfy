/**
 The weekly execution of src/paper_broker.py over the tables of
 src/paper_store.py.  `Book` is the database content; `Execute` is the one
 transaction that fills a week's proposals, as a function of the old content.
 Err is a raised exception: the transaction rolls back and the book is unchanged.
 */
module Broker {
  import opened Common
  import opened Numbers
  import opened Quantities

  type Symbol = nat
  type RunId = nat

  /** The idempotency key; hashing account, signal time, asset and candidate is taken to be injective. */
  datatype Key = Key(signal: int, symbol: Symbol)

  datatype Config = Config(
    assets: seq<Symbol>, initialCash: real,
    feeRate: real, spreadRate: real, slippageRate: real, tolerance: real,
    requireRules: bool, requireRangeEvidence: bool)

  predicate Rate(r: real) {
    0.0 <= r < 1.0
  }

  /** What PaperConfig validates; the asset universe has no duplicates. */
  predicate ConfigOk(c: Config) {
    && Distinct(c.assets) && 0.0 < c.initialCash
    && Rate(c.feeRate) && Rate(c.spreadRate) && Rate(c.slippageRate)
    && 0.0 < c.tolerance < 1.0
    && (c.requireRangeEvidence ==> c.requireRules)
  }

  datatype Quote = Quote(bid: real, ask: real, last: Num)

  function Mid(q: Quote): real {
    (q.bid + q.ask) / 2.0
  }

  predicate QuoteOk(q: Quote) {
    0.0 < q.bid <= q.ask && 0.0 < Mid(q)
  }

  datatype Snapshot = Snapshot(
    quotes: map<Symbol, Quote>, rules: map<Symbol, SymbolRules>,
    references: map<Symbol, RuleReference>, ranges: map<Symbol, RangeEvidence>)

  function Get<K, V>(m: map<K, V>, k: K): Option<V> {
    if k in m then Some(m[k]) else None
  }

  /** The quote checks of `_validate_snapshot`: every configured asset, and nothing else, is quoted. */
  predicate SnapshotOk(c: Config, s: Snapshot) {
    && s.quotes.Keys == (set a | a in c.assets)
    && forall a :: a in c.assets ==> a in s.quotes && QuoteOk(s.quotes[a])
  }

  datatype Position = Position(quantity: real, averageCost: real)

  datatype Proposal = Proposal(key: Key, symbol: Symbol, side: Side, requested: real, targetWeight: real)
  datatype Terms = Terms(mid: real, base: real, execution: real)
  datatype Exec = Exec(proposal: Proposal, quantity: real, terms: Terms)

  datatype Order = Order(key: Key, run: RunId, symbol: Symbol, side: Side, requested: real, targetWeight: real)
  datatype Fill = Fill(key: Key, run: RunId, symbol: Symbol, side: Side, quantity: real,
                       mid: real, execution: real, spreadCost: real, slippageCost: real, fee: real)
  datatype CashEvent = InitialCapital | FillCash(key: Key)
  datatype CashRow = CashRow(event: CashEvent, run: Option<RunId>, amount: real, balanceAfter: real)
  datatype PositionRow = PositionRow(key: Key, run: RunId, symbol: Symbol, delta: real, quantityAfter: real)
  datatype Context = Context(run: RunId, symbol: Symbol, bid: real, ask: real, mid: real)
  datatype EvidenceRow = EvidenceRow(run: RunId, symbol: Symbol, evidence: Evidence)
  datatype RangeEvidenceRow = RangeEvidenceRow(run: RunId, symbol: Symbol, range: RangeEvidence)
  datatype Stage = ProposalStage | FinalStage
  datatype Rejection = Rejection(run: RunId, key: Key, symbol: Symbol, side: Side, stage: Stage, reason: Reason,
                                 notional: real, requested: real, targetWeight: real)
  datatype DecisionRow = DecisionRow(run: RunId, key: Key, symbol: Symbol, side: Side, execution: real, row: RangeRow)
  datatype EquityRow = EquityRow(run: RunId, cash: real, positionsValue: real, equity: real)
  datatype Outcome = NoRebalanceRequired | ExecutionRejected | PartialExecution | FullExecution

  datatype Book = Book(
    cash: real, positions: map<Symbol, Position>,
    orders: seq<Order>, fills: seq<Fill>, cashLedger: seq<CashRow>, positionLedger: seq<PositionRow>,
    contexts: seq<Context>, evidence: seq<EvidenceRow>, ranges: seq<RangeEvidenceRow>,
    rejections: seq<Rejection>, decisions: seq<DecisionRow>,
    equity: seq<EquityRow>, outcomes: map<RunId, Outcome>)

  datatype Error = DuplicateOrder | MissingRangeEvidence | InvalidEvidence | ZeroDivision | NegativeCash

  /** What one execution works with. */
  datatype Env = Env(config: Config, snapshot: Snapshot, run: RunId, signal: int)

  function OpenBook(c: Config): Book {
    Book(c.initialCash, map[], [], [], [CashRow(InitialCapital, None, c.initialCash, c.initialCash)], [],
         [], [], [], [], [], [], map[])
  }

  function Held(positions: map<Symbol, Position>, s: Symbol): real {
    if s in positions then positions[s].quantity else 0.0
  }

  /** Sum over the listed assets of held quantity at mid price. */
  function MarkedValue(assets: seq<Symbol>, positions: map<Symbol, Position>, quotes: map<Symbol, Quote>): real {
    if assets == [] then 0.0
    else
      var s := assets[|assets| - 1];
      MarkedValue(assets[..|assets| - 1], positions, quotes)
      + (if s in quotes then Times(Held(positions, s), Mid(quotes[s])) else 0.0)
  }

  function Equity(c: Config, b: Book, quotes: map<Symbol, Quote>): real {
    b.cash + MarkedValue(c.assets, b.positions, quotes)
  }

  // ---------------------------------------------------------------- proposals

  function ReferenceFor(s: Snapshot, a: Symbol): Option<Num>
    requires a in s.quotes
  {
    RuleReferencePrice(Get(s.references, a), Get(s.rules, a), s.quotes[a].last)
  }

  function NormalizeFor(e: Env, a: Symbol, quantity: real): Verdict
    requires a in e.snapshot.quotes
  {
    Normalize(Get(e.snapshot.rules, a), e.config.requireRules, e.config.tolerance, quantity, ReferenceFor(e.snapshot, a))
  }

  function RejectAt(e: Env, p: Proposal, reason: Reason, notional: real, stage: Stage): Rejection {
    Rejection(e.run, p.key, p.symbol, p.side, stage, reason, notional, p.requested, p.targetWeight)
  }

  datatype Proposed = Proposed(proposals: seq<Proposal>, rejections: seq<Rejection>)

  /** Signed distance from the held to the desired quantity. */
  function TargetDelta(e: Env, b: Book, weights: map<Symbol, real>, a: Symbol): real
    requires SnapshotOk(e.config, e.snapshot) && a in e.config.assets
  {
    var weight := if a in weights then weights[a] else 0.0;
    Times(Equity(e.config, b, e.snapshot.quotes), weight) / Mid(e.snapshot.quotes[a]) - Held(b.positions, a)
  }

  predicate Intent(e: Env, b: Book, weights: map<Symbol, real>, a: Symbol)
    requires SnapshotOk(e.config, e.snapshot) && a in e.config.assets
  {
    e.config.tolerance < Abs(TargetDelta(e, b, weights, a))
  }

  function IntentProposal(e: Env, b: Book, weights: map<Symbol, real>, a: Symbol): Proposal
    requires SnapshotOk(e.config, e.snapshot) && a in e.config.assets
  {
    var delta := TargetDelta(e, b, weights, a);
    Proposal(Key(e.signal, a), a, if delta > 0.0 then Buy else Sell, Abs(delta),
             if a in weights then weights[a] else 0.0)
  }

  function ProposeStep(e: Env, b: Book, weights: map<Symbol, real>, a: Symbol, acc: Proposed): Proposed
    requires SnapshotOk(e.config, e.snapshot) && a in e.config.assets
  {
    if !Intent(e, b, weights, a) then acc
    else
      var p := IntentProposal(e, b, weights, a);
      match NormalizeFor(e, a, p.requested)
      case Rejected(reason) =>
        acc.(rejections := acc.rejections
          + [RejectAt(e, p, reason, Times(p.requested, Mid(e.snapshot.quotes[a])), ProposalStage)])
      case Accepted(n) => acc.(proposals := acc.proposals + [p.(requested := n)])
  }

  /** `_proposals` over the first n configured assets. */
  function Proposals(e: Env, b: Book, weights: map<Symbol, real>, n: nat): Proposed
    requires SnapshotOk(e.config, e.snapshot) && n <= |e.config.assets|
  {
    if n == 0 then Proposed([], [])
    else ProposeStep(e, b, weights, e.config.assets[n - 1], Proposals(e, b, weights, n - 1))
  }

  // ---------------------------------------------------------------- execution

  /** `_execution_terms`: the worse of quote and minimum spread, then slippage. */
  function ExecutionTerms(c: Config, q: Quote, side: Side): Terms {
    var mid := Mid(q);
    match side
    case Buy =>
      var base := Max(q.ask, Times(mid, 1.0 + c.spreadRate));
      Terms(mid, base, Times(base, 1.0 + c.slippageRate))
    case Sell =>
      var base := Min(q.bid, Times(mid, 1.0 - c.spreadRate));
      Terms(mid, base, Times(base, 1.0 - c.slippageRate))
  }

  predicate KeyUsed(orders: seq<Order>, key: Key) {
    exists i :: 0 <= i < |orders| && orders[i].key == key
  }

  function FillOf(e: Env, x: Exec): Fill {
    var p := x.proposal;
    Fill(p.key, e.run, p.symbol, p.side, x.quantity, x.terms.mid, x.terms.execution,
         Times(x.quantity, Abs(x.terms.base - x.terms.mid)),
         Times(x.quantity, Abs(x.terms.execution - x.terms.base)),
         Times(Times(x.quantity, x.terms.execution), e.config.feeRate))
  }

  function CashDelta(f: Fill): real {
    var notional := Times(f.quantity, f.execution);
    if f.side.Sell? then notional - f.fee else -(notional + f.fee)
  }

  function QuantityDelta(f: Fill): real {
    if f.side.Sell? then -f.quantity else f.quantity
  }

  /** Quantities within the tolerance of zero are stored as zero. */
  function Snap(c: Config, quantity: real): real {
    if Abs(quantity) <= c.tolerance then 0.0 else quantity
  }

  /** `persist_fill`: one order, fill, cash row, position row and position update. */
  function PersistFill(e: Env, b: Book, x: Exec): Result<Book, Error> {
    var p := x.proposal;
    var f := FillOf(e, x);
    var current := if p.symbol in b.positions then b.positions[p.symbol] else Position(0.0, 0.0);
    var quantity := current.quantity + QuantityDelta(f);
    if f.side.Buy? && quantity == 0.0 then Err(ZeroDivision)
    else if KeyUsed(b.orders, p.key) then Err(DuplicateOrder)
    else
      var average :=
        if f.side.Sell? then (if quantity > e.config.tolerance then current.averageCost else 0.0)
        else (Times(current.quantity, current.averageCost) + Times(f.quantity, f.execution)) / quantity;
      var cash := b.cash + CashDelta(f);
      var stored := Snap(e.config, quantity);
      Ok(b.(cash := cash,
            positions := b.positions[p.symbol := Position(stored, average)],
            orders := b.orders + [Order(p.key, e.run, p.symbol, p.side, x.quantity, p.targetWeight)],
            fills := b.fills + [f],
            cashLedger := b.cashLedger + [CashRow(FillCash(p.key), Some(e.run), CashDelta(f), cash)],
            positionLedger := b.positionLedger
              + [PositionRow(p.key, e.run, p.symbol, QuantityDelta(f), stored)]))
  }

  /** The evidence coverage and reference-price checks at the start of `_execute`. */
  function CheckEvidence(c: Config, s: Snapshot): Result<(), Error> {
    var universe := set a | a in c.assets;
    if c.requireRangeEvidence && (s.ranges.Keys != universe || s.references.Keys != universe) then
      Err(MissingRangeEvidence)
    else if c.requireRangeEvidence
         && exists a :: a in c.assets && (s.ranges[a].status.TransportFailure? || s.ranges[a].status.MalformedResponse?)
      then Err(InvalidEvidence)
    else if exists a :: a in s.references && s.references[a].source.ReferencePrice? && !PositiveFloat(s.references[a].price)
      then Err(InvalidEvidence)
    else Ok(())
  }

  function EvidenceOf(e: Env, a: Symbol): EvidenceRow
    requires a in e.snapshot.quotes
  {
    EvidenceRow(e.run, a, RecordEvidence(Get(e.snapshot.references, a), Get(e.snapshot.rules, a), e.snapshot.quotes[a].last))
  }

  function RangeOf(e: Env, a: Symbol): RangeEvidence {
    if a in e.snapshot.ranges then e.snapshot.ranges[a]
    else RangeEvidence(TransportFailure, None, None, None, None, None)
  }

  function ContextOf(e: Env, a: Symbol): Context
    requires a in e.snapshot.quotes
  {
    var q := e.snapshot.quotes[a];
    Context(e.run, a, q.bid, q.ask, Mid(q))
  }

  predicate ProposalsQuoted(e: Env, ps: seq<Proposal>) {
    forall i :: 0 <= i < |ps| ==> ps[i].symbol in e.snapshot.quotes
  }

  function EvidenceRows(e: Env, n: nat): seq<EvidenceRow>
    requires SnapshotOk(e.config, e.snapshot) && n <= |e.config.assets|
  {
    seq(n, i requires 0 <= i < n => EvidenceOf(e, e.config.assets[i]))
  }

  function RangeRows(e: Env, n: nat): seq<RangeEvidenceRow>
    requires n <= |e.config.assets|
  {
    if !e.config.requireRangeEvidence then []
    else seq(n, i requires 0 <= i < n => RangeEvidenceRow(e.run, e.config.assets[i], RangeOf(e, e.config.assets[i])))
  }

  function ContextRows(e: Env, ps: seq<Proposal>, n: nat): seq<Context>
    requires ProposalsQuoted(e, ps) && n <= |ps|
  {
    seq(n, i requires 0 <= i < n => ContextOf(e, ps[i].symbol))
  }

  /** Evidence for every asset and an execution context for every proposal, before any decision. */
  function StageEvidence(e: Env, b: Book, ps: seq<Proposal>, rejections: seq<Rejection>): Book
    requires SnapshotOk(e.config, e.snapshot) && ProposalsQuoted(e, ps)
  {
    b.(evidence := b.evidence + EvidenceRows(e, |e.config.assets|),
       ranges := b.ranges + RangeRows(e, |e.config.assets|),
       contexts := b.contexts + ContextRows(e, ps, |ps|),
       rejections := b.rejections + rejections)
  }

  /** A book being written together with the orders still to be filled. */
  datatype Work = Work(book: Book, execs: seq<Exec>)

  function Reject(b: Book, r: Rejection): Book {
    b.(rejections := b.rejections + [r])
  }

  function TermsFor(e: Env, p: Proposal): Terms
    requires p.symbol in e.snapshot.quotes
  {
    ExecutionTerms(e.config, e.snapshot.quotes[p.symbol], p.side)
  }

  /** Record the PRICE_RANGE decision, when required; true lets the proposal proceed. */
  function CheckRange(e: Env, b: Book, p: Proposal): Result<(Book, bool), Error>
    requires p.symbol in e.snapshot.quotes
  {
    if !e.config.requireRangeEvidence then Ok((b, true))
    else
      var terms := TermsFor(e, p);
      var reference := Get(e.snapshot.references, p.symbol);
      match EvaluateRange(RangeOf(e, p.symbol), reference, p.side, terms.execution)
      case Err(_) => Err(InvalidEvidence)
      case Ok(d) =>
        var recorded := b.(decisions := b.decisions
          + [DecisionRow(e.run, p.key, p.symbol, p.side, terms.execution, RecordRange(d, reference))]);
        var notional := Times(p.requested, terms.execution);
        match d.outcome
        case RangeRejected => Ok((Reject(recorded, RejectAt(e, p, PriceRangeExceeded, notional, FinalStage)), false))
        case EvidenceUnavailable =>
          Ok((Reject(recorded, RejectAt(e, p, RangeEvidenceUnavailable, notional, FinalStage)), false))
        case _ => Ok((recorded, true))
  }

  function PlanSell(e: Env, positions: map<Symbol, Position>, w: Work, p: Proposal): Result<Work, Error>
    requires p.symbol in e.snapshot.quotes
  {
    var (b, proceed) :- CheckRange(e, w.book, p);
    if !proceed then Ok(w.(book := b))
    else
      var requested := Min(p.requested, Held(positions, p.symbol));
      var terms := TermsFor(e, p);
      match NormalizeFor(e, p.symbol, requested)
      case Rejected(reason) =>
        Ok(w.(book := Reject(b, RejectAt(e, p, reason, Times(requested, terms.execution), FinalStage))))
      case Accepted(n) => Ok(Work(b, w.execs + [Exec(p, n, terms)]))
  }

  function PlanSells(e: Env, positions: map<Symbol, Position>, b: Book, sells: seq<Proposal>, n: nat): Result<Work, Error>
    requires n <= |sells| && ProposalsQuoted(e, sells)
  {
    if n == 0 then Ok(Work(b, []))
    else
      var w :- PlanSells(e, positions, b, sells, n - 1);
      PlanSell(e, positions, w, sells[n - 1])
  }

  function PlanBuy(e: Env, w: Work, p: Proposal): Result<Work, Error>
    requires p.symbol in e.snapshot.quotes
  {
    var (b, proceed) :- CheckRange(e, w.book, p);
    if !proceed then Ok(w.(book := b))
    else Ok(Work(b, w.execs + [Exec(p, p.requested, TermsFor(e, p))]))
  }

  function PlanBuys(e: Env, b: Book, buys: seq<Proposal>, n: nat): Result<Work, Error>
    requires n <= |buys| && ProposalsQuoted(e, buys)
  {
    if n == 0 then Ok(Work(b, []))
    else
      var w :- PlanBuys(e, b, buys, n - 1);
      PlanBuy(e, w, buys[n - 1])
  }

  /** Cash one planned buy needs at its full requested quantity, fee included. */
  function CostOf(c: Config, x: Exec): real {
    Times(Times(x.quantity, x.terms.execution), 1.0 + c.feeRate)
  }

  function Required(c: Config, execs: seq<Exec>): real {
    if execs == [] then 0.0
    else Required(c, execs[..|execs| - 1]) + CostOf(c, execs[|execs| - 1])
  }

  /** Persist fills one after another. */
  function FillAll(e: Env, b: Book, execs: seq<Exec>): Result<Book, Error> {
    if execs == [] then Ok(b)
    else
      var w :- FillAll(e, b, execs[..|execs| - 1]);
      PersistFill(e, w, execs[|execs| - 1])
  }

  /** One scaled buy: round down, refuse what no longer fits, fill the rest. */
  function FillBuy(e: Env, scale: real, b: Book, x: Exec): Result<Book, Error>
    requires x.proposal.symbol in e.snapshot.quotes
  {
    var p := x.proposal;
    var scaled := Times(x.quantity, scale);
    match NormalizeFor(e, p.symbol, scaled)
    case Rejected(reason) =>
      Ok(Reject(b, RejectAt(e, p, reason, Times(scaled, x.terms.execution), FinalStage)))
    case Accepted(n) =>
      var notional := Times(n, x.terms.execution);
      if notional + Times(notional, e.config.feeRate) > b.cash then
        Ok(Reject(b, RejectAt(e, p, InsufficientCash, notional, FinalStage)))
      else PersistFill(e, b, x.(quantity := n))
  }

  predicate ExecsQuoted(e: Env, execs: seq<Exec>) {
    forall i :: 0 <= i < |execs| ==> execs[i].proposal.symbol in e.snapshot.quotes
  }

  function FillBuys(e: Env, scale: real, b: Book, execs: seq<Exec>, n: nat): Result<Book, Error>
    requires n <= |execs| && ExecsQuoted(e, execs)
  {
    if n == 0 then Ok(b)
    else
      var w :- FillBuys(e, scale, b, execs, n - 1);
      FillBuy(e, scale, w, execs[n - 1])
  }

  function OnSide(ps: seq<Proposal>, side: Side): (r: seq<Proposal>)
    ensures forall i :: 0 <= i < |r| ==> r[i] in ps && r[i].side == side
    ensures forall p :: p in ps && p.side == side ==> p in r
  {
    if ps == [] then []
    else
      var rest := OnSide(ps[..|ps| - 1], side);
      if ps[|ps| - 1].side == side then rest + [ps[|ps| - 1]] else rest
  }

  function CountRun(orders: seq<Order>, run: RunId): nat {
    if orders == [] then 0
    else CountRun(orders[..|orders| - 1], run) + (if orders[|orders| - 1].run == run then 1 else 0)
  }

  function CountRejections(rejections: seq<Rejection>, run: RunId): nat {
    if rejections == [] then 0
    else CountRejections(rejections[..|rejections| - 1], run)
         + (if rejections[|rejections| - 1].run == run then 1 else 0)
  }

  /** `classify_execution_outcome`. */
  function Classify(proposed: int, executed: int, rejected: int): Outcome {
    if proposed == 0 then NoRebalanceRequired
    else if executed == 0 then ExecutionRejected
    else if rejected != 0 || executed < proposed then PartialExecution
    else FullExecution
  }

  /** The end of the transaction: equity snapshot, then the outcome of `rejected` rejections. */
  function Settle(e: Env, b: Book, rejected: int): Book {
    var value := MarkedValue(e.config.assets, b.positions, e.snapshot.quotes);
    var executed := CountRun(b.orders, e.run);
    b.(equity := b.equity + [EquityRow(e.run, b.cash, value, b.cash + value)],
       outcomes := b.outcomes[e.run := Classify(executed + rejected, executed, rejected)])
  }

  lemma PlannedQuoted(e: Env, b: Book, buys: seq<Proposal>, n: nat)
    requires n <= |buys| && ProposalsQuoted(e, buys)
    ensures PlanBuys(e, b, buys, n).Ok? ==> ExecsQuoted(e, PlanBuys(e, b, buys, n).value.execs)
  {
  }

  function ExecuteBuys(e: Env, b: Book, planned: seq<Exec>): Result<Book, Error>
    requires ExecsQuoted(e, planned)
  {
    var required := Required(e.config, planned);
    if required > 0.0 then FillBuys(e, BuyScale(b.cash, required), b, planned, |planned|)
    else Ok(b)
  }

  /** `_execute`: sells planned and filled first, then every buy scaled to the cash. */
  function Execute(e: Env, b: Book, ps: seq<Proposal>, rejections: seq<Rejection>): Result<Book, Error>
    requires SnapshotOk(e.config, e.snapshot) && ProposalsQuoted(e, ps)
  {
    var _ :- CheckEvidence(e.config, e.snapshot);
    var staged := StageEvidence(e, b, ps, rejections);
    var sells, buys := OnSide(ps, Sell), OnSide(ps, Buy);
    var sellPlan :- PlanSells(e, b.positions, staged, sells, |sells|);
    var buyPlan :- PlanBuys(e, sellPlan.book, buys, |buys|);
    PlannedQuoted(e, sellPlan.book, buys, |buys|);
    var sold :- FillAll(e, buyPlan.book, sellPlan.execs);
    var bought :- ExecuteBuys(e, sold, buyPlan.execs);
    if bought.cash < 0.0 then Err(NegativeCash)
    else Ok(Settle(e, bought, |bought.rejections| - |b.rejections|))
  }

  // -------------------------------------------------------------------- weeks

  datatype Week = Week(snapshot: Snapshot, run: RunId, signal: int, weights: map<Symbol, real>)

  function WeekEnv(c: Config, w: Week): Env {
    Env(c, w.snapshot, w.run, w.signal)
  }

  /** Proposals are quoted because they come from the configured assets. */
  lemma {:induction false} ProposalsAreQuoted(e: Env, b: Book, weights: map<Symbol, real>, n: nat)
    requires SnapshotOk(e.config, e.snapshot) && n <= |e.config.assets|
    ensures ProposalsQuoted(e, Proposals(e, b, weights, n).proposals)
  {
    if n > 0 {
      ProposalsAreQuoted(e, b, weights, n - 1);
    }
  }

  /**
   One weekly `run`: propose and execute.  A snapshot that fails validation
   halts before any write, a run id already used is refused by the primary key,
   and an exception rolls the transaction back: the book is then unchanged.
   */
  function ExecuteWeek(c: Config, b: Book, w: Week): Result<Book, Error>
    requires SnapshotOk(c, w.snapshot)
  {
    var e := WeekEnv(c, w);
    ProposalsAreQuoted(e, b, w.weights, |c.assets|);
    var p := Proposals(e, b, w.weights, |c.assets|);
    Execute(e, b, p.proposals, p.rejections)
  }

  function RunWeek(c: Config, b: Book, w: Week): Book {
    if !SnapshotOk(c, w.snapshot) || w.run in b.outcomes then b
    else
      match ExecuteWeek(c, b, w)
      case Ok(after) => after
      case Err(_) => b
  }

  function RunWeeks(c: Config, b: Book, weeks: seq<Week>): Book {
    if weeks == [] then b
    else RunWeek(c, RunWeeks(c, b, weeks[..|weeks| - 1]), weeks[|weeks| - 1])
  }
}
