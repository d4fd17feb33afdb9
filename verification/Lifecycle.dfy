/**
 The run lifecycle of src/paper_broker.py and src/paper_store.py under crashes.
 Each operation is the sequence of stores its transactions commit, one after
 another; a crash or exception stops it after any number of them.  Recovery runs
 when the store is next opened, and may itself be interrupted.
 */
module Lifecycle {
  import opened Common
  import opened Quantities
  import opened Broker
  import opened BrokerIntents
  import opened Reconcile

  type ScheduleKey = nat

  datatype Mode = Paper | DryRun

  datatype FailureKind =
    | DataQualityFailure | ReleaseProvenanceFailure | ReconciliationFailure | KillSwitchActivated | OtherFailure

  datatype Status =
    | Running | ProvenanceMissing | KillSwitch | DataHalt | NoRebalance | DryRunDone | Executed
    | RecoveredCommitted | RecoveredAborted | Failed(kind: FailureKind)

  /** One row of paper_runs. */
  datatype Run = Run(mode: Mode, status: Status, key: Option<ScheduleKey>, attempted: Option<ScheduleKey>)

  /** `snapshots` are the runs with an equity snapshot; `book` holds the trading tables. */
  datatype Store = Store(runs: map<RunId, Run>, snapshots: set<RunId>, book: Book, halted: bool)

  function OpenStore(c: Config): Store {
    Store(map[], {}, OpenBook(c), false)
  }

  predicate KeyTaken(s: Store, k: ScheduleKey) {
    exists r :: r in s.runs && s.runs[r].key == Some(k)
  }

  // ------------------------------------------------------------- transactions

  /** `insert_run`: refused for a used id, a taken key, or an official run without provenance. */
  function InsertRun(s: Store, id: RunId, mode: Mode, key: Option<ScheduleKey>, attempted: Option<ScheduleKey>, admitted: bool): Option<Store> {
    if !admitted || id in s.runs || (key.Some? && KeyTaken(s, key.value)) then None
    else Some(s.(runs := s.runs[id := Run(mode, Running, key, attempted)]))
  }

  function SetStatus(s: Store, id: RunId, status: Status): Store
    requires id in s.runs
  {
    s.(runs := s.runs[id := s.runs[id].(status := status)])
  }

  /** `_persist_equity` outside the execution transaction. */
  function AddSnapshot(s: Store, id: RunId): Store {
    s.(snapshots := s.snapshots + {id})
  }

  /** `activate_kill_switch`, and the account it halts. */
  function Halt(s: Store): Store {
    s.(halted := true)
  }

  // --------------------------------------------------------------- operations

  /** What one invocation of `run` sees: `window` is `_scheduled_key(now)`. */
  datatype RunInput = RunInput(
    week: Week, dryRun: bool, window: Option<ScheduleKey>,
    official: bool, requireProvenance: bool, provenance: bool, dataError: bool)


  /** Open a run and finish it at once with the given status. */
  function InsertAndFinish(s: Store, id: RunId, mode: Mode, key: Option<ScheduleKey>, attempted: Option<ScheduleKey>,
                           admitted: bool, status: Status): seq<Store>
  {
    match InsertRun(s, id, mode, key, attempted, admitted)
    case None => []
    case Some(s1) => [s1, SetStatus(s1, id, status)]
  }

  /** Open a run, halt the account, finish. */
  function InsertAndHalt(s: Store, id: RunId, mode: Mode, key: Option<ScheduleKey>, admitted: bool, status: Status): seq<Store> {
    match InsertRun(s, id, mode, key, None, admitted)
    case None => []
    case Some(s1) => [s1, Halt(s1), SetStatus(Halt(s1), id, status)]
  }

  /** Open a run, mark the account to market, finish. */
  function InsertAndMark(s: Store, id: RunId, mode: Mode, admitted: bool, status: Status): seq<Store> {
    match InsertRun(s, id, mode, None, None, admitted)
    case None => []
    case Some(s1) => [s1, AddSnapshot(s1, id), SetStatus(AddSnapshot(s1, id), id, status)]
  }

  /** The commit of `_execute`: fills, ledgers, equity snapshot and outcome together. */
  function CommitExecution(s: Store, id: RunId, b: Book): Store {
    s.(book := b, snapshots := s.snapshots + {id})
  }

  /** `_execute`, the audit of its result, and `finish_run`, which refuses a changed outcome. */
  function ExecuteSteps(c: Config, s: Store, w: Week): seq<Store>
    requires SnapshotOk(c, w.snapshot) && w.run in s.runs
  {
    match ExecuteWeek(c, s.book, w)
    case Err(_) => []
    case Ok(b) =>
      var done := CommitExecution(s, w.run, b);
      var conflict := w.run !in b.outcomes || b.outcomes[w.run] != RecomputedOutcome(b, w.run);
      if Reconciles(c, b) then [done] + (if conflict then [] else [SetStatus(done, w.run, Executed)])
      else [done, Halt(done)] + (if conflict then [] else [SetStatus(Halt(done), w.run, KillSwitch)])
  }

  /** `run`, branch by branch. */
  function RunSteps(c: Config, s: Store, i: RunInput): seq<Store> {
    var id := i.week.run;
    var mode := if i.dryRun then DryRun else Paper;
    var official := i.official || i.requireProvenance;
    var scheduled := if official then i.window else None;
    var admitted := !official || i.provenance;
    if i.requireProvenance && !i.provenance then
      InsertAndFinish(s, id, mode, None, scheduled, true, ProvenanceMissing)
    else if s.halted then
      InsertAndFinish(s, id, mode, scheduled, None, admitted, KillSwitch)
    else if !Reconciles(c, s.book) then
      InsertAndHalt(s, id, mode, scheduled, admitted, KillSwitch)
    else if i.dataError || !SnapshotOk(c, i.week.snapshot) then
      InsertAndFinish(s, id, mode, None, scheduled, admitted, DataHalt)
    else if i.window.None? then
      InsertAndMark(s, id, mode, admitted, NoRebalance)
    else if i.dryRun then
      InsertAndMark(s, id, mode, !official, DryRunDone)
    else if KeyTaken(s, i.window.value) then []
    else
      match InsertRun(s, id, Paper, i.window, None, admitted)
      case None => []
      case Some(s1) => [s1] + ExecuteSteps(c, s1, i.week)
  }

  datatype FailureInput = FailureInput(
    run: RunId, kind: FailureKind, retryableAdmission: bool, window: Option<ScheduleKey>, official: bool, provenance: bool)

  predicate Retryable(f: FailureInput) {
    f.kind.DataQualityFailure? || (f.kind.ReleaseProvenanceFailure? && f.retryableAdmission)
  }

  /** `commit_operational_failure`. */
  function FailureSteps(s: Store, f: FailureInput): seq<Store> {
    var key := if Retryable(f) then None else f.window;
    var attempted := if Retryable(f) then f.window else None;
    var admitted := !f.official || f.provenance || f.kind.ReleaseProvenanceFailure?;
    if key.Some? && KeyTaken(s, key.value) then []
    else if (f.kind.ReconciliationFailure? || f.kind.KillSwitchActivated?) && !s.halted then
      InsertAndHalt(s, f.run, Paper, key, admitted, Failed(f.kind))
    else
      InsertAndFinish(s, f.run, Paper, key, attempted, admitted, Failed(f.kind))
  }

  /** One row of `recover_abandoned_runs`: the equity snapshot decides. */
  function RecoverRun(s: Store, r: RunId): Store {
    if r !in s.runs then s
    else if r in s.snapshots then SetStatus(s, r, RecoveredCommitted)
    else s.(runs := s.runs[r := s.runs[r].(status := RecoveredAborted, key := None)])
  }

  function RecoverSteps(s: Store, order: seq<RunId>): seq<Store>
    decreases |order|
  {
    if order == [] then [] else [RecoverRun(s, order[0])] + RecoverSteps(RecoverRun(s, order[0]), order[1..])
  }

  /** The running rows, in whatever order the query lists them. */
  predicate ListsRunning(s: Store, order: seq<RunId>) {
    && Distinct(order)
    && (forall i :: 0 <= i < |order| ==> order[i] in s.runs && s.runs[order[i]].status.Running?)
    && forall r :: r in s.runs && s.runs[r].status.Running? ==> r in order
  }

  /** `commits` is how many transactions complete before the operation stops. */
  datatype Op =
    | DoRun(input: RunInput, commits: nat)
    | DoFailure(failure: FailureInput, commits: nat)
    | Restart(order: seq<RunId>, commits: nat)
    | ResetKillSwitch

  function After(s: Store, steps: seq<Store>, commits: nat): Store {
    if commits == 0 || steps == [] then s
    else if commits < |steps| then steps[commits - 1]
    else steps[|steps| - 1]
  }

  function Step(c: Config, s: Store, op: Op): Store {
    match op
    case DoRun(i, n) => After(s, RunSteps(c, s, i), n)
    case DoFailure(f, n) => After(s, FailureSteps(s, f), n)
    case Restart(order, n) => if ListsRunning(s, order) then After(s, RecoverSteps(s, order), n) else s
    case ResetKillSwitch => if Reconciles(c, s.book) then s.(halted := false) else s
  }

  function History(c: Config, ops: seq<Op>): Store {
    if ops == [] then OpenStore(c) else Step(c, History(c, ops[..|ops| - 1]), ops[|ops| - 1])
  }
}
