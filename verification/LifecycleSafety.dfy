/**
 Exactly-once trading per schedule key, over every sequence of runs, failures,
 crashes between transactions, restarts and kill-switch resets.
 */
module LifecycleSafety {
  import opened Common
  import opened Quantities
  import opened Broker
  import opened BrokerSolvency
  import opened BrokerLedger
  import opened BrokerIntents
  import opened BrokerRows
  import opened BrokerAudit
  import opened BrokerWeeks
  import opened Reconcile
  import opened Lifecycle

  /** The run has committed fills; each order is filled in the transaction that inserts it. */
  predicate Traded(b: Book, r: RunId) {
    exists i :: 0 <= i < |b.orders| && b.orders[i].run == r
  }

  predicate Owns(s: Store, r: RunId, k: ScheduleKey) {
    r in s.runs && s.runs[r].key == Some(k)
  }

  /** A failed admission: it must leave the week's key free. */
  predicate TakesNoKey(status: Status) {
    || status.DataHalt? || status.ProvenanceMissing? || status.NoRebalance? || status.DryRunDone? || status.RecoveredAborted?
    || status == Failed(DataQualityFailure)
  }

  predicate MayHaveTraded(status: Status) {
    status.Running? || status.Executed? || status.KillSwitch? || status.RecoveredCommitted?
  }

  predicate RunOk(s: Store, r: RunId)
    requires r in s.runs
  {
    var run := s.runs[r];
    && (r in s.book.outcomes ==> run.mode.Paper? && run.key.Some? && r in s.snapshots && MayHaveTraded(run.status))
    && (TakesNoKey(run.status) ==> run.key.None?)
    && (run.status.RecoveredAborted? ==> r !in s.snapshots)
    && (run.status.RecoveredCommitted? ==> r in s.snapshots)
  }

  /** Rows of the trading tables belong to runs whose execution committed. */
  ghost predicate BookClosed(b: Book) {
    && (forall i :: 0 <= i < |b.orders| ==> b.orders[i].run in b.outcomes)
    && forall i :: 0 <= i < |b.rejections| ==> b.rejections[i].run in b.outcomes
  }

  ghost predicate Inv(c: Config, s: Store) {
    && (forall r, q :: r in s.runs && q in s.runs && s.runs[r].key.Some? && s.runs[r].key == s.runs[q].key ==> r == q)
    && (forall r :: r in s.runs ==> RunOk(s, r))
    && (forall r :: r in s.snapshots ==> r in s.runs)
    && (forall r :: r in s.book.outcomes ==> r in s.runs)
    && BookClosed(s.book) && BookOk(c, s.book)
  }

  /** What no operation ever takes back. */
  ghost predicate Grows(s: Store, t: Store) {
    && s.snapshots <= t.snapshots && s.book.outcomes.Keys <= t.book.outcomes.Keys
    && |s.book.orders| <= |t.book.orders| && t.book.orders[..|s.book.orders|] == s.book.orders
    && forall r :: r in s.runs ==>
         && r in t.runs && t.runs[r].mode == s.runs[r].mode
         && (r in s.snapshots ==> t.runs[r].key == s.runs[r].key)
         && (t.runs[r].key == s.runs[r].key || t.runs[r].key.None?)
  }

  lemma GrowsTransitive(s: Store, t: Store, u: Store)
    requires Grows(s, t) && Grows(t, u)
    ensures Grows(s, u)
  {
    assert u.book.orders[..|s.book.orders|] == u.book.orders[..|t.book.orders|][..|s.book.orders|];
  }

  ghost predicate Sound(c: Config, s: Store, steps: seq<Store>) {
    forall i :: 0 <= i < |steps| ==> Inv(c, steps[i]) && Grows(s, steps[i])
  }

  // ------------------------------------------------------- single transactions

  lemma InsertKeeps(c: Config, s: Store, id: RunId, mode: Mode, key: Option<ScheduleKey>,
                    attempted: Option<ScheduleKey>, admitted: bool)
    requires Inv(c, s) && InsertRun(s, id, mode, key, attempted, admitted).Some?
    ensures var t := InsertRun(s, id, mode, key, attempted, admitted).value;
            && Inv(c, t) && Grows(s, t) && t.book == s.book && t.halted == s.halted
            && id !in s.runs && id in t.runs && t.runs[id] == Run(mode, Running, key, attempted)
            && id !in t.snapshots && id !in t.book.outcomes
  {
    hide BookOk;
  }

  lemma SetStatusKeeps(c: Config, s: Store, id: RunId, status: Status)
    requires Inv(c, s) && id in s.runs
    requires id in s.book.outcomes ==> MayHaveTraded(status)
    requires TakesNoKey(status) ==> s.runs[id].key.None?
    requires !status.RecoveredAborted? && (status.RecoveredCommitted? ==> id in s.snapshots)
    ensures Inv(c, SetStatus(s, id, status)) && Grows(s, SetStatus(s, id, status))
  {
    hide BookOk;
  }

  lemma HaltKeeps(c: Config, s: Store)
    requires Inv(c, s)
    ensures Inv(c, Halt(s)) && Grows(s, Halt(s))
  {
    hide BookOk;
  }

  lemma AddSnapshotKeeps(c: Config, s: Store, id: RunId)
    requires Inv(c, s) && id in s.runs && s.runs[id].status.Running?
    ensures Inv(c, AddSnapshot(s, id)) && Grows(s, AddSnapshot(s, id))
  {
    hide BookOk;
  }

  lemma RecoverRunKeeps(c: Config, s: Store, r: RunId)
    requires Inv(c, s) && (r in s.runs ==> s.runs[r].status.Running?)
    ensures Inv(c, RecoverRun(s, r)) && Grows(s, RecoverRun(s, r))
  {
    hide BookOk, BookClosed;
    if r in s.runs && r in s.snapshots {
      SetStatusKeeps(c, s, r, RecoveredCommitted);
    } else if r in s.runs {
      var t := RecoverRun(s, r);
      assert RunOk(s, r);
      forall q | q in t.runs
        ensures RunOk(t, q)
      {
        assert RunOk(s, q);
      }
    }
  }

  lemma ExecuteOutcomes(e: Env, b: Book, ps: seq<Proposal>, rejections: seq<Rejection>)
    requires EnvOk(e) && ProposalsOk(e, ps) && ProposalsQuoted(e, ps) && BookOk(e.config, b)
    requires ProposalRejections(e, rejections)
    requires Execute(e, b, ps, rejections).Ok?
    ensures Execute(e, b, ps, rejections).value.outcomes.Keys == b.outcomes.Keys + {e.run}
  {
    hide Execute, RejectionSound, KeysSettled, LedgersOk, StageEvidence, Backed;
    ExecuteSettlesRows(e, b, ps, rejections);
  }

  /** What one execution adds: orders and rejections of this run, and its outcome. */
  lemma ExecuteWeekAdds(c: Config, b: Book, w: Week)
    requires ConfigOk(c) && SnapshotOk(c, w.snapshot) && BookOk(c, b) && BookClosed(b) && w.run !in b.outcomes
    requires ExecuteWeek(c, b, w).Ok?
    ensures var b' := ExecuteWeek(c, b, w).value;
            && BookClosed(b') && BookOk(c, b')
            && |b.orders| <= |b'.orders| && b'.orders[..|b.orders|] == b.orders
            && b'.outcomes.Keys == b.outcomes.Keys + {w.run}
            && b'.outcomes[w.run] == RecomputedOutcome(b', w.run)
  {
    var e := WeekEnv(c, w);
    ProposalRejectionsSound(e, b, w.weights);
    var p := Proposals(e, b, w.weights, |c.assets|);
    var b' := ExecuteWeek(c, b, w).value;
    hide Execute, Proposals, BookOk, RejectionSound, ProposalsOk, ProposalsQuoted, RecomputedOutcome;
    RejectionsOwn(e, p.rejections);
    ExecuteKeepsBook(e, b, p.proposals, p.rejections);
    ExecuteOwn(e, b, p.proposals, p.rejections);
    ExecuteOutcomes(e, b, p.proposals, p.rejections);
    OutcomeNeverConflicts(e, b, p.proposals, p.rejections);
    assert forall r :: r in b'.outcomes <==> r in b'.outcomes.Keys;
    forall i | 0 <= i < |b'.orders|
      ensures b'.orders[i].run in b'.outcomes
    {
      assert i < |b.orders| ==> b'.orders[i] == b'.orders[..|b.orders|][i];
    }
    forall i | 0 <= i < |b'.rejections|
      ensures b'.rejections[i].run in b'.outcomes
    {
      assert i < |b.rejections| ==> b'.rejections[i] == b'.rejections[..|b.rejections|][i];
    }
  }

  lemma CommitKeeps(c: Config, s: Store, w: Week)
    requires ConfigOk(c) && Inv(c, s) && SnapshotOk(c, w.snapshot)
    requires w.run in s.runs && s.runs[w.run].mode.Paper? && s.runs[w.run].key.Some? && s.runs[w.run].status.Running?
    requires w.run !in s.book.outcomes && ExecuteWeek(c, s.book, w).Ok?
    ensures var t := CommitExecution(s, w.run, ExecuteWeek(c, s.book, w).value);
            && Inv(c, t) && Grows(s, t) && w.run in t.book.outcomes
            && t.book.outcomes[w.run] == RecomputedOutcome(t.book, w.run)
  {
    hide BookOk, ExecuteWeek, BookClosed, RecomputedOutcome;
    ExecuteWeekAdds(c, s.book, w);
    var t := CommitExecution(s, w.run, ExecuteWeek(c, s.book, w).value);
    assert forall r :: r in t.book.outcomes <==> r in t.book.outcomes.Keys;
  }

  // --------------------------------------------------------- whole operations

  lemma InsertAndFinishSound(c: Config, s: Store, id: RunId, mode: Mode, key: Option<ScheduleKey>, attempted: Option<ScheduleKey>,
                             admitted: bool, status: Status)
    requires Inv(c, s) && (TakesNoKey(status) ==> key.None?) && !status.RecoveredAborted? && !status.RecoveredCommitted?
    ensures Sound(c, s, InsertAndFinish(s, id, mode, key, attempted, admitted, status))
  {
    hide Inv, Grows;
    if InsertRun(s, id, mode, key, attempted, admitted).Some? {
      InsertKeeps(c, s, id, mode, key, attempted, admitted);
      var s1 := InsertRun(s, id, mode, key, attempted, admitted).value;
      SetStatusKeeps(c, s1, id, status);
      GrowsTransitive(s, s1, SetStatus(s1, id, status));
    }
  }

  lemma InsertAndHaltSound(c: Config, s: Store, id: RunId, mode: Mode, key: Option<ScheduleKey>, admitted: bool,
                           status: Status)
    requires Inv(c, s) && !TakesNoKey(status) && !status.RecoveredCommitted?
    ensures Sound(c, s, InsertAndHalt(s, id, mode, key, admitted, status))
  {
    hide Inv, Grows;
    if InsertRun(s, id, mode, key, None, admitted).Some? {
      InsertKeeps(c, s, id, mode, key, None, admitted);
      var s1 := InsertRun(s, id, mode, key, None, admitted).value;
      HaltKeeps(c, s1);
      GrowsTransitive(s, s1, Halt(s1));
      SetStatusKeeps(c, Halt(s1), id, status);
      GrowsTransitive(s, Halt(s1), SetStatus(Halt(s1), id, status));
    }
  }

  lemma InsertAndMarkSound(c: Config, s: Store, id: RunId, mode: Mode, admitted: bool, status: Status)
    requires Inv(c, s) && !status.RecoveredAborted? && !status.RecoveredCommitted?
    ensures Sound(c, s, InsertAndMark(s, id, mode, admitted, status))
  {
    hide Inv, Grows;
    if InsertRun(s, id, mode, None, None, admitted).Some? {
      InsertKeeps(c, s, id, mode, None, None, admitted);
      var s1 := InsertRun(s, id, mode, None, None, admitted).value;
      AddSnapshotKeeps(c, s1, id);
      GrowsTransitive(s, s1, AddSnapshot(s1, id));
      SetStatusKeeps(c, AddSnapshot(s1, id), id, status);
      GrowsTransitive(s, AddSnapshot(s1, id), SetStatus(AddSnapshot(s1, id), id, status));
    }
  }

  /** The execution's commits, with the outcome conflict never raised. */
  lemma ExecuteStepsSound(c: Config, s: Store, w: Week)
    requires ConfigOk(c) && Inv(c, s) && SnapshotOk(c, w.snapshot)
    requires w.run in s.runs && s.runs[w.run].mode.Paper? && s.runs[w.run].key.Some? && s.runs[w.run].status.Running?
    requires w.run !in s.book.outcomes
    ensures Sound(c, s, ExecuteSteps(c, s, w))
    ensures ExecuteSteps(c, s, w) != [] ==>
              && ExecuteSteps(c, s, w)[0] == CommitExecution(s, w.run, ExecuteWeek(c, s.book, w).value)
              && ExecuteSteps(c, s, w)[|ExecuteSteps(c, s, w)| - 1].runs[w.run].status
                 == if Reconciles(c, ExecuteWeek(c, s.book, w).value) then Executed else KillSwitch
  {
    hide Inv, Grows, Reconciles, ExecuteWeek, RecomputedOutcome;
    if ExecuteWeek(c, s.book, w).Ok? {
      CommitKeeps(c, s, w);
      var done := CommitExecution(s, w.run, ExecuteWeek(c, s.book, w).value);
      if Reconciles(c, done.book) {
        SetStatusKeeps(c, done, w.run, Executed);
        GrowsTransitive(s, done, SetStatus(done, w.run, Executed));
      } else {
        HaltKeeps(c, done);
        GrowsTransitive(s, done, Halt(done));
        SetStatusKeeps(c, Halt(done), w.run, KillSwitch);
        GrowsTransitive(s, Halt(done), SetStatus(Halt(done), w.run, KillSwitch));
      }
    }
  }

  lemma SoundAfter(c: Config, s: Store, s1: Store, steps: seq<Store>)
    requires Inv(c, s1) && Grows(s, s1) && Sound(c, s1, steps)
    ensures Sound(c, s, [s1] + steps)
  {
    hide Inv, Grows;
    forall i | 0 <= i < |steps|
      ensures Grows(s, steps[i])
    {
      GrowsTransitive(s, s1, steps[i]);
    }
  }

  lemma RunStepsSound(c: Config, s: Store, i: RunInput)
    requires ConfigOk(c) && Inv(c, s)
    ensures Sound(c, s, RunSteps(c, s, i))
  {
    hide Inv, Grows, Sound, Reconciles, InsertAndFinish, InsertAndHalt, InsertAndMark, ExecuteSteps, SnapshotOk,
         KeyTaken;
    var id := i.week.run;
    var mode := if i.dryRun then DryRun else Paper;
    var official := i.official || i.requireProvenance;
    var scheduled := if official then i.window else None;
    var admitted := !official || i.provenance;
    InsertAndFinishSound(c, s, id, mode, None, scheduled, true, ProvenanceMissing);
    InsertAndFinishSound(c, s, id, mode, scheduled, None, admitted, KillSwitch);
    InsertAndHaltSound(c, s, id, mode, scheduled, admitted, KillSwitch);
    InsertAndFinishSound(c, s, id, mode, None, scheduled, admitted, DataHalt);
    InsertAndMarkSound(c, s, id, mode, admitted, NoRebalance);
    InsertAndMarkSound(c, s, id, mode, !official, DryRunDone);
    EmptySound(c, s);
    if SnapshotOk(c, i.week.snapshot) && i.window.Some? && InsertRun(s, id, Paper, i.window, None, admitted).Some? {
      var s1 := InsertRun(s, id, Paper, i.window, None, admitted).value;
      InsertKeeps(c, s, id, Paper, i.window, None, admitted);
      ExecuteStepsSound(c, s1, i.week);
      SoundAfter(c, s, s1, ExecuteSteps(c, s1, i.week));
    }
  }

  lemma EmptySound(c: Config, s: Store)
    ensures Sound(c, s, [])
  {
  }

  lemma FailureStepsSound(c: Config, s: Store, f: FailureInput)
    requires Inv(c, s)
    ensures Sound(c, s, FailureSteps(s, f))
  {
    hide Inv, Grows, Sound, InsertAndFinish, InsertAndHalt, KeyTaken;
    var key := if Retryable(f) then None else f.window;
    var attempted := if Retryable(f) then f.window else None;
    var admitted := !f.official || f.provenance || f.kind.ReleaseProvenanceFailure?;
    EmptySound(c, s);
    if !f.kind.DataQualityFailure? {
      InsertAndHaltSound(c, s, f.run, Paper, key, admitted, Failed(f.kind));
    }
    InsertAndFinishSound(c, s, f.run, Paper, key, attempted, admitted, Failed(f.kind));
  }

  lemma {:induction false} RecoverStepsSound(c: Config, s: Store, order: seq<RunId>)
    requires Inv(c, s) && Distinct(order)
    requires forall i :: 0 <= i < |order| ==> order[i] in s.runs && s.runs[order[i]].status.Running?
    ensures Sound(c, s, RecoverSteps(s, order))
    decreases |order|
  {
    hide Inv, Grows;
    if order != [] {
      var s1 := RecoverRun(s, order[0]);
      RecoverRunKeeps(c, s, order[0]);
      RecoverStepsSound(c, s1, order[1..]);
      SoundAfter(c, s, s1, RecoverSteps(s1, order[1..]));
    }
  }

  /** One operation, stopped anywhere, keeps the invariant and takes nothing back. */
  lemma StepKeeps(c: Config, s: Store, op: Op)
    requires ConfigOk(c) && Inv(c, s)
    ensures Inv(c, Step(c, s, op)) && Grows(s, Step(c, s, op))
  {
    hide RunSteps, FailureSteps, RecoverSteps, Reconciles, BookOk;
    match op
    case DoRun(i, _) => RunStepsSound(c, s, i);
    case DoFailure(f, _) => FailureStepsSound(c, s, f);
    case Restart(order, _) =>
      if ListsRunning(s, order) {
        RecoverStepsSound(c, s, order);
      }
    case ResetKillSwitch =>
  }

  lemma OpenInv(c: Config)
    requires ConfigOk(c)
    ensures Inv(c, OpenStore(c))
  {
    OpenBookOk(c);
  }

  lemma {:induction false} HistoryInv(c: Config, ops: seq<Op>)
    requires ConfigOk(c)
    ensures Inv(c, History(c, ops))
  {
    hide Inv, Step;
    if ops == [] {
      OpenInv(c);
    } else {
      HistoryInv(c, ops[..|ops| - 1]);
      StepKeeps(c, History(c, ops[..|ops| - 1]), ops[|ops| - 1]);
    }
  }

  /** Later histories extend earlier ones. */
  lemma {:induction false} HistoryGrows(c: Config, ops: seq<Op>, more: seq<Op>)
    requires ConfigOk(c)
    ensures Grows(History(c, ops), History(c, ops + more))
    decreases |more|
  {
    if more == [] {
      assert ops + more == ops;
    } else {
      hide Inv, Step, Grows;
      var n := |more| - 1;
      HistoryGrows(c, ops, more[..n]);
      assert (ops + more)[..|ops + more| - 1] == ops + more[..n];
      HistoryInv(c, ops + more[..n]);
      StepKeeps(c, History(c, ops + more[..n]), more[n]);
      GrowsTransitive(History(c, ops), History(c, ops + more[..n]), History(c, ops + more));
    }
  }

  // ------------------------------------------------------------- main theorems

  /**
   At every reachable store a run with fills is a PAPER run with an equity
   snapshot that owns its schedule key, and no two such runs own the same key.
   */
  lemma ExactlyOnce(c: Config, ops: seq<Op>)
    requires ConfigOk(c)
    ensures var s := History(c, ops);
            && (forall r :: Traded(s.book, r) ==>
                  r in s.runs && s.runs[r].mode.Paper? && s.runs[r].key.Some? && r in s.snapshots)
            && forall r, q :: Traded(s.book, r) && Traded(s.book, q) && s.runs[r].key == s.runs[q].key ==> r == q
  {
    hide History, BookOk;
    HistoryInv(c, ops);
    var s := History(c, ops);
    forall r | Traded(s.book, r)
      ensures r in s.runs && s.runs[r].mode.Paper? && s.runs[r].key.Some? && r in s.snapshots
    {
      assert r in s.book.outcomes;
      assert RunOk(s, r);
    }
  }

  /** Once a run has traded for a key, it keeps fills and key, and no other run ever trades for that key. */
  lemma TradedForever(c: Config, ops: seq<Op>, more: seq<Op>, r: RunId, k: ScheduleKey)
    requires ConfigOk(c) && Traded(History(c, ops).book, r) && Owns(History(c, ops), r, k)
    ensures var t := History(c, ops + more);
            && Traded(t.book, r) && Owns(t, r, k)
            && forall q :: Owns(t, q, k) ==> q == r
  {
    hide History, BookOk;
    var s, t := History(c, ops), History(c, ops + more);
    HistoryGrows(c, ops, more);
    HistoryInv(c, ops + more);
    ExactlyOnce(c, ops);
    var i :| 0 <= i < |s.book.orders| && s.book.orders[i].run == r;
    assert t.book.orders[i] == t.book.orders[..|s.book.orders|][i];
  }

  /** Admission failures that may be retried, stopped anywhere, leave every key as it was. */
  lemma RetryableTakesNoKey(s: Store, f: FailureInput, commits: nat)
    requires Retryable(f)
    ensures var t := After(s, FailureSteps(s, f), commits);
            forall r, k :: Owns(t, r, k) <==> Owns(s, r, k)
  {
  }

  /** The same of a `run` refused for missing provenance or invalid data. */
  lemma RefusedRunTakesNoKey(c: Config, s: Store, i: RunInput, commits: nat)
    requires (i.requireProvenance && !i.provenance)
          || (!s.halted && Reconciles(c, s.book) && (i.dataError || !SnapshotOk(c, i.week.snapshot)))
    ensures var t := After(s, RunSteps(c, s, i), commits);
            forall r, k :: Owns(t, r, k) <==> Owns(s, r, k)
  {
    hide Reconciles, SnapshotOk;
  }

  /** A dry run, stopped anywhere, never touches the trading tables. */
  lemma DryRunNeverTrades(c: Config, s: Store, i: RunInput, commits: nat)
    requires i.dryRun
    ensures After(s, RunSteps(c, s, i), commits).book == s.book
  {
    hide Reconciles, SnapshotOk, KeyTaken;
  }

  // ----------------------------------------------------------------- recovery

  predicate Abandoned(s: Store, r: RunId)
    requires r in s.runs
  {
    s.runs[r].status.Running?
  }

  function Recovered(s: Store, r: RunId): Run
    requires r in s.runs
  {
    if !Abandoned(s, r) then s.runs[r]
    else if r in s.snapshots then s.runs[r].(status := RecoveredCommitted)
    else s.runs[r].(status := RecoveredAborted, key := None)
  }

  /** `t` is `s` with exactly the listed runs recovered. */
  ghost predicate RecoveredIn(s: Store, done: seq<RunId>, t: Store) {
    && t == s.(runs := t.runs) && t.runs.Keys == s.runs.Keys
    && forall r :: r in s.runs ==> t.runs[r] == if r in done then Recovered(s, r) else s.runs[r]
  }

  lemma RecoverOne(s: Store, r: RunId)
    requires r in s.runs && Abandoned(s, r)
    ensures RecoveredIn(s, [r], RecoverRun(s, r))
  {
  }

  lemma RecoveredInCompose(s: Store, r: RunId, s1: Store, done: seq<RunId>, t: Store)
    requires r in s.runs && r !in done && RecoveredIn(s, [r], s1) && RecoveredIn(s1, done, t)
    ensures RecoveredIn(s, [r] + done, t)
  {
    assert forall q :: q in s.runs <==> q in s1.runs.Keys;
  }

  /** Every listed run is recovered, nothing else changes. */
  lemma {:induction false} RecoverStepsResult(s: Store, order: seq<RunId>, n: nat)
    requires Distinct(order) && forall i :: 0 <= i < |order| ==> order[i] in s.runs && Abandoned(s, order[i])
    requires 0 < n <= |order|
    ensures |RecoverSteps(s, order)| == |order|
    ensures RecoveredIn(s, order[..n], RecoverSteps(s, order)[n - 1])
    decreases |order|
  {
    var s1 := RecoverRun(s, order[0]);
    RecoverOne(s, order[0]);
    if |order| == 1 {
      assert RecoverSteps(s1, order[1..]) == [];
      assert order[..n] == [order[0]];
    } else {
      RecoverStepsResult(s1, order[1..], if n == 1 then 1 else n - 1);
      if n == 1 {
        assert order[..n] == [order[0]];
      } else {
        assert order[..n] == [order[0]] + order[1..][..n - 1];
        RecoveredInCompose(s, order[0], s1, order[1..][..n - 1], RecoverSteps(s, order)[n - 1]);
      }
    }
  }

  lemma RecoverAfter(s: Store, order: seq<RunId>, commits: nat)
    requires ListsRunning(s, order)
    ensures var n := if commits < |order| then commits else |order|;
            RecoveredIn(s, order[..n], After(s, RecoverSteps(s, order), commits))
  {
    if commits > 0 && order != [] {
      var n := if commits < |order| then commits else |order|;
      RecoverStepsResult(s, order, n);
    }
  }

  /**
   A completed recovery leaves nothing running, releases exactly the keys of
   abandoned runs without an equity snapshot, and keeps every other row, the book
   and the account status; a second recovery has nothing to do.
   */
  lemma RecoveryCompletes(s: Store, order: seq<RunId>, commits: nat)
    requires ListsRunning(s, order) && |order| <= commits
    ensures var t := After(s, RecoverSteps(s, order), commits);
            && t == s.(runs := t.runs) && t.runs.Keys == s.runs.Keys
            && (forall r :: r in s.runs ==> r in t.runs && t.runs[r] == Recovered(s, r) && !Abandoned(t, r))
            && (forall r, k :: Owns(t, r, k) <==> Owns(s, r, k) && (Abandoned(s, r) ==> r in s.snapshots))
            && ListsRunning(t, [])
  {
    hide RecoverSteps, After;
    RecoverAfter(s, order, commits);
    var t := After(s, RecoverSteps(s, order), commits);
    assert order[..|order|] == order;
    assert forall r :: r in t.runs <==> r in t.runs.Keys;
    assert forall r :: r in s.runs <==> r in s.runs.Keys;
  }

  /** An interrupted recovery has done its first rows; the next one finds exactly the rest. */
  lemma InterruptedRecovery(s: Store, order: seq<RunId>, commits: nat)
    requires ListsRunning(s, order) && commits < |order|
    ensures ListsRunning(After(s, RecoverSteps(s, order), commits), order[commits..])
  {
    hide RecoverSteps, After;
    RecoverAfter(s, order, commits);
    var t := After(s, RecoverSteps(s, order), commits);
    var rest := order[commits..];
    assert forall r :: r in t.runs <==> r in s.runs.Keys;
    forall i | 0 <= i < |rest|
      ensures rest[i] in t.runs && t.runs[rest[i]].status.Running?
    {
      assert rest[i] == order[commits + i];
      assert rest[i] !in order[..commits];
    }
    forall r | r in t.runs && t.runs[r].status.Running?
      ensures r in rest
    {
      assert r in s.runs && r !in order[..commits];
      assert order == order[..commits] + rest;
    }
  }

  // ------------------------------------------------------ all or nothing, retry

  /** A scheduled PAPER run that passes every admission check and whose execution succeeds. */
  ghost predicate Admissible(c: Config, s: Store, i: RunInput) {
    && !i.dryRun && i.window.Some? && i.provenance && !i.dataError && SnapshotOk(c, i.week.snapshot)
    && !s.halted && Reconciles(c, s.book) && !KeyTaken(s, i.window.value) && i.week.run !in s.runs
    && ExecuteWeek(c, s.book, i.week).Ok?
  }

  /** Where a crash leaves such a run. */
  lemma CrashedRun(c: Config, s: Store, i: RunInput, commits: nat)
    requires ConfigOk(c) && Inv(c, s) && Admissible(c, s, i)
    ensures var t := After(s, RunSteps(c, s, i), commits);
            var id, k := i.week.run, i.window.value;
            if commits <= 1 then
              t.book == s.book && forall r :: Owns(t, r, k) ==> Abandoned(t, r) && r !in t.snapshots
            else
              t.book == ExecuteWeek(c, s.book, i.week).value && Owns(t, id, k) && id in t.snapshots
  {
    hide Reconciles, ExecuteWeek, SnapshotOk, RecomputedOutcome, Sound, BookOk;
    var s1 := InsertRun(s, i.week.run, Paper, i.window, None, true).value;
    InsertKeeps(c, s, i.week.run, Paper, i.window, None, true);
    hide Inv, Grows;
    ExecuteStepsSound(c, s1, i.week);
    assert RunSteps(c, s, i) == [s1] + ExecuteSteps(c, s1, i.week);
  }

  /**
   Crash it after any number of commits, then restart: either the book is
   untouched and the key is free for a retry, or the whole execution is in the
   book and the run keeps the key.
   */
  lemma AllOrNothing(c: Config, s: Store, i: RunInput, commits: nat, order: seq<RunId>)
    requires ConfigOk(c) && Inv(c, s) && Admissible(c, s, i)
    requires ListsRunning(After(s, RunSteps(c, s, i), commits), order)
    ensures var crashed := After(s, RunSteps(c, s, i), commits);
            var t := After(crashed, RecoverSteps(crashed, order), |order|);
            if commits <= 1 then t.book == s.book && !KeyTaken(t, i.window.value)
            else t.book == ExecuteWeek(c, s.book, i.week).value && Owns(t, i.week.run, i.window.value)
  {
    hide Inv, Admissible, RunSteps, RecoverSteps, After, ListsRunning;
    CrashedRun(c, s, i, commits);
    RecoveryCompletes(After(s, RunSteps(c, s, i), commits), order, |order|);
  }

  // -------------------------------------------------------- the whole system

  /** Clean weeks, and no operator or runner reporting a reconciliation failure. */
  ghost predicate CleanOp(c: Config, unit: map<Symbol, real>, op: Op) {
    match op
    case DoRun(i, _) => WeekClean(c, unit, i.week)
    case DoFailure(f, _) => !f.kind.ReconciliationFailure? && !f.kind.KillSwitchActivated?
    case _ => true
  }

  ghost predicate Healthy(c: Config, unit: map<Symbol, real>, s: Store) {
    && Audited(c, unit, s.book) && !s.halted
    && forall r :: r in s.runs ==> !s.runs[r].status.KillSwitch?
  }

  ghost predicate AllHealthy(c: Config, unit: map<Symbol, real>, steps: seq<Store>) {
    forall i :: 0 <= i < |steps| ==> Healthy(c, unit, steps[i])
  }

  lemma ExecuteStepsHealthy(c: Config, unit: map<Symbol, real>, s: Store, w: Week)
    requires ConfigOk(c) && Healthy(c, unit, s) && WeekClean(c, unit, w) && SnapshotOk(c, w.snapshot)
    requires w.run in s.runs && w.run !in s.book.outcomes
    ensures AllHealthy(c, unit, ExecuteSteps(c, s, w))
  {
    hide Audited, Reconciles, WeekClean, ExecuteWeek, RecomputedOutcome;
    if ExecuteWeek(c, s.book, w).Ok? {
      assert RunWeek(c, s.book, w) == ExecuteWeek(c, s.book, w).value;
      RunWeekKeepsAudited(c, unit, s.book, w);
      AuditedReconciles(c, unit, ExecuteWeek(c, s.book, w).value);
    }
  }

  lemma InsertedHealthy(c: Config, unit: map<Symbol, real>, s: Store, id: RunId, mode: Mode, attempted: Option<ScheduleKey>,
                        admitted: bool, status: Status)
    requires Healthy(c, unit, s) && !status.KillSwitch?
    ensures AllHealthy(c, unit, InsertAndFinish(s, id, mode, None, attempted, admitted, status))
    ensures AllHealthy(c, unit, InsertAndMark(s, id, mode, admitted, status))
  {
    hide Audited;
  }

  lemma HealthyThen(c: Config, unit: map<Symbol, real>, s1: Store, steps: seq<Store>)
    requires Healthy(c, unit, s1) && AllHealthy(c, unit, steps)
    ensures AllHealthy(c, unit, [s1] + steps)
  {
    hide Healthy;
  }

  lemma HealthyPasses(c: Config, unit: map<Symbol, real>, s: Store)
    requires ConfigOk(c) && Healthy(c, unit, s)
    ensures !s.halted && Reconciles(c, s.book)
  {
    hide Audited, Reconciles;
    AuditedReconciles(c, unit, s.book);
  }

  lemma RunStepsHealthy(c: Config, unit: map<Symbol, real>, s: Store, i: RunInput)
    requires ConfigOk(c) && Inv(c, s) && Healthy(c, unit, s) && WeekClean(c, unit, i.week)
    ensures AllHealthy(c, unit, RunSteps(c, s, i))
  {
    hide Healthy, Audited, Reconciles, WeekClean, ExecuteSteps, SnapshotOk, InsertRun, InsertAndFinish, InsertAndHalt, InsertAndMark, AllHealthy,
         KeyTaken, Inv;
    HealthyPasses(c, unit, s);
    var id := i.week.run;
    var mode := if i.dryRun then DryRun else Paper;
    var official := i.official || i.requireProvenance;
    var scheduled := if official then i.window else None;
    var admitted := !official || i.provenance;
    assert AllHealthy(c, unit, []) by {
      EmptyHealthy(c, unit);
    }
    InsertedHealthy(c, unit, s, id, mode, scheduled, true, ProvenanceMissing);
    InsertedHealthy(c, unit, s, id, mode, scheduled, admitted, DataHalt);
    InsertedHealthy(c, unit, s, id, mode, scheduled, admitted, NoRebalance);
    InsertedHealthy(c, unit, s, id, mode, scheduled, !official, DryRunDone);
    if SnapshotOk(c, i.week.snapshot) && InsertRun(s, id, Paper, i.window, None, admitted).Some? {
      AdmittedHealthy(c, unit, s, i.week, i.window, admitted);
    }
  }

  lemma AdmittedHealthy(c: Config, unit: map<Symbol, real>, s: Store, w: Week, window: Option<ScheduleKey>,
                        admitted: bool)
    requires ConfigOk(c) && Inv(c, s) && Healthy(c, unit, s) && WeekClean(c, unit, w) && SnapshotOk(c, w.snapshot)
    requires InsertRun(s, w.run, Paper, window, None, admitted).Some?
    ensures var s1 := InsertRun(s, w.run, Paper, window, None, admitted).value;
            AllHealthy(c, unit, [s1] + ExecuteSteps(c, s1, w))
  {
    hide Audited, Reconciles, WeekClean, ExecuteSteps, SnapshotOk, BookOk, BookClosed, AllHealthy, KeyTaken, RunOk;
    var s1 := InsertRun(s, w.run, Paper, window, None, admitted).value;
    ExecuteStepsHealthy(c, unit, s1, w);
    HealthyThen(c, unit, s1, ExecuteSteps(c, s1, w));
  }

  lemma EmptyHealthy(c: Config, unit: map<Symbol, real>)
    ensures AllHealthy(c, unit, [])
  {
  }

  lemma {:induction false} RecoverStepsHealthy(c: Config, unit: map<Symbol, real>, s: Store, order: seq<RunId>)
    requires Healthy(c, unit, s)
    ensures AllHealthy(c, unit, RecoverSteps(s, order))
    decreases |order|
  {
    hide Audited;
    if order != [] {
      RecoverStepsHealthy(c, unit, RecoverRun(s, order[0]), order[1..]);
    }
  }

  lemma StepHealthy(c: Config, unit: map<Symbol, real>, s: Store, op: Op)
    requires ConfigOk(c) && Inv(c, s) && Healthy(c, unit, s) && CleanOp(c, unit, op)
    ensures Healthy(c, unit, Step(c, s, op))
  {
    hide Inv, Audited, RunSteps, RecoverSteps, Reconciles, WeekClean;
    match op
    case DoRun(i, _) => RunStepsHealthy(c, unit, s, i);
    case DoFailure(f, _) =>
    case Restart(order, _) => RecoverStepsHealthy(c, unit, s, order);
    case ResetKillSwitch =>
  }

  /**
   The whole system: if every week that reaches execution is clean, the audit
   passes at every point of every history, the kill switch never fires by itself,
   and no run ends in KILL_SWITCH, whatever crashes, failures and restarts occur.
   */
  lemma {:induction false} CleanHistoriesNeverHalt(c: Config, unit: map<Symbol, real>, ops: seq<Op>)
    requires ConfigOk(c) && forall i :: 0 <= i < |ops| ==> CleanOp(c, unit, ops[i])
    ensures Healthy(c, unit, History(c, ops)) && Reconciles(c, History(c, ops).book)
  {
    if ops == [] {
      OpenBookOk(c);
      AuditedReconciles(c, unit, OpenBook(c));
    } else {
      hide Inv, Audited, Step, Reconciles, CleanOp;
      CleanHistoriesNeverHalt(c, unit, ops[..|ops| - 1]);
      HistoryInv(c, ops[..|ops| - 1]);
      StepHealthy(c, unit, History(c, ops[..|ops| - 1]), ops[|ops| - 1]);
      AuditedReconciles(c, unit, History(c, ops).book);
    }
  }
}
