/**
 What each operation of the lifecycle comes to, from the store it starts in and
 what it sees: exactly which runs trade, halt the account, take a key or end how,
 and that a halted account trades nothing until it is reset.
 */
module LifecycleRuns {
  import opened Common
  import opened Quantities
  import opened Broker
  import opened BrokerIntents
  import opened BrokerLedger
  import opened BrokerWeeks
  import opened Reconcile
  import opened Lifecycle
  import opened LifecycleSafety

  // ------------------------------------------------------------------ one run

  /** Some run owns the week's key already. */
  predicate Claimed(s: Store, window: Option<ScheduleKey>) {
    window.Some? && exists r :: r in s.runs && s.runs[r].key == window
  }

  predicate Official(i: RunInput) {
    i.official || i.requireProvenance
  }

  /** An official run shows its provenance. */
  predicate Vouched(i: RunInput) {
    Official(i) ==> i.provenance
  }

  /** The account is active and its books pass the audit. */
  ghost predicate InOrder(c: Config, s: Store) {
    !s.halted && Reconciles(c, s.book)
  }

  predicate DataOk(c: Config, i: RunInput) {
    !i.dataError && SnapshotOk(c, i.week.snapshot)
  }

  /** The run trades: everything that can stand in its way does not. */
  ghost predicate Trades(c: Config, s: Store, i: RunInput) {
    && InOrder(c, s) && DataOk(c, i) && !i.dryRun && i.window.Some? && !Claimed(s, i.window)
    && Vouched(i) && i.week.run !in s.runs && ExecuteWeek(c, s.book, i.week).Ok?
  }

  /** More commits than any one run or failure needs. */
  const UNCUT := 4

  /**
   A run that is not cut short adds its week's execution to the books if and only
   if the account is active, the audit passes, the data are valid, it is no dry
   run, its window is open and unclaimed, it is admitted under a new id, and the
   execution commits; otherwise the books stay as they are.
   */
  lemma TradesExactly(c: Config, s: Store, i: RunInput, commits: nat)
    requires UNCUT <= commits
    ensures Step(c, s, DoRun(i, commits)).book == if Trades(c, s, i) then ExecuteWeek(c, s.book, i.week).value else s.book
  {
    hide Reconciles, SnapshotOk, ExecuteWeek, RecomputedOutcome;
  }

  /** Cut short, it has added the whole execution or nothing. */
  lemma TradesWholly(c: Config, s: Store, i: RunInput, commits: nat)
    ensures var t := Step(c, s, DoRun(i, commits));
            t.book == s.book || (Trades(c, s, i) && t.book == ExecuteWeek(c, s.book, i.week).value)
  {
    hide Reconciles, SnapshotOk, ExecuteWeek, RecomputedOutcome;
  }

  // ------------------------------------------------------------ the kill switch

  /** From a halted store no operation, cut short or not, changes the books or the equity snapshots of a book. */
  lemma HaltedNeverTrades(c: Config, s: Store, op: Op)
    requires s.halted
    ensures Step(c, s, op).book == s.book
  {
    hide Reconciles, SnapshotOk, ExecuteWeek, RecomputedOutcome, RunSteps, FailureSteps, RecoverSteps, After;
    match op
    case DoRun(i, n) => TradesWholly(c, s, i, n);
    case DoFailure(f, n) => FailureKeepsBook(s, f, n);
    case Restart(order, n) =>
      if ListsRunning(s, order) {
        RecoveryKeepsBook(s, order, n);
      }
    case ResetKillSwitch =>
  }

  lemma FailureKeepsBook(s: Store, f: FailureInput, n: nat)
    ensures var t := After(s, FailureSteps(s, f), n); t.book == s.book && (s.halted ==> t.halted) && t.snapshots == s.snapshots
  {
  }

  lemma RecoveryKeepsBook(s: Store, order: seq<RunId>, n: nat)
    requires ListsRunning(s, order)
    ensures var t := After(s, RecoverSteps(s, order), n); t.book == s.book && t.halted == s.halted && t.snapshots == s.snapshots
  {
    hide RecoverSteps, After;
    RecoverAfter(s, order, n);
  }

  /** A run never lifts the halt. */
  lemma RunKeepsHalt(c: Config, s: Store, i: RunInput, n: nat)
    requires s.halted
    ensures Step(c, s, DoRun(i, n)).halted
  {
    hide Reconciles, SnapshotOk, ExecuteWeek, RecomputedOutcome;
  }

  /** Only a reset that finds the books in order lifts the halt. */
  lemma HaltLiftedExactly(c: Config, s: Store, op: Op)
    requires s.halted
    ensures !Step(c, s, op).halted <==> op == ResetKillSwitch && Reconciles(c, s.book)
  {
    hide Reconciles, RunSteps, FailureSteps, RecoverSteps, After;
    match op
    case DoRun(i, n) => RunKeepsHalt(c, s, i, n);
    case DoFailure(f, n) => FailureKeepsBook(s, f, n);
    case Restart(order, n) =>
      if ListsRunning(s, order) {
        RecoveryKeepsBook(s, order, n);
      }
    case ResetKillSwitch =>
  }

  /** Over whole histories: from a halted store to the next reset nothing is traded and the halt stays. */
  lemma {:induction false} HaltHolds(c: Config, ops: seq<Op>, more: seq<Op>)
    requires History(c, ops).halted && ResetKillSwitch !in more
    ensures History(c, ops + more).halted && History(c, ops + more).book == History(c, ops).book
    decreases |more|
  {
    if more == [] {
      assert ops + more == ops;
    } else {
      hide Step, Reconciles;
      var n := |more| - 1;
      HaltHolds(c, ops, more[..n]);
      assert (ops + more)[..|ops + more| - 1] == ops + more[..n];
      var s := History(c, ops + more[..n]);
      HaltedNeverTrades(c, s, more[n]);
      HaltLiftedExactly(c, s, more[n]);
    }
  }

  // ---------------------------------------------------------- how a run ends

  /** How a run under a new id ends when nothing cuts it short. */
  ghost predicate Ends(c: Config, s: Store, i: RunInput, status: Status) {
    match status
    case ProvenanceMissing => i.requireProvenance && !i.provenance
    case KillSwitch =>
      && Vouched(i)
      && if InOrder(c, s) then Trades(c, s, i) && !Reconciles(c, ExecuteWeek(c, s.book, i.week).value)
         else !(Official(i) && Claimed(s, i.window))
    case DataHalt => Vouched(i) && InOrder(c, s) && !DataOk(c, i)
    case NoRebalance => Vouched(i) && InOrder(c, s) && DataOk(c, i) && i.window.None?
    case DryRunDone => !Official(i) && InOrder(c, s) && DataOk(c, i) && i.window.Some? && i.dryRun
    case Executed => Trades(c, s, i) && Reconciles(c, ExecuteWeek(c, s.book, i.week).value)
    case Running =>
      && Vouched(i) && InOrder(c, s) && DataOk(c, i) && !i.dryRun && i.window.Some? && !Claimed(s, i.window)
      && ExecuteWeek(c, s.book, i.week).Err?
    case _ => false
  }

  lemma ConflictNever(c: Config, s: Store, w: Week)
    requires ConfigOk(c) && Inv(c, s) && SnapshotOk(c, w.snapshot) && w.run !in s.runs && ExecuteWeek(c, s.book, w).Ok?
    ensures var b := ExecuteWeek(c, s.book, w).value;
            w.run in b.outcomes && b.outcomes[w.run] == RecomputedOutcome(b, w.run)
  {
    hide ExecuteWeek, RecomputedOutcome, BookOk, BookClosed;
    assert BookOk(c, s.book) && BookClosed(s.book);
    ExecuteWeekAdds(c, s.book, w);
    assert w.run in ExecuteWeek(c, s.book, w).value.outcomes.Keys;
  }

  /** A row can be inserted: the run is admitted, its id is new and its key, if any, is free. */
  predicate Insertable(s: Store, id: RunId, key: Option<ScheduleKey>, admitted: bool) {
    admitted && id !in s.runs && !Claimed(s, key)
  }

  function WithRow(s: Store, id: RunId, run: Run): Store {
    s.(runs := s.runs[id := run])
  }

  lemma FinishedEnds(s: Store, id: RunId, mode: Mode, key: Option<ScheduleKey>, attempted: Option<ScheduleKey>, admitted: bool,
                     status: Status, commits: nat)
    requires UNCUT <= commits
    ensures After(s, InsertAndFinish(s, id, mode, key, attempted, admitted, status), commits)
         == if Insertable(s, id, key, admitted) then WithRow(s, id, Run(mode, status, key, attempted)) else s
    ensures After(s, InsertAndHalt(s, id, mode, key, admitted, status), commits)
         == if Insertable(s, id, key, admitted) then WithRow(s, id, Run(mode, status, key, None)).(halted := true) else s
  {
    var run := Run(mode, Running, key, attempted);
    assert s.runs[id := run][id := run.(status := status)] == s.runs[id := run.(status := status)];
    var bare := Run(mode, Running, key, None);
    assert s.runs[id := bare][id := bare.(status := status)] == s.runs[id := bare.(status := status)];
  }

  lemma MarkedEnds(s: Store, id: RunId, mode: Mode, admitted: bool, status: Status, commits: nat)
    requires UNCUT <= commits
    ensures After(s, InsertAndMark(s, id, mode, admitted, status), commits)
         == if Insertable(s, id, None, admitted)
            then WithRow(s, id, Run(mode, status, None, None)).(snapshots := s.snapshots + {id})
            else s
  {
    var run := Run(mode, Running, None, None);
    assert s.runs[id := run][id := run.(status := status)] == s.runs[id := run.(status := status)];
  }

  function ModeOf(i: RunInput): Mode {
    if i.dryRun then DryRun else Paper
  }

  /** The key an official run records as its own or as attempted. */
  function OfficialKey(i: RunInput): Option<ScheduleKey> {
    if Official(i) then i.window else None
  }

  lemma KeyTakenExactly(s: Store, key: Option<ScheduleKey>)
    ensures key.Some? ==> (KeyTaken(s, key.value) <==> Claimed(s, key))
  {
  }

  predicate Blocked(i: RunInput) {
    i.requireProvenance && !i.provenance
  }

  lemma BlockedRunEnds(c: Config, s: Store, i: RunInput, commits: nat)
    requires UNCUT <= commits && i.week.run !in s.runs && Blocked(i)
    ensures Ends(c, s, i, ProvenanceMissing)
    ensures Step(c, s, DoRun(i, commits)) == WithRow(s, i.week.run, Run(ModeOf(i), ProvenanceMissing, None, OfficialKey(i)))
  {
    hide Reconciles, SnapshotOk, ExecuteWeek, InsertAndFinish, InsertAndHalt, InsertAndMark, ExecuteSteps, InsertRun, After, KeyTaken;
    FinishedEnds(s, i.week.run, ModeOf(i), None, OfficialKey(i), true, ProvenanceMissing, commits);
  }

  lemma StoppedRunEnds(c: Config, s: Store, i: RunInput, commits: nat)
    requires UNCUT <= commits && i.week.run !in s.runs && !Blocked(i) && !InOrder(c, s)
    ensures Step(c, s, DoRun(i, commits))
         == if Ends(c, s, i, KillSwitch)
            then WithRow(s, i.week.run, Run(ModeOf(i), KillSwitch, OfficialKey(i), None)).(halted := true)
            else s
  {
    hide Reconciles, SnapshotOk, ExecuteWeek, InsertAndFinish, InsertAndHalt, InsertAndMark, ExecuteSteps, InsertRun, After, KeyTaken;
    FinishedEnds(s, i.week.run, ModeOf(i), OfficialKey(i), None, Vouched(i), KillSwitch, commits);
  }

  lemma DataHaltRunEnds(c: Config, s: Store, i: RunInput, commits: nat)
    requires UNCUT <= commits && i.week.run !in s.runs && !Blocked(i) && InOrder(c, s) && !DataOk(c, i)
    ensures Step(c, s, DoRun(i, commits))
         == if Ends(c, s, i, DataHalt) then WithRow(s, i.week.run, Run(ModeOf(i), DataHalt, None, OfficialKey(i))) else s
  {
    hide Reconciles, SnapshotOk, ExecuteWeek, InsertAndFinish, InsertAndHalt, InsertAndMark, ExecuteSteps, InsertRun, After, KeyTaken;
    FinishedEnds(s, i.week.run, ModeOf(i), None, OfficialKey(i), Vouched(i), DataHalt, commits);
  }

  lemma MarkedRunEnds(c: Config, s: Store, i: RunInput, commits: nat)
    requires UNCUT <= commits && i.week.run !in s.runs && !Blocked(i) && InOrder(c, s) && DataOk(c, i)
    requires i.window.None? || i.dryRun
    ensures var status := if i.window.None? then NoRebalance else DryRunDone;
            Step(c, s, DoRun(i, commits))
              == if Ends(c, s, i, status)
                 then WithRow(s, i.week.run, Run(ModeOf(i), status, None, None)).(snapshots := s.snapshots + {i.week.run})
                 else s
  {
    hide Reconciles, SnapshotOk, ExecuteWeek, InsertAndFinish, InsertAndHalt, InsertAndMark, ExecuteSteps, InsertRun, After, KeyTaken;
    MarkedEnds(s, i.week.run, ModeOf(i), Vouched(i), NoRebalance, commits);
    MarkedEnds(s, i.week.run, ModeOf(i), !Official(i), DryRunDone, commits);
  }

  lemma ExecutedRunEnds(c: Config, s: Store, i: RunInput, commits: nat)
    requires ConfigOk(c) && Inv(c, s) && UNCUT <= commits && i.week.run !in s.runs
    requires !Blocked(i) && InOrder(c, s) && DataOk(c, i) && i.window.Some? && !i.dryRun
    ensures Step(c, s, DoRun(i, commits))
         == if Trades(c, s, i) then
              var b := ExecuteWeek(c, s.book, i.week).value;
              Store(s.runs[i.week.run := Run(Paper, if Reconciles(c, b) then Executed else KillSwitch, i.window, None)],
                    s.snapshots + {i.week.run}, b, !Reconciles(c, b))
            else if Ends(c, s, i, Running) then WithRow(s, i.week.run, Run(Paper, Running, i.window, None))
            else s
  {
    hide Reconciles, SnapshotOk, ExecuteWeek, RecomputedOutcome, Inv;
    if ExecuteWeek(c, s.book, i.week).Ok? {
      ConflictNever(c, s, i.week);
    }
    var run := Run(Paper, Running, i.window, None);
    assert forall status: Status :: s.runs[i.week.run := run][i.week.run := run.(status := status)] == s.runs[i.week.run := run.(status := status)];
  }

  lemma EndsOnce(c: Config, s: Store, i: RunInput, a: Status, b: Status)
    requires Ends(c, s, i, a) && Ends(c, s, i, b)
    ensures a == b
  {
    hide Reconciles, SnapshotOk, ExecuteWeek;
  }

  /**
   How a run ends, exactly: in every reachable store a run under a new id that is
   not cut short ends in the one status its circumstances call for, or leaves the
   store as it was; a finished run owns the week's key exactly when it traded or
   was officially stopped by the kill switch, and the account is halted afterwards
   exactly when it was before or an audit failed.
   */
  lemma RunEndsExactly(c: Config, ops: seq<Op>, i: RunInput, commits: nat)
    requires ConfigOk(c) && UNCUT <= commits && i.week.run !in History(c, ops).runs
    ensures var s := History(c, ops);
            var t, id := Step(c, s, DoRun(i, commits)), i.week.run;
            && (forall status :: (id in t.runs && t.runs[id].status == status) <==> Ends(c, s, i, status))
            && ((forall status :: !Ends(c, s, i, status)) ==> t == s)
            && (id in t.runs ==>
                  && (t.runs[id].key.Some? <==> Trades(c, s, i) || Ends(c, s, i, Running)
                                                || (Ends(c, s, i, KillSwitch) && Official(i) && i.window.Some?))
                  && (id in t.snapshots && id !in s.snapshots ==>
                        Trades(c, s, i) || Ends(c, s, i, NoRebalance) || Ends(c, s, i, DryRunDone)))
            && (t.halted <==> s.halted || Ends(c, s, i, KillSwitch))
  {
    var s := History(c, ops);
    var id := i.week.run;
    HistoryInv(c, ops);
    RunEnds(c, s, i, commits);
    EndsTraded(c, s, i);
    hide History, Step, Inv, Trades, InOrder, Ends, Reconciles, ExecuteWeek;
    if ending :| Ends(c, s, i, ending) {
      forall status
        ensures Step(c, s, DoRun(i, commits)).runs[id].status == status <==> Ends(c, s, i, status)
      {
        if Ends(c, s, i, status) {
          EndsOnce(c, s, i, status, ending);
        }
      }
    }
  }

  /** What every ending has in common. */
  lemma RunEnds(c: Config, s: Store, i: RunInput, commits: nat)
    requires ConfigOk(c) && Inv(c, s) && UNCUT <= commits && i.week.run !in s.runs
    ensures var t, id := Step(c, s, DoRun(i, commits)), i.week.run;
            && (forall status :: Ends(c, s, i, status) ==> id in t.runs && t.runs[id].status == status)
            && ((forall status :: !Ends(c, s, i, status)) ==> t == s)
            && (id in t.runs ==>
                  && (t.runs[id].key.Some? <==> Trades(c, s, i) || Ends(c, s, i, Running)
                                                || (Ends(c, s, i, KillSwitch) && Official(i) && i.window.Some?))
                  && (id in t.snapshots && id !in s.snapshots ==>
                        Trades(c, s, i) || Ends(c, s, i, NoRebalance) || Ends(c, s, i, DryRunDone)))
            && (t.halted <==> s.halted || Ends(c, s, i, KillSwitch))
  {
    hide Inv, Reconciles, SnapshotOk, ExecuteWeek, Step;
    if Blocked(i) {
      BlockedRunEnds(c, s, i, commits);
    } else if !InOrder(c, s) {
      StoppedRunEnds(c, s, i, commits);
    } else if !DataOk(c, i) {
      DataHaltRunEnds(c, s, i, commits);
    } else if i.window.None? || i.dryRun {
      MarkedRunEnds(c, s, i, commits);
    } else {
      ExecutedRunEnds(c, s, i, commits);
      EndsTraded(c, s, i);
      assert Ends(c, s, i, Executed) || Ends(c, s, i, KillSwitch) || Ends(c, s, i, Running) || Step(c, s, DoRun(i, commits)) == s;
    }
  }

  lemma EndsTraded(c: Config, s: Store, i: RunInput)
    ensures Trades(c, s, i) <==> Ends(c, s, i, Executed) || (Ends(c, s, i, KillSwitch) && InOrder(c, s))
    ensures Ends(c, s, i, Executed) ==> Reconciles(c, ExecuteWeek(c, s.book, i.week).value)
    ensures Ends(c, s, i, KillSwitch) && InOrder(c, s) ==> Trades(c, s, i) && !Reconciles(c, ExecuteWeek(c, s.book, i.week).value)
  {
    hide Reconciles, SnapshotOk, ExecuteWeek;
  }

  // --------------------------------------------------- operational failures

  /** A failure of admission that may be retried must not take the week's key. */
  predicate MayRetry(f: FailureInput) {
    f.kind == DataQualityFailure || (f.kind == ReleaseProvenanceFailure && f.retryableAdmission)
  }

  /** What a failure that is not cut short leaves: one row, the key unless it may be retried, and a halt for two kinds only. */
  lemma FailureEndsExactly(c: Config, s: Store, f: FailureInput, commits: nat)
    requires UNCUT <= commits
    ensures var key := if MayRetry(f) then None else f.window;
            var attempted := if MayRetry(f) then f.window else None;
            var admitted := f.official ==> f.provenance || f.kind == ReleaseProvenanceFailure;
            var t := Step(c, s, DoFailure(f, commits));
            if Insertable(s, f.run, key, admitted) then
              t == WithRow(s, f.run, Run(Paper, Failed(f.kind), key, attempted))
                     .(halted := s.halted || f.kind == ReconciliationFailure || f.kind == KillSwitchActivated)
            else t == s
  {
    var key := if MayRetry(f) then None else f.window;
    var attempted := if MayRetry(f) then f.window else None;
    var admitted := f.official ==> f.provenance || f.kind == ReleaseProvenanceFailure;
    FinishedEnds(s, f.run, Paper, key, attempted, admitted, Failed(f.kind), commits);
    KeyTakenExactly(s, key);
    hide InsertAndFinish, InsertAndHalt, KeyTaken;
  }
}
