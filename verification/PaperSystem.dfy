/**
 The lifecycle as it runs: each transaction is one method on the stored tables,
 and the process stops as soon as its budget of commits is used up.  `Run`,
 `CommitOperationalFailure` and the restart are tied to the steps of module Lifecycle.
 */
module PaperSystem {
  import opened Common
  import opened Quantities
  import opened Broker
  import opened BrokerSolvency
  import opened BrokerLedger
  import opened BrokerIntents
  import opened BrokerWeeks
  import opened PaperBroker
  import opened Reconcile
  import opened Lifecycle
  import opened LifecycleSafety

  /** Recovering one more listed run is one more step. */
  lemma {:induction false} RecoverNext(s: Store, order: seq<RunId>, i: nat)
    requires i < |order|
    ensures |RecoverSteps(s, order)| == |order|
    ensures After(s, RecoverSteps(s, order), i + 1) == RecoverRun(After(s, RecoverSteps(s, order), i), order[i])
    decreases |order|
  {
    if |order| > 1 {
      var rest := order[1..];
      RecoverNext(RecoverRun(s, order[0]), rest, if i == 0 then 0 else i - 1);
      if i > 0 {
        assert rest[i - 1] == order[i];
      }
    } else {
      assert order[1..] == [];
    }
  }

  lemma {:induction false} RecoverLength(s: Store, order: seq<RunId>)
    ensures |RecoverSteps(s, order)| == |order|
    decreases |order|
  {
    if order != [] {
      RecoverLength(RecoverRun(s, order[0]), order[1..]);
    }
  }

  lemma ListedRun(s: Store, order: seq<RunId>, i: nat)
    requires ListsRunning(s, order) && i < |order|
    ensures order[i] in After(s, RecoverSteps(s, order), i).runs
  {
    RecoverAfter(s, order, i);
    assert order[i] in s.runs.Keys;
  }

  class PaperSystem {
    const config: Config
    var runs: map<RunId, Run>
    var snapshots: set<RunId>
    var book: Book
    var halted: bool
    /** Transactions the process still completes before it stops. */
    var budget: nat

    function View(): Store
      reads this
    {
      Store(runs, snapshots, book, halted)
    }

    constructor (config: Config)
      requires ConfigOk(config)
      ensures this.config == config && View() == OpenStore(config)
      ensures LifecycleSafety.Inv(config, View())
    {
      this.config := config;
      runs, snapshots, book, halted, budget := map[], {}, OpenBook(config), false, 0;
      new;
      OpenInv(config);
    }

    /** Spend one commit; false when the process has stopped. */
    method Commit() returns (alive: bool)
      modifies this`budget
      ensures alive <==> old(budget) > 0
      ensures budget == if alive then old(budget) - 1 else 0
    {
      alive := budget > 0;
      if alive {
        budget := budget - 1;
      }
    }

    /** `insert_run`. */
    method InsertRun(id: RunId, mode: Mode, key: Option<ScheduleKey>, attempted: Option<ScheduleKey>,
                     admitted: bool) returns (ok: bool)
      modifies this
      ensures ok <==> old(budget) > 0 && Lifecycle.InsertRun(old(View()), id, mode, key, attempted, admitted).Some?
      ensures ok ==> View() == Lifecycle.InsertRun(old(View()), id, mode, key, attempted, admitted).value && budget == old(budget) - 1
      ensures !ok ==> View() == old(View())
    {
      if !admitted || id in runs || (key.Some? && exists r :: r in runs && runs[r].key == key) {
        return false;
      }
      ok := Commit();
      if ok {
        runs := runs[id := Lifecycle.Run(mode, Running, key, attempted)];
      }
    }

    /** `finish_run`. */
    method FinishRun(id: RunId, status: Status)
      requires id in runs
      modifies this
      ensures View() == if old(budget) > 0 then SetStatus(old(View()), id, status) else old(View())
    {
      var ok := Commit();
      if ok {
        runs := runs[id := runs[id].(status := status)];
      }
    }

    /** `activate_kill_switch`. */
    method ActivateKillSwitch() returns (ok: bool)
      modifies this`halted, this`budget
      ensures ok <==> old(budget) > 0
      ensures budget == if ok then old(budget) - 1 else 0
      ensures View() == if ok then Halt(old(View())) else old(View())
    {
      ok := Commit();
      if ok {
        halted := true;
      }
    }

    /** `_persist_equity` in its own connection. */
    method PersistEquity(id: RunId) returns (ok: bool)
      modifies this`snapshots, this`budget
      ensures ok <==> old(budget) > 0
      ensures budget == if ok then old(budget) - 1 else 0
      ensures View() == if ok then AddSnapshot(old(View()), id) else old(View())
    {
      ok := Commit();
      if ok {
        snapshots := snapshots + {id};
      }
    }

    /** `_proposals` and `_execute`: the trading tables change together with the snapshot, or not at all. */
    method Execute(w: Week) returns (ok: bool)
      requires SnapshotOk(config, w.snapshot)
      modifies this`book, this`snapshots, this`budget
      ensures ok <==> old(budget) > 0 && ExecuteWeek(config, old(book), w).Ok?
      ensures ok ==> View() == CommitExecution(old(View()), w.run, ExecuteWeek(config, old(book), w).value) && budget == old(budget) - 1
      ensures !ok ==> View() == old(View())
    {
      var e := WeekEnv(config, w);
      ProposalsAreQuoted(e, book, w.weights, |config.assets|);
      var p := Proposals(e, book, w.weights, |config.assets|);
      hide Proposals, Broker.Execute;
      var transaction := new Transaction(e, book);
      var executed := transaction.Execute(p.proposals, p.rejections);
      if executed.Err? {
        return false;
      }
      ok := Commit();
      if ok {
        book, snapshots := transaction.Contents(), snapshots + {w.run};
      }
    }

    /** Open a run and finish it at once. */
    method InsertAndFinish(id: RunId, mode: Mode, key: Option<ScheduleKey>, attempted: Option<ScheduleKey>,
                           admitted: bool, status: Status)
      modifies this
      ensures View() == After(old(View()), Lifecycle.InsertAndFinish(old(View()), id, mode, key, attempted, admitted, status), old(budget))
    {
      var ok := InsertRun(id, mode, key, attempted, admitted);
      if ok {
        FinishRun(id, status);
      }
    }

    method InsertAndHalt(id: RunId, mode: Mode, key: Option<ScheduleKey>, admitted: bool, status: Status)
      modifies this
      ensures View() == After(old(View()), Lifecycle.InsertAndHalt(old(View()), id, mode, key, admitted, status), old(budget))
    {
      var ok := InsertRun(id, mode, key, None, admitted);
      if !ok {
        return;
      }
      ok := ActivateKillSwitch();
      if ok {
        FinishRun(id, status);
      }
    }

    method InsertAndMark(id: RunId, mode: Mode, admitted: bool, status: Status)
      modifies this
      ensures View() == After(old(View()), Lifecycle.InsertAndMark(old(View()), id, mode, admitted, status), old(budget))
    {
      var ok := InsertRun(id, mode, None, None, admitted);
      if !ok {
        return;
      }
      ok := PersistEquity(id);
      if ok {
        FinishRun(id, status);
      }
    }

    /** The trading branch of `run`, after its row is inserted. */
    method ExecuteAndFinish(w: Week)
      requires SnapshotOk(config, w.snapshot) && w.run in runs
      modifies this
      ensures View() == After(old(View()), ExecuteSteps(config, old(View()), w), old(budget))
    {
      hide ExecuteWeek, Reconciles, RecomputedOutcome;
      var ok := Execute(w);
      if !ok {
        return;
      }
      var valid := Reconciles(config, book);
      if !valid {
        ok := ActivateKillSwitch();
        if !ok {
          return;
        }
      }
      if w.run in book.outcomes && book.outcomes[w.run] == RecomputedOutcome(book, w.run) {
        FinishRun(w.run, if valid then Executed else KillSwitch);
      }
    }

    /** `run`, stopped after `commits` transactions. */
    method Run(i: RunInput, commits: nat)
      requires ConfigOk(config) && LifecycleSafety.Inv(config, View())
      modifies this
      ensures View() == Step(config, old(View()), DoRun(i, commits))
      ensures LifecycleSafety.Inv(config, View()) && Grows(old(View()), View())
    {
      hide Lifecycle.InsertAndFinish, Lifecycle.InsertAndHalt, Lifecycle.InsertAndMark, Reconciles, SnapshotOk, ExecuteSteps,
           LifecycleSafety.Inv, Grows, KeyTaken;
      StepKeeps(config, View(), DoRun(i, commits));
      budget := commits;
      var id := i.week.run;
      var mode := if i.dryRun then DryRun else Paper;
      var official := i.official || i.requireProvenance;
      var scheduled := if official then i.window else None;
      var admitted := !official || i.provenance;
      if i.requireProvenance && !i.provenance {
        InsertAndFinish(id, mode, None, scheduled, true, ProvenanceMissing);
      } else if halted {
        InsertAndFinish(id, mode, scheduled, None, admitted, KillSwitch);
      } else if !Reconciles(config, book) {
        InsertAndHalt(id, mode, scheduled, admitted, KillSwitch);
      } else if i.dataError || !SnapshotOk(config, i.week.snapshot) {
        InsertAndFinish(id, mode, None, scheduled, admitted, DataHalt);
      } else if i.window.None? {
        InsertAndMark(id, mode, admitted, NoRebalance);
      } else if i.dryRun {
        InsertAndMark(id, mode, !official, DryRunDone);
      } else if !KeyTaken(View(), i.window.value) {
        var ok := InsertRun(id, Paper, i.window, None, admitted);
        if ok {
          ExecuteAndFinish(i.week);
        }
      }
    }

    /** `commit_operational_failure`, stopped after `commits` transactions. */
    method CommitOperationalFailure(f: FailureInput, commits: nat)
      requires ConfigOk(config) && LifecycleSafety.Inv(config, View())
      modifies this
      ensures View() == Step(config, old(View()), DoFailure(f, commits))
      ensures LifecycleSafety.Inv(config, View()) && Grows(old(View()), View())
    {
      hide Lifecycle.InsertAndFinish, Lifecycle.InsertAndHalt, LifecycleSafety.Inv, Grows, KeyTaken;
      StepKeeps(config, View(), DoFailure(f, commits));
      budget := commits;
      var key, attempted := f.window, None;
      if Retryable(f) {
        key, attempted := None, f.window;
      }
      if key.Some? && KeyTaken(View(), key.value) {
        return;
      }
      var admitted := !f.official || f.provenance || f.kind.ReleaseProvenanceFailure?;
      if (f.kind.ReconciliationFailure? || f.kind.KillSwitchActivated?) && !halted {
        InsertAndHalt(f.run, Paper, key, admitted, Failed(f.kind));
      } else {
        InsertAndFinish(f.run, Paper, key, attempted, admitted, Failed(f.kind));
      }
    }

    /** The rows `recover_abandoned_runs` selects. */
    method ListRunning() returns (order: seq<RunId>)
      ensures ListsRunning(View(), order)
    {
      var running := set r | r in runs && runs[r].status.Running?;
      order := ListOf(running);
      assert forall i :: 0 <= i < |order| ==> order[i] in order;
    }

    /** Recover one row. */
    method RecoverRow(r: RunId) returns (ok: bool)
      requires r in runs
      modifies this`runs, this`budget
      ensures ok <==> old(budget) > 0
      ensures budget == if ok then old(budget) - 1 else 0
      ensures View() == if ok then RecoverRun(old(View()), r) else old(View())
    {
      ok := Commit();
      if ok {
        if r in snapshots {
          runs := runs[r := runs[r].(status := RecoveredCommitted)];
        } else {
          runs := runs[r := runs[r].(status := RecoveredAborted, key := None)];
        }
      }
    }

    /** `recover_abandoned_runs`, as the store is opened; returns the runs in the order they were listed. */
    method RecoverAbandonedRuns(commits: nat) returns (order: seq<RunId>)
      requires ConfigOk(config) && LifecycleSafety.Inv(config, View())
      modifies this
      ensures ListsRunning(old(View()), order)
      ensures View() == Step(config, old(View()), Restart(order, commits))
      ensures LifecycleSafety.Inv(config, View()) && Grows(old(View()), View())
      ensures |order| <= commits ==> forall r :: r in runs ==> !runs[r].status.Running?
    {
      hide LifecycleSafety.Inv, Grows, ListsRunning, RecoverSteps, RecoverRun;
      budget := commits;
      ghost var start := View();
      order := ListRunning();
      StepKeeps(config, start, Restart(order, commits));
      if |order| <= commits {
        RecoveryCompletes(start, order, commits);
      }
      assert View() == After(start, RecoverSteps(start, order), 0);
      for i := 0 to |order|
        invariant commits == budget + i
        invariant View() == After(start, RecoverSteps(start, order), i)
      {
        RecoverNext(start, order, i);
        ListedRun(start, order, i);
        var ok := RecoverRow(order[i]);
        if !ok {
          return;
        }
      }
      RecoverLength(start, order);
    }

    /** `reset_kill_switch`: refused while the audit fails. */
    method ResetKillSwitch()
      modifies this`halted
      ensures View() == Step(config, old(View()), Op.ResetKillSwitch)
    {
      if Reconciles(config, book) {
        halted := false;
      }
    }
  }
}
