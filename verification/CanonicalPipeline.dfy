/**
 The locked pipeline as it runs: guarded updates of one row at a time, an
 exclusive create and an atomic replace, with a budget of commits after which
 the process dies or an exception is raised.
 */
module CanonicalPipeline {
  import opened Common
  import opened Publication

  lemma AfterConcat(w: World, a: seq<World>, b: seq<World>, n: nat)
    ensures After(w, a + b, n) == if n <= |a| then After(w, a, n) else After(Last(w, a), b, n - |a|)
  {
  }

  /** The next listed run, then the rest. */
  lemma RecoverFirst(h: Digest, w: World, todo: seq<RunId>, n: nat)
    requires todo != []
    ensures var first := RecoverRun(h, w, todo[0]);
            var rest := RecoverSteps(h, Last(w, first), todo[1..]);
            && |RecoverSteps(h, w, todo)| == |first| + |rest|
            && After(w, RecoverSteps(h, w, todo), n)
               == if n <= |first| then After(w, first, n) else After(Last(w, first), rest, n - |first|)
  {
    hide RecoverRun;
    AfterConcat(w, RecoverRun(h, w, todo[0]), RecoverSteps(h, Last(w, RecoverRun(h, w, todo[0])), todo[1..]), n);
  }

  lemma AfterNothing(w: World, n: nat)
    ensures After(w, [], n) == w
  {
  }

  ghost predicate Pending(w: World, order: seq<RunId>, i: nat) {
    && Distinct(order)
    && forall k :: i <= k < |order| ==> order[k] in w.rows && Recoverable(w, order[k])
  }

  lemma RecoverAdvance(h: Digest, w: World, order: seq<RunId>, i: nat, n: nat)
    requires Inv(h, w) && i < |order| && Pending(w, order, i)
    ensures var first := RecoverRun(h, w, order[i]);
            var w1 := Last(w, first);
            && Inv(h, w1) && Pending(w1, order, i + 1)
            && |RecoverSteps(h, w, order[i..])| == |first| + |RecoverSteps(h, w1, order[i + 1..])|
            && After(w, RecoverSteps(h, w, order[i..]), n)
               == if n <= |first| then After(w, first, n) else After(w1, RecoverSteps(h, w1, order[i + 1..]), n - |first|)
  {
    hide Inv, RecoverRun, RunMatches, RecoverSteps;
    RecoverRunSound(h, w, order[i]);
    assert order[i..][1..] == order[i + 1..];
    RecoverFirst(h, w, order[i..], n);
    var w1 := Last(w, RecoverRun(h, w, order[i]));
    assert forall r :: r in w1.rows <==> r in w.rows.Keys;
  }

  /** Before row i: what is left of the whole recovery is the recovery of the rest. */
  ghost predicate OnCourse(h: Digest, start: World, order: seq<RunId>, total: nat, w: World, i: nat, left: nat) {
    && Inv(h, w) && Pending(w, order, i) && i <= |order| && left <= total
    && |RecoverSteps(h, start, order)| == (total - left) + |RecoverSteps(h, w, order[i..])|
    && After(start, RecoverSteps(h, start, order), total) == After(w, RecoverSteps(h, w, order[i..]), left)
  }

  lemma CourseStart(h: Digest, w: World, order: seq<RunId>, total: nat)
    requires Inv(h, w) && ListsRecoverable(w, order)
    ensures OnCourse(h, w, order, total, w, 0, total)
  {
    hide Inv, RecoverSteps, After;
    assert order[0..] == order;
  }

  /** The row's recovery either exhausts the budget, ending the whole, or leaves it on course. */
  lemma CourseRow(h: Digest, start: World, order: seq<RunId>, total: nat, w: World, i: nat, left: nat)
    requires OnCourse(h, start, order, total, w, i, left) && i < |order|
    ensures order[i] in w.rows && Recoverable(w, order[i]) && Inv(h, w)
    ensures var steps := RecoverRun(h, w, order[i]);
            if |steps| <= left then OnCourse(h, start, order, total, Last(w, steps), i + 1, left - |steps|)
            else && |RecoverSteps(h, start, order)| > total
                 && After(start, RecoverSteps(h, start, order), total) == After(w, steps, left)
  {
    hide Inv, RecoverRun, RecoverSteps, Recoverable, After, Last;
    RecoverAdvance(h, w, order, i, left);
    AfterAll(w, RecoverRun(h, w, order[i]), left);
    RestUnaffected(h, Last(w, RecoverRun(h, w, order[i])), order, i, left, |RecoverRun(h, w, order[i])|);
  }

  lemma AfterAll(w: World, steps: seq<World>, n: nat)
    ensures n == |steps| ==> After(w, steps, n) == Last(w, steps)
  {
  }

  /** With nothing left, the rest has not begun. */
  lemma RestUnaffected(h: Digest, w1: World, order: seq<RunId>, i: nat, left: nat, used: nat)
    requires i < |order|
    ensures left == used ==> After(w1, RecoverSteps(h, w1, order[i + 1..]), left - used) == w1
  {
  }

  lemma CourseEnd(h: Digest, start: World, order: seq<RunId>, total: nat, w: World, left: nat)
    requires OnCourse(h, start, order, total, w, |order|, left)
    ensures w == After(start, RecoverSteps(h, start, order), total) && |RecoverSteps(h, start, order)| == total - left
  {
    assert order[|order|..] == [];
    AfterNothing(w, left);
  }

  class Database {
    const h: Digest
    var rows: map<RunId, Row>
    var files: map<RunId, Manifest>
    var pointer: Option<Manifest>
    var budget: nat

    function View(): World
      reads this
    {
      World(rows, files, pointer)
    }

    constructor (h: Digest)
      ensures this.h == h && View() == EmptyWorld && Inv(h, View())
    {
      this.h := h;
      rows, files, pointer, budget := map[], map[], None, 0;
      new;
      EmptyInv(h);
    }

    method Commit() returns (alive: bool)
      modifies this`budget
      ensures alive <==> old(budget) > 0
      ensures budget == if alive then old(budget) - 1 else 0
    {
      alive := budget > 0;
      if alive {
        budget := budget - 1;
      }
    }

    /** A guarded UPDATE of one row: the new row is written only where the guard holds. */
    method Update(run: RunId, guard: bool, row: Row) returns (ok: bool)
      requires guard ==> run in rows
      modifies this`rows, this`budget
      ensures ok <==> guard && old(budget) > 0
      ensures ok ==> rows == old(rows)[run := row] && budget == old(budget) - 1
      ensures !ok ==> rows == old(rows)
      ensures guard && !ok ==> budget == 0
    {
      if !guard {
        return false;
      }
      ok := Commit();
      if ok {
        rows := rows[run := row];
      }
    }

    /** The publication tail of `_run_pipeline_locked`. */
    method Publish(run: RunId, content: nat)
      modifies this
      ensures View() == After(old(View()), PublishSteps(h, old(View()), run, content), old(budget))
    {
      var m := ManifestOf(run, content);
      if run in rows {
        return;
      }
      var ok := Commit();
      if !ok {
        return;
      }
      rows := rows[run := Row(Running, Started, None, None)];
      if m.path in files {
        return;
      }
      ok := Commit();
      if !ok {
        return;
      }
      files := files[m.path := m];
      ok := Update(run, rows[run].status.Running? && rows[run].state.Started?,
                   rows[run].(state := ArtifactsReady, path := Some(run), sha := Some(h(m))));
      if !ok {
        return;
      }
      ok := Commit();
      if !ok {
        return;
      }
      pointer := Some(m);
      if !PointerMatches(h, View(), run, run, h(m)) {
        return;
      }
      ok := Update(run, rows[run].status.Running? && rows[run].state.ArtifactsReady?, rows[run].(state := Published));
      if ok {
        ok := Update(run, !rows[run].status.Completed? && rows[run].state.Published?,
                     rows[run].(status := Completed, state := Finalized));
      }
    }

    /** One run of the recovery loop. */
    method RecoverRow(run: RunId) returns (alive: bool)
      requires Inv(h, View()) && run in rows && Recoverable(View(), run)
      modifies this`rows, this`budget
      ensures var steps := RecoverRun(h, old(View()), run);
              && View() == After(old(View()), steps, old(budget))
              && (alive <==> |steps| <= old(budget))
              && budget == (if alive then old(budget) - |steps| else 0)
              && (alive ==> View() == Last(old(View()), steps))
    {
      ghost var start := View();
      RecoverRunSound(h, start, run);
      if RunMatches(h, View(), run) {
        if rows[run].state.ArtifactsReady? {
          MatchingRow(h, start, run);
          alive := Update(run, true, rows[run].(state := Published));
          if !alive {
            return;
          }
        }
        alive := Update(run, rows[run].state.Published?, rows[run].(status := Completed, state := Finalized));
      } else {
        alive := Update(run, true, rows[run].(status := Failed));
      }
    }

    /** The rows `recoverable_publications` selects, in some order. */
    method ListRecoverable() returns (order: seq<RunId>)
      ensures ListsRecoverable(View(), order)
    {
      var found := set r | r in rows && Recoverable(View(), r);
      order := ListOf(found);
      assert forall i :: 0 <= i < |order| ==> order[i] in order;
    }

    /** `recover_interrupted_publications`. */
    method Recover(order: seq<RunId>) returns (alive: bool)
      requires Inv(h, View()) && ListsRecoverable(View(), order)
      modifies this`rows, this`budget
      ensures var steps := RecoverSteps(h, old(View()), order);
              && View() == After(old(View()), steps, old(budget))
              && (alive <==> |steps| <= old(budget))
              && budget == (if alive then old(budget) - |steps| else 0)
    {
      hide Inv, Recoverable, RecoverRun, RecoverSteps, OnCourse, After, Last, ListsRecoverable, Pending, RunMatches;
      ghost var start, total := View(), budget;
      CourseStart(h, start, order, total);
      for i := 0 to |order|
        invariant OnCourse(h, start, order, total, View(), i, budget)
      {
        CourseRow(h, start, order, total, View(), i, budget);
        alive := RecoverRow(order[i]);
        if !alive {
          return;
        }
      }
      CourseEnd(h, start, order, total, View(), budget);
      alive := true;
    }

    /** `_run_pipeline_locked`, stopped as told; returns the order the recovery worked in. */
    method RunLocked(run: RunId, content: nat, stop: Stop) returns (order: seq<RunId>)
      requires Inv(h, View()) && RaisesInTime(Pipeline([], run, content, stop))
      modifies this
      ensures ListsRecoverable(old(View()), order)
      ensures View() == RunPipeline(h, old(View()), Pipeline(order, run, content, stop))
      ensures Inv(h, View())
    {
      hide Inv, RecoverSteps, PublishSteps, ListsRecoverable, RunMatches;
      ghost var start := View();
      order := ListRecoverable();
      PipelineKeeps(h, start, Pipeline(order, run, content, stop));
      match stop {
        case Crash(n) =>
          budget := n;
          var alive := Recover(order);
          if alive {
            Publish(run, content);
          }
        case Raise(k, handled) =>
          RecoverAll(order);
          if run in rows {
            return;
          }
          budget := k + 1;
          Publish(run, content);
          if handled && !RunMatches(h, View(), run) && run in rows {
            rows := rows[run := rows[run].(status := Failed)];
          }
      }
    }

    /** Recovery with nothing to stop it. */
    method RecoverAll(order: seq<RunId>)
      requires Inv(h, View()) && ListsRecoverable(View(), order)
      modifies this
      ensures View() == Last(old(View()), RecoverSteps(h, old(View()), order))
    {
      hide Inv, RecoverSteps, ListsRecoverable, RunMatches;
      RecoverLength(h, View(), order);
      budget := 2 * |order|;
      var alive := Recover(order);
    }
  }

  /** At most two commits for each run. */
  lemma {:induction false} RecoverLength(h: Digest, w: World, order: seq<RunId>)
    ensures |RecoverSteps(h, w, order)| <= 2 * |order|
    decreases |order|
  {
    if order != [] {
      RecoverLength(h, Last(w, RecoverRun(h, w, order[0])), order[1..]);
    }
  }
}
