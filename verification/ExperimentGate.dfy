/** The order of access enforced by `ExperimentGate` of src/experiment_manager.py: train, validate, lock, then the final test. */
module ExperimentGate {
  import opened Common

  type Id = nat

  datatype Gate = Gate(expected: nat, training: set<Id>, finalists: Option<set<Id>>, validated: set<Id>, locked: Option<Id>)

  datatype Refusal = StageClosed | BadFinalists | TrainingIncomplete | NotFinalist | AlreadyLocked | ValidationIncomplete | Sealed

  datatype Call =
    | RecordTraining(id: Id)
    | SetFinalists(ids: seq<Id>)
    | RecordValidation(id: Id)
    | LockCandidate(id: Id)

  function Members(s: seq<Id>): set<Id> {
    set id | id in s
  }

  /** What refuses a call, if anything does. */
  function Refused(g: Gate, call: Call): Option<Refusal> {
    match call
    case RecordTraining(_) => if g.finalists.Some? then Some(StageClosed) else None
    case SetFinalists(ids) =>
      if ids == [] || !Distinct(ids) || |ids| > |g.training| then Some(BadFinalists)
      else if |g.training| != g.expected then Some(TrainingIncomplete)
      else if !(Members(ids) <= g.training) then Some(BadFinalists)
      else None
    case RecordValidation(id) => if g.finalists.None? || id !in g.finalists.value then Some(NotFinalist) else None
    case LockCandidate(id) =>
      if g.locked.Some? then Some(AlreadyLocked)
      else if g.finalists.None? then Some(NotFinalist)
      else if g.validated != g.finalists.value then Some(ValidationIncomplete)
      else if id !in g.finalists.value then Some(NotFinalist)
      else None
  }

  function Apply(g: Gate, call: Call): Gate {
    if Refused(g, call).Some? then g
    else
      match call
      case RecordTraining(id) => g.(training := g.training + {id})
      case SetFinalists(ids) => g.(finalists := Some(Members(ids)))
      case RecordValidation(id) => g.(validated := g.validated + {id})
      case LockCandidate(id) => g.(locked := Some(id))
  }

  function History(expected: nat, calls: seq<Call>): Gate {
    if calls == [] then Gate(expected, {}, None, {}, None)
    else Apply(History(expected, calls[..|calls| - 1]), calls[|calls| - 1])
  }

  /** Once finalists are declared, training is complete and closed, and only trained candidates are validated or locked. */
  predicate Inv(g: Gate) {
    && (g.finalists.Some? ==> |g.training| == g.expected && g.finalists.value <= g.training && g.finalists.value != {})
    && g.validated <= g.training && (g.validated != {} ==> g.finalists.Some?)
    && (g.locked.Some? ==> g.finalists.Some? && g.locked.value in g.validated)
  }

  lemma {:induction false} HistoryInv(expected: nat, calls: seq<Call>)
    ensures Inv(History(expected, calls)) && History(expected, calls).expected == expected
  {
    if calls != [] {
      HistoryInv(expected, calls[..|calls| - 1]);
      var last := calls[|calls| - 1];
      if last.SetFinalists? && last.ids != [] {
        assert last.ids[0] in Members(last.ids);
      }
    }
  }

  /** Some accepted validation of the candidate, made while it was a declared finalist. */
  predicate ValidatedAsFinalist(expected: nat, calls: seq<Call>, id: Id) {
    exists k :: 0 <= k < |calls| && calls[k] == RecordValidation(id) && IsFinalist(History(expected, calls[..k]), id)
  }

  predicate IsFinalist(g: Gate, id: Id) {
    g.finalists.Some? && id in g.finalists.value
  }

  /** The lock on the candidate, made while it was a declared finalist and exactly the finalists were validated. */
  predicate LockedAsFinalist(expected: nat, calls: seq<Call>, id: Id) {
    exists k :: 0 <= k < |calls| && calls[k] == LockCandidate(id)
      && IsFinalist(History(expected, calls[..k]), id)
      && History(expected, calls[..k]).validated == History(expected, calls[..k]).finalists.value
  }

  lemma {:induction false} EarnedInOrder(expected: nat, calls: seq<Call>, id: Id)
    ensures var g := History(expected, calls);
            && (id in g.validated ==> ValidatedAsFinalist(expected, calls, id))
            && (g.locked == Some(id) ==> LockedAsFinalist(expected, calls, id))
  {
    if calls != [] {
      var n := |calls| - 1;
      var before := History(expected, calls[..n]);
      EarnedInOrder(expected, calls[..n], id);
      assert forall k :: 0 <= k < n ==> calls[..n][..k] == calls[..k];
      if id in before.validated {
        var k :| 0 <= k < n && calls[..n][k] == RecordValidation(id) && IsFinalist(History(expected, calls[..n][..k]), id);
        assert calls[k] == RecordValidation(id);
      } else if id in History(expected, calls).validated {
        assert calls[n] == RecordValidation(id) && IsFinalist(History(expected, calls[..n]), id);
      }
      if before.locked == Some(id) {
        var k :| 0 <= k < n && calls[..n][k] == LockCandidate(id)
          && IsFinalist(History(expected, calls[..n][..k]), id)
          && History(expected, calls[..n][..k]).validated == History(expected, calls[..n][..k]).finalists.value;
        assert calls[k] == LockCandidate(id);
      } else if History(expected, calls).locked == Some(id) {
        assert calls[n] == LockCandidate(id) && IsFinalist(History(expected, calls[..n]), id);
      }
    }
  }

  /**
   Whoever may access the final test was trained among all expected trials,
   validated while a declared finalist, and then locked while a declared
   finalist, when exactly the finalists had been validated.
   */
  lemma TestAccessIsEarned(expected: nat, calls: seq<Call>, id: Id)
    requires History(expected, calls).locked == Some(id)
    ensures var g := History(expected, calls);
            id in g.training && |g.training| == expected && id in g.validated
    ensures ValidatedAsFinalist(expected, calls, id) && LockedAsFinalist(expected, calls, id)
  {
    HistoryInv(expected, calls);
    EarnedInOrder(expected, calls, id);
  }

  /** The lock is final: no later calls open the test to anyone else. */
  lemma {:induction false} LockIsFinal(expected: nat, calls: seq<Call>, more: seq<Call>, id: Id)
    requires History(expected, calls).locked == Some(id)
    ensures History(expected, calls + more).locked == Some(id)
    decreases |more|
  {
    if more == [] {
      assert calls + more == calls;
    } else {
      var n := |more| - 1;
      LockIsFinal(expected, calls, more[..n], id);
      assert (calls + more)[..|calls + more| - 1] == calls + more[..n];
    }
  }

  // -------------------------------------------------- what the lock leaves open

  /** A list the gate accepts as finalists once `training` is complete. */
  predicate Declarable(training: set<Id>, ids: seq<Id>) {
    ids != [] && Distinct(ids) && Members(ids) <= training
  }

  lemma {:induction false} DistinctSize(ids: seq<Id>)
    requires Distinct(ids)
    ensures |Members(ids)| == |ids|
  {
    if ids != [] {
      var n := |ids| - 1;
      DistinctSize(ids[..n]);
      assert Members(ids) == Members(ids[..n]) + {ids[n]};
    }
  }

  lemma SubsetSize(a: set<Id>, b: set<Id>)
    requires a <= b
    ensures |a| <= |b|
  {
    assert b == a + (b - a);
  }

  /** Once finalists are declared, a redeclaration is accepted exactly of a declarable list. */
  lemma RedeclaredExactly(g: Gate, ids: seq<Id>)
    requires Inv(g) && g.finalists.Some?
    ensures Refused(g, SetFinalists(ids)).None? <==> Declarable(g.training, ids)
  {
    if Declarable(g.training, ids) {
      DistinctSize(ids);
      SubsetSize(Members(ids), g.training);
    }
  }

  /** The finalists after more calls: those of the last declarable list among them. */
  function LastDeclared(training: set<Id>, before: Option<set<Id>>, more: seq<Call>): Option<set<Id>> {
    if more == [] then before
    else
      var last := more[|more| - 1];
      if last.SetFinalists? && Declarable(training, last.ids) then Some(Members(last.ids))
      else LastDeclared(training, before, more[..|more| - 1])
  }

  /** From the first declaration on, the training set never changes and the finalists are the last declarable list. */
  lemma {:induction false} FinalistsAreLastDeclared(expected: nat, calls: seq<Call>, more: seq<Call>)
    requires History(expected, calls).finalists.Some?
    ensures var g := History(expected, calls);
            && History(expected, calls + more).training == g.training
            && History(expected, calls + more).finalists == LastDeclared(g.training, g.finalists, more)
            && History(expected, calls + more).finalists.Some?
    decreases |more|
  {
    if more == [] {
      assert calls + more == calls;
    } else {
      var n := |more| - 1;
      FinalistsAreLastDeclared(expected, calls, more[..n]);
      assert (calls + more)[..|calls + more| - 1] == calls + more[..n];
      HistoryInv(expected, calls + more[..n]);
      if more[n].SetFinalists? {
        RedeclaredExactly(History(expected, calls + more[..n]), more[n].ids);
      }
    }
  }

  /**
   The lock does not freeze the finalists: the candidate just locked stays a
   finalist throughout whatever calls follow exactly when every declarable list
   among them names it.
   */
  lemma LockedFinalistExactly(expected: nat, calls: seq<Call>, more: seq<Call>, id: Id)
    requires Refused(History(expected, calls), LockCandidate(id)).None?
    ensures var locked := calls + [LockCandidate(id)];
            (forall k :: 0 <= k <= |more| ==> IsFinalist(History(expected, locked + more[..k]), id))
            <==> forall i :: 0 <= i < |more| ==>
                   (more[i].SetFinalists? && Declarable(History(expected, calls).training, more[i].ids) ==> id in more[i].ids)
  {
    var locked := calls + [LockCandidate(id)];
    var g := History(expected, locked);
    assert locked[..|locked| - 1] == calls;
    assert g.finalists == History(expected, calls).finalists && g.training == History(expected, calls).training;
    hide History;
    StaysExactly(g.training, g.finalists, more, id);
    forall k | 0 <= k <= |more|
      ensures History(expected, locked + more[..k]).finalists == LastDeclared(g.training, g.finalists, more[..k])
    {
      FinalistsAreLastDeclared(expected, locked, more[..k]);
    }
  }

  lemma {:induction false} StaysExactly(training: set<Id>, before: Option<set<Id>>, more: seq<Call>, id: Id)
    requires before.Some? && id in before.value
    ensures (forall k :: 0 <= k <= |more| ==>
               LastDeclared(training, before, more[..k]).Some? && id in LastDeclared(training, before, more[..k]).value)
            <==> forall i :: 0 <= i < |more| && more[i].SetFinalists? && Declarable(training, more[i].ids) ==> id in more[i].ids
  {
    if more != [] {
      var n := |more| - 1;
      var rest := more[..n];
      StaysExactly(training, before, rest, id);
      assert more[..n + 1] == more;
      assert forall k :: 0 <= k <= n ==> rest[..k] == more[..k];
      assert forall i :: 0 <= i < n ==> rest[i] == more[i];
      if (forall i :: 0 <= i < n && more[i].SetFinalists? && Declarable(training, more[i].ids) ==> id in more[i].ids) {
        assert LastDeclared(training, before, rest[..n]).Some? && id in LastDeclared(training, before, rest[..n]).value;
        assert forall k :: 0 <= k <= n ==>
                 LastDeclared(training, before, more[..k]).Some? && id in LastDeclared(training, before, more[..k]).value;
        assert (LastDeclared(training, before, more).Some? && id in LastDeclared(training, before, more).value)
          <==> (more[n].SetFinalists? && Declarable(training, more[n].ids) ==> id in more[n].ids);
      } else {
        var k :| 0 <= k <= n
          && !(LastDeclared(training, before, rest[..k]).Some? && id in LastDeclared(training, before, rest[..k]).value);
        assert rest[..k] == more[..k];
      }
    }
  }

  /** A whole experiment in which the candidate with test access is no longer a finalist. */
  lemma LockedLosesFinalist()
    ensures var calls := [RecordTraining(1), RecordTraining(2), SetFinalists([1]), RecordValidation(1),
                          LockCandidate(1), SetFinalists([2])];
            History(2, calls).locked == Some(1) && History(2, calls).finalists == Some({2})
  {
    var calls := [RecordTraining(1), RecordTraining(2), SetFinalists([1]), RecordValidation(1),
                  LockCandidate(1), SetFinalists([2])];
    hide Apply, History, Refused;
    var trained := Gate(2, {1, 2}, None, {}, None);
    FirstCalls(2, calls[0], calls[1]);
    assert calls[..2] == [calls[0], calls[1]];
    TrainBoth();
    NextCall(2, calls, 2);
    DeclareOne(trained, 1);
    NextCall(2, calls, 3);
    NextCall(2, calls, 4);
    NextCall(2, calls, 5);
    ValidateAndLock(trained.(finalists := Some({1})), 1);
    DeclareOne(Gate(2, {1, 2}, Some({1}), {1}, Some(1)), 2);
    assert calls[..6] == calls;
  }

  lemma FirstCalls(expected: nat, x: Call, y: Call)
    ensures History(expected, [x, y]) == Apply(Apply(Gate(expected, {}, None, {}, None), x), y)
  {
    hide Apply;
    var both := [x, y];
    assert both[..|both| - 1] == [x] && [x][..0] == [];
    assert History(expected, []) == Gate(expected, {}, None, {}, None);
    assert History(expected, [x]) == Apply(History(expected, []), x);
  }

  lemma NextCall(expected: nat, calls: seq<Call>, k: nat)
    requires k < |calls|
    ensures History(expected, calls[..k + 1]) == Apply(History(expected, calls[..k]), calls[k])
  {
    hide Apply;
    assert calls[..k + 1][..k] == calls[..k];
  }

  lemma TrainBoth()
    ensures Apply(Apply(Gate(2, {}, None, {}, None), RecordTraining(1)), RecordTraining(2)) == Gate(2, {1, 2}, None, {}, None)
  {
    assert {} + {1} + {2} == {1, 2};
  }

  lemma DeclareOne(g: Gate, id: Id)
    requires g.expected == 2 && g.training == {1, 2} && id in g.training
    ensures Apply(g, SetFinalists([id])) == g.(finalists := Some({id}))
  {
    assert Members([id]) == {id};
  }

  lemma ValidateAndLock(g: Gate, id: Id)
    requires g.finalists == Some({id}) && g.validated == {} && g.locked.None?
    ensures Apply(Apply(g, RecordValidation(id)), LockCandidate(id)) == g.(validated := {id}, locked := Some(id))
  {
    assert {} + {id} == {id};
  }

  class ExperimentGate {
    const expected: nat
    var training: set<Id>
    var finalists: Option<set<Id>>
    var validated: set<Id>
    var locked: Option<Id>

    function View(): Gate
      reads this
    {
      Gate(expected, training, finalists, validated, locked)
    }

    constructor (expected: nat)
      requires 0 < expected
      ensures View() == History(expected, [])
    {
      this.expected := expected;
      training, finalists, validated, locked := {}, None, {}, None;
    }

    method Record(id: Id) returns (refused: Option<Refusal>)
      modifies this`training
      ensures refused == Refused(old(View()), RecordTraining(id)) && View() == Apply(old(View()), RecordTraining(id))
    {
      if finalists.Some? {
        return Some(StageClosed);
      }
      training := training + {id};
      refused := None;
    }

    method DeclareFinalists(ids: seq<Id>) returns (refused: Option<Refusal>)
      modifies this`finalists
      ensures refused == Refused(old(View()), SetFinalists(ids)) && View() == Apply(old(View()), SetFinalists(ids))
    {
      if ids == [] {
        return Some(BadFinalists);
      }
      var seen: set<Id> := {};
      for i := 0 to |ids|
        invariant seen == Members(ids[..i]) && Distinct(ids[..i])
      {
        if ids[i] in seen {
          var k :| 0 <= k < i && ids[k] == ids[i];
          return Some(BadFinalists);
        }
        seen := seen + {ids[i]};
      }
      assert ids[..|ids|] == ids;
      if |ids| > |training| {
        return Some(BadFinalists);
      }
      if |training| != expected {
        return Some(TrainingIncomplete);
      }
      if !(seen <= training) {
        return Some(BadFinalists);
      }
      finalists := Some(seen);
      refused := None;
    }

    method Validate(id: Id) returns (refused: Option<Refusal>)
      modifies this`validated
      ensures refused == Refused(old(View()), RecordValidation(id)) && View() == Apply(old(View()), RecordValidation(id))
    {
      if finalists.None? || id !in finalists.value {
        return Some(NotFinalist);
      }
      validated := validated + {id};
      refused := None;
    }

    method Lock(id: Id) returns (refused: Option<Refusal>)
      modifies this`locked
      ensures refused == Refused(old(View()), LockCandidate(id)) && View() == Apply(old(View()), LockCandidate(id))
    {
      if locked.Some? {
        return Some(AlreadyLocked);
      }
      if finalists.None? {
        return Some(NotFinalist);
      }
      if validated != finalists.value {
        return Some(ValidationIncomplete);
      }
      if id !in finalists.value {
        return Some(NotFinalist);
      }
      locked := Some(id);
      refused := None;
    }

    method AssertTestAccess(id: Id) returns (refused: Option<Refusal>)
      ensures refused.None? <==> locked == Some(id)
    {
      refused := if locked == Some(id) then None else Some(Sealed);
    }
  }
}
