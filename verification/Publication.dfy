/**
 Canonical dataset publication: the rows of src/database.py, the immutable
 manifests and the pointer file of run_data_pipeline.py.  A pipeline is the
 sequence of worlds its commits produce; a crash or an exception stops it after
 any of them, and the next pipeline starts with the recovery.
 */
module Publication {
  import opened Common

  type RunId = nat

  datatype Status = Running | Failed | Completed
  datatype State = Started | ArtifactsReady | Published | Finalized

  /** A manifest payload; `path` is the run directory its version path names. */
  datatype Manifest = Manifest(run: RunId, path: RunId, content: nat)

  datatype Row = Row(status: Status, state: State, path: Option<RunId>, sha: Option<nat>)

  /** The ingestion_runs table, the immutable manifests by directory, and the pointer file. */
  datatype World = World(rows: map<RunId, Row>, files: map<RunId, Manifest>, pointer: Option<Manifest>)

  /** The digest is a parameter; nothing below needs it to be collision-free. */
  type Digest = Manifest -> nat

  const EmptyWorld := World(map[], map[], None)

  function Updated(w: World, run: RunId, row: Row): World {
    w.(rows := w.rows[run := row])
  }

  // ------------------------------------------------------------ guarded updates

  function StartRun(w: World, run: RunId): Option<World> {
    if run in w.rows then None else Some(Updated(w, run, Row(Running, Started, None, None)))
  }

  /** Exclusive creation: an existing file is never replaced. */
  function SaveImmutable(w: World, m: Manifest): Option<World> {
    if m.path in w.files then None else Some(w.(files := w.files[m.path := m]))
  }

  function MarkArtifactsReady(w: World, run: RunId, path: RunId, sha: nat): Option<World> {
    if run in w.rows && w.rows[run].status.Running? && w.rows[run].state.Started? then
      Some(Updated(w, run, w.rows[run].(state := ArtifactsReady, path := Some(path), sha := Some(sha))))
    else None
  }

  function ReplacePointer(w: World, m: Manifest): World {
    w.(pointer := Some(m))
  }

  function MarkPublished(w: World, run: RunId): Option<World> {
    if run in w.rows && w.rows[run].status.Running? && w.rows[run].state.ArtifactsReady? then
      Some(Updated(w, run, w.rows[run].(state := Published)))
    else None
  }

  function RecoverArtifactsReady(w: World, run: RunId): Option<World> {
    if run in w.rows && !w.rows[run].status.Completed? && w.rows[run].state.ArtifactsReady? then
      Some(Updated(w, run, w.rows[run].(state := Published)))
    else None
  }

  function CompletePublished(w: World, run: RunId): Option<World> {
    if run in w.rows && !w.rows[run].status.Completed? && w.rows[run].state.Published? then
      Some(Updated(w, run, w.rows[run].(status := Completed, state := Finalized)))
    else None
  }

  /** `finish_run`: no guard at all. */
  function FinishRun(w: World, run: RunId, status: Status): World {
    if run in w.rows then Updated(w, run, w.rows[run].(status := status)) else w
  }

  // ------------------------------------------------------------------ matching

  /** `_canonical_pointer_matches`. */
  predicate PointerMatches(h: Digest, w: World, run: RunId, path: RunId, sha: nat) {
    && path in w.files && w.pointer.Some?
    && h(w.files[path]) == sha && h(w.pointer.value) == sha
    && w.files[path] == w.pointer.value
    && w.pointer.value.run == run && w.pointer.value.path == path
  }

  /** `_canonical_publication_matches_run`. */
  predicate RunMatches(h: Digest, w: World, run: RunId) {
    && run in w.rows
    && (w.rows[run].state.ArtifactsReady? || w.rows[run].state.Published?)
    && w.rows[run].path.Some? && w.rows[run].sha.Some?
    && PointerMatches(h, w, run, w.rows[run].path.value, w.rows[run].sha.value)
  }

  // ------------------------------------------------------------------ pipeline

  function ManifestOf(run: RunId, content: nat): Manifest {
    Manifest(run, run, content)
  }

  function Then(w: Option<World>, rest: seq<World>): seq<World> {
    if w.Some? then [w.value] + rest else []
  }

  /** The tail of `_run_pipeline_locked`, from `start_run`; it ends early where a guard raises. */
  function PublishSteps(h: Digest, w: World, run: RunId, content: nat): seq<World> {
    var m := ManifestOf(run, content);
    var s1 := StartRun(w, run);
    if s1.None? then [] else
    var s2 := SaveImmutable(s1.value, m);
    if s2.None? then [s1.value] else
    var s3 := MarkArtifactsReady(s2.value, run, run, h(m));
    if s3.None? then [s1.value, s2.value] else
    var s4 := ReplacePointer(s3.value, m);
    if !PointerMatches(h, s4, run, run, h(m)) then [s1.value, s2.value, s3.value, s4] else
    var s5 := MarkPublished(s4, run);
    if s5.None? then [s1.value, s2.value, s3.value, s4] else
    [s1.value, s2.value, s3.value, s4, s5.value] + Then(CompletePublished(s5.value, run), [])
  }

  /** The `except` clause: leave the run whose manifest is published, fail any other. */
  function Handle(h: Digest, w: World, run: RunId): World {
    if RunMatches(h, w, run) then w else FinishRun(w, run, Failed)
  }

  // ------------------------------------------------------------------ recovery

  predicate Recoverable(w: World, run: RunId)
    requires run in w.rows
  {
    var row := w.rows[run];
    row.status.Running? || (row.status.Failed? && (row.state.ArtifactsReady? || row.state.Published?))
  }

  predicate ListsRecoverable(w: World, order: seq<RunId>) {
    && Distinct(order)
    && (forall i :: 0 <= i < |order| ==> order[i] in w.rows && Recoverable(w, order[i]))
    && forall r :: r in w.rows && Recoverable(w, r) ==> r in order
  }

  /** One run of `recover_interrupted_publications`. */
  function RecoverRun(h: Digest, w: World, run: RunId): seq<World> {
    if RunMatches(h, w, run) then
      if w.rows[run].state.ArtifactsReady? then
        var s1 := RecoverArtifactsReady(w, run);
        if s1.None? then [] else [s1.value] + Then(CompletePublished(s1.value, run), [])
      else Then(CompletePublished(w, run), [])
    else [FinishRun(w, run, Failed)]
  }

  function Last(w: World, steps: seq<World>): World {
    if steps == [] then w else steps[|steps| - 1]
  }

  function RecoverSteps(h: Digest, w: World, order: seq<RunId>): seq<World>
    decreases |order|
  {
    if order == [] then []
    else RecoverRun(h, w, order[0]) + RecoverSteps(h, Last(w, RecoverRun(h, w, order[0])), order[1..])
  }

  // ----------------------------------------------------------------- histories

  /** Killed after that many commits, or an exception after that many publication steps (the handler may die too). */
  datatype Stop = Crash(commits: nat) | Raise(after: nat, handled: bool)

  datatype Pipeline = Pipeline(order: seq<RunId>, run: RunId, content: nat, stop: Stop)

  function After(w: World, steps: seq<World>, commits: nat): World {
    if commits == 0 then w
    else if commits < |steps| then steps[commits - 1]
    else Last(w, steps)
  }

  /** One locked pipeline: recovery, then publication; a reused run id raises before the `try`. */
  function RunPipeline(h: Digest, w: World, p: Pipeline): World {
    if !ListsRecoverable(w, p.order) then w
    else
      var recovery := RecoverSteps(h, w, p.order);
      var w1 := Last(w, recovery);
      match p.stop
      case Crash(n) =>
        if n <= |recovery| then After(w, recovery, n) else After(w1, PublishSteps(h, w1, p.run, p.content), n - |recovery|)
      case Raise(k, handled) =>
        if p.run in w1.rows then w1
        else
          var raised := After(w1, PublishSteps(h, w1, p.run, p.content), k + 1);
          if handled then Handle(h, raised, p.run) else raised
  }

  function History(h: Digest, ps: seq<Pipeline>): World {
    if ps == [] then EmptyWorld else RunPipeline(h, History(h, ps[..|ps| - 1]), ps[|ps| - 1])
  }

  /** Nothing raises once `complete_published_run` has committed: the `except` clause never sees the sixth step. */
  predicate RaisesInTime(p: Pipeline) {
    p.stop.Raise? && p.stop.handled ==> p.stop.after < 5
  }

  // ----------------------------------------------------------------- invariant

  ghost predicate RowOk(h: Digest, w: World, r: RunId)
    requires r in w.rows
  {
    var row := w.rows[r];
    && (row.state.Started? <==> row.sha.None?)
    && (row.sha.Some? <==> row.path.Some?)
    && (row.sha.Some? ==> row.path == Some(r) && r in w.files && row.sha == Some(h(w.files[r])))
    && (row.status.Completed? <==> row.state.Finalized?)
    && (row.state.Published? ==> row.status.Running? && r in w.files && w.pointer == Some(w.files[r]))
    && (row.status.Failed? ==> w.pointer.None? || w.pointer.value.run != r)
  }

  /**
   The latest manifest is absent or equals the immutable manifest of a run at least
   artifacts_ready; a published, uncompleted run is the one it names; a failed
   run is neither published nor named.
   */
  ghost predicate Inv(h: Digest, w: World) {
    && (forall r :: r in w.files ==> r in w.rows && w.files[r].run == r && w.files[r].path == r)
    && (forall r :: r in w.rows ==> RowOk(h, w, r))
    && (w.pointer.Some? ==>
          var r := w.pointer.value.run;
          r in w.files && w.pointer.value == w.files[r] && !w.rows[r].state.Started?)
  }

  ghost predicate AllInv(h: Digest, steps: seq<World>) {
    forall i :: 0 <= i < |steps| ==> Inv(h, steps[i])
  }

  lemma EmptyInv(h: Digest)
    ensures Inv(h, EmptyWorld)
  {
  }

  lemma StartKeeps(h: Digest, w: World, run: RunId)
    requires Inv(h, w) && run !in w.rows
    ensures StartRun(w, run).Some? && Inv(h, StartRun(w, run).value)
  {
    var t := StartRun(w, run).value;
    assert w.pointer.Some? ==> w.pointer.value.run in w.rows;
    forall r | r in t.rows
      ensures RowOk(h, t, r)
    {
      assert r != run ==> RowOk(h, w, r);
    }
  }

  lemma SaveKeeps(h: Digest, w: World, m: Manifest)
    requires Inv(h, w) && m.path == m.run && m.run in w.rows && w.rows[m.run].state.Started? && m.run !in w.files
    ensures SaveImmutable(w, m).Some? && Inv(h, SaveImmutable(w, m).value)
  {
    var t := SaveImmutable(w, m).value;
    forall r | r in t.rows
      ensures RowOk(h, t, r)
    {
      assert RowOk(h, w, r);
    }
  }

  lemma ReadyKeeps(h: Digest, w: World, run: RunId)
    requires Inv(h, w) && run in w.rows && run in w.files && w.rows[run].status.Running? && w.rows[run].state.Started?
    ensures MarkArtifactsReady(w, run, run, h(w.files[run])).Some? && Inv(h, MarkArtifactsReady(w, run, run, h(w.files[run])).value)
  {
    var t := MarkArtifactsReady(w, run, run, h(w.files[run])).value;
    forall r | r in t.rows
      ensures RowOk(h, t, r)
    {
      assert RowOk(h, w, r);
    }
  }

  /** The latest manifest may move only while no other run is published and uncompleted. */
  lemma PointerKeeps(h: Digest, w: World, run: RunId)
    requires Inv(h, w) && run in w.rows && run in w.files && w.rows[run].status.Running?
    requires w.rows[run].state.ArtifactsReady?
    requires forall r :: r in w.rows ==> !w.rows[r].state.Published?
    ensures Inv(h, ReplacePointer(w, w.files[run])) && RunMatches(h, ReplacePointer(w, w.files[run]), run)
  {
    var t := ReplacePointer(w, w.files[run]);
    assert RowOk(h, w, run);
    forall r | r in t.rows
      ensures RowOk(h, t, r)
    {
      assert RowOk(h, w, r);
    }
  }

  /** What a row that matches the pointer is. */
  lemma MatchingRow(h: Digest, w: World, run: RunId)
    requires Inv(h, w) && RunMatches(h, w, run)
    ensures w.rows[run].status.Running? && run in w.files && w.pointer == Some(w.files[run])
  {
    assert RowOk(h, w, run);
  }

  lemma MarkKeeps(h: Digest, w: World, run: RunId)
    requires Inv(h, w) && RunMatches(h, w, run) && w.rows[run].state.ArtifactsReady?
    ensures MarkPublished(w, run).Some? && RecoverArtifactsReady(w, run) == MarkPublished(w, run)
    ensures Inv(h, MarkPublished(w, run).value) && RunMatches(h, MarkPublished(w, run).value, run)
  {
    MatchingRow(h, w, run);
    var t := MarkPublished(w, run).value;
    forall r | r in t.rows
      ensures RowOk(h, t, r)
    {
      assert RowOk(h, w, r);
    }
  }

  lemma CompleteKeeps(h: Digest, w: World, run: RunId)
    requires Inv(h, w) && RunMatches(h, w, run) && w.rows[run].state.Published?
    ensures CompletePublished(w, run).Some? && Inv(h, CompletePublished(w, run).value)
  {
    MatchingRow(h, w, run);
    var t := CompletePublished(w, run).value;
    forall r | r in t.rows
      ensures RowOk(h, t, r)
    {
      assert RowOk(h, w, r);
    }
  }

  /** Failing a run is safe exactly because the handler and the recovery check the pointer first. */
  lemma FailKeeps(h: Digest, w: World, run: RunId)
    requires Inv(h, w) && run in w.rows && !w.rows[run].status.Completed? && !RunMatches(h, w, run)
    ensures Inv(h, FinishRun(w, run, Failed)) && !w.rows[run].state.Published?
  {
    var t := FinishRun(w, run, Failed);
    assert RowOk(h, w, run);
    forall r | r in t.rows
      ensures RowOk(h, t, r)
    {
      assert RowOk(h, w, r);
    }
  }

  /** The guards of one publication never raise, and each step keeps the invariant. */
  lemma PublishUnrolls(h: Digest, w: World, run: RunId, content: nat)
    returns (s1: World, s2: World, s3: World, s4: World, s5: World, s6: World)
    requires Inv(h, w) && run !in w.rows
    requires forall r :: r in w.rows ==> !w.rows[r].state.Published?
    ensures PublishSteps(h, w, run, content) == [s1, s2, s3, s4, s5, s6]
    ensures AllInv(h, [s1, s2, s3, s4, s5, s6])
    ensures StartRun(w, run) == Some(s1) && SaveImmutable(s1, ManifestOf(run, content)) == Some(s2)
    ensures MarkArtifactsReady(s2, run, run, h(ManifestOf(run, content))) == Some(s3)
    ensures s4 == ReplacePointer(s3, ManifestOf(run, content))
    ensures MarkPublished(s4, run) == Some(s5) && CompletePublished(s5, run) == Some(s6)
  {
    var m := ManifestOf(run, content);
    assert run !in w.files;
    StartKeeps(h, w, run);
    s1 := StartRun(w, run).value;
    SaveKeeps(h, s1, m);
    s2 := SaveImmutable(s1, m).value;
    ReadyKeeps(h, s2, run);
    s3 := MarkArtifactsReady(s2, run, run, h(m)).value;
    PointerKeeps(h, s3, run);
    s4 := ReplacePointer(s3, m);
    MarkKeeps(h, s4, run);
    s5 := MarkPublished(s4, run).value;
    CompleteKeeps(h, s5, run);
    s6 := CompletePublished(s5, run).value;
  }

  lemma PublishSound(h: Digest, w: World, run: RunId, content: nat)
    requires Inv(h, w) && run !in w.rows
    requires forall r :: r in w.rows ==> !w.rows[r].state.Published?
    ensures var steps := PublishSteps(h, w, run, content);
            && |steps| == 6 && AllInv(h, steps)
            && forall i :: 0 <= i < 6 ==> Publishing(w, run, content, i + 1, steps[i])
  {
    var s1, s2, s3, s4, s5, s6 := PublishUnrolls(h, w, run, content);
    SixPublishing(h, w, run, content, s1, s2, s3, s4, s5, s6);
    hide *;
  }

  lemma SixPublishing(h: Digest, w: World, run: RunId, content: nat, s1: World, s2: World, s3: World, s4: World,
                      s5: World, s6: World)
    requires run !in w.rows
    requires StartRun(w, run) == Some(s1) && SaveImmutable(s1, ManifestOf(run, content)) == Some(s2)
    requires MarkArtifactsReady(s2, run, run, h(ManifestOf(run, content))) == Some(s3)
    requires s4 == ReplacePointer(s3, ManifestOf(run, content))
    requires MarkPublished(s4, run) == Some(s5) && CompletePublished(s5, run) == Some(s6)
    ensures Publishing(w, run, content, 1, s1) && Publishing(w, run, content, 2, s2) && Publishing(w, run, content, 3, s3)
    ensures Publishing(w, run, content, 4, s4) && Publishing(w, run, content, 5, s5) && Publishing(w, run, content, 6, s6)
  {
  }

  /** After `n` of the six steps: only the new run's row changed, and the pointer from the fourth on. */
  predicate Publishing(w: World, run: RunId, content: nat, n: nat, t: World) {
    && t.rows.Keys == w.rows.Keys + {run}
    && (forall r :: r in w.rows ==> t.rows[r] == w.rows[r])
    && t.pointer == (if n >= 4 then Some(ManifestOf(run, content)) else w.pointer)
    && (if n == 6 then t.rows[run].status.Completed? else t.rows[run].status.Running?)
  }

  // ------------------------------------------------------- recovery is complete

  /** What recovery makes of one row. */
  function RecoveredRow(h: Digest, w: World, r: RunId): Row
    requires r in w.rows
  {
    if !Recoverable(w, r) then w.rows[r]
    else if RunMatches(h, w, r) then w.rows[r].(status := Completed, state := Finalized)
    else w.rows[r].(status := Failed)
  }

  ghost predicate RecoveredIn(h: Digest, w: World, done: seq<RunId>, t: World) {
    && t == w.(rows := t.rows) && t.rows.Keys == w.rows.Keys
    && forall r :: r in w.rows ==> t.rows[r] == if r in done then RecoveredRow(h, w, r) else w.rows[r]
  }

  lemma RecoverRunSound(h: Digest, w: World, run: RunId)
    requires Inv(h, w) && run in w.rows && Recoverable(w, run)
    ensures AllInv(h, RecoverRun(h, w, run)) && RecoverRun(h, w, run) != []
    ensures forall i :: 0 <= i < |RecoverRun(h, w, run)| ==> RecoverRun(h, w, run)[i].pointer == w.pointer
    ensures RecoveredIn(h, w, [run], Last(w, RecoverRun(h, w, run)))
  {
    hide Inv;
    if RunMatches(h, w, run) {
      MatchingRow(h, w, run);
      if w.rows[run].state.ArtifactsReady? {
        MarkKeeps(h, w, run);
        CompleteKeeps(h, MarkPublished(w, run).value, run);
      } else {
        CompleteKeeps(h, w, run);
      }
    } else {
      RecoverableOpen(h, w, run);
      FailKeeps(h, w, run);
    }
  }

  lemma RecoverableOpen(h: Digest, w: World, run: RunId)
    requires run in w.rows && Recoverable(w, run)
    ensures !w.rows[run].status.Completed?
  {
  }

  lemma RecoveredInCompose(h: Digest, w: World, run: RunId, w1: World, done: seq<RunId>, t: World)
    requires run in w.rows && run !in done && RecoveredIn(h, w, [run], w1) && RecoveredIn(h, w1, done, t)
    ensures RecoveredIn(h, w, [run] + done, t)
  {
    assert forall r :: r in w.rows <==> r in w1.rows.Keys;
    forall r | r in w.rows
      ensures r != run ==> RecoveredRow(h, w1, r) == RecoveredRow(h, w, r)
    {
    }
  }

  /** Every commit of a recovery keeps the invariant and the pointer; at its end each listed row is settled. */
  lemma {:induction false} RecoverSound(h: Digest, w: World, order: seq<RunId>)
    requires Inv(h, w) && Distinct(order)
    requires forall i :: 0 <= i < |order| ==> order[i] in w.rows && Recoverable(w, order[i])
    ensures AllInv(h, RecoverSteps(h, w, order))
    ensures forall i :: 0 <= i < |RecoverSteps(h, w, order)| ==> RecoverSteps(h, w, order)[i].pointer == w.pointer
    ensures RecoveredIn(h, w, order, Last(w, RecoverSteps(h, w, order)))
    decreases |order|
  {
    hide Inv, RunMatches, RecoverRun;
    if order != [] {
      var first := RecoverRun(h, w, order[0]);
      RecoverRunSound(h, w, order[0]);
      var w1 := Last(w, first);
      forall i | 0 <= i < |order[1..]|
        ensures order[1..][i] in w1.rows && Recoverable(w1, order[1..][i])
      {
        assert order[1..][i] in w.rows.Keys && order[1..][i] != order[0];
      }
      RecoverSound(h, w1, order[1..]);
      RecoveredInCompose(h, w, order[0], w1, order[1..], Last(w1, RecoverSteps(h, w1, order[1..])));
      assert [order[0]] + order[1..] == order;
    }
  }

  /** A finished recovery, whatever was interrupted. */
  lemma RecoveryCompletes(h: Digest, w: World, order: seq<RunId>)
    requires Inv(h, w) && ListsRecoverable(w, order)
    ensures var t := Last(w, RecoverSteps(h, w, order));
            && Inv(h, t) && t.pointer == w.pointer && t.files == w.files && t.rows.Keys == w.rows.Keys
            && (forall r :: r in t.rows ==> !t.rows[r].status.Running? && !t.rows[r].state.Published?)
            && (t.pointer.Some? ==> t.rows[t.pointer.value.run].status.Completed?)
            && (forall r :: r in w.rows && w.rows[r].state.Published? ==> t.rows[r].status.Completed?)
            && (forall r :: r in w.rows && w.rows[r].status.Completed? ==> t.rows[r] == w.rows[r])
  {
    RecoverSound(h, w, order);
    var t := Last(w, RecoverSteps(h, w, order));
    hide RecoverSteps, Last;
    assert forall r :: r in t.rows <==> r in w.rows.Keys;
    forall r | r in w.rows
      ensures !t.rows[r].status.Running? && !t.rows[r].state.Published?
      ensures w.rows[r].state.Published? ==> t.rows[r].status.Completed?
      ensures w.rows[r].status.Completed? ==> t.rows[r] == w.rows[r]
    {
      assert RowOk(h, w, r);
    }
    if t.pointer.Some? {
      assert RowOk(h, w, t.pointer.value.run);
    }
  }

  /** A second recovery changes nothing. */
  lemma RecoveryIdempotent(h: Digest, w: World, order: seq<RunId>, again: seq<RunId>)
    requires Inv(h, w) && ListsRecoverable(w, order)
    requires ListsRecoverable(Last(w, RecoverSteps(h, w, order)), again)
    ensures var t := Last(w, RecoverSteps(h, w, order));
            Last(t, RecoverSteps(h, t, again)) == t
  {
    RecoveryCompletes(h, w, order);
    var t := Last(w, RecoverSteps(h, w, order));
    RecoverSound(h, t, again);
    var u := Last(t, RecoverSteps(h, t, again));
    hide RecoverSteps, Last;
    forall r | r in t.rows
      ensures u.rows[r] == t.rows[r]
    {
      assert RowOk(h, t, r);
    }
    assert u.rows == t.rows;
  }

  // ----------------------------------------------- whatever the files hold

  /**
   The latest manifest is this run's, the immutable copy is in place, and both are
   the one whose digest the row recorded when its artifacts were ready.
   */
  predicate Vouched(h: Digest, w: World, run: RunId) {
    && run in w.rows && w.rows[run].state in {ArtifactsReady, Published}
    && w.pointer.Some? && w.pointer.value.run == run && w.rows[run].path == Some(w.pointer.value.path)
    && w.pointer.value.path in w.files && w.files[w.pointer.value.path] == w.pointer.value
    && w.rows[run].sha == Some(h(w.pointer.value))
  }

  lemma MatchesExactly(h: Digest, w: World, run: RunId)
    ensures RunMatches(h, w, run) <==> Vouched(h, w, run)
  {
  }

  /** Each of the written-out checks is needed on its own: the pointer check over any files and any pointer. */
  lemma PointerMatchesExactly(h: Digest, w: World, run: RunId, path: RunId, sha: nat)
    ensures PointerMatches(h, w, run, path, sha)
       <==> exists m :: w.pointer == Some(m) && path in w.files && w.files[path] == m && h(m) == sha && m.run == run && m.path == path
  {
    if PointerMatches(h, w, run, path, sha) {
      assert w.pointer == Some(w.pointer.value);
    }
  }

  /**
   What recovery makes of one interrupted row, in any world at all, tampered with
   or not: it completes the run that pointer, manifest and recorded digest agree
   on, fails any other, and touches nothing else.
   */
  lemma RecoveryTrustsExactly(h: Digest, w: World, run: RunId)
    requires run in w.rows && w.rows[run].status != Completed
    ensures Last(w, RecoverRun(h, w, run))
         == w.(rows := w.rows[run := if Vouched(h, w, run) then w.rows[run].(status := Completed, state := Finalized)
                                     else w.rows[run].(status := Failed)])
  {
    MatchesExactly(h, w, run);
    hide PointerMatches;
    var row := w.rows[run];
    assert w.rows[run := row.(state := Published)][run := row.(status := Completed, state := Finalized)]
        == w.rows[run := row.(status := Completed, state := Finalized)];
  }

  /** The rows recovery goes through: those still running, and those failed after their artifacts were ready. */
  lemma ListedExactly(w: World, order: seq<RunId>)
    ensures ListsRecoverable(w, order)
       <==> && Distinct(order)
            && forall r :: r in order <==>
                 r in w.rows && (w.rows[r].status == Running
                                 || (w.rows[r].status == Failed && w.rows[r].state in {ArtifactsReady, Published}))
  {
    if ListsRecoverable(w, order) {
      forall r | r in order
        ensures r in w.rows && Recoverable(w, r)
      {
        var i :| 0 <= i < |order| && order[i] == r;
      }
    }
  }

  /** The exception handler leaves a run that was published and fails any other. */
  lemma HandledExactly(h: Digest, w: World, run: RunId)
    requires run in w.rows
    ensures Handle(h, w, run) == if Vouched(h, w, run) then w else w.(rows := w.rows[run := w.rows[run].(status := Failed)])
  {
    MatchesExactly(h, w, run);
  }

  /** Where a crash leaves a pipeline: within its recovery, or after it within its publication. */
  lemma CrashesExactly(h: Digest, w: World, p: Pipeline, commits: nat)
    requires ListsRecoverable(w, p.order) && p.stop == Crash(commits)
    ensures var recovery := RecoverSteps(h, w, p.order);
            var steps := PublishSteps(h, Last(w, recovery), p.run, p.content);
            && (commits == 0 ==> RunPipeline(h, w, p) == w)
            && (0 < commits <= |recovery| ==> RunPipeline(h, w, p) == recovery[commits - 1])
            && (|recovery| < commits <= |recovery| + |steps| ==> RunPipeline(h, w, p) == steps[commits - |recovery| - 1])
            && (|recovery| + |steps| <= commits ==> RunPipeline(h, w, p) == Last(Last(w, recovery), steps))
  {
    hide RecoverSteps, PublishSteps, ListsRecoverable;
  }

  // ------------------------------------------------------------ every history

  lemma AfterInv(h: Digest, w: World, steps: seq<World>, n: nat)
    requires Inv(h, w) && AllInv(h, steps)
    ensures Inv(h, After(w, steps, n))
  {
    hide Inv;
  }

  lemma HandleKeeps(h: Digest, w: World, run: RunId)
    requires Inv(h, w) && run in w.rows && !w.rows[run].status.Completed?
    ensures Inv(h, Handle(h, w, run))
  {
    if !RunMatches(h, w, run) {
      FailKeeps(h, w, run);
    }
  }

  lemma PipelineKeeps(h: Digest, w: World, p: Pipeline)
    requires Inv(h, w) && RaisesInTime(p)
    ensures Inv(h, RunPipeline(h, w, p))
  {
    hide Inv, RecoverSteps, PublishSteps, ListsRecoverable, RunMatches, RaisesInTime, Handle, AllInv;
    if ListsRecoverable(w, p.order) {
      var recovery := RecoverSteps(h, w, p.order);
      var w1 := Last(w, recovery);
      RecoveryKeeps(h, w, p.order);
      match p.stop
      case Crash(n) =>
        AfterInv(h, w, recovery, n);
        if n > |recovery| {
          PublishingKeeps(h, w1, p.run, p.content, n - |recovery|);
        }
      case Raise(k, handled) =>
        if p.run !in w1.rows {
          PublishingKeeps(h, w1, p.run, p.content, k + 1);
          if handled {
            RaisedKeeps(h, w1, p);
          }
        }
    }
  }

  lemma RecoveryKeeps(h: Digest, w: World, order: seq<RunId>)
    requires Inv(h, w) && ListsRecoverable(w, order)
    ensures AllInv(h, RecoverSteps(h, w, order)) && Inv(h, Last(w, RecoverSteps(h, w, order)))
    ensures NonePublished(Last(w, RecoverSteps(h, w, order)))
  {
    hide Inv, RecoverSteps;
    ListedDistinct(w, order);
    RecoverSound(h, w, order);
    RecoveryCompletes(h, w, order);
  }

  /** No run waits for its last commit. */
  predicate NonePublished(w: World) {
    forall r :: r in w.rows ==> !w.rows[r].state.Published?
  }

  lemma PublishingKeeps(h: Digest, w: World, run: RunId, content: nat, n: nat)
    requires Inv(h, w) && NonePublished(w)
    ensures Inv(h, After(w, PublishSteps(h, w, run, content), n))
  {
    hide Inv, PublishSteps, After;
    if run in w.rows {
      ReusedRun(h, w, run, content);
      AfterNothing(w, n);
    } else {
      PublishSound(h, w, run, content);
      AfterInv(h, w, PublishSteps(h, w, run, content), n);
    }
  }

  lemma AfterNothing(w: World, n: nat)
    ensures After(w, [], n) == w
  {
  }

  lemma RaisedKeeps(h: Digest, w: World, p: Pipeline)
    requires Inv(h, w) && NonePublished(w) && RaisesInTime(p) && p.stop.Raise? && p.stop.handled && p.run !in w.rows
    ensures Inv(h, Handle(h, After(w, PublishSteps(h, w, p.run, p.content), p.stop.after + 1), p.run))
  {
    hide Inv, PublishSteps, Handle;
    PublishSound(h, w, p.run, p.content);
    var steps := PublishSteps(h, w, p.run, p.content);
    assert After(w, steps, p.stop.after + 1) == steps[p.stop.after];
    HandleKeeps(h, steps[p.stop.after], p.run);
  }

  lemma ListedDistinct(w: World, order: seq<RunId>)
    requires ListsRecoverable(w, order)
    ensures Distinct(order)
    ensures forall i :: 0 <= i < |order| ==> order[i] in w.rows && Recoverable(w, order[i])
  {
  }

  lemma ReusedRun(h: Digest, w: World, run: RunId, content: nat)
    requires run in w.rows
    ensures PublishSteps(h, w, run, content) == []
  {
  }

  /** Over all pipelines, crash points and exceptions, the pointer is safe. */
  lemma {:induction false} PointerAlwaysSafe(h: Digest, ps: seq<Pipeline>)
    requires forall i :: 0 <= i < |ps| ==> RaisesInTime(ps[i])
    ensures Inv(h, History(h, ps))
  {
    if ps == [] {
      EmptyInv(h);
    } else {
      hide Inv, RunPipeline;
      PointerAlwaysSafe(h, ps[..|ps| - 1]);
      PipelineKeeps(h, History(h, ps[..|ps| - 1]), ps[|ps| - 1]);
    }
  }

  /** An undisturbed pipeline publishes its own manifest and completes. */
  lemma UndisturbedPublishes(h: Digest, w: World, p: Pipeline)
    requires Inv(h, w) && ListsRecoverable(w, p.order) && p.run !in w.rows
    requires p.stop.Crash? && p.stop.commits >= |RecoverSteps(h, w, p.order)| + 6
    ensures var t := RunPipeline(h, w, p);
            && t.pointer == Some(ManifestOf(p.run, p.content)) && p.run in t.rows && t.rows[p.run].status.Completed?
  {
    hide Inv, RecoverSteps, PublishSteps, ListsRecoverable, RunMatches;
    RecoveryCompletes(h, w, p.order);
    PublishSound(h, Last(w, RecoverSteps(h, w, p.order)), p.run, p.content);
  }

  /**
   The assumption is exactly what is needed: with an exception right after
   `complete_published_run` commits, the handler fails the published run.
   */
  lemma SafeExactlyWhenRaisedInTime(h: Digest, w: World, p: Pipeline)
    requires Inv(h, w) && ListsRecoverable(w, p.order) && p.run !in w.rows
    ensures Inv(h, RunPipeline(h, w, p)) <==> RaisesInTime(p)
    ensures !RaisesInTime(p) ==>
              var t := RunPipeline(h, w, p);
              t.pointer == Some(ManifestOf(p.run, p.content)) && p.run in t.rows && t.rows[p.run].status.Failed?
  {
    if RaisesInTime(p) {
      PipelineKeeps(h, w, p);
    } else {
      RecoveryCompletes(h, w, p.order);
      var w1 := Last(w, RecoverSteps(h, w, p.order));
      PublishSound(h, w1, p.run, p.content);
      var t := PublishSteps(h, w1, p.run, p.content)[5];
      hide RecoverSteps, PublishSteps, ListsRecoverable;
      assert RowOk(h, t, p.run);
      var u := Handle(h, t, p.run);
      assert RunPipeline(h, w, p) == u;
      assert !RowOk(h, u, p.run);
    }
  }
}
