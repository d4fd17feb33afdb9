/**
 The notification outbox of src/paper_notifications.py as interleaved steps of
 any number of senders and operators: claim, external send, mark, process death,
 and manual recovery.  Each database transaction is one atomic step.
 */
module Notifications {
  import opened Common

  type NoteId = nat
  type AttemptId = nat

  datatype Kind = PaperNote | MonthlyNote
  datatype Status = Pending | Sending | Delivered | Failed | DeliveryUnknown

  datatype Note = Note(status: Status, attemptCount: nat, reportHash: Option<nat>, kind: Kind)
  datatype Attempt = Attempt(note: NoteId, status: Status)

  datatype Resolution = Unknown | WasDelivered | NotDelivered
  datatype AuditEvent = AuditEvent(note: NoteId, attempt: Option<AttemptId>, resolution: Resolution, before: Status, after: Status)

  /** How the sender call ended: returned, raised a definite failure, or raised anything ambiguous. */
  datatype Reply = Sent | DefiniteFailure | Ambiguous

  /** Where a live sender process is: past its claim, or past the external call. */
  datatype Phase = Claimed | Replied(reply: Reply)

  /** The three tables (attempt ids are positions), the live senders, and the attempts that really reached the target. */
  datatype Outbox = Outbox(
    notes: map<NoteId, Note>, attempts: seq<Attempt>, audit: seq<AuditEvent>,
    live: map<AttemptId, Phase>, reached: set<AttemptId>)

  const EmptyOutbox := Outbox(map[], [], [], map[], {})

  /** What a delivery request finds: a finalized run where one is required, and the report's current hash. */
  datatype Request = Request(requireCommitted: bool, committed: bool, reportHash: Option<nat>, monthlyOnly: bool)

  datatype Step =
    | Register(note: NoteId, kind: Kind, committed: bool, target: bool, reportHash: Option<nat>)
    | Claim(note: NoteId, request: Request)
    | Send(attempt: AttemptId, reply: Reply, arrives: bool)
    | Mark(attempt: AttemptId)
    | Die(attempt: AttemptId)
    | Recover(note: NoteId, resolution: Resolution, signed: bool)

  datatype Refusal = NotCommitted | MissingReport | MissingTarget | UnknownNote | WrongKind | NoHistoricalHash | HashMismatch | NeedsRecovery
                   | NotAmbiguous | Unsigned

  predicate AmbiguousStatus(s: Status) {
    s.Sending? || s.DeliveryUnknown?
  }

  // -------------------------------------------------------------- transactions

  /** `register_pending`, and the insert of `send_committed_monthly`: an existing row is left alone. */
  function RegisterNote(o: Outbox, n: NoteId, kind: Kind, committed: bool, target: bool, reportHash: Option<nat>): Result<Outbox, Refusal> {
    if kind.PaperNote? && !committed then Err(NotCommitted)
    else if kind.MonthlyNote? && n in o.notes then Ok(o)
    else if kind.MonthlyNote? && !target then Err(MissingTarget)
    else if reportHash.None? then Err(MissingReport)
    else if !target then Err(MissingTarget)
    else if n in o.notes then Ok(o)
    else Ok(o.(notes := o.notes[n := Note(Pending, 0, reportHash, kind)]))
  }

  /** The checks of `_attempt` and its callers, then `_claim_attempt`; the new attempt is the last one. */
  function ClaimAttempt(o: Outbox, n: NoteId, q: Request): Result<Outbox, Refusal> {
    if n !in o.notes then Err(UnknownNote)
    else if q.monthlyOnly && !o.notes[n].kind.MonthlyNote? then Err(WrongKind)
    else if q.requireCommitted && !q.committed then Err(NotCommitted)
    else if q.reportHash.None? then Err(MissingReport)
    else if o.notes[n].reportHash.None? then Err(NoHistoricalHash)
    else if q.reportHash != o.notes[n].reportHash then Err(HashMismatch)
    else if !o.notes[n].status.Pending? && !o.notes[n].status.Failed? then Err(NeedsRecovery)
    else
      var note := o.notes[n];
      Ok(o.(notes := o.notes[n := note.(status := Sending, attemptCount := note.attemptCount + 1)],
            attempts := o.attempts + [Attempt(n, Sending)],
            live := o.live[|o.attempts| := Claimed]))
  }

  /** The external call of a live sender: it may or may not arrive, whatever the reply. */
  function SendExternally(o: Outbox, a: AttemptId, reply: Reply, arrives: bool): Outbox {
    if a in o.live && o.live[a].Claimed? then
      o.(live := o.live[a := Replied(reply)], reached := if arrives then o.reached + {a} else o.reached)
    else o
  }

  function StatusFor(reply: Reply): Status {
    match reply
    case Sent => Delivered
    case DefiniteFailure => Failed
    case Ambiguous => DeliveryUnknown
  }

  function SetNote(o: Outbox, n: NoteId, s: Status): Outbox {
    if n in o.notes then o.(notes := o.notes[n := o.notes[n].(status := s)]) else o
  }

  function SetAttempt(o: Outbox, a: AttemptId, s: Status): Outbox {
    if a < |o.attempts| then o.(attempts := o.attempts[a := o.attempts[a].(status := s)]) else o
  }

  /** `_mark_delivered` and `_mark_unsuccessful`: two guarded updates, each only where the row is still SENDING. */
  function MarkAttempt(o: Outbox, a: AttemptId): Outbox {
    if a in o.live && o.live[a].Replied? && a < |o.attempts| then
      var s := StatusFor(o.live[a].reply);
      var n := o.attempts[a].note;
      var o1 := if n in o.notes && o.notes[n].status.Sending? then SetNote(o, n, s) else o;
      var o2 := if o.attempts[a].status.Sending? then SetAttempt(o1, a, s) else o1;
      o2.(live := o.live - {a})
    else o
  }

  /** The process dies before its mark. */
  function DieAttempt(o: Outbox, a: AttemptId): Outbox {
    o.(live := o.live - {a})
  }

  /** The most recent attempt of the note that is SENDING or DELIVERY_UNKNOWN. */
  function LatestAmbiguous(attempts: seq<Attempt>, n: NoteId): Option<AttemptId> {
    if attempts == [] then None
    else
      var last := |attempts| - 1;
      if attempts[last].note == n && AmbiguousStatus(attempts[last].status) then Some(last)
      else LatestAmbiguous(attempts[..last], n)
  }

  function Ruling(r: Resolution): Status {
    match r
    case Unknown => DeliveryUnknown
    case WasDelivered => Delivered
    case NotDelivered => Failed
  }

  /** `recover`. */
  function RecoverNote(o: Outbox, n: NoteId, r: Resolution, signed: bool): Result<Outbox, Refusal> {
    if !signed then Err(Unsigned)
    else if n !in o.notes then Err(UnknownNote)
    else if !AmbiguousStatus(o.notes[n].status) then Err(NotAmbiguous)
    else
      var attempt := LatestAmbiguous(o.attempts, n);
      var o1 := SetNote(o, n, Ruling(r));
      var o2 := if attempt.Some? then SetAttempt(o1, attempt.value, Ruling(r)) else o1;
      Ok(o2.(audit := o.audit + [AuditEvent(n, attempt, r, o.notes[n].status, Ruling(r))]))
  }

  function Kept(o: Outbox, r: Result<Outbox, Refusal>): Outbox {
    match r
    case Ok(after) => after
    case Err(_) => o
  }

  function Apply(o: Outbox, step: Step): Outbox {
    match step
    case Register(n, kind, committed, target, hash) => Kept(o, RegisterNote(o, n, kind, committed, target, hash))
    case Claim(n, q) => Kept(o, ClaimAttempt(o, n, q))
    case Send(a, reply, arrives) => SendExternally(o, a, reply, arrives)
    case Mark(a) => MarkAttempt(o, a)
    case Die(a) => DieAttempt(o, a)
    case Recover(n, r, signed) => Kept(o, RecoverNote(o, n, r, signed))
  }

  function After(o: Outbox, steps: seq<Step>): Outbox {
    if steps == [] then o else Apply(After(o, steps[..|steps| - 1]), steps[|steps| - 1])
  }

  function History(steps: seq<Step>): Outbox {
    After(EmptyOutbox, steps)
  }

  // ---------------------------------------------------- what is let through

  /**
   Registration, exactly: a paper notification needs its run finalized, and any
   new notification a target and a readable report; a row already there is never
   changed, and a monthly one is not even checked again.
   */
  lemma RegisteredExactly(o: Outbox, n: NoteId, kind: Kind, committed: bool, target: bool, hash: Option<nat>)
    ensures var r := RegisterNote(o, n, kind, committed, target, hash);
            var known := n in o.notes;
            && (r.Ok? <==> if kind == PaperNote then committed && target && hash != None else known || (target && hash != None))
            && (r.Ok? ==> r.value == if known then o else o.(notes := o.notes[n := Note(Pending, 0, hash, kind)]))
            && (r == Err(NotCommitted) <==> kind == PaperNote && !committed)
            && (r == Err(MissingReport) <==>
                  hash == None && (if kind == PaperNote then committed else !known && target))
            && (r == Err(MissingTarget) <==>
                  !target && (if kind == PaperNote then committed && hash != None else !known))
  {
  }

  /**
   An attempt starts, exactly, when the notification is pending or failed, its run
   is finalized where that is asked for, it is of the kind asked for, and the report
   still has the digest it was registered with.
   */
  lemma ClaimedExactly(o: Outbox, n: NoteId, q: Request)
    ensures var r := ClaimAttempt(o, n, q);
            && (r.Ok? <==>
                  && n in o.notes && o.notes[n].status in {Pending, Failed}
                  && (q.monthlyOnly ==> o.notes[n].kind == MonthlyNote) && (q.requireCommitted ==> q.committed)
                  && q.reportHash != None && q.reportHash == o.notes[n].reportHash)
            && (r.Ok? ==>
                  r.value == o.(notes := o.notes[n := o.notes[n].(status := Sending, attemptCount := o.notes[n].attemptCount + 1)],
                                attempts := o.attempts + [Attempt(n, Sending)], live := o.live[|o.attempts| := Claimed]))
            && (r == Err(HashMismatch) <==>
                  && n in o.notes && (q.monthlyOnly ==> o.notes[n].kind == MonthlyNote) && (q.requireCommitted ==> q.committed)
                  && q.reportHash != None && o.notes[n].reportHash != None && q.reportHash != o.notes[n].reportHash)
            && (r == Err(NotCommitted) <==>
                  && n in o.notes && (q.monthlyOnly ==> o.notes[n].kind == MonthlyNote) && q.requireCommitted && !q.committed)
            && (r == Err(NoHistoricalHash) <==>
                  && n in o.notes && (q.monthlyOnly ==> o.notes[n].kind == MonthlyNote) && (q.requireCommitted ==> q.committed)
                  && q.reportHash != None && o.notes[n].reportHash == None)
  {
  }

  /** The digest and kind a notification was registered with never change. */
  lemma {:induction false} RegistrationStays(o: Outbox, steps: seq<Step>, n: NoteId)
    requires n in o.notes
    ensures var t := After(o, steps);
            n in t.notes && t.notes[n].reportHash == o.notes[n].reportHash && t.notes[n].kind == o.notes[n].kind
  {
    if steps != [] {
      RegistrationStays(o, steps[..|steps| - 1], n);
    }
  }

  // ------------------------------------------------------------- the assumptions

  predicate OfNote(o: Outbox, a: AttemptId, n: NoteId) {
    a < |o.attempts| && o.attempts[a].note == n
  }

  /** A live sender that may still deliver, or that holds a definite failure it has not recorded. */
  predicate Potent(o: Outbox, a: AttemptId) {
    a in o.live && (o.live[a].Claimed? || o.live[a] == Replied(DefiniteFailure))
  }

  /** Nothing of the note has arrived. */
  predicate Undelivered(o: Outbox, n: NoteId) {
    forall a :: 0 <= a < |o.attempts| && o.attempts[a].note == n ==> a !in o.reached
  }

  /** Nothing of the note has arrived, and no sender of it can still deliver it or record a failure. */
  predicate Quiet(o: Outbox, n: NoteId) {
    Undelivered(o, n) && forall a :: 0 <= a < |o.attempts| && o.attempts[a].note == n ==> !Potent(o, a)
  }

  predicate RulesNotDelivered(o: Outbox, step: Step) {
    step.Recover? && step.resolution.NotDelivered? && RecoverNote(o, step.note, step.resolution, step.signed).Ok?
  }

  predicate DefiniteIsTrue(step: Step) {
    step.Send? && step.reply.DefiniteFailure? ==> !step.arrives
  }

  /** A definite failure never arrives, and a ruling "not delivered" is true when it is made. */
  predicate PlainlyTruthful(o: Outbox, step: Step) {
    DefiniteIsTrue(step) && (RulesNotDelivered(o, step) ==> Undelivered(o, step.note))
  }

  /** A definite failure never arrives, and "not delivered" is ruled only of a quiet notification. */
  predicate Truthful(o: Outbox, step: Step) {
    DefiniteIsTrue(step) && (RulesNotDelivered(o, step) ==> Quiet(o, step.note))
  }

  /** "Not delivered" is ruled only when no sender of an ambiguous attempt is alive. */
  predicate Patient(o: Outbox, step: Step) {
    RulesNotDelivered(o, step) ==>
      forall a :: 0 <= a < |o.attempts| && o.attempts[a].note == step.note && AmbiguousStatus(o.attempts[a].status) ==> a !in o.live
  }

  ghost predicate TruthfulFrom(o: Outbox, steps: seq<Step>) {
    forall i :: 0 <= i < |steps| ==> Truthful(After(o, steps[..i]), steps[i])
  }

  ghost predicate PatientFrom(o: Outbox, steps: seq<Step>) {
    forall i :: 0 <= i < |steps| ==> Patient(After(o, steps[..i]), steps[i])
  }

  ghost predicate TruthfulHistory(steps: seq<Step>) {
    TruthfulFrom(EmptyOutbox, steps)
  }

  ghost predicate PatientHistory(steps: seq<Step>) {
    PatientFrom(EmptyOutbox, steps)
  }

  // ----------------------------------------------------------------- invariants

  function CountOf(attempts: seq<Attempt>, n: NoteId): nat {
    if attempts == [] then 0
    else CountOf(attempts[..|attempts| - 1], n) + (if attempts[|attempts| - 1].note == n then 1 else 0)
  }

  /** `attempt_count` is the number of attempt rows, no attempt is without its notification, and what was sent has a hash. */
  ghost predicate Counted(o: Outbox) {
    && (forall n :: n in o.notes ==> o.notes[n].attemptCount == CountOf(o.attempts, n))
    && (forall a :: 0 <= a < |o.attempts| ==> o.attempts[a].note in o.notes && !o.attempts[a].status.Pending?)
    && (forall n :: n in o.notes && !o.notes[n].status.Pending? ==> o.notes[n].reportHash.Some?)
    && (forall a :: a in o.live ==> a < |o.attempts|)
    && forall a :: a in o.reached ==> a < |o.attempts|
  }

  /** At most one attempt of each note has not failed; it carries the note's status. */
  ghost predicate Settled(o: Outbox) {
    && (forall a, b :: 0 <= a < b < |o.attempts| && o.attempts[a].note == o.attempts[b].note ==> o.attempts[a].status.Failed?)
    && (forall a :: 0 <= a < |o.attempts| && o.attempts[a].note in o.notes && !o.attempts[a].status.Failed? ==>
          o.notes[o.attempts[a].note].status == o.attempts[a].status)
    && forall n :: n in o.notes && !o.notes[n].status.Pending? && !o.notes[n].status.Failed? ==>
         exists a :: 0 <= a < |o.attempts| && o.attempts[a].note == n && !o.attempts[a].status.Failed?
  }

  ghost predicate FailedAreDead(o: Outbox) {
    forall a :: 0 <= a < |o.attempts| && o.attempts[a].status.Failed? ==> a !in o.live
  }

  ghost predicate Inv(o: Outbox) {
    Counted(o) && Settled(o) && FailedAreDead(o)
  }

  lemma {:induction false} CountUpdate(attempts: seq<Attempt>, a: nat, s: Status, n: NoteId)
    requires a < |attempts|
    ensures CountOf(attempts[a := attempts[a].(status := s)], n) == CountOf(attempts, n)
  {
    var last := |attempts| - 1;
    var updated := attempts[a := attempts[a].(status := s)];
    if a < last {
      CountUpdate(attempts[..last], a, s, n);
      assert updated[..last] == attempts[..last][a := attempts[..last][a].(status := s)];
    } else {
      assert updated[..last] == attempts[..last];
    }
  }

  lemma SetNoteCounted(o: Outbox, n: NoteId, s: Status)
    requires Counted(o) && (n in o.notes ==> !o.notes[n].status.Pending?)
    ensures Counted(SetNote(o, n, s))
  {
  }

  lemma SetAttemptCounted(o: Outbox, a: AttemptId, s: Status)
    requires Counted(o) && !s.Pending?
    ensures Counted(SetAttempt(o, a, s))
  {
    if a < |o.attempts| {
      forall n
        ensures CountOf(o.attempts[a := o.attempts[a].(status := s)], n) == CountOf(o.attempts, n)
      {
        CountUpdate(o.attempts, a, s, n);
      }
    }
  }

  lemma {:induction false} NoAttempts(attempts: seq<Attempt>, n: NoteId)
    requires forall a :: 0 <= a < |attempts| ==> attempts[a].note != n
    ensures CountOf(attempts, n) == 0
  {
    if attempts != [] {
      NoAttempts(attempts[..|attempts| - 1], n);
    }
  }

  lemma ClaimCounted(o: Outbox, n: NoteId, q: Request)
    requires Counted(o) && ClaimAttempt(o, n, q).Ok?
    ensures Counted(ClaimAttempt(o, n, q).value)
  {
    assert ClaimAttempt(o, n, q).value.attempts[..|o.attempts|] == o.attempts;
  }

  /** Every step, truthful or not, keeps the counts. */
  lemma CountedKept(o: Outbox, step: Step)
    requires Counted(o)
    ensures Counted(Apply(o, step))
  {
    hide CountOf, LatestAmbiguous;
    match step
    case Register(n, _, _, _, _) =>
      if n !in o.notes {
        NoAttempts(o.attempts, n);
      }
    case Claim(n, q) =>
      if ClaimAttempt(o, n, q).Ok? {
        ClaimCounted(o, n, q);
      }
    case Mark(a) =>
      if a in o.live && o.live[a].Replied? && a < |o.attempts| {
        var s, n := StatusFor(o.live[a].reply), o.attempts[a].note;
        if n in o.notes && o.notes[n].status.Sending? {
          SetNoteCounted(o, n, s);
        }
        SetAttemptCounted(o, a, s);
        if n in o.notes && o.notes[n].status.Sending? {
          SetAttemptCounted(SetNote(o, n, s), a, s);
        }
      }
    case Recover(n, r, signed) =>
      if RecoverNote(o, n, r, signed).Ok? {
        var attempt := LatestAmbiguous(o.attempts, n);
        SetNoteCounted(o, n, Ruling(r));
        if attempt.Some? {
          SetAttemptCounted(SetNote(o, n, Ruling(r)), attempt.value, Ruling(r));
        }
      }
    case _ =>
  }

  lemma {:induction false} LatestAmbiguousFinds(attempts: seq<Attempt>, n: NoteId)
    ensures var a := LatestAmbiguous(attempts, n);
            match a
            case Some(i) =>
              && i < |attempts| && attempts[i].note == n && AmbiguousStatus(attempts[i].status)
              && forall k :: i < k < |attempts| && attempts[k].note == n ==> !AmbiguousStatus(attempts[k].status)
            case None => forall k :: 0 <= k < |attempts| && attempts[k].note == n ==> !AmbiguousStatus(attempts[k].status)
  {
    if attempts != [] {
      LatestAmbiguousFinds(attempts[..|attempts| - 1], n);
    }
  }

  // ----------------------------------------------------------- patient steps

  /** Give the note and one attempt of it, the only one not failed so far, the same new status. */
  lemma SettleBoth(o: Outbox, n: NoteId, a: AttemptId, s: Status)
    requires Settled(o) && OfNote(o, a, n) && n in o.notes && !s.Pending? && !o.attempts[a].status.Failed?
    requires forall b :: 0 <= b < |o.attempts| && o.attempts[b].note == n && b != a ==> o.attempts[b].status.Failed?
    ensures Settled(SetAttempt(SetNote(o, n, s), a, s))
  {
    var t := SetAttempt(SetNote(o, n, s), a, s);
    forall m | m in t.notes && !t.notes[m].status.Pending? && !t.notes[m].status.Failed?
      ensures exists b :: 0 <= b < |t.attempts| && t.attempts[b].note == m && !t.attempts[b].status.Failed?
    {
      if m == n {
        assert t.attempts[a].note == m && !t.attempts[a].status.Failed?;
      } else {
        var b :| 0 <= b < |o.attempts| && o.attempts[b].note == m && !o.attempts[b].status.Failed?;
        assert t.attempts[b] == o.attempts[b];
      }
    }
  }

  /** An attempt that has not failed is the only such attempt of its note, and carries its status. */
  lemma OpenAttempt(o: Outbox, a: AttemptId)
    requires Inv(o) && a < |o.attempts| && !o.attempts[a].status.Failed?
    ensures var n := o.attempts[a].note;
            && n in o.notes && o.notes[n].status == o.attempts[a].status && !o.notes[n].status.Pending?
            && forall b :: 0 <= b < |o.attempts| && o.attempts[b].note == n && b != a ==> o.attempts[b].status.Failed?
  {
  }

  lemma ClaimKeeps(o: Outbox, n: NoteId, q: Request)
    requires Inv(o) && ClaimAttempt(o, n, q).Ok?
    ensures Settled(ClaimAttempt(o, n, q).value) && FailedAreDead(ClaimAttempt(o, n, q).value)
  {
    var t := ClaimAttempt(o, n, q).value;
    hide CountOf;
    forall a | 0 <= a < |o.attempts| && o.attempts[a].note == n
      ensures o.attempts[a].status.Failed?
    {
      assert t.attempts[a] == o.attempts[a];
    }
    forall m | m in t.notes && !t.notes[m].status.Pending? && !t.notes[m].status.Failed?
      ensures exists b :: 0 <= b < |t.attempts| && t.attempts[b].note == m && !t.attempts[b].status.Failed?
    {
      if m == n {
        assert t.attempts[|o.attempts|].note == m;
      } else {
        var b :| 0 <= b < |o.attempts| && o.attempts[b].note == m && !o.attempts[b].status.Failed?;
        assert t.attempts[b] == o.attempts[b];
      }
    }
  }

  lemma MarkSettles(o: Outbox, a: AttemptId)
    requires Inv(o) && a in o.live && o.live[a].Replied?
    ensures var s, n := StatusFor(o.live[a].reply), o.attempts[a].note;
            && n in o.notes
            && MarkAttempt(o, a) == (if o.attempts[a].status.Sending? then SetAttempt(SetNote(o, n, s), a, s) else o).(live := o.live - {a})
            && !o.attempts[a].status.Failed?
  {
    hide CountOf;
    OpenAttempt(o, a);
  }

  lemma MarkFailedAreDead(o: Outbox, a: AttemptId, t: Outbox)
    requires FailedAreDead(o) && t.live == o.live - {a} && |t.attempts| == |o.attempts|
    requires forall b :: 0 <= b < |o.attempts| && b != a ==> t.attempts[b] == o.attempts[b]
    ensures FailedAreDead(t)
  {
  }

  lemma SettledTables(o: Outbox, t: Outbox)
    requires Settled(o) && t.notes == o.notes && t.attempts == o.attempts
    ensures Settled(t)
  {
  }

  lemma MarkKeeps(o: Outbox, a: AttemptId)
    requires Inv(o) && a in o.live && o.live[a].Replied?
    ensures Settled(MarkAttempt(o, a)) && FailedAreDead(MarkAttempt(o, a))
  {
    MarkSettles(o, a);
    OpenAttempt(o, a);
    hide CountOf, MarkAttempt, Settled, FailedAreDead;
    var t := o;
    if o.attempts[a].status.Sending? {
      SettleBoth(o, o.attempts[a].note, a, StatusFor(o.live[a].reply));
      t := SetAttempt(SetNote(o, o.attempts[a].note, StatusFor(o.live[a].reply)), a, StatusFor(o.live[a].reply));
    }
    SettledTables(t, MarkAttempt(o, a));
    MarkFailedAreDead(o, a, MarkAttempt(o, a));
  }

  lemma RecoverKeeps(o: Outbox, n: NoteId, r: Resolution, signed: bool)
    requires Inv(o) && RecoverNote(o, n, r, signed).Ok? && Patient(o, Recover(n, r, signed))
    ensures Settled(RecoverNote(o, n, r, signed).value) && FailedAreDead(RecoverNote(o, n, r, signed).value)
  {
    hide CountOf, LatestAmbiguous;
    LatestAmbiguousFinds(o.attempts, n);
    var b :| 0 <= b < |o.attempts| && o.attempts[b].note == n && !o.attempts[b].status.Failed?;
    OpenAttempt(o, b);
    assert LatestAmbiguous(o.attempts, n) == Some(b);
    SettleBoth(o, n, b, Ruling(r));
  }

  lemma StepKeeps(o: Outbox, step: Step)
    requires Inv(o) && Patient(o, step)
    ensures Inv(Apply(o, step))
  {
    hide CountOf, LatestAmbiguous, RecoverNote, ClaimAttempt;
    CountedKept(o, step);
    match step
    case Register(n, kind, committed, target, hash) => RegisterKeeps(o, n, kind, committed, target, hash);
    case Claim(n, q) =>
      if ClaimAttempt(o, n, q).Ok? {
        ClaimKeeps(o, n, q);
      }
    case Send(a, reply, arrives) => SendKeeps(o, a, reply, arrives);
    case Mark(a) =>
      if a in o.live && o.live[a].Replied? {
        MarkKeeps(o, a);
      }
    case Recover(n, r, signed) =>
      if RecoverNote(o, n, r, signed).Ok? {
        RecoverKeeps(o, n, r, signed);
      }
    case Die(a) => DieKeeps(o, a);
  }

  lemma RegisterKeeps(o: Outbox, n: NoteId, kind: Kind, committed: bool, target: bool, hash: Option<nat>)
    requires Inv(o)
    ensures var t := Kept(o, RegisterNote(o, n, kind, committed, target, hash)); Settled(t) && FailedAreDead(t)
  {
    hide CountOf;
  }

  lemma SendKeeps(o: Outbox, a: AttemptId, reply: Reply, arrives: bool)
    requires Inv(o)
    ensures Settled(SendExternally(o, a, reply, arrives)) && FailedAreDead(SendExternally(o, a, reply, arrives))
  {
    hide CountOf, Settled, Counted;
    SettledTables(o, SendExternally(o, a, reply, arrives));
  }

  lemma DieKeeps(o: Outbox, a: AttemptId)
    requires Inv(o)
    ensures Settled(DieAttempt(o, a)) && FailedAreDead(DieAttempt(o, a))
  {
    hide CountOf, Settled, Counted;
    SettledTables(o, DieAttempt(o, a));
  }

  lemma EmptyInv()
    ensures Inv(EmptyOutbox)
  {
  }

  lemma {:induction false} AfterCounted(o: Outbox, steps: seq<Step>)
    requires Counted(o)
    ensures Counted(After(o, steps))
  {
    if steps != [] {
      AfterCounted(o, steps[..|steps| - 1]);
      hide Apply, Counted;
      CountedKept(After(o, steps[..|steps| - 1]), steps[|steps| - 1]);
    }
  }

  lemma PrefixAssumed(o: Outbox, steps: seq<Step>)
    requires steps != []
    ensures var n := |steps| - 1;
            && (TruthfulFrom(o, steps) ==> TruthfulFrom(o, steps[..n]) && Truthful(After(o, steps[..n]), steps[n]))
            && (PatientFrom(o, steps) ==> PatientFrom(o, steps[..n]) && Patient(After(o, steps[..n]), steps[n]))
  {
    hide After, Truthful, Patient;
    var n := |steps| - 1;
    assert forall i :: 0 <= i < n ==> steps[..n][..i] == steps[..i];
  }

  lemma {:induction false} AfterInv(o: Outbox, steps: seq<Step>)
    requires Inv(o) && PatientFrom(o, steps)
    ensures Inv(After(o, steps))
  {
    if steps != [] {
      hide Apply, Inv, Patient, PatientFrom;
      PrefixAssumed(o, steps);
      AfterInv(o, steps[..|steps| - 1]);
      StepKeeps(After(o, steps[..|steps| - 1]), steps[|steps| - 1]);
    }
  }

  // ---------------------------------------------------------- truthful steps

  predicate SameNote(o: Outbox, a: AttemptId, b: AttemptId) {
    a < |o.attempts| && b < |o.attempts| && o.attempts[a].note == o.attempts[b].note
  }

  /**
   At most one attempt of a note has arrived or can still matter, and none where
   the note may be claimed again.
   */
  ghost predicate Once(o: Outbox) {
    && (forall a, b :: a in o.reached && b in o.reached && SameNote(o, a, b) ==> a == b)
    && (forall a, b :: Potent(o, a) && Potent(o, b) && SameNote(o, a, b) ==> a == b)
    && (forall a, b :: Potent(o, a) && b in o.reached ==> !SameNote(o, a, b))
    && forall n :: n in o.notes && (o.notes[n].status.Pending? || o.notes[n].status.Failed?) ==> Quiet(o, n)
  }

  lemma EmptyOnce()
    ensures Counted(EmptyOutbox) && Once(EmptyOutbox)
  {
  }

  lemma ClaimOnce(o: Outbox, n: NoteId, q: Request)
    requires Counted(o) && Once(o) && ClaimAttempt(o, n, q).Ok?
    ensures Once(ClaimAttempt(o, n, q).value)
  {
    hide CountOf;
    var t := ClaimAttempt(o, n, q).value;
    assert Quiet(o, n);
    assert forall a: AttemptId, b: AttemptId :: SameNote(t, a, b) && a < |o.attempts| && b < |o.attempts| ==> SameNote(o, a, b);
    assert forall a: AttemptId :: a < |o.attempts| ==> Potent(t, a) == Potent(o, a);
    forall m | m in t.notes && (t.notes[m].status.Pending? || t.notes[m].status.Failed?)
      ensures Quiet(t, m)
    {
      assert Quiet(o, m);
    }
  }

  lemma SendOnce(o: Outbox, a: AttemptId, reply: Reply, arrives: bool)
    requires Counted(o) && Once(o) && DefiniteIsTrue(Send(a, reply, arrives))
    ensures Once(SendExternally(o, a, reply, arrives))
  {
    hide CountOf;
    var t := SendExternally(o, a, reply, arrives);
    if a in o.live && o.live[a].Claimed? {
      assert Potent(o, a);
      assert forall b: AttemptId :: Potent(t, b) ==> Potent(o, b);
      assert forall b: AttemptId, c: AttemptId :: SameNote(t, b, c) ==> SameNote(o, b, c);
      forall m | m in t.notes && (t.notes[m].status.Pending? || t.notes[m].status.Failed?)
        ensures Quiet(t, m)
      {
        assert Quiet(o, m);
      }
    }
  }

  /** A mark makes its note claimable only after a definite failure, whose attempt was the sole potent one. */
  lemma MarkOnce(o: Outbox, a: AttemptId)
    requires Counted(o) && Once(o)
    ensures Once(MarkAttempt(o, a))
  {
    hide CountOf;
    var t := MarkAttempt(o, a);
    if a in o.live && o.live[a].Replied? {
      assert t.live == o.live - {a} && t.reached == o.reached && |t.attempts| == |o.attempts|;
      assert forall b :: 0 <= b < |o.attempts| ==> t.attempts[b].note == o.attempts[b].note;
      assert forall b: AttemptId :: Potent(t, b) ==> Potent(o, b) && b != a;
      assert forall b: AttemptId, c: AttemptId :: SameNote(t, b, c) ==> SameNote(o, b, c);
      var n := o.attempts[a].note;
      forall m | m in t.notes && (t.notes[m].status.Pending? || t.notes[m].status.Failed?)
        ensures Quiet(t, m)
      {
        if m == n && t.notes[m] != o.notes[m] {
          assert Potent(o, a);
          assert forall b :: 0 <= b < |o.attempts| && o.attempts[b].note == m ==> SameNote(o, a, b);
        } else {
          assert Quiet(o, m);
        }
      }
    }
  }

  lemma RecoverOnce(o: Outbox, n: NoteId, r: Resolution, signed: bool)
    requires Counted(o) && Once(o) && RecoverNote(o, n, r, signed).Ok? && Truthful(o, Recover(n, r, signed))
    ensures Once(RecoverNote(o, n, r, signed).value)
  {
    hide CountOf, LatestAmbiguous;
    var t := RecoverNote(o, n, r, signed).value;
    LatestAmbiguousFinds(o.attempts, n);
    assert t.live == o.live && t.reached == o.reached && |t.attempts| == |o.attempts|;
    assert forall b :: 0 <= b < |o.attempts| ==> t.attempts[b].note == o.attempts[b].note;
    assert forall b: AttemptId :: Potent(t, b) == Potent(o, b);
    assert forall b: AttemptId, c: AttemptId :: SameNote(t, b, c) ==> SameNote(o, b, c);
    forall m | m in t.notes && (t.notes[m].status.Pending? || t.notes[m].status.Failed?)
      ensures Quiet(t, m)
    {
      assert Quiet(o, m);
    }
  }

  lemma DieOnce(o: Outbox, a: AttemptId)
    requires Once(o)
    ensures Once(DieAttempt(o, a))
  {
    var t := DieAttempt(o, a);
    assert forall b: AttemptId :: Potent(t, b) ==> Potent(o, b);
    assert forall b: AttemptId, c: AttemptId :: SameNote(t, b, c) ==> SameNote(o, b, c);
    forall m | m in t.notes && (t.notes[m].status.Pending? || t.notes[m].status.Failed?)
      ensures Quiet(t, m)
    {
      assert Quiet(o, m);
    }
  }

  lemma RegisterOnce(o: Outbox, n: NoteId, kind: Kind, committed: bool, target: bool, hash: Option<nat>)
    requires Counted(o) && Once(o)
    ensures Once(Kept(o, RegisterNote(o, n, kind, committed, target, hash)))
  {
    hide CountOf;
    var t := Kept(o, RegisterNote(o, n, kind, committed, target, hash));
    assert t.live == o.live && t.reached == o.reached && t.attempts == o.attempts;
    assert forall b: AttemptId :: Potent(t, b) == Potent(o, b);
    assert forall b: AttemptId, c: AttemptId :: SameNote(t, b, c) ==> SameNote(o, b, c);
    forall m | m in t.notes && (t.notes[m].status.Pending? || t.notes[m].status.Failed?)
      ensures Quiet(t, m)
    {
      if m in o.notes {
        assert Quiet(o, m);
      }
    }
  }

  lemma StepOnce(o: Outbox, step: Step)
    requires Counted(o) && Once(o) && Truthful(o, step)
    ensures Counted(Apply(o, step)) && Once(Apply(o, step))
  {
    hide RecoverNote, ClaimAttempt, RegisterNote, Counted, Once, SendExternally, MarkAttempt, DieAttempt;
    CountedKept(o, step);
    match step
    case Register(n, kind, committed, target, hash) => RegisterOnce(o, n, kind, committed, target, hash);
    case Claim(n, q) =>
      if ClaimAttempt(o, n, q).Ok? {
        ClaimOnce(o, n, q);
      }
    case Send(a, reply, arrives) => SendOnce(o, a, reply, arrives);
    case Mark(a) => MarkOnce(o, a);
    case Die(a) => DieOnce(o, a);
    case Recover(n, r, signed) =>
      if RecoverNote(o, n, r, signed).Ok? {
        RecoverOnce(o, n, r, signed);
      }
  }

  lemma {:induction false} AfterOnce(o: Outbox, steps: seq<Step>)
    requires Counted(o) && Once(o) && TruthfulFrom(o, steps)
    ensures Counted(After(o, steps)) && Once(After(o, steps))
  {
    if steps != [] {
      hide Apply, Counted, Once, Truthful, TruthfulFrom;
      PrefixAssumed(o, steps);
      AfterOnce(o, steps[..|steps| - 1]);
      StepOnce(After(o, steps[..|steps| - 1]), steps[|steps| - 1]);
    }
  }

  // -------------------------------------------------------------- main theorems

  /** Two attempts of the notification both arrived. */
  ghost predicate DeliveredTwice(o: Outbox, n: NoteId) {
    exists a: AttemptId, b: AttemptId :: a != b && OfNote(o, a, n) && OfNote(o, b, n) && a in o.reached && b in o.reached
  }

  lemma OnceIsOnce(o: Outbox, n: NoteId)
    requires Once(o)
    ensures !DeliveredTwice(o, n)
  {
    assert forall a: AttemptId, b: AttemptId :: OfNote(o, a, n) && OfNote(o, b, n) ==> SameNote(o, a, b);
  }

  /** No notification reaches its target twice, over every truthful interleaving of senders, deaths, resends and rulings. */
  lemma AtMostOnce(steps: seq<Step>, n: NoteId)
    requires TruthfulHistory(steps)
    ensures !DeliveredTwice(History(steps), n)
  {
    hide After, Counted, TruthfulFrom;
    EmptyOnce();
    AfterOnce(EmptyOutbox, steps);
    OnceIsOnce(History(steps), n);
  }

  /** `attempt_count` is the number of attempt rows in every history, truthful or not. */
  lemma AttemptCountExact(steps: seq<Step>, n: NoteId)
    requires n in History(steps).notes
    ensures History(steps).notes[n].attemptCount == CountOf(History(steps).attempts, n)
  {
    EmptyOnce();
    AfterCounted(EmptyOutbox, steps);
  }

  predicate AmbiguousAttempt(o: Outbox, a: AttemptId, n: NoteId) {
    OfNote(o, a, n) && AmbiguousStatus(o.attempts[a].status)
  }

  ghost predicate SoleAmbiguous(o: Outbox, a: AttemptId, n: NoteId) {
    AmbiguousAttempt(o, a, n) && forall b: AttemptId :: AmbiguousAttempt(o, b, n) ==> b == a
  }

  /** An ambiguous attempt exists, and is unique, exactly when the notification is ambiguous. */
  ghost predicate AmbiguityMatches(o: Outbox, n: NoteId) {
    n in o.notes && (AmbiguousStatus(o.notes[n].status) <==> exists a: AttemptId :: SoleAmbiguous(o, a, n))
  }

  lemma AmbiguousInBoth(o: Outbox, n: NoteId)
    requires Inv(o) && n in o.notes
    ensures AmbiguityMatches(o, n)
    ensures forall a: AttemptId :: AmbiguousAttempt(o, a, n) ==> AmbiguousStatus(o.notes[n].status) && SoleAmbiguous(o, a, n)
  {
    hide CountOf;
    if AmbiguousStatus(o.notes[n].status) {
      var a :| 0 <= a < |o.attempts| && o.attempts[a].note == n && !o.attempts[a].status.Failed?;
      OpenAttempt(o, a);
      assert SoleAmbiguous(o, a, n);
    }
    forall a: AttemptId | AmbiguousAttempt(o, a, n)
      ensures AmbiguousStatus(o.notes[n].status) && SoleAmbiguous(o, a, n)
    {
      OpenAttempt(o, a);
    }
  }

  /** While rulings wait for dead senders, an ambiguous attempt exists, and is unique, exactly when the notification is ambiguous. */
  lemma AmbiguousExactly(steps: seq<Step>, n: NoteId)
    requires PatientHistory(steps) && n in History(steps).notes
    ensures AmbiguityMatches(History(steps), n)
  {
    hide After, PatientFrom, Inv, AmbiguityMatches;
    EmptyInv();
    AfterInv(EmptyOutbox, steps);
    AmbiguousInBoth(History(steps), n);
  }

  /** Once DELIVERED, every later step, even an untruthful one, leaves the notification as it is and starts no attempt of it. */
  lemma DeliveredForever(o: Outbox, step: Step, n: NoteId)
    requires Counted(o) && n in o.notes && o.notes[n].status.Delivered?
    ensures var t := Apply(o, step);
            n in t.notes && t.notes[n] == o.notes[n] && CountOf(t.attempts, n) == CountOf(o.attempts, n)
  {
    CountedKept(o, step);
  }

  /**
   A notification that can be claimed again has never arrived and has no sender
   that could still deliver it; if rulings waited for dead senders, none at all.
   */
  lemma ClaimableIsUndelivered(steps: seq<Step>, n: NoteId, q: Request)
    requires TruthfulHistory(steps) && ClaimAttempt(History(steps), n, q).Ok?
    ensures Quiet(History(steps), n)
    ensures PatientHistory(steps) ==> forall a: AttemptId :: OfNote(History(steps), a, n) ==> a !in History(steps).live
  {
    hide After, CountOf, TruthfulFrom, PatientFrom;
    EmptyOnce();
    AfterOnce(EmptyOutbox, steps);
    var o := History(steps);
    if PatientHistory(steps) {
      EmptyInv();
      AfterInv(EmptyOutbox, steps);
      forall a: AttemptId | OfNote(o, a, n)
        ensures a !in o.live
      {
        if !o.attempts[a].status.Failed? {
          OpenAttempt(o, a);
          assert false;
        }
      }
    }
  }
}
