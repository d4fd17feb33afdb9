/** The outbox service as it runs: one sender at a time, writing the tables transaction by transaction. */
module NotificationService {
  import opened Common
  import opened Notifications

  /** Where the sending process dies, if it does. */
  datatype Death = Survives | BeforeSend | BeforeMark

  /** One whole `_attempt` as steps of the interleaved outbox; a surviving sender marks its own attempt. */
  function Attempted(o: Outbox, n: NoteId, q: Request, reply: Reply, arrives: bool, death: Death): Outbox {
    var a := |o.attempts|;
    var claimed := Apply(o, Claim(n, q));
    if ClaimAttempt(o, n, q).Err? then o
    else if death.BeforeSend? then Apply(claimed, Die(a))
    else
      var sent := Apply(claimed, Send(a, reply, arrives));
      if death.BeforeMark? then Apply(sent, Die(a)) else Apply(sent, Mark(a))
  }

  /**
   What one whole attempt comes to, exactly: refused, it changes nothing; otherwise
   the message arrives only if the sender got as far as the call, and note and
   attempt both end delivered, failed or unknown by the reply, or stay SENDING if
   the sender died before recording it.
   */
  lemma AttemptedExactly(o: Outbox, n: NoteId, q: Request, reply: Reply, arrives: bool, death: Death)
    requires Counted(o)
    ensures var t := Attempted(o, n, q, reply, arrives, death);
            var a := |o.attempts|;
            var ending := if death != Survives then Sending
                          else if reply == Sent then Delivered
                          else if reply == DefiniteFailure then Failed
                          else DeliveryUnknown;
            if ClaimAttempt(o, n, q).Err? then t == o
            else
              && t.notes == o.notes[n := o.notes[n].(status := ending, attemptCount := o.notes[n].attemptCount + 1)]
              && t.attempts == o.attempts + [Attempt(n, ending)]
              && t.reached == (if arrives && death != BeforeSend then o.reached + {a} else o.reached)
              && t.live == o.live && t.audit == o.audit
  {
    hide CountOf;
    if ClaimAttempt(o, n, q).Ok? {
      var a := |o.attempts|;
      assert a !in o.live;
      assert o.live[a := Claimed] - {a} == o.live;
      assert forall reply: Reply :: o.live[a := Claimed][a := Replied(reply)] - {a} == o.live;
      var note := o.notes[n].(status := Sending, attemptCount := o.notes[n].attemptCount + 1);
      assert forall status: Status :: o.notes[n := note][n := note.(status := status)] == o.notes[n := note.(status := status)];
    }
  }

  class Service {
    var notes: map<NoteId, Note>
    var attempts: seq<Attempt>
    var audit: seq<AuditEvent>
    var live: map<AttemptId, Phase>
    var reached: set<AttemptId>

    function View(): Outbox
      reads this
    {
      Outbox(notes, attempts, audit, live, reached)
    }

    constructor ()
      ensures View() == EmptyOutbox && Inv(View())
    {
      notes, attempts, audit, live, reached := map[], [], [], map[], {};
      new;
      EmptyInv();
    }

    /** `register_pending`. */
    method RegisterPending(n: NoteId, committed: bool, target: bool,
                           reportHash: Option<nat>) returns (r: Result<(), Refusal>)
      modifies this`notes
      ensures View() == Apply(old(View()), Register(n, PaperNote, committed, target, reportHash))
      ensures r.Ok? <==> committed && reportHash.Some? && target
    {
      if !committed {
        return Err(NotCommitted);
      }
      if reportHash.None? {
        return Err(MissingReport);
      }
      if !target {
        return Err(MissingTarget);
      }
      if n !in notes {
        notes := notes[n := Note(Pending, 0, reportHash, PaperNote)];
      }
      r := Ok(());
    }

    /** `_claim_attempt`: the guarded update and the attempt row in one transaction. */
    method ClaimOne(n: NoteId) returns (r: Result<AttemptId, Refusal>)
      requires n in notes
      modifies this`notes, this`attempts, this`live
      ensures r.Ok? <==> old(notes[n].status).Pending? || old(notes[n].status).Failed?
      ensures r.Ok? ==>
                && r.value == |old(attempts)| && attempts == old(attempts) + [Attempt(n, Sending)]
                && notes == old(notes)[n := old(notes)[n].(status := Sending, attemptCount := old(notes)[n].attemptCount + 1)]
                && live == old(live)[r.value := Claimed]
      ensures r.Err? ==> View() == old(View()) && r.error == NeedsRecovery
    {
      var note := notes[n];
      if !note.status.Pending? && !note.status.Failed? {
        return Err(NeedsRecovery);
      }
      r := Ok(|attempts|);
      live := live[|attempts| := Claimed];
      notes := notes[n := note.(status := Sending, attemptCount := note.attemptCount + 1)];
      attempts := attempts + [Attempt(n, Sending)];
    }

    /** `_mark_delivered` and `_mark_unsuccessful`. */
    method MarkOne(n: NoteId, a: AttemptId, s: Status)
      modifies this`notes, this`attempts, this`live
      ensures notes == if n in old(notes) && old(notes)[n].status.Sending? then old(notes)[n := old(notes)[n].(status := s)] else old(notes)
      ensures attempts == if a < |old(attempts)| && old(attempts)[a].note == n && old(attempts)[a].status.Sending?
                          then old(attempts)[a := old(attempts)[a].(status := s)] else old(attempts)
      ensures live == old(live) - {a}
    {
      if n in notes && notes[n].status.Sending? {
        notes := notes[n := notes[n].(status := s)];
      }
      if a < |attempts| && attempts[a].note == n && attempts[a].status.Sending? {
        attempts := attempts[a := attempts[a].(status := s)];
      }
      live := live - {a};
    }

    /** `_attempt`: verify, claim durably, send, record what is known. */
    method AttemptOne(n: NoteId, q: Request, reply: Reply, arrives: bool, death: Death) returns (r: Result<(), Refusal>)
      requires n in notes && (q.monthlyOnly ==> notes[n].kind.MonthlyNote?)
      modifies this
      ensures View() == Attempted(old(View()), n, q, reply, arrives, death)
      ensures r.Ok? ==> death.Survives? && reply.Sent?
    {
      if q.requireCommitted && !q.committed {
        return Err(NotCommitted);
      }
      if q.reportHash.None? {
        return Err(MissingReport);
      }
      if notes[n].reportHash.None? {
        return Err(NoHistoricalHash);
      }
      if q.reportHash != notes[n].reportHash {
        return Err(HashMismatch);
      }
      var claim := ClaimOne(n);
      if claim.Err? {
        return Err(claim.error);
      }
      var a := claim.value;
      ghost var claimed := View();
      assert claimed == Apply(old(View()), Claim(n, q));
      if death.BeforeSend? {
        live := live - {a};
        return Err(NeedsRecovery);
      }
      r := SendAndMark(n, a, reply, arrives, death);
    }

    /** The external call of a claimed attempt and the mark of its outcome. */
    method SendAndMark(n: NoteId, a: AttemptId, reply: Reply, arrives: bool, death: Death) returns (r: Result<(),
                       Refusal>)
      requires n in notes && a < |attempts| && attempts[a].note == n && a in live && live[a].Claimed?
      requires !death.BeforeSend?
      modifies this
      ensures var sent := Apply(old(View()), Send(a, reply, arrives));
              View() == if death.BeforeMark? then Apply(sent, Die(a)) else Apply(sent, Mark(a))
      ensures r.Ok? ==> death.Survives? && reply.Sent?
    {
      live := live[a := Replied(reply)];
      if arrives {
        reached := reached + {a};
      }
      if death.BeforeMark? {
        live := live - {a};
        return Err(NeedsRecovery);
      }
      match reply {
        case Sent =>
          MarkOne(n, a, Delivered);
          r := Ok(());
        case DefiniteFailure =>
          MarkOne(n, a, Failed);
          r := Err(NeedsRecovery);
        case Ambiguous =>
          MarkOne(n, a, DeliveryUnknown);
          r := Err(NeedsRecovery);
      }
    }

    /** `resend`: safe states only, never a second registration. */
    method Resend(n: NoteId, q: Request, reply: Reply, arrives: bool, death: Death) returns (r: Result<(), Refusal>)
      requires q.requireCommitted && !q.monthlyOnly
      modifies this
      ensures View() == if n in old(notes) then Attempted(old(View()), n, q, reply, arrives, death) else old(View())
    {
      if n !in notes {
        return Err(UnknownNote);
      }
      if !notes[n].status.Pending? && !notes[n].status.Failed? {
        return Err(NeedsRecovery);
      }
      r := AttemptOne(n, q, reply, arrives, death);
    }

    /** `send_committed_run`. */
    method SendCommittedRun(n: NoteId, committed: bool, target: bool, reportHash: Option<nat>, q: Request,
                            reply: Reply, arrives: bool, death: Death) returns (r: Result<(), Refusal>)
      requires q.requireCommitted && !q.monthlyOnly
      modifies this
      ensures var registered := Apply(old(View()), Register(n, PaperNote, committed, target, reportHash));
              View() == if committed && reportHash.Some? && target then Attempted(registered, n, q, reply, arrives, death) else registered
    {
      var registered := RegisterPending(n, committed, target, reportHash);
      if registered.Err? {
        return registered;
      }
      r := AttemptOne(n, q, reply, arrives, death);
    }

    /** `send_committed_monthly`: a delivered report is reported as such and never sent again. */
    method SendCommittedMonthly(n: NoteId, target: bool, reportHash: Option<nat>, q: Request,
                                reply: Reply, arrives: bool, death: Death) returns (r: Result<(), Refusal>)
      requires !q.requireCommitted && q.monthlyOnly
      modifies this
      ensures var registered := Apply(old(View()), Register(n, MonthlyNote, false, target, reportHash));
              View() == Attempted(registered, n, q, reply, arrives, death)
      ensures n in old(notes) && old(notes)[n].kind.MonthlyNote? && old(notes)[n].status.Delivered? ==> r.Ok? && View() == old(View())
    {
      if n !in notes {
        if !target {
          return Err(MissingTarget);
        }
        if reportHash.None? {
          return Err(MissingReport);
        }
        notes := notes[n := Note(Pending, 0, reportHash, MonthlyNote)];
      }
      if !notes[n].kind.MonthlyNote? {
        return Err(WrongKind);
      }
      if notes[n].status.Delivered? {
        return Ok(());
      }
      if !notes[n].status.Pending? && !notes[n].status.Failed? {
        return Err(NeedsRecovery);
      }
      r := AttemptOne(n, q, reply, arrives, death);
    }

    /** The latest ambiguous attempt, searched from the newest row back. */
    method FindAmbiguous(n: NoteId) returns (found: Option<AttemptId>)
      ensures found == LatestAmbiguous(attempts, n)
      ensures found.Some? ==> found.value < |attempts|
    {
      var i := |attempts|;
      assert attempts[..i] == attempts;
      while i > 0
        invariant 0 <= i <= |attempts|
        invariant LatestAmbiguous(attempts, n) == LatestAmbiguous(attempts[..i], n)
      {
        i := i - 1;
        assert attempts[..i + 1][..i] == attempts[..i];
        if attempts[i].note == n && AmbiguousStatus(attempts[i].status) {
          return Some(i);
        }
      }
      found := None;
    }

    /** `recover`: the operator's ruling and its audit event, never a send. */
    method RecoverOne(n: NoteId, resolution: Resolution, signed: bool) returns (r: Result<(), Refusal>)
      modifies this`notes, this`attempts, this`audit
      ensures View() == Apply(old(View()), Recover(n, resolution, signed))
      ensures r.Ok? <==> RecoverNote(old(View()), n, resolution, signed).Ok?
    {
      if !signed {
        return Err(Unsigned);
      }
      if n !in notes {
        return Err(UnknownNote);
      }
      if !AmbiguousStatus(notes[n].status) {
        return Err(NotAmbiguous);
      }
      var before, status := notes[n].status, Ruling(resolution);
      var attempt := FindAmbiguous(n);
      notes := notes[n := notes[n].(status := status)];
      if attempt.Some? {
        attempts := attempts[attempt.value := attempts[attempt.value].(status := status)];
      }
      audit := audit + [AuditEvent(n, attempt, resolution, before, status)];
      r := Ok(());
    }
  }
}
