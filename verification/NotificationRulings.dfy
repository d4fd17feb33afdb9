/**
 When the operator's ruling "not delivered" is safe: for both promises of the
 outbox, the exact condition on the senders of the notification ruled on.
 */
module NotificationRulings {
  import opened Common
  import opened Notifications

  // --------------------------------------------------- when a ruling is safe

  lemma AfterOne(o: Outbox, x: Step)
    ensures After(o, [x]) == Apply(o, x)
  {
    hide Apply;
    assert [x][..0] == [];
  }

  lemma AfterTwo(o: Outbox, x: Step, y: Step)
    ensures After(o, [x, y]) == Apply(Apply(o, x), y)
  {
    hide Apply;
    AfterOne(o, x);
    var both := [x, y];
    assert both[..|both| - 1] == [x];
  }

  lemma {:induction false} AfterMore(o: Outbox, steps: seq<Step>, more: seq<Step>)
    ensures After(o, steps + more) == After(After(o, steps), more)
  {
    hide Apply;
    if more == [] {
      assert steps + more == steps;
    } else {
      AfterMore(o, steps, more[..|more| - 1]);
      assert (steps + more)[..|steps + more| - 1] == steps + more[..|more| - 1];
    }
  }

  /** Only claims, sends, marks and deaths, with no definite failure that arrives. */
  predicate NoRulings(steps: seq<Step>) {
    forall i :: 0 <= i < |steps| ==> DefiniteIsTrue(steps[i]) && !steps[i].Recover?
  }

  lemma NoRulingsAssumed(o: Outbox, steps: seq<Step>)
    requires NoRulings(steps)
    ensures TruthfulFrom(o, steps) && PatientFrom(o, steps)
  {
  }

  function Reclaim(o: Outbox, n: NoteId): Step
    requires n in o.notes
  {
    Claim(n, Request(false, false, o.notes[n].reportHash, false))
  }

  /** The state once a failed notification has been claimed and its new attempt has arrived. */
  ghost predicate Resent(o: Outbox, n: NoteId, t: Outbox) {
    && n in t.notes && t.notes[n].status.Sending?
    && t.attempts == o.attempts + [Attempt(n, Sending)]
    && t.live == o.live[|o.attempts| := Replied(Sent)] && t.reached == o.reached + {|o.attempts|}
  }

  /** A claimable notification can be claimed and delivered, whatever else is going on. */
  lemma ResendArrives(o: Outbox, n: NoteId)
    requires Counted(o) && n in o.notes && o.notes[n].status.Failed?
    ensures Resent(o, n, After(o, [Reclaim(o, n), Send(|o.attempts|, Sent, true)]))
    ensures Counted(After(o, [Reclaim(o, n), Send(|o.attempts|, Sent, true)]))
  {
    hide CountOf, After;
    AfterTwo(o, Reclaim(o, n), Send(|o.attempts|, Sent, true));
    AfterCounted(o, [Reclaim(o, n), Send(|o.attempts|, Sent, true)]);
  }

  lemma BothArrived(o: Outbox, n: NoteId, a: AttemptId, b: AttemptId)
    requires a != b && OfNote(o, a, n) && OfNote(o, b, n) && a in o.reached && b in o.reached
    ensures DeliveredTwice(o, n)
  {
  }

  /** A sender still in its call delivers after the next attempt was claimed. */
  lemma ClaimedDeliversTwice(t: Outbox, n: NoteId, a: AttemptId) returns (more: seq<Step>)
    requires Counted(t) && n in t.notes && t.notes[n].status.Failed?
    requires OfNote(t, a, n) && a in t.live && t.live[a].Claimed?
    ensures NoRulings(more) && DeliveredTwice(After(t, more), n)
  {
    hide CountOf, After;
    var first := Send(a, Sent, true);
    AfterOne(t, first);
    AfterCounted(t, [first]);
    var u := After(t, [first]);
    var resend := [Reclaim(u, n), Send(|u.attempts|, Sent, true)];
    ResendArrives(u, n);
    more := [first] + resend;
    AfterMore(t, [first], resend);
    BothArrived(After(t, more), n, a, |u.attempts|);
  }

  /** A sender records its old definite failure over the next attempt, whose arrival is then forgotten. */
  lemma StaleFailureDeliversTwice(t: Outbox, n: NoteId, a: AttemptId) returns (more: seq<Step>)
    requires Counted(t) && n in t.notes && t.notes[n].status.Failed?
    requires OfNote(t, a, n) && a in t.live && t.live[a] == Replied(DefiniteFailure)
    ensures NoRulings(more) && DeliveredTwice(After(t, more), n)
  {
    hide CountOf, After, Counted;
    var b := |t.attempts|;
    var send := [Reclaim(t, n), Send(b, Sent, true)];
    ResendArrives(t, n);
    var u := After(t, send);
    AfterOne(u, Mark(a));
    AfterCounted(u, [Mark(a)]);
    var v := After(u, [Mark(a)]);
    MarkFails(u, n, a);
    var resend := [Reclaim(v, n), Send(|v.attempts|, Sent, true)];
    ResendArrives(v, n);
    more := send + ([Mark(a)] + resend);
    AfterMore(t, send, [Mark(a)] + resend);
    AfterMore(u, [Mark(a)], resend);
    BothArrived(After(t, more), n, b, |v.attempts|);
  }

  lemma MarkFails(o: Outbox, n: NoteId, a: AttemptId)
    requires n in o.notes && o.notes[n].status.Sending? && OfNote(o, a, n) && a in o.live && o.live[a] == Replied(DefiniteFailure)
    ensures var t := Apply(o, Mark(a));
            && n in t.notes && t.notes[n].status.Failed? && t.reached == o.reached && |t.attempts| == |o.attempts|
            && forall b :: 0 <= b < |o.attempts| ==> t.attempts[b].note == o.attempts[b].note
  {
  }

  /**
   Once a notification that is not quiet may be claimed again, honest steps alone
   deliver it twice.
   */
  lemma UnquietDeliversTwice(t: Outbox, n: NoteId) returns (more: seq<Step>)
    requires Counted(t) && n in t.notes && t.notes[n].status.Failed? && !Quiet(t, n)
    ensures NoRulings(more) && DeliveredTwice(After(t, more), n)
  {
    hide CountOf, After, Counted;
    var a :| 0 <= a < |t.attempts| && t.attempts[a].note == n && (a in t.reached || Potent(t, a));
    assert a in t.reached || Potent(t, a);
    if a in t.reached {
      more := [Reclaim(t, n), Send(|t.attempts|, Sent, true)];
      ResendArrives(t, n);
      BothArrived(After(t, more), n, a, |t.attempts|);
    } else if t.live[a].Claimed? {
      more := ClaimedDeliversTwice(t, n, a);
    } else {
      more := StaleFailureDeliversTwice(t, n, a);
    }
  }

  lemma RulingLeaves(o: Outbox, n: NoteId)
    requires Counted(o) && RecoverNote(o, n, NotDelivered, true).Ok?
    ensures var t := Apply(o, Recover(n, NotDelivered, true));
            && n in t.notes && t.notes[n].status.Failed? && Quiet(t, n) == Quiet(o, n)
            && t.live == o.live && t.reached == o.reached && |t.attempts| == |o.attempts|
            && forall b :: 0 <= b < |o.attempts| ==> t.attempts[b].note == o.attempts[b].note
  {
    hide CountOf, LatestAmbiguous;
    var t := Apply(o, Recover(n, NotDelivered, true));
    LatestAmbiguousFinds(o.attempts, n);
    assert forall b: AttemptId :: Potent(t, b) == Potent(o, b);
  }

  /**
   When a ruling is safe, exactly: in every state a truthful history reaches, the
   ruling "not delivered" can never lead to a second arrival, over all truthful
   steps that follow, if and only if the notification is quiet when it is ruled.
   A sender that has returned from a successful or ambiguous call does no harm.
   */
  lemma RulingSafeExactly(steps: seq<Step>, n: NoteId)
    requires TruthfulHistory(steps) && RecoverNote(History(steps), n, NotDelivered, true).Ok?
    ensures var t := Apply(History(steps), Recover(n, NotDelivered, true));
            (forall more :: TruthfulFrom(t, more) ==> !DeliveredTwice(After(t, more), n)) <==> Quiet(History(steps), n)
  {
    var o := History(steps);
    var ruling := Recover(n, NotDelivered, true);
    var t := Apply(o, ruling);
    hide After, Counted, TruthfulFrom, Once, RecoverNote, DeliveredTwice, Quiet;
    EmptyOnce();
    AfterOnce(EmptyOutbox, steps);
    CountedKept(o, ruling);
    RulingLeaves(o, n);
    if Quiet(o, n) {
      StepOnce(o, ruling);
      forall more | TruthfulFrom(t, more)
        ensures !DeliveredTwice(After(t, more), n)
      {
        AfterOnce(t, more);
        OnceIsOnce(After(t, more), n);
      }
    } else {
      var more := UnquietDeliversTwice(t, n);
      NoRulingsAssumed(t, more);
      assert TruthfulFrom(t, more) && DeliveredTwice(After(t, more), n);
    }
  }

  /** A monthly notification is registered and claimed, and its call fails definitely. */
  lemma DefinitelyFailed(n: NoteId, hash: nat)
    ensures var opening := [Register(n, MonthlyNote, false, true, Some(hash)), Claim(n, Request(false, false, Some(hash), true))];
            History(opening) == Outbox(map[n := Note(Sending, 1, Some(hash), MonthlyNote)], [Attempt(n, Sending)], [], map[0 := Claimed], {})
  {
    var register, claim := Register(n, MonthlyNote, false, true, Some(hash)), Claim(n, Request(false, false, Some(hash), true));
    AfterTwo(EmptyOutbox, register, claim);
    assert Apply(EmptyOutbox, register).attempts == [];
  }

  lemma RuledFailed(o: Outbox, n: NoteId)
    requires n in o.notes && o.notes[n].status.Sending? && o.attempts == [Attempt(n, Sending)] && o.live == map[0 := Claimed]
    requires o.reached == {}
    ensures var failed := Apply(o, Send(0, DefiniteFailure, false));
            var ruled := Apply(failed, Recover(n, NotDelivered, true));
            && failed.reached == {} && RecoverNote(failed, n, NotDelivered, true).Ok?
            && n in ruled.notes && ruled.notes[n].status.Failed? && OfNote(ruled, 0, n)
            && 0 in ruled.live && ruled.live[0] == Replied(DefiniteFailure)
  {
    var failed := Apply(o, Send(0, DefiniteFailure, false));
    assert failed.attempts == [Attempt(n, Sending)];
    assert LatestAmbiguous(failed.attempts, n) == Some(0);
  }

  /** That every ruling is true when it is made is not enough: a definite failure, ruled on, is recorded one attempt late. */
  lemma TruthAloneDeliversTwice(n: NoteId, hash: nat) returns (steps: seq<Step>, more: seq<Step>)
    ensures forall i :: 0 <= i < |steps + more| ==> PlainlyTruthful(History((steps + more)[..i]), (steps + more)[i])
    ensures DeliveredTwice(History(steps + more), n)
  {
    hide Apply, After, Undelivered, CountOf, DeliveredTwice, LatestAmbiguous, Counted, RecoverNote;
    var opening := [Register(n, MonthlyNote, false, true, Some(hash)), Claim(n, Request(false, false, Some(hash), true))];
    var failure, ruling := Send(0, DefiniteFailure, false), Recover(n, NotDelivered, true);
    var ruled := [failure, ruling];
    steps := opening + ruled;
    DefinitelyFailed(n, hash);
    var o := History(opening);
    RuledFailed(o, n);
    AfterTwo(o, failure, ruling);
    AfterMore(EmptyOutbox, opening, ruled);
    EmptyOnce();
    AfterCounted(EmptyOutbox, steps);
    more := StaleFailureDeliversTwice(History(steps), n, 0);
    AfterMore(EmptyOutbox, steps, more);
    forall i | 0 <= i < |steps + more|
      ensures PlainlyTruthful(History((steps + more)[..i]), (steps + more)[i])
    {
      if i == 3 {
        assert (steps + more)[..i] == opening + [failure];
        AfterMore(EmptyOutbox, opening, [failure]);
        AfterOne(o, failure);
        NothingArrived(Apply(o, failure), n);
      } else if |steps| <= i {
        assert (steps + more)[i] == more[i - |steps|];
      }
    }
  }

  lemma NothingArrived(o: Outbox, n: NoteId)
    requires o.reached == {}
    ensures Undelivered(o, n)
  {
  }

  // ------------------------------------ when a ruling keeps the tables in step

  lemma MarkOutOfStep(t: Outbox, n: NoteId, a: AttemptId) returns (more: seq<Step>)
    requires Counted(t) && n in t.notes && t.notes[n].status.Failed?
    requires forall b :: 0 <= b < |t.attempts| && t.attempts[b].note == n ==> t.attempts[b].status.Failed?
    requires OfNote(t, a, n) && a in t.live && t.live[a].Replied?
    ensures NoRulings(more) && !AmbiguityMatches(After(t, more), n)
  {
    hide CountOf, After, Counted;
    var b := |t.attempts|;
    var send := [Reclaim(t, n), Send(b, Sent, true)];
    ResendArrives(t, n);
    var u := After(t, send);
    var mark := [Mark(a)];
    AfterOne(u, Mark(a));
    AfterCounted(u, mark);
    var v := After(u, mark);
    more := send + mark;
    AfterMore(t, send, mark);
    StaleMark(u, n, a, b);
    if t.live[a].reply.Ambiguous? {
      var w := After(v, [Mark(b)]);
      AfterOne(v, Mark(b));
      AfterMore(u, mark, [Mark(b)]);
      AfterMore(t, send, mark + [Mark(b)]);
      more := send + (mark + [Mark(b)]);
      assert AmbiguousStatus(w.notes[n].status);
      assert forall c: AttemptId :: !AmbiguousAttempt(w, c, n);
    } else {
      assert SoleAmbiguous(v, b, n);
    }
  }

  /** A stale mark sets the note by its own reply and leaves the attempts alone. */
  lemma StaleMark(u: Outbox, n: NoteId, a: AttemptId, b: AttemptId)
    requires n in u.notes && u.notes[n].status.Sending? && OfNote(u, b, n) && b in u.live && u.live[b] == Replied(Sent)
    requires OfNote(u, a, n) && a in u.live && u.live[a].Replied? && u.attempts[a].status.Failed? && u.attempts[b].status.Sending?
    ensures var v := Apply(u, Mark(a));
            && n in v.notes && v.notes[n].status == StatusFor(u.live[a].reply) && v.attempts == u.attempts && v.live == u.live - {a}
            && (u.live[a].reply.Ambiguous? ==>
                  var w := Apply(v, Mark(b));
                  && n in w.notes && w.notes[n].status.DeliveryUnknown?
                  && w.attempts == u.attempts[b := Attempt(n, Delivered)])
  {
  }

  lemma LiveOutOfStep(t: Outbox, n: NoteId, a: AttemptId) returns (more: seq<Step>)
    requires Counted(t) && n in t.notes && t.notes[n].status.Failed?
    requires forall b :: 0 <= b < |t.attempts| && t.attempts[b].note == n ==> t.attempts[b].status.Failed?
    requires OfNote(t, a, n) && a in t.live
    ensures NoRulings(more) && !AmbiguityMatches(After(t, more), n)
  {
    hide CountOf, After, Counted;
    if t.live[a].Claimed? {
      var first := Send(a, Sent, true);
      AfterOne(t, first);
      AfterCounted(t, [first]);
      var u := After(t, [first]);
      var rest := MarkOutOfStep(u, n, a);
      AfterMore(t, [first], rest);
      more := [first] + rest;
    } else {
      more := MarkOutOfStep(t, n, a);
    }
  }

  /** The one attempt a ruling is about, when rulings have been patient so far. */
  lemma RulingTarget(o: Outbox, n: NoteId) returns (a: AttemptId)
    requires Inv(o) && RecoverNote(o, n, NotDelivered, true).Ok?
    ensures SoleAmbiguous(o, a, n)
    ensures var t := Apply(o, Recover(n, NotDelivered, true));
            && n in t.notes && t.notes[n].status.Failed? && t.live == o.live && OfNote(t, a, n)
            && forall b :: 0 <= b < |t.attempts| && t.attempts[b].note == n ==> t.attempts[b].status.Failed?
  {
    hide CountOf, LatestAmbiguous;
    a :| 0 <= a < |o.attempts| && o.attempts[a].note == n && !o.attempts[a].status.Failed?;
    OpenAttempt(o, a);
    LatestAmbiguousFinds(o.attempts, n);
    assert LatestAmbiguous(o.attempts, n) == Some(a);
  }

  /**
   When a ruling keeps notification and attempts in step, exactly: over all
   patient steps that follow the ruling "not delivered", an ambiguous attempt
   exists, and is unique, exactly when the notification is ambiguous, if and only
   if the sender of the ambiguous attempt ruled on is dead.
   */
  lemma RulingInStepExactly(steps: seq<Step>, n: NoteId)
    requires PatientHistory(steps) && RecoverNote(History(steps), n, NotDelivered, true).Ok?
    ensures var o := History(steps);
            var t := Apply(o, Recover(n, NotDelivered, true));
            (forall more :: PatientFrom(t, more) ==> AmbiguityMatches(After(t, more), n))
            <==> forall a: AttemptId :: AmbiguousAttempt(o, a, n) ==> a !in o.live
  {
    var o := History(steps);
    var ruling := Recover(n, NotDelivered, true);
    var t := Apply(o, ruling);
    hide After, Counted, Settled, FailedAreDead, PatientFrom, RecoverNote, AmbiguityMatches, Apply;
    EmptyInv();
    AfterInv(EmptyOutbox, steps);
    var a := RulingTarget(o, n);
    CountedKept(o, ruling);
    if a in o.live {
      var more := LiveOutOfStep(t, n, a);
      NoRulingsAssumed(t, more);
      assert PatientFrom(t, more) && !AmbiguityMatches(After(t, more), n);
    } else {
      assert Patient(o, ruling) by {
        assert forall b :: 0 <= b < |o.attempts| && o.attempts[b].note == n && AmbiguousStatus(o.attempts[b].status) ==>
                 AmbiguousAttempt(o, b, n);
      }
      StepKeeps(o, ruling);
      forall more | PatientFrom(t, more)
        ensures AmbiguityMatches(After(t, more), n)
      {
        AfterInv(t, more);
        NotesStay(t, more, n);
        AmbiguousInBoth(After(t, more), n);
      }
    }
  }

  lemma {:induction false} NotesStay(o: Outbox, steps: seq<Step>, n: NoteId)
    requires n in o.notes
    ensures n in After(o, steps).notes
  {
    if steps != [] {
      NotesStay(o, steps[..|steps| - 1], n);
    }
  }
}
