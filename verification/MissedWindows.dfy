/**
 The weekly schedule of src/schedule.py and the missed-window audit of
 src/forward_operations.py.  Instants are integer microseconds, days are counted
 from 1970-01-01, a Thursday.
 */
module MissedWindows {
  import opened Common

  type Instant = int
  type Day = int

  const MINUTE: int := 60_000_000
  const DAY: int := 86_400_000_000

  datatype Config = Config(weekday: int, hour: int, minute: int, targetMinute: int, windowMinutes: int)

  /** Minutes from the window start to the execution target. */
  function TargetOffset(c: Config): int {
    (c.targetMinute - c.minute) % 60
  }

  /** What PaperConfig validates. */
  predicate ConfigOk(c: Config) {
    && 0 <= c.weekday <= 6 && 0 <= c.hour <= 23 && 0 <= c.minute <= 59 && 0 <= c.targetMinute <= 59
    && 1 <= c.windowMinutes <= 60 && TargetOffset(c) <= c.windowMinutes
  }

  /** What a schedule may be: any minute of any weekday, a window of up to an hour that reaches its target. */
  lemma ConfigsExactly(c: Config)
    ensures ConfigOk(c)
       <==> && c.weekday in {0, 1, 2, 3, 4, 5, 6} && 0 <= c.hour && c.hour < 24 && 0 <= c.minute && c.minute < 60
            && 0 <= c.targetMinute && c.targetMinute < 60 && 0 < c.windowMinutes && c.windowMinutes <= 60
            && (if c.minute <= c.targetMinute then c.targetMinute - c.minute else c.targetMinute + 60 - c.minute) <= c.windowMinutes
  {
  }

  function DayOf(t: Instant): Day {
    t / DAY
  }

  /** Monday is 0. */
  function Weekday(d: Day): int {
    (d + 3) % 7
  }

  /** `schedule_timestamps`: window start, target and end on a calendar date. */
  function WindowStart(c: Config, d: Day): Instant {
    d * DAY + (c.hour * 60 + c.minute) * MINUTE
  }

  function WindowTarget(c: Config, d: Day): Instant {
    WindowStart(c, d) + TargetOffset(c) * MINUTE
  }

  function WindowEnd(c: Config, d: Day): Instant {
    WindowStart(c, d) + c.windowMinutes * MINUTE
  }

  lemma WindowOrdered(c: Config, d: Day)
    requires ConfigOk(c)
    ensures DayOf(WindowStart(c, d)) == d
    ensures WindowStart(c, d) <= WindowTarget(c, d) <= WindowEnd(c, d)
    ensures WindowStart(c, d) < WindowEnd(c, d) && d * DAY <= WindowStart(c, d) < d * DAY + DAY
  {
  }

  /** `schedule_target_from_start`: a persisted key resolves exactly when it is the window start of its own date. */
  function TargetFromStart(c: Config, start: Instant): Option<Instant> {
    if start == WindowStart(c, DayOf(start)) then Some(WindowTarget(c, DayOf(start))) else None
  }

  lemma TargetRoundTrip(c: Config, start: Instant)
    requires ConfigOk(c)
    ensures TargetFromStart(c, start).Some? <==> exists d: Day :: start == WindowStart(c, d)
    ensures forall d: Day :: TargetFromStart(c, WindowStart(c, d)) == Some(WindowTarget(c, d))
  {
    forall d: Day
      ensures TargetFromStart(c, WindowStart(c, d)) == Some(WindowTarget(c, d))
    {
      WindowOrdered(c, d);
    }
  }

  /** `_scheduled_key`: on the schedule's weekday, inside the window. */
  function ScheduledKey(c: Config, now: Instant): Option<Instant> {
    var d := DayOf(now);
    if Weekday(d) == c.weekday && WindowStart(c, d) <= now <= WindowEnd(c, d) then Some(WindowStart(c, d)) else None
  }

  /** The calendar: day 0 was a Thursday, and weekdays follow each other round the week. */
  lemma WeekdaysFollow(d: Day)
    ensures Weekday(0) == 3 && 0 <= Weekday(d) < 7
    ensures Weekday(d + 1) == if Weekday(d) == 6 then 0 else Weekday(d) + 1
  {
  }

  /** The target is the first instant from the window start on at a whole minute whose minute of the hour is the target minute. */
  lemma TargetIsNextTargetMinute(c: Config, d: Day)
    requires ConfigOk(c)
    ensures var target := WindowTarget(c, d);
            && target % MINUTE == 0 && (target / MINUTE) % 60 == c.targetMinute
            && forall t :: WindowStart(c, d) <= t < target && t % MINUTE == 0 ==> (t / MINUTE) % 60 != c.targetMinute
  {
    var first := d * 1440 + c.hour * 60 + c.minute;
    assert WindowStart(c, d) == first * MINUTE && WindowTarget(c, d) == (first + TargetOffset(c)) * MINUTE;
    WholeMinute(first + TargetOffset(c));
    OffsetReaches(c, d * 24 + c.hour);
    forall t | WindowStart(c, d) <= t < WindowTarget(c, d) && t % MINUTE == 0
      ensures (t / MINUTE) % 60 != c.targetMinute
    {
      var k := t / MINUTE - first;
      assert t == (first + k) * MINUTE;
      WholeMinute(first + k);
      OffsetIsLeast(c, d * 24 + c.hour, k);
    }
  }

  lemma WholeMinute(n: int)
    ensures (n * MINUTE) % MINUTE == 0 && (n * MINUTE) / MINUTE == n
  {
  }

  lemma OffsetReaches(c: Config, hours: int)
    requires ConfigOk(c)
    ensures (hours * 60 + c.minute + TargetOffset(c)) % 60 == c.targetMinute && 0 <= TargetOffset(c) < 60
  {
  }

  lemma OffsetIsLeast(c: Config, hours: int, k: int)
    requires ConfigOk(c) && 0 <= k < TargetOffset(c)
    ensures (hours * 60 + c.minute + k) % 60 != c.targetMinute
  {
  }

  /** The key a run would claim, exactly: the start of a scheduled day's window that holds the instant, on that day. */
  lemma ScheduledKeyExactly(c: Config, now: Instant, key: Instant)
    requires ConfigOk(c)
    ensures ScheduledKey(c, now) == Some(key)
       <==> exists d: Day ::
              && Weekday(d) == c.weekday && d * DAY <= now < (d + 1) * DAY
              && key == d * DAY + c.hour * 60 * MINUTE + c.minute * MINUTE
              && key <= now <= key + c.windowMinutes * MINUTE
  {
    var today := DayOf(now);
    assert today * DAY <= now < (today + 1) * DAY;
    forall d: Day | d * DAY <= now < (d + 1) * DAY
      ensures d == today
    {
    }
    if ScheduledKey(c, now) == Some(key) {
      assert key == today * DAY + c.hour * 60 * MINUTE + c.minute * MINUTE;
    }
  }

  // ------------------------------------------------------------ closed windows

  /** A scheduled day, not before the start date, whose window closed before now. */
  predicate Closed(c: Config, start: Instant, now: Instant, d: Day) {
    DayOf(start) <= d && Weekday(d) == c.weekday && WindowEnd(c, d) < now
  }

  /** First scheduled weekday on or after a date. */
  function FirstDay(c: Config, d: Day): Day {
    d + (c.weekday - Weekday(d)) % 7
  }

  lemma FirstDayLeast(c: Config, d: Day)
    requires ConfigOk(c)
    ensures var f := FirstDay(c, d);
            && d <= f < d + 7 && Weekday(f) == c.weekday
            && forall e :: d <= e && Weekday(e) == c.weekday ==> f <= e && (e - f) % 7 == 0
  {
  }

  /** `_scheduled_mondays` from a scheduled day on. */
  function ClosedDays(c: Config, now: Instant, cursor: Day): seq<Day>
    decreases DayOf(now) - cursor
  {
    if cursor > DayOf(now) then []
    else (if now > WindowEnd(c, cursor) then [cursor] else []) + ClosedDays(c, now, cursor + 7)
  }

  lemma {:induction false} ClosedDaysAre(c: Config, now: Instant, cursor: Day)
    requires ConfigOk(c) && Weekday(cursor) == c.weekday
    ensures forall d :: d in ClosedDays(c, now, cursor) <==> cursor <= d && Weekday(d) == c.weekday && WindowEnd(c, d) < now
    ensures Increasing(ClosedDays(c, now, cursor))
    decreases DayOf(now) - cursor
  {
    if cursor <= DayOf(now) {
      ClosedDaysAre(c, now, cursor + 7);
      forall d
        ensures d in ClosedDays(c, now, cursor) <==> cursor <= d && Weekday(d) == c.weekday && WindowEnd(c, d) < now
      {
        SameWeekdayApart(cursor, d);
      }
      var rest := ClosedDays(c, now, cursor + 7);
      forall i | 0 <= i < |rest|
        ensures cursor < rest[i]
      {
        assert rest[i] in rest;
      }
    } else {
      forall d | cursor <= d && Weekday(d) == c.weekday
        ensures now <= WindowEnd(c, d)
      {
        WindowOrdered(c, d);
      }
    }
  }

  lemma SameWeekdayApart(a: Day, b: Day)
    ensures a < b && Weekday(a) == Weekday(b) ==> a + 7 <= b
  {
  }

  /** Exactly the closed windows, each once, in order: none before the start date, none still open, none missing. */
  lemma ClosedDaysExactly(c: Config, start: Instant, now: Instant)
    requires ConfigOk(c)
    ensures var days := ClosedDays(c, now, FirstDay(c, DayOf(start)));
            && (forall d :: d in days <==> Closed(c, start, now, d))
            && Increasing(days)
  {
    FirstDayLeast(c, DayOf(start));
    ClosedDaysAre(c, now, FirstDay(c, DayOf(start)));
  }

  // ------------------------------------------------------------------ recording

  datatype RunStatus =
    | Executed | RecoveredCommitted
    | DataQualityFailure | ReconciliationFailure | KillSwitchActivated | ExecutionError | ReleaseProvenanceFailure
    | Other

  /** A finished run that owns the window's key, and whether it has fills. */
  datatype CommittedRun = CommittedRun(status: RunStatus, filled: bool)

  datatype Outcome = MissedSchedule | PaperTradeCompleted | NoRebalance | FailedWith(status: RunStatus)

  function OutcomeOf(r: CommittedRun): Outcome {
    match r.status
    case Executed => if r.filled then PaperTradeCompleted else NoRebalance
    case RecoveredCommitted => if r.filled then PaperTradeCompleted else NoRebalance
    case Other => FailedWith(ExecutionError)
    case _ => FailedWith(r.status)
  }

  /** The window and incident tables, and the rows tying them to the active experiment. */
  datatype Tables = Tables(windows: map<Instant, Outcome>, incidents: seq<Instant>, linked: set<Instant>)

  /** Windows are linked only once they exist, so no insert of `record_missed_windows` collides. */
  predicate TablesOk(t: Tables) {
    t.linked <= t.windows.Keys
  }

  /** One closed window: left alone, classified from its run, or recorded as missed. */
  function RecordDay(c: Config, runs: map<Instant, CommittedRun>, t: Tables, d: Day): Tables {
    var key := WindowStart(c, d);
    if key in t.windows then t
    else if key in runs then t.(windows := t.windows[key := OutcomeOf(runs[key])], linked := t.linked + {key})
    else Tables(t.windows[key := MissedSchedule], t.incidents + [WindowTarget(c, d)], t.linked + {key})
  }

  function RecordDays(c: Config, runs: map<Instant, CommittedRun>, t: Tables, days: seq<Day>): Tables {
    if days == [] then t else RecordDay(c, runs, RecordDays(c, runs, t, days[..|days| - 1]), days[|days| - 1])
  }

  /** `record_missed_windows`. */
  function Recorded(c: Config, runs: map<Instant, CommittedRun>, t: Tables, start: Instant, now: Instant): Tables {
    RecordDays(c, runs, t, ClosedDays(c, now, FirstDay(c, DayOf(start))))
  }

  /** The outcome a window gets if it has none. */
  function Due(runs: map<Instant, CommittedRun>, key: Instant): Outcome {
    if key in runs then OutcomeOf(runs[key]) else MissedSchedule
  }

  lemma {:induction false} RecordDaysResult(c: Config, runs: map<Instant, CommittedRun>, t: Tables, days: seq<Day>)
    requires ConfigOk(c) && TablesOk(t)
    ensures var u := RecordDays(c, runs, t, days);
            && TablesOk(u)
            && (forall key :: key in u.windows <==> key in t.windows || exists d :: d in days && key == WindowStart(c, d))
            && (forall key :: key in t.windows ==> u.windows[key] == t.windows[key])
            && (forall key :: key in u.windows && key !in t.windows ==> u.windows[key] == Due(runs, key))
            && |t.incidents| <= |u.incidents| <= |t.incidents| + |days| && u.incidents[..|t.incidents|] == t.incidents
            && (forall i :: |t.incidents| <= i < |u.incidents| ==>
                  exists d :: d in days && WindowStart(c, d) !in t.windows && WindowStart(c, d) !in runs && u.incidents[i] == WindowTarget(c, d))
  {
    if days != [] {
      var n := |days| - 1;
      RecordDaysResult(c, runs, t, days[..n]);
      assert days == days[..n] + [days[n]];
      hide WindowStart, WindowTarget, ConfigOk;
      var v := RecordDays(c, runs, t, days[..n]);
      var u := RecordDays(c, runs, t, days);
      forall i | |t.incidents| <= i < |u.incidents|
        ensures exists d :: d in days && WindowStart(c, d) !in t.windows && WindowStart(c, d) !in runs && u.incidents[i] == WindowTarget(c, d)
      {
        if i < |v.incidents| {
          assert u.incidents[i] == v.incidents[i];
        } else {
          assert days[n] in days && u.incidents[i] == WindowTarget(c, days[n]);
        }
      }
    }
  }

  /** Targets of the windows that have neither a row nor a run. */
  function MissingTargets(c: Config, runs: map<Instant, CommittedRun>, t: Tables, days: seq<Day>): seq<Instant> {
    if days == [] then []
    else
      var d := days[|days| - 1];
      MissingTargets(c, runs, t, days[..|days| - 1])
      + (if WindowStart(c, d) !in t.windows && WindowStart(c, d) !in runs then [WindowTarget(c, d)] else [])
  }

  /** Over distinct days, exactly one incident for each missing window, in order. */
  lemma {:induction false} IncidentsAre(c: Config, runs: map<Instant, CommittedRun>, t: Tables, days: seq<Day>)
    requires ConfigOk(c) && TablesOk(t) && Increasing(days)
    ensures RecordDays(c, runs, t, days).incidents == t.incidents + MissingTargets(c, runs, t, days)
  {
    if days != [] {
      var n := |days| - 1;
      IncidentsAre(c, runs, t, days[..n]);
      RecordDaysResult(c, runs, t, days[..n]);
      hide WindowStart, WindowTarget, ConfigOk;
      forall d | d in days[..n]
        ensures WindowStart(c, d) != WindowStart(c, days[n])
      {
        StartsDiffer(c, d, days[n]);
      }
    }
  }

  lemma StartsDiffer(c: Config, d: Day, e: Day)
    requires d != e
    ensures WindowStart(c, d) != WindowStart(c, e)
  {
  }

  /**
   Completeness: afterwards there is exactly one row for each weekly window from
   the first scheduled weekday on or after the start date that closed before now,
   missed unless a run owns it; rows already there are untouched; each missed
   window has its one incident.
   */
  lemma RecordedExactly(c: Config, runs: map<Instant, CommittedRun>, t: Tables, start: Instant, now: Instant)
    requires ConfigOk(c) && TablesOk(t)
    ensures var u := Recorded(c, runs, t, start, now);
            && TablesOk(u)
            && (forall key :: key in u.windows <==> key in t.windows || ClosedKey(c, start, now, key))
            && (forall key :: key in t.windows ==> u.windows[key] == t.windows[key])
            && (forall key :: key in u.windows && key !in t.windows ==> u.windows[key] == Due(runs, key))
            && u.incidents == t.incidents + MissingTargets(c, runs, t, ClosedDays(c, now, FirstDay(c, DayOf(start))))
  {
    var days := ClosedDays(c, now, FirstDay(c, DayOf(start)));
    ClosedDaysExactly(c, start, now);
    hide WindowStart, WindowTarget, WindowEnd, ConfigOk, Weekday, FirstDay, ClosedDays, RecordDays, Closed;
    RecordDaysResult(c, runs, t, days);
    IncidentsAre(c, runs, t, days);
  }

  /** What a new row says, from the run that owns the window. */
  lemma OutcomeExactly(r: CommittedRun)
    ensures (OutcomeOf(r) == PaperTradeCompleted <==> r.filled && (r.status == Executed || r.status == RecoveredCommitted))
    ensures (OutcomeOf(r) == NoRebalance <==> !r.filled && (r.status == Executed || r.status == RecoveredCommitted))
    ensures (r.status == Other ==> OutcomeOf(r) == FailedWith(ExecutionError)) && OutcomeOf(r) != MissedSchedule
    ensures r.status !in {Executed, RecoveredCommitted, Other} ==> OutcomeOf(r) == FailedWith(r.status)
  {
  }

  /** Exactly the new rows are tied to the active experiment, beside those tied before. */
  lemma {:induction false} LinksAre(c: Config, runs: map<Instant, CommittedRun>, t: Tables, days: seq<Day>)
    ensures var u := RecordDays(c, runs, t, days);
            && (forall key :: key in t.windows ==> key in u.windows)
            && forall key :: key in u.linked <==> key in t.linked || (key in u.windows && key !in t.windows)
  {
    if days != [] {
      LinksAre(c, runs, t, days[..|days| - 1]);
    }
  }

  /** A window still open gets no row: above all not the one whose key a run would claim now. */
  lemma OpenWindowUntouched(c: Config, runs: map<Instant, CommittedRun>, t: Tables, start: Instant, now: Instant,
                            d: Day)
    requires ConfigOk(c) && TablesOk(t) && now <= WindowEnd(c, d) && WindowStart(c, d) !in t.windows
    ensures WindowStart(c, d) !in Recorded(c, runs, t, start, now).windows
  {
    RecordedExactly(c, runs, t, start, now);
    hide Recorded;
    forall e | Closed(c, start, now, e)
      ensures WindowStart(c, e) != WindowStart(c, d)
    {
      WindowOrdered(c, e);
      WindowOrdered(c, d);
    }
  }

  lemma ScheduledKeyUntouched(c: Config, runs: map<Instant, CommittedRun>, t: Tables, start: Instant, now: Instant,
                              key: Instant)
    requires ConfigOk(c) && TablesOk(t) && ScheduledKey(c, now) == Some(key) && key !in t.windows
    ensures key !in Recorded(c, runs, t, start, now).windows
  {
    OpenWindowUntouched(c, runs, t, start, now, DayOf(now));
  }

  /** A second call, whatever runs have finished since, adds nothing. */
  lemma SecondCallAddsNothing(c: Config, runs: map<Instant, CommittedRun>, later: map<Instant, CommittedRun>,
                              t: Tables, start: Instant, now: Instant)
    requires ConfigOk(c) && TablesOk(t)
    ensures var u := Recorded(c, runs, t, start, now);
            Recorded(c, later, u, start, now) == u
  {
    var days := ClosedDays(c, now, FirstDay(c, DayOf(start)));
    RecordDaysResult(c, runs, t, days);
    hide ClosedDays, FirstDay, WindowStart, WindowTarget, ConfigOk;
    AllPresent(c, later, Recorded(c, runs, t, start, now), days);
  }

  lemma {:induction false} AllPresent(c: Config, runs: map<Instant, CommittedRun>, u: Tables, days: seq<Day>)
    requires forall d :: d in days ==> WindowStart(c, d) in u.windows
    ensures RecordDays(c, runs, u, days) == u
  {
    hide WindowStart;
    if days != [] {
      var n := |days| - 1;
      AllPresent(c, runs, u, days[..n]);
      assert days[n] in days;
    }
  }

  /** Auditing often or once makes no difference to the windows: an earlier call only records early what a later one would. */
  lemma AuditingOftenIsTheSame(c: Config, runs: map<Instant, CommittedRun>, t: Tables, start: Instant,
                               earlier: Instant, now: Instant)
    requires ConfigOk(c) && TablesOk(t) && earlier <= now
    ensures Recorded(c, runs, Recorded(c, runs, t, start, earlier), start, now).windows == Recorded(c, runs, t, start, now).windows
  {
    hide Recorded, Due, Weekday, DayOf, ConfigOk, ClosedKey, MissingTargets, TablesOk, ClosedDays, FirstDay;
    RecordedExactly(c, runs, t, start, earlier);
    RecordedExactly(c, runs, t, start, now);
    var u, once := Recorded(c, runs, t, start, earlier), Recorded(c, runs, t, start, now);
    RecordedExactly(c, runs, u, start, now);
    var twice := Recorded(c, runs, u, start, now);
    forall key
      ensures key in twice.windows <==> key in once.windows
    {
      ClosedGrows(c, start, earlier, now, key);
    }
    assert twice.windows.Keys == once.windows.Keys;
    forall key | key in once.windows
      ensures twice.windows[key] == once.windows[key]
    {
      assert key in t.windows || once.windows[key] == Due(runs, key);
      assert key in u.windows || twice.windows[key] == Due(runs, key);
    }
    assert twice.windows == once.windows;
  }

  ghost predicate ClosedKey(c: Config, start: Instant, now: Instant, key: Instant) {
    exists d :: Closed(c, start, now, d) && key == WindowStart(c, d)
  }

  lemma ClosedGrows(c: Config, start: Instant, earlier: Instant, now: Instant, key: Instant)
    requires earlier <= now
    ensures ClosedKey(c, start, earlier, key) ==> ClosedKey(c, start, now, key)
  {
    if ClosedKey(c, start, earlier, key) {
      var d :| Closed(c, start, earlier, d) && key == WindowStart(c, d);
      assert Closed(c, start, now, d);
    }
  }

  // ------------------------------------------------------------------ as it runs

  class ForwardStore {
    var windows: map<Instant, Outcome>
    var incidents: seq<Instant>
    var linked: set<Instant>

    function View(): Tables
      reads this
    {
      Tables(windows, incidents, linked)
    }

    constructor ()
      ensures View() == Tables(map[], [], {}) && TablesOk(View())
    {
      windows, incidents, linked := map[], [], {};
    }

    /** One window of the loop; true when a missed row was created.  The linking insert never collides. */
    method RecordWindow(c: Config, runs: map<Instant, CommittedRun>, d: Day) returns (created: bool)
      requires TablesOk(View())
      modifies this
      ensures View() == RecordDay(c, runs, old(View()), d) && TablesOk(View())
      ensures |incidents| == |old(incidents)| + (if created then 1 else 0)
    {
      var key := WindowStart(c, d);
      if key in windows {
        return false;
      }
      if key in runs {
        windows := windows[key := OutcomeOf(runs[key])];
        linked := linked + {key};
        return false;
      }
      assert key !in linked;
      windows := windows[key := MissedSchedule];
      incidents := incidents + [WindowTarget(c, d)];
      linked := linked + {key};
      created := true;
    }

    /** `record_missed_windows`: step to the scheduled weekday, then week by week up to today. */
    method RecordMissedWindows(c: Config, runs: map<Instant, CommittedRun>, start: Instant,
                               now: Instant) returns (created: nat)
      requires ConfigOk(c) && TablesOk(View())
      modifies this
      ensures View() == Recorded(c, runs, old(View()), start, now) && TablesOk(View())
      ensures created == |incidents| - |old(incidents)|
    {
      created := 0;
      var cursor := DayOf(start);
      FirstDayLeast(c, cursor);
      while Weekday(cursor) != c.weekday
        invariant DayOf(start) <= cursor <= FirstDay(c, DayOf(start))
        decreases FirstDay(c, DayOf(start)) - cursor
      {
        cursor := cursor + 1;
      }
      ghost var first, done: seq<Day> := cursor, [];
      while cursor <= DayOf(now)
        invariant first == FirstDay(c, DayOf(start))
        invariant done + ClosedDays(c, now, cursor) == ClosedDays(c, now, first)
        invariant View() == RecordDays(c, runs, old(View()), done) && TablesOk(View())
        invariant created == |incidents| - |old(incidents)|
        decreases DayOf(now) - cursor
      {
        hide WindowStart, WindowEnd, WindowTarget, RecordDay;
        if now > WindowEnd(c, cursor) {
          assert (done + [cursor])[..|done|] == done;
          assert done + ClosedDays(c, now, cursor) == (done + [cursor]) + ClosedDays(c, now, cursor + 7);
          var missed := RecordWindow(c, runs, cursor);
          created := created + (if missed then 1 else 0);
          done := done + [cursor];
        }
        cursor := cursor + 7;
      }
      assert done == ClosedDays(c, now, first);
    }
  }
}
