/** A run of three calls in which a new outage is announced as a reminder. */
module MonitorRuns {
  import opened Options
  import opened Monitor
  import opened MonitorReport
  import opened MonitorEarly

  /** A call that posts what it reports, and is not answered. */
  lemma Call(w: World, available: bool) returns (end: World, choice: Choice)
    requires w.lock.None?
    ensures ReachesInTime(w, end) && end.lock.None? && end.clock == w.clock
    ensures choice.readable && choice.destination && !choice.accepted
    ensures Report(end.file, None, end.posts, NOTHING_SENT) ==
      Reported(w.file, None, w.posts, available, w.clock, choice).(result := NOTHING_SENT)
  {
    var pid: nat;
    pid, choice := New(w);
    end := FreeCall(w, pid, available, choice);
  }

  /** An outage and its recovery, announced at time 0. */
  lemma OutageAndRecovery() returns (t: World)
    ensures ReachesInTime(Start(0), t) && t.lock.None? && t.clock == 0
    ensures t.file.Some? && !t.file.value.unavailable && t.file.value.lastReminderAt == 0
  {
    var choice: Choice;
    t, choice := Call(Start(0), false);
    assert t.file.value.unavailable && t.file.value.attempts == 1;
    var r: World;
    r, choice := Call(t, true);
    ReachesJoin(Start(0), t, r);
    t := r;
  }

  /** A day later a new outage opens, and its notice says that it is a reminder. */
  lemma NewOutageIsAReminder() returns (before: World, end: World)
    ensures ReachesInTime(Start(0), before) && before.file.Some? && !before.file.value.unavailable
    ensures ReachesInTime(before, end) && end.file.Some? && end.file.value.unavailable
    ensures end.file.value.kind.Reminder? && end.file.value.openedAt == end.clock == before.clock + DAY
    ensures end.posts != [] && end.posts[|end.posts| - 1].attempt.kind.Reminder?
  {
    before := OutageAndRecovery();
    ReachesItself(before);
    var later := ReachesNext(before, before, Pass(DAY));
    var choice: Choice;
    end, choice := Call(later, false);
    ReachesJoin(before, later, end);
  }
}
