/**
 One call of the notifier that nothing interrupts: the imperative form, what it computes, and that
 it is a run of the shared state machine. A run that a stall interrupts closes the file.
 */
module MonitorReport {
  import opened Options
  import opened Monitor
  import opened MonitorSafety
  import opened MonitorTheorems

  datatype Report = Report(file: Option<Notice>, lock: Option<Lock>, posts: seq<Post>, result: Result)

  /** What a call leaves behind, from what it found. */
  function Reported(
      file: Option<Notice>, lock: Option<Lock>, posts: seq<Post>, available: bool, now: int, choice: Choice): Report
  {
    if lock.Some? then
      Report(file, if lock.value.mtime < now - LEASE then None else lock, posts, BUSY)
    else if !choice.readable then
      Report(file, None, posts, Failed)
    else if file.None? && available then
      Report(file, None, posts, NOTHING_SENT)
    else
      var notice := if Replaces(file, available, now) then NextNotice(file, available, now, choice.eventId) else file.value;
      if !Ready(notice, now) || !choice.destination then
        Report(Some(notice), None, posts, NOTHING_SENT)
      else
        var reserved := Reserve(notice, now);
        Report(
          Some(if choice.accepted then reserved.(accepted := true) else reserved),
          None,
          posts + [Post(AttemptOf(reserved, now), now)],
          Answer(choice.accepted, false))
  }

  /** The directory that holds the state file and its lock. */
  class Volume {
    var file: Option<Notice>
    var lock: Option<Lock>
    var posts: seq<Post>

    constructor ()
      ensures file == None && lock == None && posts == []
    {
      file, lock, posts := None, None, [];
    }

    method Persist(notice: Notice, inode: nat, now: int) returns (written: bool)
      modifies this`file
      ensures written == (lock.Some? && lock.value.inode == inode && lock.value.mtime >= now - 600_000)
      ensures file == if written then Some(notice) else old(file)
    {
      written := lock.Some? && lock.value.inode == inode && lock.value.mtime >= now - LEASE;
      if written {
        file := Some(notice);
      }
    }

    method ReportAvailability(available: bool, now: int, choice: Choice) returns (result: Result)
      modifies this
      ensures Report(file, lock, posts, result)
           == Reported(old(file), old(lock), old(posts), available, now, choice)
    {
      if lock.Some? {
        if lock.value.mtime < now - LEASE {
          lock := None;
        }
        return BUSY;
      }
      lock := Some(Lock(choice.inode, now));
      result := Update(available, now, choice);
      lock := None;
    }

    method Update(available: bool, now: int, choice: Choice) returns (result: Result)
      requires lock == Some(Lock(choice.inode, now))
      modifies this`file, this`posts
      ensures Report(file, None, posts, result) == Reported(old(file), None, old(posts), available, now, choice)
    {
      if !choice.readable {
        return Failed;
      }
      var state := file;
      if state.None? && available {
        return NOTHING_SENT;
      }
      var written := true;
      if Replaces(state, available, now) {
        state := Some(NextNotice(state, available, now, choice.eventId));
        written := Persist(state.value, choice.inode, now);
      }
      if !Ready(state.value, now) {
        return NOTHING_SENT;
      }
      if !choice.destination {
        written := Persist(state.value, choice.inode, now);
        return NOTHING_SENT;
      }
      state := Some(Reserve(state.value, now));
      written := Persist(state.value, choice.inode, now);
      posts := posts + [Post(AttemptOf(state.value, now), now)];
      if choice.accepted {
        state := Some(state.value.(accepted := true));
        written := Persist(state.value, choice.inode, now);
      }
      result := Answer(choice.accepted, false);
    }
  }

  // ----- A call is a run -----

  lemma {:induction false} RunsJoin(w: World, moves: seq<Move>, more: seq<Move>)
    requires Legal(w, moves) && Legal(Run(w, moves), more)
    ensures Legal(w, moves + more) && Run(w, moves + more) == Run(Run(w, moves), more)
    ensures InTime(w, moves + more) <==> InTime(w, moves) && InTime(Run(w, moves), more)
    decreases |moves|
  {
    if moves == [] {
      assert moves + more == more;
    } else {
      assert (moves + more)[1..] == moves[1..] + more;
      RunsJoin(Apply(w, moves[0]), moves[1..], more);
    }
  }

  lemma ReachesItself(w: World)
    ensures ReachesInTime(w, w)
  {
    assert Legal(w, []) && InTime(w, []) && Run(w, []) == w;
  }

  lemma ReachesJoin(w: World, t: World, end: World)
    requires ReachesInTime(w, t) && ReachesInTime(t, end)
    ensures ReachesInTime(w, end)
  {
    var moves :| Legal(w, moves) && InTime(w, moves) && Run(w, moves) == t;
    var more :| Legal(t, more) && InTime(t, more) && Run(t, more) == end;
    RunsJoin(w, moves, more);
  }

  lemma ReachesNext(w: World, t: World, move: Move) returns (next: World)
    requires ReachesInTime(w, t) && Enabled(t, move) && (move.Invoke? ==> move.now == t.clock)
    ensures next == Apply(t, move) && ReachesInTime(w, next)
  {
    OneMove(t, move);
    next := Apply(t, move);
    assert [move][1..] == [] && InTime(t, [move]);
    ReachesJoin(w, t, next);
  }

  lemma ReachedIsSound(clock: int, w: World)
    requires Reaches(Start(clock), w)
    ensures Invariant(w)
  {
    var moves :| Legal(Start(clock), moves) && Run(Start(clock), moves) == w;
    RunKeepsInvariant(Start(clock), moves);
  }

  /** The world as the call `pid` leaves it: file, lock and posts as reported, the caller told, all else as before. */
  ghost predicate LeftAs(w: World, end: World, pid: nat, r: Report) {
    && end.file == r.file && end.lock == r.lock && end.posts == r.posts && end.told == w.told + [Told(pid, r.result)]
    && end.running == w.running && end.clock == w.clock
  }

  /** A call whose process, inode and identifier are new. */
  predicate IsNew(w: World, pid: nat, choice: Choice) {
    pid !in w.running && HandleFree(w, choice.inode) && choice.eventId !in w.usedIds
  }

  /** The world that only this one invocation has moved on in, and that holds its lock. */
  ghost predicate HoldsAlone(w: World, t: World, pid: nat, p: Invocation, inode: nat) {
    t == w.(file := t.file, lock := Some(Lock(inode, w.clock)), running := w.running[pid := p],
      usedIds := t.usedIds, events := t.events, reserved := t.reserved, posts := t.posts, acceptedIds := t.acceptedIds)
  }

  lemma CleanupLeaves(w: World, t: World, pid: nat, p: Invocation, inode: nat, choice: Choice) returns (end: World)
    requires ReachesInTime(w, t) && pid !in w.running && p.stage.Closing? && p.stage.inode == inode && HoldsAlone(w, t, pid, p, inode)
    ensures ReachesInTime(w, end) && LeftAs(w, end, pid, Report(t.file, None, t.posts, p.stage.result))
  {
    end := ReachesNext(w, t, Advance(pid, choice));
    end := ReachesNext(w, end, Advance(pid, choice));
    end := ReachesNext(w, end, Advance(pid, choice));
    assert end.running == w.running;
  }

  /** With the lock path free a call creates the lock and reads the file. */
  lemma EntryReads(w: World, pid: nat, available: bool, choice: Choice) returns (t: World)
    requires w.lock.None? && IsNew(w, pid, choice)
    ensures ReachesInTime(w, t)
    ensures t == w.(
      lock := Some(Lock(choice.inode, w.clock)),
      running := w.running[pid := Invocation(available, w.clock,
        if choice.readable then Deciding(choice.inode, w.file) else Closing(choice.inode, Failed))])
  {
    ReachesItself(w);
    t := ReachesNext(w, w, Invoke(pid, available, w.clock));
    t := ReachesNext(w, t, Advance(pid, choice));
    t := ReachesNext(w, t, Advance(pid, choice));
  }

  lemma CallDelivers(w: World, t: World, pid: nat, available: bool, notice: Notice, choice: Choice) returns (end: World)
    requires ReachesInTime(w, t) && pid !in w.running && t.file == Some(notice)
    requires HoldsAlone(w, t, pid, Invocation(available, w.clock, Checking(choice.inode, notice)), choice.inode)
    ensures ReachesInTime(w, end)
    ensures LeftAs(w, end, pid,
      if !Ready(notice, w.clock) || !choice.destination then Report(Some(notice), None, t.posts, NOTHING_SENT)
      else
        var reserved := Reserve(notice, w.clock);
        Report(
          Some(if choice.accepted then reserved.(accepted := true) else reserved), None,
          t.posts + [Post(AttemptOf(reserved, w.clock), w.clock)], Answer(choice.accepted, false)))
  {
    end := ReachesNext(w, t, Advance(pid, choice));
    if Ready(notice, w.clock) && choice.destination {
      end := CallSends(w, end, pid, available, Reserve(notice, w.clock), choice);
    } else {
      end := CleanupLeaves(w, end, pid, end.running[pid], choice.inode, choice);
    }
  }

  lemma CallSends(w: World, t: World, pid: nat, available: bool, reserved: Notice, choice: Choice) returns (end: World)
    requires ReachesInTime(w, t) && pid !in w.running && t.file == Some(reserved)
    requires HoldsAlone(w, t, pid, Invocation(available, w.clock, Posting(choice.inode, reserved)), choice.inode)
    ensures ReachesInTime(w, end)
    ensures LeftAs(w, end, pid, Report(
      Some(if choice.accepted then reserved.(accepted := true) else reserved), None,
      t.posts + [Post(AttemptOf(reserved, w.clock), w.clock)], Answer(choice.accepted, false)))
  {
    end := ReachesNext(w, t, Advance(pid, choice));
    if choice.accepted {
      end := ReachesNext(w, end, Advance(pid, choice));
    }
    end := CleanupLeaves(w, end, pid, end.running[pid], choice.inode, choice);
  }

  /** A call that finds a lock removes one that expired, leaves a live one, and is told that it is busy. */
  lemma BusyCall(w: World, pid: nat, available: bool, choice: Choice) returns (end: World)
    requires w.lock.Some? && pid !in w.running
    ensures ReachesInTime(w, end)
    ensures LeftAs(w, end, pid, Reported(w.file, w.lock, w.posts, available, w.clock, choice))
  {
    ReachesItself(w);
    end := ReachesNext(w, w, Invoke(pid, available, w.clock));
    end := ReachesNext(w, end, Advance(pid, choice));
    end := ReachesNext(w, end, Advance(pid, choice));
    if w.lock.value.mtime < w.clock - LEASE {
      end := ReachesNext(w, end, Advance(pid, choice));
    }
    assert end.running == w.running;
  }

  /** A call that finds the path free. */
  lemma FreeCall(w: World, pid: nat, available: bool, choice: Choice) returns (end: World)
    requires w.lock.None? && IsNew(w, pid, choice)
    ensures ReachesInTime(w, end)
    ensures LeftAs(w, end, pid, Reported(w.file, None, w.posts, available, w.clock, choice))
  {
    end := EntryReads(w, pid, available, choice);
    if !choice.readable || (w.file.None? && available) {
      if choice.readable {
        end := ReachesNext(w, end, Advance(pid, choice));
      }
      end := CleanupLeaves(w, end, pid, end.running[pid], choice.inode, choice);
    } else {
      var notice :=
        if Replaces(w.file, available, w.clock) then NextNotice(w.file, available, w.clock, choice.eventId) else w.file.value;
      end := ReachesNext(w, end, Advance(pid, choice));
      end := CallDelivers(w, end, pid, available, notice, choice);
    }
  }

  /**
   Whoever else is running and whatever lock it finds, an uninterrupted call is a run of the state machine
   that leaves file, lock and posts as the imperative form does, and tells its caller the same.
   */
  lemma CallIsARun(w: World, pid: nat, available: bool, choice: Choice)
    requires IsNew(w, pid, choice)
    ensures exists end ::
      ReachesInTime(w, end) && LeftAs(w, end, pid, Reported(w.file, w.lock, w.posts, available, w.clock, choice))
  {
    var end: World;
    if w.lock.Some? {
      end := BusyCall(w, pid, available, choice);
    } else {
      end := FreeCall(w, pid, available, choice);
    }
  }

  /**
   The answer says what happened: busy exactly for a lock that is there, which goes exactly if it is older
   than ten minutes; a failure exactly for a file that cannot be read; and accepted exactly if the notice
   was posted now and its receiver accepted it, which is then saved.
   */
  lemma AnswerSaysWhatHappened(
      file: Option<Notice>, lock: Option<Lock>, posts: seq<Post>, available: bool, now: int, choice: Choice)
    ensures var r := Reported(file, lock, posts, available, now, choice);
      && (r.result == Answer(false, true) <==> lock.Some?)
      && (r.lock == None <==> lock.Some? ==> lock.value.mtime < now - 600_000) && (r.lock.Some? ==> r.lock == lock)
      && (r.result == Failed <==> lock == None && !choice.readable)
      && (r.result == Answer(true, false) <==>
          |r.posts| == |posts| + 1 && choice.accepted && r.file.Some? && r.file.value.accepted && r.file.value.eventId == r.posts[|posts|].attempt.eventId)
      && (|r.posts| > |posts| ==> r.posts[..|posts|] == posts && r.posts[|posts|].sentAt == r.posts[|posts|].attempt.observedAt == now && choice.destination)
      && (r.result == Failed || r.result == Answer(false, true) ==> r.file == file && r.posts == posts)
  {
  }

  // ----- A call that stalls -----

  /**
   An invocation that stalls between its reservation and its request for longer than the lease:
   attempt 1 is sent after attempt 2 of the same event was sent, accepted and saved as accepted.
   */
  lemma StalledAttemptIsSentAfterAcceptance()
    ensures exists w :: ReachesInTime(Start(0), w) && SentLate(w)
  {
    var c1, c2 := Choice(1, 1, true, true, true), Choice(2, 2, true, true, true);
    var w, first := FirstReservation(c1);
    w := ReachesNext(Start(0), w, Pass(LEASE + 60 * SECOND));
    w := EvictStale(Start(0), w, 2, c2);
    w := SecondAttempt(Start(0), w, first, c2);
    w := ReachesNext(Start(0), w, Advance(1, c1));
    assert w.posts == [Post(Attempt(1, 2, LEASE + 60 * SECOND, Opened), LEASE + 60 * SECOND),
                       Post(Attempt(1, 1, 0, Opened), LEASE + 60 * SECOND)];
    assert SentLate(w);
  }

  /** An invocation of time 0 reserves attempt 1, and stops before its request. */
  lemma FirstReservation(choice: Choice) returns (w: World, first: Notice)
    requires choice == Choice(1, 1, true, true, true)
    ensures ReachesInTime(Start(0), w) && first == Notice(true, 1, Opened, 1, 120 * SECOND, 0, false, 0)
    ensures w.running == map[1 := Invocation(false, 0, Posting(1, first))] && w.usedIds == {1}
    ensures w.lock == Some(Lock(1, 0)) && w.file == Some(first) && w.posts == [] && w.clock == 0
  {
    CapNeverBinds(1);
    w := EntryReads(Start(0), 1, false, choice);
    w := ReachesNext(Start(0), w, Advance(1, choice));
    w := ReachesNext(Start(0), w, Advance(1, choice));
    first := w.file.value;
  }

  predicate SentLate(w: World) {
    && |w.posts| == 2
    && w.posts[0].attempt.eventId == w.posts[1].attempt.eventId && w.posts[0].attempt.eventId in w.acceptedIds
    && w.posts[0].attempt.number == 2 && w.posts[1].attempt.number == 1
    && w.posts[1].sentAt == w.posts[0].sentAt
  }

  /** A call that finds an expired lease removes it and leaves. */
  lemma EvictStale(origin: World, w: World, pid: nat, choice: Choice) returns (t: World)
    requires ReachesInTime(origin, w) && pid !in w.running && w.lock.Some? && w.lock.value.mtime < w.clock - LEASE
    ensures ReachesInTime(origin, t) && t == w.(lock := None, told := t.told)
  {
    t := ReachesNext(origin, w, Invoke(pid, false, w.clock));
    t := ReachesNext(origin, t, Advance(pid, choice));
    t := ReachesNext(origin, t, Advance(pid, choice));
    t := ReachesNext(origin, t, Advance(pid, choice));
    assert t.running == w.running;
  }

  /** With the lock gone, another call reserves, sends and saves acceptance of the next attempt. */
  lemma SecondAttempt(origin: World, w: World, first: Notice, choice: Choice) returns (t: World)
    requires ReachesInTime(origin, w) && w.running == map[1 := Invocation(false, 0, Posting(1, first))] && w.lock == None
    requires w.clock == LEASE + 60 * SECOND && choice == Choice(2, 2, true, true, true)
    requires first == Notice(true, 1, Opened, 1, 120 * SECOND, 0, false, 0)
    requires w.file == Some(first) && choice.eventId !in w.usedIds && w.posts == []
    ensures ReachesInTime(origin, t) && 1 in t.running && t.running[1] == w.running[1] && t.clock == w.clock
    ensures t.posts == [Post(Attempt(1, 2, w.clock, Opened), w.clock)] && 1 in t.acceptedIds
  {
    t := SecondReads(origin, w, first, choice);
    t := ReachesNext(origin, t, Advance(3, choice));
    t := ReachesNext(origin, t, Advance(3, choice));
    t := ReachesNext(origin, t, Advance(3, choice));
  }

  lemma SecondReads(origin: World, w: World, first: Notice, choice: Choice) returns (t: World)
    requires ReachesInTime(origin, w) && w.running == map[1 := Invocation(false, 0, Posting(1, first))] && w.lock == None
    requires w.clock == LEASE + 60 * SECOND && choice == Choice(2, 2, true, true, true)
    requires first == Notice(true, 1, Opened, 1, 120 * SECOND, 0, false, 0)
    requires w.file == Some(first) && choice.eventId !in w.usedIds
    ensures ReachesInTime(origin, t)
    ensures t == w.(lock := Some(Lock(2, w.clock)), running := w.running[3 := Invocation(false, w.clock, Checking(2, first))])
  {
    t := ReachesNext(origin, w, Invoke(3, false, w.clock));
    t := ReachesNext(origin, t, Advance(3, choice));
    t := ReachesNext(origin, t, Advance(3, choice));
    t := ReachesNext(origin, t, Advance(3, choice));
  }
}
