/** The runs that send an attempt early, and the exact condition for one to exist. */
module MonitorEarly {
  import opened Options
  import opened Monitor
  import opened MonitorSafety
  import opened MonitorTheorems
  import opened MonitorReport
  import opened MonitorSpacing

  lemma {:induction false} Above(s: set<nat>) returns (n: nat)
    ensures forall x :: x in s ==> x < n
    decreases |s|
  {
    n := 0;
    if s != {} {
      var x :| x in s;
      var m := Above(s - {x});
      n := if x < m then m else x + 1;
      assert forall y :: y in s ==> y == x || y in s - {x};
    }
  }

  /** A new process, a new inode and a new identifier. */
  lemma New(w: World) returns (pid: nat, choice: Choice)
    ensures pid !in w.running && HandleFree(w, choice.inode) && choice.eventId !in w.usedIds
    ensures choice.readable && choice.destination && !choice.accepted
  {
    pid := Above(w.running.Keys);
    var handles := set p | p in w.running && Handle(w.running[p].stage).Some? :: Handle(w.running[p].stage).value;
    var inode := Above(handles);
    forall p | p in w.running ensures Handle(w.running[p].stage) != Some(inode) {
      assert Handle(w.running[p].stage).Some? ==> Handle(w.running[p].stage).value in handles;
    }
    var eventId := Above(w.usedIds);
    choice := Choice(inode, eventId, true, true, false);
  }

  const IDLE := Choice(0, 0, false, false, false)

  // ----- The lock path is freed -----

  /** The world with the lock path free and nothing else that matters here changed. */
  ghost predicate FreedFrom(w: World, t: World) {
    t.lock.None? && t.file == w.file && t.posts == w.posts && t.clock == w.clock && OpenersStay(w, t)
  }

  /** Whoever has yet to open the lock path still has. */
  ghost predicate OpenersStay(w: World, t: World) {
    forall pid :: pid in w.running && w.running[pid].stage.Opening? ==> pid in t.running && t.running[pid] == w.running[pid]
  }

  lemma RemoverFrees(o: World, w: World, pid: nat) returns (t: World)
    requires ReachesInTime(o, w) && pid in w.running && Removes(w.running[pid])
    ensures ReachesInTime(o, t) && FreedFrom(w, t)
  {
    t := ReachesNext(o, w, Advance(pid, IDLE));
  }

  lemma ComparerFrees(o: World, w: World, pid: nat, inode: nat) returns (t: World)
    requires ReachesInTime(o, w) && pid in w.running && LockIs(w, inode) && w.running[pid].stage.Comparing? && w.running[pid].stage.inode == inode
    ensures ReachesInTime(o, t) && FreedFrom(w, t)
  {
    t := ReachesNext(o, w, Advance(pid, IDLE));
    t := RemoverFrees(o, t, pid);
  }

  lemma CloserFrees(o: World, w: World, pid: nat, inode: nat) returns (t: World)
    requires ReachesInTime(o, w) && pid in w.running && LockIs(w, inode) && w.running[pid].stage.Closing? && w.running[pid].stage.inode == inode
    ensures ReachesInTime(o, t) && FreedFrom(w, t)
  {
    t := ReachesNext(o, w, Advance(pid, IDLE));
    t := ComparerFrees(o, t, pid, inode);
  }

  lemma ReaderFrees(o: World, w: World, pid: nat, inode: nat) returns (t: World)
    requires ReachesInTime(o, w) && pid in w.running && LockIs(w, inode) && w.running[pid].stage == Reading(inode)
    ensures ReachesInTime(o, t) && FreedFrom(w, t)
  {
    t := ReachesNext(o, w, Advance(pid, IDLE));
    t := CloserFrees(o, t, pid, inode);
  }

  /** An invocation without a destination stores what it read and leaves. */
  lemma CheckerFrees(o: World, w: World, pid: nat, inode: nat, f: Notice) returns (t: World)
    requires ReachesInTime(o, w) && pid in w.running && LockIs(w, inode) && w.running[pid].stage == Checking(inode, f)
    requires w.file == Some(f)
    ensures ReachesInTime(o, t) && FreedFrom(w, t)
  {
    t := ReachesNext(o, w, Advance(pid, IDLE));
    t := CloserFrees(o, t, pid, inode);
  }

  lemma DeciderFrees(o: World, w: World, pid: nat, inode: nat, f: Notice) returns (t: World)
    requires ReachesInTime(o, w) && pid in w.running && LockIs(w, inode) && w.running[pid].stage == Deciding(inode, Some(f))
    requires w.file == Some(f) && !Replaces(Some(f), w.running[pid].available, w.running[pid].now)
    ensures ReachesInTime(o, t) && FreedFrom(w, t)
  {
    var eventId := Above(w.usedIds);
    t := ReachesNext(o, w, Advance(pid, IDLE.(eventId := eventId)));
    t := CheckerFrees(o, t, pid, inode, f);
  }

  lemma HolderFrees(w: World, f: Notice, pid: nat) returns (t: World)
    requires Invariant(w) && w.file == Some(f) && w.lock.Some? && pid in w.running
    requires LetsGo(w.running[pid], w.lock.value.inode)
    ensures ReachesInTime(w, t) && FreedFrom(w, t)
  {
    var inode := w.lock.value.inode;
    ReachesItself(w);
    match w.running[pid].stage {
      case Reading(_) => t := ReaderFrees(w, w, pid, inode);
      case Deciding(_, known) =>
        assert KnowsAtPath(w.running[pid].stage, w.lock);
        t := DeciderFrees(w, w, pid, inode, f);
      case Checking(_, notice) =>
        assert KnowsAtPath(w.running[pid].stage, w.lock);
        t := CheckerFrees(w, w, pid, inode, f);
      case Closing(_, _) => t := CloserFrees(w, w, pid, inode);
      case Comparing(_, _) => t := ComparerFrees(w, w, pid, inode);
    }
  }

  /** The lease is waited for, if it has not run out, and the file removed. */
  lemma LeaseFrees(w: World) returns (t: World)
    requires w.lock.Some?
    ensures ReachesInTime(w, t) && t.lock.None? && t.file == w.file && t.posts == w.posts && OpenersStay(w, t)
    ensures t.clock == w.clock || t.clock == w.lock.value.mtime + LEASE + 1
  {
    var pid, choice := New(w);
    ReachesItself(w);
    t := w;
    if w.clock <= w.lock.value.mtime + LEASE {
      t := ReachesNext(w, w, Pass(w.lock.value.mtime + LEASE + 1 - w.clock));
    }
    t := EvictStale(w, t, pid, choice);
  }

  lemma PathIsFreed(w: World, f: Notice, deadline: int) returns (t: World)
    requires Invariant(w) && w.file == Some(f) && FreeInTime(w, deadline) && w.clock < deadline
    ensures ReachesInTime(w, t) && t.lock.None? && t.file == w.file && t.posts == w.posts && t.clock < deadline
    ensures OpenersStay(w, t)
    ensures w.lock.None? ==> t == w
  {
    ReachesItself(w);
    if w.lock.None? {
      t := w;
    } else if pid :| pid in w.running && Removes(w.running[pid]) {
      t := RemoverFrees(w, w, pid);
    } else if pid :| pid in w.running && LetsGo(w.running[pid], w.lock.value.inode) {
      t := HolderFrees(w, f, pid);
    } else {
      t := LeaseFrees(w);
    }
  }

  // ----- The next attempt is sent -----

  /** The world with the next attempt sent now, by an invocation of this time. */
  predicate SentNow(w: World, t: World, f: Notice, observedAt: int) {
    t.posts == w.posts + [Post(Attempt(f.eventId, f.attempts + 1, observedAt, f.kind), w.clock)]
  }

  lemma CheckerSends(o: World, w: World, f: Notice, pid: nat, inode: nat, choice: Choice) returns (t: World)
    requires ReachesInTime(o, w) && pid in w.running && w.running[pid].stage == Checking(inode, f)
    requires Ready(f, w.running[pid].now) && StillOwned(w, inode) && choice.destination
    ensures ReachesInTime(o, t) && SentNow(w, t, f, w.running[pid].now)
  {
    t := ReachesNext(o, w, Advance(pid, choice));
    t := ReachesNext(o, t, Advance(pid, choice));
  }

  lemma DeciderSends(o: World, w: World, f: Notice, pid: nat, inode: nat, choice: Choice) returns (t: World)
    requires ReachesInTime(o, w) && pid in w.running && MayRetry(w.running[pid], f) && !f.accepted && f.attempts < MAX_ATTEMPTS
    requires w.running[pid].stage == Deciding(inode, Some(f)) && StillOwned(w, inode)
    requires choice.destination && choice.eventId !in w.usedIds
    ensures ReachesInTime(o, t) && SentNow(w, t, f, w.running[pid].now)
  {
    t := ReachesNext(o, w, Advance(pid, choice));
    t := CheckerSends(o, t, f, pid, inode, choice);
  }

  lemma ReaderSends(o: World, w: World, f: Notice, pid: nat, inode: nat, choice: Choice) returns (t: World)
    requires ReachesInTime(o, w) && pid in w.running && MayRetry(w.running[pid], f) && !f.accepted && f.attempts < MAX_ATTEMPTS
    requires w.file == Some(f) && w.running[pid].stage == Reading(inode) && StillOwned(w, inode)
    requires choice.readable && choice.destination && choice.eventId !in w.usedIds
    ensures ReachesInTime(o, t) && SentNow(w, t, f, w.running[pid].now)
  {
    t := ReachesNext(o, w, Advance(pid, choice));
    t := DeciderSends(o, t, f, pid, inode, choice);
  }

  lemma OpenerSends(o: World, w: World, f: Notice, pid: nat) returns (t: World)
    requires ReachesInTime(o, w) && pid in w.running && MayRetry(w.running[pid], f) && !f.accepted && f.attempts < MAX_ATTEMPTS
    requires w.file == Some(f) && w.running[pid].stage.Opening? && w.lock.None?
    ensures ReachesInTime(o, t) && SentNow(w, t, f, w.running[pid].now)
  {
    var other, choice := New(w);
    t := ReachesNext(o, w, Advance(pid, choice));
    t := ReaderSends(o, t, f, pid, choice.inode, choice);
  }

  /** With the path free, a call that is made once the next attempt is due sends it, unless a reminder is due then. */
  lemma NextCanBeSent(o: World, w: World, f: Notice) returns (t: World, later: Post)
    requires ReachesInTime(o, w) && w.lock.None? && w.file == Some(f) && !f.accepted && f.attempts < MAX_ATTEMPTS
    requires !ReminderDue(Some(f), !f.unavailable, Earliest(w, f))
    ensures ReachesInTime(o, t) && later in t.posts && IsNext(later, f)
    ensures later.sentAt == later.attempt.observedAt == Earliest(w, f)
  {
    var pid: nat;
    t, pid := NewCallComes(o, w, f);
    later := Post(Attempt(f.eventId, f.attempts + 1, t.clock, f.kind), t.clock);
    t := OpenerSends(o, t, f, pid);
  }

  /** A call is made once the event is due. */
  lemma NewCallComes(o: World, w: World, f: Notice) returns (t: World, pid: nat)
    requires ReachesInTime(o, w)
    ensures ReachesInTime(o, t) && pid !in w.running && t.clock == Earliest(w, f)
    ensures t == w.(clock := t.clock, running := w.running[pid := Invocation(!f.unavailable, t.clock, Opening)])
  {
    t := w;
    if w.clock < f.nextAttemptAt {
      t := ReachesNext(o, w, Pass(f.nextAttemptAt - w.clock));
    }
    var choice: Choice;
    pid, choice := New(t);
    t := ReachesNext(o, t, Invoke(pid, !f.unavailable, t.clock));
  }

  // ----- Exactly when -----

  lemma {:induction false} PostsGrow(w: World, moves: seq<Move>, post: Post)
    requires Legal(w, moves) && post in w.posts
    ensures post in Run(w, moves).posts
    decreases |moves|
  {
    if moves != [] {
      PostStays(w, moves[0], post);
      PostsGrow(Apply(w, moves[0]), moves[1..], post);
    }
  }

  lemma PostStays(w: World, move: Move, post: Post)
    requires Enabled(w, move) && post in w.posts
    ensures post in Apply(w, move).posts
  {
    if move.Advance? && !w.running[move.pid].stage.Posting? {
      PostsStay(w, move.pid, move.choice);
    }
  }

  /** Whatever stands in the way blocks: then no run sends the next attempt before the deadline. */
  lemma EarlyNeedsAWay(w: World, f: Notice, post: Post, moves: seq<Move>)
    requires Invariant(w) && Waits(w, f, post) && Legal(w, moves) && SendsNextEarly(Run(w, moves), f, post)
    ensures w.clock < Deadline(post) && FreeInTime(w, Deadline(post)) && !ReminderComesFirst(f)
  {
    NextIsUnreserved(w, f, post);
    if w.clock >= Deadline(post) || !FreeInTime(w, Deadline(post)) || ReminderComesFirst(f) {
      assert Blocked(w, f, post);
      BlockedSendsNothingEarly(w, f, post, moves);
    }
  }

  lemma EarlyNeedsADelay(w: World, f: Notice, post: Post, moves: seq<Move>)
    requires Invariant(w) && Waits(w, f, post) && Legal(w, moves) && SendsNextEarly(Run(w, moves), f, post)
    ensures post.attempt.observedAt < post.sentAt
  {
    var t := Run(w, moves);
    RunKeepsInvariant(w, moves);
    PostsGrow(w, moves, post);
    var later :| later in t.posts && IsNext(later, f) && later.sentAt < Deadline(post);
    PostsAreSpaced(t, post, later);
    CapNeverBinds(f.attempts);
  }

  /** An invocation that has yet to open the lock path sends the next attempt, once the path is freed. */
  lemma OpenerCanSend(w: World, f: Notice, post: Post, pid: nat)
    requires Invariant(w) && Waits(w, f, post) && w.clock < Deadline(post) && FreeInTime(w, Deadline(post))
    requires pid in w.running && MayRetry(w.running[pid], f) && w.running[pid].stage.Opening?
    ensures CanSendNextEarlyInTime(w, f, post)
  {
    var t := PathIsFreed(w, f, Deadline(post));
    var end := OpenerSends(w, t, f, pid);
    SentNowIsEarly(w, t, end, f, post, w.running[pid].now);
  }

  lemma SentNowIsEarly(w: World, t: World, end: World, f: Notice, post: Post, observedAt: int)
    requires t.clock < Deadline(post) && ReachesInTime(w, end) && SentNow(t, end, f, observedAt)
    ensures CanSendNextEarlyInTime(w, f, post)
  {
    var later := Post(Attempt(f.eventId, f.attempts + 1, observedAt, f.kind), t.clock);
    assert later in end.posts && IsNext(later, f);
    var moves :| Legal(w, moves) && InTime(w, moves) && Run(w, moves) == end;
  }

  /** The owner of the lock sends it without delay. */
  lemma OwnerCanSend(w: World, f: Notice, post: Post, pid: nat)
    requires Invariant(w) && Waits(w, f, post) && w.clock < Deadline(post)
    requires pid in w.running && MayRetry(w.running[pid], f) && OnItsWay(w, w.running[pid]) && !w.running[pid].stage.Opening?
    ensures CanSendNextEarlyInTime(w, f, post)
  {
    ReachesItself(w);
    var other, choice := New(w);
    var end: World;
    assert KnowsAtPath(w.running[pid].stage, w.lock) ==> Known(w.running[pid].stage) == Some(w.file);
    match w.running[pid].stage {
      case Reading(inode) => end := ReaderSends(w, w, f, pid, inode, choice);
      case Deciding(inode, _) => end := DeciderSends(w, w, f, pid, inode, choice);
      case Checking(inode, _) => end := CheckerSends(w, w, f, pid, inode, choice);
    }
    SentNowIsEarly(w, w, end, f, post, w.running[pid].now);
  }

  /** What leads to a world from which the next attempt can be sent early can itself. */
  lemma EarlyFromHere(w: World, moves: seq<Move>, f: Notice, post: Post)
    requires Legal(w, moves) && CanSendNextEarlyInTime(Run(w, moves), f, post)
    ensures CanSendNextEarly(w, f, post) && (InTime(w, moves) ==> CanSendNextEarlyInTime(w, f, post))
  {
    var t := Run(w, moves);
    var more :| Legal(t, more) && InTime(t, more) && SendsNextEarly(Run(t, more), f, post);
    RunsJoin(w, moves, more);
  }

  lemma NewCallStaysInTime(w: World, t: World, f: Notice, post: Post, p: Invocation, pid: nat)
    requires Waits(w, f, post) && FreeInTime(w, Deadline(post)) && pid !in w.running
    requires t == w.(clock := t.clock, running := w.running[pid := p])
    ensures Waits(t, f, post) && FreeInTime(t, Deadline(post))
  {
    assert forall other :: other in w.running ==> other in t.running && t.running[other] == w.running[other];
  }

  lemma NewCallCanSend(w: World, f: Notice, post: Post)
    requires Invariant(w) && Waits(w, f, post) && FreeInTime(w, Deadline(post)) && NewCallRetries(w, f, Deadline(post))
    ensures CanSendNextEarlyInTime(w, f, post)
  {
    ReachesItself(w);
    var t, pid := NewCallComes(w, w, f);
    NewCallStaysInTime(w, t, f, post, t.running[pid], pid);
    var moves :| Legal(w, moves) && InTime(w, moves) && Run(w, moves) == t;
    RunKeepsInvariant(w, moves);
    OpenerCanSend(t, f, post, pid);
    EarlyFromHere(w, moves, f, post);
  }

  /** So does a call that is given the time at which the event was due. */
  lemma GivenCallCanSend(w: World, f: Notice, post: Post)
    requires Invariant(w) && Waits(w, f, post) && w.clock < Deadline(post) && FreeInTime(w, Deadline(post))
    requires f.nextAttemptAt <= w.clock && !ReminderComesFirst(f)
    ensures CanSendNextEarly(w, f, post)
  {
    var pid, choice := New(w);
    var move := Invoke(pid, !f.unavailable, f.nextAttemptAt);
    OneMove(w, move);
    StepKeepsInvariant(w, move);
    var t := Apply(w, move);
    NewCallStaysInTime(w, t, f, post, t.running[pid], pid);
    OpenerCanSend(t, f, post, pid);
    EarlyFromHere(w, [move], f, post);
  }

  /**
   The next attempt of an event can be sent less than the backoff after the last one exactly when the
   backoff after that has not run out, the lock path can be had before it does, and some call may retry
   the event: one made once it is due and before the backoff has run out, with no reminder due by then; or
   a running one of such a time, that has yet to open the lock path or owns it and has yet to reserve.
   */
  lemma NextIsSentEarlyIff(w: World, f: Notice, post: Post)
    requires Invariant(w) && Waits(w, f, post)
    ensures CanSendNextEarlyInTime(w, f, post) <==>
      w.clock < Deadline(post) && FreeInTime(w, Deadline(post)) && WithinReach(w, f, Deadline(post))
  {
    NextIsUnreserved(w, f, post);
    if moves :| Legal(w, moves) && InTime(w, moves) && SendsNextEarly(Run(w, moves), f, post) {
      EarlyNeedsAWay(w, f, post, moves);
      if !WithinReach(w, f, Deadline(post)) {
        OutOfReachSendsNothingEarly(w, f, post, moves);
      }
    }
    if w.clock < Deadline(post) && FreeInTime(w, Deadline(post)) && WithinReach(w, f, Deadline(post)) {
      if NewCallRetries(w, f, Deadline(post)) {
        NewCallCanSend(w, f, post);
      } else {
        var pid :| pid in w.running && MayRetry(w.running[pid], f) && OnItsWay(w, w.running[pid]);
        if w.running[pid].stage.Opening? {
          OpenerCanSend(w, f, post, pid);
        } else {
          OwnerCanSend(w, f, post, pid);
        }
      }
    }
  }

  /** A call within reach takes a delay of the last attempt: it was sent later than its invocation began. */
  lemma ReachNeedsADelay(w: World, f: Notice, post: Post)
    requires Invariant(w) && Waits(w, f, post) && w.clock < Deadline(post) && WithinReach(w, f, Deadline(post))
    ensures post.attempt.observedAt < post.sentAt
  {
    NextIsUnreserved(w, f, post);
    if pid :| pid in w.running && MayRetry(w.running[pid], f) && OnItsWay(w, w.running[pid]) {
      assert w.running[pid].now <= w.clock;
    }
  }

  /**
   If calls may also be given times that are past, the condition is that the last attempt was sent with a
   delay, the backoff after it has not run out, the lock path can be had before it does, and no reminder
   was due when the attempt was.
   */
  lemma NextIsSentEarlyAtGivenTimesIff(w: World, f: Notice, post: Post)
    requires Invariant(w) && Waits(w, f, post)
    ensures CanSendNextEarly(w, f, post) <==>
      && post.attempt.observedAt < post.sentAt && w.clock < Deadline(post)
      && FreeInTime(w, Deadline(post)) && !ReminderComesFirst(f)
  {
    NextIsUnreserved(w, f, post);
    if moves :| Legal(w, moves) && SendsNextEarly(Run(w, moves), f, post) {
      EarlyNeedsAWay(w, f, post, moves);
      EarlyNeedsADelay(w, f, post, moves);
    }
    if post.attempt.observedAt < post.sentAt && w.clock < Deadline(post) && FreeInTime(w, Deadline(post)) && !ReminderComesFirst(f) {
      if f.nextAttemptAt <= w.clock {
        GivenCallCanSend(w, f, post);
      } else {
        NewCallCanSend(w, f, post);
      }
    }
  }

  /** With the path free and the event not yet due, the wait can be shorter by all of the last attempt's delay. */
  lemma WaitCanShrinkByTheDelay(w: World, f: Notice, post: Post) returns (end: World, later: Post)
    requires Invariant(w) && Waits(w, f, post) && w.lock.None? && w.clock <= f.nextAttemptAt && !ReminderComesFirst(f)
    ensures ReachesInTime(w, end) && later in end.posts && IsNext(later, f)
    ensures later.sentAt - post.sentAt == Backoff(f.attempts) - (post.sentAt - post.attempt.observedAt)
  {
    NextIsUnreserved(w, f, post);
    ReachesItself(w);
    end, later := NextCanBeSent(w, w, f);
  }
}
