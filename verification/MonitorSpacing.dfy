/**
 Exactly when the next attempt of an event can be sent sooner after the last one than the backoff says.
 Spacing counts from the times invocations began; an attempt that is sent late leaves less of the wait.
 */
module MonitorSpacing {
  import opened Options
  import opened Monitor
  import opened MonitorSafety
  import opened MonitorTheorems
  import opened MonitorReport

  /** The current event `f` was posted for the last time as `post`, is not accepted and may be posted again. */
  predicate Waits(w: World, f: Notice, post: Post) {
    && w.file == Some(f) && !f.accepted && 1 <= f.attempts < MAX_ATTEMPTS
    && post in w.posts && post.attempt.eventId == f.eventId && post.attempt.number == f.attempts
  }

  /** When the backoff after this post ends. */
  function Deadline(post: Post): int {
    post.sentAt + Backoff(post.attempt.number)
  }

  predicate IsNext(later: Post, f: Notice) {
    later.attempt.eventId == f.eventId && later.attempt.number == f.attempts + 1
  }

  ghost predicate SendsNextEarly(t: World, f: Notice, post: Post) {
    exists later :: later in t.posts && IsNext(later, f) && later.sentAt < Deadline(post)
  }

  ghost predicate CanSendNextEarly(w: World, f: Notice, post: Post) {
    exists moves :: Legal(w, moves) && SendsNextEarly(Run(w, moves), f, post)
  }

  ghost predicate CanSendNextEarlyInTime(w: World, f: Notice, post: Post) {
    exists moves :: Legal(w, moves) && InTime(w, moves) && SendsNextEarly(Run(w, moves), f, post)
  }

  // ----- What stands in the way -----

  /** Any invocation that retries the event by the time it may would rather remind of it. */
  predicate ReminderComesFirst(f: Notice) {
    f.unavailable && f.nextAttemptAt - f.lastReminderAt >= DAY
  }

  /** The invocation is about to remove whatever file is at the lock path. */
  predicate Removes(p: Invocation) {
    p.stage.Evicting? || p.stage.Unlinking?
  }

  /** The invocation holds this lock, or compares with it, and may leave without replacing or accepting the event. */
  predicate LetsGo(p: Invocation, inode: nat) {
    match p.stage
    case Reading(i) => i == inode
    case Deciding(i, known) => i == inode && !Replaces(known, p.available, p.now)
    case Checking(i, _) => i == inode
    case Closing(i, _) => i == inode
    case Comparing(i, _) => i == inode
    case _ => false
  }

  /** The lock path is free, can be freed at once, or its lease expires in time. */
  ghost predicate FreeInTime(w: World, deadline: int) {
    || w.lock.None?
    || (exists pid :: pid in w.running && Removes(w.running[pid]))
    || (exists pid :: pid in w.running && LetsGo(w.running[pid], w.lock.value.inode))
    || w.lock.value.mtime + LEASE + 1 < deadline
  }

  // ----- No early attempt while something stands in the way -----

  predicate NotSending(p: Invocation, f: Notice) {
    p.stage.Posting? ==> !(p.stage.notice.eventId == f.eventId && p.stage.notice.attempts == f.attempts + 1)
  }

  ghost predicate NoneSending(running: Running, f: Notice) {
    forall pid :: pid in running ==> NotSending(running[pid], f)
  }

  ghost predicate NoneEarly(posts: seq<Post>, f: Notice, deadline: int) {
    forall p :: p in posts && IsNext(p, f) ==> p.sentAt >= deadline
  }

  /** The event was replaced or accepted. */
  predicate Gone(w: World, f: Notice) {
    f.eventId in w.usedIds && w.file.Some? && (w.file.value.eventId != f.eventId || w.file.value.accepted)
  }

  /** The lock stays at its path until the deadline unless its holder replaces or accepts the event. */
  ghost predicate LockStays(w: World, deadline: int) {
    && w.lock.Some? && w.lock.value.mtime + LEASE + 1 >= deadline
    && (forall pid :: pid in w.running ==> !Removes(w.running[pid]) && !LetsGo(w.running[pid], w.lock.value.inode))
  }

  ghost predicate Held(w: World, f: Notice, post: Post) {
    Waits(w, f, post) && (ReminderComesFirst(f) || LockStays(w, Deadline(post)))
  }

  ghost predicate Blocked(w: World, f: Notice, post: Post) {
    && NoneEarly(w.posts, f, Deadline(post))
    && (w.clock < Deadline(post) ==> NoneSending(w.running, f) && (Held(w, f, post) || Gone(w, f)))
  }

  /** An event's attempts are reserved once each. */
  lemma ReservedOnce(reserved: seq<Attempt>, a: Attempt, b: Attempt)
    requires ReservedAreSpaced(reserved) && a in reserved && b in reserved && a.eventId == b.eventId && a.number == b.number
    ensures a == b
  {
    var i :| 0 <= i < |reserved| && reserved[i] == a;
    var j :| 0 <= j < |reserved| && reserved[j] == b;
    forall m, n | 0 <= m < n < |reserved| && reserved[m].eventId == reserved[n].eventId
      ensures reserved[m].number != reserved[n].number
    {
      assert Before(reserved[m], reserved[n]);
    }
  }

  /** The holder of the lock path is not about to send: the last reservation was sent already. */
  lemma HolderIsNotPosting(w: World, f: Notice, post: Post, pid: nat)
    requires Invariant(w) && Waits(w, f, post) && pid in w.running && w.running[pid].stage.Posting?
    ensures !KnowsAtPath(w.running[pid].stage, w.lock)
  {
    var a := Unsent(w.running[pid]).value;
    if KnowsAtPath(w.running[pid].stage, w.lock) {
      ReservedOnce(w.reserved, a, post.attempt);
    }
    var n :| 0 <= n < |w.posts| && w.posts[n] == post;
    assert Unsent(w.running[pid]) != Some(w.posts[n].attempt);
  }

  /** An invocation's step is recorded by what it does to the file, the lock, the posts and itself. */
  lemma OthersKeep(w: World, pid: nat, choice: Choice, f: Notice)
    requires pid in w.running && NoneSending(w.running, f)
    requires pid in Act(w, pid, choice).running ==> NotSending(Act(w, pid, choice).running[pid], f)
    ensures NoneSending(Act(w, pid, choice).running, f)
  {
    forall other | other in Act(w, pid, choice).running && other != pid ensures NotSending(Act(w, pid, choice).running[other], f) {
      OthersStand(w, pid, choice, other);
    }
  }

  /** A decision under ownership replaces the event; any other leaves it, and sends nothing. */
  lemma DecidingStays(w: World, f: Notice, pid: nat, choice: Choice)
    requires Invariant(w) && pid in w.running && w.running[pid].stage.Deciding? && choice.eventId !in w.usedIds
    requires f.eventId in w.usedIds
    ensures var t := Act(w, pid, choice);
      && (t.file == w.file || Gone(t, f)) && t.posts == w.posts && t.lock == w.lock && w.usedIds <= t.usedIds
      && pid in t.running && !t.running[pid].stage.Posting?
  {
    var p := w.running[pid];
    if StillOwned(w, p.stage.inode) && Replaces(p.stage.known, p.available, p.now) {
      assert Act(w, pid, choice).file.value.eventId == choice.eventId;
    } else {
      assert Act(w, pid, choice) == GoTo(w, pid, Act(w, pid, choice).running[pid].stage);
    }
  }

  /** The invocation does not reserve the event's next attempt now. */
  predicate Refrains(w: World, f: Notice, pid: nat)
    requires pid in w.running
  {
    w.running[pid].stage.Checking? ==> !Ready(f, w.running[pid].now) || !StillOwned(w, w.running[pid].stage.inode)
  }

  /** A delivery of any other event than this one's next attempt. */
  lemma CheckingStays(w: World, f: Notice, pid: nat, choice: Choice)
    requires Invariant(w) && pid in w.running && w.running[pid].stage.Checking?
    requires Gone(w, f) || (w.file == Some(f) && Refrains(w, f, pid))
    ensures var t := Act(w, pid, choice);
      && (t.file == w.file || Gone(t, f)) && t.posts == w.posts && t.lock == w.lock && t.usedIds == w.usedIds
      && pid in t.running && NotSending(t.running[pid], f)
  {
    var p := w.running[pid];
    if !StillOwned(w, p.stage.inode) || !Ready(p.stage.notice, p.now) {
      assert Act(w, pid, choice) == GoTo(w, pid, Act(w, pid, choice).running[pid].stage);
    } else {
      assert w.file == Some(p.stage.notice);
    }
  }

  lemma AcceptingStays(w: World, f: Notice, pid: nat, choice: Choice)
    requires Invariant(w) && pid in w.running && w.running[pid].stage.Accepting? && f.eventId in w.usedIds
    ensures var t := Act(w, pid, choice);
      && (t.file == w.file || Gone(t, f)) && t.posts == w.posts && t.lock == w.lock && t.usedIds == w.usedIds
      && pid in t.running && !t.running[pid].stage.Posting?
  {
  }

  lemma PostingStays(w: World, f: Notice, pid: nat, choice: Choice, deadline: int)
    requires pid in w.running && w.running[pid].stage.Posting? && NoneEarly(w.posts, f, deadline)
    requires NotSending(w.running[pid], f) || w.clock >= deadline
    ensures var t := Act(w, pid, choice);
      && t.file == w.file && t.lock == w.lock && t.usedIds == w.usedIds && NoneEarly(t.posts, f, deadline)
      && (forall p :: p in w.posts ==> p in t.posts) && pid in t.running && !t.running[pid].stage.Posting?
  {
  }

  /** Every other step of an invocation touches at most the lock. */
  lemma LockStepStays(w: World, pid: nat, choice: Choice)
    requires pid in w.running
    requires var s := w.running[pid].stage; !s.Deciding? && !s.Checking? && !s.Posting? && !s.Accepting?
    ensures var t := Act(w, pid, choice);
      && t.file == w.file && t.posts == w.posts && t.usedIds == w.usedIds
      && (pid in t.running ==> !t.running[pid].stage.Posting?)
  {
  }

  lemma HeldRefrains(w: World, f: Notice, post: Post, pid: nat)
    requires Invariant(w) && Held(w, f, post) && pid in w.running
    ensures Refrains(w, f, pid)
  {
    var p := w.running[pid];
    if p.stage.Checking? && KnowsAtPath(p.stage, w.lock) {
      assert Known(p.stage) == Some(w.file) && ReportFits(p);
    }
  }

  /** The step of one invocation keeps the event as it is or replaces or accepts it, and sends nothing early. */
  lemma StepKeepsEvent(w: World, f: Notice, deadline: int, pid: nat, choice: Choice)
    requires Invariant(w) && Enabled(w, Advance(pid, choice)) && f.eventId in w.usedIds && w.clock < deadline
    requires NoneEarly(w.posts, f, deadline) && NoneSending(w.running, f)
    requires Gone(w, f) || (w.file == Some(f) && Refrains(w, f, pid))
    ensures var t := Act(w, pid, choice);
      && (t.file == w.file || Gone(t, f)) && NoneEarly(t.posts, f, deadline) && NoneSending(t.running, f)
      && w.usedIds <= t.usedIds && (forall p :: p in w.posts ==> p in t.posts)
  {
    match w.running[pid].stage
    case Deciding(_, _) => DecidingStays(w, f, pid, choice); OthersKeep(w, pid, choice, f);
    case Checking(_, _) => CheckingStays(w, f, pid, choice); OthersKeep(w, pid, choice, f);
    case Posting(_, _) => PostingStays(w, f, pid, choice, deadline); OthersKeep(w, pid, choice, f);
    case Accepting(_, _) => AcceptingStays(w, f, pid, choice); OthersKeep(w, pid, choice, f);
    case _ => LockStepStays(w, pid, choice); OthersKeep(w, pid, choice, f);
  }

  /** The invocation is neither about to remove the lock nor able to let it go. */
  predicate Clings(p: Invocation, inode: nat) {
    !Removes(p) && !LetsGo(p, inode)
  }

  /** A decision without a write is one that does not own the path. */
  lemma DeciderClings(w: World, f: Notice, pid: nat, choice: Choice)
    requires Invariant(w) && pid in w.running && w.running[pid].stage.Deciding? && w.file == Some(f) && w.lock.Some?
    requires w.clock <= w.lock.value.mtime + LEASE && choice.eventId !in w.usedIds && Act(w, pid, choice).file == w.file
    requires f.eventId in w.usedIds && Clings(w.running[pid], w.lock.value.inode)
    ensures var t := Act(w, pid, choice); t.lock == w.lock && pid in t.running && Clings(t.running[pid], w.lock.value.inode)
  {
    var inode, known := w.running[pid].stage.inode, w.running[pid].stage.known;
    assert StillOwned(w, w.lock.value.inode);
    assert inode == w.lock.value.inode ==> known == Some(f);
    if inode != w.lock.value.inode {
      StrangerDecides(w, pid, inode, known, choice);
    }
  }

  lemma StrangerDecides(w: World, pid: nat, inode: nat, known: Option<Notice>, choice: Choice)
    requires pid in w.running && !StillOwned(w, inode)
    ensures exists stage: Stage ::
      (stage.Closing? || stage.Checking?) && stage.inode == inode && Decide(w, pid, inode, known, choice) == GoTo(w, pid, stage)
  {
    var p := w.running[pid];
    if (known.None? && p.available) || Replaces(known, p.available, p.now) {
      assert Decide(w, pid, inode, known, choice) == GoTo(w, pid, Decide(w, pid, inode, known, choice).running[pid].stage);
    } else {
      assert Decide(w, pid, inode, known, choice) == GoTo(w, pid, Checking(inode, known.value));
    }
  }

  lemma AccepterClings(w: World, f: Notice, pid: nat, choice: Choice)
    requires Invariant(w) && pid in w.running && w.running[pid].stage.Accepting? && w.file == Some(f) && w.lock.Some?
    requires w.clock <= w.lock.value.mtime + LEASE && !f.accepted && Act(w, pid, choice).file == w.file
    ensures var t := Act(w, pid, choice); t.lock == w.lock && pid in t.running && Clings(t.running[pid], w.lock.value.inode)
  {
    var inode, notice := w.running[pid].stage.inode, w.running[pid].stage.notice;
    assert StillOwned(w, w.lock.value.inode);
    assert inode == w.lock.value.inode ==> notice == f;
  }

  lemma StrangerClings(w: World, pid: nat, choice: Choice)
    requires pid in w.running && (w.running[pid].stage.Checking? || w.running[pid].stage.Posting?) && w.lock.Some?
    requires Handle(w.running[pid].stage) != Some(w.lock.value.inode)
    ensures var t := Act(w, pid, choice); t.lock == w.lock && pid in t.running && Clings(t.running[pid], w.lock.value.inode)
  {
  }

  lemma OthersCling(w: World, pid: nat, choice: Choice)
    requires pid in w.running && w.lock.Some? && w.lock.value.mtime + LEASE >= w.running[pid].now
    requires var s := w.running[pid].stage; !s.Deciding? && !s.Checking? && !s.Posting? && !s.Accepting?
    requires Clings(w.running[pid], w.lock.value.inode)
    ensures var t := Act(w, pid, choice);
      t.lock == w.lock && (pid in t.running ==> Clings(t.running[pid], w.lock.value.inode))
  {
  }

  lemma HolderStands(w: World, f: Notice, post: Post, pid: nat, choice: Choice)
    requires Invariant(w) && Waits(w, f, post) && w.lock.Some? && Enabled(w, Advance(pid, choice))
    requires w.clock <= w.lock.value.mtime + LEASE && f.eventId in w.usedIds
    requires Act(w, pid, choice).file == w.file && Clings(w.running[pid], w.lock.value.inode)
    ensures var t := Act(w, pid, choice);
      t.lock == w.lock && (pid in t.running ==> Clings(t.running[pid], w.lock.value.inode))
  {
    match w.running[pid].stage
    case Deciding(_, _) => DeciderClings(w, f, pid, choice);
    case Accepting(_, _) => AccepterClings(w, f, pid, choice);
    case Checking(_, _) => StrangerClings(w, pid, choice);
    case Posting(_, _) => HolderIsNotPosting(w, f, post, pid); StrangerClings(w, pid, choice);
    case _ => OthersCling(w, pid, choice);
  }

  /** While the lock stays, an invocation that neither replaces nor accepts the event cannot remove it. */
  lemma StepKeepsLock(w: World, f: Notice, post: Post, pid: nat, choice: Choice)
    requires Invariant(w) && Waits(w, f, post) && LockStays(w, Deadline(post)) && Enabled(w, Advance(pid, choice))
    requires w.clock < Deadline(post) && Act(w, pid, choice).file == w.file && f.eventId in w.usedIds
    ensures LockStays(Act(w, pid, choice), Deadline(post))
  {
    var t := Act(w, pid, choice);
    var inode := w.lock.value.inode;
    assert Clings(w.running[pid], inode);
    HolderStands(w, f, post, pid, choice);
    forall other | other in t.running && other != pid ensures Clings(t.running[other], inode) {
      OthersStand(w, pid, choice, other);
    }
    assert forall other :: other in t.running ==> Clings(t.running[other], inode);
  }

  lemma BlockedStays(w: World, f: Notice, post: Post, pid: nat, choice: Choice)
    requires Invariant(w) && Blocked(w, f, post) && Enabled(w, Advance(pid, choice)) && f.eventId in w.usedIds
    ensures Blocked(Act(w, pid, choice), f, post)
  {
    if w.clock < Deadline(post) {
      if Held(w, f, post) {
        HeldRefrains(w, f, post, pid);
      }
      StepKeepsEvent(w, f, Deadline(post), pid, choice);
      if Held(w, f, post) && Act(w, pid, choice).file == w.file && !ReminderComesFirst(f) {
        StepKeepsLock(w, f, post, pid, choice);
      }
    } else if w.running[pid].stage.Posting? {
      PostingStays(w, f, pid, choice, Deadline(post));
    } else {
      PostsStay(w, pid, choice);
    }
  }

  lemma PostsStay(w: World, pid: nat, choice: Choice)
    requires pid in w.running && !w.running[pid].stage.Posting?
    ensures Act(w, pid, choice).posts == w.posts && Act(w, pid, choice).clock == w.clock
  {
  }

  lemma MoveKeepsBlocked(w: World, f: Notice, post: Post, move: Move)
    requires Invariant(w) && Blocked(w, f, post) && Enabled(w, move) && f.eventId in w.usedIds
    ensures Blocked(Apply(w, move), f, post) && f.eventId in Apply(w, move).usedIds
  {
    match move
    case Advance(pid, choice) => BlockedStays(w, f, post, pid, choice); UsedIdsStay(w, pid, choice);
    case _ =>
  }

  lemma UsedIdsStay(w: World, pid: nat, choice: Choice)
    requires pid in w.running
    ensures w.usedIds <= Act(w, pid, choice).usedIds
  {
  }

  lemma {:induction false} BlockedSendsNothingEarly(w: World, f: Notice, post: Post, moves: seq<Move>)
    requires Invariant(w) && Blocked(w, f, post) && f.eventId in w.usedIds && Legal(w, moves)
    ensures NoneEarly(Run(w, moves).posts, f, Deadline(post))
    decreases |moves|
  {
    if moves != [] {
      StepKeepsInvariant(w, moves[0]);
      MoveKeepsBlocked(w, f, post, moves[0]);
      BlockedSendsNothingEarly(Apply(w, moves[0]), f, post, moves[1..]);
    }
  }

  // ----- No early attempt by calls in time -----

  /** A call of this time and report would retry the event: it is due, and neither replaced nor reminded of. */
  predicate MayRetry(p: Invocation, f: Notice) {
    f.nextAttemptAt <= p.now && p.available == !f.unavailable && !ReminderDue(Some(f), p.available, p.now)
  }

  /** The invocation has yet to open the lock path, or owns it and has yet to reserve. */
  predicate OnItsWay(w: World, p: Invocation) {
    match p.stage
    case Opening => true
    case Reading(inode) => StillOwned(w, inode)
    case Deciding(inode, _) => StillOwned(w, inode)
    case Checking(inode, _) => StillOwned(w, inode)
    case _ => false
  }

  /** The earliest time from now on at which the event is due. */
  function Earliest(w: World, f: Notice): int {
    if f.nextAttemptAt <= w.clock then w.clock else f.nextAttemptAt
  }

  predicate NewCallRetries(w: World, f: Notice, deadline: int) {
    Earliest(w, f) < deadline && !ReminderDue(Some(f), !f.unavailable, Earliest(w, f))
  }

  /** Some call, running or yet to be made at the time it is, may retry the event before the deadline. */
  ghost predicate WithinReach(w: World, f: Notice, deadline: int) {
    || NewCallRetries(w, f, deadline)
    || exists pid :: pid in w.running && MayRetry(w.running[pid], f) && OnItsWay(w, w.running[pid])
  }

  lemma OutOfReachRefrains(w: World, f: Notice, deadline: int, pid: nat)
    requires Invariant(w) && w.file == Some(f) && !WithinReach(w, f, deadline) && pid in w.running
    ensures Refrains(w, f, pid)
  {
    var p := w.running[pid];
    if p.stage.Checking? && StillOwned(w, p.stage.inode) {
      assert KnowsAtPath(p.stage, w.lock) && ReportFits(p);
    }
  }

  /** A lock is owned after a step only if it was before, for who had its file open. */
  lemma OwnedWasOwned(w: World, pid: nat, choice: Choice, inode: nat)
    requires Enabled(w, Advance(pid, choice)) && StillOwned(Act(w, pid, choice), inode)
    requires exists other :: other in w.running && Handle(w.running[other].stage) == Some(inode)
    ensures StillOwned(w, inode)
  {
  }

  lemma StepIsOnItsWay(w: World, pid: nat, choice: Choice)
    requires Enabled(w, Advance(pid, choice)) && pid in Act(w, pid, choice).running
    requires OnItsWay(Act(w, pid, choice), Act(w, pid, choice).running[pid])
    ensures OnItsWay(w, w.running[pid])
  {
  }

  predicate SameReport(w: World, t: World, pid: nat) {
    pid in w.running && pid in t.running ==>
      t.running[pid].now == w.running[pid].now && t.running[pid].available == w.running[pid].available
  }

  lemma DecidingKeepsReport(w: World, pid: nat, inode: nat, known: Option<Notice>, choice: Choice)
    requires pid in w.running
    ensures SameReport(w, Decide(w, pid, inode, known, choice), pid)
  {
  }

  lemma DeliveringKeepsReport(w: World, pid: nat, inode: nat, notice: Notice, choice: Choice)
    requires pid in w.running
    ensures SameReport(w, Deliver(w, pid, inode, notice, choice), pid)
  {
  }

  /** An invocation keeps the time and the report it began with. */
  lemma StepKeepsReport(w: World, pid: nat, choice: Choice)
    requires pid in w.running
    ensures SameReport(w, Act(w, pid, choice), pid)
  {
    match w.running[pid].stage
    case Deciding(inode, known) => DecidingKeepsReport(w, pid, inode, known, choice);
    case Checking(inode, notice) => DeliveringKeepsReport(w, pid, inode, notice, choice);
    case _ =>
  }

  lemma OutOfReachStays(w: World, f: Notice, deadline: int, pid: nat, choice: Choice)
    requires !WithinReach(w, f, deadline) && Enabled(w, Advance(pid, choice))
    ensures !WithinReach(Act(w, pid, choice), f, deadline)
  {
    var t := Act(w, pid, choice);
    ClockStands(w, pid, choice);
    forall other | other in t.running && OnItsWay(t, t.running[other]) ensures !MayRetry(t.running[other], f) {
      if other == pid {
        StepIsOnItsWay(w, pid, choice);
        StepKeepsReport(w, pid, choice);
      } else {
        OthersStand(w, pid, choice, other);
        if !t.running[other].stage.Opening? {
          OwnedWasOwned(w, pid, choice, t.running[other].stage.inode);
        }
      }
    }
  }

  lemma ClockStands(w: World, pid: nat, choice: Choice)
    requires pid in w.running
    ensures Act(w, pid, choice).clock == w.clock
  {
  }

  ghost predicate BlockedInTime(w: World, f: Notice, post: Post) {
    && NoneEarly(w.posts, f, Deadline(post))
    && (w.clock < Deadline(post) ==>
        NoneSending(w.running, f) && ((Waits(w, f, post) && !WithinReach(w, f, Deadline(post))) || Gone(w, f)))
  }

  lemma StepStaysBlocked(w: World, f: Notice, post: Post, pid: nat, choice: Choice)
    requires Invariant(w) && BlockedInTime(w, f, post) && Enabled(w, Advance(pid, choice)) && f.eventId in w.usedIds
    ensures BlockedInTime(Act(w, pid, choice), f, post)
  {
    if w.clock < Deadline(post) {
      if !Gone(w, f) {
        OutOfReachRefrains(w, f, Deadline(post), pid);
        OutOfReachStays(w, f, Deadline(post), pid, choice);
      }
      StepKeepsEvent(w, f, Deadline(post), pid, choice);
    } else if w.running[pid].stage.Posting? {
      PostingStays(w, f, pid, choice, Deadline(post));
    } else {
      PostsStay(w, pid, choice);
    }
  }

  /** Time only passes out of reach, and a call made now is no other than a new one. */
  lemma OtherMovesStayOut(w: World, f: Notice, deadline: int, move: Move)
    requires !WithinReach(w, f, deadline) && Enabled(w, move) && !move.Advance? && w.clock < deadline
    requires move.Invoke? ==> move.now == w.clock
    ensures !WithinReach(Apply(w, move), f, deadline)
  {
    var t := Apply(w, move);
    forall pid | pid in t.running && MayRetry(t.running[pid], f) ensures !OnItsWay(t, t.running[pid]) {
      assert pid in w.running && t.running[pid] == w.running[pid];
    }
  }

  lemma {:induction false} OutOfReachSendsNothingEarly(w: World, f: Notice, post: Post, moves: seq<Move>)
    requires Invariant(w) && BlockedInTime(w, f, post) && f.eventId in w.usedIds && Legal(w, moves) && InTime(w, moves)
    ensures NoneEarly(Run(w, moves).posts, f, Deadline(post))
    decreases |moves|
  {
    if moves != [] {
      StepKeepsInvariant(w, moves[0]);
      if moves[0].Advance? {
        StepStaysBlocked(w, f, post, moves[0].pid, moves[0].choice);
        UsedIdsStay(w, moves[0].pid, moves[0].choice);
      } else if w.clock < Deadline(post) && !Gone(w, f) {
        OtherMovesStayOut(w, f, Deadline(post), moves[0]);
      }
      OutOfReachSendsNothingEarly(Apply(w, moves[0]), f, post, moves[1..]);
    }
  }

  /** No attempt beyond the file's has been reserved, so none is being sent or was. */
  lemma NextIsUnreserved(w: World, f: Notice, post: Post)
    requires Invariant(w) && Waits(w, f, post)
    ensures NoneSending(w.running, f) && NoneEarly(w.posts, f, Deadline(post)) && f.eventId in w.usedIds
    ensures f.nextAttemptAt == post.attempt.observedAt + Backoff(f.attempts)
  {
    assert forall a :: a in w.reserved && a.eventId == f.eventId ==> CountedIn(a, f);
    forall pid | pid in w.running ensures NotSending(w.running[pid], f) {
      assert Unsent(w.running[pid]).Some? ==> Unsent(w.running[pid]).value in w.reserved;
    }
    forall p | p in w.posts ensures p.attempt in w.reserved {
      var i :| 0 <= i < |w.posts| && w.posts[i] == p;
    }
  }
}
