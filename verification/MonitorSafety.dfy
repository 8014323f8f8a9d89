/**
 What every step of the monitor's notifier keeps, over any number of invocations that stall, crash
 or remove a lock file by its path.
 */
module MonitorSafety {
  import opened Options
  import opened Monitor

  type Running = map<nat, Invocation>

  // ----- Locks -----

  /** No two running invocations hold the same lock file open. */
  ghost predicate HandlesDiffer(running: Running) {
    forall p, q :: p in running && q in running && p != q && Handle(running[p].stage).Some? ==>
      Handle(running[p].stage) != Handle(running[q].stage)
  }

  /** While the file at the lock path is the one an invocation created, the state file holds what it knows. */
  ghost predicate OwnerKnowsFile(running: Running, lock: Option<Lock>, file: Option<Notice>) {
    forall p :: p in running && KnowsAtPath(running[p].stage, lock) ==> Known(running[p].stage) == Some(file)
  }

  predicate KnowsAtPath(stage: Stage, lock: Option<Lock>) {
    Known(stage).Some? && lock.Some? && Handle(stage) == Some(lock.value.inode)
  }

  ghost predicate InvocationsInPast(running: Running, clock: int) {
    forall p :: p in running ==> running[p].now <= clock
  }

  /** A notice says it is resolved exactly when it does not report an outage. */
  predicate KindFits(notice: Notice) {
    notice.kind.Resolved? <==> !notice.unavailable
  }

  /** What an invocation has read makes sense, and what it will write reports what it was told. */
  predicate ReportFits(p: Invocation) {
    match p.stage
    case Deciding(_, known) => known.Some? ==> KindFits(known.value)
    case Checking(_, notice) => KindFits(notice) && notice.unavailable == !p.available && !ReminderDue(Some(notice), p.available, p.now)
    case Posting(_, notice) => KindFits(notice) && notice.unavailable == !p.available
    case Accepting(_, notice) => KindFits(notice) && notice.unavailable == !p.available
    case _ => true
  }

  ghost predicate ReportsFit(running: Running) {
    forall p :: p in running ==> ReportFits(running[p])
  }

  // ----- Events -----

  predicate SameEvent(a: Notice, b: Notice) {
    a == b.(attempts := a.attempts, nextAttemptAt := a.nextAttemptAt, accepted := a.accepted)
  }

  /** An event is what an invocation decides from the notice it replaced. */
  predicate Decided(e: Event) {
    && Replaces(e.replaced, !e.notice.unavailable, e.notice.lastReminderAt)
    && e.notice == NextNotice(e.replaced, !e.notice.unavailable, e.notice.lastReminderAt, e.notice.eventId)
  }

  predicate Follows(prior: Event, next: Event) {
    next.replaced.Some? && SameEvent(next.replaced.value, prior.notice)
  }

  ghost predicate EventsChain(events: seq<Event>, usedIds: set<nat>) {
    && (forall i :: 0 <= i < |events| ==> events[i].notice.eventId in usedIds && Decided(events[i]))
    && (forall i, j :: 0 <= i < j < |events| ==> events[i].notice.eventId != events[j].notice.eventId)
    && (events != [] ==> events[0].replaced.None?)
    && (forall i, j :: 0 <= i && j == i + 1 < |events| ==> Follows(events[i], events[j]))
  }

  predicate FileMatchesEvents(file: Option<Notice>, events: seq<Event>) {
    match file
    case None => events == []
    case Some(f) =>
      && events != []
      && SameEvent(f, events[|events| - 1].notice)
      && f.attempts <= MAX_ATTEMPTS
      && (events[|events| - 1].notice.accepted ==> f.accepted)
  }

  ghost predicate AcceptanceHolds(file: Option<Notice>, acceptedIds: set<nat>, usedIds: set<nat>) {
    && acceptedIds <= usedIds
    && (file.Some? && file.value.eventId in acceptedIds ==> file.value.accepted)
  }

  // ----- Reservations -----

  predicate Backs(e: Event, a: Attempt) {
    e.notice.eventId == a.eventId && e.notice.kind == a.kind && !e.notice.accepted
  }

  ghost predicate Backed(a: Attempt, events: seq<Event>) {
    && 1 <= a.number <= MAX_ATTEMPTS
    && exists e :: e in events && Backs(e, a)
  }

  ghost predicate ReservedAreBacked(reserved: seq<Attempt>, events: seq<Event>) {
    forall a :: a in reserved ==> Backed(a, events)
  }

  predicate Before(a: Attempt, b: Attempt) {
    a.number < b.number && b.observedAt >= a.observedAt + Backoff(a.number)
  }

  /** The file counts a reservation, and the latest one sets when the next may follow. */
  predicate CountedIn(a: Attempt, f: Notice) {
    && a.number <= f.attempts && f.nextAttemptAt >= a.observedAt + Backoff(a.number)
    && (a.number == f.attempts ==> f.nextAttemptAt == a.observedAt + Backoff(a.number))
  }

  ghost predicate ReservedAreSpaced(reserved: seq<Attempt>) {
    forall i, j :: 0 <= i < j < |reserved| && reserved[i].eventId == reserved[j].eventId ==> Before(reserved[i], reserved[j])
  }

  ghost predicate FileCountsReserved(reserved: seq<Attempt>, file: Option<Notice>) {
    file.Some? ==> forall a :: a in reserved && a.eventId == file.value.eventId ==> CountedIn(a, file.value)
  }

  // ----- Posts -----

  /** The reservation a running invocation still has to send. */
  function Unsent(p: Invocation): Option<Attempt> {
    if p.stage.Posting? then Some(AttemptOf(p.stage.notice, p.now)) else None
  }

  ghost predicate SentWereReserved(posts: seq<Post>, reserved: seq<Attempt>) {
    && (forall i :: 0 <= i < |posts| ==> posts[i].attempt in reserved && posts[i].sentAt >= posts[i].attempt.observedAt)
    && (forall i, j :: 0 <= i < j < |posts| ==> posts[i].attempt != posts[j].attempt)
  }

  ghost predicate UnsentAreReserved(running: Running, posts: seq<Post>, reserved: seq<Attempt>) {
    && (forall p :: p in running && Unsent(running[p]).Some? ==> Unsent(running[p]).value in reserved)
    && (forall p, i :: p in running && 0 <= i < |posts| ==> Unsent(running[p]) != Some(posts[i].attempt))
    && (forall p, q :: p in running && q in running && p != q && Unsent(running[p]).Some? ==>
      Unsent(running[p]) != Unsent(running[q]))
  }

  ghost predicate Invariant(w: World) {
    && HandlesDiffer(w.running)
    && OwnerKnowsFile(w.running, w.lock, w.file)
    && InvocationsInPast(w.running, w.clock)
    && ReportsFit(w.running)
    && EventsChain(w.events, w.usedIds)
    && FileMatchesEvents(w.file, w.events)
    && AcceptanceHolds(w.file, w.acceptedIds, w.usedIds)
    && ReservedAreBacked(w.reserved, w.events)
    && ReservedAreSpaced(w.reserved)
    && FileCountsReserved(w.reserved, w.file)
    && SentWereReserved(w.posts, w.reserved)
    && UnsentAreReserved(w.running, w.posts, w.reserved)
  }

  // ----- One invocation moves -----

  ghost predicate OthersStay(before: Running, after: Running, pid: nat) {
    forall p :: p != pid ==> (p in after <==> p in before) && (p in before ==> after[p] == before[p])
  }

  /** A handle an invocation has after a step: the one it had, or on a file no one held open. */
  predicate HandleKeptOrNew(before: Running, after: Running, pid: nat) {
    pid in after && Handle(after[pid].stage).Some? ==>
      || (pid in before && Handle(before[pid].stage) == Handle(after[pid].stage))
      || (forall p :: p in before ==> Handle(before[p].stage) != Handle(after[pid].stage))
  }

  lemma MoveKeepsHandles(before: Running, after: Running, pid: nat)
    requires HandlesDiffer(before) && OthersStay(before, after, pid) && HandleKeptOrNew(before, after, pid)
    ensures HandlesDiffer(after)
  {
  }

  lemma MoveKeepsUnsent(before: Running, after: Running, pid: nat, posts: seq<Post>, reserved: seq<Attempt>)
    requires UnsentAreReserved(before, posts, reserved) && OthersStay(before, after, pid)
    requires pid in after ==> Unsent(after[pid]).None?
    ensures UnsentAreReserved(after, posts, reserved)
  {
  }

  /** A lock file that appears at the path is one that no invocation held open. */
  predicate LockKeptOrNew(before: Running, lock: Option<Lock>, lock': Option<Lock>) {
    lock'.None? || lock' == lock || (forall p :: p in before ==> Handle(before[p].stage) != Some(lock'.value.inode))
  }

  lemma MoveKeepsKnowledge(
      before: Running, after: Running, pid: nat, lock: Option<Lock>, lock': Option<Lock>, file: Option<Notice>)
    requires OwnerKnowsFile(before, lock, file) && OthersStay(before, after, pid) && LockKeptOrNew(before, lock, lock')
    requires pid in after && KnowsAtPath(after[pid].stage, lock') ==> Known(after[pid].stage) == Some(file)
    ensures OwnerKnowsFile(after, lock', file)
  {
  }

  /** An owner's write: no other invocation owns the file at the path, so no one else's knowledge is disturbed. */
  lemma WriteKeepsKnowledge(before: Running, after: Running, pid: nat, lock: Option<Lock>, file': Option<Notice>)
    requires HandlesDiffer(before) && OthersStay(before, after, pid)
    requires pid in before && lock.Some? && Handle(before[pid].stage) == Some(lock.value.inode)
    requires pid in after && KnowsAtPath(after[pid].stage, lock) ==> Known(after[pid].stage) == Some(file')
    ensures OwnerKnowsFile(after, lock, file')
  {
  }

  /** A step that records nothing: one invocation moves, and perhaps the lock file comes or goes. */
  lemma QuietStepKeeps(w: World, next: World, pid: nat)
    requires Invariant(w)
    requires next == w.(running := next.running, lock := next.lock, told := next.told)
    requires OthersStay(w.running, next.running, pid) && HandleKeptOrNew(w.running, next.running, pid)
    requires LockKeptOrNew(w.running, w.lock, next.lock)
    requires pid in next.running ==>
      var p := next.running[pid];
      p.now <= w.clock && Unsent(p).None? && ReportFits(p) && (KnowsAtPath(p.stage, next.lock) ==> Known(p.stage) == Some(w.file))
    ensures Invariant(next)
  {
    MoveKeepsHandles(w.running, next.running, pid);
    MoveKeepsKnowledge(w.running, next.running, pid, w.lock, next.lock, w.file);
    MoveKeepsUnsent(w.running, next.running, pid, w.posts, w.reserved);
  }

  /** An invocation goes on without recording anything, keeping or dropping its handle. */
  lemma GoToKeeps(w: World, pid: nat, stage: Stage)
    requires Invariant(w) && pid in w.running && !stage.Posting?
    requires Handle(stage).None? || Handle(stage) == Handle(w.running[pid].stage)
    requires Known(stage).None? || Known(stage) == Known(w.running[pid].stage) || Known(stage) == Some(w.file)
    requires ReportFits(w.running[pid].(stage := stage))
    ensures Invariant(GoTo(w, pid, stage))
  {
    QuietStepKeeps(w, GoTo(w, pid, stage), pid);
  }

  /** An invocation ends, and may remove whatever file is at the lock path. */
  lemma FinishKeeps(w: World, pid: nat, lock: Option<Lock>, told: seq<Told>)
    requires Invariant(w) && (lock == None || lock == w.lock)
    ensures Invariant(Finish(w, pid).(lock := lock, told := told))
  {
    QuietStepKeeps(w, Finish(w, pid).(lock := lock, told := told), pid);
  }

  // ----- The writes -----

  lemma NewEventKeeps(events: seq<Event>, usedIds: set<nat>, file: Option<Notice>, e: Event)
    requires EventsChain(events, usedIds) && FileMatchesEvents(file, events)
    requires e.notice.eventId !in usedIds && e.replaced == file && Decided(e)
    ensures EventsChain(events + [e], usedIds + {e.notice.eventId})
    ensures FileMatchesEvents(Some(e.notice), events + [e])
  {
  }

  lemma BackedStays(reserved: seq<Attempt>, events: seq<Event>, e: Event)
    requires ReservedAreBacked(reserved, events)
    ensures ReservedAreBacked(reserved, events + [e])
  {
    forall a | a in reserved ensures Backed(a, events + [e]) {
      var b :| b in events && Backs(b, a);
      assert b in events + [e];
    }
  }

  lemma NewEventHasNoReservations(reserved: seq<Attempt>, events: seq<Event>, usedIds: set<nat>, f: Notice)
    requires ReservedAreBacked(reserved, events) && EventsChain(events, usedIds) && f.eventId !in usedIds
    ensures FileCountsReserved(reserved, Some(f))
  {
    forall a | a in reserved ensures a.eventId != f.eventId {
      var b :| b in events && Backs(b, a);
      assert b.notice.eventId in usedIds;
    }
  }

  /** What a write under ownership gives: the writer's knowledge was right, and the lock facts carry over. */
  lemma OwnedWriteKeeps(w: World, next: World, pid: nat)
    requires Invariant(w) && pid in w.running && KnowsAtPath(w.running[pid].stage, w.lock)
    requires OthersStay(w.running, next.running, pid) && pid in next.running
    requires next.lock == w.lock && next.clock == w.clock && next.running[pid].now == w.running[pid].now
    requires Handle(next.running[pid].stage) == Handle(w.running[pid].stage)
    requires Known(next.running[pid].stage) == None || Known(next.running[pid].stage) == Some(next.file)
    requires ReportFits(next.running[pid])
    ensures Known(w.running[pid].stage) == Some(w.file)
    ensures HandlesDiffer(next.running) && OwnerKnowsFile(next.running, next.lock, next.file)
    ensures InvocationsInPast(next.running, next.clock) && ReportsFit(next.running)
    ensures Unsent(next.running[pid]).None? ==> UnsentAreReserved(next.running, w.posts, w.reserved)
  {
    MoveKeepsHandles(w.running, next.running, pid);
    WriteKeepsKnowledge(w.running, next.running, pid, w.lock, next.file);
    if Unsent(next.running[pid]).None? {
      MoveKeepsUnsent(w.running, next.running, pid, w.posts, w.reserved);
    }
  }

  lemma DecideKeeps(w: World, pid: nat, choice: Choice)
    requires Invariant(w) && pid in w.running && w.running[pid].stage.Deciding? && choice.eventId !in w.usedIds
    ensures Invariant(Act(w, pid, choice))
  {
    var p := w.running[pid];
    var Deciding(inode, known) := p.stage;
    if known.None? && p.available {
      GoToKeeps(w, pid, Closing(inode, NOTHING_SENT));
    } else if !Replaces(known, p.available, p.now) {
      GoToKeeps(w, pid, Checking(inode, known.value));
    } else if !StillOwned(w, inode) {
      GoToKeeps(w, pid, Closing(inode, Failed));
    } else {
      OwnerDecides(w, pid, inode, known, choice);
    }
  }

  lemma OwnerDecides(w: World, pid: nat, inode: nat, known: Option<Notice>, choice: Choice)
    requires Invariant(w) && pid in w.running && w.running[pid].stage == Deciding(inode, known) && choice.eventId !in w.usedIds
    requires StillOwned(w, inode) && Replaces(known, w.running[pid].available, w.running[pid].now)
    ensures Invariant(Decide(w, pid, inode, known, choice))
  {
    var p := w.running[pid];
    NewEventStepKeeps(
      w, Decide(w, pid, inode, known, choice), pid, Event(NextNotice(known, p.available, p.now, choice.eventId), known));
  }

  lemma NewEventStepKeeps(w: World, next: World, pid: nat, e: Event)
    requires Invariant(w) && pid in w.running && w.running[pid].stage.Deciding? && KnowsAtPath(w.running[pid].stage, w.lock)
    requires e.notice.unavailable == !w.running[pid].available && e.notice.lastReminderAt == w.running[pid].now
    requires e.replaced == w.running[pid].stage.known && Decided(e) && e.notice.eventId !in w.usedIds
    requires next == GoTo(w, pid, Checking(w.running[pid].stage.inode, e.notice)).(
      file := Some(e.notice), usedIds := w.usedIds + {e.notice.eventId}, events := w.events + [e],
      acceptedIds := if e.notice.accepted then w.acceptedIds + {e.notice.eventId} else w.acceptedIds)
    ensures Invariant(next)
  {
    OwnedWriteKeeps(w, next, pid);
    NewEventKeeps(w.events, w.usedIds, w.file, e);
    BackedStays(w.reserved, w.events, e);
    NewEventHasNoReservations(w.reserved, w.events, w.usedIds, e.notice);
  }

  lemma ReservationKeepsAttempts(
      reserved: seq<Attempt>, events: seq<Event>, f: Notice, now: int, posts: seq<Post>, before: Running, after: Running, pid: nat)
    requires FileMatchesEvents(Some(f), events) && Ready(f, now)
    requires ReservedAreBacked(reserved, events) && ReservedAreSpaced(reserved) && FileCountsReserved(reserved, Some(f))
    requires SentWereReserved(posts, reserved) && UnsentAreReserved(before, posts, reserved)
    requires OthersStay(before, after, pid) && pid in after && Unsent(after[pid]) == Some(AttemptOf(Reserve(f, now), now))
    ensures var r := reserved + [AttemptOf(Reserve(f, now), now)];
      && FileMatchesEvents(Some(Reserve(f, now)), events)
      && ReservedAreBacked(r, events) && ReservedAreSpaced(r) && FileCountsReserved(r, Some(Reserve(f, now)))
      && SentWereReserved(posts, r) && UnsentAreReserved(after, posts, r)
  {
    var a := AttemptOf(Reserve(f, now), now);
    assert Backs(events[|events| - 1], a);
    assert a !in reserved;
    forall b | b in reserved && b.eventId == f.eventId ensures Before(b, a) && CountedIn(b, Reserve(f, now)) {
      assert CountedIn(b, f);
    }
  }

  lemma DeliverKeeps(w: World, pid: nat, choice: Choice)
    requires Invariant(w) && pid in w.running && w.running[pid].stage.Checking?
    ensures Invariant(Act(w, pid, choice))
  {
    var p := w.running[pid];
    var Checking(inode, notice) := p.stage;
    var next := Deliver(w, pid, inode, notice, choice);
    if !StillOwned(w, inode) || !Ready(notice, p.now) {
      GoToKeeps(w, pid, next.running[pid].stage);
    } else if choice.destination {
      ReservationStepKeeps(w, next, pid);
    } else {
      RewriteStepKeeps(w, next, pid, notice, NOTHING_SENT);
    }
  }

  lemma ReservationStepKeeps(w: World, next: World, pid: nat)
    requires Invariant(w) && pid in w.running && w.running[pid].stage.Checking? && KnowsAtPath(w.running[pid].stage, w.lock)
    requires var p := w.running[pid]; var f := p.stage.notice;
      && Ready(f, p.now)
      && next == GoTo(w, pid, Posting(p.stage.inode, Reserve(f, p.now))).(
        file := Some(Reserve(f, p.now)), reserved := w.reserved + [AttemptOf(Reserve(f, p.now), p.now)])
    ensures Invariant(next)
  {
    var p := w.running[pid];
    OwnedWriteKeeps(w, next, pid);
    ReservationKeepsAttempts(w.reserved, w.events, p.stage.notice, p.now, w.posts, w.running, next.running, pid);
  }

  /** Writing back what the invocation knows, perhaps now accepted. */
  lemma RewriteStepKeeps(w: World, next: World, pid: nat, notice: Notice, result: Result)
    requires Invariant(w) && pid in w.running && KnowsAtPath(w.running[pid].stage, w.lock)
    requires Known(w.running[pid].stage).value.Some?
    requires var f := Known(w.running[pid].stage).value.value; notice == f || notice == f.(accepted := true)
    requires next == GoTo(w, pid, Closing(w.lock.value.inode, result)).(
      file := Some(notice), acceptedIds := if notice.accepted then w.acceptedIds + {notice.eventId} else w.acceptedIds)
    ensures Invariant(next)
  {
    OwnedWriteKeeps(w, next, pid);
  }

  lemma AcceptKeeps(w: World, pid: nat, choice: Choice)
    requires Invariant(w) && pid in w.running && w.running[pid].stage.Accepting?
    ensures Invariant(Act(w, pid, choice))
  {
    var Accepting(inode, notice) := w.running[pid].stage;
    var next := Persist(w, pid, inode, notice.(accepted := true), Closing(inode, Answer(true, false)));
    if StillOwned(w, inode) {
      RewriteStepKeeps(w, next, pid, notice.(accepted := true), Answer(true, false));
    } else {
      QuietStepKeeps(w, next, pid);
    }
  }

  lemma PostKeeps(w: World, pid: nat, choice: Choice)
    requires Invariant(w) && pid in w.running && w.running[pid].stage.Posting?
    ensures Invariant(Act(w, pid, choice))
  {
    var p := w.running[pid];
    var next := Act(w, pid, choice);
    var sent := Post(AttemptOf(p.stage.notice, p.now), w.clock);
    QuietStepKeeps(w, next.(posts := w.posts), pid);
    SendingKeepsPosts(w.posts, w.reserved, w.running, next.running, pid, sent);
  }

  lemma SendingKeepsPosts(
      posts: seq<Post>, reserved: seq<Attempt>, before: Running, after: Running, pid: nat, sent: Post)
    requires SentWereReserved(posts, reserved) && UnsentAreReserved(before, posts, reserved)
    requires pid in before && Unsent(before[pid]) == Some(sent.attempt) && sent.sentAt >= sent.attempt.observedAt
    requires OthersStay(before, after, pid) && (pid in after ==> Unsent(after[pid]).None?)
    ensures SentWereReserved(posts + [sent], reserved) && UnsentAreReserved(after, posts + [sent], reserved)
  {
  }

  lemma OpeningKeeps(w: World, pid: nat, choice: Choice)
    requires Invariant(w) && pid in w.running && w.running[pid].stage.Opening?
    requires w.lock.None? ==> HandleFree(w, choice.inode)
    ensures Invariant(Act(w, pid, choice))
  {
    if w.lock.None? {
      QuietStepKeeps(w, Act(w, pid, choice), pid);
    } else {
      GoToKeeps(w, pid, Inspecting);
    }
  }

  lemma InspectingKeeps(w: World, pid: nat, choice: Choice)
    requires Invariant(w) && pid in w.running && w.running[pid].stage.Inspecting?
    ensures Invariant(Act(w, pid, choice))
  {
    if w.lock.Some? && w.lock.value.mtime < w.running[pid].now - LEASE {
      GoToKeeps(w, pid, Evicting);
    } else {
      FinishKeeps(w, pid, w.lock, Act(w, pid, choice).told);
    }
  }

  lemma ComparingKeeps(w: World, pid: nat, choice: Choice)
    requires Invariant(w) && pid in w.running && w.running[pid].stage.Comparing?
    ensures Invariant(Act(w, pid, choice))
  {
    if LockIs(w, w.running[pid].stage.inode) {
      GoToKeeps(w, pid, Unlinking(w.running[pid].stage.result));
    } else {
      FinishKeeps(w, pid, w.lock, Act(w, pid, choice).told);
    }
  }

  lemma ReadingKeeps(w: World, pid: nat, choice: Choice)
    requires Invariant(w) && pid in w.running && w.running[pid].stage.Reading?
    ensures Invariant(Act(w, pid, choice))
  {
    var inode := w.running[pid].stage.inode;
    GoToKeeps(w, pid, if choice.readable then Deciding(inode, w.file) else Closing(inode, Failed));
  }

  lemma ClosingKeeps(w: World, pid: nat, choice: Choice)
    requires Invariant(w) && pid in w.running && w.running[pid].stage.Closing?
    ensures Invariant(Act(w, pid, choice))
  {
    GoToKeeps(w, pid, Comparing(w.running[pid].stage.inode, w.running[pid].stage.result));
  }

  lemma RemovingKeeps(w: World, pid: nat, choice: Choice)
    requires Invariant(w) && pid in w.running && (w.running[pid].stage.Evicting? || w.running[pid].stage.Unlinking?)
    ensures Invariant(Act(w, pid, choice))
  {
    FinishKeeps(w, pid, None, Act(w, pid, choice).told);
  }

  lemma AdvanceKeeps(w: World, pid: nat, choice: Choice)
    requires Invariant(w) && Enabled(w, Advance(pid, choice))
    ensures Invariant(Act(w, pid, choice))
  {
    match w.running[pid].stage
    case Deciding(_, _) => DecideKeeps(w, pid, choice);
    case Checking(_, _) => DeliverKeeps(w, pid, choice);
    case Posting(_, _) => PostKeeps(w, pid, choice);
    case Accepting(_, _) => AcceptKeeps(w, pid, choice);
    case Opening => OpeningKeeps(w, pid, choice);
    case Inspecting => InspectingKeeps(w, pid, choice);
    case Evicting => RemovingKeeps(w, pid, choice);
    case Reading(_) => ReadingKeeps(w, pid, choice);
    case Closing(_, _) => ClosingKeeps(w, pid, choice);
    case Comparing(_, _) => ComparingKeeps(w, pid, choice);
    case Unlinking(_) => RemovingKeeps(w, pid, choice);
  }

  lemma StepKeepsInvariant(w: World, move: Move)
    requires Invariant(w) && Enabled(w, move)
    ensures Invariant(Apply(w, move))
  {
    match move
    case Pass(_) =>
    case Invoke(pid, _, _) => QuietStepKeeps(w, Apply(w, move), pid);
    case Crash(pid) => FinishKeeps(w, pid, w.lock, w.told);
    case Advance(pid, choice) => AdvanceKeeps(w, pid, choice);
  }

  lemma {:induction false} RunKeepsInvariant(w: World, moves: seq<Move>)
    requires Invariant(w) && Legal(w, moves)
    ensures Invariant(Run(w, moves))
    decreases |moves|
  {
    if moves != [] {
      StepKeepsInvariant(w, moves[0]);
      RunKeepsInvariant(Apply(w, moves[0]), moves[1..]);
    }
  }
}
