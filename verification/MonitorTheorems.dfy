/** What the notifier guarantees over every run. */
module MonitorTheorems {
  import opened Options
  import opened Monitor
  import opened MonitorSafety

  lemma StartIsSound(clock: int)
    ensures Invariant(Start(clock))
  {
  }

  // ----- The lock -----

  /** The invocation keeps this lock file open in every world of the run. */
  ghost predicate HoldsThroughout(w: World, moves: seq<Move>, pid: nat, inode: nat)
    requires Legal(w, moves)
    decreases |moves|
  {
    && pid in w.running && Handle(w.running[pid].stage) == Some(inode)
    && (moves == [] || HoldsThroughout(Apply(w, moves[0]), moves[1..], pid, inode))
  }

  /** The lock file is at the lock path in every world of the run, and only its creator changes the state file. */
  ghost predicate SoleWriterThroughout(w: World, moves: seq<Move>, pid: nat, inode: nat)
    requires Legal(w, moves)
    decreases |moves|
  {
    && LockIs(w, inode)
    && (moves == [] ||
      var next := Apply(w, moves[0]);
      && (next.file == w.file || (moves[0].Advance? && moves[0].pid == pid))
      && SoleWriterThroughout(next, moves[1..], pid, inode))
  }

  /** A write changes what its invocation had read or written last: nobody wrote in between. */
  lemma WriteReplacesWhatWasKnown(w: World, move: Move)
    requires Invariant(w) && Enabled(w, move) && Apply(w, move).file != w.file
    ensures move.Advance? && KnowsAtPath(w.running[move.pid].stage, w.lock)
    ensures Known(w.running[move.pid].stage) == Some(w.file)
    ensures w.clock <= w.lock.value.mtime + 600_000
  {
  }

  /** The write that an invocation has come to: a new notice, what it knows without a destination, a reservation, or an acceptance. */
  predicate AboutToWrite(p: Invocation) {
    match p.stage
    case Deciding(_, known) => Replaces(known, p.available, p.now)
    case Checking(_, notice) => !notice.accepted && notice.attempts < 5 && notice.nextAttemptAt <= p.now
    case Accepting(_, _) => true
    case _ => false
  }

  /** An invocation that lost its lock, to its age or to another, writes nothing, and its call fails. */
  lemma LostLeaseFails(w: World, pid: nat, choice: Choice)
    requires pid in w.running && AboutToWrite(w.running[pid])
    requires var inode := w.running[pid].stage.inode;
      w.lock.None? || w.lock.value.inode != inode || w.clock > w.lock.value.mtime + 600_000
    ensures var t := Act(w, pid, choice);
      t == w.(running := w.running[pid := w.running[pid].(stage := Closing(w.running[pid].stage.inode, Failed))])
  {
  }

  lemma RemovedLockStaysRemoved(w: World, move: Move, pid: nat, inode: nat)
    requires Enabled(w, move) && pid in w.running && Handle(w.running[pid].stage) == Some(inode)
    requires !LockIs(w, inode)
    ensures !LockIs(Apply(w, move), inode)
  {
  }

  lemma {:induction false} OwnershipIsUnbroken(w: World, moves: seq<Move>, pid: nat, inode: nat)
    requires Invariant(w) && Legal(w, moves) && HoldsThroughout(w, moves, pid, inode)
    requires LockIs(Run(w, moves), inode)
    ensures SoleWriterThroughout(w, moves, pid, inode)
    decreases |moves|
  {
    if moves != [] {
      StepKeepsInvariant(w, moves[0]);
      OwnershipIsUnbroken(Apply(w, moves[0]), moves[1..], pid, inode);
      if !LockIs(w, inode) {
        RemovedLockStaysRemoved(w, moves[0], pid, inode);
      }
      if Apply(w, moves[0]).file != w.file {
        WriteReplacesWhatWasKnown(w, moves[0]);
      }
    }
  }

  // ----- Reserve before send -----

  function PostsFor(posts: seq<Post>, ids: set<nat>): nat {
    if posts == [] then 0
    else PostsFor(posts[1..], ids) + (if posts[0].attempt.eventId in ids then 1 else 0)
  }

  /** The attempt numbers posted for one event. */
  function NumbersPosted(posts: seq<Post>, eventId: nat): set<nat> {
    set p | p in posts && p.attempt.eventId == eventId :: p.attempt.number
  }

  lemma {:induction false} DistinctNumbersCountPosts(posts: seq<Post>, eventId: nat)
    requires forall i, j :: 0 <= i < j < |posts| && posts[i].attempt.eventId == posts[j].attempt.eventId ==>
      posts[i].attempt.number != posts[j].attempt.number
    ensures PostsFor(posts, {eventId}) == |NumbersPosted(posts, eventId)|
  {
    if posts != [] {
      DistinctNumbersCountPosts(posts[1..], eventId);
      FirstNumberIsPosted(posts, eventId);
      FirstNumberIsNew(posts);
    }
  }

  lemma FirstNumberIsNew(posts: seq<Post>)
    requires posts != []
    requires forall j :: 0 < j < |posts| && posts[0].attempt.eventId == posts[j].attempt.eventId ==>
      posts[0].attempt.number != posts[j].attempt.number
    ensures posts[0].attempt.number !in NumbersPosted(posts[1..], posts[0].attempt.eventId)
  {
    forall p | p in posts[1..] && p.attempt.eventId == posts[0].attempt.eventId
      ensures p.attempt.number != posts[0].attempt.number
    {
      var j :| 0 <= j < |posts| - 1 && posts[1..][j] == p;
      assert posts[j + 1] == p;
    }
  }

  lemma FirstNumberIsPosted(posts: seq<Post>, eventId: nat)
    requires posts != []
    ensures NumbersPosted(posts, eventId) == NumbersPosted(posts[1..], eventId) +
      if posts[0].attempt.eventId == eventId then {posts[0].attempt.number} else {}
  {
    assert posts == [posts[0]] + posts[1..];
  }

  lemma PostsHaveDistinctNumbers(w: World, i: nat, j: nat)
    requires Invariant(w) && i < j < |w.posts| && w.posts[i].attempt.eventId == w.posts[j].attempt.eventId
    ensures w.posts[i].attempt.number != w.posts[j].attempt.number
  {
    var a, b := w.posts[i].attempt, w.posts[j].attempt;
    var m :| 0 <= m < |w.reserved| && w.reserved[m] == a;
    var n :| 0 <= n < |w.reserved| && w.reserved[n] == b;
    assert m < n || n < m;
  }

  lemma AtMostFivePostsPerEvent(w: World, eventId: nat)
    requires Invariant(w)
    ensures PostsFor(w.posts, {eventId}) <= 5
  {
    forall i, j | 0 <= i < j < |w.posts| && w.posts[i].attempt.eventId == w.posts[j].attempt.eventId
      ensures w.posts[i].attempt.number != w.posts[j].attempt.number
    {
      PostsHaveDistinctNumbers(w, i, j);
    }
    DistinctNumbersCountPosts(w.posts, eventId);
    var numbers := NumbersPosted(w.posts, eventId);
    forall n | n in numbers ensures n in {1, 2, 3, 4, 5} {
      var p :| p in w.posts && p.attempt.eventId == eventId && p.attempt.number == n;
      assert Backed(p.attempt, w.events);
    }
    SubsetIsSmaller(numbers, {1, 2, 3, 4, 5});
  }

  lemma {:induction false} SubsetIsSmaller(a: set<nat>, b: set<nat>)
    requires a <= b
    ensures |a| <= |b|
  {
    if a != {} {
      var x :| x in a;
      SubsetIsSmaller(a - {x}, b - {x});
    }
  }

  lemma CapNeverBinds(attempt: nat)
    requires 1 <= attempt <= 5
    ensures Backoff(attempt) == 60_000 * Pow2(attempt)
  {
    assert Pow2(2) == 4 && Pow2(3) == 8;
    assert Pow2(4) == 16 && Pow2(5) == 32;
  }

  /** From the sixth on it would. */
  lemma {:induction false} CapBindsFromTheSixth(attempt: nat)
    requires attempt >= 6
    ensures Backoff(attempt) == 3_600_000 && Pow2(attempt) >= 64
  {
    if attempt == 6 {
      assert Pow2(2) == 4 && Pow2(3) == 8;
      assert Pow2(4) == 16 && Pow2(5) == 32;
    } else {
      CapBindsFromTheSixth(attempt - 1);
    }
  }

  /** An event's attempts are reserved in the order of their numbers. */
  lemma NumbersGrow(reserved: seq<Attempt>)
    requires ReservedAreSpaced(reserved)
    ensures forall i, j :: 0 <= i < j < |reserved| && reserved[i].eventId == reserved[j].eventId ==>
      reserved[i].number < reserved[j].number
  {
    forall i, j | 0 <= i < j < |reserved| && reserved[i].eventId == reserved[j].eventId
      ensures reserved[i].number < reserved[j].number
    {
      assert Before(reserved[i], reserved[j]);
    }
  }

  /**
   Posts k and k+1 of one event carry observation times at least 60 * 2^k seconds apart; the times
   they are sent at are as far apart, less what post k was delayed after its invocation began.
   */
  lemma PostsAreSpaced(w: World, earlier: Post, later: Post)
    requires Invariant(w) && earlier in w.posts && later in w.posts
    requires later.attempt.eventId == earlier.attempt.eventId && later.attempt.number == earlier.attempt.number + 1
    ensures var gap := 60_000 * Pow2(earlier.attempt.number);
      && later.attempt.observedAt - earlier.attempt.observedAt >= gap
      && later.sentAt - earlier.sentAt >= gap - (earlier.sentAt - earlier.attempt.observedAt)
  {
    var a, b := earlier.attempt, later.attempt;
    var m :| 0 <= m < |w.reserved| && w.reserved[m] == a;
    var n :| 0 <= n < |w.reserved| && w.reserved[n] == b;
    NumbersGrow(w.reserved);
    assert Before(a, b);
    assert Backed(a, w.events);
    CapNeverBinds(a.number);
  }

  // ----- Acceptance -----

  predicate SendsNow(w: World, pid: nat, eventId: nat) {
    pid in w.running && w.running[pid].stage.Posting? && w.running[pid].stage.notice.eventId == eventId
  }

  ghost predicate SomeoneIsSending(w: World, eventId: nat) {
    exists pid :: SendsNow(w, pid, eventId)
  }

  predicate Stands(w: World, t: World, other: nat) {
    && (other in t.running <==> other in w.running)
    && (other in w.running ==> t.running[other] == w.running[other])
  }

  lemma WritersLetOthersStand(w: World, pid: nat, inode: nat, notice: Notice, next: Stage, other: nat)
    requires pid in w.running && other != pid
    ensures Stands(w, Persist(w, pid, inode, notice, next), other)
  {
  }

  lemma DecidersLetOthersStand(w: World, pid: nat, inode: nat, known: Option<Notice>, choice: Choice, other: nat)
    requires pid in w.running && other != pid
    ensures Stands(w, Decide(w, pid, inode, known, choice), other)
  {
    var p := w.running[pid];
    if (known.Some? || !p.available) && Replaces(known, p.available, p.now) {
      var notice := NextNotice(known, p.available, p.now, choice.eventId);
      WritersLetOthersStand(w, pid, inode, notice, Checking(inode, notice), other);
    }
  }

  lemma DeliverersLetOthersStand(w: World, pid: nat, inode: nat, notice: Notice, choice: Choice, other: nat)
    requires pid in w.running && other != pid
    ensures Stands(w, Deliver(w, pid, inode, notice, choice), other)
  {
    var next := Reserve(notice, w.running[pid].now);
    WritersLetOthersStand(w, pid, inode, notice, Closing(inode, NOTHING_SENT), other);
    WritersLetOthersStand(w, pid, inode, next, Posting(inode, next), other);
  }

  /** Another invocation's step leaves an invocation where it stands. */
  lemma OthersStand(w: World, pid: nat, choice: Choice, other: nat)
    requires pid in w.running && other != pid
    ensures Stands(w, Act(w, pid, choice), other)
  {
    match w.running[pid].stage
    case Deciding(inode, known) => DecidersLetOthersStand(w, pid, inode, known, choice, other);
    case Checking(inode, notice) => DeliverersLetOthersStand(w, pid, inode, notice, choice, other);
    case Accepting(inode, notice) =>
      WritersLetOthersStand(w, pid, inode, notice.(accepted := true), Closing(inode, Answer(true, false)), other);
    case _ =>
  }

  /** Only a reservation leads to sending. */
  lemma OnlyChecksLeadToSending(w: World, pid: nat, choice: Choice, eventId: nat)
    requires pid in w.running && SendsNow(Act(w, pid, choice), pid, eventId)
    ensures w.running[pid].stage.Checking?
  {
  }

  /** An invocation comes to send an event by reserving it under ownership, while it is not accepted. */
  lemma SendersReserve(w: World, move: Move, pid: nat, eventId: nat)
    requires Enabled(w, move) && SendsNow(Apply(w, move), pid, eventId) && !SendsNow(w, pid, eventId)
    ensures pid in w.running && w.running[pid].stage.Checking? && KnowsAtPath(w.running[pid].stage, w.lock)
    ensures w.running[pid].stage.notice.eventId == eventId && !w.running[pid].stage.notice.accepted
  {
    if move.Advance? && move.pid == pid {
      OnlyChecksLeadToSending(w, pid, move.choice, eventId);
    } else if move.Advance? {
      OthersStand(w, move.pid, move.choice, pid);
    }
  }

  lemma AcceptedStaysAccepted(w: World, move: Move)
    requires Enabled(w, move)
    ensures w.acceptedIds <= Apply(w, move).acceptedIds
  {
  }

  /** After acceptance is saved no invocation comes to send the event. */
  lemma AcceptedStepReservesNothing(w: World, move: Move, eventId: nat)
    requires Invariant(w) && Enabled(w, move) && eventId in w.acceptedIds
    ensures eventId in Apply(w, move).acceptedIds
    ensures forall pid :: SendsNow(Apply(w, move), pid, eventId) ==> SendsNow(w, pid, eventId)
  {
    AcceptedStaysAccepted(w, move);
    forall pid | SendsNow(Apply(w, move), pid, eventId) ensures SendsNow(w, pid, eventId) {
      if !SendsNow(w, pid, eventId) {
        SendersReserve(w, move, pid, eventId);
      }
    }
  }

  lemma OnlySendersPost(w: World, move: Move, eventId: nat)
    requires Enabled(w, move)
    ensures PostsFor(Apply(w, move).posts, {eventId}) != PostsFor(w.posts, {eventId}) ==>
      move.Advance? && SendsNow(w, move.pid, eventId)
  {
    if move.Advance? && w.running[move.pid].stage.Posting? {
      var sent := Post(AttemptOf(w.running[move.pid].stage.notice, w.running[move.pid].now), w.clock);
      PostsForOneMore(w.posts, sent, {eventId});
    }
  }

  lemma {:induction false} PostsForOneMore(posts: seq<Post>, sent: Post, ids: set<nat>)
    ensures PostsFor(posts + [sent], ids) == PostsFor(posts, ids) + (if sent.attempt.eventId in ids then 1 else 0)
  {
    if posts == [] {
      assert posts + [sent] == [sent];
    } else {
      assert (posts + [sent])[1..] == posts[1..] + [sent];
      PostsForOneMore(posts[1..], sent, ids);
    }
  }

  lemma {:induction false} AcceptedIsSentOnlyByThoseSending(w: World, moves: seq<Move>, eventId: nat)
    requires Invariant(w) && Legal(w, moves) && eventId in w.acceptedIds && !SomeoneIsSending(w, eventId)
    ensures PostsFor(Run(w, moves).posts, {eventId}) == PostsFor(w.posts, {eventId})
    decreases |moves|
  {
    if moves != [] {
      StepKeepsInvariant(w, moves[0]);
      AcceptedStepReservesNothing(w, moves[0], eventId);
      OnlySendersPost(w, moves[0], eventId);
      AcceptedIsSentOnlyByThoseSending(Apply(w, moves[0]), moves[1..], eventId);
    }
  }

  ghost predicate CanStillPost(w: World, eventId: nat) {
    exists moves :: Legal(w, moves) && PostsFor(Run(w, moves).posts, {eventId}) > PostsFor(w.posts, {eventId})
  }

  lemma SenderCanPost(w: World, pid: nat, eventId: nat)
    requires SendsNow(w, pid, eventId)
    ensures CanStillPost(w, eventId)
  {
    var move := Advance(pid, Choice(0, 0, true, true, false));
    var sent := Post(AttemptOf(w.running[pid].stage.notice, w.running[pid].now), w.clock);
    assert Apply(w, move).posts == w.posts + [sent];
    PostsForOneMore(w.posts, sent, {eventId});
    OneMove(w, move);
  }

  lemma OneMove(w: World, move: Move)
    requires Enabled(w, move)
    ensures Legal(w, [move]) && Run(w, [move]) == Apply(w, move)
  {
    assert [move][1..] == [];
  }

  /**
   An accepted event is posted again exactly when some invocation had reserved an attempt before
   the acceptance was saved and has yet to send it.
   */
  lemma AcceptedIsPostedAgainIffBeingSent(w: World, eventId: nat)
    requires Invariant(w) && eventId in w.acceptedIds
    ensures CanStillPost(w, eventId) <==> SomeoneIsSending(w, eventId)
  {
    if SomeoneIsSending(w, eventId) {
      var pid :| SendsNow(w, pid, eventId);
      SenderCanPost(w, pid, eventId);
    } else {
      forall moves | Legal(w, moves) ensures PostsFor(Run(w, moves).posts, {eventId}) == PostsFor(w.posts, {eventId}) {
        AcceptedIsSentOnlyByThoseSending(w, moves, eventId);
      }
    }
  }

  // ----- Outages -----

  predicate ReportsWhat(f: Option<Notice>, available: bool) {
    f.Some? && f.value.unavailable == !available && (f.value.kind.Resolved? <==> available)
  }

  lemma DecisionIsTheReport(w: World, pid: nat, choice: Choice)
    requires Invariant(w) && pid in w.running && w.running[pid].stage.Deciding? && Act(w, pid, choice).file != w.file
    ensures ReportsWhat(Act(w, pid, choice).file, w.running[pid].available)
  {
  }

  lemma DeliveryIsTheReport(w: World, pid: nat, choice: Choice)
    requires Invariant(w) && pid in w.running && (w.running[pid].stage.Checking? || w.running[pid].stage.Accepting?)
    requires Act(w, pid, choice).file != w.file
    ensures ReportsWhat(Act(w, pid, choice).file, w.running[pid].available)
  {
    assert ReportFits(w.running[pid]);
  }

  /** Only a decision, a delivery and an acceptance write the state file. */
  lemma OtherStagesWriteNothing(w: World, pid: nat, choice: Choice)
    requires pid in w.running
    requires var stage := w.running[pid].stage; !stage.Deciding? && !stage.Checking? && !stage.Accepting?
    ensures Act(w, pid, choice).file == w.file
  {
  }

  /** Every write saves the outage its invocation was told of, and says "resolved" exactly when there is none. */
  lemma SavedStateIsTheReport(w: World, pid: nat, choice: Choice)
    requires Invariant(w) && Enabled(w, Advance(pid, choice))
    requires Act(w, pid, choice).file != w.file
    ensures var f := Act(w, pid, choice).file;
      && f.Some?
      && f.value.unavailable == !w.running[pid].available
      && (f.value.kind.Resolved? <==> w.running[pid].available)
  {
    match w.running[pid].stage
    case Deciding(_, _) => DecisionIsTheReport(w, pid, choice);
    case Checking(_, _) => DeliveryIsTheReport(w, pid, choice);
    case Accepting(_, _) => DeliveryIsTheReport(w, pid, choice);
    case _ => OtherStagesWriteNothing(w, pid, choice);
  }

  predicate OutageBlock(events: seq<Event>, first: nat, past: nat) {
    first < past <= |events| && forall i :: first <= i < past ==> events[i].notice.unavailable
  }

  /** Events of one unbroken outage are at least a day apart and keep the time it opened. */
  lemma {:induction false} OutageEventsAreADayApart(w: World, first: nat, past: nat)
    requires Invariant(w) && OutageBlock(w.events, first, past)
    ensures w.events[past - 1].notice.lastReminderAt - w.events[first].notice.lastReminderAt >= (past - 1 - first) * 86_400_000
    ensures w.events[past - 1].notice.openedAt == w.events[first].notice.openedAt
    decreases past
  {
    if first < past - 1 {
      OutageEventsAreADayApart(w, first, past - 1);
      var prior, next := w.events[past - 2], w.events[past - 1];
      assert Follows(prior, next) && Decided(next);
      assert next.notice.lastReminderAt - prior.notice.lastReminderAt >= DAY;
      assert next.notice.openedAt == prior.notice.openedAt;
    }
  }

  /** The first event of an outage opens it. */
  lemma OutageOpensAtItsFirstEvent(w: World, first: nat)
    requires Invariant(w) && OutageBlock(w.events, first, first + 1)
    requires first == 0 || !w.events[first - 1].notice.unavailable
    ensures w.events[first].notice.openedAt == w.events[first].notice.lastReminderAt
  {
    assert Decided(w.events[first]);
    if first > 0 {
      assert Follows(w.events[first - 1], w.events[first]);
    }
  }

  function EventIds(events: seq<Event>): set<nat> {
    set e | e in events :: e.notice.eventId
  }

  lemma {:induction false} PostsForUnion(posts: seq<Post>, ids: set<nat>, id: nat)
    requires id !in ids
    ensures PostsFor(posts, ids + {id}) == PostsFor(posts, ids) + PostsFor(posts, {id})
  {
    if posts != [] {
      PostsForUnion(posts[1..], ids, id);
    }
  }

  lemma {:induction false} PostsForNoIds(posts: seq<Post>)
    ensures PostsFor(posts, {}) == 0
  {
    if posts != [] {
      PostsForNoIds(posts[1..]);
    }
  }

  lemma {:induction false} FivePostsEach(w: World, first: nat, past: nat)
    requires Invariant(w) && first <= past <= |w.events|
    ensures PostsFor(w.posts, EventIds(w.events[first..past])) <= 5 * (past - first)
    decreases past - first
  {
    if first == past {
      assert EventIds(w.events[first..past]) == {};
      PostsForNoIds(w.posts);
    } else {
      var id := w.events[past - 1].notice.eventId;
      assert w.events[first..past] == w.events[first..past - 1] + [w.events[past - 1]];
      assert EventIds(w.events[first..past]) == EventIds(w.events[first..past - 1]) + {id};
      FivePostsEach(w, first, past - 1);
      AtMostFivePostsPerEvent(w, id);
      assert id !in EventIds(w.events[first..past - 1]);
      PostsForUnion(w.posts, EventIds(w.events[first..past - 1]), id);
    }
  }

  /** An unbroken outage that has lasted `length` since it opened causes at most 5 * (1 + length / 24h) posts. */
  lemma OutagePostsAreBounded(w: World, first: nat, past: nat, length: nat)
    requires Invariant(w) && OutageBlock(w.events, first, past)
    requires first == 0 || !w.events[first - 1].notice.unavailable
    requires w.events[past - 1].notice.lastReminderAt <= w.events[first].notice.openedAt + length
    ensures PostsFor(w.posts, EventIds(w.events[first..past])) <= 5 * (1 + length / 86_400_000)
  {
    OutageOpensAtItsFirstEvent(w, first);
    OutageEventsAreADayApart(w, first, past);
    FivePostsEach(w, first, past);
    DaysFit(past - 1 - first, length);
  }

  lemma DaysFit(days: nat, length: nat)
    requires days * DAY <= length
    ensures days <= length / DAY
  {
  }

  predicate AnnouncesAttempted(e: Event, eventId: nat) {
    e.notice.eventId == eventId && e.replaced.Some? && e.replaced.value.unavailable && e.replaced.value.attempts > 0
  }

  /** A recovery is announced only if the notice it replaced had been attempted. */
  lemma RecoveryPostFollowsAnAttempt(w: World, post: Post)
    requires Invariant(w) && post in w.posts && post.attempt.kind.Resolved?
    ensures exists e :: e in w.events && AnnouncesAttempted(e, post.attempt.eventId)
  {
    assert Backed(post.attempt, w.events);
    var e :| e in w.events && Backs(e, post.attempt);
    assert AnnouncesAttempted(e, post.attempt.eventId);
  }

  /** A recovery is marked as already delivered, and so never sent, exactly when nothing was attempted. */
  lemma RecoveryIsSilentIffNothingWasAttempted(known: Notice, now: int, eventId: nat)
    requires known.unavailable
    ensures Replaces(Some(known), true, now)
    ensures !Ready(NextNotice(Some(known), true, now, eventId), now) <==> known.attempts == 0
  {
  }

  /** A new outage is announced as "opened" exactly when nothing was recorded in the day before it. */
  lemma NewOutageIsOpenedIff(known: Option<Notice>, now: int, eventId: nat)
    requires NewIncident(known, false)
    ensures NextNotice(known, false, now, eventId).kind.Opened? <==> (known.None? || now - known.value.lastReminderAt < 86_400_000)
    ensures NextNotice(known, false, now, eventId).openedAt == now
  {
  }
}
