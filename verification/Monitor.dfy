/**
 The independent monitor's notifier (scripts/lib/operations-fallback.ts) as a state machine over
 one state file and one lock file, shared by any number of invocations that may stall or crash
 between any two steps. Times are milliseconds.

 One step is one system call. The ownership check together with the write it guards is one step;
 every other check and the action it decides are separate steps.
 */
module Monitor {
  import opened Options

  const SECOND: int := 1000
  const DAY: int := 24 * 3600 * SECOND
  const LEASE: int := 600 * SECOND
  const MAX_ATTEMPTS: nat := 5

  datatype Kind = Opened | Reminder | Resolved

  /** The saved state: the current notice and how far its delivery has come. */
  datatype Notice = Notice(
    unavailable: bool, eventId: nat, kind: Kind, attempts: nat, nextAttemptAt: int,
    openedAt: int, accepted: bool, lastReminderAt: int)

  // ----- What one invocation decides from what it read -----

  predicate NewIncident(known: Option<Notice>, available: bool) {
    !available && (known.None? || !known.value.unavailable)
  }

  predicate Recovered(known: Option<Notice>, available: bool) {
    available && known.Some? && known.value.unavailable
  }

  predicate ReminderDue(known: Option<Notice>, available: bool, now: int) {
    !available && known.Some? && now - known.value.lastReminderAt >= DAY
  }

  predicate Replaces(known: Option<Notice>, available: bool, now: int) {
    NewIncident(known, available) || Recovered(known, available) || ReminderDue(known, available, now)
  }

  function NextNotice(known: Option<Notice>, available: bool, now: int, eventId: nat): Notice
    requires Replaces(known, available, now)
  {
    Notice(
      !available, eventId,
      if Recovered(known, available) then Resolved else if ReminderDue(known, available, now) then Reminder else Opened,
      0, now,
      if NewIncident(known, available) then now else known.value.openedAt,
      Recovered(known, available) && known.value.attempts == 0,
      now)
  }

  predicate Ready(notice: Notice, now: int) {
    !notice.accepted && notice.attempts < MAX_ATTEMPTS && notice.nextAttemptAt <= now
  }

  function Pow2(n: nat): nat {
    if n == 0 then 1 else 2 * Pow2(n - 1)
  }

  function Backoff(attempt: nat): int {
    (if 60 * Pow2(attempt) < 3600 then 60 * Pow2(attempt) else 3600) * SECOND
  }

  function Reserve(notice: Notice, now: int): Notice {
    notice.(attempts := notice.attempts + 1, nextAttemptAt := now + Backoff(notice.attempts + 1))
  }

  // ----- The shared world -----

  datatype Lock = Lock(inode: nat, mtime: int)

  /** What a call returns, or that it throws. */
  datatype Result = Answer(accepted: bool, busy: bool) | Failed

  const NOTHING_SENT := Answer(false, false)
  const BUSY := Answer(false, true)

  /** Where an invocation stands; the inode is the lock file it holds open, the result what its cleanup leads to. */
  datatype Stage =
    | Opening
    | Inspecting
    | Evicting
    | Reading(inode: nat)
    | Deciding(inode: nat, known: Option<Notice>)
    | Checking(inode: nat, notice: Notice)
    | Posting(inode: nat, notice: Notice)
    | Accepting(inode: nat, notice: Notice)
    | Closing(inode: nat, result: Result)
    | Comparing(inode: nat, result: Result)
    | Unlinking(result: Result)

  datatype Invocation = Invocation(available: bool, now: int, stage: Stage)

  /** One reserved delivery: the attempt number of an event and the time its invocation observed. */
  datatype Attempt = Attempt(eventId: nat, number: nat, observedAt: int, kind: Kind)

  datatype Post = Post(attempt: Attempt, sentAt: int)

  /** An event as it was first written, and the notice it replaced. */
  datatype Event = Event(notice: Notice, replaced: Option<Notice>)

  /** What a call returned to its caller. */
  datatype Told = Told(pid: nat, result: Result)

  /** The file system, the running invocations, and what has happened so far. */
  datatype World = World(
    clock: int,
    file: Option<Notice>,
    lock: Option<Lock>,
    running: map<nat, Invocation>,
    usedIds: set<nat>,
    events: seq<Event>,
    reserved: seq<Attempt>,
    posts: seq<Post>,
    acceptedIds: set<nat>,
    told: seq<Told>)

  /** What the environment supplies to a step: a new inode, a new UUID, and how calls turn out. */
  datatype Choice = Choice(inode: nat, eventId: nat, readable: bool, destination: bool, accepted: bool)

  datatype Move =
    | Pass(ms: nat)
    | Invoke(pid: nat, available: bool, now: int)
    | Crash(pid: nat)
    | Advance(pid: nat, choice: Choice)

  function Handle(stage: Stage): Option<nat> {
    match stage
    case Reading(inode) => Some(inode)
    case Deciding(inode, _) => Some(inode)
    case Checking(inode, _) => Some(inode)
    case Posting(inode, _) => Some(inode)
    case Accepting(inode, _) => Some(inode)
    case Closing(inode, _) => Some(inode)
    case _ => None
  }

  /** What an invocation takes the state file to hold, once it has read or written it. */
  function Known(stage: Stage): Option<Option<Notice>> {
    match stage
    case Deciding(_, known) => Some(known)
    case Checking(_, notice) => Some(Some(notice))
    case Posting(_, notice) => Some(Some(notice))
    case Accepting(_, notice) => Some(Some(notice))
    case _ => None
  }

  predicate LockIs(w: World, inode: nat) {
    w.lock.Some? && w.lock.value.inode == inode
  }

  predicate StillOwned(w: World, inode: nat) {
    LockIs(w, inode) && w.lock.value.mtime >= w.clock - LEASE
  }

  predicate HandleFree(w: World, inode: nat) {
    forall pid :: pid in w.running ==> Handle(w.running[pid].stage) != Some(inode)
  }

  function GoTo(w: World, pid: nat, stage: Stage): World
    requires pid in w.running
  {
    w.(running := w.running[pid := w.running[pid].(stage := stage)])
  }

  function Finish(w: World, pid: nat): World {
    w.(running := w.running - {pid})
  }

  function Return(w: World, pid: nat, result: Result): World {
    Finish(w, pid).(told := w.told + [Told(pid, result)])
  }

  /** The ownership check and the write, as one step. A lost lease raises and goes to the cleanup. */
  function Persist(w: World, pid: nat, inode: nat, notice: Notice, next: Stage): World
    requires pid in w.running
  {
    if StillOwned(w, inode) then
      GoTo(w, pid, next).(
        file := Some(notice),
        acceptedIds := if notice.accepted then w.acceptedIds + {notice.eventId} else w.acceptedIds)
    else
      GoTo(w, pid, Closing(inode, Failed))
  }

  function AttemptOf(notice: Notice, observedAt: int): Attempt {
    Attempt(notice.eventId, notice.attempts, observedAt, notice.kind)
  }

  function Decide(w: World, pid: nat, inode: nat, known: Option<Notice>, choice: Choice): World
    requires pid in w.running
  {
    var p := w.running[pid];
    if known.None? && p.available then
      GoTo(w, pid, Closing(inode, NOTHING_SENT))
    else if Replaces(known, p.available, p.now) then
      var notice := NextNotice(known, p.available, p.now, choice.eventId);
      var written := Persist(w, pid, inode, notice, Checking(inode, notice));
      if StillOwned(w, inode) then
        written.(usedIds := w.usedIds + {choice.eventId}, events := w.events + [Event(notice, known)])
      else
        written
    else
      GoTo(w, pid, Checking(inode, known.value))
  }

  function Deliver(w: World, pid: nat, inode: nat, notice: Notice, choice: Choice): World
    requires pid in w.running
  {
    var now := w.running[pid].now;
    if !Ready(notice, now) then
      GoTo(w, pid, Closing(inode, NOTHING_SENT))
    else if !choice.destination then
      Persist(w, pid, inode, notice, Closing(inode, NOTHING_SENT))
    else
      var next := Reserve(notice, now);
      var written := Persist(w, pid, inode, next, Posting(inode, next));
      if StillOwned(w, inode) then written.(reserved := w.reserved + [AttemptOf(next, now)]) else written
  }

  function Act(w: World, pid: nat, choice: Choice): World
    requires pid in w.running
  {
    var p := w.running[pid];
    match p.stage
    case Opening =>
      if w.lock.None?
      then GoTo(w, pid, Reading(choice.inode)).(lock := Some(Lock(choice.inode, w.clock)))
      else GoTo(w, pid, Inspecting)
    case Inspecting =>
      if w.lock.Some? && w.lock.value.mtime < p.now - LEASE then GoTo(w, pid, Evicting) else Return(w, pid, BUSY)
    case Evicting => Return(w, pid, BUSY).(lock := None)
    case Reading(inode) => GoTo(w, pid, if choice.readable then Deciding(inode, w.file) else Closing(inode, Failed))
    case Deciding(inode, known) => Decide(w, pid, inode, known, choice)
    case Checking(inode, notice) => Deliver(w, pid, inode, notice, choice)
    case Posting(inode, notice) =>
      GoTo(w, pid, if choice.accepted then Accepting(inode, notice) else Closing(inode, NOTHING_SENT)).(
        posts := w.posts + [Post(AttemptOf(notice, p.now), w.clock)])
    case Accepting(inode, notice) => Persist(w, pid, inode, notice.(accepted := true), Closing(inode, Answer(true, false)))
    case Closing(inode, result) => GoTo(w, pid, Comparing(inode, result))
    case Comparing(inode, result) => if LockIs(w, inode) then GoTo(w, pid, Unlinking(result)) else Return(w, pid, result)
    case Unlinking(result) => Return(w, pid, result).(lock := None)
  }

  /**
   A file system reuses an inode only when no handle holds it; a UUID is never reused. A call may be given
   a time that is past, as its optional parameter allows; the runs of calls without it are those in time.
   */
  predicate Enabled(w: World, move: Move) {
    match move
    case Pass(_) => true
    case Invoke(pid, _, now) => pid !in w.running && now <= w.clock
    case Crash(pid) => pid in w.running
    case Advance(pid, choice) =>
      && pid in w.running
      && (w.running[pid].stage.Opening? && w.lock.None? ==> HandleFree(w, choice.inode))
      && (w.running[pid].stage.Deciding? ==> choice.eventId !in w.usedIds)
  }

  function Apply(w: World, move: Move): World
    requires Enabled(w, move)
  {
    match move
    case Pass(ms) => w.(clock := w.clock + ms)
    case Invoke(pid, available, now) => w.(running := w.running[pid := Invocation(available, now, Opening)])
    case Crash(pid) => Finish(w, pid)
    case Advance(pid, choice) => Act(w, pid, choice)
  }

  predicate Legal(w: World, moves: seq<Move>)
    decreases |moves|
  {
    moves == [] || (Enabled(w, moves[0]) && Legal(Apply(w, moves[0]), moves[1..]))
  }

  function Run(w: World, moves: seq<Move>): World
    requires Legal(w, moves)
    decreases |moves|
  {
    if moves == [] then w else Run(Apply(w, moves[0]), moves[1..])
  }

  /** Some run leads from one world to the other. */
  ghost predicate Reaches(w: World, t: World) {
    exists moves :: Legal(w, moves) && Run(w, moves) == t
  }

  /** Every call takes its time from the clock when it is made, as one without a time of its own does. */
  predicate InTime(w: World, moves: seq<Move>)
    requires Legal(w, moves)
    decreases |moves|
  {
    moves == [] || ((moves[0].Invoke? ==> moves[0].now == w.clock) && InTime(Apply(w, moves[0]), moves[1..]))
  }

  ghost predicate ReachesInTime(w: World, t: World) {
    exists moves :: Legal(w, moves) && InTime(w, moves) && Run(w, moves) == t
  }

  /** Before the monitor first runs: no state file, no lock file. */
  function Start(clock: int): World {
    World(clock, None, None, map[], {}, [], [], [], {}, [])
  }
}
