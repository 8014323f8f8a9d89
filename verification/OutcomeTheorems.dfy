/** Exactly once, whatever answers are lost, and what a remembered request id can and cannot replay. */
module OutcomeTheorems {
  import opened Options
  import opened OutcomeProtocol

  // ----- What happened to the follow-up -----

  /** Every entry sets the status, except an outcome "not sent". */
  predicate Changes(e: Entry) {
    e.Elsewhere? || !e.outcome.NotSent?
  }

  /** The status that the first `n` entries left. */
  function StatusAt(log: seq<Entry>, n: nat): Status
    requires n <= |log|
  {
    if n == 0 then Pending else if Changes(log[n - 1]) then log[n - 1].status else StatusAt(log, n - 1)
  }

  function StatusAfter(log: seq<Entry>): Status {
    StatusAt(log, |log|)
  }

  /** The status says what happened: skipped, pending again or still, or done. */
  predicate SaysWhatHappened(outcome: Outcome, status: Status, workflow: bool) {
    && (status.SkippedOver? <==> outcome.Skipped?)
    && (status.Pending? <==> outcome.Reopened? || outcome.NotSent? || (outcome.Rescheduled? && workflow))
    && !status.Canceled?
  }

  /**
   What an outcome is recorded from: a reopening from a finished follow-up, "not sent" from any, and all
   others from a pending one, by the status that the entries before it left.
   */
  predicate Recordable(before: Status, e: Entry, workflow: bool) {
    match e
    case Elsewhere(_) => true
    case Record(_, outcome, status) =>
      && SaysWhatHappened(outcome, status, workflow)
      && (outcome.Reopened? ==> before == Done || before == SkippedOver)
      && (!outcome.Reopened? && !outcome.NotSent? ==> before == Pending)
  }

  ghost predicate LogIsSound(log: seq<Entry>, workflow: bool) {
    && (forall i {:trigger StatusAt(log, i)} :: 0 <= i < |log| ==> Recordable(StatusAt(log, i), log[i], workflow))
    && (forall i, j :: 0 <= i < j < |log| && log[i].Record? && log[j].Record? ==> log[i].id != log[j].id)
  }

  ghost predicate StoredMatchesLog(stored: map<nat, Status>, log: seq<Entry>) {
    && (forall i :: 0 <= i < |log| && log[i].Record? ==> log[i].id in stored && stored[log[i].id] == log[i].status)
    && (forall id :: id in stored ==> Logged(log, id))
  }

  ghost predicate Logged(log: seq<Entry>, id: nat) {
    exists e :: e in log && e.Record? && e.id == id
  }

  ghost predicate ServerIsSound(server: Server) {
    && LogIsSound(server.log, server.workflow)
    && server.status == StatusAfter(server.log)
    && StoredMatchesLog(server.stored, server.log)
  }

  // ----- The calls and the memories -----

  /** The outcome each id was minted for. */
  type Purposes = map<nat, Outcome>

  ghost predicate CallsAreSound(calls: map<nat, Call>, nextCall: nat, server: Server, purposes: Purposes) {
    forall k :: k in calls ==>
      && k < nextCall
      && calls[k].id in purposes && purposes[calls[k].id] == calls[k].outcome
      && (calls[k].stage.Answered? && calls[k].stage.answer.Recorded? ==>
        calls[k].id in server.stored && server.stored[calls[k].id] == calls[k].stage.answer.status)
      && (calls[k].stage.Seen? ==>
        calls[k].stage.since <= |server.log| && calls[k].stage.status == StatusAt(server.log, calls[k].stage.since))
  }

  predicate SaveIsSound(save: Save, calls: map<nat, Call>) {
    && save.call in calls
    && calls[save.call].id == save.id
    && calls[save.call].outcome == save.key.outcome
  }

  ghost predicate ControlsAreSound(controls: map<nat, Control>, calls: map<nat, Call>, purposes: Purposes) {
    forall c :: c in controls ==>
      && (controls[c].saving.Some? ==> SaveIsSound(controls[c].saving.value, calls))
      && (forall key :: key in controls[c].ids ==> controls[c].ids[key] in purposes && purposes[controls[c].ids[key]] == key.outcome)
  }

  predicate Remembers(controls: map<nat, Control>, c: nat, key: Key) {
    c in controls && key in controls[c].ids
  }

  /** No id is remembered by two controls or for two attempts. */
  ghost predicate IdsDiffer(controls: map<nat, Control>) {
    forall c, d, key, other :: Remembers(controls, c, key) && Remembers(controls, d, other) && (c != d || key != other) ==>
      controls[c].ids[key] != controls[d].ids[other]
  }

  ghost predicate PurposesAreOld(purposes: Purposes, nextId: nat) {
    forall id :: id in purposes ==> id < nextId
  }

  ghost predicate LogHasPurposes(log: seq<Entry>, purposes: Purposes) {
    forall i :: 0 <= i < |log| && log[i].Record? ==> log[i].id in purposes && purposes[log[i].id] == log[i].outcome
  }

  ghost predicate Sound(w: World, purposes: Purposes) {
    && ServerIsSound(w.server)
    && CallsAreSound(w.calls, w.nextCall, w.server, purposes)
    && ControlsAreSound(w.controls, w.calls, purposes)
    && IdsDiffer(w.controls)
    && PurposesAreOld(purposes, w.nextId)
    && LogHasPurposes(w.server.log, purposes)
  }

  ghost predicate Invariant(w: World) {
    exists purposes :: Sound(w, purposes)
  }

  lemma FreshIsSound(w: World)
    requires Fresh(w)
    ensures Invariant(w)
  {
    assert Sound(w, map[]);
  }

  lemma {:induction false} StatusAtStays(log: seq<Entry>, e: Entry, n: nat)
    requires n <= |log|
    ensures StatusAt(log + [e], n) == StatusAt(log, n)
  {
    if n > 0 {
      assert (log + [e])[n - 1] == log[n - 1];
      StatusAtStays(log, e, n - 1);
    }
  }

  lemma LastStatus(log: seq<Entry>, e: Entry)
    ensures StatusAfter(log + [e]) == if Changes(e) then e.status else StatusAfter(log)
  {
    StatusAtStays(log, e, |log|);
  }

  lemma LogGrows(log: seq<Entry>, e: Entry, workflow: bool)
    requires LogIsSound(log, workflow) && Recordable(StatusAfter(log), e, workflow)
    requires e.Record? ==> forall i :: 0 <= i < |log| && log[i].Record? ==> log[i].id != e.id
    ensures LogIsSound(log + [e], workflow)
  {
    var more := log + [e];
    forall i | 0 <= i < |more| ensures Recordable(StatusAt(more, i), more[i], workflow) {
      StatusAtStays(log, e, i);
    }
  }

  lemma StoredGrows(stored: map<nat, Status>, log: seq<Entry>, e: Entry)
    requires StoredMatchesLog(stored, log) && (e.Record? ==> e.id !in stored)
    ensures StoredMatchesLog(if e.Record? then stored[e.id := e.status] else stored, log + [e])
  {
    var after := if e.Record? then stored[e.id := e.status] else stored;
    forall id | id in after ensures Logged(log + [e], id) {
      if id in stored {
        var d :| d in log && d.Record? && d.id == id;
        assert d in log + [e];
      } else {
        assert e in log + [e];
      }
    }
  }

  /** The server after one more entry: a record under a new id, or a status set elsewhere. */
  function Grown(server: Server, e: Entry): Server {
    server.(
      status := if Changes(e) then e.status else server.status,
      stored := if e.Record? then server.stored[e.id := e.status] else server.stored,
      log := server.log + [e])
  }

  lemma GrownIsSound(server: Server, e: Entry)
    requires ServerIsSound(server) && Recordable(server.status, e, server.workflow) && (e.Record? ==> e.id !in server.stored)
    ensures ServerIsSound(Grown(server, e))
  {
    LogGrows(server.log, e, server.workflow);
    StoredGrows(server.stored, server.log, e);
    LastStatus(server.log, e);
  }

  lemma GrownKeepsCalls(w: World, e: Entry, purposes: Purposes)
    requires CallsAreSound(w.calls, w.nextCall, w.server, purposes) && (e.Record? ==> e.id !in w.server.stored)
    ensures CallsAreSound(w.calls, w.nextCall, Grown(w.server, e), purposes)
  {
    forall k | k in w.calls && w.calls[k].stage.Seen?
      ensures w.calls[k].stage.status == StatusAt(w.server.log + [e], w.calls[k].stage.since)
    {
      StatusAtStays(w.server.log, e, w.calls[k].stage.since);
    }
  }

  lemma GrownKeeps(w: World, e: Entry, purposes: Purposes)
    requires Sound(w, purposes) && Recordable(w.server.status, e, w.server.workflow)
    requires e.Record? ==> e.id !in w.server.stored && e.id in purposes && purposes[e.id] == e.outcome
    ensures Sound(w.(server := Grown(w.server, e)), purposes)
  {
    GrownIsSound(w.server, e);
    GrownKeepsCalls(w, e, purposes);
  }

  /** A request moves on. */
  lemma StageKeeps(w: World, k: nat, stage: Stage, purposes: Purposes)
    requires Sound(w, purposes) && k in w.calls
    requires stage.Answered? && stage.answer.Recorded? ==>
      w.calls[k].id in w.server.stored && w.server.stored[w.calls[k].id] == stage.answer.status
    requires stage.Seen? ==> stage.since <= |w.server.log| && stage.status == StatusAt(w.server.log, stage.since)
    ensures Sound(Staged(w, k, stage), purposes)
  {
    var next := Staged(w, k, stage);
    assert CallsAreSound(next.calls, next.nextCall, next.server, purposes);
    assert ControlsAreSound(next.controls, next.calls, purposes);
  }

  lemma CommitKeeps(w: World, k: nat, purposes: Purposes)
    requires Sound(w, purposes) && Enabled(w, Commit(k))
    ensures Sound(Apply(w, Commit(k)), purposes)
  {
    var call := w.calls[k];
    var status := Outcomes(w.server, call.outcome, call.stage.status);
    if call.id in w.server.stored {
      StageKeeps(w, k, Answered(Recorded(w.server.stored[call.id])), purposes);
    } else if status.None? {
      StageKeeps(w, k, Refusing, purposes);
    } else {
      var e := Record(call.id, call.outcome, status.value);
      GrownKeeps(w, e, purposes);
      StageKeeps(w.(server := Grown(w.server, e)), k, Answered(Recorded(status.value)), purposes);
    }
  }

  lemma SubmittedRemembers(w: World, c: nat, key: Key, d: nat, other: Key)
    requires c in w.controls && Remembers(Submitted(w, c, key).controls, d, other) && (d != c || other != key)
    ensures Remembers(w.controls, d, other)
    ensures Submitted(w, c, key).controls[d].ids[other] == w.controls[d].ids[other]
  {
  }

  lemma SubmittedIdsDiffer(w: World, c: nat, key: Key, purposes: Purposes)
    requires IdsDiffer(w.controls) && ControlsAreSound(w.controls, w.calls, purposes) && PurposesAreOld(purposes, w.nextId)
    requires c in w.controls
    ensures IdsDiffer(Submitted(w, c, key).controls)
  {
    var next := Submitted(w, c, key);
    var id := next.controls[c].ids[key];
    forall d, other | Remembers(next.controls, d, other) && (d != c || other != key)
      ensures Remembers(w.controls, d, other) && next.controls[d].ids[other] == w.controls[d].ids[other] != id
    {
      SubmittedRemembers(w, c, key, d, other);
      assert w.controls[d].ids[other] in purposes;
      if key in w.controls[c].ids {
        assert Remembers(w.controls, c, key);
      }
    }
  }

  predicate KnownBySubmit(w: World, c: nat, key: Key, purposes: Purposes, known: Purposes)
    requires c in w.controls
  {
    known == if key in w.controls[c].ids then purposes else purposes[w.nextId := key.outcome]
  }

  lemma SubmittedCallIsSound(w: World, c: nat, key: Key, purposes: Purposes, known: Purposes)
    requires Sound(w, purposes) && Enabled(w, Submit(c, key)) && KnownBySubmit(w, c, key, purposes, known)
    ensures var next := Submitted(w, c, key); CallsAreSound(next.calls, next.nextCall, next.server, known)
  {
  }

  lemma SubmittedControlIsSound(w: World, c: nat, key: Key, purposes: Purposes, known: Purposes)
    requires Sound(w, purposes) && Enabled(w, Submit(c, key)) && KnownBySubmit(w, c, key, purposes, known)
    ensures var next := Submitted(w, c, key); ControlsAreSound(next.controls, next.calls, known)
  {
  }

  lemma SubmitKeeps(w: World, c: nat, key: Key, purposes: Purposes)
    requires Sound(w, purposes) && Enabled(w, Submit(c, key))
    ensures Invariant(Submitted(w, c, key))
  {
    var next := Submitted(w, c, key);
    var id := next.controls[c].ids[key];
    var known := if key in w.controls[c].ids then purposes else purposes[id := key.outcome];
    SubmittedIdsDiffer(w, c, key, purposes);
    SubmittedCallIsSound(w, c, key, purposes, known);
    SubmittedControlIsSound(w, c, key, purposes, known);
    assert Sound(next, known);
  }

  /** Memories that only lose ids, and saves that only end. */
  ghost predicate OnlyDrops(controls: map<nat, Control>, after: map<nat, Control>) {
    && after.Keys == controls.Keys
    && forall c :: c in controls ==>
      && (after[c].saving == None || after[c].saving == controls[c].saving)
      && forall key :: key in after[c].ids ==> key in controls[c].ids && after[c].ids[key] == controls[c].ids[key]
  }

  lemma HearingOnlyDrops(w: World, c: nat, result: Result)
    requires c in w.controls && w.controls[c].saving.Some?
    ensures Heard(w, c, result) == w.(controls := Heard(w, c, result).controls)
    ensures OnlyDrops(w.controls, Heard(w, c, result).controls)
  {
  }

  lemma HearKeeps(w: World, c: nat, result: Result, purposes: Purposes)
    requires Sound(w, purposes) && c in w.controls && w.controls[c].saving.Some?
    ensures Sound(Heard(w, c, result), purposes)
  {
    HearingOnlyDrops(w, c, result);
    var after := Heard(w, c, result).controls;
    assert ControlsAreSound(after, w.calls, purposes);
    assert forall d, key :: Remembers(after, d, key) ==> Remembers(w.controls, d, key);
  }

  lemma StepKeepsInvariant(w: World, move: Move)
    requires Invariant(w) && Enabled(w, move)
    ensures Invariant(Apply(w, move))
  {
    var purposes :| Sound(w, purposes);
    match move
    case Submit(c, key) => SubmitKeeps(w, c, key, purposes);
    case LookUp(k) => StageKeeps(w, k, Found(w.server, w.calls[k].id, Looked), purposes);
    case ReadJump(k) => StageKeeps(w, k, Apply(w, move).calls[k].stage, purposes);
    case Commit(k) => CommitKeeps(w, k, purposes);
    case LookAgain(k) => StageKeeps(w, k, Found(w.server, w.calls[k].id, Refused), purposes);
    case ReadStatus(k) => StageKeeps(w, k, Answered(Conflicting(w.server.status)), purposes);
    case Hear(c) => HearKeeps(w, c, ResultOf(w.controls[c].saving.value.key.outcome, AnswerFor(w, c)), purposes);
    case Lose(c) => HearKeeps(w, c, Thrown, purposes);
    case ChangeElsewhere(status) => GrownKeeps(w, Elsewhere(status), purposes);
  }

  lemma {:induction false} RunKeepsInvariant(w: World, moves: seq<Move>)
    requires Invariant(w) && Legal(w, moves)
    ensures Invariant(Run(w, moves))
    decreases |moves|
  {
    if moves != [] {
      StepKeepsInvariant(w, moves[0]);
      RunKeepsInvariant(Apply(w, moves[0]), moves[1..]);
    }
  }

  // ----- Exactly once -----

  function RecordsOf(log: seq<Entry>, id: nat): nat {
    if log == [] then 0
    else
      var last := log[|log| - 1];
      RecordsOf(log[..|log| - 1], id) + (if last.Record? && last.id == id then 1 else 0)
  }

  lemma {:induction false} DistinctIdsRecordOnce(log: seq<Entry>, id: nat)
    requires forall i, j :: 0 <= i < j < |log| && log[i].Record? && log[j].Record? ==> log[i].id != log[j].id
    ensures RecordsOf(log, id) <= 1
    ensures RecordsOf(log, id) == 0 <==> forall i :: 0 <= i < |log| && log[i].Record? ==> log[i].id != id
  {
    if log != [] {
      var before, last := log[..|log| - 1], log[|log| - 1];
      DistinctIdsRecordOnce(before, id);
      assert forall i :: 0 <= i < |before| ==> before[i] == log[i];
      assert last.Record? && last.id == id ==> forall i :: 0 <= i < |before| && before[i].Record? ==> before[i].id != id;
    }
  }

  /** Through any number of submissions, retries and late requests an id records at most one outcome. */
  lemma EachIdRecordsAtMostOnce(w: World, id: nat)
    requires Invariant(w)
    ensures RecordsOf(w.server.log, id) <= 1
  {
    DistinctIdsRecordOnce(w.server.log, id);
  }

  /** A follow-up becomes pending again: by a reopening that is recorded, or elsewhere. */
  predicate Reopens(e: Entry) {
    if e.Record? then e.outcome.Reopened? else e.status.Pending?
  }

  lemma {:induction false} ReopenedInBetween(log: seq<Entry>, workflow: bool, i: nat, j: nat)
    requires LogIsSound(log, workflow) && i <= j <= |log| && !StatusAt(log, i).Pending? && StatusAt(log, j).Pending?
    ensures exists m :: i <= m < j && Reopens(log[m])
    decreases j
  {
    if i < j {
      assert Recordable(StatusAt(log, j - 1), log[j - 1], workflow);
      if !Reopens(log[j - 1]) {
        ReopenedInBetween(log, workflow, i, j - 1);
      }
    }
  }

  /** Between two records that finished the follow-up it was reopened: by a record, or elsewhere. */
  lemma FinishedOncePerReopening(w: World, i: nat, j: nat)
    requires Invariant(w) && i < j < |w.server.log| && w.server.log[i].Record? && w.server.log[j].Record?
    requires Finished(w.server.log[i].status) && Finished(w.server.log[j].status)
    ensures exists m :: i < m < j && Reopens(w.server.log[m])
  {
    var log, workflow := w.server.log, w.server.workflow;
    assert Recordable(StatusAt(log, i), log[i], workflow) && Recordable(StatusAt(log, j), log[j], workflow);
    assert StatusAt(log, i + 1) == log[i].status;
    ReopenedInBetween(log, workflow, i + 1, j);
  }

  /** A caller that is told "saved" holds the status that was recorded, once, for its own attempt. */
  lemma SavedIsTheRecord(w: World, c: nat)
    requires Invariant(w) && Enabled(w, Hear(c))
    requires ResultOf(w.controls[c].saving.value.key.outcome, AnswerFor(w, c)).Saved?
    ensures var save := w.controls[c].saving.value;
      && RecordsOf(w.server.log, save.id) == 1
      && Record(save.id, save.key.outcome, AnswerFor(w, c).status) in w.server.log
  {
    var save := w.controls[c].saving.value;
    var e :| e in w.server.log && e.Record? && e.id == save.id;
    DistinctIdsRecordOnce(w.server.log, save.id);
  }

  /**
   In every world a record's status says what happened: skipped exactly by a skip; pending exactly by a
   reopening, "not sent" or, in a workflow, a rescheduling; and done by all others.
   */
  lemma RecordsSayWhatHappened(w: World, i: nat)
    requires Invariant(w) && i < |w.server.log| && w.server.log[i].Record?
    ensures var e := w.server.log[i];
      && (e.status == SkippedOver <==> e.outcome == Skipped)
      && (e.status == Pending <==> e.outcome == Reopened || e.outcome == NotSent || (e.outcome == Rescheduled && w.server.workflow))
      && (e.status == Done <==> e.outcome in {Completed, Connected, LeftVoicemail, NoAnswer, WrongNumber} || (e.outcome == Rescheduled && !w.server.workflow))
  {
    assert Recordable(StatusAt(w.server.log, i), w.server.log[i], w.server.workflow);
  }

  lemma {:induction false} WorkflowStays(w: World, moves: seq<Move>)
    requires Legal(w, moves)
    ensures Run(w, moves).server.workflow == w.server.workflow
    decreases |moves|
  {
    if moves != [] {
      WorkflowStays(Apply(w, moves[0]), moves[1..]);
    }
  }

  /** A commit adds the record of its own attempt, or nothing. */
  lemma CommitRecordsItsAttempt(w: World, k: nat)
    requires Enabled(w, Commit(k))
    ensures var t := Apply(w, Commit(k)).server;
      t.log == w.server.log ||
        (|t.log| == |w.server.log| + 1 && t.log[..|w.server.log|] == w.server.log
         && t.log[|w.server.log|].Record? && t.log[|w.server.log|].id == w.calls[k].id && t.log[|w.server.log|].outcome == w.calls[k].outcome)
  {
  }

  /**
   A new attempt is refused exactly when no record of it would be sound: "not sent" by the status that it
   saw, all others by the status now.
   */
  lemma RefusedIff(w: World, k: nat)
    requires Invariant(w) && Enabled(w, Commit(k)) && w.calls[k].id !in w.server.stored
    ensures Apply(w, Commit(k)).calls[k].stage.Answered? <==>
      if w.calls[k].outcome.NotSent? then w.calls[k].stage.status == Pending
      else exists status :: Recordable(w.server.status, Record(w.calls[k].id, w.calls[k].outcome, status), w.server.workflow)
  {
    var call, server := w.calls[k], w.server;
    if server.status.Pending? && !call.outcome.Reopened? && !call.outcome.NotSent? {
      var status := if call.outcome.Skipped? then SkippedOver else if call.outcome.Rescheduled? && server.workflow then Pending else Done;
      assert Recordable(server.status, Record(call.id, call.outcome, status), server.workflow);
    } else if Finished(server.status) && call.outcome.Reopened? {
      assert Recordable(server.status, Record(call.id, call.outcome, Pending), server.workflow);
    }
  }

  // ----- Answers and the follow-up's status -----

  /** The last entry from `from` on that set the status. */
  function LastChange(log: seq<Entry>, from: nat, n: nat): (last: Option<nat>)
    requires n <= |log|
    ensures last.Some? ==> from <= last.value < n && Changes(log[last.value])
    ensures forall m :: (if last.Some? then last.value + 1 else from) <= m < n ==> !Changes(log[m])
    decreases n
  {
    if n <= from then None else if Changes(log[n - 1]) then Some(n - 1) else LastChange(log, from, n - 1)
  }

  lemma {:induction false} LastChangeSetsTheStatus(log: seq<Entry>, from: nat, n: nat)
    requires from <= n <= |log|
    ensures StatusAt(log, n) ==
      if LastChange(log, from, n).Some? then log[LastChange(log, from, n).value].status else StatusAt(log, from)
    decreases n
  {
    if from < n && !Changes(log[n - 1]) {
      LastChangeSetsTheStatus(log, from, n - 1);
    }
  }

  /** The follow-up has another status than this one by a change from `from` on. */
  predicate ChangedAwaySince(log: seq<Entry>, from: nat, status: Status) {
    LastChange(log, from, |log|).Some? && log[LastChange(log, from, |log|).value].status != status
  }

  /**
   A caller whose attempt was refused takes it as done exactly when the follow-up is as it asked for: done
   or skipped for an attempt to finish it, pending for a reopening. "Not sent" is never taken as done.
   */
  lemma RefusalIsTakenAsDoneIff(w: World, c: nat)
    requires Enabled(w, Hear(c)) && AnswerFor(w, c).Conflicting?
    ensures var outcome := w.controls[c].saving.value.key.outcome; var status := AnswerFor(w, c).status;
      && (ResultOf(outcome, AnswerFor(w, c)) == AlreadySo(status) <==>
          if outcome == Reopened then status == Pending else outcome != NotSent && (status == Done || status == SkippedOver))
      && (ResultOf(outcome, AnswerFor(w, c)) != AlreadySo(status) ==> Apply(w, Hear(c)).controls[c].ids == w.controls[c].ids)
  {
  }

  /**
   A refusal is taken as "already so" only when the follow-up had that status at the read, and that is
   the status its last change left, recorded or made elsewhere.
   */
  lemma AlreadySoWasSo(w: World, k: nat)
    requires Invariant(w) && Enabled(w, ReadStatus(k))
    requires ResultOf(w.calls[k].outcome, Apply(w, ReadStatus(k)).calls[k].stage.answer).AlreadySo?
    ensures var status := Apply(w, ReadStatus(k)).calls[k].stage.answer.status;
      && status == w.server.status
      && match LastChange(w.server.log, 0, |w.server.log|)
         case None => status.Pending?
         case Some(m) => w.server.log[m].status == status
  {
    LastChangeSetsTheStatus(w.server.log, 0, |w.server.log|);
  }

  /** A new record of any outcome but "not sent" is answered with the status that the follow-up then has. */
  lemma NewRecordIsTheStatus(w: World, k: nat)
    requires Invariant(w) && Enabled(w, Commit(k)) && w.calls[k].id !in w.server.stored && !w.calls[k].outcome.NotSent?
    requires Apply(w, Commit(k)).calls[k].stage.Answered?
    ensures Apply(w, Commit(k)).calls[k].stage.answer == Recorded(Apply(w, Commit(k)).server.status)
  {
  }

  /**
   "Not sent" is recorded as it was seen. Its answer, pending, contradicts the follow-up's status exactly
   when another record or a change elsewhere set another status between its read and its record.
   */
  lemma NotSentContradictsIff(w: World, k: nat)
    requires Invariant(w) && Enabled(w, Commit(k)) && w.calls[k].id !in w.server.stored && w.calls[k].outcome.NotSent?
    requires w.calls[k].stage.status.Pending?
    ensures var t := Apply(w, Commit(k));
      && t.calls[k].stage == Answered(Recorded(Pending))
      && (!t.server.status.Pending? <==> ChangedAwaySince(w.server.log, w.calls[k].stage.since, Pending))
  {
    LastChangeSetsTheStatus(w.server.log, w.calls[k].stage.since, |w.server.log|);
  }

  // ----- Replays -----

  /** The last outcome that was recorded is this id's. */
  ghost predicate IsLastRecord(log: seq<Entry>, id: nat) {
    exists i :: 0 <= i < |log| && log[i].Record? && log[i].id == id && forall j :: i < j < |log| ==> !log[j].Record?
  }

  /** Another outcome was recorded after this id's. */
  ghost predicate Superseded(log: seq<Entry>, id: nat) {
    exists i, j :: 0 <= i < j < |log| && log[i].Record? && log[i].id == id && log[j].Record?
  }

  /** Submitted now and looked up at once, the attempt is answered from the store by another than the last record. */
  ghost predicate ReplaysAnOldRecord(w: World, c: nat, key: Key)
    requires Enabled(w, Submit(c, key))
  {
    var t := Apply(Submitted(w, c, key), LookUp(w.nextCall));
    t.calls[w.nextCall].stage.Answered? && !IsLastRecord(t.server.log, t.calls[w.nextCall].id)
  }

  /**
   An attempt replays an old record exactly when its control remembers an id for it, the id has an answer
   stored, and another outcome was recorded after it.
   */
  lemma OldRecordIsReplayedIff(w: World, c: nat, key: Key)
    requires Invariant(w) && Enabled(w, Submit(c, key))
    ensures ReplaysAnOldRecord(w, c, key) <==>
      key in w.controls[c].ids && w.controls[c].ids[key] in w.server.stored && Superseded(w.server.log, w.controls[c].ids[key])
  {
    var purposes :| Sound(w, purposes);
    StoredIdsAreOld(w, purposes);
    if key in w.controls[c].ids && w.controls[c].ids[key] in w.server.stored {
      SupersededIff(w.server, w.controls[c].ids[key]);
    }
  }

  lemma StoredIdsAreOld(w: World, purposes: Purposes)
    requires Sound(w, purposes)
    ensures forall id :: id in w.server.stored ==> id < w.nextId
  {
    forall id | id in w.server.stored ensures id < w.nextId {
      var e :| e in w.server.log && e.Record? && e.id == id;
      assert e.id in purposes;
    }
  }

  lemma SupersededIff(server: Server, id: nat)
    requires ServerIsSound(server) && id in server.stored
    ensures Superseded(server.log, id) <==> !IsLastRecord(server.log, id)
  {
    var log := server.log;
    var e :| e in log && e.Record? && e.id == id;
    var i :| 0 <= i < |log| && log[i] == e;
    if !Superseded(log, id) {
      assert forall j :: i < j < |log| ==> !log[j].Record?;
    }
    if IsLastRecord(log, id) {
      var m :| 0 <= m < |log| && log[m].Record? && log[m].id == id && forall j :: m < j < |log| ==> !log[j].Record?;
      assert m == i;
      assert forall l, j :: 0 <= l < j < |log| && log[l].Record? && log[l].id == id && log[j].Record? ==> l == m;
    }
  }

  /**
   The status that a replay of record `i` answers with differs from the follow-up's exactly when the last
   change after it set another one or, with no change since, when it said "not sent" of a follow-up that
   was not pending.
   */
  lemma ReplayDiffersIff(w: World, i: nat)
    requires Invariant(w) && i < |w.server.log| && w.server.log[i].Record?
    ensures var log := w.server.log;
      w.server.stored[log[i].id] != w.server.status <==>
        if LastChange(log, i + 1, |log|).Some? then ChangedAwaySince(log, i + 1, log[i].status)
        else log[i].outcome.NotSent? && !StatusAt(log, i).Pending?
  {
    var log := w.server.log;
    assert Recordable(StatusAt(log, i), log[i], w.server.workflow);
    LastChangeSetsTheStatus(log, i + 1, |log|);
  }

  // ----- Retries -----

  /** The move drops this attempt's id: its answer is heard or, for a tray, any change in its page. */
  predicate Drops(w: World, move: Move, c: nat, key: Key)
    requires Enabled(w, move) && c in w.controls
  {
    && move.Hear?
    && !ResultOf(w.controls[move.control].saving.value.key.outcome, AnswerFor(w, move.control)).Thrown?
    && ((move.control == c && w.controls[c].saving.value.key == key) ||
        (w.controls[c].tray && w.controls[move.control].page == w.controls[c].page))
  }

  ghost predicate NeverDrops(w: World, moves: seq<Move>, c: nat, key: Key)
    requires Legal(w, moves)
    decreases |moves|
  {
    c in w.controls && (moves == [] || (!Drops(w, moves[0], c, key) && NeverDrops(Apply(w, moves[0]), moves[1..], c, key)))
  }

  /** The id of an attempt stays as long as nothing drops it, through lost answers and errors: a retry sends the same one. */
  lemma {:induction false} RetrySendsTheSameId(w: World, moves: seq<Move>, c: nat, key: Key)
    requires Legal(w, moves) && NeverDrops(w, moves, c, key) && key in w.controls[c].ids
    ensures var t := Run(w, moves);
      && c in t.controls && key in t.controls[c].ids && t.controls[c].ids[key] == w.controls[c].ids[key]
      && Submitted(t, c, key).calls[t.nextCall] == Call(key.outcome, w.controls[c].ids[key], Waiting)
    decreases |moves|
  {
    if moves != [] {
      RetrySendsTheSameId(Apply(w, moves[0]), moves[1..], c, key);
    }
  }

  /**
   An answer that is heard ends the attempt: the control is free again and has forgotten its id, so the
   same attempt made anew has an id never used before. A failure frees the control and keeps the id.
   */
  lemma HeardAttemptIsOver(w: World, c: nat)
    requires Invariant(w) && Enabled(w, Hear(c))
    ensures var t := Apply(w, Hear(c)); var save := w.controls[c].saving.value;
      && Enabled(t, Submit(c, save.key))
      && (if ResultOf(save.key.outcome, AnswerFor(w, c)) == Thrown then t.controls[c].ids == w.controls[c].ids
          else save.key !in t.controls[c].ids && Submitted(t, c, save.key).calls[t.nextCall].id == w.nextId && w.nextId !in t.server.stored)
  {
    var purposes :| Sound(w, purposes);
    StoredIdsAreOld(w, purposes);
  }

  /** A lost answer frees the control and leaves everything remembered. */
  lemma LostAttemptIsKept(w: World, c: nat)
    requires Enabled(w, Lose(c))
    ensures Apply(w, Lose(c)) == w.(controls := w.controls[c := w.controls[c].(saving := None)])
  {
  }

  /** A canceled follow-up is refused as it is read: nothing is recorded, and the caller keeps its attempt. */
  lemma CanceledIsRefused(w: World, k: nat)
    requires Enabled(w, ReadJump(k))
    ensures var t := Apply(w, ReadJump(k));
      && t.server == w.server
      && (t.calls[k].stage.Answered? <==> w.server.status == Canceled)
      && (t.calls[k].stage.Answered? ==> ResultOf(t.calls[k].outcome, t.calls[k].stage.answer) == Thrown)
      && (!t.calls[k].stage.Answered? ==> t.calls[k].stage == Seen(w.server.status, |w.server.log|))
  {
  }

  /** In a page that hears of a change, the tray remembers nothing: its next submission has an id never used before. */
  lemma TrayStartsAfreshAfterAChange(w: World, c: nat, tray: nat, key: Key)
    requires Invariant(w) && Enabled(w, Hear(c)) && tray in w.controls && w.controls[tray].tray
    requires w.controls[tray].page == w.controls[c].page
    requires !ResultOf(w.controls[c].saving.value.key.outcome, AnswerFor(w, c)).Thrown?
    ensures var t := Apply(w, Hear(c));
      && tray in t.controls && t.controls[tray].ids == map[]
      && Submitted(t, tray, key).calls[t.nextCall].id == w.nextId
      && w.nextId !in w.server.stored
  {
    var purposes :| Sound(w, purposes);
    StoredIdsAreOld(w, purposes);
  }
}
