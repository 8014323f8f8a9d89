/** Runs in which an answer misleads: what the conditions of `OutcomeTheorems` leave open does occur. */
module OutcomeRuns {
  import opened Options
  import opened OutcomeProtocol
  import opened OutcomeTheorems

  ghost predicate Reaches(w: World, t: World) {
    exists moves :: Legal(w, moves) && Run(w, moves) == t
  }

  lemma {:induction false} RunExtends(w: World, moves: seq<Move>, move: Move)
    requires Legal(w, moves) && Enabled(Run(w, moves), move)
    ensures Legal(w, moves + [move]) && Run(w, moves + [move]) == Apply(Run(w, moves), move)
    decreases |moves|
  {
    if moves == [] {
      assert moves + [move] == [move];
      assert Legal(Apply(w, move), [move][1..]);
    } else {
      assert (moves + [move])[1..] == moves[1..] + [move];
      RunExtends(Apply(w, moves[0]), moves[1..], move);
    }
  }

  lemma Next(w: World, t: World, move: Move) returns (next: World)
    requires Reaches(w, t) && Enabled(t, move)
    ensures next == Apply(t, move) && Reaches(w, next)
  {
    var moves :| Legal(w, moves) && Run(w, moves) == t;
    RunExtends(w, moves, move);
    next := Apply(t, move);
  }

  /** A request is carried out without interruption while nothing is stored under its id. */
  lemma Serve(start: World, w: World, k: nat) returns (t: World)
    requires Reaches(start, w) && k in w.calls && w.calls[k].stage.Waiting? && w.calls[k].id !in w.server.stored
    requires Outcomes(w.server, w.calls[k].outcome, w.server.status).Some? && !w.server.status.Canceled?
    ensures Reaches(start, t)
    ensures var (server, status) := Handle(w.server, w.calls[k].outcome, w.calls[k].id, w.server.status);
      t == Staged(w, k, Answered(Recorded(status.value))).(server := server)
  {
    t := Next(start, w, LookUp(k));
    t := Next(start, t, ReadJump(k));
    t := Next(start, t, Commit(k));
    assert t.calls == Staged(w, k, t.calls[k].stage).calls;
  }

  lemma StartReached(w: World)
    ensures Reaches(w, w)
  {
    assert Legal(w, []) && Run(w, []) == w;
  }

  const DONE_KEY := Key(Completed, 0)

  /** A pending follow-up with a tray in one page and a button in another. */
  function TwoPages(): World {
    World(
      Server(Pending, false, map[], []),
      map[0 := Control(0, true, map[], None), 1 := Control(1, false, map[], None)], map[], 0, 0)
  }

  /** The tray has just sent an attempt of its own. */
  function TraySent(key: Key): World {
    World(
      Server(Pending, false, map[], []),
      map[0 := Control(0, true, map[key := 0], Some(Save(key, 0, 0))), 1 := Control(1, false, map[], None)],
      map[0 := Call(key.outcome, 0, Waiting)], 1, 1)
  }

  lemma TraySends(key: Key)
    ensures Fresh(TwoPages()) && Reaches(TwoPages(), TraySent(key))
  {
    StartReached(TwoPages());
    var t := Next(TwoPages(), TwoPages(), Submit(0, key));
    assert t.controls[0].ids == map[key := 0];
    assert t.controls == TraySent(key).controls && t.calls == TraySent(key).calls;
  }

  // ----- A reopening that is not heard -----

  /** The tray is about to hear "done" for a follow-up that is pending. */
  predicate HearsOldAnswer(w: World, c: nat) {
    Enabled(w, Hear(c)) && w.controls[c].tray && AnswerFor(w, c) == Recorded(Done) && w.server.status.Pending?
  }

  /** "Done" was recorded, and the tray's answer to it was lost. */
  predicate DoneUnheard(t: World) {
    && t.server == Server(Done, false, map[0 := Done], [Record(0, Completed, Done)])
    && t.controls == map[0 := Control(0, true, map[DONE_KEY := 0], None), 1 := Control(1, false, map[], None)]
    && t.calls.Keys == {0} && t.nextCall == 1 && t.nextId == 1
  }

  lemma DoneIsRecorded() returns (t: World)
    ensures Reaches(TwoPages(), t) && t.controls == TraySent(DONE_KEY).controls
    ensures t.server == Server(Done, false, map[0 := Done], [Record(0, Completed, Done)])
    ensures t.calls.Keys == {0} && t.nextCall == 1 && t.nextId == 1
  {
    TraySends(DONE_KEY);
    t := Serve(TwoPages(), TraySent(DONE_KEY), 0);
  }

  lemma DoneIsUnheard() returns (t: World)
    ensures Reaches(TwoPages(), t) && DoneUnheard(t)
  {
    t := DoneIsRecorded();
    t := Next(TwoPages(), t, Lose(0));
  }

  lemma OtherPageReopens(w: World) returns (t: World)
    requires Reaches(TwoPages(), w) && DoneUnheard(w)
    ensures Reaches(TwoPages(), t) && t.server.status.Pending? && t.server.stored == map[0 := Done, 1 := Pending]
    ensures 0 in t.controls && t.controls[0] == w.controls[0] && t.nextCall == 2
  {
    t := Next(TwoPages(), w, Submit(1, Key(Reopened, 0)));
    assert t.calls[1] == Call(Reopened, 1, Waiting);
    t := Serve(TwoPages(), t, 1);
  }

  /** A reopening in another page is not heard: the tray's retry gets the old answer for the reopened follow-up. */
  lemma ReopeningElsewhereIsNotHeard() returns (t: World)
    ensures Reaches(TwoPages(), t) && HearsOldAnswer(t, 0)
  {
    t := DoneIsUnheard();
    t := OtherPageReopens(t);
    t := Next(TwoPages(), t, Submit(0, DONE_KEY));
    assert t.calls[2] == Call(Completed, 0, Waiting);
    t := Next(TwoPages(), t, LookUp(2));
  }

  // ----- An outcome that goes by an old read -----

  /** The tray's attempt has been looked up and has read the follow-up as pending. */
  function TrayRead(key: Key): World {
    TraySent(key).(calls := map[0 := Call(key.outcome, 0, Seen(Pending, 0))])
  }

  lemma TrayReads(key: Key)
    ensures Reaches(TwoPages(), TrayRead(key))
  {
    TraySends(key);
    var t := Next(TwoPages(), TraySent(key), LookUp(0));
    t := Next(TwoPages(), t, ReadJump(0));
    assert t.calls == TrayRead(key).calls;
  }

  /** A caller is about to hear that "not sent" was saved and the follow-up is pending, when it is done. */
  predicate HearsPendingOfDone(w: World, c: nat) {
    && Enabled(w, Hear(c)) && w.controls[c].saving.value.key.outcome.NotSent?
    && ResultOf(NotSent, AnswerFor(w, c)) == Saved(Pending) && w.server.status.Done?
  }

  lemma OtherPageFinishes(key: Key) returns (t: World)
    ensures Reaches(TwoPages(), t) && t.server == Server(Done, false, map[1 := Done], [Record(1, Completed, Done)])
    ensures 0 in t.calls && t.calls[0] == TrayRead(key).calls[0]
    ensures 0 in t.controls && t.controls[0] == TrayRead(key).controls[0]
  {
    TrayReads(key);
    t := Next(TwoPages(), TrayRead(key), Submit(1, DONE_KEY));
    assert t.calls[1] == Call(Completed, 1, Waiting);
    t := Serve(TwoPages(), t, 1);
  }

  /** "Done" is recorded between the read and the record of "not sent". */
  lemma NotSentIsSavedOverDone() returns (t: World)
    ensures Reaches(TwoPages(), t) && HearsPendingOfDone(t, 0)
  {
    t := OtherPageFinishes(Key(NotSent, 0));
    t := NotSentCommits(t);
  }

  lemma NotSentCommits(w: World) returns (t: World)
    requires Reaches(TwoPages(), w) && w.server == Server(Done, false, map[1 := Done], [Record(1, Completed, Done)])
    requires 0 in w.calls && w.calls[0] == Call(NotSent, 0, Seen(Pending, 0))
    ensures Reaches(TwoPages(), t) && t.server.status.Done? && t.controls == w.controls
    ensures 0 in t.calls && t.calls[0] == Call(NotSent, 0, Answered(Recorded(Pending)))
  {
    t := Next(TwoPages(), w, Commit(0));
  }

  // ----- A status that no outcome left -----

  /** A caller is about to hear "already done" of a follow-up of which no outcome was ever recorded. */
  predicate HearsDoneWithoutRecord(w: World, c: nat) {
    && Enabled(w, Hear(c))
    && ResultOf(w.controls[c].saving.value.key.outcome, AnswerFor(w, c)) == AlreadySo(Done)
    && forall i :: 0 <= i < |w.server.log| ==> !w.server.log[i].Record?
  }

  /** An automatic delivery finishes the follow-up while an outcome is on its way. */
  lemma DeliveredElsewhereIsAlreadySo() returns (t: World)
    ensures Reaches(TwoPages(), t) && HearsDoneWithoutRecord(t, 0)
  {
    t := DeliveredMeanwhile();
    t := RefuseAndRead(TwoPages(), t);
  }

  lemma DeliveredMeanwhile() returns (t: World)
    ensures Reaches(TwoPages(), t) && t.server == Server(Done, false, map[], [Elsewhere(Done)])
    ensures t.controls == TraySent(DONE_KEY).controls && t.calls == TrayRead(DONE_KEY).calls
  {
    TrayReads(DONE_KEY);
    t := Next(TwoPages(), TrayRead(DONE_KEY), ChangeElsewhere(Done));
  }

  lemma RefuseAndRead(start: World, w: World) returns (t: World)
    requires Reaches(start, w) && 0 in w.calls && w.calls[0] == Call(Completed, 0, Seen(Pending, 0))
    requires w.server.status.Done? && w.server.stored == map[]
    ensures Reaches(start, t) && t.server == w.server && t.controls == w.controls
    ensures 0 in t.calls && t.calls[0] == Call(Completed, 0, Answered(Conflicting(Done)))
  {
    t := Next(start, w, Commit(0));
    t := Next(start, t, LookAgain(0));
    t := Next(start, t, ReadStatus(0));
  }
}
