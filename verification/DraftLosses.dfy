/**
 Runs in which something is lost: two in which a save replaces another device's draft that this editor
 was never shown, one in which a discard takes text that was typed after it was confirmed, and one in
 which "Keep my wording" keeps nothing on the server. What the conditions of `DraftTheorems` leave open
 does occur.
 */
module DraftLosses {
  import opened Options
  import opened DraftEditor
  import opened DraftServer
  import opened DraftSafety
  import opened DraftTheorems

  ghost predicate Reaches(s: System, t: System) {
    exists hs :: Legal(s, hs) && Run(s, hs) == t
  }

  lemma {:induction false} RunExtends(s: System, hs: seq<Happening>, h: Happening)
    requires Legal(s, hs) && Enabled(Run(s, hs), h)
    ensures Legal(s, hs + [h]) && Run(s, hs + [h]) == Apply(Run(s, hs), h)
    decreases |hs|
  {
    if hs == [] {
      assert hs + [h] == [h];
      assert Legal(Apply(s, h), [h][1..]);
    } else {
      assert (hs + [h])[1..] == hs[1..] + [h];
      RunExtends(Apply(s, hs[0]), hs[1..], h);
    }
  }

  lemma Next(s: System, t: System, h: Happening) returns (next: System)
    requires Reaches(s, t) && Enabled(t, h)
    ensures next == Apply(t, h) && Reaches(s, next)
  {
    var hs :| Legal(s, hs) && Run(s, hs) == t;
    RunExtends(s, hs, h);
    next := Apply(t, h);
  }

  lemma StartReached(s: System)
    ensures Reaches(s, s)
  {
    assert Legal(s, []) && Run(s, []) == s;
  }

  /** A reachable step that replaces a row whose version this editor does not know. */
  ghost predicate Loses(start: System, s: System, h: Happening, target: SavedDraft) {
    Reaches(start, s) && Replaces(s, h, target) && target.mark.version !in s.known
  }

  /** The owner types and the typing is sent. */
  lemma TypeAndSend(start: System, s: System, text: Source) returns (t: System)
    requires Reaches(start, s) && s.editor.queue == [] && s.editor.inFlight.None? && !Paused(s.editor) && !s.editor.busy
    requires text != s.editor.saved.source
    ensures Reaches(start, t)
    ensures t.calls == s.calls[s.nextCall := Sent(Put(text, s.editor.saved.revision))]
    ensures t.awaited == s.nextCall && t.nextCall == s.nextCall + 1
    ensures t.editor == s.editor.(screen := text, status := Saving, inFlight := Some(Putting(text)))
    ensures (t.row, t.known, t.raced, t.nextVersion, t.nextCreation) == (s.row, s.known, s.raced, s.nextVersion, s.nextCreation)
    ensures t.rows == s.rows && t.plans == s.plans
  {
    t := Next(start, s, Type(text));
    t := Next(start, t, AskSave(Autosave));
    t := SendNow(start, t, text);
  }

  lemma SendNow(start: System, s: System, text: Source) returns (t: System)
    requires Reaches(start, s) && s.editor.queue == [Flush] && s.editor.inFlight.None? && !Paused(s.editor)
    requires s.editor.screen == text != s.editor.saved.source
    ensures Reaches(start, t)
    ensures t.calls == s.calls[s.nextCall := Sent(Put(text, s.editor.saved.revision))]
    ensures t.awaited == s.nextCall && t.nextCall == s.nextCall + 1
    ensures t.editor == s.editor.(queue := [], status := Saving, inFlight := Some(Putting(text)))
    ensures (t.row, t.known, t.raced, t.nextVersion, t.nextCreation) == (s.row, s.known, s.raced, s.nextVersion, s.nextCreation)
    ensures t.rows == s.rows && t.plans == s.plans
  {
    t := Next(start, s, Begin);
  }

  /** Another device discards the draft and writes a new one: its revision is 1 again. */
  lemma DraftCreatedAnewIsOverwritten(template: Source, x: Source, y: Source, z: Source)
    requires z != x
    ensures exists s, h, target :: Loses(Start(template, Some(x)), s, h, target) && target.source == y
  {
    var start := Start(template, Some(x));
    StartReached(start);
    var s := Next(start, start, OtherDiscard);
    s := Next(start, s, OtherSave(y));
    assert s.row == Some(SavedDraft(y, Mark(1, 1, 1)));
    s := TypeAndSend(start, s, z);
    assert Loses(start, s, Decide(0), SavedDraft(y, Mark(1, 1, 1)));
  }

  /** Another device saves between this editor's save and the read that answers it. */
  lemma RowOfRacedAnswerIsOverwritten(template: Source, a: Source, b: Source, c: Source, d: Source)
    requires a != template && b != a && d != b
    ensures exists s, h, target :: Loses(Start(template, None), s, h, target) && target.source == c
  {
    var start := Start(template, None);
    StartReached(start);
    var s := TypeAndSend(start, start, a);
    s := Next(start, s, Decide(0));
    s := Next(start, s, Deliver);
    assert s.editor.saved == Saved(a, Some(Mark(1, 0, 0))) && s.known == {0};
    s := TypeAndSend(start, s, b);
    s := RacedAnswer(start, s, b, c);
    s := TypeAndSend(start, s, d);
    assert Loses(start, s, Decide(2), SavedDraft(c, Mark(3, 2, 0)));
  }

  lemma RacedAnswer(start: System, s: System, b: Source, c: Source) returns (t: System)
    requires Reaches(start, s) && s.awaited == 1 && 1 in s.calls && s.calls[1] == Sent(Put(b, Some(Mark(1, 0, 0))))
    requires s.row.Some? && s.row.value.mark == Mark(1, 0, 0) && s.nextVersion == 1 && s.nextCall == 2 && s.known == {0}
    requires s.editor.inFlight == Some(Putting(b)) && s.editor.queue == [] && !Paused(s.editor) && !s.editor.busy
    ensures Reaches(start, t) && t.row == Some(SavedDraft(c, Mark(3, 2, 0))) && t.known == {0} && t.nextCall == 2
    ensures t.editor.saved == Saved(b, Some(Mark(3, 2, 0)))
    ensures t.editor.queue == [] && t.editor.inFlight.None? && !Paused(t.editor) && !t.editor.busy
  {
    t := Next(start, s, Decide(1));
    t := Next(start, t, OtherSave(c));
    t := Next(start, t, Read(1));
    assert t.calls[1] == Replied(Put(b, Some(Mark(1, 0, 0))), Accepted(Mark(3, 2, 0)), true);
    t := Next(start, t, Deliver);
  }

  // ----- Text that a discard takes -----

  /** The owner confirms a discard while a save is under way, and types on. */
  lemma DiscardQueuedAndTyped(template: Source, x: Source, a: Source, b: Source) returns (s: System)
    requires a != x
    ensures Reaches(Start(template, Some(x)), s)
    ensures s.editor.queue == [Discard(Some(Mark(1, 0, 0)))] && s.editor.inFlight == Some(Putting(a)) && s.editor.screen == b
    ensures s.editor.template == template && s.row == Some(SavedDraft(x, Mark(1, 0, 0)))
    ensures s.rows == {SavedDraft(x, Mark(1, 0, 0))} && s.plans == {template}
    ensures s.calls.Keys == {0} && s.nextCall == 1
  {
    var start := Start(template, Some(x));
    StartReached(start);
    s := TypeAndSend(start, start, a);
    assert s.rows == {SavedDraft(x, Mark(1, 0, 0))} && s.plans == {template};
    s := Next(start, s, PressDiscard);
    s := Next(start, s, ConfirmDiscard(true));
    s := Next(start, s, Type(b));
  }

  /** The save fails, and the discard goes through. */
  lemma SaveFailsDiscardWorks(start: System, s: System, x: Source) returns (t: System)
    requires Reaches(start, s) && s.editor.queue == [Discard(Some(Mark(1, 0, 0)))] && s.editor.inFlight.Some? && s.editor.inFlight.value.Putting?
    requires s.row == Some(SavedDraft(x, Mark(1, 0, 0))) && s.nextCall == 1
    ensures Reaches(start, t) && t.editor.screen == s.editor.template && t.rows == s.rows && t.plans == s.plans
  {
    t := Next(start, s, Lose);
    t := Next(start, t, Begin);
    assert t.calls[1] == Sent(Delete(Mark(1, 0, 0))) && t.editor.inFlight == Some(Deleting(s.editor.screen));
    t := Next(start, t, Decide(1));
    assert t.calls[1] == Replied(Delete(Mark(1, 0, 0)), Removed, false);
    t := Next(start, t, Deliver);
  }

  /** Text typed after the discard was confirmed is replaced by the plan's text, and the server never had it. */
  lemma TypedWhileDiscardWaitedIsLost(template: Source, x: Source, a: Source, b: Source) returns (t: System)
    requires a != x && b != x && b != template
    ensures Reaches(Start(template, Some(x)), t) && t.editor.screen == template && !WasStored(b, t.rows)
  {
    var s := DiscardQueuedAndTyped(template, x, a, b);
    t := SaveFailsDiscardWorks(Start(template, Some(x)), s, x);
  }

  // ----- Wording that is not kept -----

  /** Another device saved first: the owner's save meets a conflict. */
  lemma SaveMeetsConflict(template: Source, x: Source, y: Source, a: Source) returns (s: System)
    requires a != x
    ensures Reaches(Start(template, Some(x)), s)
    ensures s.row == Some(SavedDraft(y, Mark(2, 1, 0))) && s.editor.conflict == Some(Conflict(OnSave, s.row))
    ensures s.editor.queue == [] && s.editor.inFlight.None? && !s.editor.busy && !s.editor.stopped
    ensures s.editor.saved.source == x && s.nextCall == 1
  {
    var start := Start(template, Some(x));
    StartReached(start);
    s := Next(start, start, OtherSave(y));
    assert s.row == Some(SavedDraft(y, Mark(2, 1, 0)));
    s := TypeAndSend(start, s, a);
    s := ConflictIsHeard(start, s, a, y);
  }

  lemma ConflictIsHeard(start: System, s: System, a: Source, y: Source) returns (t: System)
    requires Reaches(start, s) && s.awaited == 0 && 0 in s.calls && s.calls[0] == Sent(Put(a, Some(Mark(1, 0, 0)))) && s.nextCall == 1
    requires s.row == Some(SavedDraft(y, Mark(2, 1, 0))) && s.editor.inFlight == Some(Putting(a))
    ensures Reaches(start, t) && t.row == s.row && t.nextCall == 1
    ensures t.editor == s.editor.(inFlight := None, conflict := Some(Conflict(OnSave, s.row)), status := Idle)
  {
    t := Next(start, s, Decide(0));
    t := Next(start, t, Read(0));
    assert t.calls[0] == Replied(Put(a, Some(Mark(1, 0, 0))), Refused(s.row), false);
    t := Next(start, t, Deliver);
  }

  /** The owner types the saved text again and keeps it: the conflict is over, nothing is sent, and the other version stays. */
  lemma KeptWordingIsNotSent(template: Source, x: Source, y: Source, a: Source) returns (t: System)
    requires a != x && y != x
    ensures Reaches(Start(template, Some(x)), t)
    ensures t.editor.screen == x && t.editor.conflict.None? && !Unsaved(t.editor) && t.editor.queue == [] && t.editor.inFlight.None?
    ensures t.nextCall == 1 && t.row.Some? && t.row.value.source == y
  {
    var start := Start(template, Some(x));
    t := SaveMeetsConflict(template, x, y, a);
    t := Next(start, t, Type(x));
    t := Next(start, t, KeepMine);
    t := Next(start, t, Begin);
  }
}
