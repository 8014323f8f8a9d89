/** No lost wording and no lost update, over every run, and exactly where the server's revisions do not protect. */
module DraftTheorems {
  import opened Options
  import opened DraftEditor
  import opened DraftServer
  import opened DraftSafety

  // ----- No lost wording -----

  /** What the owner does that may change the text on screen. */
  predicate OwnerChoice(h: Happening) {
    h.Type? || h.Revert? || h.UseTheirs? || h.ConfirmDiscard? || h.PressDiscard? || h.DiscardAnyway?
  }

  ghost predicate OnlyFlushes(queue: seq<Task>) {
    forall i :: 0 <= i < |queue| ==> queue[i] == Flush
  }

  /** No discard is waiting, and one that was sent was sent for another text than this. */
  ghost predicate NoDiscardOfScreen(e: Editor) {
    && OnlyFlushes(e.queue)
    && (e.inFlight.Some? && e.inFlight.value.Deleting? ==> e.inFlight.value.before != e.screen)
  }

  /** An editor that moved on without an owner's choice. */
  ghost predicate KeepsWording(e: Editor, f: Editor) {
    && (f.screen == e.screen || e.screen == e.saved.source)
    && (f.screen == e.screen ==> NoDiscardOfScreen(f))
  }

  lemma BeginningKeepsWording(e: Editor)
    requires NoDiscardOfScreen(e) && e.queue != []
    ensures KeepsWording(e, Begun(e).0)
  {
    assert OnlyFlushes(e.queue[1..]);
  }

  lemma AnswerKeepsWording(e: Editor, reply: Reply)
    requires NoDiscardOfScreen(e) && e.inFlight.Some?
    ensures KeepsWording(e, Answered(e, reply))
  {
  }

  lemma RefreshKeepsWording(e: Editor, template: Source, draft: Option<SavedDraft>, newDetails: bool)
    requires NoDiscardOfScreen(e) && e.screen != e.saved.source
    ensures KeepsWording(e, Refreshed(e, template, draft, newDetails))
  {
  }

  lemma RefreshTakesOver(e: Editor, template: Source, draft: Option<SavedDraft>, newDetails: bool)
    requires NoDiscardOfScreen(e) && e.screen == e.saved.source
    ensures KeepsWording(e, Refreshed(e, template, draft, newDetails))
  {
  }

  lemma TaskKeepsWording(e: Editor)
    requires NoDiscardOfScreen(e)
    ensures KeepsWording(e, KeptMine(e)) && forall trigger :: KeepsWording(e, Triggered(e, trigger))
  {
  }

  /** Apart from an owner's choice, the text on screen is replaced only while it is the saved text. */
  lemma StepKeepsWording(s: System, h: Happening)
    requires Enabled(s, h) && !OwnerChoice(h) && NoDiscardOfScreen(s.editor)
    ensures KeepsWording(s.editor, Apply(s, h).editor)
  {
    match h
    case Begin => BeginningKeepsWording(s.editor);
    case Deliver => AnswerKeepsWording(s.editor, s.calls[s.awaited].reply);
    case Lose => AnswerKeepsWording(s.editor, Failed);
    case KeepMine => TaskKeepsWording(s.editor);
    case AskSave(trigger) => TaskKeepsWording(s.editor);
    case Refresh(template, draft, newDetails) =>
      if s.editor.screen != s.editor.saved.source {
        RefreshKeepsWording(s.editor, template, draft, newDetails);
      } else {
        RefreshTakesOver(s.editor, template, draft, newDetails);
      }
    case _ =>
  }

  /** At some point of the run the text was on screen and was the saved text: a row of the server, or the plan's. */
  ghost predicate SavedOnTheWay(s: System, hs: seq<Happening>, text: Source)
    requires Legal(s, hs)
    decreases |hs|
  {
    || (s.editor.screen == text && s.editor.saved.source == text && (text in s.plans || WasStored(text, s.rows)))
    || (hs != [] && SavedOnTheWay(Apply(s, hs[0]), hs[1..], text))
  }

  /**
   Text that was typed stays on screen until the owner chooses otherwise or exactly that text is the
   saved one, as a row of the server or the plan's: through autosaves, lost answers, retries, refreshes,
   conflicts, other devices' writes and discards that were sent for an earlier text.
   */
  lemma {:induction false} WordingStaysUntilSaved(s: System, hs: seq<Happening>)
    requires Invariant(s) && Legal(s, hs) && NoDiscardOfScreen(s.editor)
    requires forall h :: h in hs ==> !OwnerChoice(h)
    ensures Run(s, hs).editor.screen == s.editor.screen || SavedOnTheWay(s, hs, s.editor.screen)
    decreases |hs|
  {
    if hs != [] && !SavedOnTheWay(s, hs, s.editor.screen) {
      StepKeepsInvariant(s, hs[0]);
      StepKeepsWording(s, hs[0]);
      WordingStaysUntilSaved(Apply(s, hs[0]), hs[1..]);
    }
  }

  // ----- The server really had it -----

  /** At some point of the run the server's row had this text. */
  ghost predicate WasRow(s: System, hs: seq<Happening>, text: Source)
    requires Legal(s, hs)
    decreases |hs|
  {
    (s.row.Some? && s.row.value.source == text) || (hs != [] && WasRow(Apply(s, hs[0]), hs[1..], text))
  }

  /** At some point of the run this was the plan's text. */
  ghost predicate WasPlan(s: System, hs: seq<Happening>, text: Source)
    requires Legal(s, hs)
    decreases |hs|
  {
    s.editor.template == text || (hs != [] && WasPlan(Apply(s, hs[0]), hs[1..], text))
  }

  /** Only rows that are there and texts of the plan that is there are recorded. */
  lemma StepRecordsTheRow(s: System, h: Happening)
    requires Enabled(s, h)
    ensures var t := Apply(s, h);
      && (forall d :: d in t.rows ==> d in s.rows || t.row == Some(d))
      && (forall text :: text in t.plans ==> text in s.plans || t.editor.template == text)
      && s.rows <= t.rows && s.plans <= t.plans
  {
  }

  lemma {:induction false} RecordedWasThere(s: System, hs: seq<Happening>, text: Source)
    requires Legal(s, hs)
    ensures WasStored(text, Run(s, hs).rows) ==> WasStored(text, s.rows) || WasRow(s, hs, text)
    ensures text in Run(s, hs).plans ==> text in s.plans || WasPlan(s, hs, text)
    ensures s.rows <= Run(s, hs).rows && s.plans <= Run(s, hs).plans
    decreases |hs|
  {
    if hs != [] {
      StepRecordsTheRow(s, hs[0]);
      RecordedWasThere(Apply(s, hs[0]), hs[1..], text);
    }
  }

  lemma {:induction false} SavedIsRecorded(s: System, hs: seq<Happening>, text: Source)
    requires Legal(s, hs) && SavedOnTheWay(s, hs, text)
    ensures text in Run(s, hs).plans || WasStored(text, Run(s, hs).rows)
    decreases |hs|
  {
    RecordedWasThere(s, hs, text);
    if hs != [] && SavedOnTheWay(Apply(s, hs[0]), hs[1..], text) {
      SavedIsRecorded(Apply(s, hs[0]), hs[1..], text);
    }
  }

  lemma {:induction false} RunsJoin(s: System, hs: seq<Happening>, more: seq<Happening>)
    requires Legal(s, hs) && Legal(Run(s, hs), more)
    ensures Legal(s, hs + more) && Run(s, hs + more) == Run(Run(s, hs), more)
    decreases |hs|
  {
    if hs == [] {
      assert hs + more == more;
    } else {
      assert (hs + more)[1..] == hs[1..] + more;
      RunsJoin(Apply(s, hs[0]), hs[1..], more);
    }
  }

  /**
   From the opened editor on: text on screen with no discard under way stays there until the owner chooses
   otherwise, or it was, by then, the text of the server's row or the plan's.
   */
  lemma WordingReachesTheServer(template: Source, draft: Option<Source>, before: seq<Happening>, hs: seq<Happening>)
    requires Legal(Start(template, draft), before) && Legal(Run(Start(template, draft), before), hs)
    requires NoDiscardOfScreen(Run(Start(template, draft), before).editor) && forall h :: h in hs ==> !OwnerChoice(h)
    ensures var start := Start(template, draft); var s := Run(start, before);
      && Legal(start, before + hs)
      && (Run(s, hs).editor.screen == s.editor.screen
          || WasRow(start, before + hs, s.editor.screen) || WasPlan(start, before + hs, s.editor.screen))
  {
    var start := Start(template, draft);
    var s := Run(start, before);
    StartIsSound(template, draft);
    RunKeepsInvariant(start, before);
    WordingStaysUntilSaved(s, hs);
    RunsJoin(start, before, hs);
    if SavedOnTheWay(s, hs, s.editor.screen) {
      SavedIsRecorded(s, hs, s.editor.screen);
      RecordedWasThere(start, before + hs, s.editor.screen);
    }
  }

  /**
   What an owner is told is saved was saved: the acknowledged text is the server's row of that revision,
   or was the row before another write that the acknowledgement names instead.
   */
  lemma AcknowledgedTextWasStored(s: System)
    requires Invariant(s) && Enabled(s, Deliver) && s.editor.inFlight.value.Putting? && s.calls[s.awaited].reply.Accepted?
    ensures var sent, mark := s.editor.inFlight.value.sent, s.calls[s.awaited].reply.mark; var t := Apply(s, Deliver);
      && t.editor.saved == Saved(sent, Some(mark)) && t.editor.status == Stored
      && (if s.calls[s.awaited].raced then WasStored(sent, s.rows) else SavedDraft(sent, mark) in s.rows)
  {
    assert SavedWhatWasSent(s.calls[s.awaited], s.rows);
  }

  // ----- Discards -----

  /** A discard that the server carried out keeps exactly a text that came on screen after it was sent. */
  lemma ConfirmedDiscardKeepsLaterTyping(e: Editor, reply: Reply)
    requires e.inFlight.Some? && e.inFlight.value.Deleting? && reply.Removed?
    ensures var before := e.inFlight.value.before; var r := Answered(e, reply);
      && r.saved == Saved(e.template, None) && r.conflict.None?
      && (e.screen != before ==> r.screen == e.screen && (Unsaved(r) <==> e.screen != e.template))
      && (e.screen == before ==> r.screen == e.template)
  {
  }

  /**
   What a discard leaves of the text typed while it waited for its turn, and of a text that came on
   screen after it was sent. Without a revision it goes through at once: what was typed while it waited
   stays only if it is the plan's text. With one, the text on screen at the answer stays exactly if the
   server did not carry the discard out, or it is another text than at the start, or it is the plan's.
   */
  lemma DiscardKeepsTextIff(e: Editor, revision: Option<Mark>, waiting: Source, later: Source, reply: Reply)
    requires e.inFlight.None? && e.queue != [] && e.queue[0] == Discard(revision)
    ensures var started := Begun(Typed(e, waiting)).0;
      if revision.None? then started.screen == waiting <==> waiting == e.template
      else Answered(Typed(started, later), reply).screen == later <==> !reply.Removed? || later != waiting || later == e.template
  {
  }

  /** A discard of this text is under way, and the text is nowhere saved. */
  predicate DiscardsUnsaved(e: Editor, text: Source) {
    e.inFlight == Some(Deleting(text)) && e.screen == text && Unsaved(e)
  }

  lemma StepKeepsDiscarding(s: System, h: Happening, text: Source)
    requires Enabled(s, h) && DiscardsUnsaved(s.editor, text) && !OwnerChoice(h) && !h.Deliver? && !h.Lose?
    ensures DiscardsUnsaved(Apply(s, h).editor, text)
  {
  }

  lemma {:induction false} RunKeepsDiscarding(s: System, hs: seq<Happening>, text: Source)
    requires Legal(s, hs) && DiscardsUnsaved(s.editor, text)
    requires forall h :: h in hs ==> !OwnerChoice(h) && !h.Deliver? && !h.Lose?
    ensures DiscardsUnsaved(Run(s, hs).editor, text)
    decreases |hs|
  {
    if hs != [] {
      StepKeepsDiscarding(s, hs[0], text);
      RunKeepsDiscarding(Apply(s, hs[0]), hs[1..], text);
    }
  }

  /**
   Unsaved text that is on screen when a discard with a revision starts, typed before or while it waited,
   is gone after its answer, whatever happened in between without the owner, exactly if the server carried
   the discard out and it is not the plan's text by then.
   */
  lemma StartedDiscardKeepsUnsavedTextIff(s: System, hs: seq<Happening>)
    requires Enabled(s, Begin) && s.editor.queue[0].Discard? && s.editor.queue[0].revision.Some? && Unsaved(s.editor)
    requires Legal(Apply(s, Begin), hs) && forall h :: h in hs ==> !OwnerChoice(h) && !h.Deliver? && !h.Lose?
    requires Enabled(Run(Apply(s, Begin), hs), Deliver)
    ensures var t := Run(Apply(s, Begin), hs);
      Apply(t, Deliver).editor.screen == s.editor.screen <==>
        !t.calls[t.awaited].reply.Removed? || s.editor.screen == t.editor.template
  {
    assert DiscardsUnsaved(Apply(s, Begin).editor, s.editor.screen);
    RunKeepsDiscarding(Apply(s, Begin), hs, s.editor.screen);
  }

  /**
   "Keep my wording" sends that wording, with the other version's revision, by the save that starts next,
   exactly when it differs from the text saved before the conflict.
   */
  lemma KeptWordingIsSentIff(e: Editor)
    requires e.conflict.Some? && !e.stopped && e.inFlight.None? && (e.queue == [] || e.queue[0] == Flush)
    ensures Begun(KeptMine(e)).1 ==
      if e.screen != e.saved.source then Some(Put(e.screen, TheirRevision(e.conflict.value))) else None
  {
    assert KeptMine(e).queue[0] == Flush;
  }

  lemma AnswerKeepsConflict(e: Editor, reply: Reply)
    requires e.inFlight.Some? && !reply.Removed? && !reply.Refused?
    ensures Answered(e, reply).conflict == e.conflict
  {
  }

  /** A conflict stays until the owner answers it, a discard goes through, or a read arrives over saved text. */
  lemma ConflictWaitsForTheOwner(s: System, h: Happening)
    requires Enabled(s, h) && s.editor.conflict.Some? && Apply(s, h).editor.conflict != s.editor.conflict
    ensures
      || h.Revert? || h.KeepMine? || h.UseTheirs?
      || (h.Begin? && s.editor.queue[0] == Discard(None))
      || (h.Deliver? && (s.calls[s.awaited].reply.Removed? || s.calls[s.awaited].reply.Refused?))
      || (h.Refresh? && !Unsaved(s.editor))
  {
    if h.Deliver? && !s.calls[s.awaited].reply.Removed? && !s.calls[s.awaited].reply.Refused? {
      AnswerKeepsConflict(s.editor, s.calls[s.awaited].reply);
    } else if h.Lose? {
      AnswerKeepsConflict(s.editor, Failed);
    }
  }

  // ----- What the owner is shown -----

  /** "Use theirs" shows and holds the other version, a row of the server, or the plan's text when it was discarded. */
  lemma UseTheirsShowsARow(s: System)
    requires Invariant(s) && Enabled(s, UseTheirs)
    ensures var e := Apply(s, UseTheirs).editor; var theirs := s.editor.conflict.value.theirs;
      && !Unsaved(e) && e.conflict == None
      && (if theirs.Some? then e.saved.revision.Some? && theirs == Some(SavedDraft(e.screen, e.saved.revision.value)) && theirs.value in s.rows
          else e.screen == s.editor.template && e.saved.revision == None)
  {
  }

  /** The read differs from the one seen last in its text or its revision number. */
  predicate BringsNews(e: Editor, text: Source, revision: Option<Mark>) {
    || text != e.seen.source
    || (match revision
        case None => e.seen.revision.Some?
        case Some(mark) => e.seen.revision.None? || mark.number != e.seen.revision.value.number)
  }

  /** Unsaved text is never touched by a read. */
  lemma RefreshSparesUnsaved(e: Editor, template: Source, draft: Option<SavedDraft>, newDetails: bool)
    requires e.screen != e.saved.source
    ensures var text, revision := if draft.Some? then draft.value.source else template, if draft.Some? then Some(draft.value.mark) else None;
      Refreshed(e, template, draft, newDetails) ==
        e.(template := template, seen := if newDetails || BringsNews(e, text, revision) then Saved(text, revision) else e.seen)
  {
  }

  /** Text that is saved gives way to a read exactly when that brings news. */
  lemma RefreshReachesUntouched(e: Editor, template: Source, draft: Option<SavedDraft>, newDetails: bool)
    requires e.screen == e.saved.source
    ensures var t := Refreshed(e, template, draft, newDetails);
      var text, revision := if draft.Some? then draft.value.source else template, if draft.Some? then Some(draft.value.mark) else None;
      if newDetails || BringsNews(e, text, revision)
      then t.screen == text && t.saved == t.seen == Saved(text, revision) && t.conflict == None && t.template == template
        && t.status == (if e.stopped then e.status else Idle)
      else t == e.(template := template)
  {
  }

  /** "Revert" shows the saved text and leaves no conflict; what is saved stays. */
  lemma RevertShowsTheSaved(s: System)
    ensures var e := Apply(s, Revert).editor; e.screen == s.editor.saved.source == e.saved.source && e.conflict == None && e.saved == s.editor.saved
  {
  }

  /** The page says that the text is saved; a page that has stopped says something else. */
  predicate SaysStored(e: Editor) {
    e.status == Stored && !e.stopped
  }

  /**
   What is said to be saved is held with a revision and was a row of the server; while a conflict is open
   nothing is said to be saved, and no save is under way.
   */
  ghost predicate StoredIsTrue(s: System) {
    && (SaysStored(s.editor) ==> s.editor.saved.revision.Some? && WasStored(s.editor.saved.source, s.rows))
    && QuietInConflict(s.editor)
  }

  predicate QuietInConflict(e: Editor) {
    e.conflict.Some? ==> !SaysStored(e) && (e.inFlight.Some? ==> !e.inFlight.value.Putting?)
  }

  lemma AnswerKeepsStoredTrue(s: System)
    requires Invariant(s) && Enabled(s, Deliver) && StoredIsTrue(s)
    ensures StoredIsTrue(Apply(s, Deliver))
  {
    if s.editor.inFlight.value.Putting? && s.calls[s.awaited].reply.Accepted? {
      AcknowledgedTextWasStored(s);
    } else {
      OtherAnswersSayNothing(s.editor, s.calls[s.awaited].reply);
    }
  }

  lemma OtherAnswersSayNothing(e: Editor, reply: Reply)
    requires e.inFlight.Some? && !(e.inFlight.value.Putting? && reply.Accepted?)
    requires QuietInConflict(e)
    ensures !SaysStored(Answered(e, reply)) && QuietInConflict(Answered(e, reply))
  {
  }

  lemma RefreshSaysNothing(e: Editor, template: Source, draft: Option<SavedDraft>, newDetails: bool)
    requires QuietInConflict(e)
    ensures var r := Refreshed(e, template, draft, newDetails);
      (SaysStored(r) ==> SaysStored(e) && r.saved == e.saved) && QuietInConflict(r)
  {
  }

  /** What a step of the owner or the page alone does to what the page says. */
  lemma EditorStepKeepsStoredTrue(s: System, h: Happening)
    requires Enabled(s, h) && StoredIsTrue(s)
    requires !h.Deliver? && !h.UseTheirs? && !h.Decide? && !h.OtherSave? && !h.KeepMine? && !h.Begin? && !h.Lose? && !h.Refresh?
    ensures StoredIsTrue(Apply(s, h))
  {
  }

  lemma BeginningSaysNothing(e: Editor)
    requires e.queue != [] && QuietInConflict(e) && e.inFlight.None?
    ensures SaysStored(Begun(e).0) ==> SaysStored(e) && Begun(e).0.saved == e.saved
    ensures QuietInConflict(Begun(e).0)
  {
  }

  lemma StepKeepsStoredTrue(s: System, h: Happening)
    requires Invariant(s) && Enabled(s, h) && StoredIsTrue(s)
    ensures StoredIsTrue(Apply(s, h))
  {
    StepRecordsTheRow(s, h);
    match h
    case Deliver => AnswerKeepsStoredTrue(s);
    case UseTheirs => UseTheirsShowsARow(s);
    case Begin => BeginningSaysNothing(s.editor);
    case Lose => OtherAnswersSayNothing(s.editor, Failed);
    case Refresh(template, draft, newDetails) => RefreshSaysNothing(s.editor, template, draft, newDetails);
    case Decide(_) =>
    case OtherSave(_) =>
    case KeepMine =>
    case _ => EditorStepKeepsStoredTrue(s, h);
  }

  /** Over every run what the page says is saved was saved. */
  lemma {:induction false} StoredIsAlwaysTrue(s: System, hs: seq<Happening>)
    requires Invariant(s) && Legal(s, hs) && StoredIsTrue(s)
    ensures StoredIsTrue(Run(s, hs))
    decreases |hs|
  {
    if hs != [] {
      StepKeepsInvariant(s, hs[0]);
      StepKeepsStoredTrue(s, hs[0]);
      StoredIsAlwaysTrue(Apply(s, hs[0]), hs[1..]);
    }
  }

  lemma NothingIsSaidAtFirst(template: Source, draft: Option<Source>)
    ensures StoredIsTrue(Start(template, draft))
  {
  }

  // ----- Failures -----

  /**
   A save that failed is sent again: its retry is armed, and when it comes and its turn is there, the
   unsaved text of then goes out with the revision of then.
   */
  lemma FailedSaveIsSentAgain(e: Editor, text: Source)
    requires e.inFlight.Some? && e.inFlight.value.Putting? && e.queue == [] && !Paused(e) && text != e.saved.source
    ensures var failed := Typed(Answered(e, Failed), text);
      && failed.status == Retrying && Triggers(failed, Retry)
      && Begun(Triggered(failed, Retry)).1 == Some(Put(text, e.saved.revision))
      && !Triggers(Triggered(failed, Retry), Retry)
  {
  }

  /** While a conflict is open or the editor has stopped, no text is sent; nor is one that is saved. */
  lemma NothingIsSentIff(s: System)
    requires Invariant(s) && Enabled(s, Begin) && s.editor.queue[0] == Flush
    ensures s.nextCall !in Apply(s, Begin).calls <==>
      s.editor.stopped || s.editor.conflict.Some? || s.editor.screen == s.editor.saved.source
    ensures !s.editor.stopped && s.editor.conflict == None && s.editor.screen != s.editor.saved.source ==>
      && Apply(s, Begin).calls == s.calls[s.nextCall := Sent(Put(s.editor.screen, s.editor.saved.revision))]
      && Apply(s, Begin).awaited == s.nextCall && Apply(s, Begin).editor.status == Saving
  {
  }

  /** A follow-up that is gone and a session that is over stop the editor until the owner tries again; nothing typed is lost. */
  lemma StoppedUntilTriedAgain(e: Editor, reply: Reply)
    requires e.inFlight.Some?
    ensures Answered(e, reply).stopped <==> e.stopped || reply == Missing || reply == Barred
    ensures reply == Missing ==> Answered(e, reply).status == Unavailable && Answered(e, reply).screen == e.screen
    ensures reply == Barred ==> Answered(e, reply).status == SignedOut && Answered(e, reply).screen == e.screen
    ensures !TriedAgain(e).stopped && TriedAgain(e).screen == e.screen && TriedAgain(e).saved == e.saved
  {
  }

  // ----- Requests -----

  /** Tasks start in the order they were queued, and one request is awaited at a time. */
  lemma TasksStartInOrder(s: System)
    requires Invariant(s)
    ensures s.begun <= s.enqueued
    ensures s.editor.inFlight.Some? ==> s.awaited in s.calls && !Enabled(s, Begin)
  {
    assert s.begun == s.enqueued[..|s.begun|];
  }

  /** After any answer, a failure or a lost one too, the next task in the queue can start. */
  lemma QueueGoesOnAfterAnyAnswer(e: Editor, reply: Reply)
    requires e.inFlight.Some?
    ensures Answered(e, reply).inFlight.None? && Answered(e, reply).queue == e.queue
  {
  }

  /** Every revision sent is a real one that this editor was acknowledged, shown or answered a conflict about. */
  lemma SentRevisionsWereGiven(s: System, c: nat)
    requires Invariant(s) && c in s.calls && BaseOf(s.calls[c].request).Some?
    ensures var base := BaseOf(s.calls[c].request).value; Real(base, s.rows) && base.version in s.known + s.raced
  {
    assert CallWasGiven(s.calls[c], s.rows, s.known + s.raced);
  }

  // ----- No lost update -----

  /** The step carries out a request of this editor that replaces or removes this row. */
  predicate Replaces(s: System, h: Happening, target: SavedDraft) {
    && h.Decide? && h.call in s.calls && s.calls[h.call].Sent?
    && BaseOf(s.calls[h.call].request).Some?
    && s.row == Some(target) && Matches(s.row, BaseOf(s.calls[h.call].request).value)
  }

  /** Only such a step of this editor's takes away a row that others wrote. */
  lemma OnlyMatchingRequestsReplace(s: System, h: Happening)
    requires Enabled(s, h) && s.row.Some? && Apply(s, h).row != s.row && !h.OtherSave? && !h.OtherDiscard?
    ensures Replaces(s, h, s.row.value)
  {
  }

  /** A request replaces the row its revision was read from exactly when the draft was not created anew since. */
  lemma RequestMeetsItsRowIff(s: System, h: Happening, target: SavedDraft)
    requires Invariant(s) && Replaces(s, h, target)
    ensures var base := BaseOf(s.calls[h.call].request).value;
      target.mark == base <==> target.mark.creation == base.creation
  {
    var base := BaseOf(s.calls[h.call].request).value;
    SentRevisionsWereGiven(s, h.call);
    var d :| d in s.rows && d.mark == base;
  }

  /**
   A row is replaced that the editor was never acknowledged, refreshed with or answered a conflict
   about only if the draft was discarded and created anew since, or an acknowledgement had named
   another device's row.
   */
  lemma ReplacedRowWasKnownUnless(s: System, h: Happening, target: SavedDraft)
    requires Invariant(s) && Replaces(s, h, target)
    ensures
      || target.mark.version in s.known
      || target.mark.version in s.raced
      || target.mark.creation != BaseOf(s.calls[h.call].request).value.creation
  {
    SentRevisionsWereGiven(s, h.call);
    RequestMeetsItsRowIff(s, h, target);
  }

  /** A draft comes into being where there had been one before. */
  predicate CreatesAnew(s: System, h: Happening) {
    && s.row.None? && s.nextCreation > 0
    && (h.OtherSave? || (h.Decide? && h.call in s.calls && s.calls[h.call].Sent? && s.calls[h.call].request.Put?
                         && s.calls[h.call].request.base.None?))
  }

  /** The editor hears an acknowledgement that names another write, which came between its save and the read that answers it. */
  predicate HearsAnothersRow(s: System, h: Happening) {
    h.Deliver? && s.awaited in s.calls && s.calls[s.awaited].Replied? && s.calls[s.awaited].raced
  }

  ghost predicate Undisturbed(s: System, hs: seq<Happening>)
    requires Legal(s, hs)
    decreases |hs|
  {
    hs == [] || (!CreatesAnew(s, hs[0]) && !HearsAnothersRow(s, hs[0]) && Undisturbed(Apply(s, hs[0]), hs[1..]))
  }

  ghost predicate ReplacesOnlyKnown(s: System, hs: seq<Happening>)
    requires Legal(s, hs)
    decreases |hs|
  {
    hs == [] ||
      (&& (forall target :: Replaces(s, hs[0], target) ==> target.mark.version in s.known)
       && ReplacesOnlyKnown(Apply(s, hs[0]), hs[1..]))
  }

  /** One draft so far, and no acknowledgement was heard that named another's row. */
  ghost predicate Calm(s: System) {
    && s.raced == {}
    && s.nextCreation <= 1
  }

  lemma StepStaysCalm(s: System, h: Happening)
    requires Enabled(s, h) && Calm(s) && !CreatesAnew(s, h) && !HearsAnothersRow(s, h)
    ensures Calm(Apply(s, h))
  {
  }

  lemma {:induction false} UndisturbedRunsLoseNoUpdate(s: System, hs: seq<Happening>)
    requires Invariant(s) && Calm(s) && Legal(s, hs) && Undisturbed(s, hs)
    ensures ReplacesOnlyKnown(s, hs)
    decreases |hs|
  {
    if hs != [] {
      forall target | Replaces(s, hs[0], target) ensures target.mark.version in s.known {
        ReplacedRowWasKnownUnless(s, hs[0], target);
        SentRevisionsWereGiven(s, hs[0].call);
      }
      StepKeepsInvariant(s, hs[0]);
      StepStaysCalm(s, hs[0]);
      UndisturbedRunsLoseNoUpdate(Apply(s, hs[0]), hs[1..]);
    }
  }
}
