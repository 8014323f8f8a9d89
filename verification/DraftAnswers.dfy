/**
 What comes of each press and each request: that saves and discards are sent, carried out exactly when
 their revision is the row's, and answered with what the server has.
 */
module DraftAnswers {
  import opened Options
  import opened DraftEditor
  import opened DraftServer
  import opened DraftSafety
  import opened DraftTheorems

  // ----- The server compares revisions, and then writes -----

  /** The server decides a request and reads its answer with nothing in between. */
  function CarriedOut(s: System, c: nat): System
    requires Enabled(s, Decide(c))
  {
    var t := Apply(s, Decide(c));
    if Enabled(t, Read(c)) then Apply(t, Read(c)) else t
  }

  /** Nothing but the row, what is recorded of it and this request's answer differs. */
  predicate OnlyAnswers(s: System, t: System, c: nat, reply: Reply)
    requires c in s.calls
  {
    t == s.(row := t.row, rows := t.rows, nextVersion := t.nextVersion, nextCreation := t.nextCreation,
      calls := s.calls[c := Replied(s.calls[c].request, reply, false)])
  }

  /** A first save creates the draft, as number 1 of a new one, exactly when there is none; else it is shown the one there is. */
  lemma FirstSaveIsCarriedOut(s: System, c: nat, text: Source)
    requires Invariant(s) && Enabled(s, Decide(c)) && s.calls[c].request == Put(text, None)
    ensures var t := CarriedOut(s, c);
      if s.row == None
      then t.row.Some? && t.row.value.source == text && t.row.value.mark.number == 1 && OnlyAnswers(s, t, c, Accepted(t.row.value.mark))
        && (forall d :: d in s.rows ==> d.mark.creation != t.row.value.mark.creation && d.mark.version != t.row.value.mark.version)
      else t.row == s.row && OnlyAnswers(s, t, c, Refused(s.row))
  {
  }

  /** A save replaces the row, by the next revision of the same draft, exactly when it carries the row's; else it is shown the row. */
  lemma SaveIsCarriedOut(s: System, c: nat, text: Source, base: Mark)
    requires Invariant(s) && Enabled(s, Decide(c)) && s.calls[c].request == Put(text, Some(base))
    ensures var t := CarriedOut(s, c);
      if s.row.Some? && s.row.value.mark.number == base.number
      then t.row.Some? && t.row.value.source == text && t.row.value.mark.number == base.number + 1
        && t.row.value.mark.creation == s.row.value.mark.creation && OnlyAnswers(s, t, c, Accepted(t.row.value.mark))
        && (forall d :: d in s.rows ==> d.mark.version != t.row.value.mark.version)
      else t.row == s.row && OnlyAnswers(s, t, c, Refused(s.row))
  {
  }

  /** A discard removes the row exactly when it carries its revision; it is done too when there is none. */
  lemma DiscardIsCarriedOut(s: System, c: nat, expected: Mark)
    requires Invariant(s) && Enabled(s, Decide(c)) && s.calls[c].request == Delete(expected)
    ensures var t := CarriedOut(s, c);
      if s.row.Some? && s.row.value.mark.number != expected.number then t.row == s.row && OnlyAnswers(s, t, c, Refused(s.row))
      else t.row == None && OnlyAnswers(s, t, c, Removed)
  {
  }

  /**
   When others come between the decision and the read, the answer is what is there then: the row, or that
   a written draft is gone. It is raced exactly when a row is there and is not the one that was written.
   */
  lemma AnswerIsWhatIsThere(s: System, c: nat)
    requires Enabled(s, Read(c))
    ensures var t := Apply(s, Read(c)); var call := s.calls[c];
      && t == s.(calls := t.calls) && t.calls == s.calls[c := t.calls[c]] && t.calls[c].Replied? && t.calls[c].request == call.request
      && (t.calls[c].raced <==> call.request.Put? && call.written.Some? && s.row.Some? && s.row.value.mark.version != call.written.value)
      && match t.calls[c].reply
         case Accepted(mark) => call.request.Put? && call.written.Some? && s.row.Some? && s.row.value.mark == mark
         case Missing => call.request.Put? && call.written.Some? && s.row == None
         case Refused(theirs) => theirs == s.row && (call.request.Put? ==> call.written == None) && (call.request.Delete? ==> s.row.Some?)
         case Removed => call.request.Delete? && s.row == None
         case _ => false
  {
  }

  /** A request that the server turns away, or that fails on the way, is answered so and leaves the row. */
  lemma TurnedAwayLeavesTheRow(s: System, c: nat, answer: Reply)
    requires Enabled(s, Refuse(c, answer))
    ensures Apply(s, Refuse(c, answer)) == s.(calls := s.calls[c := Replied(s.calls[c].request, answer, false)])
    ensures answer in {Missing, Barred, Failed}
  {
  }

  lemma DecidingMovesOne(s: System, k: nat)
    requires Enabled(s, Decide(k))
    ensures var t := Apply(s, Decide(k));
      k in t.calls && !t.calls[k].Sent? && t.calls[k].request == s.calls[k].request && t.calls == s.calls[k := t.calls[k]]
  {
  }

  lemma OthersMoveNone(s: System, h: Happening)
    requires Enabled(s, h) && !h.Decide? && !h.Read? && !h.Refuse? && !h.Begin?
    ensures Apply(s, h).calls == s.calls
  {
  }

  /** Every request is answered once: it can be decided, then perhaps read, and its answer stays. */
  lemma RequestsAreAnswered(s: System, h: Happening, c: nat)
    requires Invariant(s) && Enabled(s, h) && c in s.calls
    ensures var t := Apply(s, h);
      && c in t.calls && t.calls[c].request == s.calls[c].request
      && (s.calls[c].Replied? ==> t.calls[c] == s.calls[c])
      && (s.calls[c].Sent? && (h == Decide(c) || (h.Refuse? && h.call == c)) ==> !t.calls[c].Sent?)
      && (s.calls[c].Unread? ==> Enabled(s, Read(c)) && (h == Read(c) ==> t.calls[c].Replied?))
  {
    match h
    case Decide(k) => DecidingMovesOne(s, k);
    case Read(k) => AnswerIsWhatIsThere(s, k);
    case Refuse(k, answer) => TurnedAwayLeavesTheRow(s, k, answer);
    case Begin =>
    case _ => OthersMoveNone(s, h);
  }

  /** What the editor knows grows only by an acknowledgement of its own write, a read it takes over, and a conflict it answers. */
  lemma KnownWasShown(s: System, h: Happening, version: nat)
    requires Enabled(s, h) && version in Apply(s, h).known && version !in s.known
    ensures
      || (h.Deliver? && s.calls[s.awaited].request.Put? && !s.calls[s.awaited].raced
          && s.calls[s.awaited].reply.Accepted? && s.calls[s.awaited].reply.mark.version == version)
      || (h.Refresh? && h.draft.Some? && h.draft.value.mark.version == version && Apply(s, h).editor.saved.revision == Some(h.draft.value.mark)
          && Apply(s, h).editor.screen == h.draft.value.source)
      || ((h.KeepMine? || h.UseTheirs? || h.DiscardAnyway?) && s.editor.conflict.value.theirs.Some?
          && s.editor.conflict.value.theirs.value.mark.version == version)
  {
  }

  /** Devices elsewhere write a new row over any, and discard it. */
  lemma OthersWrite(s: System, text: Source)
    requires Invariant(s)
    ensures var t := Apply(s, OtherSave(text));
      && t.row.Some? && t.row.value.source == text && t.editor == s.editor && t.calls == s.calls
      && t.row.value.mark.number == (if s.row.Some? then s.row.value.mark.number + 1 else 1)
    ensures Apply(s, OtherDiscard) == s.(row := None)
  {
  }

  // ----- The opened editor -----

  /** An editor that was just opened shows what is saved, has nothing to send, and can discard exactly a draft. */
  lemma OpenedIsQuiet(template: Source, draft: Option<Source>, trigger: Trigger)
    ensures var s := Start(template, draft);
      && !Triggers(s.editor, trigger) && s.calls == map[] && !Enabled(s, Begin) && !Enabled(s, Deliver) && Enabled(s, Type(template))
      && !Enabled(s, UseTheirs) && !Enabled(s, ConfirmDiscard(true)) && (Enabled(s, PressDiscard) <==> draft.Some?)
      && s.editor.screen == (if draft.Some? then draft.value else template) && s.editor.template == template
      && (draft.Some? <==> s.row.Some?) && (draft.Some? ==> s.row.value.source == draft.value && s.editor.saved.revision == Some(s.row.value.mark))
      && s.editor.status == Idle && !s.editor.stopped && s.editor.conflict == None && s.editor.seen == s.editor.saved
  {
  }

  // ----- Saves -----

  /** A save is asked for, on leaving and after a pause in typing, exactly when it would send something. */
  lemma SaveIsAskedIff(e: Editor, trigger: Trigger)
    requires e.queue == [] && trigger != Retry
    ensures Triggers(e, trigger) <==> Begun(Triggered(e, trigger)).1 == Some(Put(e.screen, e.saved.revision))
    ensures Triggered(e, trigger).retryArmed == e.retryArmed
    ensures Triggers(e, Retry) <==> e.retryArmed
  {
  }

  /** What came of a save: the text is saved, another version is in the way, or it is to be tried again; what is typed stays. */
  lemma SaveIsAnswered(e: Editor, sent: Source, reply: Reply)
    requires e.inFlight == Some(Putting(sent))
    ensures var r := Answered(e, reply);
      && r.screen == e.screen && r.inFlight == None && r.queue == e.queue && r.template == e.template && r.asked == e.asked
      && match reply
         case Accepted(mark) => r == e.(inFlight := None, saved := Saved(sent, Some(mark)), status := Stored)
         case Refused(theirs) => r.saved == e.saved && r.conflict == Some(Conflict(OnSave, theirs)) && r.status == Idle
         case Missing => r.saved == e.saved && r.stopped && r.status == Unavailable
         case Barred => r.saved == e.saved && r.stopped && r.status == SignedOut
         case _ => r.saved == e.saved && r.retryArmed && r.status == Retrying
  {
  }

  // ----- Discards -----

  /** The fields are disabled exactly while a discard is under way. */
  predicate BusyDiscarding(e: Editor) {
    e.busy <==> e.inFlight.Some? && e.inFlight.value.Deleting?
  }

  lemma EditorStaysBusyDiscarding(e: Editor, reply: Reply)
    requires BusyDiscarding(e)
    ensures e.queue != [] && e.inFlight.None? ==> BusyDiscarding(Begun(e).0)
    ensures e.inFlight.Some? ==> BusyDiscarding(Answered(e, reply))
  {
  }

  lemma StepStaysBusyDiscarding(s: System, h: Happening)
    requires Enabled(s, h) && BusyDiscarding(s.editor)
    ensures BusyDiscarding(Apply(s, h).editor)
  {
    if h.Begin? || h.Lose? {
      EditorStaysBusyDiscarding(s.editor, Failed);
    } else if h.Deliver? {
      EditorStaysBusyDiscarding(s.editor, s.calls[s.awaited].reply);
    } else {
      OthersLeaveBusy(s, h);
    }
  }

  lemma RefreshLeavesBusy(e: Editor, template: Source, draft: Option<SavedDraft>, newDetails: bool)
    ensures Refreshed(e, template, draft, newDetails).busy == e.busy && Refreshed(e, template, draft, newDetails).inFlight == e.inFlight
  {
  }

  lemma OthersLeaveBusy(s: System, h: Happening)
    requires Enabled(s, h) && !h.Begin? && !h.Lose? && !h.Deliver?
    ensures Apply(s, h).editor.busy == s.editor.busy && Apply(s, h).editor.inFlight == s.editor.inFlight
  {
    match h
    case Refresh(template, draft, newDetails) => RefreshLeavesBusy(s.editor, template, draft, newDetails);
    case Decide(_) =>
    case Read(_) =>
    case Refuse(_, _) =>
    case _ =>
  }

  lemma {:induction false} BusyIsDiscarding(s: System, hs: seq<Happening>)
    requires BusyDiscarding(s.editor) && Legal(s, hs)
    ensures BusyDiscarding(Run(s, hs).editor)
    decreases |hs|
  {
    if hs != [] {
      StepStaysBusyDiscarding(s, hs[0]);
      BusyIsDiscarding(Apply(s, hs[0]), hs[1..]);
    }
  }

  /** Sent with this revision, the text on screen in mind and the fields disabled; without one, done at once. */
  predicate SendsDiscard(e: Editor, revision: Option<Mark>)
    requires e.queue != []
  {
    var (t, request) := Begun(e);
    match revision
    case Some(mark) => request == Some(Delete(mark)) && t.inFlight == Some(Deleting(e.screen)) && t.status == Saving && t.screen == e.screen
    case None =>
      && request == None && t.screen == e.template && t.saved == Saved(e.template, None) && t.conflict == None && t.status == Idle
  }

  /**
   A discard is sent with the revision at the press, whatever is saved before its confirmation: on a yes
   and not on a no; and after one that failed without asking again.
   */
  lemma PressedDiscardIsSent(e: Editor, saved: Saved, yes: bool)
    requires e.queue == [] && e.inFlight == None && e.asked == None
    ensures e.status != DiscardFailed ==>
      var asked := DiscardPressed(e).(saved := saved);
      && asked.asked.Some? && asked.queue == [] && DiscardConfirmed(asked, yes).asked == None
      && (if yes then DiscardConfirmed(asked, yes).queue != [] && SendsDiscard(DiscardConfirmed(asked, yes), e.saved.revision)
          else DiscardConfirmed(asked, yes) == asked.(asked := None))
    ensures e.status == DiscardFailed ==>
      DiscardPressed(e).asked == None && DiscardPressed(e).queue != [] && SendsDiscard(DiscardPressed(e), e.saved.revision)
  {
  }

  /** "Discard anyway" is sent with the other version's revision; when that is gone the discard is done at once. */
  lemma DiscardAnywayIsSent(e: Editor)
    requires e.queue == [] && e.inFlight == None && e.conflict.Some?
    ensures DiscardedAnyway(e).queue != []
    ensures SendsDiscard(DiscardedAnyway(e), if e.conflict.value.theirs.Some? then Some(e.conflict.value.theirs.value.mark) else None)
    ensures DiscardedAnyway(e).conflict == e.conflict && DiscardedAnyway(e).screen == e.screen
  {
  }

  /** No task waits and no request is under way. */
  predicate Free(s: System) {
    s.editor.queue == [] && s.editor.inFlight == None
  }

  /** The request was sent now, and is awaited; or without a revision the plan's text is back at once. */
  predicate DiscardSent(s: System, t: System, revision: Option<Mark>) {
    match revision
    case Some(mark) => t.calls == s.calls[s.nextCall := Sent(Delete(mark))] && t.awaited == s.nextCall && t.editor.screen == s.editor.screen
    case None => t.calls == s.calls && t.editor.screen == s.editor.template && t.editor.saved == Saved(s.editor.template, None)
  }

  /** Pressed and confirmed, a discard goes out when its turn comes; pressed and not confirmed, nothing has changed. */
  lemma ConfirmedDiscardGoesOut(s: System, yes: bool)
    requires Free(s) && Enabled(s, PressDiscard) && s.editor.status != DiscardFailed && s.editor.asked == None
    ensures var pressed := Apply(s, PressDiscard);
      && Enabled(pressed, ConfirmDiscard(yes)) && !Enabled(pressed, Begin)
      && var confirmed := Apply(pressed, ConfirmDiscard(yes));
        if yes then Enabled(confirmed, Begin) && DiscardSent(s, Apply(confirmed, Begin), s.editor.saved.revision)
        else confirmed == s
  {
  }

  lemma FailedDiscardGoesOutAgain(s: System)
    requires Free(s) && Enabled(s, PressDiscard) && s.editor.status == DiscardFailed && s.editor.asked == None
    ensures var pressed := Apply(s, PressDiscard);
      !Enabled(pressed, ConfirmDiscard(true)) && Enabled(pressed, Begin) && DiscardSent(s, Apply(pressed, Begin), s.editor.saved.revision)
  {
  }

  lemma DiscardAnywayGoesOut(s: System)
    requires Free(s) && Enabled(s, DiscardAnyway)
    ensures var t := Apply(s, DiscardAnyway);
      && Enabled(t, Begin)
      && DiscardSent(s, Apply(t, Begin),
          if s.editor.conflict.value.theirs.Some? then Some(s.editor.conflict.value.theirs.value.mark) else None)
  {
  }

  /** What is typed goes out with the next save that is asked for, if it is new, and nothing keeps the editor from saving. */
  lemma TypingGoesOut(s: System, text: Source)
    requires Free(s) && Enabled(s, Type(text)) && text != s.editor.saved.source && !s.editor.stopped && s.editor.conflict == None
    ensures var typed := Apply(s, Type(text));
      && Enabled(typed, AskSave(Autosave)) && Enabled(Apply(typed, AskSave(Autosave)), Begin)
      && var t := Apply(Apply(typed, AskSave(Autosave)), Begin);
        && t.calls == s.calls[s.nextCall := Sent(Put(text, s.editor.saved.revision))] && t.awaited == s.nextCall
        && t.editor.screen == text && t.editor.status == Saving
  {
  }

  lemma KeptWordingGoesOut(s: System)
    requires Free(s) && Enabled(s, KeepMine) && !s.editor.stopped && s.editor.screen != s.editor.saved.source
    ensures var kept := Apply(s, KeepMine);
      && Enabled(kept, Begin) && kept.editor.conflict == None
      && Apply(kept, Begin).calls == s.calls[s.nextCall := Sent(Put(s.editor.screen,
          if s.editor.conflict.value.theirs.Some? then Some(s.editor.conflict.value.theirs.value.mark) else None))]
  {
  }

  /** What came of a discard: the plan's text, another version in the way, or a failure that the owner may press again. */
  lemma DiscardIsAnswered(e: Editor, before: Source, reply: Reply)
    requires e.inFlight == Some(Deleting(before))
    ensures var r := Answered(e, reply);
      && r.inFlight == None && !r.busy && r.queue == e.queue && (reply != Removed ==> r.screen == e.screen && r.saved == e.saved)
      && match reply
         case Removed =>
           && r.saved == Saved(e.template, None) && r.conflict == None && r.status == Idle
           && r.screen == (if e.screen == before then e.template else e.screen)
         case Refused(theirs) => r.conflict == Some(Conflict(OnDiscard, theirs)) && r.status == Idle
         case Missing => r.stopped && r.status == Unavailable
         case Barred => r.stopped && r.status == SignedOut
         case _ => r.status == DiscardFailed
  {
  }

  // ----- Reads and new attempts -----

  /** A read that arrives spares unsaved text and replaces saved text if it brings news; it sends nothing. */
  lemma ReadArrives(s: System, template: Source, draft: Option<SavedDraft>, newDetails: bool)
    requires Enabled(s, Refresh(template, draft, newDetails))
    ensures var t := Apply(s, Refresh(template, draft, newDetails)); var e := s.editor;
      var text, revision := if draft.Some? then draft.value.source else template, if draft.Some? then Some(draft.value.mark) else None;
      && t.editor.template == template && t.row == s.row && t.calls == s.calls && t.editor.queue == e.queue
      && (if e.screen == e.saved.source && (newDetails || BringsNews(e, text, revision))
          then t.editor.screen == text && t.editor.saved == Saved(text, revision)
          else t.editor.screen == e.screen && t.editor.saved == e.saved && t.editor.conflict == e.conflict)
  {
    if s.editor.screen == s.editor.saved.source {
      RefreshReachesUntouched(s.editor, template, draft, newDetails);
    } else {
      RefreshSparesUnsaved(s.editor, template, draft, newDetails);
    }
  }

  /** "Try again" lets a stopped editor save again, and an answer that is lost is a failure; neither touches the text. */
  lemma TriedAgainAndLost(s: System)
    ensures Apply(s, TryAgain) == s.(editor := s.editor.(stopped := false, status := Idle))
    ensures Enabled(s, Lose) ==>
      && Apply(s, Lose).editor.screen == s.editor.screen && Apply(s, Lose).editor.saved == s.editor.saved
      && Apply(s, Lose).editor.inFlight == None && Apply(s, Lose).calls == s.calls
      && (Apply(s, Lose).editor.status == if s.editor.inFlight.value.Putting? then Retrying else DiscardFailed)
  {
  }

  // ----- Conflicts -----

  /** "Keep my wording" queues one save, which sends the wording over the other version, or creates it when that is gone. */
  lemma KeepMineSendsOverTheirs(e: Editor)
    requires e.queue == [] && e.inFlight == None && e.conflict.Some? && !e.stopped && e.screen != e.saved.source
    ensures KeptMine(e).queue == [Flush] && KeptMine(e).conflict == None && KeptMine(e).screen == e.screen && KeptMine(e).saved.source == e.saved.source
    ensures Begun(KeptMine(e)).1 ==
      Some(Put(e.screen, if e.conflict.value.theirs.Some? then Some(e.conflict.value.theirs.value.mark) else None))
  {
  }

  /** "Use theirs" says of a version that is there that it is saved, and of one that is gone nothing. */
  lemma TheirsIsSaidToBeSaved(e: Editor)
    requires e.conflict.Some?
    ensures UsedTheirs(e).status == (if e.conflict.value.theirs.Some? then Stored else Idle)
    ensures UsedTheirs(e).queue == e.queue && UsedTheirs(e).template == e.template
  {
  }

  /** Without an open conflict its answers change nothing. */
  lemma NoConflictToAnswer(e: Editor)
    requires e.conflict == None
    ensures KeptMine(e) == UsedTheirs(e) == e
  {
  }
}
