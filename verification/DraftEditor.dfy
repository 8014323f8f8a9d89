/**
 The message editor of a pending follow-up (src/components/EditableFollowUpAction.tsx): what each of
 its handlers does, first as a function on the editor's state and then as the object that is updated
 step by step. Draft text is opaque. A state write and the render that refreshes `latest` are one step.
 */
module DraftEditor {
  import opened Options

  datatype Source = Source(subject: string, content: string)

  /**
   A draft revision the editor was given. The editor holds only the number; `version` and `creation`
   name the row the number was read from, and no handler looks at them.
   */
  datatype Mark = Mark(number: nat, version: nat, creation: nat)

  datatype SavedDraft = SavedDraft(source: Source, mark: Mark)
  datatype Saved = Saved(source: Source, revision: Option<Mark>)
  datatype Status = Idle | Saving | Stored | Retrying | DiscardFailed | Unavailable | SignedOut
  datatype ConflictKind = OnSave | OnDiscard
  datatype Conflict = Conflict(kind: ConflictKind, theirs: Option<SavedDraft>)

  datatype Task = Flush | Discard(revision: Option<Mark>)
  datatype Request = Put(text: Source, base: Option<Mark>) | Delete(expected: Mark)

  /** The request a task waits for, and what was on screen when it was sent. */
  datatype InFlight = Putting(sent: Source) | Deleting(before: Source)

  datatype Reply =
    | Accepted(mark: Mark)
    | Removed
    | Refused(theirs: Option<SavedDraft>)
    | Missing
    | Barred
    | Failed

  datatype Editor = Editor(
    template: Source,
    screen: Source,
    saved: Saved,
    seen: Saved,
    status: Status,
    stopped: bool,
    conflict: Option<Conflict>,
    busy: bool,
    retryArmed: bool,
    asked: Option<Option<Mark>>,
    queue: seq<Task>,
    inFlight: Option<InFlight>)

  // ----- The handlers as functions -----

  function ShownAs(template: Source, draft: Option<SavedDraft>): Saved {
    match draft
    case None => Saved(template, None)
    case Some(d) => Saved(d.source, Some(d.mark))
  }

  function Open(template: Source, draft: Option<SavedDraft>): Editor {
    var saved := ShownAs(template, draft);
    Editor(template, saved.source, saved, saved, Idle, false, None, false, false, None, [], None)
  }

  predicate Unsaved(e: Editor) {
    e.screen != e.saved.source
  }

  predicate Paused(e: Editor) {
    e.stopped || e.conflict.Some?
  }

  function Typed(e: Editor, text: Source): Editor {
    e.(screen := text)
  }

  datatype Trigger = Autosave | PageHide | Retry

  predicate Triggers(e: Editor, trigger: Trigger) {
    if trigger.Retry? then e.retryArmed else Unsaved(e) && !Paused(e)
  }

  function Triggered(e: Editor, trigger: Trigger): Editor {
    e.(queue := e.queue + [Flush], retryArmed := if trigger.Retry? then false else e.retryArmed)
  }

  /** The head of the queue starts: what it does at once, and the request it sends, if any. */
  function Begun(e: Editor): (Editor, Option<Request>)
    requires e.queue != []
  {
    var rest := e.(queue := e.queue[1..]);
    match e.queue[0]
    case Flush =>
      if Paused(e) || !Unsaved(e) then (rest, None)
      else (rest.(status := Saving, inFlight := Some(Putting(e.screen))), Some(Put(e.screen, e.saved.revision)))
    case Discard(None) =>
      (rest.(screen := e.template, saved := Saved(e.template, None), conflict := None, status := Idle), None)
    case Discard(Some(mark)) =>
      (rest.(busy := true, status := Saving, inFlight := Some(Deleting(e.screen))), Some(Delete(mark)))
  }

  function Answered(e: Editor, reply: Reply): Editor
    requires e.inFlight.Some?
  {
    match e.inFlight.value
    case Putting(sent) => AfterPut(e.(inFlight := None), sent, reply)
    case Deleting(before) => AfterDelete(e.(inFlight := None, busy := false), before, reply)
  }

  function AfterPut(e: Editor, sent: Source, reply: Reply): Editor {
    match reply
    case Accepted(mark) => e.(saved := Saved(sent, Some(mark)), status := Stored)
    case Refused(theirs) => e.(conflict := Some(Conflict(OnSave, theirs)), status := Idle)
    case Missing => e.(stopped := true, status := Unavailable)
    case Barred => e.(stopped := true, status := SignedOut)
    case _ => e.(status := Retrying, retryArmed := true)
  }

  function AfterDelete(e: Editor, before: Source, reply: Reply): Editor {
    match reply
    case Removed =>
      e.(screen := if e.screen == before then e.template else e.screen,
         saved := Saved(e.template, None), conflict := None, status := Idle)
    case Refused(theirs) => e.(conflict := Some(Conflict(OnDiscard, theirs)), status := Idle)
    case Missing => e.(stopped := true, status := Unavailable)
    case Barred => e.(stopped := true, status := SignedOut)
    case _ => e.(status := DiscardFailed)
  }

  function Reverted(e: Editor): Editor {
    e.(conflict := None, screen := e.saved.source)
  }

  function TheirRevision(c: Conflict): Option<Mark> {
    if c.theirs.Some? then Some(c.theirs.value.mark) else None
  }

  function KeptMine(e: Editor): Editor {
    if e.conflict.None? then e
    else e.(saved := e.saved.(revision := TheirRevision(e.conflict.value)), conflict := None, queue := e.queue + [Flush])
  }

  function UsedTheirs(e: Editor): Editor {
    if e.conflict.None? then e
    else
      var saved := ShownAs(e.template, e.conflict.value.theirs);
      e.(screen := saved.source, saved := saved, conflict := None,
         status := if e.conflict.value.theirs.Some? then Stored else Idle)
  }

  /** "Discard edits" asks first, unless a discard failed before; the revision is the one at the press. */
  function DiscardPressed(e: Editor): Editor {
    if e.status.DiscardFailed? then e.(queue := e.queue + [Discard(e.saved.revision)])
    else e.(asked := Some(e.saved.revision))
  }

  function DiscardConfirmed(e: Editor, yes: bool): Editor
    requires e.asked.Some?
  {
    e.(asked := None, queue := if yes then e.queue + [Discard(e.asked.value)] else e.queue)
  }

  function DiscardedAnyway(e: Editor): Editor
    requires e.conflict.Some?
  {
    e.(queue := e.queue + [Discard(TheirRevision(e.conflict.value))])
  }

  function TriedAgain(e: Editor): Editor {
    e.(stopped := false, status := Idle)
  }

  /** The same text and revision number: a read that brings nothing new. */
  predicate SameProps(a: Saved, b: Saved) {
    && a.source == b.source
    && (a.revision.Some? <==> b.revision.Some?)
    && (a.revision.Some? ==> a.revision.value.number == b.revision.value.number)
  }

  /**
   New plan text, new details or a draft read by the server. Unsaved keystrokes are never replaced,
   and a read that arrives over them is not looked at again.
   */
  function Refreshed(e: Editor, template: Source, draft: Option<SavedDraft>, newDetails: bool): Editor {
    var shown := ShownAs(template, draft);
    var r := e.(template := template);
    if !newDetails && SameProps(shown, e.seen) then r
    else if Unsaved(e) then r.(seen := shown)
    else
      r.(seen := shown, screen := shown.source, saved := shown, conflict := None,
         status := if e.stopped then e.status else Idle)
  }

  // ----- The editor as it is updated -----

  class FollowUpEditor {
    var template: Source
    var screen: Source
    var savedSource: Source
    var savedRevision: Option<Mark>
    var seen: Saved
    var status: Status
    var stopped: bool
    var conflict: Option<Conflict>
    var busy: bool
    var retryArmed: bool
    var asked: Option<Option<Mark>>
    var queue: seq<Task>
    var inFlight: Option<InFlight>

    ghost function View(): Editor
      reads this
    {
      Editor(template, screen, Saved(savedSource, savedRevision), seen, status, stopped, conflict, busy, retryArmed, asked, queue, inFlight)
    }

    constructor (template: Source, draft: Option<SavedDraft>)
      ensures View() == Open(template, draft)
    {
      this.template := template;
      this.screen := if draft.Some? then draft.value.source else template;
      this.savedSource := if draft.Some? then draft.value.source else template;
      this.savedRevision := if draft.Some? then Some(draft.value.mark) else None;
      this.seen := ShownAs(template, draft);
      this.status, this.stopped, this.conflict := Idle, false, None;
      this.busy, this.retryArmed, this.asked, this.queue, this.inFlight := false, false, None, [], None;
    }

    method ShowSegments(next: Source)
      modifies this`screen
      ensures screen == next
    {
      screen := next;
    }

    method RunExclusive(task: Task)
      modifies this`queue
      ensures View() == old(View()).(queue := old(queue) + [task])
    {
      queue := queue + [task];
    }

    /** A timer or the page leaving asks for a save. */
    method Trigger(trigger: Trigger)
      requires Triggers(View(), trigger)
      modifies this
      ensures View() == Triggered(old(View()), trigger)
    {
      if trigger.Retry? {
        retryArmed := false;
      }
      RunExclusive(Flush);
    }

    method BeginNext() returns (request: Option<Request>)
      requires queue != [] && inFlight.None?
      modifies this
      ensures (View(), request) == Begun(old(View()))
    {
      var task := queue[0];
      queue := queue[1..];
      match task {
        case Flush => request := BeginFlush();
        case Discard(revision) => request := BeginDiscard(revision);
      }
    }

    method BeginFlush() returns (request: Option<Request>)
      requires inFlight.None?
      modifies this
      ensures var e := old(View());
        if Paused(e) || !Unsaved(e) then (View(), request) == (e, None)
        else (View(), request) == (e.(status := Saving, inFlight := Some(Putting(e.screen))), Some(Put(e.screen, e.saved.revision)))
    {
      if stopped || conflict.Some? {
        return None;
      }
      if screen == savedSource {
        return None;
      }
      status := Saving;
      inFlight := Some(Putting(screen));
      request := Some(Put(screen, savedRevision));
    }

    method BeginDiscard(revision: Option<Mark>) returns (request: Option<Request>)
      requires inFlight.None?
      modifies this
      ensures var e := old(View());
        if revision.None? then
          (View(), request) == (e.(screen := e.template, saved := Saved(e.template, None), conflict := None, status := Idle), None)
        else
          (View(), request) == (e.(busy := true, status := Saving, inFlight := Some(Deleting(e.screen))), Some(Delete(revision.value)))
    {
      if revision.None? {
        ShowSegments(template);
        savedSource, savedRevision := template, None;
        conflict := None;
        status := Idle;
        return None;
      }
      var before := screen;
      busy := true;
      status := Saving;
      inFlight := Some(Deleting(before));
      request := Some(Delete(revision.value));
    }

    method OnReply(reply: Reply)
      requires inFlight.Some?
      modifies this
      ensures View() == Answered(old(View()), reply)
    {
      var call := inFlight.value;
      inFlight := None;
      match call {
        case Putting(sent) => OnPutReply(sent, reply);
        case Deleting(before) =>
          OnDeleteReply(before, reply);
          busy := false;
      }
    }

    method OnPutReply(sent: Source, reply: Reply)
      modifies this
      ensures View() == AfterPut(old(View()), sent, reply)
    {
      match reply {
        case Accepted(mark) =>
          savedSource, savedRevision := sent, Some(mark);
          status := Stored;
        case Refused(theirs) =>
          conflict := Some(Conflict(OnSave, theirs));
          status := Idle;
        case Missing =>
          stopped := true;
          status := Unavailable;
        case Barred =>
          stopped := true;
          status := SignedOut;
        case _ =>
          status := Retrying;
          retryArmed := true;
      }
    }

    method OnDeleteReply(before: Source, reply: Reply)
      modifies this
      ensures View() == AfterDelete(old(View()), before, reply)
    {
      match reply {
        case Removed =>
          var typedMeanwhile := screen != before;
          if !typedMeanwhile {
            ShowSegments(template);
          }
          savedSource, savedRevision := template, None;
          conflict := None;
          status := Idle;
        case Refused(theirs) =>
          conflict := Some(Conflict(OnDiscard, theirs));
          status := Idle;
        case Missing =>
          stopped := true;
          status := Unavailable;
        case Barred =>
          stopped := true;
          status := SignedOut;
        case _ =>
          status := DiscardFailed;
      }
    }

    method RevertUnsaved()
      modifies this
      ensures View() == Reverted(old(View()))
    {
      conflict := None;
      ShowSegments(savedSource);
    }

    method KeepMine()
      modifies this
      ensures View() == KeptMine(old(View()))
    {
      if conflict.None? {
        return;
      }
      savedRevision := if conflict.value.theirs.Some? then Some(conflict.value.theirs.value.mark) else None;
      conflict := None;
      RunExclusive(Flush);
    }

    method UseTheirs()
      modifies this
      ensures View() == UsedTheirs(old(View()))
    {
      if conflict.None? {
        return;
      }
      var theirs := conflict.value.theirs;
      var source := if theirs.Some? then theirs.value.source else template;
      ShowSegments(source);
      savedSource, savedRevision := source, if theirs.Some? then Some(theirs.value.mark) else None;
      conflict := None;
      status := if theirs.Some? then Stored else Idle;
    }

    method PressDiscard()
      modifies this
      ensures View() == DiscardPressed(old(View()))
    {
      if status.DiscardFailed? {
        RunExclusive(Discard(savedRevision));
      } else {
        asked := Some(savedRevision);
      }
    }

    method ConfirmDiscard(yes: bool)
      requires asked.Some?
      modifies this
      ensures View() == DiscardConfirmed(old(View()), yes)
    {
      var revision := asked.value;
      asked := None;
      if yes {
        RunExclusive(Discard(revision));
      }
    }

    method DiscardAnyway()
      requires conflict.Some?
      modifies this
      ensures View() == DiscardedAnyway(old(View()))
    {
      RunExclusive(Discard(if conflict.value.theirs.Some? then Some(conflict.value.theirs.value.mark) else None));
    }

    method Refresh(template: Source, draft: Option<SavedDraft>, newDetails: bool)
      modifies this
      ensures View() == Refreshed(old(View()), template, draft, newDetails)
    {
      this.template := template;
      var shown := ShownAs(template, draft);
      if !newDetails && SameProps(shown, seen) {
        return;
      }
      seen := shown;
      if screen != savedSource {
        return;
      }
      TakeOver(shown);
    }

    method TakeOver(shown: Saved)
      modifies this`screen, this`savedSource, this`savedRevision, this`conflict, this`status
      ensures (screen, savedSource, savedRevision, conflict) == (shown.source, shown.source, shown.revision, None)
      ensures status == if stopped then old(status) else Idle
    {
      ShowSegments(shown.source);
      savedSource, savedRevision := shown.source, shown.revision;
      conflict := None;
      if !stopped {
        status := Idle;
      }
    }
  }
}
