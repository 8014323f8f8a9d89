/**
 One editor, the draft row it saves to (src/lib/jump-drafts.ts), the requests in between and the
 other devices, with any interleaving. The row's revision starts at 1 when a draft is created and
 goes up by one with each save; a save that carries another revision is refused. An acknowledged
 save reads the row again for its answer, so another write may come in between. An answer may be
 lost, and a request whose answer was lost may still be carried out later.
 */
module DraftServer {
  import opened Options
  import opened DraftEditor

  /** A request on its way: sent, decided with the row still to be read for the answer, or answered. */
  datatype Call =
    | Sent(request: Request)
    | Unread(request: Request, written: Option<nat>)
    | Replied(request: Request, reply: Reply, raced: bool)

  datatype System = System(
    editor: Editor,
    row: Option<SavedDraft>,
    nextVersion: nat,
    nextCreation: nat,
    calls: map<nat, Call>,
    nextCall: nat,
    awaited: nat,
    // What has happened so far: every row there was, the versions this editor was acknowledged,
    // refreshed with or answered a conflict about, the versions named by an acknowledgement that
    // was not theirs, the plan's texts that were shown, and the tasks in queue order.
    rows: set<SavedDraft>,
    known: set<nat>,
    raced: set<nat>,
    plans: set<Source>,
    enqueued: seq<Task>,
    begun: seq<Task>)

  datatype Happening =
    | Type(text: Source)
    | AskSave(trigger: Trigger)
    | Begin
    | Decide(call: nat)
    | Read(call: nat)
    | Refuse(call: nat, answer: Reply)
    | Deliver
    | Lose
    | Revert
    | KeepMine
    | UseTheirs
    | PressDiscard
    | ConfirmDiscard(yes: bool)
    | DiscardAnyway
    | TryAgain
    | Refresh(template: Source, draft: Option<SavedDraft>, newDetails: bool)
    | OtherSave(text: Source)
    | OtherDiscard

  function Start(template: Source, draft: Option<Source>): System {
    var row := if draft.Some? then Some(SavedDraft(draft.value, Mark(1, 0, 0))) else None;
    System(
      Open(template, row), row, if row.Some? then 1 else 0, if row.Some? then 1 else 0, map[], 0, 0,
      if row.Some? then {row.value} else {}, if row.Some? then {0} else {}, {}, {template}, [], [])
  }

  predicate Enabled(s: System, h: Happening) {
    match h
    // The fields are disabled while a discard is under way.
    case Type(_) => !s.editor.busy
    case AskSave(trigger) => Triggers(s.editor, trigger)
    case Begin => s.editor.queue != [] && s.editor.inFlight.None?
    case Decide(call) => call in s.calls && s.calls[call].Sent?
    case Read(call) => call in s.calls && s.calls[call].Unread?
    case Refuse(call, answer) => call in s.calls && s.calls[call].Sent? && (answer.Missing? || answer.Barred? || answer.Failed?)
    case Deliver => s.editor.inFlight.Some? && s.awaited in s.calls && s.calls[s.awaited].Replied?
    case Lose => s.editor.inFlight.Some?
    case KeepMine => s.editor.conflict.Some? && s.editor.conflict.value.kind.OnSave?
    case UseTheirs => s.editor.conflict.Some?
    case PressDiscard => s.editor.conflict.None? && !s.editor.busy && (Unsaved(s.editor) || s.editor.saved.revision.Some?)
    case ConfirmDiscard(_) => s.editor.asked.Some?
    case DiscardAnyway => s.editor.conflict.Some? && s.editor.conflict.value.kind.OnDiscard?
    case Refresh(_, draft, _) => draft.Some? ==> draft.value in s.rows
    case _ => true
  }

  /** A write makes a new version: of the same draft with the next revision, or of a new draft with revision 1. */
  function Written(s: System, text: Source): SavedDraft {
    match s.row
    case None => SavedDraft(text, Mark(1, s.nextVersion, s.nextCreation))
    case Some(r) => SavedDraft(text, Mark(r.mark.number + 1, s.nextVersion, r.mark.creation))
  }

  function Write(s: System, text: Source): System {
    var r := Written(s, text);
    s.(row := Some(r), rows := s.rows + {r}, nextVersion := s.nextVersion + 1,
       nextCreation := if s.row.None? then s.nextCreation + 1 else s.nextCreation)
  }

  predicate Matches(row: Option<SavedDraft>, base: Mark) {
    row.Some? && row.value.mark.number == base.number
  }

  function Decided(s: System, call: nat): System
    requires call in s.calls && s.calls[call].Sent?
  {
    var request := s.calls[call].request;
    match request
    case Put(text, None) =>
      if s.row.None? then
        Write(s, text).(calls := s.calls[call := Replied(request, Accepted(Written(s, text).mark), false)])
      else s.(calls := s.calls[call := Unread(request, None)])
    case Put(text, Some(base)) =>
      if Matches(s.row, base) then
        Write(s, text).(calls := s.calls[call := Unread(request, Some(s.nextVersion))])
      else s.(calls := s.calls[call := Unread(request, None)])
    case Delete(base) =>
      if Matches(s.row, base) then s.(row := None, calls := s.calls[call := Replied(request, Removed, false)])
      else s.(calls := s.calls[call := Unread(request, None)])
  }

  function ReadReply(request: Request, written: Option<nat>, row: Option<SavedDraft>): Call {
    match request
    case Put(_, _) =>
      if written.None? then Replied(request, Refused(row), false)
      else if row.None? then Replied(request, Missing, false)
      else Replied(request, Accepted(row.value.mark), row.value.mark.version != written.value)
    case Delete(_) =>
      if row.None? then Replied(request, Removed, false) else Replied(request, Refused(row), false)
  }

  function VersionOf(draft: Option<SavedDraft>): set<nat> {
    if draft.Some? then {draft.value.mark.version} else {}
  }

  /** The editor moves on; what it put in its queue is recorded. */
  function Moved(s: System, editor: Editor): System {
    s.(editor := editor,
       enqueued := if |editor.queue| > |s.editor.queue| then s.enqueued + editor.queue[|s.editor.queue|..] else s.enqueued)
  }

  function Started(s: System): System
    requires s.editor.queue != []
  {
    var (editor, request) := Begun(s.editor);
    var t := s.(editor := editor, begun := s.begun + [s.editor.queue[0]]);
    if request.None? then t
    else t.(calls := s.calls[s.nextCall := Sent(request.value)], awaited := s.nextCall, nextCall := s.nextCall + 1)
  }

  /** The editor hears its answer; an acknowledgement names the version it read, its own or another's. */
  function Delivered(s: System, call: Call): System
    requires s.editor.inFlight.Some? && call.Replied?
  {
    var t := s.(editor := Answered(s.editor, call.reply));
    match call.reply
    case Accepted(mark) =>
      if call.request.Delete? then t
      else if call.raced then t.(raced := s.raced + {mark.version})
      else t.(known := s.known + {mark.version})
    case _ => t
  }

  /** A read reaches the editor; its version counts as known only if the editor takes it over. */
  function Reread(s: System, template: Source, draft: Option<SavedDraft>, newDetails: bool): System {
    var t := s.(
      editor := Refreshed(s.editor, template, draft, newDetails),
      plans := s.plans + {template});
    if !Unsaved(s.editor) && (newDetails || !SameProps(ShownAs(template, draft), s.editor.seen))
    then t.(known := s.known + VersionOf(draft)) else t
  }

  function TheirVersion(e: Editor): set<nat> {
    if e.conflict.Some? then VersionOf(e.conflict.value.theirs) else {}
  }

  function Apply(s: System, h: Happening): System
    requires Enabled(s, h)
  {
    var e := s.editor;
    match h
    case Type(text) => Moved(s, Typed(e, text))
    case AskSave(trigger) => Moved(s, Triggered(e, trigger))
    case Begin => Started(s)
    case Decide(call) => Decided(s, call)
    case Read(call) => s.(calls := s.calls[call := ReadReply(s.calls[call].request, s.calls[call].written, s.row)])
    case Refuse(call, answer) => s.(calls := s.calls[call := Replied(s.calls[call].request, answer, false)])
    case Deliver => Delivered(s, s.calls[s.awaited])
    case Lose => Moved(s, Answered(e, Failed))
    case Revert => Moved(s, Reverted(e))
    case KeepMine => Moved(s, KeptMine(e)).(known := s.known + TheirVersion(e))
    case UseTheirs => Moved(s, UsedTheirs(e)).(known := s.known + TheirVersion(e))
    case PressDiscard => Moved(s, DiscardPressed(e))
    case ConfirmDiscard(yes) => Moved(s, DiscardConfirmed(e, yes))
    case DiscardAnyway => Moved(s, DiscardedAnyway(e)).(known := s.known + TheirVersion(e))
    case TryAgain => Moved(s, TriedAgain(e))
    case Refresh(template, draft, newDetails) => Reread(s, template, draft, newDetails)
    case OtherSave(text) => Write(s, text)
    case OtherDiscard => s.(row := None)
  }

  predicate Legal(s: System, hs: seq<Happening>)
    decreases |hs|
  {
    hs == [] || (Enabled(s, hs[0]) && Legal(Apply(s, hs[0]), hs[1..]))
  }

  function Run(s: System, hs: seq<Happening>): System
    requires Legal(s, hs)
    decreases |hs|
  {
    if hs == [] then s else Run(Apply(s, hs[0]), hs[1..])
  }
}
