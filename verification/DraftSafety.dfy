/** What every step of the draft editor and its server keeps, however requests and devices interleave. */
module DraftSafety {
  import opened Options
  import opened DraftEditor
  import opened DraftServer

  // ----- The rows -----

  /** Within one draft a revision number names one row; versions are never reused. */
  ghost predicate RowsDiffer(rows: set<SavedDraft>) {
    && (forall a, b :: a in rows && b in rows && a.mark.creation == b.mark.creation && a.mark.number == b.mark.number ==> a == b)
    && (forall a, b :: a in rows && b in rows && a.mark.version == b.mark.version ==> a == b)
  }

  ghost predicate RowIsNewest(row: Option<SavedDraft>, rows: set<SavedDraft>, nextVersion: nat, nextCreation: nat) {
    && (forall d :: d in rows ==> d.mark.version < nextVersion && d.mark.creation < nextCreation)
    && (row.Some? ==>
      && row.value in rows
      && forall d :: d in rows && d.mark.creation == row.value.mark.creation ==> d.mark.number <= row.value.mark.number)
  }

  lemma WriteKeepsRows(s: System, text: Source)
    requires RowsDiffer(s.rows) && RowIsNewest(s.row, s.rows, s.nextVersion, s.nextCreation)
    ensures var t := Write(s, text); RowsDiffer(t.rows) && RowIsNewest(t.row, t.rows, t.nextVersion, t.nextCreation)
  {
  }

  // ----- The revisions in play -----

  ghost predicate Real(m: Mark, rows: set<SavedDraft>) {
    exists d :: d in rows && d.mark == m
  }

  /** The editor was given this revision: it is a real one that was acknowledged, taken over or answered. */
  ghost predicate Given(m: Option<Mark>, rows: set<SavedDraft>, given: set<nat>) {
    m.Some? ==> Real(m.value, rows) && m.value.version in given
  }

  function BaseOf(request: Request): Option<Mark> {
    match request
    case Put(_, base) => base
    case Delete(expected) => Some(expected)
  }

  predicate Offered(theirs: Option<SavedDraft>, rows: set<SavedDraft>) {
    theirs.Some? ==> theirs.value in rows
  }

  ghost predicate ReplyIsReal(reply: Reply, rows: set<SavedDraft>) {
    match reply
    case Accepted(mark) => Real(mark, rows)
    case Refused(theirs) => Offered(theirs, rows)
    case _ => true
  }

  ghost predicate QueueWasGiven(queue: seq<Task>, rows: set<SavedDraft>, given: set<nat>) {
    forall i :: 0 <= i < |queue| && queue[i].Discard? ==> Given(queue[i].revision, rows, given)
  }

  ghost predicate EditorWasGiven(e: Editor, rows: set<SavedDraft>, given: set<nat>) {
    && Given(e.saved.revision, rows, given)
    && (e.asked.Some? ==> Given(e.asked.value, rows, given))
    && QueueWasGiven(e.queue, rows, given)
    && (e.conflict.Some? ==> Offered(e.conflict.value.theirs, rows))
  }

  ghost predicate CallWasGiven(call: Call, rows: set<SavedDraft>, given: set<nat>) {
    && Given(BaseOf(call.request), rows, given)
    && (call.Replied? ==> ReplyIsReal(call.reply, rows))
  }

  ghost predicate CallsWereGiven(calls: map<nat, Call>, rows: set<SavedDraft>, given: set<nat>) {
    forall c :: c in calls ==> CallWasGiven(calls[c], rows, given)
  }

  lemma MoreRowsKeepGiven(e: Editor, calls: map<nat, Call>, rows: set<SavedDraft>, given: set<nat>, rows': set<SavedDraft>, given': set<nat>)
    requires EditorWasGiven(e, rows, given) && CallsWereGiven(calls, rows, given) && rows <= rows' && given <= given'
    ensures EditorWasGiven(e, rows', given') && CallsWereGiven(calls, rows', given')
  {
  }

  // ----- Texts and the awaited call -----

  predicate AwaitsItsCall(e: Editor, calls: map<nat, Call>, awaited: nat) {
    e.inFlight.Some? ==>
      && awaited in calls
      && match e.inFlight.value
         case Putting(sent) => calls[awaited].request.Put? && calls[awaited].request.text == sent
         case Deleting(_) => calls[awaited].request.Delete?
  }

  /** The text was a row of the server at some time. */
  ghost predicate WasStored(text: Source, rows: set<SavedDraft>) {
    exists d :: d in rows && d.source == text
  }

  ghost predicate TextsFromServer(e: Editor, rows: set<SavedDraft>, plans: set<Source>) {
    && (e.saved.source in plans || WasStored(e.saved.source, rows))
    && e.template in plans
  }

  ghost predicate WasStoredAs(text: Source, version: nat, rows: set<SavedDraft>) {
    exists d :: d in rows && d.source == text && d.mark.version == version
  }

  /**
   What the server did for a save: it wrote the text that was sent, and unless another write came in
   between, it acknowledges the very row it wrote.
   */
  ghost predicate SavedWhatWasSent(call: Call, rows: set<SavedDraft>) {
    match call
    case Unread(Put(text, _), Some(version)) => WasStoredAs(text, version, rows)
    case Replied(Put(text, _), Accepted(mark), raced) =>
      if raced then WasStored(text, rows) else SavedDraft(text, mark) in rows
    case _ => true
  }

  ghost predicate CallsSavedWhatWasSent(calls: map<nat, Call>, rows: set<SavedDraft>) {
    forall c :: c in calls ==> SavedWhatWasSent(calls[c], rows)
  }

  ghost predicate Invariant(s: System) {
    && RowsDiffer(s.rows)
    && RowIsNewest(s.row, s.rows, s.nextVersion, s.nextCreation)
    && EditorWasGiven(s.editor, s.rows, s.known + s.raced)
    && CallsWereGiven(s.calls, s.rows, s.known + s.raced)
    && (forall c :: c in s.calls ==> c < s.nextCall)
    && AwaitsItsCall(s.editor, s.calls, s.awaited)
    && TextsFromServer(s.editor, s.rows, s.plans)
    && CallsSavedWhatWasSent(s.calls, s.rows)
    && s.begun + s.editor.queue == s.enqueued
  }

  lemma StartIsSound(template: Source, draft: Option<Source>)
    ensures Invariant(Start(template, draft))
  {
    if draft.Some? {
      assert SavedDraft(draft.value, Mark(1, 0, 0)) in Start(template, draft).rows;
    }
  }

  /** A step of the editor alone: what it holds afterwards it was given before, or is given now. */
  lemma EditorStepKeeps(s: System, t: System, editor: Editor)
    requires Invariant(s)
    requires editor.queue == s.editor.queue || (|editor.queue| == |s.editor.queue| + 1 && editor.queue[..|s.editor.queue|] == s.editor.queue)
    requires t == Moved(s, editor).(known := t.known, raced := t.raced, plans := t.plans)
    requires s.known <= t.known && s.raced <= t.raced && s.plans <= t.plans
    requires EditorWasGiven(editor, s.rows, t.known + t.raced)
    requires AwaitsItsCall(editor, s.calls, s.awaited) && TextsFromServer(editor, s.rows, t.plans)
    ensures Invariant(t)
  {
    MoreRowsKeepGiven(s.editor, s.calls, s.rows, s.known + s.raced, t.rows, t.known + t.raced);
    assert t.begun + t.editor.queue == t.enqueued;
  }

  lemma ScreenStepKeeps(s: System, h: Happening)
    requires Invariant(s) && Enabled(s, h)
    requires h.Type? || h.Revert? || h.TryAgain? || h.AskSave?
    ensures Invariant(Apply(s, h))
  {
    EditorStepKeeps(s, Apply(s, h), Apply(s, h).editor);
  }

  lemma PressDiscardKeeps(s: System)
    requires Invariant(s) && Enabled(s, PressDiscard)
    ensures Invariant(Apply(s, PressDiscard))
  {
    var editor := DiscardPressed(s.editor);
    assert EditorWasGiven(editor, s.rows, s.known + s.raced) && TextsFromServer(editor, s.rows, s.plans);
    EditorStepKeeps(s, Moved(s, editor), editor);
  }

  lemma ConfirmDiscardKeeps(s: System, h: Happening)
    requires Invariant(s) && Enabled(s, h) && h.ConfirmDiscard?
    ensures Invariant(Apply(s, h))
  {
    EditorStepKeeps(s, Apply(s, h), Apply(s, h).editor);
  }

  lemma LoseKeeps(s: System)
    requires Invariant(s) && s.editor.inFlight.Some?
    ensures Invariant(Moved(s, Answered(s.editor, Failed)))
  {
    var given := s.known + s.raced;
    AnswerKeepsEditor(s.editor, Failed, s.rows, given, given, s.plans);
    AnswerKeepsFrame(s.editor, Failed);
  }

  lemma ConflictStepKeeps(s: System, h: Happening)
    requires Invariant(s) && Enabled(s, h) && (h.KeepMine? || h.UseTheirs? || h.DiscardAnyway?)
    ensures Invariant(Apply(s, h))
  {
    var t := Apply(s, h);
    MoreRowsKeepGiven(s.editor, s.calls, s.rows, s.known + s.raced, t.rows, t.known + t.raced);
    var theirs := s.editor.conflict.value.theirs;
    assert Given(TheirRevision(s.editor.conflict.value), t.rows, t.known + t.raced) by {
      if theirs.Some? {
        assert theirs.value in s.rows;
      }
    }
    EditorStepKeeps(s, t, t.editor);
  }

  lemma RefreshKeepsEditor(
      e: Editor, template: Source, draft: Option<SavedDraft>, newDetails: bool,
      rows: set<SavedDraft>, given: set<nat>, plans: set<Source>)
    requires EditorWasGiven(e, rows, given) && TextsFromServer(e, rows, plans) && Offered(draft, rows)
    requires !Unsaved(e) && (newDetails || !SameProps(ShownAs(template, draft), e.seen)) ==> VersionOf(draft) <= given
    requires template in plans
    ensures var r := Refreshed(e, template, draft, newDetails);
      EditorWasGiven(r, rows, given) && TextsFromServer(r, rows, plans) && r.queue == e.queue && r.inFlight == e.inFlight
  {
    if draft.Some? {
      assert Real(draft.value.mark, rows);
    }
  }

  lemma RefreshKeeps(s: System, template: Source, draft: Option<SavedDraft>, newDetails: bool)
    requires Invariant(s) && Offered(draft, s.rows)
    ensures Invariant(Reread(s, template, draft, newDetails))
  {
    var t := Reread(s, template, draft, newDetails);
    MoreRowsKeepGiven(s.editor, s.calls, s.rows, s.known + s.raced, s.rows, t.known + t.raced);
    RefreshKeepsEditor(s.editor, template, draft, newDetails, s.rows, t.known + t.raced, t.plans);
  }

  lemma BegunWasGiven(e: Editor, rows: set<SavedDraft>, given: set<nat>)
    requires EditorWasGiven(e, rows, given) && e.queue != []
    ensures EditorWasGiven(Begun(e).0, rows, given)
    ensures Begun(e).1.Some? ==> Given(BaseOf(Begun(e).1.value), rows, given)
  {
    assert forall i :: 0 <= i < |e.queue[1..]| ==> e.queue[1..][i] == e.queue[i + 1];
  }

  lemma BegunKeepsTexts(e: Editor, rows: set<SavedDraft>, plans: set<Source>)
    requires TextsFromServer(e, rows, plans) && e.queue != []
    ensures TextsFromServer(Begun(e).0, rows, plans) && Begun(e).0.queue == e.queue[1..]
    ensures Begun(e).1.None? ==> Begun(e).0.inFlight == e.inFlight
    ensures Begun(e).1.Some? ==> Begun(e).0.inFlight == Some(
      if Begun(e).1.value.Put? then Putting(Begun(e).1.value.text) else Deleting(e.screen))
  {
  }

  lemma BeginKeeps(s: System)
    requires Invariant(s) && Enabled(s, Begin)
    ensures Invariant(Started(s))
  {
    BegunWasGiven(s.editor, s.rows, s.known + s.raced);
    BegunKeepsTexts(s.editor, s.rows, s.plans);
    assert s.editor.queue == [s.editor.queue[0]] + s.editor.queue[1..];
    assert Started(s).begun + s.editor.queue[1..] == s.enqueued;
  }

  lemma GivenByParts(e: Editor, f: Editor, rows: set<SavedDraft>, given: set<nat>, plans: set<Source>)
    requires EditorWasGiven(e, rows, given) && TextsFromServer(e, rows, plans)
    requires (f.template, f.saved, f.asked, f.queue, f.conflict) == (e.template, e.saved, e.asked, e.queue, e.conflict)
    ensures EditorWasGiven(f, rows, given) && TextsFromServer(f, rows, plans)
  {
  }

  lemma PutAnswerKeepsEditor(
      e: Editor, sent: Source, reply: Reply, rows: set<SavedDraft>, given: set<nat>, given': set<nat>, plans: set<Source>)
    requires EditorWasGiven(e, rows, given) && TextsFromServer(e, rows, plans)
    requires QueueWasGiven(e.queue, rows, given') && given <= given'
    requires ReplyIsReal(reply, rows)
    requires reply.Accepted? ==> reply.mark.version in given' && WasStored(sent, rows)
    ensures EditorWasGiven(AfterPut(e, sent, reply), rows, given') && TextsFromServer(AfterPut(e, sent, reply), rows, plans)
  {
  }

  lemma DeleteAnswerKeepsEditor(
      e: Editor, before: Source, reply: Reply, rows: set<SavedDraft>, given: set<nat>, given': set<nat>, plans: set<Source>)
    requires EditorWasGiven(e, rows, given) && TextsFromServer(e, rows, plans)
    requires QueueWasGiven(e.queue, rows, given') && given <= given'
    requires ReplyIsReal(reply, rows)
    ensures EditorWasGiven(AfterDelete(e, before, reply), rows, given') && TextsFromServer(AfterDelete(e, before, reply), rows, plans)
  {
  }

  /** An answer leaves the queue and the question alone; the rest it sets comes from the answer. */
  lemma AnswerKeepsEditor(
      e: Editor, reply: Reply, rows: set<SavedDraft>, given: set<nat>, given': set<nat>, plans: set<Source>)
    requires EditorWasGiven(e, rows, given) && TextsFromServer(e, rows, plans) && e.inFlight.Some?
    requires QueueWasGiven(e.queue, rows, given') && given <= given'
    requires ReplyIsReal(reply, rows)
    requires reply.Accepted? && e.inFlight.value.Putting? ==> reply.mark.version in given' && WasStored(e.inFlight.value.sent, rows)
    ensures EditorWasGiven(Answered(e, reply), rows, given') && TextsFromServer(Answered(e, reply), rows, plans)
  {
    match e.inFlight.value
    case Putting(sent) =>
      var f := e.(inFlight := None);
      GivenByParts(e, f, rows, given, plans);
      PutAnswerKeepsEditor(f, sent, reply, rows, given, given', plans);
      assert Answered(e, reply) == AfterPut(f, sent, reply);
    case Deleting(before) =>
      var f := e.(inFlight := None, busy := false);
      GivenByParts(e, f, rows, given, plans);
      DeleteAnswerKeepsEditor(f, before, reply, rows, given, given', plans);
      assert Answered(e, reply) == AfterDelete(f, before, reply);
  }

  lemma AnswerKeepsFrame(e: Editor, reply: Reply)
    requires e.inFlight.Some?
    ensures Answered(e, reply).queue == e.queue && Answered(e, reply).inFlight.None?
  {
  }

  lemma ReplyKeeps(s: System, call: Call)
    requires Invariant(s) && s.editor.inFlight.Some? && call.Replied? && ReplyIsReal(call.reply, s.rows)
    requires SavedWhatWasSent(call, s.rows)
    requires match s.editor.inFlight.value
      case Putting(sent) => call.request.Put? && call.request.text == sent
      case Deleting(_) => call.request.Delete?
    ensures Invariant(Delivered(s, call))
  {
    var t := Delivered(s, call);
    MoreRowsKeepGiven(s.editor, s.calls, s.rows, s.known + s.raced, s.rows, t.known + t.raced);
    AnswerKeepsEditor(s.editor, call.reply, s.rows, s.known + s.raced, t.known + t.raced, s.plans);
    AnswerKeepsFrame(s.editor, call.reply);
  }

  lemma DeliverKeeps(s: System)
    requires Invariant(s) && Enabled(s, Deliver)
    ensures Invariant(Delivered(s, s.calls[s.awaited]))
  {
    assert CallWasGiven(s.calls[s.awaited], s.rows, s.known + s.raced);
    ReplyKeeps(s, s.calls[s.awaited]);
  }

  /** The server moves one request on without a write. */
  lemma CallStepKeeps(s: System, c: nat, call: Call)
    requires Invariant(s) && c in s.calls && call.request == s.calls[c].request
    requires call.Replied? ==> ReplyIsReal(call.reply, s.rows)
    requires SavedWhatWasSent(call, s.rows)
    ensures Invariant(s.(calls := s.calls[c := call]))
  {
    assert CallWasGiven(s.calls[c], s.rows, s.known + s.raced);
  }

  lemma WriteKeeps(s: System, text: Source)
    requires Invariant(s)
    ensures Invariant(Write(s, text)) && Real(Written(s, text).mark, Write(s, text).rows)
  {
    WriteKeepsRows(s, text);
    MoreRowsKeepGiven(s.editor, s.calls, s.rows, s.known + s.raced, s.rows + {Written(s, text)}, s.known + s.raced);
    assert Written(s, text) in Write(s, text).rows;
  }

  lemma DecidePutKeeps(s: System, c: nat)
    requires Invariant(s) && Enabled(s, Decide(c)) && s.calls[c].request.Put?
    ensures Invariant(Decided(s, c))
  {
    var Put(text, base) := s.calls[c].request;
    if (if base.None? then s.row.None? else Matches(s.row, base.value)) {
      WriteKeeps(s, text);
      CallStepKeeps(Write(s, text), c, Decided(s, c).calls[c]);
    } else {
      CallStepKeeps(s, c, Unread(s.calls[c].request, None));
    }
  }

  lemma DecideKeeps(s: System, c: nat)
    requires Invariant(s) && Enabled(s, Decide(c))
    ensures Invariant(Decided(s, c))
  {
    if s.calls[c].request.Put? {
      DecidePutKeeps(s, c);
    } else {
      CallStepKeeps(s.(row := Decided(s, c).row), c, Decided(s, c).calls[c]);
    }
  }

  lemma ReadKeeps(s: System, c: nat)
    requires Invariant(s) && Enabled(s, Read(c))
    ensures Invariant(Apply(s, Read(c)))
  {
    CallStepKeeps(s, c, ReadReply(s.calls[c].request, s.calls[c].written, s.row));
  }

  lemma StepKeepsInvariant(s: System, h: Happening)
    requires Invariant(s) && Enabled(s, h)
    ensures Invariant(Apply(s, h))
  {
    match h
    case Begin => BeginKeeps(s);
    case Deliver => DeliverKeeps(s);
    case Refresh(template, draft, newDetails) => RefreshKeeps(s, template, draft, newDetails);
    case KeepMine => ConflictStepKeeps(s, h);
    case UseTheirs => ConflictStepKeeps(s, h);
    case DiscardAnyway => ConflictStepKeeps(s, h);
    case Decide(c) => DecideKeeps(s, c);
    case Read(c) => ReadKeeps(s, c);
    case Refuse(c, answer) => CallStepKeeps(s, c, Replied(s.calls[c].request, answer, false));
    case OtherSave(text) => WriteKeeps(s, text);
    case OtherDiscard =>
    case Lose => LoseKeeps(s);
    case PressDiscard => PressDiscardKeeps(s);
    case ConfirmDiscard(_) => ConfirmDiscardKeeps(s, h);
    case _ => ScreenStepKeeps(s, h);
  }

  lemma {:induction false} RunKeepsInvariant(s: System, hs: seq<Happening>)
    requires Invariant(s) && Legal(s, hs)
    ensures Invariant(Run(s, hs))
    decreases |hs|
  {
    if hs != [] {
      StepKeepsInvariant(s, hs[0]);
      RunKeepsInvariant(Apply(s, hs[0]), hs[1..]);
    }
  }
}
