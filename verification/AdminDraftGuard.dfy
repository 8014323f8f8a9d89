/**
 The revision guard of a staff form (src/components/AdminDraftForm.tsx): a draft begun on one revision
 of a record may not be sent against another that its author has not reviewed. Next to the form's own
 state stands a record of what happened, which the code does not keep: on which revision the wording
 on the screen was begun, which revisions were marked as reviewed, and what was sent.
 */
module AdminDraftGuard {
  import opened Options

  type Revision = Option<string>

  datatype Draft = Draft(values: string, revision: Revision)

  /** `reviewed` starts as null, which equals no revision, not even a missing one. */
  datatype Page = Page(revision: Revision, reviewed: Option<string>, draft: Option<Draft>)

  predicate Conflict(p: Page) {
    && p.draft.Some?
    && p.draft.value.revision != p.revision
    && !(p.reviewed.Some? && p.revision == Some(p.reviewed.value))
  }

  function Captured(p: Page, values: string): Page {
    p.(draft := Some(Draft(values, if Conflict(p) then p.draft.value.revision else p.revision)))
  }

  function OrEmpty(revision: Revision): string {
    if revision.Some? then revision.value else ""
  }

  function Reviewed(p: Page): Page
    requires Conflict(p)
  {
    p.(reviewed := Some(OrEmpty(p.revision)), draft := Some(p.draft.value.(revision := p.revision)))
  }

  class GuardedForm {
    var revision: Revision
    var reviewed: Option<string>
    var draft: Option<Draft>

    ghost function Now(): Page
      reads this
    {
      Page(revision, reviewed, draft)
    }

    constructor (revision: Revision, draft: Option<Draft>)
      ensures Now() == Page(revision, None, draft)
    {
      this.revision, this.reviewed, this.draft := revision, None, draft;
    }

    method HasConflict() returns (conflict: bool)
      ensures conflict <==> Conflict(Now())
    {
      conflict := draft.Some? && draft.value.revision != revision && (reviewed.None? || revision != Some(reviewed.value));
    }

    method Capture(values: string)
      modifies this`draft
      ensures Now() == Captured(old(Now()), values)
    {
      var conflict := HasConflict();
      draft := Some(Draft(values, if conflict then draft.value.revision else revision));
    }

    method Submit(values: string) returns (sent: bool)
      modifies this`draft
      ensures sent <==> !old(Conflict(Now()))
      ensures Now() == if sent then Captured(old(Now()), values) else old(Now())
    {
      var conflict := HasConflict();
      if conflict {
        return false;
      }
      Capture(values);
      return true;
    }

    method PressReviewed()
      requires Conflict(Now())
      modifies this`reviewed, this`draft
      ensures Now() == Reviewed(old(Now()))
    {
      reviewed := Some(if revision.Some? then revision.value else "");
      draft := Some(draft.value.(revision := revision));
    }
  }

  // ----- Runs -----

  /** What was sent, against which revision, and what it was begun on and reviewed for by then. */
  datatype Sent = Sent(values: string, against: Revision, begun: Revision, marked: set<Revision>, lapsed: bool)

  /**
   What happened besides: whether wording is on the screen and the revision it was begun on, whether
   the store dropped its draft since then, the revisions marked as reviewed, and what was sent.
   */
  datatype World = World(page: Page, typed: bool, begun: Revision, lapsed: bool, marked: set<Revision>, sent: seq<Sent>)

  predicate Known(r: Revision, begun: Revision, marked: set<Revision>) {
    r == begun || r in marked
  }

  /** A missing revision is remembered as the empty text, so reviewing it passes for a review of that revision. */
  predicate PassesForMissing(r: Revision, marked: set<Revision>) {
    r == Some("") && None in marked
  }

  predicate Vouched(r: Revision, begun: Revision, marked: set<Revision>) {
    Known(r, begun, marked) || PassesForMissing(r, marked)
  }

  datatype Happening =
    | Typed(values: string)
    | Submitted(values: string)
    | MarkedReviewed
    | Lapsed
    | Reset
    | Refreshed(revision: Revision)
    | Reopened(revision: Revision)

  predicate Legal(w: World, h: Happening) {
    h.MarkedReviewed? ==> Conflict(w.page)
  }

  function Typing(w: World, values: string): World {
    var next := w.(page := Captured(w.page, values), typed := true);
    if w.typed then next else next.(begun := w.page.revision, lapsed := false)
  }

  function Apply(w: World, h: Happening): World
    requires Legal(w, h)
  {
    match h
    case Typed(values) => Typing(w, values)
    case Submitted(values) =>
      if Conflict(w.page) then w
      else
        var next := Typing(w, values);
        next.(sent := w.sent + [Sent(values, w.page.revision, next.begun, next.marked, next.lapsed)])
    case MarkedReviewed => w.(page := Reviewed(w.page), marked := w.marked + {w.page.revision})
    case Lapsed => w.(page := w.page.(draft := None), lapsed := w.lapsed || w.typed)
    case Reset => w.(page := w.page.(draft := None), typed := false, lapsed := false)
    case Refreshed(revision) => w.(page := w.page.(revision := revision))
    case Reopened(revision) =>
      w.(page := Page(revision, None, w.page.draft), typed := w.page.draft.Some?, lapsed := w.lapsed && w.page.draft.Some?)
  }

  ghost predicate Reaches(w: World, hs: seq<Happening>, end: World)
    decreases |hs|
  {
    if hs == [] then w == end else Legal(w, hs[0]) && Reaches(Apply(w, hs[0]), hs[1..], end)
  }

  /** A form that was just opened, with no draft in the store. */
  function Opened(revision: Revision): World {
    World(Page(revision, None, None), false, None, false, {}, [])
  }

  ghost predicate Invariant(w: World) {
    && (w.page.draft.Some? ==> w.typed)
    && (w.typed && w.page.draft.None? ==> w.lapsed)
    && (w.page.draft.Some? && !w.lapsed ==> Vouched(w.page.draft.value.revision, w.begun, w.marked))
    && (w.page.reviewed.Some? ==> Some(w.page.reviewed.value) in w.marked || PassesForMissing(w.page.reviewed, w.marked))
    && (forall i :: 0 <= i < |w.sent| && !w.sent[i].lapsed ==> Vouched(w.sent[i].against, w.sent[i].begun, w.sent[i].marked))
  }

  lemma StepKeepsInvariant(w: World, h: Happening)
    requires Invariant(w) && Legal(w, h)
    ensures Invariant(Apply(w, h))
  {
    if h.Submitted? && !Conflict(w.page) {
      var next := Apply(w, h);
      assert next.sent[..|w.sent|] == w.sent;
    }
  }

  lemma {:induction false} RunKeepsInvariant(w: World, hs: seq<Happening>, end: World)
    requires Invariant(w) && Reaches(w, hs, end)
    ensures Invariant(end)
    decreases |hs|
  {
    if hs != [] {
      StepKeepsInvariant(w, hs[0]);
      RunKeepsInvariant(Apply(w, hs[0]), hs[1..], end);
    }
  }

  lemma OpenedIsSound(revision: Revision)
    ensures Invariant(Opened(revision))
  {
  }

  /**
   Over every run of a form, while its draft stayed in the store, no wording was sent against a revision
   that it was neither begun on nor its author marked as reviewed, unless that is the empty text and the
   author had marked a missing one.
   */
  lemma HeldDraftsAreSentAgainstKnownRevisions(revision: Revision, hs: seq<Happening>, end: World)
    requires Reaches(Opened(revision), hs, end)
    ensures Invariant(end)
    ensures forall i :: 0 <= i < |end.sent| && !end.sent[i].lapsed ==>
      Vouched(end.sent[i].against, end.sent[i].begun, end.sent[i].marked)
  {
    OpenedIsSound(revision);
    RunKeepsInvariant(Opened(revision), hs, end);
  }

  /** What was typed last is what the draft holds, through reviews and refreshes, and what a submission sends. */
  lemma DraftHoldsTheTyping(w: World, h: Happening)
    requires Legal(w, h)
    ensures var t := Apply(w, h);
      && (h.Typed? ==> t.page.draft.Some? && t.page.draft.value.values == h.values)
      && (h.MarkedReviewed? || h.Refreshed? || h.Reopened? ==>
          (t.page.draft.Some? <==> w.page.draft.Some?) && (w.page.draft.Some? ==> t.page.draft.value.values == w.page.draft.value.values))
      && (h.Submitted? && !Conflict(w.page) ==>
          && t.page.draft.Some? && t.page.draft.value.values == h.values
          && |t.sent| == |w.sent| + 1 && t.sent[|w.sent|].values == h.values && t.sent[|w.sent|].against == w.page.revision)
      && (h.Submitted? && Conflict(w.page) ==> t == w)
      && (!h.Submitted? ==> t.sent == w.sent)
  {
  }

  /** A draft lapses only by an expiry after wording was begun; begun anew, reset or opened without one, none has. */
  lemma LapseIsAnExpiry(w: World, h: Happening)
    requires Legal(w, h)
    ensures Apply(w, h).lapsed <==>
      (h.Lapsed? && w.typed) || (w.lapsed && !h.Reset? && (h.Reopened? ==> w.page.draft.Some?)
                                && (h.Typed? || (h.Submitted? && !Conflict(w.page)) ==> w.typed))
    ensures h.Lapsed? || h.Reset? ==> Apply(w, h).page.draft == None
    ensures h.Reopened? ==> Apply(w, h).page == Page(h.revision, None, w.page.draft)
    ensures h.Refreshed? ==> Apply(w, h).page == w.page.(revision := h.revision)
  {
  }

  /** There is a conflict exactly while a draft is held of another revision than the record's, and the record's was not the one reviewed last. */
  lemma ConflictIff(p: Page)
    ensures Conflict(p) <==> exists d ::
      p.draft == Some(d) && d.revision != p.revision && (p.reviewed == None || p.revision != Some(p.reviewed.value))
  {
    if p.draft.Some? {
      assert p.draft == Some(p.draft.value);
    }
  }

  /** A review ends the conflict, until the record changes again. */
  lemma ReviewEndsTheConflict(w: World, revision: Revision)
    requires Conflict(w.page)
    ensures var t := Apply(w, MarkedReviewed);
      && !Conflict(t.page) && t.page.revision == w.page.revision && t.page.draft.value.revision == w.page.revision
      && (Conflict(Apply(t, Refreshed(revision)).page) <==> revision != w.page.revision && revision != Some(if w.page.revision.Some? then w.page.revision.value else ""))
  {
  }

  /** Under a conflict nothing is sent, however often the author types or submits, and typing still reaches the draft. */
  lemma {:induction false} ConflictBlocksUntilAnswered(w: World, hs: seq<Happening>, end: World)
    requires Conflict(w.page) && Reaches(w, hs, end)
    requires forall i :: 0 <= i < |hs| ==> hs[i].Typed? || hs[i].Submitted?
    ensures Conflict(end.page) && end.sent == w.sent && end.page.draft.value.revision == w.page.draft.value.revision
    ensures forall i :: 0 <= i < |hs| && hs[i].Typed? && (forall j :: i < j < |hs| ==> hs[j].Submitted?) ==>
      end.page.draft.value.values == hs[i].values
    decreases |hs|
  {
    if hs != [] {
      var next := Apply(w, hs[0]);
      ConflictBlocksUntilAnswered(next, hs[1..], end);
      if hs[0].Typed? && forall j :: 0 < j < |hs| ==> hs[j].Submitted? {
        SubmittingLeavesTheDraft(next, hs[1..], end);
      }
      forall i | 0 < i < |hs| && hs[i].Typed? && (forall j :: i < j < |hs| ==> hs[j].Submitted?)
        ensures end.page.draft.value.values == hs[i].values
      {
        assert hs[1..][i - 1] == hs[i];
      }
    }
  }

  lemma {:induction false} SubmittingLeavesTheDraft(w: World, hs: seq<Happening>, end: World)
    requires Conflict(w.page) && Reaches(w, hs, end)
    requires forall i :: 0 <= i < |hs| ==> hs[i].Submitted?
    ensures end == w
    decreases |hs|
  {
    if hs != [] {
      SubmittingLeavesTheDraft(w, hs[1..], end);
    }
  }

  // ----- When the guard fails -----

  /** After some refresh, submitting sends the wording against a revision it was neither begun on nor reviewed for. */
  ghost predicate CanSendUnreviewed(w: World) {
    exists r: Revision :: !Known(r, w.begun, w.marked) && !Conflict(w.page.(revision := r))
  }

  /**
   The guard holds for wording on the screen exactly while the store holds a draft of it that names a
   revision it was begun on or reviewed for, and the last review was not of a missing revision. It fails
   once the draft has expired: the wording stays in the form, and a later capture takes over whatever
   revision the record has by then. And after a review of a missing revision, the empty one passes.
   */
  lemma CanSendUnreviewedIff(w: World)
    requires Invariant(w) && w.typed
    ensures CanSendUnreviewed(w) <==>
      || w.page.draft.None?
      || !Known(w.page.draft.value.revision, w.begun, w.marked)
      || (w.page.reviewed == Some("") && !Known(Some(""), w.begun, w.marked))
    ensures CanSendUnreviewed(w) ==> w.lapsed || (None in w.marked && !Known(Some(""), w.begun, w.marked))
  {
    if w.page.draft.None? {
      var r := UnknownRevision({w.begun} + w.marked);
      assert !Conflict(w.page.(revision := r));
    } else if !Known(w.page.draft.value.revision, w.begun, w.marked) {
      assert !Conflict(w.page.(revision := w.page.draft.value.revision));
    } else if w.page.reviewed == Some("") {
      assert !Conflict(w.page.(revision := Some("")));
    }
  }

  lemma {:induction false} LongerThanAll(known: set<Revision>) returns (n: nat)
    ensures forall r :: r in known && r.Some? ==> |r.value| < n
    decreases |known|
  {
    n := 0;
    if known != {} {
      var r :| r in known;
      var rest := LongerThanAll(known - {r});
      n := if r.Some? && |r.value| >= rest then |r.value| + 1 else rest;
    }
  }

  lemma UnknownRevision(known: set<Revision>) returns (r: Revision)
    ensures r !in known
  {
    var n := LongerThanAll(known);
    r := Some(seq(n, i requires 0 <= i < n => 'x'));
  }

  lemma Before(w: World, h: Happening, hs: seq<Happening>, end: World) returns (all: seq<Happening>)
    requires Legal(w, h) && Reaches(Apply(w, h), hs, end)
    ensures all == [h] + hs && Reaches(w, all, end)
  {
    all := [h] + hs;
    assert all[0] == h && all[1..] == hs;
  }

  /** Such a run: typed on one revision, expired, refreshed to another, submitted. */
  lemma ExpiryDropsTheGuard(values: string, a: string, b: string) returns (end: World)
    requires a != b
    ensures Reaches(Opened(Some(a)), [Typed(values), Lapsed, Refreshed(Some(b)), Submitted(values)], end)
    ensures end.sent == [Sent(values, Some(b), Some(a), {}, true)]
  {
    var w1 := Apply(Opened(Some(a)), Typed(values));
    var w2 := Apply(w1, Lapsed);
    var w3 := Apply(w2, Refreshed(Some(b)));
    end := Apply(w3, Submitted(values));
    var hs := Before(w3, Submitted(values), [], end);
    hs := Before(w2, Refreshed(Some(b)), hs, end);
    hs := Before(w1, Lapsed, hs, end);
    hs := Before(Opened(Some(a)), Typed(values), hs, end);
    assert hs == [Typed(values), Lapsed, Refreshed(Some(b)), Submitted(values)];
  }

  /** And one in which the draft is held: a missing revision is reviewed, and the empty one follows it. */
  lemma MissingIsReviewedAsEmpty(values: string, a: string) returns (end: World)
    requires a != ""
    ensures Reaches(Opened(Some(a)),
      [Typed(values), Refreshed(None), MarkedReviewed, Refreshed(Some("")), Submitted(values)], end)
    ensures end.sent == [Sent(values, Some(""), Some(a), {None}, false)]
  {
    var w1 := Apply(Opened(Some(a)), Typed(values));
    var w2 := Apply(w1, Refreshed(None));
    var w3 := Apply(w2, MarkedReviewed);
    assert w3.page == Page(None, Some(""), Some(Draft(values, None))) && w3.marked == {None};
    var w4 := Apply(w3, Refreshed(Some("")));
    end := Apply(w4, Submitted(values));
    var hs := Before(w4, Submitted(values), [], end);
    hs := Before(w3, Refreshed(Some("")), hs, end);
    hs := Before(w2, MarkedReviewed, hs, end);
    hs := Before(w1, Refreshed(None), hs, end);
    hs := Before(Opened(Some(a)), Typed(values), hs, end);
    assert hs == [Typed(values), Refreshed(None), MarkedReviewed, Refreshed(Some("")), Submitted(values)];
  }
}
