/**
 Exactly when a request on its way can come to replace a row that the editor was never acknowledged,
 refreshed with or answered a conflict about.
 */
module DraftOverwrites {
  import opened Options
  import opened DraftEditor
  import opened DraftServer
  import opened DraftSafety
  import opened DraftTheorems

  /** The request was sent with a revision, and the server has not decided it. */
  predicate OnItsWay(s: System, c: nat) {
    c in s.calls && s.calls[c].Sent? && BaseOf(s.calls[c].request).Some?
  }

  function Base(s: System, c: nat): Mark
    requires OnItsWay(s, c)
  {
    BaseOf(s.calls[c].request).value
  }

  predicate ReplacesUnknown(s: System, c: nat) {
    s.row.Some? && Replaces(s, Decide(c), s.row.value) && s.row.value.mark.version !in s.known
  }

  /** Revisions count from 1, and what the editor knows was written. */
  ghost predicate Counted(s: System) {
    && (forall d :: d in s.rows ==> 1 <= d.mark.number)
    && (forall v :: v in s.known ==> v < s.nextVersion)
  }

  lemma StartIsCounted(template: Source, draft: Option<Source>)
    ensures Counted(Start(template, draft))
  {
  }

  lemma WriteStaysCounted(s: System, text: Source)
    requires Invariant(s) && Counted(s)
    ensures Counted(Write(s, text))
  {
  }

  /** A step that hears of a row hears of one that there was. */
  lemma HeardWasWritten(s: System, h: Happening)
    requires Invariant(s) && Enabled(s, h) && Counted(s)
    requires h.Deliver? || h.KeepMine? || h.UseTheirs? || h.DiscardAnyway? || h.Refresh?
    ensures Counted(Apply(s, h))
  {
    if h.Deliver? {
      assert CallWasGiven(s.calls[s.awaited], s.rows, s.known + s.raced);
    }
  }

  lemma StepStaysCounted(s: System, h: Happening)
    requires Invariant(s) && Enabled(s, h) && Counted(s)
    ensures Counted(Apply(s, h))
  {
    match h
    case Decide(c) =>
      if s.calls[c].request.Put? {
        WriteStaysCounted(s, s.calls[c].request.text);
      }
    case OtherSave(text) => WriteStaysCounted(s, text);
    case Deliver => HeardWasWritten(s, h);
    case KeepMine => HeardWasWritten(s, h);
    case UseTheirs => HeardWasWritten(s, h);
    case DiscardAnyway => HeardWasWritten(s, h);
    case Refresh(_, _, _) => HeardWasWritten(s, h);
    case _ =>
  }

  // ----- While no draft is created anew -----

  ghost predicate KeepsDraft(s: System, hs: seq<Happening>)
    requires Legal(s, hs)
    decreases |hs|
  {
    hs == [] || (!CreatesAnew(s, hs[0]) && KeepsDraft(Apply(s, hs[0]), hs[1..]))
  }

  /** A row that is there later is the same draft with no smaller revision, and what is known stays known. */
  ghost predicate Onward(s: System, t: System) {
    && (t.row.Some? ==>
      && s.row.Some? && s.row.value.mark.creation == t.row.value.mark.creation
      && s.row.value.mark.number <= t.row.value.mark.number)
    && s.known <= t.known && s.rows <= t.rows && s.nextCreation <= t.nextCreation
  }

  lemma StepGoesOnward(s: System, h: Happening)
    requires Enabled(s, h) && !CreatesAnew(s, h) && s.nextCreation > 0
    ensures Onward(s, Apply(s, h))
  {
  }

  /** What is undecided later was sent before, and is the same request. */
  predicate SameRequest(s: System, t: System, c: nat) {
    c in t.calls && t.calls[c].Sent? ==> c in s.calls && s.calls[c] == t.calls[c]
  }

  lemma StepKeepsRequest(s: System, h: Happening, c: nat)
    requires Enabled(s, h) && c < s.nextCall
    ensures SameRequest(s, Apply(s, h), c) && s.nextCall <= Apply(s, h).nextCall
  {
  }

  lemma {:induction false} RunGoesOnward(s: System, hs: seq<Happening>, c: nat)
    requires Invariant(s) && Legal(s, hs) && KeepsDraft(s, hs) && s.nextCreation > 0 && c < s.nextCall
    ensures Invariant(Run(s, hs)) && Onward(s, Run(s, hs)) && SameRequest(s, Run(s, hs), c)
    decreases |hs|
  {
    if hs != [] {
      StepKeepsInvariant(s, hs[0]);
      StepGoesOnward(s, hs[0]);
      StepKeepsRequest(s, hs[0], c);
      RunGoesOnward(Apply(s, hs[0]), hs[1..], c);
    }
  }

  // ----- Other devices save -----

  function Saves(n: nat): seq<Happening> {
    if n == 0 then [] else [OtherSave(Source("", ""))] + Saves(n - 1)
  }

  /** The draft after `n` saves elsewhere; this editor is as it was. */
  ghost predicate SavedElsewhere(s: System, t: System, n: nat) {
    && s.row.Some? && t.row.Some? && t.calls == s.calls && t.known == s.known
    && t.row.value.mark.number == s.row.value.mark.number + n
    && t.row.value.mark.creation == s.row.value.mark.creation
    && (if n == 0 then t.row == s.row else t.row.value.mark.version >= s.nextVersion)
  }

  lemma {:induction false} OthersSave(s: System, n: nat)
    requires s.row.Some?
    ensures Legal(s, Saves(n)) && KeepsDraft(s, Saves(n)) && SavedElsewhere(s, Run(s, Saves(n)), n)
    decreases n
  {
    if n > 0 {
      assert Saves(n)[0] == OtherSave(Source("", "")) && Saves(n)[1..] == Saves(n - 1);
      OthersSave(Apply(s, Saves(n)[0]), n - 1);
    }
  }

  // ----- Exactly when -----

  ghost predicate CanReplaceUnknown(s: System, c: nat) {
    exists hs :: Legal(s, hs) && ReplacesUnknown(Run(s, hs), c)
  }

  ghost predicate CanReplaceUnknownOfThisDraft(s: System, c: nat) {
    exists hs :: Legal(s, hs) && KeepsDraft(s, hs) && ReplacesUnknown(Run(s, hs), c)
  }

  /**
   The request's revision is that of the current row, which only an acknowledgement of another write
   named; or it is from an earlier draft, and the current row has not reached its number, or has unknown to the editor.
   */
  predicate Endangers(s: System, base: Mark) {
    && s.row.Some?
    && var row := s.row.value.mark;
      if row.creation == base.creation then row == base && base.version !in s.known
      else row.number < base.number || (row.number == base.number && row.version !in s.known)
  }

  /** A revision that another's row was acknowledged with, and nothing else, is why a row of the same draft is unknown. */
  lemma UnknownBaseWasRaced(s: System, c: nat)
    requires Invariant(s) && OnItsWay(s, c) && Base(s, c).version !in s.known
    ensures Base(s, c).version in s.raced
  {
    SentRevisionsWereGiven(s, c);
  }

  lemma EarlierWasEndangered(s: System, hs: seq<Happening>, c: nat)
    requires Invariant(s) && OnItsWay(s, c) && Legal(s, hs) && KeepsDraft(s, hs) && ReplacesUnknown(Run(s, hs), c)
    ensures Endangers(s, Base(s, c))
  {
    SentRevisionsWereGiven(s, c);
    RunGoesOnward(s, hs, c);
    var t := Run(s, hs);
    RequestMeetsItsRowIff(t, Decide(c), t.row.value);
    assert s.row.value in t.rows && t.row.value in t.rows;
  }

  /**
   A request on its way can come to replace a row the editor did not know, with no draft created anew
   from now on, exactly when it carries the revision of the current row, as named by an acknowledgement
   that was another write's; or its revision is from an earlier draft, and the current row has not reached its number, or has unknown
   to the editor.
   */
  lemma CanReplaceUnknownOfThisDraftIff(s: System, c: nat)
    requires Invariant(s) && Counted(s) && OnItsWay(s, c)
    ensures CanReplaceUnknownOfThisDraft(s, c) <==> Endangers(s, Base(s, c))
    ensures Base(s, c).version !in s.known ==> Base(s, c).version in s.raced
  {
    if hs :| Legal(s, hs) && KeepsDraft(s, hs) && ReplacesUnknown(Run(s, hs), c) {
      EarlierWasEndangered(s, hs, c);
    }
    if Endangers(s, Base(s, c)) {
      var n: nat := Base(s, c).number - s.row.value.mark.number;
      OthersSave(s, n);
      assert ReplacesUnknown(Run(s, Saves(n)), c);
    }
    if Base(s, c).version !in s.known {
      UnknownBaseWasRaced(s, c);
    }
  }

  lemma Before(s: System, h: Happening, hs: seq<Happening>)
    requires Enabled(s, h) && Legal(Apply(s, h), hs)
    ensures Legal(s, [h] + hs) && Run(s, [h] + hs) == Run(Apply(s, h), hs)
  {
    assert ([h] + hs)[0] == h && ([h] + hs)[1..] == hs;
  }

  /** Another device discards the draft, if there is one, and saves until the revision is the request's. */
  lemma NewDraftCatchesUp(s: System, number: nat) returns (hs: seq<Happening>)
    requires 1 <= number
    ensures Legal(s, hs)
    ensures var t := Run(s, hs);
      && t.row.Some? && t.row.value.mark.number == number && t.row.value.mark.version >= s.nextVersion
      && t.calls == s.calls && t.known == s.known
  {
    var text := Source("", "");
    var gone := Apply(s, OtherDiscard);
    var t := Apply(gone, OtherSave(text));
    OthersSave(t, number - 1);
    Before(gone, OtherSave(text), Saves(number - 1));
    Before(s, OtherDiscard, [OtherSave(text)] + Saves(number - 1));
    hs := [OtherDiscard] + ([OtherSave(text)] + Saves(number - 1));
  }

  /** If drafts may be created anew, every request on its way can: another device discards the draft and saves as often. */
  lemma EveryRequestCanReplaceUnknown(s: System, c: nat)
    requires Invariant(s) && Counted(s) && OnItsWay(s, c)
    ensures CanReplaceUnknown(s, c)
  {
    SentRevisionsWereGiven(s, c);
    var d :| d in s.rows && d.mark == Base(s, c);
    var hs := NewDraftCatchesUp(s, Base(s, c).number);
    assert ReplacesUnknown(Run(s, hs), c);
  }
}
