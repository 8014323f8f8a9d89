/**
 The merge-field tokenizer (src/components/MergeFieldText.tsx): a text is split at its `{{Name}}`
 fields, and each field is shown as a chip that holds its name.
 */
module MergeFields {
  import opened CodeUnits
  import opened Options

  // ----- The two patterns -----

  /** The code units that `\s` stands for: white space and line terminators (ECMA-262, section 22.2.2.9). */
  predicate IsSpace(u: CodeUnit) {
    9 <= u <= 13 || u == 32 || u == 160 || u == 0x1680 || 0x2000 <= u <= 0x200a ||
    u == 0x2028 || u == 0x2029 || u == 0x202f || u == 0x205f || u == 0x3000 || u == 0xfeff
  }

  /** The same code units one by one: tab, line feed, vertical tab, form feed, carriage return, and the spaces and separators of Unicode. */
  lemma SpacesAre(u: CodeUnit)
    ensures IsSpace(u) <==> u in {
      0x09, 0x0a, 0x0b, 0x0c, 0x0d, 0x20, 0xa0, 0x1680, 0x2000, 0x2001, 0x2002, 0x2003, 0x2004, 0x2005, 0x2006, 0x2007, 0x2008,
      0x2009, 0x200a, 0x2028, 0x2029, 0x202f, 0x205f, 0x3000, 0xfeff}
  {
  }

  predicate IsBrace(u: CodeUnit) {
    u == OPEN_BRACE || u == CLOSE_BRACE
  }

  predicate Spaces(t: Text, from: nat, upTo: nat)
    requires upTo <= |t|
  {
    forall k :: from <= k < upTo ==> IsSpace(t[k])
  }

  predicate NoBraces(t: Text, from: nat, upTo: nat)
    requires upTo <= |t|
  {
    forall k :: from <= k < upTo ==> !IsBrace(t[k])
  }

  predicate InBraces(t: Text, q: nat, e: nat) {
    q + 4 <= e <= |t| && t[q] == t[q + 1] == OPEN_BRACE && t[e - 2] == t[e - 1] == CLOSE_BRACE
  }

  /** How the patterns cut a field: spaces up to `i`, a visible character, others up to `j`, spaces again. */
  predicate IsCut(t: Text, q: nat, e: nat, i: nat, j: nat) {
    && InBraces(t, q, e)
    && q + 2 <= i < j <= e - 2
    && Spaces(t, q + 2, i)
    && !IsBrace(t[i]) && !IsSpace(t[i])
    && NoBraces(t, i + 1, j)
    && Spaces(t, j, e - 2)
  }

  /** The text from `q` to `e` is a field. */
  ghost predicate FieldAt(t: Text, q: nat, e: nat) {
    exists i: nat, j: nat :: IsCut(t, q, e, i, j)
  }

  ghost predicate IsField(part: Text) {
    FieldAt(part, 0, |part|)
  }

  // ----- Finding fields -----

  /** The end of the run of characters other than braces that starts at `i`. */
  function RunEnd(t: Text, i: nat): (end: nat)
    requires i <= |t|
    ensures i <= end <= |t| && NoBraces(t, i, end)
    ensures end < |t| ==> IsBrace(t[end])
    decreases |t| - i
  {
    if i == |t| || IsBrace(t[i]) then i else RunEnd(t, i + 1)
  }

  /** Where the pattern's match at `q` ends, if it matches there. */
  function MatchEnd(t: Text, q: nat): (end: Option<nat>)
    ensures end.Some? ==> q + 5 <= end.value <= |t|
  {
    if q + 2 > |t| || t[q] != OPEN_BRACE || t[q + 1] != OPEN_BRACE then None
    else
      var stop := RunEnd(t, q + 2);
      if stop + 2 <= |t| && t[stop] == t[stop + 1] == CLOSE_BRACE && !Spaces(t, q + 2, stop) then Some(stop + 2) else None
  }

  /** The first match at or after `q`: where it starts and ends. */
  function NextField(t: Text, q: nat): (next: Option<(nat, nat)>)
    requires q <= |t|
    ensures next.Some? ==> q <= next.value.0 && MatchEnd(t, next.value.0) == Some(next.value.1)
    decreases |t| - q
  {
    if MatchEnd(t, q).Some? then Some((q, MatchEnd(t, q).value))
    else if q == |t| then None
    else NextField(t, q + 1)
  }

  /** The split: text between fields at even places, the fields themselves at odd ones. */
  function Split(t: Text, p: nat): seq<Text>
    requires p <= |t|
    decreases |t| - p
  {
    match NextField(t, p)
    case None => [t[p..]]
    case Some((q, e)) => [t[p..q], t[q..e]] + Split(t, e)
  }

  /** Where the chips of a split stand. */
  function Spans(t: Text, p: nat): seq<(nat, nat)>
    requires p <= |t|
    decreases |t| - p
  {
    match NextField(t, p)
    case None => []
    case Some((q, e)) => [(q, e)] + Spans(t, e)
  }

  // ----- Matching is being a field -----

  /** Braces around a body of other characters that are not all spaces. */
  predicate BracedAt(t: Text, q: nat, e: nat) {
    InBraces(t, q, e) && NoBraces(t, q + 2, e - 2) && !Spaces(t, q + 2, e - 2)
  }

  lemma {:induction false} FirstVisible(t: Text, i: nat, end: nat) returns (k: nat)
    requires end <= |t| && !Spaces(t, i, end)
    ensures i <= k < end && Spaces(t, i, k) && !IsSpace(t[k])
    decreases end - i
  {
    k := i;
    if IsSpace(t[i]) {
      k := FirstVisible(t, i + 1, end);
    }
  }

  lemma FieldIsBraced(t: Text, q: nat, e: nat)
    ensures FieldAt(t, q, e) <==> BracedAt(t, q, e)
  {
    if BracedAt(t, q, e) {
      var k := FirstVisible(t, q + 2, e - 2);
      assert IsCut(t, q, e, k, e - 2);
    }
  }

  /** The scan finds exactly the pattern's matches: it says that a match at `q` ends at `e` when, and only when, that is a field. */
  lemma MatchEndIsTheField(t: Text, q: nat, e: nat)
    ensures MatchEnd(t, q) == Some(e) <==> FieldAt(t, q, e)
  {
    FieldIsBraced(t, q, e);
    if BracedAt(t, q, e) {
      var stop := RunEnd(t, q + 2);
      assert stop == e - 2;
    }
  }

  /** No two fields of a text overlap. */
  lemma FieldsNeverOverlap(t: Text, q: nat, e: nat, r: nat, f: nat)
    requires FieldAt(t, q, e) && FieldAt(t, r, f)
    ensures (q == r && e == f) || e <= r || f <= q
  {
    FieldIsBraced(t, q, e);
    FieldIsBraced(t, r, f);
    MatchEndIsTheField(t, q, e);
    MatchEndIsTheField(t, r, f);
  }

  /** Being a field depends on the characters alone, not on the text around them. */
  lemma FieldInPart(t: Text, a: nat, b: nat, q: nat, e: nat)
    requires a <= b <= |t| && e <= b - a
    ensures FieldAt(t[a..b], q, e) <==> FieldAt(t, a + q, a + e)
  {
    var s := t[a..b];
    FieldIsBraced(s, q, e);
    FieldIsBraced(t, a + q, a + e);
    assert forall k :: 0 <= k < |s| ==> s[k] == t[a + k];
    if BracedAt(s, q, e) {
      assert forall k :: a + q + 2 <= k < a + e - 2 ==> t[k] == s[k - a];
    }
  }

  // ----- The split -----

  function Concatenated(parts: seq<Text>): Text {
    if parts == [] then [] else parts[0] + Concatenated(parts[1..])
  }

  lemma ConcatenatedThree(a: Text, b: Text, rest: seq<Text>)
    ensures Concatenated([a, b] + rest) == a + b + Concatenated(rest)
  {
    var parts := [a, b] + rest;
    assert parts[1..] == [b] + rest && parts[1..][1..] == rest;
  }

  /** Nothing of the text is lost or added. */
  lemma {:induction false} SplitLosesNothing(t: Text, p: nat)
    requires p <= |t|
    ensures Concatenated(Split(t, p)) == t[p..]
    decreases |t| - p
  {
    match NextField(t, p) {
      case None =>
        assert Concatenated([t[p..]]) == t[p..] + Concatenated([]);
      case Some((q, e)) =>
        SplitLosesNothing(t, e);
        PiecesJoin(t, p, q, e, Split(t, e));
    }
  }

  lemma PiecesJoin(t: Text, p: nat, q: nat, e: nat, rest: seq<Text>)
    requires p <= q <= e <= |t| && Concatenated(rest) == t[e..]
    ensures Concatenated([t[p..q], t[q..e]] + rest) == t[p..]
  {
    ConcatenatedThree(t[p..q], t[q..e], rest);
    assert t[p..] == t[p..q] + t[q..e] + t[e..];
  }

  lemma {:induction false} NothingIsSkipped(t: Text, p: nat, r: nat, f: nat)
    requires p <= r && FieldAt(t, r, f)
    ensures r <= |t| && NextField(t, p).Some? && NextField(t, p).value.0 <= r
    decreases r - p
  {
    MatchEndIsTheField(t, r, f);
    if p < r && MatchEnd(t, p).None? {
      NothingIsSkipped(t, p + 1, r, f);
    }
  }

  lemma {:induction false} SpansFollow(t: Text, p: nat)
    requires p <= |t|
    ensures forall k :: 0 <= k < |Spans(t, p)| ==> p <= Spans(t, p)[k].0 < Spans(t, p)[k].1 <= |t|
    ensures forall k, l :: 0 <= k < l < |Spans(t, p)| ==> Spans(t, p)[k].1 <= Spans(t, p)[l].0
    decreases |t| - p
  {
    match NextField(t, p) {
      case None =>
      case Some((q, e)) =>
        SpansFollow(t, e);
    }
  }

  /**
   The chips are all the fields: what stands between `r` and `f` is a chip of the split exactly when
   it is a field. The scan from the left misses none, because no two overlap.
   */
  lemma {:induction false} ChipsAreTheFields(t: Text, p: nat, r: nat, f: nat)
    requires p <= |t| && p <= r
    ensures (r, f) in Spans(t, p) <==> FieldAt(t, r, f)
    decreases |t| - p
  {
    if FieldAt(t, r, f) {
      NothingIsSkipped(t, p, r, f);
    }
    match NextField(t, p) {
      case None =>
      case Some((q, e)) =>
        MatchEndIsTheField(t, q, e);
        if FieldAt(t, r, f) {
          FieldsNeverOverlap(t, q, e, r, f);
        }
        SpansFollow(t, e);
        if e <= r {
          ChipsAreTheFields(t, e, r, f);
        }
    }
  }

  ghost predicate HoldsNoField(part: Text) {
    forall r: nat, f: nat :: f <= |part| ==> !FieldAt(part, r, f)
  }

  lemma LiteralHoldsNoField(t: Text, p: nat, q: nat)
    requires p <= q <= |t|
    requires NextField(t, p).None? || q <= NextField(t, p).value.0
    ensures HoldsNoField(t[p..q])
  {
    forall r: nat, f: nat | f <= q - p ensures !FieldAt(t[p..q], r, f) {
      FieldInPart(t, p, q, r, f);
      if FieldAt(t, p + r, p + f) {
        NothingIsSkipped(t, p, p + r, p + f);
      }
    }
  }

  ghost predicate Alternates(parts: seq<Text>) {
    forall k :: 0 <= k < |parts| ==> if k % 2 == 1 then IsField(parts[k]) else HoldsNoField(parts[k])
  }

  lemma AlternatesOn(literal: Text, field: Text, rest: seq<Text>)
    requires HoldsNoField(literal) && IsField(field) && Alternates(rest)
    ensures Alternates([literal, field] + rest)
  {
    var parts := [literal, field] + rest;
    forall k | 0 <= k < |parts| ensures if k % 2 == 1 then IsField(parts[k]) else HoldsNoField(parts[k]) {
      if k >= 2 {
        assert parts[k] == rest[k - 2];
      }
    }
  }

  lemma FirstPartsAreRight(t: Text, p: nat, q: nat, e: nat)
    requires p <= |t| && NextField(t, p) == Some((q, e))
    ensures HoldsNoField(t[p..q]) && IsField(t[q..e])
  {
    MatchEndIsTheField(t, q, e);
    FieldInPart(t, q, e, 0, e - q);
    LiteralHoldsNoField(t, p, q);
  }

  /** Every odd part is a field, and no even part holds one. */
  lemma {:induction false} PartsAlternate(t: Text, p: nat)
    requires p <= |t|
    ensures Alternates(Split(t, p)) && |Split(t, p)| == 2 * |Spans(t, p)| + 1
    decreases |t| - p
  {
    match NextField(t, p) {
      case None =>
        LiteralHoldsNoField(t, p, |t|);
        assert t[p..|t|] == t[p..];
      case Some((q, e)) =>
        PartsAlternate(t, e);
        FirstPartsAreRight(t, p, q, e);
        AlternatesOn(t[p..q], t[q..e], Split(t, e));
    }
  }

  lemma BehindTheFirst<T>(a: T, b: seq<T>, rest: seq<T>)
    ensures ([a] + b + rest)[1..] == b + rest && ([a] + rest)[1..] == rest
  {
  }

  lemma SplitGoesOn(t: Text, p: nat, q: nat, e: nat)
    requires p <= |t| && NextField(t, p) == Some((q, e))
    ensures Split(t, p)[1..] == [t[q..e]] + Split(t, e)
  {
    SecondIsNext(t[p..q], t[q..e], Split(t, e));
  }

  lemma SecondIsNext<T>(a: T, b: T, rest: seq<T>)
    ensures ([a, b] + rest)[1..] == [b] + rest
  {
  }

  lemma SpansGoOn(t: Text, p: nat, q: nat, e: nat)
    requires p <= |t| && NextField(t, p) == Some((q, e))
    ensures Spans(t, p)[0] == (q, e) && Spans(t, p)[1..] == Spans(t, e)
  {
    BehindTheFirst((q, e), [], Spans(t, e));
  }

  /** The parts behind the first are, in turn, what stands at each span and some text in between. */
  ghost predicate StandsAt(parts: seq<Text>, t: Text, spans: seq<(nat, nat)>)
    decreases |spans|
  {
    if spans == [] then |parts| == 1
    else
      && |parts| > 2 && spans[0].0 <= spans[0].1 <= |t| && parts[1] == t[spans[0].0..spans[0].1]
      && StandsAt(parts[2..], t, spans[1..])
  }

  /** The odd parts are what stands at the spans, one for one and in order. */
  lemma {:induction false} ChipsStandAtTheSpans(t: Text, p: nat)
    requires p <= |t|
    ensures StandsAt(Split(t, p), t, Spans(t, p))
    decreases |t| - p
  {
    match NextField(t, p) {
      case None =>
      case Some((q, e)) =>
        ChipsStandAtTheSpans(t, e);
        SplitGoesOn(t, p, q, e);
        SpansGoOn(t, p, q, e);
        var parts := Split(t, p);
        assert parts[2..] == parts[1..][1..] == Split(t, e);
    }
  }

  // ----- The name on a chip -----

  function SkipSpaces(t: Text, i: nat, end: nat): (k: nat)
    requires i <= end <= |t|
    ensures i <= k <= end && Spaces(t, i, k) && (k < end ==> !IsSpace(t[k]))
    decreases end - i
  {
    if i == end || !IsSpace(t[i]) then i else SkipSpaces(t, i + 1, end)
  }

  function DropSpaces(t: Text, start: nat, j: nat): (k: nat)
    requires start <= j <= |t|
    ensures start <= k <= j && Spaces(t, k, j) && (k > start ==> !IsSpace(t[k - 1]))
    decreases j
  {
    if j == start || !IsSpace(t[j - 1]) then j else DropSpaces(t, start, j - 1)
  }

  /** What the name pattern captures of a part: its body without the spaces at either end. */
  function NameOf(part: Text): Option<Text> {
    if !BracedAt(part, 0, |part|) then None
    else
      var i, j := SkipSpaces(part, 2, |part| - 2), DropSpaces(part, 2, |part| - 2);
      if i < j then Some(part[i..j]) else None
  }

  /** The cut a lazy pattern takes: the name ends as soon as it may. */
  ghost predicate IsLazyCut(part: Text, i: nat, j: nat) {
    IsCut(part, 0, |part|, i, j) && forall k: nat :: i < k < j ==> !IsCut(part, 0, |part|, i, k)
  }

  lemma NameBounds(part: Text) returns (i: nat, j: nat)
    requires BracedAt(part, 0, |part|)
    ensures IsCut(part, 0, |part|, i, j) && !IsSpace(part[j - 1]) && NameOf(part) == Some(part[i..j])
  {
    i, j := SkipSpaces(part, 2, |part| - 2), DropSpaces(part, 2, |part| - 2);
    var v := FirstVisible(part, 2, |part| - 2);
    assert i <= v < j;
  }

  /** A part has a name exactly when it is a field, and the name is what the lazy pattern captures. */
  lemma NameIsTheCapture(part: Text)
    ensures NameOf(part).Some? <==> IsField(part)
    ensures forall i: nat, j: nat :: IsLazyCut(part, i, j) ==> NameOf(part) == Some(part[i..j])
  {
    FieldIsBraced(part, 0, |part|);
    if IsField(part) {
      var a, b := NameBounds(part);
      forall i: nat, j: nat | IsLazyCut(part, i, j) ensures i == a && j == b {
      }
    }
  }

  // ----- What is shown -----

  datatype Shown = Chip(name: Text) | Literal(text: Text)

  function ShownPart(part: Text): Shown {
    if NameOf(part).Some? then Chip(NameOf(part).value) else Literal(part)
  }

  function Rendered(t: Text): seq<Shown> {
    var parts := Split(t, 0);
    seq(|parts|, k requires 0 <= k < |parts| => ShownPart(parts[k]))
  }

  ghost predicate IsTrimmed(name: Text) {
    name != [] && !IsSpace(name[0]) && !IsSpace(name[|name| - 1]) && NoBraces(name, 0, |name|)
  }

  const OPENING: Text := [OPEN_BRACE, OPEN_BRACE]
  const CLOSING: Text := [CLOSE_BRACE, CLOSE_BRACE]

  lemma SpacesInSlice(t: Text, a: nat, b: nat)
    requires a <= b <= |t| && Spaces(t, a, b)
    ensures Spaces(t[a..b], 0, b - a)
  {
  }

  lemma CutIsTrimmed(part: Text, i: nat, j: nat)
    requires IsCut(part, 0, |part|, i, j) && !IsSpace(part[j - 1])
    ensures IsTrimmed(part[i..j])
  {
    var name := part[i..j];
    forall k | 0 <= k < |name| ensures !IsBrace(name[k]) {
      assert name[k] == part[i + k];
    }
  }

  /** A chip drops only braces and spaces: its field is two braces, spaces, a trimmed name, spaces, two braces. */
  lemma ChipNamesAreTrimmed(part: Text) returns (before: Text, after: Text)
    requires IsField(part)
    ensures NameOf(part).Some? && IsTrimmed(NameOf(part).value)
    ensures Spaces(before, 0, |before|) && Spaces(after, 0, |after|)
    ensures part == OPENING + before + NameOf(part).value + after + CLOSING
  {
    FieldIsBraced(part, 0, |part|);
    var i, j := NameBounds(part);
    before, after := part[2..i], part[j..|part| - 2];
    SpacesInSlice(part, 2, i);
    SpacesInSlice(part, j, |part| - 2);
    CutIsTrimmed(part, i, j);
    InFive(part, i, j);
  }

  lemma InFive(part: Text, i: nat, j: nat)
    requires InBraces(part, 0, |part|) && 2 <= i <= j <= |part| - 2
    ensures part == OPENING + part[2..i] + part[i..j] + part[j..|part| - 2] + CLOSING
  {
    assert part[..2] == OPENING && part[|part| - 2..] == CLOSING;
    assert part == part[..2] + part[2..i] + part[i..j] + part[j..|part| - 2] + part[|part| - 2..];
  }

  lemma NamesAreOdd(parts: seq<Text>)
    requires Alternates(parts)
    ensures forall k :: 0 <= k < |parts| ==> (NameOf(parts[k]).Some? <==> k % 2 == 1)
  {
    forall k | 0 <= k < |parts| ensures NameOf(parts[k]).Some? <==> k % 2 == 1 {
      NameIsTheCapture(parts[k]);
    }
  }

  /** The reader sees the whole text, with a chip in the place of each field and nowhere else. */
  lemma TextIsShownFaithfully(t: Text)
    ensures Concatenated(Split(t, 0)) == t && |Rendered(t)| == |Split(t, 0)|
    ensures forall k :: 0 <= k < |Rendered(t)| ==> (Rendered(t)[k].Chip? <==> k % 2 == 1)
    ensures forall k :: 0 <= k < |Rendered(t)| && k % 2 == 0 ==> Rendered(t)[k] == Literal(Split(t, 0)[k])
  {
    SplitLosesNothing(t, 0);
    PartsAlternate(t, 0);
    NamesAreOdd(Split(t, 0));
  }
}
