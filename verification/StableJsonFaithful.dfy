/** The stable text is read back as the value it was written from, and is the same text exactly for values that are the same. */
module StableJsonFaithful {
  import opened Options
  import opened CodeUnits
  import opened StableJson

  // ----- The value that a text stands for -----

  /** Undefined read as null, undefined members gone, members in key order. */
  function Canonical(v: Json): Json
    decreases Size(v), 0
  {
    match v
    case Undefined => Null
    case Arr(items) => Arr(CanonicalItems(items))
    case Obj(members) => Obj(CanonicalMembers(Entries(members)))
    case _ => v
  }

  function CanonicalItems(items: seq<Json>): (r: seq<Json>)
    ensures |r| == |items|
    decreases ItemsSize(items), 1
  {
    if items == [] then [] else [Canonical(items[0])] + CanonicalItems(items[1..])
  }

  function CanonicalMembers(entries: seq<Member>): (r: seq<Member>)
    ensures |r| == |entries|
    decreases MembersSize(entries), 1
  {
    if entries == [] then []
    else [Member(entries[0].key, Canonical(entries[0].value))] + CanonicalMembers(entries[1..])
  }

  // ----- Reading back what was written -----

  lemma HexPlaces(u: CodeUnit)
    ensures u / 4096 < 16
    ensures 4096 * (u / 4096) + 256 * (u / 256 % 16) + 16 * (u / 16 % 16) + u % 16 == u
  {
    assert u / 256 == 16 * (u / 4096) + u / 256 % 16;
    assert u / 16 == 16 * (u / 256) + u / 16 % 16;
    assert u == 16 * (u / 16) + u % 16;
  }

  lemma Hex4IsRead(u: CodeUnit, rest: Text)
    ensures ReadHex4(Hex4(u) + rest) == Some(u)
  {
    HexPlaces(u);
    var a, b, c, d := u / 4096, u / 256 % 16, u / 16 % 16, u % 16;
    HexDigitHasValue(a);
    HexDigitHasValue(b);
    HexDigitHasValue(c);
    HexDigitHasValue(d);
    assert Hex4(u) == [HexDigit(a), HexDigit(b), HexDigit(c), HexDigit(d)];
  }

  lemma EscapedUnitIsRead(escaped: Text, u: CodeUnit, more: Text)
    requires escaped == LongEscape(u) || (ShortEscape(u).Some? && escaped == [BACKSLASH, ShortEscape(u).value])
    ensures ReadString(escaped + more) == Prepend(u, ReadString(more))
  {
    if escaped == LongEscape(u) {
      Hex4IsRead(u, more);
      assert (escaped + more)[2..] == Hex4(u) + more;
      assert (escaped + more)[6..] == more;
    } else {
      assert (escaped + more)[2..] == more;
    }
  }

  lemma PlainUnitIsRead(u: CodeUnit, more: Text)
    requires u >= 32 && u != DOUBLE_QUOTE && u != BACKSLASH
    ensures ReadString([u] + more) == Prepend(u, ReadString(more))
  {
    assert ([u] + more)[1..] == more;
  }

  function PrependAll(units: Text, r: Option<(Text, Text)>): Option<(Text, Text)> {
    if r.None? then None else Some((units + r.value.0, r.value.1))
  }

  lemma PairIsRead(high: CodeUnit, low: CodeUnit, more: Text)
    requires IsHigh(high) && IsLow(low)
    ensures ReadString([high, low] + more) == PrependAll([high, low], ReadString(more))
  {
    PlainUnitIsRead(low, more);
    PlainUnitIsRead(high, [low] + more);
    assert [high, low] + more == [high] + ([low] + more);
    PrependedTwice(high, low, ReadString(more));
  }

  lemma PrependedTwice(high: CodeUnit, low: CodeUnit, r: Option<(Text, Text)>)
    ensures Prepend(high, Prepend(low, r)) == PrependAll([high, low], r)
  {
    if r.Some? {
      assert [high, low] + r.value.0 == [high] + ([low] + r.value.0);
    }
  }

  lemma FirstCharacterIsRead(s: Text, more: Text)
    requires s != []
    ensures ReadString(EscapeFirst(s) + more) == PrependAll(s[..FirstUnits(s)], ReadString(more))
  {
    if FirstUnits(s) == 2 {
      PairIsRead(s[0], s[1], more);
      assert s[..2] == [s[0], s[1]];
    } else {
      assert s[..1] == [s[0]];
      if EscapeFirst(s) == s[..1] {
        PlainUnitIsRead(s[0], more);
      } else {
        EscapedUnitIsRead(EscapeFirst(s), s[0], more);
      }
    }
  }

  lemma Regroup(a: Text, b: Text, c: Text)
    ensures (a + b) + c == a + (b + c)
  {
  }

  lemma {:induction false} StringIsRead(s: Text, rest: Text)
    ensures ReadString(Escape(s) + ([DOUBLE_QUOTE] + rest)) == Some((s, rest))
    decreases |s|
  {
    var end := [DOUBLE_QUOTE] + rest;
    if s == [] {
      assert end[1..] == rest;
      assert Escape(s) + end == end;
    } else {
      var later := s[FirstUnits(s)..];
      StringIsRead(later, rest);
      FirstCharacterIsRead(s, Escape(later) + end);
      Regroup(EscapeFirst(s), Escape(later), end);
      assert s == s[..FirstUnits(s)] + later;
    }
  }

  /** What follows a value: nothing, or a unit that no number contains. */
  predicate Delimits(rest: Text) {
    rest == [] || !IsNumberUnit(rest[0])
  }

  lemma {:induction false} NumberIsRead(t: Text, rest: Text)
    requires (forall i :: 0 <= i < |t| ==> IsNumberUnit(t[i])) && Delimits(rest)
    ensures NumberLength(t + rest) == |t|
  {
    if t == [] {
      assert t + rest == rest;
    } else {
      assert (t + rest)[1..] == t[1..] + rest;
      NumberIsRead(t[1..], rest);
    }
  }

  lemma TextBegins(v: Json)
    ensures Stringify(v) != [] && Stringify(v)[0] != CLOSE_BRACKET && Stringify(v)[0] != CLOSE_BRACE
  {
  }

  lemma LiteralIsRead(v: Json, rest: Text)
    requires v.Null? || v.Undefined? || v.Bool?
    ensures ReadValue(Stringify(v) + rest) == Some((Canonical(v), rest))
  {
    var t := Stringify(v) + rest;
    assert t[..|Stringify(v)|] == Stringify(v) && t[|Stringify(v)|..] == rest;
    assert t[0] == Stringify(v)[0];
  }

  // One step of each reader, on a text whose first part has been read already.

  lemma StringValueStep(t: Text, units: Text, rest: Text)
    requires t != [] && t[0] == DOUBLE_QUOTE && ReadString(t[1..]) == Some((units, rest))
    ensures ReadValue(t) == Some((Str(units), rest))
  {
    assert t[0] == 34 && !IsDigit(t[0]);
  }

  lemma ArrayStep(t: Text, items: seq<Json>, rest: Text)
    requires |t| > 1 && t[0] == OPEN_BRACKET && t[1] != CLOSE_BRACKET && ReadItems(t[1..]) == Some((items, rest))
    ensures ReadValue(t) == Some((Arr(items), rest))
  {
  }

  lemma ObjectStep(t: Text, members: seq<Member>, rest: Text)
    requires |t| > 1 && t[0] == OPEN_BRACE && t[1] != CLOSE_BRACE && ReadMembers(t[1..]) == Some((members, rest))
    ensures ReadValue(t) == Some((Obj(members), rest))
  {
  }

  lemma LastItemStep(t: Text, v: Json, end: Text)
    requires ReadValue(t) == Some((v, end)) && end != [] && end[0] == CLOSE_BRACKET
    ensures ReadItems(t) == Some(([v], end[1..]))
  {
  }

  lemma MoreItemsStep(t: Text, v: Json, after: Text, items: seq<Json>, rest: Text)
    requires ReadValue(t) == Some((v, after)) && after != [] && after[0] == COMMA && ReadItems(after[1..]) == Some((items, rest))
    ensures ReadItems(t) == Some(([v] + items, rest))
  {
  }

  lemma MemberStep(t: Text, key: Text, after: Text, v: Json, rest: Text)
    requires t != [] && t[0] == DOUBLE_QUOTE && ReadString(t[1..]) == Some((key, after))
    requires after != [] && after[0] == COLON && ReadValue(after[1..]) == Some((v, rest))
    ensures ReadMember(t) == Some((Member(key, v), rest))
  {
  }

  lemma LastMemberStep(t: Text, m: Member, end: Text)
    requires ReadMember(t) == Some((m, end)) && end != [] && end[0] == CLOSE_BRACE
    ensures ReadMembers(t) == Some(([m], end[1..]))
  {
  }

  lemma MoreMembersStep(t: Text, m: Member, after: Text, members: seq<Member>, rest: Text)
    requires ReadMember(t) == Some((m, after)) && after != [] && after[0] == COMMA
    requires ReadMembers(after[1..]) == Some((members, rest))
    ensures ReadMembers(t) == Some(([m] + members, rest))
  {
  }

  lemma QuoteSplit(units: Text, rest: Text)
    ensures var t := Quote(units) + rest; t[0] == DOUBLE_QUOTE && t[1..] == Escape(units) + ([DOUBLE_QUOTE] + rest)
  {
  }

  lemma StringValueIsRead(units: Text, rest: Text)
    ensures ReadValue(Quote(units) + rest) == Some((Str(units), rest))
  {
    QuoteSplit(units, rest);
    StringIsRead(units, rest);
    StringValueStep(Quote(units) + rest, units, rest);
  }

  lemma NumberValueIsRead(text: NumberText, rest: Text)
    requires Delimits(rest)
    ensures ReadValue(text + rest) == Some((Num(text), rest))
  {
    var t := text + rest;
    NumberIsRead(text, rest);
    assert t[0] == text[0] && t[..|text|] == text && t[|text|..] == rest;
  }

  lemma EmptyIsRead(v: Json, rest: Text)
    requires v == Arr([]) || v == Obj([])
    ensures ReadValue(Stringify(v) + rest) == Some((v, rest))
  {
    var t := Stringify(v) + rest;
    assert |t| > 1 && t[2..] == rest;
  }

  lemma {:induction false} ValueIsRead(v: Json, rest: Text)
    requires Delimits(rest)
    ensures ReadValue(Stringify(v) + rest) == Some((Canonical(v), rest))
    decreases Size(v), 0
  {
    match v
    case Str(units) => StringValueIsRead(units, rest);
    case Num(text) => NumberValueIsRead(text, rest);
    case Arr(items) => ArrayIsRead(items, rest);
    case Obj(members) => ObjectIsRead(members, rest);
    case _ => LiteralIsRead(v, rest);
  }

  lemma {:induction false} ArrayIsRead(items: seq<Json>, rest: Text)
    ensures ReadValue(Stringify(Arr(items)) + rest) == Some((Canonical(Arr(items)), rest))
    decreases ItemsSize(items), 2
  {
    if items == [] {
      EmptyIsRead(Arr([]), rest);
    } else {
      var t := Stringify(Arr(items)) + rest;
      ItemsAreRead(items, rest);
      ItemsTextBegins(items);
      assert t[1..] == ItemsText(items) + ([CLOSE_BRACKET] + rest);
      assert t[1] == ItemsText(items)[0];
      ArrayStep(t, CanonicalItems(items), rest);
    }
  }

  lemma ItemsTextBegins(items: seq<Json>)
    requires items != []
    ensures ItemsText(items) != [] && ItemsText(items)[0] != CLOSE_BRACKET
  {
    TextBegins(items[0]);
  }

  lemma FollowedBy(u: CodeUnit, tail: Text)
    ensures ([u] + tail)[0] == u && ([u] + tail)[1..] == tail
    ensures !IsNumberUnit(u) ==> Delimits([u] + tail)
  {
  }

  lemma RegroupFour(a: Text, b: Text, c: Text, d: Text)
    ensures (a + b + c) + d == a + (b + (c + d))
  {
  }

  lemma ItemsSplit(items: seq<Json>, end: Text)
    requires |items| > 1
    ensures ItemsText(items) + end == Stringify(items[0]) + ([COMMA] + (ItemsText(items[1..]) + end))
  {
    RegroupFour(Stringify(items[0]), [COMMA], ItemsText(items[1..]), end);
  }

  lemma OneItem(v: Json)
    ensures ItemsText([v]) == Stringify(v) && CanonicalItems([v]) == [Canonical(v)]
  {
  }

  lemma {:induction false} ItemsAreRead(items: seq<Json>, rest: Text)
    requires items != []
    ensures ReadItems(ItemsText(items) + ([CLOSE_BRACKET] + rest)) == Some((CanonicalItems(items), rest))
    decreases ItemsSize(items), 1
  {
    var end := [CLOSE_BRACKET] + rest;
    FollowedBy(CLOSE_BRACKET, rest);
    if |items| == 1 {
      ValueIsRead(items[0], end);
      LastItemStep(Stringify(items[0]) + end, Canonical(items[0]), end);
      OneItem(items[0]);
      assert items == [items[0]];
    } else {
      var tail := ItemsText(items[1..]) + end;
      ItemsSplit(items, end);
      FollowedBy(COMMA, tail);
      ItemsAreRead(items[1..], rest);
      ValueIsRead(items[0], [COMMA] + tail);
      MoreItemsStep(Stringify(items[0]) + ([COMMA] + tail), Canonical(items[0]), [COMMA] + tail, CanonicalItems(items[1..]), rest);
    }
  }

  lemma {:induction false} ObjectIsRead(members: seq<Member>, rest: Text)
    ensures ReadValue(Stringify(Obj(members)) + rest) == Some((Canonical(Obj(members)), rest))
    decreases MembersSize(members), 3
  {
    var entries := Entries(members);
    if entries == [] {
      EmptyIsRead(Obj([]), rest);
    } else {
      var t := Stringify(Obj(members)) + rest;
      EntriesAreRead(entries, rest);
      EntriesTextBegins(entries);
      assert t[1..] == EntriesText(entries) + ([CLOSE_BRACE] + rest);
      assert t[1] == EntriesText(entries)[0];
      ObjectStep(t, CanonicalMembers(entries), rest);
    }
  }

  lemma EntriesTextBegins(entries: seq<Member>)
    requires entries != []
    ensures EntriesText(entries) != [] && EntriesText(entries)[0] == DOUBLE_QUOTE
  {
  }

  lemma EntrySplit(m: Member, rest: Text)
    ensures var t := EntryText(m) + rest;
      t[0] == DOUBLE_QUOTE && t[1..] == Escape(m.key) + ([DOUBLE_QUOTE] + ([COLON] + (Stringify(m.value) + rest)))
  {
  }

  lemma {:induction false} EntryIsRead(m: Member, rest: Text)
    requires Delimits(rest)
    ensures ReadMember(EntryText(m) + rest) == Some((Member(m.key, Canonical(m.value)), rest))
    decreases Size(m.value), 1
  {
    var value := Stringify(m.value) + rest;
    ValueIsRead(m.value, rest);
    StringIsRead(m.key, [COLON] + value);
    EntrySplit(m, rest);
    FollowedBy(COLON, value);
    MemberStep(EntryText(m) + rest, m.key, [COLON] + value, Canonical(m.value), rest);
  }

  lemma EntriesSplit(entries: seq<Member>, end: Text)
    requires |entries| > 1
    ensures EntriesText(entries) + end == EntryText(entries[0]) + ([COMMA] + (EntriesText(entries[1..]) + end))
  {
    RegroupFour(EntryText(entries[0]), [COMMA], EntriesText(entries[1..]), end);
  }

  lemma OneEntry(m: Member)
    ensures EntriesText([m]) == EntryText(m) && CanonicalMembers([m]) == [Member(m.key, Canonical(m.value))]
  {
  }

  lemma {:induction false} EntriesAreRead(entries: seq<Member>, rest: Text)
    requires entries != []
    ensures ReadMembers(EntriesText(entries) + ([CLOSE_BRACE] + rest)) == Some((CanonicalMembers(entries), rest))
    decreases MembersSize(entries), 2
  {
    var end := [CLOSE_BRACE] + rest;
    var first := Member(entries[0].key, Canonical(entries[0].value));
    FollowedBy(CLOSE_BRACE, rest);
    if |entries| == 1 {
      EntryIsRead(entries[0], end);
      LastMemberStep(EntryText(entries[0]) + end, first, end);
      OneEntry(entries[0]);
      assert entries == [entries[0]];
    } else {
      var tail := EntriesText(entries[1..]) + end;
      EntriesSplit(entries, end);
      FollowedBy(COMMA, tail);
      EntriesAreRead(entries[1..], rest);
      EntryIsRead(entries[0], [COMMA] + tail);
      MoreMembersStep(EntryText(entries[0]) + ([COMMA] + tail), first, [COMMA] + tail, CanonicalMembers(entries[1..]), rest);
    }
  }

  /** The whole text is one value, and it is the value that was written, in canonical form. */
  lemma StringifyIsReadBack(v: Json)
    ensures ReadValue(Stringify(v)) == Some((Canonical(v), []))
  {
    ValueIsRead(v, []);
    assert Stringify(v) + [] == Stringify(v);
  }

  // ----- As the language prints -----

  /** The escape of a control character or a surrogate: its four hexadecimal digits, in lower case. */
  predicate IsUnicodeEscape(t: Text, u: CodeUnit) {
    && |t| == 6 && t[0] == 0x5c && t[1] == 0x75
    && (forall i :: 2 <= i < 6 ==> 0x30 <= t[i] <= 0x39 || 0x61 <= t[i] <= 0x66)
    && HexValue(t[2]) * 4096 + HexValue(t[3]) * 256 + HexValue(t[4]) * 16 + HexValue(t[5]) == u
  }

  predicate IsSurrogate(u: CodeUnit) {
    0xd800 <= u <= 0xdfff
  }

  predicate StartsWithPair(s: Text) {
    |s| > 1 && 0xd800 <= s[0] <= 0xdbff && 0xdc00 <= s[1] <= 0xdfff
  }

  lemma FourDigits(u: CodeUnit, a: nat, b: nat, c: nat, d: nat)
    requires a < 16 && b < 16 && c < 16 && d < 16 && u == a * 4096 + b * 256 + c * 16 + d
    ensures IsUnicodeEscape([BACKSLASH, 117] + [HexDigit(a), HexDigit(b), HexDigit(c), HexDigit(d)], u)
  {
    HexDigitHasValue(a);
    HexDigitHasValue(b);
    HexDigitHasValue(c);
    HexDigitHasValue(d);
  }

  lemma EscapeByNumber(u: CodeUnit)
    ensures IsUnicodeEscape(LongEscape(u), u)
  {
    HexPlaces(u);
    FourDigits(u, u / 4096, u / 256 % 16, u / 16 % 16, u % 16);
  }

  /** Quoting (ECMA-262, section 25.5.2.3): seven characters have short escapes. */
  lemma ShortEscapesAre(s: Text)
    requires s != []
    ensures s[0] == 0x08 ==> EscapeFirst(s) == [0x5c, 0x62]
    ensures s[0] == 0x09 ==> EscapeFirst(s) == [0x5c, 0x74]
    ensures s[0] == 0x0a ==> EscapeFirst(s) == [0x5c, 0x6e]
    ensures s[0] == 0x0c ==> EscapeFirst(s) == [0x5c, 0x66]
    ensures s[0] == 0x0d ==> EscapeFirst(s) == [0x5c, 0x72]
    ensures s[0] == 0x22 ==> EscapeFirst(s) == [0x5c, 0x22]
    ensures s[0] == 0x5c ==> EscapeFirst(s) == [0x5c, 0x5c]
  {
  }

  /** Other control characters, and surrogates that stand alone, are escaped by their number. */
  lemma OthersAreEscapedByNumber(s: Text)
    requires s != []
    requires (s[0] < 0x20 && s[0] !in {0x08, 0x09, 0x0a, 0x0c, 0x0d}) || (IsSurrogate(s[0]) && !StartsWithPair(s))
    ensures IsUnicodeEscape(EscapeFirst(s), s[0]) && FirstUnits(s) == 1
  {
    EscapeByNumber(s[0]);
  }

  /** All others stay as they are, pairs of surrogates whole. */
  lemma OthersStay(s: Text)
    requires s != []
    ensures StartsWithPair(s) ==> FirstUnits(s) == 2 && EscapeFirst(s) == s[..2]
    ensures s[0] >= 0x20 && !IsSurrogate(s[0]) && s[0] != 0x22 && s[0] != 0x5c ==> FirstUnits(s) == 1 && EscapeFirst(s) == [s[0]]
  {
  }

  /** The names of literals and the marks of structure, character by character. */
  lemma LiteralsAre()
    ensures Stringify(Null) == Stringify(Undefined) == [0x6e, 0x75, 0x6c, 0x6c]
    ensures Stringify(Bool(true)) == [0x74, 0x72, 0x75, 0x65] && Stringify(Bool(false)) == [0x66, 0x61, 0x6c, 0x73, 0x65]
    ensures Stringify(Str([])) == [0x22, 0x22] && Stringify(Arr([])) == [0x5b, 0x5d] && Stringify(Obj([])) == [0x7b, 0x7d]
    ensures ItemsText([Str([]), Str([])]) == [0x22, 0x22, 0x2c, 0x22, 0x22]
    ensures EntryText(Member([], Str([]))) == [0x22, 0x22, 0x3a, 0x22, 0x22]
  {
    assert [Str([]), Str([])][1..] == [Str([])];
  }
}
