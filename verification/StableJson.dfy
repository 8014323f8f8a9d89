/**
 JSON-like values written with object keys sorted and undefined members dropped
 (src/components/JumpWorkflow.tsx, stableStringify), and a reader for the text.
 */
module StableJson {
  import opened Options
  import opened CodeUnits

  /** The text of a finite number: it begins with a sign or a digit and holds nothing a delimiter could be. */
  predicate IsNumberUnit(u: CodeUnit) {
    IsDigit(u) || u == 43 || u == 45 || u == 46 || u == 101
  }

  predicate IsNumberText(t: Text) {
    t != [] && (IsDigit(t[0]) || t[0] == 45) && forall i :: 0 <= i < |t| ==> IsNumberUnit(t[i])
  }

  type NumberText = t: Text | IsNumberText(t) witness [48]

  /** Members are in insertion order. A finite number is named by the text the language prints for it. */
  datatype Json =
    | Null
    | Undefined
    | Bool(value: bool)
    | Num(text: NumberText)
    | Str(units: Text)
    | Arr(items: seq<Json>)
    | Obj(members: seq<Member>)

  datatype Member = Member(key: Text, value: Json)

  // ----- Sizes, for termination -----

  function Size(v: Json): (n: nat)
    ensures n > 0
  {
    match v
    case Arr(items) => 1 + ItemsSize(items)
    case Obj(members) => 1 + MembersSize(members)
    case _ => 1
  }

  function ItemsSize(items: seq<Json>): nat {
    if items == [] then 0 else Size(items[0]) + ItemsSize(items[1..])
  }

  function MembersSize(members: seq<Member>): nat {
    if members == [] then 0 else Size(members[0].value) + MembersSize(members[1..])
  }

  // ----- Writing -----

  function Defined(members: seq<Member>): (r: seq<Member>)
    ensures MembersSize(r) <= MembersSize(members)
  {
    if members == [] then []
    else if members[0].value.Undefined? then Defined(members[1..])
    else [members[0]] + Defined(members[1..])
  }

  function Insert(m: Member, sorted: seq<Member>): (r: seq<Member>)
    ensures MembersSize(r) == Size(m.value) + MembersSize(sorted)
  {
    if sorted == [] then [m]
    else if Less(sorted[0].key, m.key) then [sorted[0]] + Insert(m, sorted[1..])
    else [m] + sorted
  }

  function Sort(members: seq<Member>): (r: seq<Member>)
    ensures MembersSize(r) == MembersSize(members)
  {
    if members == [] then [] else Insert(members[0], Sort(members[1..]))
  }

  function Entries(members: seq<Member>): (r: seq<Member>)
    ensures MembersSize(r) <= MembersSize(members)
  {
    Sort(Defined(members))
  }

  function Hex4(u: CodeUnit): Text {
    [HexDigit(u / 4096), HexDigit(u / 256 % 16), HexDigit(u / 16 % 16), HexDigit(u % 16)]
  }

  predicate IsHigh(u: CodeUnit) {
    0xD800 <= u < 0xDC00
  }

  predicate IsLow(u: CodeUnit) {
    0xDC00 <= u < 0xE000
  }

  /** The two-unit escape of a code unit that has one: the letter after the backslash. */
  function ShortEscape(u: CodeUnit): Option<CodeUnit> {
    if u == DOUBLE_QUOTE || u == BACKSLASH then Some(u)
    else if u == 8 then Some(98)
    else if u == 9 then Some(116)
    else if u == 10 then Some(110)
    else if u == 12 then Some(102)
    else if u == 13 then Some(114)
    else None
  }

  function LongEscape(u: CodeUnit): Text {
    [BACKSLASH, 117] + Hex4(u)
  }

  /** The units of the first character: two for a surrogate pair. */
  function FirstUnits(s: Text): nat
    requires s != []
  {
    if |s| > 1 && IsHigh(s[0]) && IsLow(s[1]) then 2 else 1
  }

  /** Quotes, backslashes, control characters and lone surrogates are escaped; a surrogate pair is not. */
  function EscapeFirst(s: Text): Text
    requires s != []
  {
    if ShortEscape(s[0]).Some? then [BACKSLASH, ShortEscape(s[0]).value]
    else if s[0] < 32 || IsLow(s[0]) || (IsHigh(s[0]) && FirstUnits(s) == 1) then LongEscape(s[0])
    else s[..FirstUnits(s)]
  }

  function Escape(s: Text): Text {
    if s == [] then [] else EscapeFirst(s) + Escape(s[FirstUnits(s)..])
  }

  function Quote(s: Text): Text {
    [DOUBLE_QUOTE] + Escape(s) + [DOUBLE_QUOTE]
  }

  const NULL_TEXT: Text := [110, 117, 108, 108]
  const TRUE_TEXT: Text := [116, 114, 117, 101]
  const FALSE_TEXT: Text := [102, 97, 108, 115, 101]

  function Stringify(v: Json): Text
    decreases Size(v), 0
  {
    match v
    case Arr(items) => [OPEN_BRACKET] + ItemsText(items) + [CLOSE_BRACKET]
    case Obj(members) => [OPEN_BRACE] + EntriesText(Entries(members)) + [CLOSE_BRACE]
    case Null => NULL_TEXT
    case Undefined => NULL_TEXT
    case Bool(b) => if b then TRUE_TEXT else FALSE_TEXT
    case Num(text) => text
    case Str(units) => Quote(units)
  }

  function ItemsText(items: seq<Json>): Text
    decreases ItemsSize(items), 1
  {
    if items == [] then []
    else if |items| == 1 then Stringify(items[0])
    else Stringify(items[0]) + [COMMA] + ItemsText(items[1..])
  }

  function EntryText(m: Member): Text
    decreases Size(m.value), 1
  {
    Quote(m.key) + [COLON] + Stringify(m.value)
  }

  function EntriesText(entries: seq<Member>): Text
    decreases MembersSize(entries), 2
  {
    if entries == [] then []
    else if |entries| == 1 then EntryText(entries[0])
    else EntryText(entries[0]) + [COMMA] + EntriesText(entries[1..])
  }

  // ----- Reading: RFC 8259, sections 4 (objects), 5 (arrays) and 7 (strings), without white space -----

  function ReadHex4(t: Text): Option<CodeUnit> {
    if |t| < 4 || HexValue(t[0]) < 0 || HexValue(t[1]) < 0 || HexValue(t[2]) < 0 || HexValue(t[3]) < 0 then None
    else Some(4096 * HexValue(t[0]) + 256 * HexValue(t[1]) + 16 * HexValue(t[2]) + HexValue(t[3]))
  }

  function ReadShortEscape(u: CodeUnit): Option<CodeUnit> {
    if u == DOUBLE_QUOTE || u == BACKSLASH || u == 47 then Some(u)
    else if u == 98 then Some(8)
    else if u == 116 then Some(9)
    else if u == 110 then Some(10)
    else if u == 102 then Some(12)
    else if u == 114 then Some(13)
    else None
  }

  /** A string's characters up to its closing quotation mark. */
  function ReadString(t: Text): (r: Option<(Text, Text)>)
    ensures r.Some? ==> |r.value.1| < |t|
    decreases |t|
  {
    if t == [] || t[0] < 32 then None
    else if t[0] == DOUBLE_QUOTE then Some(([], t[1..]))
    else if t[0] != BACKSLASH then Prepend(t[0], ReadString(t[1..]))
    else if |t| < 2 then None
    else if ReadShortEscape(t[1]).Some? then Prepend(ReadShortEscape(t[1]).value, ReadString(t[2..]))
    else if t[1] == 117 && ReadHex4(t[2..]).Some? then Prepend(ReadHex4(t[2..]).value, ReadString(t[6..]))
    else None
  }

  function Prepend(u: CodeUnit, r: Option<(Text, Text)>): Option<(Text, Text)> {
    if r.None? then None else Some(([u] + r.value.0, r.value.1))
  }

  function NumberLength(t: Text): (n: nat)
    ensures n <= |t|
  {
    if t == [] || !IsNumberUnit(t[0]) then 0 else 1 + NumberLength(t[1..])
  }

  lemma {:induction false} NumberLengthIsNumber(t: Text)
    ensures forall i :: 0 <= i < NumberLength(t) ==> IsNumberUnit(t[i])
  {
    if t != [] && IsNumberUnit(t[0]) {
      NumberLengthIsNumber(t[1..]);
      forall i | 0 <= i < NumberLength(t) ensures IsNumberUnit(t[i]) {
        if i > 0 {
          assert t[i] == t[1..][i - 1];
        }
      }
    }
  }

  function ReadValue(t: Text): (r: Option<(Json, Text)>)
    ensures r.Some? ==> |r.value.1| < |t|
    decreases |t|, 0
  {
    if t == [] then None
    else if StartsWith(t, NULL_TEXT) then Some((Null, t[4..]))
    else if StartsWith(t, TRUE_TEXT) then Some((Bool(true), t[4..]))
    else if StartsWith(t, FALSE_TEXT) then Some((Bool(false), t[5..]))
    else if t[0] == DOUBLE_QUOTE then
      var r := ReadString(t[1..]);
      if r.None? then None else Some((Str(r.value.0), r.value.1))
    else if IsDigit(t[0]) || t[0] == 45 then
      NumberLengthIsNumber(t);
      Some((Num(t[..NumberLength(t)]), t[NumberLength(t)..]))
    else if t[0] == OPEN_BRACKET then
      if |t| > 1 && t[1] == CLOSE_BRACKET then Some((Arr([]), t[2..]))
      else
        var r := ReadItems(t[1..]);
        if r.None? then None else Some((Arr(r.value.0), r.value.1))
    else if t[0] == OPEN_BRACE then
      if |t| > 1 && t[1] == CLOSE_BRACE then Some((Obj([]), t[2..]))
      else
        var r := ReadMembers(t[1..]);
        if r.None? then None else Some((Obj(r.value.0), r.value.1))
    else None
  }

  /** One or more items up to the closing bracket. */
  function ReadItems(t: Text): (r: Option<(seq<Json>, Text)>)
    ensures r.Some? ==> |r.value.1| < |t|
    decreases |t|, 1
  {
    var first := ReadValue(t);
    if first.None? || first.value.1 == [] then None
    else
      var rest := first.value.1;
      if rest[0] == CLOSE_BRACKET then Some(([first.value.0], rest[1..]))
      else if rest[0] != COMMA then None
      else
        var more := ReadItems(rest[1..]);
        if more.None? then None else Some(([first.value.0] + more.value.0, more.value.1))
  }

  function ReadMember(t: Text): (r: Option<(Member, Text)>)
    ensures r.Some? ==> |r.value.1| < |t|
    decreases |t|, 1
  {
    if t == [] || t[0] != DOUBLE_QUOTE then None
    else
      var key := ReadString(t[1..]);
      if key.None? || key.value.1 == [] || key.value.1[0] != COLON then None
      else
        var value := ReadValue(key.value.1[1..]);
        if value.None? then None else Some((Member(key.value.0, value.value.0), value.value.1))
  }

  /** One or more members up to the closing brace. */
  function ReadMembers(t: Text): (r: Option<(seq<Member>, Text)>)
    ensures r.Some? ==> |r.value.1| < |t|
    decreases |t|, 2
  {
    var first := ReadMember(t);
    if first.None? || first.value.1 == [] then None
    else
      var rest := first.value.1;
      if rest[0] == CLOSE_BRACE then Some(([first.value.0], rest[1..]))
      else if rest[0] != COMMA then None
      else
        var more := ReadMembers(rest[1..]);
        if more.None? then None else Some(([first.value.0] + more.value.0, more.value.1))
  }
}
