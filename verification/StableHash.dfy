/** The 32-bit FNV-1a hash of the stable text (src/components/JumpWorkflow.tsx, stableHash), and what it tells apart. */
module StableHash {
  import opened CodeUnits
  import opened StableJson
  import opened StableJsonSame

  const WORD: nat := 0x1_0000_0000
  const OFFSET: nat := 0x811c_9dc5
  const PRIME: nat := 0x0100_0193

  /** The number that undoes multiplication by PRIME, modulo 2^32. */
  const INVERSE: nat := 0x359c_449b

  type Word = n: int | 0 <= n < WORD

  // ----- One step of the hash -----

  function Xor(a: nat, b: nat): nat
    decreases a + b
  {
    if a == 0 && b == 0 then 0
    else 2 * Xor(a / 2, b / 2) + (if a % 2 == b % 2 then 0 else 1)
  }

  function Power(bits: nat): nat {
    if bits == 0 then 1 else 2 * Power(bits - 1)
  }

  lemma {:induction false} XorStaysBelow(a: nat, b: nat, bits: nat)
    requires a < Power(bits) && b < Power(bits)
    ensures Xor(a, b) < Power(bits)
    decreases bits
  {
    if bits > 0 && (a != 0 || b != 0) {
      XorStaysBelow(a / 2, b / 2, bits - 1);
    }
  }

  lemma {:induction false} XorUndoesItself(a: nat, b: nat)
    ensures Xor(Xor(a, b), b) == a
    decreases a + b
  {
    if a != 0 || b != 0 {
      XorUndoesItself(a / 2, b / 2);
      assert Xor(a, b) / 2 == Xor(a / 2, b / 2);
    }
  }

  lemma {:induction false} PowersMultiply(a: nat, b: nat)
    ensures Power(a + b) == Power(a) * Power(b)
    decreases a
  {
    if a > 0 {
      PowersMultiply(a - 1, b);
    }
  }

  lemma WordIsAPower()
    ensures Power(32) == WORD && Power(4) == 16
  {
    assert Power(2) == 4;
    PowersMultiply(2, 2);
    PowersMultiply(4, 4);
    PowersMultiply(8, 8);
    PowersMultiply(16, 16);
  }

  lemma WordXor(h: Word, u: CodeUnit)
    ensures Xor(h, u) < WORD
  {
    WordIsAPower();
    XorStaysBelow(h, u, 32);
  }

  /** The product's low 32 bits. */
  function Multiply(a: nat, b: nat): Word {
    a * b % WORD
  }

  function Step(h: Word, u: CodeUnit): Word {
    Multiply(Xor(h, u), PRIME)
  }

  function StepBack(h: Word, u: CodeUnit): Word {
    WordXor(Multiply(h, INVERSE), u);
    Xor(Multiply(h, INVERSE), u)
  }

  lemma ModuloDropsMultiples(x: Word, k: int)
    ensures (x + WORD * k) % WORD == x
  {
  }

  /** PRIME * INVERSE is 1 more than a multiple of 2^32, so one multiplication undoes the other. */
  lemma MultiplicationIsUndone(x: Word)
    ensures Multiply(Multiply(x, PRIME), INVERSE) == x
    ensures Multiply(Multiply(x, INVERSE), PRIME) == x
  {
    var p, q := x * PRIME / WORD, x * INVERSE / WORD;
    assert x * PRIME == WORD * p + Multiply(x, PRIME);
    assert x * INVERSE == WORD * q + Multiply(x, INVERSE);
    assert PRIME * INVERSE == 1 + 3513497 * WORD;
    assert Multiply(x, PRIME) * INVERSE == x + WORD * (3513497 * x - INVERSE * p);
    assert Multiply(x, INVERSE) * PRIME == x + WORD * (3513497 * x - PRIME * q);
    ModuloDropsMultiples(x, 3513497 * x - INVERSE * p);
    ModuloDropsMultiples(x, 3513497 * x - PRIME * q);
  }

  /** For each code unit the step is a bijection on 32-bit states. */
  lemma StepIsABijection(h: Word, u: CodeUnit)
    ensures StepBack(Step(h, u), u) == h
    ensures Step(StepBack(h, u), u) == h
  {
    WordXor(h, u);
    MultiplicationIsUndone(Xor(h, u));
    XorUndoesItself(h, u);
    MultiplicationIsUndone(h);
    XorUndoesItself(Multiply(h, INVERSE), u);
  }

  lemma {:induction false} XorIsSymmetric(a: nat, b: nat)
    ensures Xor(a, b) == Xor(b, a)
    decreases a + b
  {
    if a != 0 || b != 0 {
      XorIsSymmetric(a / 2, b / 2);
    }
  }

  lemma DifferentUnitsStepApart(h: Word, u: CodeUnit, w: CodeUnit)
    requires u != w
    ensures Step(h, u) != Step(h, w)
  {
    WordXor(h, u);
    WordXor(h, w);
    MultiplicationIsUndone(Xor(h, u));
    MultiplicationIsUndone(Xor(h, w));
    XorIsSymmetric(h, u);
    XorIsSymmetric(h, w);
    XorUndoesItself(u, h);
    XorUndoesItself(w, h);
  }

  // ----- The hash of a text -----

  function HashFrom(h: Word, text: Text): Word
    decreases |text|
  {
    if text == [] then h else HashFrom(Step(h, text[0]), text[1..])
  }

  function Hash(text: Text): Word {
    HashFrom(OFFSET, text)
  }

  lemma DifferentStatesStepApart(h: Word, k: Word, u: CodeUnit)
    requires h != k
    ensures Step(h, u) != Step(k, u)
  {
    StepIsABijection(h, u);
    StepIsABijection(k, u);
  }

  lemma {:induction false} StatesStayApart(h: Word, k: Word, text: Text)
    requires h != k
    ensures HashFrom(h, text) != HashFrom(k, text)
    decreases |text|
  {
    if text != [] {
      DifferentStatesStepApart(h, k, text[0]);
      StatesStayApart(Step(h, text[0]), Step(k, text[0]), text[1..]);
    }
  }

  lemma {:induction false} HashContinues(h: Word, a: Text, b: Text)
    ensures HashFrom(h, a + b) == HashFrom(HashFrom(h, a), b)
    decreases |a|
  {
    if a == [] {
      assert a + b == b;
    } else {
      assert (a + b)[1..] == a[1..] + b;
      HashContinues(Step(h, a[0]), a[1..], b);
    }
  }

  /** Two texts that differ in one code unit hash differently, whatever surrounds it. */
  lemma OneUnitChangesTheHash(before: Text, u: CodeUnit, w: CodeUnit, after: Text)
    requires u != w
    ensures Hash(before + [u] + after) != Hash(before + [w] + after)
  {
    var h := Hash(before);
    HashContinues(OFFSET, before + [u], after);
    HashContinues(OFFSET, before + [w], after);
    HashContinues(OFFSET, before, [u]);
    HashContinues(OFFSET, before, [w]);
    DifferentUnitsStepApart(h, u, w);
    StatesStayApart(Step(h, u), Step(h, w), after);
  }

  // ----- The eight digits -----

  function ToHex(n: nat): Text {
    if n < 16 then [HexDigit(n)] else ToHex(n / 16) + [HexDigit(n % 16)]
  }

  function PadStart(text: Text, length: nat): Text
    decreases length - |text|
  {
    if |text| >= length then text else PadStart([48] + text, length)
  }

  function Hex8(h: Word): Text {
    PadStart(ToHex(h), 8)
  }

  function FromHex(text: Text): int {
    if text == [] then 0 else 16 * FromHex(text[..|text| - 1]) + HexValue(text[|text| - 1])
  }

  lemma {:induction false} HexIsRead(n: nat)
    ensures FromHex(ToHex(n)) == n
  {
    HexDigitHasValue(n % 16);
    if n < 16 {
      assert ToHex(n)[..0] == [];
    } else {
      HexIsRead(n / 16);
      assert ToHex(n)[..|ToHex(n)| - 1] == ToHex(n / 16);
    }
  }

  lemma {:induction false} LeadingZeroIsNothing(text: Text)
    ensures FromHex([48] + text) == FromHex(text)
    decreases |text|
  {
    if text == [] {
      assert ([48] + text)[..0] == [];
    } else {
      assert ([48] + text)[..|text|] == [48] + text[..|text| - 1];
      LeadingZeroIsNothing(text[..|text| - 1]);
    }
  }

  lemma {:induction false} PaddingIsNothing(text: Text, length: nat)
    ensures FromHex(PadStart(text, length)) == FromHex(text)
    decreases length - |text|
  {
    if |text| < length {
      PaddingIsNothing([48] + text, length);
      LeadingZeroIsNothing(text);
    }
  }

  lemma {:induction false} HexIsShort(n: nat, digits: nat)
    requires digits > 0 && n < Power(4 * digits)
    ensures |ToHex(n)| <= digits
    decreases digits
  {
    if n >= 16 {
      WordIsAPower();
      PowersMultiply(4, 4 * (digits - 1));
      assert digits > 1;
      HexIsShort(n / 16, digits - 1);
    }
  }

  lemma {:induction false} PaddedLength(text: Text, length: nat)
    requires |text| <= length
    ensures |PadStart(text, length)| == length
    decreases length - |text|
  {
    if |text| < length {
      PaddedLength([48] + text, length);
    }
  }

  lemma {:induction false} HexHasNoColon(n: nat)
    ensures COLON !in ToHex(n)
  {
    if n >= 16 {
      HexHasNoColon(n / 16);
    }
  }

  lemma {:induction false} PaddingHasNoColon(text: Text, length: nat)
    requires COLON !in text
    ensures COLON !in PadStart(text, length)
    decreases length - |text|
  {
    if |text| < length {
      PaddingHasNoColon([48] + text, length);
    }
  }

  /** Eight digits, which the number can be read from. */
  lemma EightDigitsNameTheHash(h: Word)
    ensures |Hex8(h)| == 8 && FromHex(Hex8(h)) == h && COLON !in Hex8(h)
  {
    WordIsAPower();
    HexIsShort(h, 8);
    PaddedLength(ToHex(h), 8);
    PaddingIsNothing(ToHex(h), 8);
    HexIsRead(h);
    HexHasNoColon(h);
    PaddingHasNoColon(ToHex(h), 8);
  }

  function HashText(value: Json): Text {
    Hex8(Hash(Stringify(value)))
  }

  method ComputeStableHash(value: Json) returns (hex: Text)
    ensures hex == HashText(value)
  {
    var text := Stringify(value);
    var hash: Word := OFFSET;
    for index := 0 to |text|
      invariant HashFrom(hash, text[index..]) == Hash(text)
    {
      hash := Step(hash, text[index]);
      assert text[index..][1..] == text[index + 1..];
    }
    hex := Hex8(hash);
  }

  /** Equal payloads share the hash. */
  lemma SamePayloadsShareTheHash(a: Json, b: Json)
    requires WellFormed(a) && WellFormed(b) && Same(a, b)
    ensures HashText(a) == HashText(b)
  {
    SameTextIffSame(a, b);
  }

  /** Payloads whose texts differ in one code unit do not. */
  lemma OneUnitChangesTheStableHash(a: Json, b: Json, before: Text, u: CodeUnit, w: CodeUnit, after: Text)
    requires Stringify(a) == before + [u] + after && Stringify(b) == before + [w] + after && u != w
    ensures HashText(a) != HashText(b)
  {
    OneUnitChangesTheHash(before, u, w, after);
    EightDigitsNameTheHash(Hash(Stringify(a)));
    EightDigitsNameTheHash(Hash(Stringify(b)));
  }

  lemma XorOfTheFirst()
    ensures Xor(0x811c_9dc5, 0x61) == 0x811c_9da4
  {
    XorWithNothing(0x0102_393b);
    assert Xor(0x0204_7277, 0x01) == 0x0204_7276;
    assert Xor(0x0408_e4ee, 0x03) == 0x0408_e4ed;
    assert Xor(0x0811_c9dc, 0x06) == 0x0811_c9da;
    assert Xor(0x1023_93b8, 0x0c) == 0x1023_93b4;
    assert Xor(0x2047_2771, 0x18) == 0x2047_2769;
    assert Xor(0x408e_4ee2, 0x30) == 0x408e_4ed2;
  }

  lemma {:induction false} XorWithNothing(a: nat)
    ensures Xor(a, 0) == a
  {
    if a != 0 {
      XorWithNothing(a / 2);
    }
  }

  /** Two hashes known of FNV-1a: of the empty text, and of "a". */
  lemma KnownHashes()
    ensures Hash([]) == 0x811c_9dc5 && Hash([0x61]) == 0xe40c_292c
  {
    XorOfTheFirst();
    assert 0x811c_9da4 * 0x0100_0193 == 8461672 * 0x1_0000_0000 + 0xe40c_292c;
    assert [0x61][1..] == [];
  }
}
