/** One key per logical attempt, and the memory of request ids (src/components/JumpWorkflow.tsx). */
module RequestIds {
  import opened Options
  import opened CodeUnits
  import opened StableJson
  import opened StableJsonSame
  import opened StableHash

  predicate NoColon(text: Text) {
    COLON !in text
  }

  /** An attempt id is written only if it is there and not empty. */
  function AttemptPart(attemptId: Option<Text>): Text {
    if attemptId.Some? && attemptId.value != [] then [COLON] + attemptId.value else []
  }

  function OutcomeRequestKey(jumpId: Text, outcome: Text, details: Json, attemptId: Option<Text>): Text {
    jumpId + ([COLON] + (outcome + ([COLON] + (HashText(details) + AttemptPart(attemptId)))))
  }

  // ----- What a key names -----

  lemma FixedLengthSplits(a: Text, x: Text, b: Text, y: Text)
    requires |a| == |b| && a + x == b + y
    ensures a == b && x == y
  {
    assert a == (a + x)[..|a|] && b == (b + y)[..|b|];
    assert x == (a + x)[|a|..] && y == (b + y)[|b|..];
  }

  function FirstColon(text: Text): nat {
    if text == [] || text[0] == COLON then 0 else 1 + FirstColon(text[1..])
  }

  lemma {:induction false} ColonFollows(a: Text, x: Text)
    requires NoColon(a)
    ensures FirstColon(a + ([COLON] + x)) == |a|
  {
    if a == [] {
      assert a + ([COLON] + x) == [COLON] + x;
    } else {
      assert a[0] in a;
      assert (a + ([COLON] + x))[1..] == a[1..] + ([COLON] + x);
      ColonFollows(a[1..], x);
    }
  }

  /** A text without a colon before the first colon can be told from what follows it. */
  lemma FirstColonSplits(a: Text, x: Text, b: Text, y: Text)
    requires NoColon(a) && NoColon(b) && a + ([COLON] + x) == b + ([COLON] + y)
    ensures a == b && x == y
  {
    ColonFollows(a, x);
    ColonFollows(b, y);
    FixedLengthSplits(a, [COLON] + x, b, [COLON] + y);
    FixedLengthSplits([COLON], x, [COLON], y);
  }

  predicate Missing(attemptId: Option<Text>) {
    attemptId == None || attemptId == Some([])
  }

  lemma PartNamesTheAttempt(a: Option<Text>, a': Option<Text>)
    ensures AttemptPart(a) == AttemptPart(a') <==> (a == a' || (Missing(a) && Missing(a')))
  {
    if a.Some? && a'.Some? && AttemptPart(a) == AttemptPart(a') != [] {
      FixedLengthSplits([COLON], a.value, [COLON], a'.value);
    }
  }

  /**
   One key is one attempt: the same follow-up, outcome and payload hash, and the same handoff or none
   for both.
   */
  lemma KeyNamesTheAttempt(j: Text, o: Text, d: Json, a: Option<Text>, j': Text, o': Text, d': Json, a': Option<Text>)
    requires NoColon(j) && NoColon(o) && NoColon(j') && NoColon(o')
    ensures OutcomeRequestKey(j, o, d, a) == OutcomeRequestKey(j', o', d', a') <==>
      j == j' && o == o' && Hash(Stringify(d)) == Hash(Stringify(d')) && (a == a' || (Missing(a) && Missing(a')))
  {
    PartNamesTheAttempt(a, a');
    EightDigitsNameTheHash(Hash(Stringify(d)));
    EightDigitsNameTheHash(Hash(Stringify(d')));
    if OutcomeRequestKey(j, o, d, a) == OutcomeRequestKey(j', o', d', a') {
      var x, x' := HashText(d) + AttemptPart(a), HashText(d') + AttemptPart(a');
      FirstColonSplits(j, o + ([COLON] + x), j', o' + ([COLON] + x'));
      FirstColonSplits(o, x, o', x');
      FixedLengthSplits(HashText(d), AttemptPart(a), HashText(d'), AttemptPart(a'));
    }
  }

  /** Payloads that are the same up to key order and dropped members retry under one key. */
  lemma SamePayloadSameKey(j: Text, o: Text, d: Json, d': Json, a: Option<Text>)
    requires WellFormed(d) && WellFormed(d') && Same(d, d')
    ensures OutcomeRequestKey(j, o, d, a) == OutcomeRequestKey(j, o, d', a)
  {
    SameTextIffSame(d, d');
  }

  /** The prefix that `forget` looks for. */
  function Prefix(jumpId: Text): Text {
    jumpId + [COLON]
  }

  /** A key has a follow-up's prefix exactly when it is that follow-up's, or of one whose id extends it past a colon. */
  lemma KeyHasPrefixIff(jumpId: Text, j: Text, o: Text, d: Json, a: Option<Text>)
    requires NoColon(jumpId)
    ensures StartsWith(OutcomeRequestKey(j, o, d, a), Prefix(jumpId)) <==> j == jumpId || StartsWith(j, Prefix(jumpId))
  {
    var rest := o + ([COLON] + (HashText(d) + AttemptPart(a)));
    var key := OutcomeRequestKey(j, o, d, a);
    var n := |jumpId|;
    assert key == j + ([COLON] + rest);
    if |j| > n {
      assert key[..n + 1] == j[..n + 1];
    } else if |j| == n {
      assert key[..n + 1] == j + [COLON];
      assert (j + [COLON])[..n] == j && Prefix(jumpId)[..n] == jumpId;
    } else {
      assert jumpId[|j|] in jumpId && Prefix(jumpId)[|j|] == jumpId[|j|];
      assert |key| > n ==> key[..n + 1][|j|] == COLON;
    }
  }

  /** For ids without a colon the prefix picks out exactly that follow-up's keys. */
  lemma PrefixPicksOutTheFollowUp(jumpId: Text, j: Text, o: Text, d: Json, a: Option<Text>)
    requires NoColon(jumpId) && NoColon(j)
    ensures StartsWith(OutcomeRequestKey(j, o, d, a), Prefix(jumpId)) <==> j == jumpId
  {
    KeyHasPrefixIff(jumpId, j, o, d, a);
    assert Prefix(jumpId)[|jumpId|] == COLON;
    assert |j| > |jumpId| ==> j[..|jumpId| + 1][|jumpId|] == j[|jumpId|] && j[|jumpId|] in j;
  }

  // ----- The memory -----

  function Claimed(ids: map<Text, Text>, key: Text, minted: Text): Text {
    if key in ids && ids[key] != [] then ids[key] else minted
  }

  function Without(ids: map<Text, Text>, jumpId: Text): map<Text, Text> {
    map key | key in ids && !StartsWith(key, Prefix(jumpId)) :: ids[key]
  }

  /** Every attempt gets an id: one that was remembered for it, unless that is empty, or the new one. */
  lemma ClaimGivesAnId(ids: map<Text, Text>, key: Text, minted: Text)
    requires minted != []
    ensures Claimed(ids, key, minted) != []
    ensures Claimed(ids, key, minted) != minted ==> key in ids && ids[key] == Claimed(ids, key, minted)
  {
  }

  class OutcomeRequestIds {
    var ids: map<Text, Text>

    constructor ()
      ensures ids == map[]
    {
      ids := map[];
    }

    method Claim(key: Text, minted: Text) returns (id: Text)
      modifies this
      ensures id == Claimed(old(ids), key, minted) && ids == old(ids)[key := id]
    {
      if key in ids && ids[key] != [] {
        id := ids[key];
        assert ids == ids[key := id];
        return;
      }
      id := minted;
      ids := ids[key := id];
    }

    method Release(key: Text)
      modifies this
      ensures ids == old(ids) - {key}
    {
      ids := ids - {key};
    }

    method Forget(jumpId: Text)
      modifies this
      ensures ids == Without(old(ids), jumpId)
    {
      var keys := ids.Keys;
      while keys != {}
        invariant keys <= old(ids).Keys
        invariant forall key :: key in ids <==> key in old(ids) && (key in keys || !StartsWith(key, Prefix(jumpId)))
        invariant forall key :: key in ids ==> ids[key] == old(ids)[key]
        decreases |keys|
      {
        var key :| key in keys;
        keys := keys - {key};
        if StartsWith(key, Prefix(jumpId)) {
          ids := ids - {key};
        }
      }
    }
  }

  datatype Use = Claims(key: Text, minted: Text) | Releases(key: Text) | Forgets(jumpId: Text)

  function AfterUse(ids: map<Text, Text>, u: Use): map<Text, Text> {
    match u
    case Claims(key, minted) => ids[key := Claimed(ids, key, minted)]
    case Releases(key) => ids - {key}
    case Forgets(jumpId) => Without(ids, jumpId)
  }

  function AfterUses(ids: map<Text, Text>, uses: seq<Use>): map<Text, Text>
    decreases |uses|
  {
    if uses == [] then ids else AfterUses(AfterUse(ids, uses[0]), uses[1..])
  }

  predicate Drops(u: Use, key: Text) {
    (u.Releases? && u.key == key) || (u.Forgets? && StartsWith(key, Prefix(u.jumpId)))
  }

  /** A key keeps its one id through any uses of the memory until it is released or its follow-up forgotten. */
  lemma {:induction false} KeyKeepsItsId(ids: map<Text, Text>, uses: seq<Use>, key: Text, minted: Text)
    requires key in ids && ids[key] != []
    requires forall i :: 0 <= i < |uses| ==> !Drops(uses[i], key)
    ensures key in AfterUses(ids, uses) && AfterUses(ids, uses)[key] == ids[key]
    ensures Claimed(AfterUses(ids, uses), key, minted) == ids[key]
    decreases |uses|
  {
    if uses != [] {
      assert !Drops(uses[0], key);
      KeyKeepsItsId(AfterUse(ids, uses[0]), uses[1..], key, minted);
    }
  }

  /** Forgetting a follow-up drops the id of each of its attempts and keeps every other follow-up's. */
  lemma ForgetDropsExactlyTheFollowUp(
      ids: map<Text, Text>, jumpId: Text, j: Text, o: Text, d: Json, a: Option<Text>)
    requires NoColon(jumpId) && NoColon(j)
    ensures var key := OutcomeRequestKey(j, o, d, a);
      && (key in Without(ids, jumpId) <==> key in ids && j != jumpId)
      && (key in Without(ids, jumpId) ==> Without(ids, jumpId)[key] == ids[key])
  {
    PrefixPicksOutTheFollowUp(jumpId, j, o, d, a);
  }
}
