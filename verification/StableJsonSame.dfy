/** Two values print the same text exactly when they are equal up to key order, dropped members and undefined items. */
module StableJsonSame {
  import opened CodeUnits
  import opened StableJson
  import opened StableJsonFaithful

  /** An object has each key once. */
  predicate DistinctKeys(members: seq<Member>) {
    forall i, j :: 0 <= i < j < |members| ==> members[i].key != members[j].key
  }

  predicate WellFormed(v: Json) {
    match v
    case Arr(items) => forall i :: 0 <= i < |items| ==> WellFormed(items[i])
    case Obj(members) => DistinctKeys(members) && forall i :: 0 <= i < |members| ==> WellFormed(members[i].value)
    case _ => true
  }

  predicate Has(members: seq<Member>, key: Text) {
    exists m :: m in members && m.key == key && !m.value.Undefined?
  }

  function Seen(v: Json): Json {
    if v.Undefined? then Null else v
  }

  /** Equality that does not see the order of keys, undefined members, or the difference of undefined and null items. */
  ghost predicate Same(a: Json, b: Json)
    decreases a
  {
    if a.Arr? && b.Arr? then
      && |a.items| == |b.items|
      && forall i :: 0 <= i < |a.items| ==> Same(a.items[i], b.items[i])
    else if a.Obj? && b.Obj? then
      && (forall key :: Has(a.members, key) <==> Has(b.members, key))
      && forall m, n :: m in a.members && n in b.members && m.key == n.key && !m.value.Undefined? && !n.value.Undefined? ==>
        Same(m.value, n.value)
    else
      Seen(a) == Seen(b)
  }

  // ----- The entries of an object -----

  predicate Ascending(entries: seq<Member>) {
    forall i, j :: 0 <= i < j < |entries| ==> Less(entries[i].key, entries[j].key)
  }

  lemma {:induction false} DefinedHas(members: seq<Member>, m: Member)
    ensures m in Defined(members) <==> m in members && !m.value.Undefined?
  {
    if members != [] {
      DefinedHas(members[1..], m);
      assert members == [members[0]] + members[1..];
    }
  }

  lemma {:induction false} InsertHas(m: Member, sorted: seq<Member>, x: Member)
    ensures x in Insert(m, sorted) <==> x == m || x in sorted
  {
    if sorted != [] && Less(sorted[0].key, m.key) {
      InsertHas(m, sorted[1..], x);
      assert sorted == [sorted[0]] + sorted[1..];
    }
  }

  lemma {:induction false} SortHas(members: seq<Member>, x: Member)
    ensures x in Sort(members) <==> x in members
  {
    if members != [] {
      SortHas(members[1..], x);
      InsertHas(members[0], Sort(members[1..]), x);
      assert members == [members[0]] + members[1..];
    }
  }

  lemma EntriesHave(members: seq<Member>, x: Member)
    ensures x in Entries(members) <==> x in members && !x.value.Undefined?
  {
    DefinedHas(members, x);
    SortHas(Defined(members), x);
  }

  lemma {:induction false} InsertAscends(m: Member, sorted: seq<Member>)
    requires Ascending(sorted) && forall x :: x in sorted ==> x.key != m.key
    ensures Ascending(Insert(m, sorted))
  {
    if sorted != [] && Less(sorted[0].key, m.key) {
      InsertAscends(m, sorted[1..]);
      var rest := Insert(m, sorted[1..]);
      forall j | 0 <= j < |rest| ensures Less(sorted[0].key, rest[j].key) {
        InsertHas(m, sorted[1..], rest[j]);
        assert rest[j] in rest;
      }
    } else if sorted != [] {
      LessIsTotal(m.key, sorted[0].key);
      assert sorted[0] in sorted;
      forall j | 0 <= j < |sorted| ensures Less(m.key, sorted[j].key) {
        if j > 0 {
          LessIsTransitive(m.key, sorted[0].key, sorted[j].key);
        }
      }
    }
  }

  lemma {:induction false} SortAscends(members: seq<Member>)
    requires DistinctKeys(members)
    ensures Ascending(Sort(members))
  {
    if members != [] {
      SortAscends(members[1..]);
      forall x | x in Sort(members[1..]) ensures x.key != members[0].key {
        SortHas(members[1..], x);
      }
      InsertAscends(members[0], Sort(members[1..]));
    }
  }

  lemma {:induction false} DefinedStaysDistinct(members: seq<Member>)
    requires DistinctKeys(members)
    ensures DistinctKeys(Defined(members))
  {
    if members != [] {
      DefinedStaysDistinct(members[1..]);
      forall x | x in Defined(members[1..]) ensures x.key != members[0].key {
        DefinedHas(members[1..], x);
      }
    }
  }

  lemma EntriesAscend(members: seq<Member>)
    requires DistinctKeys(members)
    ensures Ascending(Entries(members))
  {
    DefinedStaysDistinct(members);
    SortAscends(Defined(members));
  }

  predicate HasKey(entries: seq<Member>, key: Text) {
    exists m :: m in entries && m.key == key
  }

  /** Ascending entries with the same keys have them in the same places. */
  lemma {:induction false} SameKeysSamePlaces(a: seq<Member>, b: seq<Member>)
    requires Ascending(a) && Ascending(b)
    requires forall key :: HasKey(a, key) <==> HasKey(b, key)
    ensures |a| == |b| && forall i :: 0 <= i < |a| ==> a[i].key == b[i].key
    decreases |a|
  {
    if a == [] || b == [] {
      if a != [] {
        assert HasKey(a, a[0].key);
      }
      if b != [] {
        assert HasKey(b, b[0].key);
      }
    } else {
      FirstKeyIsLeast(a, b);
      forall key | HasKey(a[1..], key) ensures HasKey(b[1..], key) {
        LaterKeyElsewhere(a, b, key);
      }
      forall key | HasKey(b[1..], key) ensures HasKey(a[1..], key) {
        LaterKeyElsewhere(b, a, key);
      }
      SameKeysSamePlaces(a[1..], b[1..]);
    }
  }

  lemma FirstKeyIsLeast(a: seq<Member>, b: seq<Member>)
    requires Ascending(a) && Ascending(b) && a != [] && b != []
    requires forall key :: HasKey(a, key) <==> HasKey(b, key)
    ensures a[0].key == b[0].key
  {
    assert HasKey(a, a[0].key) && HasKey(b, b[0].key);
    var m :| m in b && m.key == a[0].key;
    var n :| n in a && n.key == b[0].key;
    if a[0].key != b[0].key {
      LessIsStrict(a[0].key, b[0].key);
    }
  }

  lemma LaterKeyElsewhere(a: seq<Member>, b: seq<Member>, key: Text)
    requires Ascending(a) && a != [] && b != [] && a[0].key == b[0].key
    requires forall k :: HasKey(a, k) <==> HasKey(b, k)
    requires HasKey(a[1..], key)
    ensures HasKey(b[1..], key)
  {
    var m :| m in a[1..] && m.key == key;
    LessIsStrict(a[0].key, key);
    assert HasKey(a, key);
    var n :| n in b && n.key == key;
    assert b == [b[0]] + b[1..];
  }

  lemma EntriesOfSame(a: seq<Member>, b: seq<Member>)
    requires DistinctKeys(a) && DistinctKeys(b)
    requires forall key :: Has(a, key) <==> Has(b, key)
    ensures |Entries(a)| == |Entries(b)| && forall i :: 0 <= i < |Entries(a)| ==> Entries(a)[i].key == Entries(b)[i].key
  {
    EntriesAscend(a);
    EntriesAscend(b);
    forall key ensures HasKey(Entries(a), key) <==> HasKey(Entries(b), key) {
      EntryKeys(a, key);
      EntryKeys(b, key);
    }
    SameKeysSamePlaces(Entries(a), Entries(b));
  }

  lemma EntryKeys(members: seq<Member>, key: Text)
    ensures HasKey(Entries(members), key) <==> Has(members, key)
  {
    if HasKey(Entries(members), key) {
      var m :| m in Entries(members) && m.key == key;
      EntriesHave(members, m);
    }
    if Has(members, key) {
      var m :| m in members && m.key == key && !m.value.Undefined?;
      EntriesHave(members, m);
    }
  }

  // ----- Same values, same text -----

  lemma {:induction false} SameHaveOneText(a: Json, b: Json)
    requires WellFormed(a) && WellFormed(b) && Same(a, b)
    ensures Stringify(a) == Stringify(b)
    decreases a
  {
    if a.Arr? && b.Arr? {
      forall i | 0 <= i < |a.items| ensures Stringify(a.items[i]) == Stringify(b.items[i]) {
        SameHaveOneText(a.items[i], b.items[i]);
      }
      SameItemsText(a.items, b.items);
    } else if a.Obj? && b.Obj? {
      var x, y := Entries(a.members), Entries(b.members);
      EntriesOfSame(a.members, b.members);
      forall i | 0 <= i < |x| ensures Stringify(x[i].value) == Stringify(y[i].value) {
        EntriesHave(a.members, x[i]);
        EntriesHave(b.members, y[i]);
        SameHaveOneText(x[i].value, y[i].value);
      }
      SameEntriesText(x, y);
    }
  }

  lemma {:induction false} SameItemsText(a: seq<Json>, b: seq<Json>)
    requires |a| == |b| && forall i :: 0 <= i < |a| ==> Stringify(a[i]) == Stringify(b[i])
    ensures ItemsText(a) == ItemsText(b)
  {
    if a != [] {
      SameItemsText(a[1..], b[1..]);
    }
  }

  lemma {:induction false} SameEntriesText(a: seq<Member>, b: seq<Member>)
    requires |a| == |b|
    requires forall i :: 0 <= i < |a| ==> a[i].key == b[i].key && Stringify(a[i].value) == Stringify(b[i].value)
    ensures EntriesText(a) == EntriesText(b)
  {
    if a != [] {
      SameEntriesText(a[1..], b[1..]);
    }
  }

  // ----- Same canonical value, same value -----

  lemma {:induction false} CanonicalItemAt(items: seq<Json>, i: nat)
    requires i < |items|
    ensures CanonicalItems(items)[i] == Canonical(items[i])
  {
    if i > 0 {
      CanonicalItemAt(items[1..], i - 1);
    }
  }

  lemma {:induction false} CanonicalMemberAt(entries: seq<Member>, i: nat)
    requires i < |entries|
    ensures CanonicalMembers(entries)[i] == Member(entries[i].key, Canonical(entries[i].value))
  {
    if i > 0 {
      CanonicalMemberAt(entries[1..], i - 1);
    }
  }

  lemma {:induction false} OneCanonicalMeansSame(a: Json, b: Json)
    requires WellFormed(a) && WellFormed(b) && Canonical(a) == Canonical(b)
    ensures Same(a, b)
    decreases a
  {
    if a.Arr? && b.Arr? {
      forall i | 0 <= i < |a.items| ensures Same(a.items[i], b.items[i]) {
        CanonicalItemAt(a.items, i);
        CanonicalItemAt(b.items, i);
        OneCanonicalMeansSame(a.items[i], b.items[i]);
      }
    } else if a.Obj? && b.Obj? {
      var x, y := Entries(a.members), Entries(b.members);
      forall i | 0 <= i < |x| ensures x[i].key == y[i].key && Canonical(x[i].value) == Canonical(y[i].value) {
        CanonicalMemberAt(x, i);
        CanonicalMemberAt(y, i);
      }
      SamePlacesSameKeys(a.members, b.members);
      forall m, n | m in a.members && n in b.members && m.key == n.key && !m.value.Undefined? && !n.value.Undefined?
        ensures Same(m.value, n.value)
      {
        EntriesHave(a.members, m);
        EntriesHave(b.members, n);
        SamePlaceOfKey(a.members, b.members, m, n);
        OneCanonicalMeansSame(m.value, n.value);
      }
    }
  }

  lemma SamePlacesSameKeys(a: seq<Member>, b: seq<Member>)
    requires |Entries(a)| == |Entries(b)| && forall i :: 0 <= i < |Entries(a)| ==> Entries(a)[i].key == Entries(b)[i].key
    ensures forall key :: Has(a, key) <==> Has(b, key)
  {
    forall key ensures Has(a, key) <==> Has(b, key) {
      EntryKeys(a, key);
      EntryKeys(b, key);
      if HasKey(Entries(a), key) {
        var i :| 0 <= i < |Entries(a)| && Entries(a)[i].key == key;
        assert Entries(b)[i] in Entries(b);
      }
      if HasKey(Entries(b), key) {
        var i :| 0 <= i < |Entries(b)| && Entries(b)[i].key == key;
        assert Entries(a)[i] in Entries(a);
      }
    }
  }

  lemma SamePlaceOfKey(a: seq<Member>, b: seq<Member>, m: Member, n: Member)
    requires DistinctKeys(a) && DistinctKeys(b) && m in Entries(a) && n in Entries(b) && m.key == n.key
    requires |Entries(a)| == |Entries(b)|
    requires forall i :: 0 <= i < |Entries(a)| ==>
      Entries(a)[i].key == Entries(b)[i].key && Canonical(Entries(a)[i].value) == Canonical(Entries(b)[i].value)
    ensures Canonical(m.value) == Canonical(n.value)
  {
    EntriesAscend(b);
    var i :| 0 <= i < |Entries(a)| && Entries(a)[i] == m;
    var j :| 0 <= j < |Entries(b)| && Entries(b)[j] == n;
    if i < j {
      LessIsStrict(Entries(b)[i].key, Entries(b)[j].key);
    } else if j < i {
      LessIsStrict(Entries(b)[j].key, Entries(b)[i].key);
    }
  }

  /** Equal payloads read the same, and changed ones do not. */
  lemma SameTextIffSame(a: Json, b: Json)
    requires WellFormed(a) && WellFormed(b)
    ensures Stringify(a) == Stringify(b) <==> Same(a, b)
  {
    if Same(a, b) {
      SameHaveOneText(a, b);
    }
    if Stringify(a) == Stringify(b) {
      StringifyIsReadBack(a);
      StringifyIsReadBack(b);
      OneCanonicalMeansSame(a, b);
    }
  }
}
