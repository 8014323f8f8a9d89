/**
 The tab's store of staff drafts (src/components/AdminDraftProvider.tsx): a draft is kept for thirty
 minutes after it was last written. Time is counted in milliseconds.
 */
module AdminDraftStore {
  import opened Options

  const LIFETIME := 1_800_000

  datatype Entry = Entry(value: string, expires: int)

  type Entries = map<string, Entry>

  datatype Operation =
    | Set(key: string, value: string, now: int)
    | Remove(key: string)
    | Clear
    | Expire(now: int)

  function After(entries: Entries, op: Operation): Entries {
    match op
    case Set(key, value, now) => entries[key := Entry(value, now + LIFETIME)]
    case Remove(key) => entries - {key}
    case Clear => map[]
    case Expire(now) => map key | key in entries && entries[key].expires > now :: entries[key]
  }

  function AfterAll(ops: seq<Operation>): Entries {
    if ops == [] then map[] else After(AfterAll(ops[..|ops| - 1]), ops[|ops| - 1])
  }

  class DraftStore {
    var entries: Entries

    constructor ()
      ensures entries == map[]
    {
      entries := map[];
    }

    method Write(key: string, value: string, now: int)
      modifies this
      ensures entries == After(old(entries), Set(key, value, now))
    {
      entries := entries[key := Entry(value, now + LIFETIME)];
    }

    method Forget(key: string)
      modifies this
      ensures entries == After(old(entries), Remove(key))
    {
      entries := entries - {key};
    }

    /** Deletes the entries that are due, one after another. */
    method ExpireDue(now: int)
      modifies this
      ensures entries == After(old(entries), Expire(now))
    {
      var keys := entries.Keys;
      while keys != {}
        invariant keys <= old(entries).Keys
        invariant entries == map key | key in old(entries) && (key in keys || old(entries)[key].expires > now) :: old(entries)[key]
        decreases |keys|
      {
        var key :| key in keys;
        if entries[key].expires <= now {
          entries := entries - {key};
        }
        keys := keys - {key};
      }
    }

    /** The draft that stays, whatever operations led to the entries: it is there until something ends its stay. */
    method Get(key: string) returns (value: Option<string>)
      ensures forall ops :: entries == AfterAll(ops) ==> GivesWhatStays(ops, key, value)
    {
      value := if key in entries then Some(entries[key].value) else None;
      forall ops | entries == AfterAll(ops) ensures GivesWhatStays(ops, key, value) {
        EntryIsWhatStays(ops, key);
      }
    }
  }

  /** An operation that ends the stay of a draft that was written at `since`. */
  predicate Ends(op: Operation, key: string, since: int) {
    match op
    case Set(k, _, _) => k == key
    case Remove(k) => k == key
    case Clear => true
    case Expire(now) => now >= since + 1_800_000
  }

  /** A draft was written at step `i` and nothing ended its stay since. */
  predicate Stays(ops: seq<Operation>, key: string, i: nat)
    requires i < |ops|
  {
    ops[i].Set? && ops[i].key == key && forall j :: i < j < |ops| ==> !Ends(ops[j], key, ops[i].now)
  }

  lemma StaysOn(ops: seq<Operation>, op: Operation, key: string, i: nat)
    requires i < |ops|
    ensures Stays(ops + [op], key, i) <==> Stays(ops, key, i) && !Ends(op, key, ops[i].now)
  {
    var more := ops + [op];
    assert more[|ops|] == op && more[i] == ops[i];
    if Stays(more, key, i) {
      forall j | i < j < |ops| ensures !Ends(ops[j], key, ops[i].now) {
        assert more[j] == ops[j];
      }
    }
  }

  /**
   A draft is held exactly from the step that wrote it until it is written again, removed, cleared, or
   a sweep comes thirty minutes or more later: no other operation, and no other key, takes it away.
   */
  lemma {:induction false} HeldIff(ops: seq<Operation>, key: string, entry: Entry)
    ensures key in AfterAll(ops) && AfterAll(ops)[key] == entry <==>
      exists i :: 0 <= i < |ops| && Stays(ops, key, i) && entry == Entry(ops[i].value, ops[i].now + 1_800_000)
  {
    if ops != [] {
      var before, op := ops[..|ops| - 1], ops[|ops| - 1];
      assert ops == before + [op];
      HeldIff(before, key, entry);
      forall i | 0 <= i < |before| ensures Stays(ops, key, i) <==> Stays(before, key, i) && !Ends(op, key, before[i].now) {
        StaysOn(before, op, key, i);
      }
      if key in AfterAll(ops) && AfterAll(ops)[key] == entry {
        if op.Set? && op.key == key {
          assert Stays(ops, key, |before|);
        } else {
          var i :| 0 <= i < |before| && Stays(before, key, i) && entry == Entry(before[i].value, before[i].now + 1_800_000);
          assert Stays(ops, key, i);
        }
      }
      if i :| 0 <= i < |ops| && Stays(ops, key, i) && entry == Entry(ops[i].value, ops[i].now + 1_800_000) {
        if i < |before| {
          assert Stays(before, key, i);
        }
      }
    }
  }

  /** There is a value exactly when a step wrote one that stays, and it is that step's. */
  ghost predicate GivesWhatStays(ops: seq<Operation>, key: string, value: Option<string>) {
    && (value.Some? <==> exists i :: 0 <= i < |ops| && Stays(ops, key, i))
    && (forall i :: 0 <= i < |ops| && Stays(ops, key, i) ==> value == Some(ops[i].value))
  }

  lemma EntryIsWhatStays(ops: seq<Operation>, key: string)
    ensures GivesWhatStays(ops, key, if key in AfterAll(ops) then Some(AfterAll(ops)[key].value) else None)
  {
    if key in AfterAll(ops) {
      HeldIff(ops, key, AfterAll(ops)[key]);
    }
    forall i | 0 <= i < |ops| && Stays(ops, key, i) ensures key in AfterAll(ops) && AfterAll(ops)[key].value == ops[i].value {
      HeldIff(ops, key, Entry(ops[i].value, ops[i].now + 1_800_000));
    }
  }
}
