/**
 Queueing a reviewed import (queueImport in src/components/ContactImportWizardV2.tsx) on a server that
 keeps one batch for each import identifier (queueContactImportBatch in src/lib/contact-import-jobs.ts).
 A press of the button may not reach the server, and its answer may be lost on the way back.
 */
module ImportQueue {
  import opened Options
  import opened ImportReview

  datatype Item = Item(row: Row, resolution: Resolution)

  datatype Failure = Failure(rowId: string, sourceRow: nat, errors: seq<string>)

  datatype Payload = Payload(items: seq<Item>, initial: seq<Failure>)

  datatype Result = Result(rowId: string, failed: bool)

  /** A queued import as the page knows it. */
  datatype Batch = Batch(importId: string, results: seq<Result>)

  function ItemFor(r: Row, resolutions: Resolutions): Item {
    Item(r, if r.id in resolutions then resolutions[r.id] else Resolution(r.id, Skip, None))
  }

  function ItemsFor(rows: seq<Row>, resolutions: Resolutions): seq<Item> {
    seq(|rows|, k requires 0 <= k < |rows| => ItemFor(rows[k], resolutions))
  }

  function FailuresOf(rows: seq<Row>): seq<Failure> {
    seq(|rows|, k requires 0 <= k < |rows| => Failure(rows[k].id, rows[k].sourceRow, rows[k].errors))
  }

  function FullPayload(r: Review): Payload {
    Payload(ItemsFor(Valid(r.rows), r.resolutions), FailuresOf(Invalid(r.rows)))
  }

  function FailedIds(b: Batch): set<string> {
    set result | result in b.results && result.failed :: result.rowId
  }

  function Among(rows: seq<Row>, ids: set<string>): seq<Row> {
    if rows == [] then []
    else Among(rows[..|rows| - 1], ids) + (if rows[|rows| - 1].id in ids then [rows[|rows| - 1]] else [])
  }

  function RetryPayload(r: Review, b: Batch): Payload {
    Payload(ItemsFor(Among(Valid(r.rows), FailedIds(b)), r.resolutions), [])
  }

  /** What a press sends; without a batch to retry, it is the whole import. */
  function PayloadOf(r: Review, batch: Option<Batch>, onlyFailed: bool): Payload {
    if onlyFailed && batch.Some? then RetryPayload(r, batch.value) else FullPayload(r)
  }

  class QueueButton {
    var importId: string
    var batch: Option<Batch>
    var error: bool

    constructor (importId: string)
      ensures this.importId == importId && batch == None && !error
    {
      this.importId, batch, error := importId, None, false;
    }

    /** One press; `newId` is a new identifier, and the answer is none when the request fails. */
    method QueueImport(review: Review, onlyFailed: bool, newId: string, answer: Option<Batch>)
      returns (sentId: string, payload: Payload)
      modifies this
      ensures sentId == (if onlyFailed then newId else old(importId)) && payload == PayloadOf(review, old(batch), onlyFailed)
      ensures importId == (if answer.Some? then sentId else old(importId)) && batch == (if answer.Some? then answer else old(batch))
      ensures error == answer.None?
    {
      error := false;
      var validRows := Valid(review.rows);
      if onlyFailed && batch.Some? {
        payload := Payload(ItemsFor(Among(validRows, FailedIds(batch.value)), review.resolutions), []);
      } else {
        payload := Payload(ItemsFor(validRows, review.resolutions), FailuresOf(Invalid(review.rows)));
      }
      sentId := if onlyFailed then newId else importId;
      if answer.Some? {
        importId, batch := sentId, answer;
      } else {
        error := true;
      }
    }
  }

  // ----- Every prepared row once -----

  function IdList(rows: seq<Row>): seq<string> {
    seq(|rows|, k requires 0 <= k < |rows| => rows[k].id)
  }

  function PayloadIds(p: Payload): seq<string> {
    seq(|p.items|, k requires 0 <= k < |p.items| => p.items[k].row.id) +
    seq(|p.initial|, k requires 0 <= k < |p.initial| => p.initial[k].rowId)
  }

  lemma IdListOneMore(rows: seq<Row>, r: Row)
    ensures IdList(rows + [r]) == IdList(rows) + [r.id]
  {
  }

  lemma OneMore(a: seq<string>, b: seq<string>, c: seq<string>, id: string)
    requires multiset(a) + multiset(b) == multiset(c)
    ensures multiset(a + [id]) + multiset(b) == multiset(c + [id])
    ensures multiset(a) + multiset(b + [id]) == multiset(c + [id])
  {
  }

  lemma {:induction false} IdsAreSplit(rows: seq<Row>)
    ensures multiset(IdList(Valid(rows))) + multiset(IdList(Invalid(rows))) == multiset(IdList(rows))
  {
    if rows != [] {
      var before, last := rows[..|rows| - 1], rows[|rows| - 1];
      IdsAreSplit(before);
      assert rows == before + [last];
      OneMore(IdList(Valid(before)), IdList(Invalid(before)), IdList(before), last.id);
      IdListOneMore(before, last);
      if last.errors == [] {
        IdListOneMore(Valid(before), last);
        assert Invalid(rows) == Invalid(before) && Valid(rows) == Valid(before) + [last];
      } else {
        IdListOneMore(Invalid(before), last);
        assert Valid(rows) == Valid(before) && Invalid(rows) == Invalid(before) + [last];
      }
    }
  }

  lemma {:induction false} SplitByErrors(rows: seq<Row>)
    ensures forall k :: 0 <= k < |Valid(rows)| ==> Valid(rows)[k].errors == []
    ensures forall k :: 0 <= k < |Invalid(rows)| ==> Invalid(rows)[k].errors != []
  {
    if rows != [] {
      SplitByErrors(rows[..|rows| - 1]);
    }
  }

  /**
   Conservation: a queued import names every prepared row exactly as often as the file does, the valid
   ones as items with their decisions and the others as failures.
   */
  lemma FullPayloadConservesRows(r: Review)
    ensures multiset(PayloadIds(FullPayload(r))) == multiset(IdList(r.rows))
    ensures forall i :: 0 <= i < |FullPayload(r).items| ==>
      AsDecided(FullPayload(r).items[i], r.resolutions) && FullPayload(r).items[i].row.errors == []
    ensures forall i :: 0 <= i < |FullPayload(r).initial| ==> FullPayload(r).initial[i].errors != []
  {
    IdsAreSplit(r.rows);
    SplitByErrors(r.rows);
    assert PayloadIds(FullPayload(r)) == IdList(Valid(r.rows)) + IdList(Invalid(r.rows));
  }

  /** The decision in force for a row, or to skip it. */
  predicate AsDecided(item: Item, resolutions: Resolutions) {
    item.resolution == if item.row.id in resolutions then resolutions[item.row.id] else Resolution(item.row.id, Skip, None)
  }

  /** The rows at these places of a list, one after another. */
  predicate AtPlaces(some: seq<Row>, all: seq<Row>, places: seq<nat>) {
    && |places| == |some|
    && (forall k :: 0 <= k < |places| ==> places[k] < |all| && some[k] == all[places[k]])
    && (forall j, k :: 0 <= j < k < |places| ==> places[j] < places[k])
  }

  /** Rows of a list, each once and in its order. */
  ghost predicate InOrder(some: seq<Row>, all: seq<Row>) {
    exists places: seq<nat> :: AtPlaces(some, all, places)
  }

  lemma OrderOneMore(some: seq<Row>, all: seq<Row>, last: Row, kept: bool)
    requires InOrder(some, all)
    ensures InOrder(some + (if kept then [last] else []), all + [last])
  {
    assert some + [] == some;
    var places: seq<nat> :| AtPlaces(some, all, places);
    assert AtPlaces(some, all + [last], places);
    assert AtPlaces(some + [last], all + [last], places + [|all|]);
  }

  lemma {:induction false} ValidInOrder(rows: seq<Row>)
    ensures InOrder(Valid(rows), rows) && InOrder(Invalid(rows), rows)
  {
    if rows == [] {
      assert AtPlaces([], rows, []);
    } else {
      var before, last := rows[..|rows| - 1], rows[|rows| - 1];
      assert rows == before + [last];
      ValidInOrder(before);
      OrderOneMore(Valid(before), before, last, last.errors == []);
      OrderOneMore(Invalid(before), before, last, last.errors != []);
    }
  }

  lemma {:induction false} AmongInOrder(rows: seq<Row>, ids: set<string>)
    ensures InOrder(Among(rows, ids), rows)
  {
    if rows == [] {
      assert AtPlaces([], rows, []);
    } else {
      var before, last := rows[..|rows| - 1], rows[|rows| - 1];
      assert rows == before + [last];
      AmongInOrder(before, ids);
      OrderOneMore(Among(before, ids), before, last, last.id in ids);
    }
  }

  function RowsOf(items: seq<Item>): seq<Row> {
    seq(|items|, k requires 0 <= k < |items| => items[k].row)
  }

  /** The failures say of each row where it stood and what was wrong. */
  predicate TellsOf(failures: seq<Failure>, rows: seq<Row>) {
    |failures| == |rows| && forall k :: 0 <= k < |rows| ==> failures[k] == Failure(rows[k].id, rows[k].sourceRow, rows[k].errors)
  }

  lemma ItemsAreDecided(rows: seq<Row>, resolutions: Resolutions)
    ensures RowsOf(ItemsFor(rows, resolutions)) == rows
    ensures forall item :: item in ItemsFor(rows, resolutions) ==> AsDecided(item, resolutions)
  {
  }

  lemma FailuresTell(rows: seq<Row>)
    ensures TellsOf(FailuresOf(rows), rows)
  {
  }

  ghost predicate TellsInOrder(failures: seq<Failure>, rows: seq<Row>) {
    exists told :: InOrder(told, rows) && TellsOf(failures, told)
  }

  /** A whole import and a retry send rows in the order of the file, each with the decision in force; a retry tells no failures. */
  lemma SentAsDecided(r: Review, b: Batch)
    ensures forall item :: item in FullPayload(r).items || item in RetryPayload(r, b).items ==> AsDecided(item, r.resolutions)
    ensures InOrder(RowsOf(FullPayload(r).items), r.rows) && TellsInOrder(FullPayload(r).initial, r.rows)
    ensures InOrder(RowsOf(RetryPayload(r, b).items), Valid(r.rows)) && RetryPayload(r, b).initial == []
  {
    var all, again := Valid(r.rows), Among(Valid(r.rows), FailedIds(b));
    ItemsAreDecided(all, r.resolutions);
    ItemsAreDecided(again, r.resolutions);
    ValidInOrder(r.rows);
    AmongInOrder(all, FailedIds(b));
    FailuresTell(Invalid(r.rows));
  }

  function CountAction(items: seq<Item>, action: Action): nat {
    if items == [] then 0
    else CountAction(items[..|items| - 1], action) + (if items[|items| - 1].resolution.action == action then 1 else 0)
  }

  lemma ItemsOneMore(rows: seq<Row>, r: Row, resolutions: Resolutions, action: Action)
    requires r.id in resolutions
    ensures CountAction(ItemsFor(rows + [r], resolutions), action) ==
      CountAction(ItemsFor(rows, resolutions), action) + (if r.id in Choosing(resolutions, action) then 1 else 0)
  {
    var items := ItemsFor(rows + [r], resolutions);
    assert items[..|items| - 1] == ItemsFor(rows, resolutions);
  }

  lemma ChosenOneMore(chosen: set<string>, ids: set<string>, id: string)
    requires id !in ids
    ensures |chosen * (ids + {id})| == |chosen * ids| + (if id in chosen then 1 else 0)
  {
    assert chosen * (ids + {id}) == (chosen * ids) + (if id in chosen then {id} else {});
  }

  lemma {:induction false} CountIsTheChosen(rows: seq<Row>, resolutions: Resolutions, action: Action)
    requires IdsDiffer(rows) && Ids(rows) <= resolutions.Keys
    ensures CountAction(ItemsFor(rows, resolutions), action) == |Choosing(resolutions, action) * Ids(rows)|
  {
    if rows == [] {
      assert Choosing(resolutions, action) * Ids(rows) == {};
    } else {
      var before, last := rows[..|rows| - 1], rows[|rows| - 1];
      assert rows == before + [last];
      assert Ids(rows) == Ids(before) + {last.id};
      CountIsTheChosen(before, resolutions, action);
      ItemsOneMore(before, last, resolutions, action);
      ChosenOneMore(Choosing(resolutions, action), Ids(before), last.id);
    }
  }

  /** The counts on the button are the counts of the queued items, once decisions are about valid rows only. */
  lemma PlanIsWhatIsQueued(r: Review, action: Action)
    requires IdsDiffer(Valid(r.rows)) && r.resolutions.Keys == Ids(Valid(r.rows))
    ensures CountAction(FullPayload(r).items, action) == Planning(r.resolutions, action)
  {
    CountIsTheChosen(Valid(r.rows), r.resolutions, action);
    assert Choosing(r.resolutions, action) * Ids(Valid(r.rows)) == Choosing(r.resolutions, action);
  }

  lemma {:induction false} AmongAre(rows: seq<Row>, ids: set<string>, row: Row)
    ensures row in Among(rows, ids) <==> row in rows && row.id in ids
  {
    if rows != [] {
      assert rows == rows[..|rows| - 1] + [rows[|rows| - 1]];
      AmongAre(rows[..|rows| - 1], ids, row);
    }
  }

  predicate Queues(p: Payload, row: Row) {
    exists i :: 0 <= i < |p.items| && p.items[i].row == row
  }

  lemma {:induction false} ValidAre(rows: seq<Row>, row: Row)
    ensures row in Valid(rows) <==> row in rows && row.errors == []
  {
    if rows != [] {
      assert rows == rows[..|rows| - 1] + [rows[|rows| - 1]];
      ValidAre(rows[..|rows| - 1], row);
    }
  }

  /** A retry queues exactly the valid rows that failed: no row that was imported, and none the file had wrong. */
  lemma RetryQueuesTheFailedRows(r: Review, b: Batch, row: Row)
    ensures Queues(RetryPayload(r, b), row) <==> row in r.rows && row.errors == [] && row.id in FailedIds(b)
  {
    var chosen := Among(Valid(r.rows), FailedIds(b));
    AmongAre(Valid(r.rows), FailedIds(b), row);
    ValidAre(r.rows, row);
    if row in chosen {
      var i :| 0 <= i < |chosen| && chosen[i] == row;
      assert RetryPayload(r, b).items[i].row == row;
    }
  }

  // ----- The server -----

  const MAX_IMPORT_ROWS := 5000

  predicate AllDiffer(ids: seq<string>) {
    forall i, j :: 0 <= i < j < |ids| ==> ids[i] != ids[j]
  }

  predicate AllSized(ids: seq<string>) {
    forall i :: 0 <= i < |ids| ==> 1 <= |ids[i]| <= 160
  }

  /** What the server asks of a payload. */
  predicate Accepts(p: Payload) {
    && 1 <= |p.items| + |p.initial| <= MAX_IMPORT_ROWS
    && AllSized(PayloadIds(p))
    && AllDiffer(PayloadIds(p))
    && (forall i :: 0 <= i < |p.items| ==> p.items[i].resolution.rowId == p.items[i].row.id)
  }

  lemma OwnIdsAreAsked(r: Review)
    ensures (forall i :: 0 <= i < |FullPayload(r).items| ==> FullPayload(r).items[i].resolution.rowId == FullPayload(r).items[i].row.id) <==>
      (forall row :: row in r.rows && row.errors == [] && row.id in r.resolutions ==> r.resolutions[row.id].rowId == row.id)
  {
    var items, valid := FullPayload(r).items, Valid(r.rows);
    assert |items| == |valid| && forall i :: 0 <= i < |items| ==> items[i] == ItemFor(valid[i], r.resolutions);
    forall row ensures row in valid <==> row in r.rows && row.errors == [] {
      ValidAre(r.rows, row);
    }
    if forall i :: 0 <= i < |items| ==> items[i].resolution.rowId == items[i].row.id {
      forall row | row in r.rows && row.errors == [] && row.id in r.resolutions ensures r.resolutions[row.id].rowId == row.id {
        var i :| 0 <= i < |valid| && valid[i] == row;
        assert items[i].resolution.rowId == items[i].row.id;
      }
    } else {
      var i :| 0 <= i < |items| && items[i].resolution.rowId != items[i].row.id;
      assert valid[i] in r.rows;
    }
  }

  lemma {:induction false} DifferByMultiset(ids: seq<string>)
    ensures AllDiffer(ids) <==> forall id :: id in multiset(ids) ==> multiset(ids)[id] == 1
  {
    if ids != [] {
      var before, last := ids[..|ids| - 1], ids[|ids| - 1];
      assert ids == before + [last];
      DifferByMultiset(before);
      if AllDiffer(ids) {
        assert last !in before;
        forall id | id in multiset(ids) ensures multiset(ids)[id] == 1 {
          assert id in multiset(before) || id == last;
        }
      } else if AllDiffer(before) {
        assert last in before;
        assert multiset(ids)[last] == multiset(before)[last] + 1 == 2;
      } else {
        var id :| id in multiset(before) && multiset(before)[id] != 1;
        assert multiset(ids)[id] >= 2;
      }
    }
  }

  lemma SizedBySame(a: seq<string>, b: seq<string>)
    requires multiset(a) == multiset(b) && AllSized(a)
    ensures AllSized(b)
  {
    forall i | 0 <= i < |b| ensures 1 <= |b[i]| <= 160 {
      assert b[i] in multiset(a);
    }
  }

  /** The server takes the whole import exactly when the file's identifiers differ and it has one to five thousand rows. */
  lemma FullPayloadIsAcceptedIff(r: Review)
    ensures Accepts(FullPayload(r)) <==>
      && 1 <= |r.rows| <= 5000 && AllSized(IdList(r.rows)) && AllDiffer(IdList(r.rows))
      && (forall row :: row in r.rows && row.errors == [] && row.id in r.resolutions ==> r.resolutions[row.id].rowId == row.id)
  {
    OwnIdsAreAsked(r);
    var p := FullPayload(r);
    var ids, all := PayloadIds(p), IdList(r.rows);
    FullPayloadConservesRows(r);
    RowsSplit(r.rows);
    DifferByMultiset(ids);
    DifferByMultiset(all);
    if AllSized(ids) {
      SizedBySame(ids, all);
    }
    if AllSized(all) {
      SizedBySame(all, ids);
    }
    assert |p.items| + |p.initial| == |r.rows|;
  }

  // ----- Runs -----

  datatype Stored = Stored(payload: Payload, results: seq<Result>)

  datatype System = System(review: Review, importId: string, batch: Option<Batch>, server: map<string, Stored>)

  datatype Fate = NeverArrived | AnswerLost | Heard

  datatype Happening =
    | Pressed(onlyFailed: bool, newId: string, fate: Fate)
    | Decides(decision: Decision)
    | Worked(importId: string, results: seq<Result>)

  function InitialResults(p: Payload): seq<Result> {
    seq(|p.initial|, k requires 0 <= k < |p.initial| => Result(p.initial[k].rowId, true))
  }

  /** The server keeps the batch it has under an identifier; otherwise it stores what it accepts. */
  function Queued(server: map<string, Stored>, importId: string, p: Payload): map<string, Stored> {
    if importId in server || !Accepts(p) then server else server[importId := Stored(p, InitialResults(p))]
  }

  function Apply(s: System, h: Happening): System {
    match h
    case Pressed(onlyFailed, newId, fate) =>
      var id := if onlyFailed then newId else s.importId;
      var server := Queued(s.server, id, PayloadOf(s.review, s.batch, onlyFailed));
      if fate.NeverArrived? then s
      else if fate.AnswerLost? || id !in server then s.(server := server)
      else s.(server := server, importId := id, batch := Some(Batch(id, server[id].results)))
    case Decides(d) => s.(review := s.review.(resolutions := Updated(s.review.resolutions, d.rowId, d.patch)))
    case Worked(id, results) =>
      if id !in s.server then s
      else s.(server := s.server[id := s.server[id].(results := results)],
              batch := if s.batch.Some? && s.batch.value.importId == id then Some(Batch(id, results)) else s.batch)
  }

  function After(s: System, hs: seq<Happening>): System {
    if hs == [] then s else Apply(After(s, hs[..|hs| - 1]), hs[|hs| - 1])
  }

  /** A new batch has failed exactly for the rows that were wrong. */
  lemma WrongRowsHaveFailed(importId: string, p: Payload, rowId: string)
    ensures rowId in FailedIds(Batch(importId, InitialResults(p))) <==> exists i :: 0 <= i < |p.initial| && p.initial[i].rowId == rowId
  {
    if i :| 0 <= i < |p.initial| && p.initial[i].rowId == rowId {
      assert InitialResults(p)[i] in InitialResults(p);
    }
  }

  /** What the page shows of its batch is what the server has of it. */
  predicate BatchIsTheServers(s: System) {
    s.batch.Some? ==>
      s.batch.value.importId in s.server && s.batch.value.results == s.server[s.batch.value.importId].results
  }

  lemma {:induction false} PageFollowsTheServer(s: System, hs: seq<Happening>)
    requires BatchIsTheServers(s)
    ensures BatchIsTheServers(After(s, hs))
    decreases |hs|
  {
    if hs != [] {
      PageFollowsTheServer(s, hs[..|hs| - 1]);
    }
  }

  /**
   A press whose answer is heard shows the batch of the identifier it was sent under, which the page keeps
   from then on; one that is not heard, or is refused, leaves the page as it was.
   */
  lemma HeardPressIsShown(s: System, onlyFailed: bool, newId: string, fate: Fate)
    ensures var t := Apply(s, Pressed(onlyFailed, newId, fate)); var id := if onlyFailed then newId else s.importId;
      && t.review == s.review
      && (fate == Heard && id in t.server ==> t.importId == id && t.batch == Some(Batch(id, t.server[id].results)))
      && (fate != Heard || id !in t.server ==> t.importId == s.importId && t.batch == s.batch)
      && (fate == NeverArrived ==> t == s)
  {
  }

  /** A decision changes the review alone, and work on the server the results of its batch alone. */
  lemma OtherEventsStayApart(s: System, d: Decision, importId: string, results: seq<Result>)
    ensures var t := Apply(s, Decides(d)); t == s.(review := t.review) && t.review == s.review.(resolutions := Decided(s.review.resolutions, [d]))
    ensures var t := Apply(s, Worked(importId, results));
      && t.review == s.review && t.importId == s.importId && t.server.Keys == s.server.Keys
      && (forall id :: id in s.server ==>
          t.server[id] == (if id == importId then s.server[id].(results := results) else s.server[id]))
      && (s.batch.Some? && BatchIsTheServers(s) ==> t.batch == Some(s.batch.value.(results := t.server[s.batch.value.importId].results)))
      && (s.batch == None ==> t.batch == None)
  {
    assert Decided(s.review.resolutions, []) == s.review.resolutions;
  }

  predicate ArrivesWhole(s: System, h: Happening) {
    h.Pressed? && !h.onlyFailed && !h.fate.NeverArrived? && Accepts(PayloadOf(s.review, s.batch, false))
  }

  /** The first press that brings the import to the server, if one does. */
  function FirstArrival(s: System, hs: seq<Happening>): Option<Payload> {
    if hs == [] then None
    else
      var first := FirstArrival(s, hs[..|hs| - 1]);
      var before := After(s, hs[..|hs| - 1]);
      if first.Some? then first
      else if ArrivesWhole(before, hs[|hs| - 1]) then Some(FullPayload(before.review))
      else None
  }

  /** The server holds what it held before, and at most one batch more, stored as it first arrived. */
  predicate HoldsOneMore(was: map<string, Stored>, server: map<string, Stored>, importId: string, first: Option<Payload>) {
    && server.Keys == was.Keys + (if first.Some? then {importId} else {})
    && (first.Some? ==> server[importId].payload == first.value)
    && (forall id :: id in was ==> server[id].payload == was[id].payload)
  }

  lemma StepHoldsOneMore(was: map<string, Stored>, s: System, h: Happening, first: Option<Payload>)
    requires s.importId !in was && HoldsOneMore(was, s.server, s.importId, first)
    requires !(h.Pressed? && h.onlyFailed)
    ensures Apply(s, h).importId == s.importId
    ensures HoldsOneMore(was, Apply(s, h).server, s.importId,
      if first.None? && ArrivesWhole(s, h) then Some(FullPayload(s.review)) else first)
  {
  }

  /**
   However often the button is pressed, answers are lost and decisions change, a new import is stored
   at most once, as it was when it first reached the server, and no other batch comes or changes.
   */
  lemma {:induction false} ImportIsQueuedOnce(s: System, hs: seq<Happening>)
    requires s.importId !in s.server
    requires forall i :: 0 <= i < |hs| ==> !(hs[i].Pressed? && hs[i].onlyFailed)
    ensures After(s, hs).importId == s.importId
    ensures HoldsOneMore(s.server, After(s, hs).server, s.importId, FirstArrival(s, hs))
    decreases |hs|
  {
    if hs != [] {
      ImportIsQueuedOnce(s, hs[..|hs| - 1]);
      StepHoldsOneMore(s.server, After(s, hs[..|hs| - 1]), hs[|hs| - 1], FirstArrival(s, hs[..|hs| - 1]));
    }
  }

  // ----- Retrying failed rows -----

  datatype Retry = Retry(newId: string, fate: Fate)

  function Presses(retries: seq<Retry>): seq<Happening> {
    seq(|retries|, k requires 0 <= k < |retries| => Pressed(true, retries[k].newId, retries[k].fate))
  }

  function Arrived(retries: seq<Retry>): set<string> {
    set k | 0 <= k < |retries| && !retries[k].fate.NeverArrived? :: retries[k].newId
  }

  function Arrivals(retries: seq<Retry>): nat {
    if retries == [] then 0
    else Arrivals(retries[..|retries| - 1]) + (if retries[|retries| - 1].fate.NeverArrived? then 0 else 1)
  }

  lemma ArrivedOneMore(before: seq<Retry>, last: Retry)
    ensures Arrived(before + [last]) == Arrived(before) + (if last.fate.NeverArrived? then {} else {last.newId})
  {
    var retries := before + [last];
    assert retries[|before|] == last;
    forall id | id in Arrived(before) ensures id in Arrived(retries) {
      var k :| 0 <= k < |before| && !before[k].fate.NeverArrived? && before[k].newId == id;
      assert retries[k] == before[k];
    }
  }

  ghost predicate AreFresh(retries: seq<Retry>, server: map<string, Stored>) {
    && (forall i :: 0 <= i < |retries| ==> retries[i].newId !in server)
    && (forall i, j :: 0 <= i < j < |retries| ==> retries[i].newId != retries[j].newId)
  }

  /** Each retry that reaches the server unheard stores the failed rows once more, under its own identifier. */
  lemma {:induction false} UnheardRetriesAddUp(s: System, retries: seq<Retry>)
    requires s.batch.Some? && Accepts(RetryPayload(s.review, s.batch.value))
    requires AreFresh(retries, s.server) && forall i :: 0 <= i < |retries| ==> !retries[i].fate.Heard?
    ensures After(s, Presses(retries)).(server := s.server) == s
    ensures var server := After(s, Presses(retries)).server;
      && server.Keys == s.server.Keys + Arrived(retries)
      && (forall id :: id in Arrived(retries) ==> server[id].payload == RetryPayload(s.review, s.batch.value))
    decreases |retries|
  {
    if retries == [] {
      assert After(s, Presses(retries)) == s;
    } else {
      var before, last := retries[..|retries| - 1], retries[|retries| - 1];
      assert Presses(retries)[..|before|] == Presses(before);
      assert retries == before + [last];
      UnheardRetriesAddUp(s, before);
      ArrivedOneMore(before, last);
      assert last.newId !in Arrived(before);
    }
  }

  lemma {:induction false} ArrivedCount(retries: seq<Retry>)
    requires forall i, j :: 0 <= i < j < |retries| ==> retries[i].newId != retries[j].newId
    ensures |Arrived(retries)| == Arrivals(retries)
  {
    if retries != [] {
      var before, last := retries[..|retries| - 1], retries[|retries| - 1];
      ArrivedCount(before);
      assert retries == before + [last];
      ArrivedOneMore(before, last);
      assert last.newId !in Arrived(before);
    }
  }

  /** The batches stored since `s` that hold a row. */
  ghost function NewBatchesWith(s: System, end: System, row: Row): set<string> {
    set id | id in end.server && id !in s.server && Queues(end.server[id].payload, row)
  }

  lemma PressesOneMore(s: System, retries: seq<Retry>, last: Retry)
    ensures After(s, Presses(retries + [last])) == Apply(After(s, Presses(retries)), Pressed(true, last.newId, last.fate))
  {
    assert Presses(retries + [last])[..|retries|] == Presses(retries);
  }

  lemma RetryIsStored(s: System, newId: string)
    requires s.batch.Some? && Accepts(RetryPayload(s.review, s.batch.value)) && newId !in s.server
    ensures Apply(s, Pressed(true, newId, Heard)).server == s.server[newId := Stored(RetryPayload(s.review, s.batch.value), [])]
  {
    assert InitialResults(RetryPayload(s.review, s.batch.value)) == [];
  }

  lemma FreshApart(unheard: seq<Retry>, last: Retry, server: map<string, Stored>)
    requires AreFresh(unheard + [last], server)
    ensures AreFresh(unheard, server) && last.newId !in server && last.newId !in Arrived(unheard)
  {
    var retries, n := unheard + [last], |unheard|;
    assert retries[n] == last;
    forall i | 0 <= i < n ensures unheard[i].newId !in server && unheard[i].newId != last.newId {
      assert retries[i] == unheard[i] && retries[i].newId != retries[n].newId;
    }
    forall i, j | 0 <= i < j < n ensures unheard[i].newId != unheard[j].newId {
      assert retries[i].newId != retries[j].newId;
    }
  }

  lemma ArrivedAreNew(unheard: seq<Retry>, server: map<string, Stored>)
    requires AreFresh(unheard, server)
    ensures Arrived(unheard) !! server.Keys && |Arrived(unheard)| == Arrivals(unheard)
  {
    ArrivedCount(unheard);
  }

  lemma AnsweredRetryIsStored(s: System, unheard: seq<Retry>, newId: string)
    requires s.batch.Some? && Accepts(RetryPayload(s.review, s.batch.value))
    requires AreFresh(unheard, s.server) && newId !in s.server && newId !in Arrived(unheard)
    requires forall i :: 0 <= i < |unheard| ==> !unheard[i].fate.Heard?
    ensures var server := After(s, Presses(unheard + [Retry(newId, Heard)])).server;
      && server.Keys == s.server.Keys + Arrived(unheard) + {newId}
      && (forall id :: id in Arrived(unheard) + {newId} ==> server[id].payload == RetryPayload(s.review, s.batch.value))
  {
    UnheardRetriesAddUp(s, unheard);
    PressesOneMore(s, unheard, Retry(newId, Heard));
    RetryIsStored(After(s, Presses(unheard)), newId);
  }

  lemma NewBatchesAre(s: System, end: System, ids: set<string>, row: Row)
    requires end.server.Keys == s.server.Keys + ids && ids !! s.server.Keys
    requires forall id :: id in ids ==> Queues(end.server[id].payload, row)
    ensures NewBatchesWith(s, end, row) == ids
  {
  }

  lemma NewBatchesCount(s: System, end: System, arrived: set<string>, newId: string, p: Payload, row: Row)
    requires end.server.Keys == s.server.Keys + arrived + {newId} && (arrived + {newId}) !! s.server.Keys && newId !in arrived
    requires Queues(p, row) && forall id :: id in arrived + {newId} ==> end.server[id].payload == p
    ensures |NewBatchesWith(s, end, row)| == |arrived| + 1
  {
    NewBatchesAre(s, end, arrived + {newId}, row);
  }

  /**
   A failed row that is pressed to be retried, any number of times without an answer and then with one,
   is queued once more for every press that reached the server: exactly once if, and only if, none of
   the presses before the answered one did.
   */
  lemma FailedRowIsRetriedOnceIff(s: System, unheard: seq<Retry>, newId: string, row: Row)
    requires s.batch.Some? && Accepts(RetryPayload(s.review, s.batch.value))
    requires AreFresh(unheard + [Retry(newId, Heard)], s.server)
    requires forall i :: 0 <= i < |unheard| ==> !unheard[i].fate.Heard?
    requires row in s.review.rows && row.errors == [] && row.id in FailedIds(s.batch.value)
    ensures |NewBatchesWith(s, After(s, Presses(unheard + [Retry(newId, Heard)])), row)| == Arrivals(unheard) + 1
    ensures |NewBatchesWith(s, After(s, Presses(unheard + [Retry(newId, Heard)])), row)| == 1 <==>
      forall i :: 0 <= i < |unheard| ==> unheard[i].fate.NeverArrived?
  {
    var end := After(s, Presses(unheard + [Retry(newId, Heard)]));
    FreshApart(unheard, Retry(newId, Heard), s.server);
    ArrivedAreNew(unheard, s.server);
    AnsweredRetryIsStored(s, unheard, newId);
    RetryQueuesTheFailedRows(s.review, s.batch.value, row);
    NewBatchesCount(s, end, Arrived(unheard), newId, RetryPayload(s.review, s.batch.value), row);
    NoneArrivedIff(unheard);
  }

  lemma {:induction false} NoneArrivedIff(retries: seq<Retry>)
    ensures Arrivals(retries) == 0 <==> forall i :: 0 <= i < |retries| ==> retries[i].fate.NeverArrived?
  {
    if retries != [] {
      assert retries == retries[..|retries| - 1] + [retries[|retries| - 1]];
      NoneArrivedIff(retries[..|retries| - 1]);
    }
  }
}
