/**
 The Next summary's snapshot and settlement receipts (src/components/NextAction.tsx), with the rule
 that leaves settled work out of a projection (src/lib/next-action.ts). Events and reads arrive in
 any order and any number of times. Instants are the milliseconds a date text parses to.
 */
module Settlement {
  import opened Options

  /** A server version of a follow-up: its text and the instant the text names. */
  datatype Version = Version(text: string, at: int)

  /** What a page hears: a follow-up settled, perhaps with no usable version, or reopened. */
  datatype Event =
    | Settled(jumpId: string, version: Option<Version>)
    | Reopened(jumpId: string)

  type Receipts = map<string, Option<Version>>

  function Received(settled: Receipts, e: Event): Receipts {
    match e
    case Reopened(jumpId) => settled - {jumpId}
    case Settled(jumpId, version) =>
      if jumpId !in settled then settled[jumpId := version]
      else if settled[jumpId].None? then settled
      else if version.None? || version.value.at > settled[jumpId].value.at then settled[jumpId := version]
      else settled
  }

  function AllReceived(settled: Receipts, es: seq<Event>): Receipts
    decreases |es|
  {
    if es == [] then settled else AllReceived(Received(settled, es[0]), es[1..])
  }

  /** An obligation as a read shows it, and a read. */
  datatype Item = Item(id: string, jumpId: Option<string>, updatedAt: int)

  datatype Projection = Projection(observedAt: int, items: seq<Item>)

  function Latest(snapshot: Projection, projection: Projection): Projection {
    if projection != snapshot && projection.observedAt >= snapshot.observedAt then projection else snapshot
  }

  function LatestOf(snapshot: Projection, arrivals: seq<Projection>): Projection
    decreases |arrivals|
  {
    if arrivals == [] then snapshot else LatestOf(Latest(snapshot, arrivals[0]), arrivals[1..])
  }

  class NextActionSummary {
    var snapshot: Projection
    var settled: Receipts

    constructor (projection: Projection)
      ensures snapshot == projection && settled == map[]
    {
      snapshot, settled := projection, map[];
    }

    method Render(projection: Projection)
      modifies this`snapshot
      ensures snapshot == Latest(old(snapshot), projection)
    {
      if projection != snapshot && projection.observedAt >= snapshot.observedAt {
        snapshot := projection;
      }
    }

    method OnChange(e: Event)
      modifies this`settled
      ensures settled == Received(old(settled), e)
    {
      var versions := settled;
      match e {
        case Reopened(jumpId) =>
          versions := versions - {jumpId};
        case Settled(jumpId, version) =>
          if jumpId !in versions {
            versions := versions[jumpId := version];
          } else {
            var previous := versions[jumpId];
            if previous.Some? && (version.None? || version.value.at > previous.value.at) {
              versions := versions[jumpId := version];
            }
          }
      }
      settled := versions;
    }
  }

  // ----- Convergence -----

  /** What a receipt says: nothing, settled up to an instant, or settled until it is reopened. */
  datatype Receipt = Absent | UpTo(at: int) | UntilReopened

  function ReceiptOf(settled: Receipts, jumpId: string): Receipt {
    if jumpId !in settled then Absent
    else if settled[jumpId].None? then UntilReopened
    else UpTo(settled[jumpId].value.at)
  }

  predicate AtMost(a: Receipt, b: Receipt) {
    a.Absent? || b.UntilReopened? || (a.UpTo? && b.UpTo? && a.at <= b.at)
  }

  function SaidBy(e: Event): Receipt {
    if e.Reopened? then Absent else if e.version.None? then UntilReopened else UpTo(e.version.value.at)
  }

  /** The settlements of one follow-up, as a set: neither order nor repetition is left. */
  function SettlementsOf(es: seq<Event>, jumpId: string): set<Receipt> {
    set e | e in es && e.Settled? && e.jumpId == jumpId :: SaidBy(e)
  }

  /** The greatest of a set of receipts: unversioned is top, otherwise the latest instant. */
  ghost predicate IsGreatest(r: Receipt, said: set<Receipt>) {
    && (forall s :: s in said ==> AtMost(s, r))
    && (r in said || (r.Absent? && said == {}))
  }

  lemma GreatestIsUnique(r: Receipt, s: Receipt, said: set<Receipt>)
    requires Absent !in said && IsGreatest(r, said) && IsGreatest(s, said)
    ensures r == s
  {
    if r in said {
      assert AtMost(r, s) && AtMost(s, r);
    }
  }

  lemma ReceivedIsTheGreater(settled: Receipts, e: Event, jumpId: string)
    requires e != Reopened(jumpId)
    ensures ReceiptOf(Received(settled, e), jumpId) ==
      if e.Settled? && e.jumpId == jumpId && AtMost(ReceiptOf(settled, jumpId), SaidBy(e)) then SaidBy(e)
      else ReceiptOf(settled, jumpId)
  {
  }

  lemma {:induction false} ReceiptIsTheGreatest(settled: Receipts, es: seq<Event>, jumpId: string)
    requires Reopened(jumpId) !in es
    ensures IsGreatest(ReceiptOf(AllReceived(settled, es), jumpId),
      SettlementsOf(es, jumpId) + (if jumpId in settled then {ReceiptOf(settled, jumpId)} else {}))
    decreases |es|
  {
    if es == [] {
      assert SettlementsOf(es, jumpId) == {};
    } else {
      var next := Received(settled, es[0]);
      assert es == [es[0]] + es[1..];
      ReceivedIsTheGreater(settled, es[0], jumpId);
      ReceiptIsTheGreatest(next, es[1..], jumpId);
      assert SettlementsOf(es, jumpId) ==
        SettlementsOf(es[1..], jumpId) + SettlementsOf([es[0]], jumpId);
      assert SettlementsOf([es[0]], jumpId) ==
        if es[0].Settled? && es[0].jumpId == jumpId then {SaidBy(es[0])} else {};
    }
  }

  /** The events after the last reopening of a follow-up. */
  function SinceReopened(es: seq<Event>, jumpId: string): seq<Event>
    decreases |es|
  {
    if es == [] then []
    else if es[|es| - 1] == Reopened(jumpId) then []
    else SinceReopened(es[..|es| - 1], jumpId) + [es[|es| - 1]]
  }

  lemma {:induction false} ReceivedOneMore(settled: Receipts, es: seq<Event>, e: Event)
    ensures AllReceived(settled, es + [e]) == Received(AllReceived(settled, es), e)
    decreases |es|
  {
    if es == [] {
      assert es + [e] == [e];
      assert AllReceived(Received(settled, e), [e][1..]) == Received(settled, e);
    } else {
      assert (es + [e])[1..] == es[1..] + [e];
      ReceivedOneMore(Received(settled, es[0]), es[1..], e);
    }
  }

  lemma {:induction false} OnlyEventsSinceReopeningCount(es: seq<Event>, jumpId: string)
    ensures Reopened(jumpId) !in SinceReopened(es, jumpId)
    ensures ReceiptOf(AllReceived(map[], es), jumpId) == ReceiptOf(AllReceived(map[], SinceReopened(es, jumpId)), jumpId)
    decreases |es|
  {
    if es != [] {
      var before, e := es[..|es| - 1], es[|es| - 1];
      assert es == before + [e];
      ReceivedOneMore(map[], before, e);
      OnlyEventsSinceReopeningCount(before, jumpId);
      if e != Reopened(jumpId) {
        ReceivedOneMore(map[], SinceReopened(before, jumpId), e);
        ReceivedIsTheGreater(AllReceived(map[], before), e, jumpId);
        ReceivedIsTheGreater(AllReceived(map[], SinceReopened(before, jumpId)), e, jumpId);
      }
    }
  }

  /**
   Convergence: whatever order events arrive in and however often, a follow-up's receipt is the same
   when the same settlements were heard since it was last reopened.
   */
  lemma ReceiptsConverge(es: seq<Event>, fs: seq<Event>, jumpId: string)
    requires SettlementsOf(SinceReopened(es, jumpId), jumpId) == SettlementsOf(SinceReopened(fs, jumpId), jumpId)
    ensures ReceiptOf(AllReceived(map[], es), jumpId) == ReceiptOf(AllReceived(map[], fs), jumpId)
  {
    var x, y := SinceReopened(es, jumpId), SinceReopened(fs, jumpId);
    OnlyEventsSinceReopeningCount(es, jumpId);
    OnlyEventsSinceReopeningCount(fs, jumpId);
    ReceiptIsTheGreatest(map[], x, jumpId);
    ReceiptIsTheGreatest(map[], y, jumpId);
    assert SettlementsOf(x, jumpId) + {} == SettlementsOf(x, jumpId);
    GreatestIsUnique(ReceiptOf(AllReceived(map[], x), jumpId), ReceiptOf(AllReceived(map[], y), jumpId), SettlementsOf(x, jumpId));
  }

  /** Only the text kept for an instant depends on the order, exactly when two texts name one instant. */
  lemma OrderShowsInTheTextIff(jumpId: string, a: Option<Version>, b: Option<Version>)
    ensures AllReceived(map[], [Settled(jumpId, a), Settled(jumpId, b)]) == AllReceived(map[], [Settled(jumpId, b), Settled(jumpId, a)])
      <==> !(a.Some? && b.Some? && a.value.at == b.value.at && a.value.text != b.value.text)
  {
    TwoReceived(jumpId, a, b);
    TwoReceived(jumpId, b, a);
    var m: Receipts := map[];
    assert m[jumpId := Kept(a, b)] == m[jumpId := Kept(b, a)] <==> Kept(a, b) == Kept(b, a) by {
      assert m[jumpId := Kept(a, b)][jumpId] == Kept(a, b);
      assert m[jumpId := Kept(b, a)][jumpId] == Kept(b, a);
    }
  }

  /** What is kept of two settlements of one follow-up, in the order they came. */
  function Kept(first: Option<Version>, second: Option<Version>): Option<Version> {
    if first.None? then None
    else if second.None? || second.value.at > first.value.at then second
    else first
  }

  lemma TwoReceived(jumpId: string, a: Option<Version>, b: Option<Version>)
    ensures AllReceived(map[], [Settled(jumpId, a), Settled(jumpId, b)]) == map[jumpId := Kept(a, b)]
  {
    var x, y := Settled(jumpId, a), Settled(jumpId, b);
    var once := Received(map[], x);
    assert once == map[jumpId := a];
    assert [x, y][1..] == [y] && [y][1..] == [];
    assert AllReceived(map[], [x, y]) == AllReceived(once, [y]) == Received(once, y);
  }

  // ----- What is shown -----

  predicate NewerThan(item: Item, version: Option<Version>, observedAt: int) {
    version.Some? && item.updatedAt > version.value.at && observedAt > version.value.at
  }

  predicate HidesItsFollowUp(item: Item, settled: Receipts, observedAt: int) {
    item.jumpId.Some? && item.jumpId.value in settled && !NewerThan(item, settled[item.jumpId.value], observedAt)
  }

  function SettledIds(p: Projection, settled: Receipts): set<string> {
    set i | 0 <= i < |p.items| && HidesItsFollowUp(p.items[i], settled, p.observedAt) :: p.items[i].jumpId.value
  }

  function Without(items: seq<Item>, ids: set<string>): seq<Item> {
    if items == [] then []
    else if items[0].jumpId.None? || items[0].jumpId.value !in ids then [items[0]] + Without(items[1..], ids)
    else Without(items[1..], ids)
  }

  function Shown(p: Projection, settled: Receipts): seq<Item> {
    Without(p.items, SettledIds(p, settled))
  }

  /** What is shown of a read depends on the receipts alone, so it converges with them. */
  lemma ShownConverges(p: Projection, settled: Receipts, other: Receipts)
    requires forall jumpId :: ReceiptOf(settled, jumpId) == ReceiptOf(other, jumpId)
    ensures Shown(p, settled) == Shown(p, other)
  {
    forall i | 0 <= i < |p.items|
      ensures HidesItsFollowUp(p.items[i], settled, p.observedAt) <==> HidesItsFollowUp(p.items[i], other, p.observedAt)
    {
      if p.items[i].jumpId.Some? {
        assert ReceiptOf(settled, p.items[i].jumpId.value) == ReceiptOf(other, p.items[i].jumpId.value);
      }
    }
    assert SettledIds(p, settled) == SettledIds(p, other);
  }

  lemma {:induction false} WithoutLeavesNone(items: seq<Item>, ids: set<string>, item: Item)
    ensures item in Without(items, ids) <==> item in items && (item.jumpId.None? || item.jumpId.value !in ids)
  {
    if items != [] {
      WithoutLeavesNone(items[1..], ids, item);
      assert items == [items[0]] + items[1..];
    }
  }

  /** Where the items are kept, as many as were kept before. */
  function PlaceOf(items: seq<Item>, ids: set<string>, k: nat): nat
    requires k <= |items|
  {
    if k == 0 then 0
    else PlaceOf(items, ids, k - 1) + (if items[k - 1].jumpId.None? || items[k - 1].jumpId.value !in ids then 1 else 0)
  }

  lemma {:induction false} PlaceOfTheRest(items: seq<Item>, ids: set<string>, k: nat)
    requires 1 <= k <= |items|
    ensures PlaceOf(items, ids, k) == PlaceOf(items[1..], ids, k - 1) + PlaceOf(items, ids, 1)
  {
    if k > 1 {
      PlaceOfTheRest(items, ids, k - 1);
    }
  }

  lemma {:induction false} KeptStandsInItsPlace(items: seq<Item>, ids: set<string>, k: nat)
    requires k < |items| && (items[k].jumpId.None? || items[k].jumpId.value !in ids)
    ensures PlaceOf(items, ids, k) < |Without(items, ids)|
    ensures Without(items, ids)[PlaceOf(items, ids, k)] == items[k]
  {
    if k > 0 {
      PlaceOfTheRest(items, ids, k);
      KeptStandsInItsPlace(items[1..], ids, k - 1);
    }
  }

  lemma {:induction false} PlacesGrow(items: seq<Item>, ids: set<string>, j: nat, k: nat)
    requires j < k <= |items| && (items[j].jumpId.None? || items[j].jumpId.value !in ids)
    ensures PlaceOf(items, ids, j) < PlaceOf(items, ids, k)
  {
    if j < k - 1 {
      PlacesGrow(items, ids, j, k - 1);
    }
  }

  /** Items that are shown keep the order of the read. */
  lemma ShownKeepsTheOrder(p: Projection, settled: Receipts, j: nat, k: nat)
    requires j < k < |p.items| && p.items[j] in Shown(p, settled) && p.items[k] in Shown(p, settled)
    ensures exists m, n :: 0 <= m < n < |Shown(p, settled)| && Shown(p, settled)[m] == p.items[j] && Shown(p, settled)[n] == p.items[k]
  {
    var ids := SettledIds(p, settled);
    WithoutLeavesNone(p.items, ids, p.items[j]);
    WithoutLeavesNone(p.items, ids, p.items[k]);
    KeptStandsInItsPlace(p.items, ids, j);
    KeptStandsInItsPlace(p.items, ids, k);
    PlacesGrow(p.items, ids, j, k);
  }

  /** The settlement heard of a follow-up covers an item: it has no version, or the item or its read is no later. */
  predicate Covers(version: Option<Version>, item: Item, observedAt: int) {
    version.Some? ==> item.updatedAt <= version.value.at || observedAt <= version.value.at
  }

  /** An item is shown exactly when the settlement heard of its follow-up covers no item of it in the read. */
  lemma ItemIsShownIff(p: Projection, settled: Receipts, item: Item)
    requires item in p.items
    ensures item in Shown(p, settled) <==>
      item.jumpId.Some? && item.jumpId.value in settled ==>
        forall other :: other in p.items && other.jumpId == item.jumpId ==> !Covers(settled[item.jumpId.value], other, p.observedAt)
  {
    WithoutLeavesNone(p.items, SettledIds(p, settled), item);
    assert forall other :: other in p.items && other.jumpId == item.jumpId && item.jumpId.Some? && item.jumpId.value in settled ==>
      (HidesItsFollowUp(other, settled, p.observedAt) <==> Covers(settled[item.jumpId.value], other, p.observedAt));
    if other :| other in p.items && other.jumpId == item.jumpId && HidesItsFollowUp(other, settled, p.observedAt) {
      var i :| 0 <= i < |p.items| && p.items[i] == other;
      assert HidesItsFollowUp(p.items[i], settled, p.observedAt);
      assert p.items[i].jumpId.value in SettledIds(p, settled);
    }
  }

  lemma {:induction false} ReceiptsOnlyGrow(settled: Receipts, es: seq<Event>, jumpId: string)
    requires Reopened(jumpId) !in es
    ensures AtMost(ReceiptOf(settled, jumpId), ReceiptOf(AllReceived(settled, es), jumpId))
    decreases |es|
  {
    if es != [] {
      ReceivedIsTheGreater(settled, es[0], jumpId);
      ReceiptsOnlyGrow(Received(settled, es[0]), es[1..], jumpId);
    }
  }

  /** Settled work stays out of every read that shows no newer version of it, until it is reopened. */
  lemma SettledWorkIsNotRevived(settled: Receipts, es: seq<Event>, p: Projection, item: Item)
    requires item in p.items && item.jumpId.Some? && item.jumpId.value in settled
    requires Reopened(item.jumpId.value) !in es
    requires Covers(settled[item.jumpId.value], item, p.observedAt)
    ensures item !in Shown(p, AllReceived(settled, es))
  {
    var jumpId := item.jumpId.value;
    var after := AllReceived(settled, es);
    ReceiptsOnlyGrow(settled, es, jumpId);
    var i :| 0 <= i < |p.items| && p.items[i] == item;
    assert HidesItsFollowUp(p.items[i], after, p.observedAt);
    assert jumpId in SettledIds(p, after);
    WithoutLeavesNone(p.items, SettledIds(p, after), item);
  }

  // ----- The snapshot -----

  /** The view never goes back: it shows a read it was given, and none that was observed before another it was given. */
  lemma {:induction false} SnapshotNeverGoesBack(snapshot: Projection, arrivals: seq<Projection>)
    ensures LatestOf(snapshot, arrivals) in [snapshot] + arrivals
    ensures forall p :: p in [snapshot] + arrivals ==> p.observedAt <= LatestOf(snapshot, arrivals).observedAt
    decreases |arrivals|
  {
    if arrivals != [] {
      SnapshotNeverGoesBack(Latest(snapshot, arrivals[0]), arrivals[1..]);
      assert arrivals == [arrivals[0]] + arrivals[1..];
    }
  }

  /** Of reads as recent as each other the one that came last is shown. */
  lemma {:induction false} TheLastOfTheLatestIsShown(snapshot: Projection, arrivals: seq<Projection>, i: nat)
    requires i < |arrivals| && arrivals[i].observedAt >= snapshot.observedAt
    requires forall j :: 0 <= j < i ==> arrivals[j].observedAt <= arrivals[i].observedAt
    requires forall j :: i < j < |arrivals| ==> arrivals[j].observedAt < arrivals[i].observedAt
    ensures LatestOf(snapshot, arrivals) == arrivals[i]
    decreases |arrivals|
  {
    if i > 0 {
      TheLastOfTheLatestIsShown(Latest(snapshot, arrivals[0]), arrivals[1..], i - 1);
    } else {
      OlderAreNotShown(arrivals[0], arrivals[1..]);
    }
  }

  lemma {:induction false} OlderAreNotShown(snapshot: Projection, arrivals: seq<Projection>)
    requires forall p :: p in arrivals ==> p.observedAt < snapshot.observedAt
    ensures LatestOf(snapshot, arrivals) == snapshot
    decreases |arrivals|
  {
    if arrivals != [] {
      OlderAreNotShown(snapshot, arrivals[1..]);
    }
  }

  /** Two orders of the same reads end with reads observed at the same instant. */
  lemma SnapshotTimesConverge(snapshot: Projection, arrivals: seq<Projection>, others: seq<Projection>)
    requires forall p :: p in arrivals <==> p in others
    ensures LatestOf(snapshot, arrivals).observedAt == LatestOf(snapshot, others).observedAt
  {
    SnapshotNeverGoesBack(snapshot, arrivals);
    SnapshotNeverGoesBack(snapshot, others);
    assert LatestOf(snapshot, arrivals) in [snapshot] + others;
    assert LatestOf(snapshot, others) in [snapshot] + arrivals;
  }
}
