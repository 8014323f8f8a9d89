/**
 The contact import's review (src/components/ContactImportWizardV2.tsx): valid rows are matched in
 chunks, the owner decides on rows, and the counts of what is planned are shown. The rows come from
 the file's mapping; each answer of the server, or its failure, is a parameter.
 */
module ImportReview {
  import opened Options

  /** A prepared row: its record's identifier and line, and what is wrong with it. */
  datatype Row = Row(id: string, sourceRow: nat, errors: seq<string>)

  datatype Action = Create | Merge | Replace | Skip

  datatype Match = Match(rowId: string, recommended: Action, candidates: seq<string>)

  datatype Resolution = Resolution(rowId: string, action: Action, target: Option<string>)

  type Resolutions = map<string, Resolution>

  // ----- Chunks -----

  function Joined<T>(groups: seq<seq<T>>): seq<T> {
    if groups == [] then [] else Joined(groups[..|groups| - 1]) + groups[|groups| - 1]
  }

  /** Full groups of one size and a last one that may be shorter, in order and with nothing lost. */
  ghost predicate IsChunking<T>(groups: seq<seq<T>>, items: seq<T>, size: nat) {
    && Joined(groups) == items
    && (forall k :: 0 <= k < |groups| ==> 0 < |groups[k]| <= size)
    && (forall k :: 0 <= k < |groups| - 1 ==> |groups[k]| == size)
  }

  method Chunk<T>(items: seq<T>, size: nat) returns (output: seq<seq<T>>)
    requires size > 0
    ensures IsChunking(output, items, size)
  {
    output := [];
    var index := 0;
    while index < |items|
      invariant 0 <= index
      invariant IsChunking(output, items[..Least(index, |items|)], size)
      invariant index < |items| ==> forall k :: 0 <= k < |output| ==> |output[k]| == size
    {
      var end := Least(index + size, |items|);
      assert items[..end] == items[..index] + items[index..end];
      JoinedOneMore(output, items[index..end]);
      output := output + [items[index..end]];
      index := index + size;
    }
    assert items[..|items|] == items;
  }

  function Least(a: int, b: int): int {
    if a <= b then a else b
  }

  lemma JoinedOneMore<T>(groups: seq<seq<T>>, group: seq<T>)
    ensures Joined(groups + [group]) == Joined(groups) + group
  {
    assert (groups + [group])[..|groups|] == groups;
  }

  lemma TimesOneMore(n: nat, size: nat)
    ensures (n + 1) * size == n * size + size
  {
  }

  lemma {:induction false} FullGroups<T>(groups: seq<seq<T>>, size: nat)
    requires forall k :: 0 <= k < |groups| ==> |groups[k]| == size
    ensures |Joined(groups)| == |groups| * size
  {
    if groups != [] {
      FullGroups(groups[..|groups| - 1], size);
      TimesOneMore(|groups| - 1, size);
    }
  }

  lemma ChunkingLength<T>(groups: seq<seq<T>>, items: seq<T>, size: nat)
    requires IsChunking(groups, items, size) && groups != []
    ensures (|groups| - 1) * size < |items| <= (|groups| - 1) * size + size
  {
    FullGroups(groups[..|groups| - 1], size);
  }

  lemma TimesGrows(m: nat, n: nat, size: nat)
    requires m <= n
    ensures m * size <= n * size
  {
  }

  lemma NotFewer(m: nat, n: nat, size: nat, length: nat)
    requires m * size < length <= n * size + size
    ensures m <= n
  {
    if n + 1 <= m {
      TimesGrows(n + 1, m, size);
      TimesOneMore(n, size);
      assert false;
    }
  }

  /** There is only one way to cut a list so: any other cut would lose, move or resize something. */
  lemma {:induction false} ChunkingIsUnique<T>(a: seq<seq<T>>, b: seq<seq<T>>, items: seq<T>, size: nat)
    requires size > 0 && IsChunking(a, items, size) && IsChunking(b, items, size)
    ensures a == b
    decreases |a|
  {
    if a == [] {
      if b != [] {
        ChunkingLength(b, items, size);
      }
    } else if b == [] {
      ChunkingLength(a, items, size);
    } else {
      ChunkingLength(a, items, size);
      ChunkingLength(b, items, size);
      NotFewer(|a| - 1, |b| - 1, size, |items|);
      NotFewer(|b| - 1, |a| - 1, size, |items|);
      var n := |a| - 1;
      FullGroups(a[..n], size);
      FullGroups(b[..n], size);
      assert items[..n * size] == Joined(a[..n]) && items[n * size..] == a[n];
      assert items[..n * size] == Joined(b[..n]) && items[n * size..] == b[n];
      ChunkingIsUnique(a[..n], b[..n], items[..n * size], size);
      assert a == a[..n] + [a[n]] && b == b[..n] + [b[n]];
    }
  }

  // ----- Analysis -----

  const GROUP_SIZE := 100

  /** The answer to one match request. */
  datatype Answer = Failed(reason: string) | Matched(matches: seq<Match>, usage: nat)

  function Valid(rows: seq<Row>): seq<Row> {
    if rows == [] then []
    else Valid(rows[..|rows| - 1]) + (if rows[|rows| - 1].errors == [] then [rows[|rows| - 1]] else [])
  }

  function Invalid(rows: seq<Row>): seq<Row> {
    if rows == [] then []
    else Invalid(rows[..|rows| - 1]) + (if rows[|rows| - 1].errors != [] then [rows[|rows| - 1]] else [])
  }

  function DefaultResolution(m: Match): Resolution {
    Resolution(m.rowId, m.recommended, if m.candidates == [] then None else Some(m.candidates[0]))
  }

  function Defaults(matches: seq<Match>): Resolutions {
    if matches == [] then map[]
    else Defaults(matches[..|matches| - 1])[matches[|matches| - 1].rowId := DefaultResolution(matches[|matches| - 1])]
  }

  /** All matches of the first `n` answers, in order. */
  function Collected(answers: seq<Answer>): seq<Match> {
    if answers == [] then []
    else Collected(answers[..|answers| - 1]) + (if answers[|answers| - 1].Matched? then answers[|answers| - 1].matches else [])
  }

  datatype Review = Review(rows: seq<Row>, matches: seq<Match>, resolutions: Resolutions, usage: nat)

  function Updated(resolutions: Resolutions, rowId: string, patch: Patch): Resolutions {
    var was := if rowId in resolutions then resolutions[rowId] else Resolution(rowId, Skip, None);
    resolutions[rowId := Resolution(rowId,
      if patch.action.Some? then patch.action.value else was.action,
      if patch.target.Some? then patch.target.value else was.target)]
  }

  /** A decision: the parts of a resolution it gives. */
  datatype Patch = Patch(action: Option<Action>, target: Option<Option<string>>)

  class ImportWizard {
    var review: Review
    var reviewing: bool
    var error: Option<string>

    constructor (usage: nat)
      ensures review == Review([], [], map[], usage) && !reviewing && error == None
    {
      review, reviewing, error := Review([], [], map[], usage), false, None;
    }

    /** Matches the valid rows of a file, a chunk at a time; `sent` is what was asked for. */
    method Analyze(rows: seq<Row>, answers: seq<Answer>) returns (sent: seq<seq<Row>>)
      requires |answers| >= |Valid(rows)|
      modifies this
      ensures |sent| <= |answers| && (forall k :: 0 <= k < |sent| ==> 0 < |sent[k]| <= 100)
      ensures error == None <==> rows != [] && IsChunking(sent, Valid(rows), 100) && forall k :: 0 <= k < |sent| ==> answers[k].Matched?
      ensures error != None && rows != [] ==> sent != [] && answers[|sent| - 1] == Failed(error.value)
      ensures error == None ==> reviewing
      ensures error == None ==> review.rows == rows && review.matches == Collected(answers[..|sent|])
      ensures error == None ==> review.resolutions == Defaults(review.matches)
      ensures error == None ==> review.usage == if sent == [] then old(review.usage) else answers[|sent| - 1].usage
      ensures error != None ==> review == old(review) && reviewing == old(reviewing)
    {
      error := None;
      sent := [];
      if rows == [] {
        error := Some("No Contact rows were found after mapping.");
        return;
      }
      var groups := Chunk(Valid(rows), GROUP_SIZE);
      GroupsAreFew(groups, Valid(rows), GROUP_SIZE);
      var collected: seq<Match> := [];
      var currentUsage := review.usage;
      for k := 0 to |groups|
        invariant sent == groups[..k] && collected == Collected(answers[..k])
        invariant forall j :: 0 <= j < k ==> answers[j].Matched?
        invariant currentUsage == if k == 0 then old(review.usage) else answers[k - 1].usage
        invariant error == None && review == old(review) && reviewing == old(reviewing)
      {
        sent := sent + [groups[k]];
        match answers[k] {
          case Failed(reason) =>
            error := Some(reason);
            assert answers[|sent| - 1] == Failed(reason);
            return;
          case Matched(matches, usage) =>
            assert answers[..k + 1][..k] == answers[..k];
            collected := collected + matches;
            currentUsage := usage;
        }
      }
      assert groups[..|groups|] == groups;
      review := Review(rows, collected, Defaults(collected), currentUsage);
      reviewing := true;
    }

    method UpdateResolution(rowId: string, patch: Patch)
      modifies this`review
      ensures review == old(review).(resolutions := Updated(old(review.resolutions), rowId, patch))
    {
      var current := review.resolutions;
      var was := if rowId in current then current[rowId] else Resolution(rowId, Skip, None);
      if patch.action.Some? {
        was := was.(action := patch.action.value);
      }
      if patch.target.Some? {
        was := was.(target := patch.target.value);
      }
      review := review.(resolutions := current[rowId := was.(rowId := rowId)]);
    }
  }

  lemma {:induction false} GroupsAreFew<T>(groups: seq<seq<T>>, items: seq<T>, size: nat)
    requires IsChunking(groups, items, size)
    ensures |groups| <= |items|
    decreases |groups|
  {
    if groups != [] {
      var n := |groups| - 1;
      GroupsAreFew(groups[..n], Joined(groups[..n]), size);
    }
  }

  // ----- What is planned -----

  function Choosing(resolutions: Resolutions, action: Action): set<string> {
    set id | id in resolutions && resolutions[id].action == action
  }

  function Planning(resolutions: Resolutions, action: Action): nat {
    |Choosing(resolutions, action)|
  }

  datatype Plan = Plan(create: nat, merge: nat, replace: nat, skip: nat) {
    function Sum(): nat {
      create + merge + replace + skip
    }
  }

  function Planned(r: Review): Plan {
    Plan(Planning(r.resolutions, Create), Planning(r.resolutions, Merge), Planning(r.resolutions, Replace),
      Planning(r.resolutions, Skip) + |Invalid(r.rows)|)
  }

  datatype Decision = Decision(rowId: string, patch: Patch)

  function Decided(resolutions: Resolutions, ds: seq<Decision>): Resolutions {
    if ds == [] then resolutions
    else Updated(Decided(resolutions, ds[..|ds| - 1]), ds[|ds| - 1].rowId, ds[|ds| - 1].patch)
  }

  /** Each row starts with what its last match recommends, on the first candidate if there is one. */
  lemma {:induction false} DefaultsAreRecommended(matches: seq<Match>, i: nat)
    requires i < |matches| && forall j :: i < j < |matches| ==> matches[j].rowId != matches[i].rowId
    ensures matches[i].rowId in Defaults(matches)
    ensures var d := Defaults(matches)[matches[i].rowId];
      && d.rowId == matches[i].rowId && d.action == matches[i].recommended
      && (if |matches[i].candidates| == 0 then d.target == None else d.target == Some(matches[i].candidates[0]))
    decreases |matches|
  {
    var before := matches[..|matches| - 1];
    if i < |before| {
      assert before[i] == matches[i];
      DefaultsAreRecommended(before, i);
    }
  }

  function MatchesOf(answer: Answer): seq<Match> {
    if answer.Matched? then answer.matches else []
  }

  /** The matches of all answers, one after another. */
  lemma {:induction false} CollectedAreAll(answers: seq<Answer>)
    ensures Collected(answers) == Joined(seq(|answers|, k requires 0 <= k < |answers| => MatchesOf(answers[k])))
  {
    if answers != [] {
      var before := answers[..|answers| - 1];
      CollectedAreAll(before);
      var groups := seq(|answers|, k requires 0 <= k < |answers| => MatchesOf(answers[k]));
      assert groups[..|answers| - 1] == seq(|before|, k requires 0 <= k < |before| => MatchesOf(before[k]));
    }
  }

  /** What the decisions last gave for a row, or what there was. */
  function LastAction(first: Action, ds: seq<Decision>, rowId: string): Action {
    if ds == [] then first
    else
      var d := ds[|ds| - 1];
      if d.rowId == rowId && d.patch.action.Some? then d.patch.action.value else LastAction(first, ds[..|ds| - 1], rowId)
  }

  function LastTarget(first: Option<string>, ds: seq<Decision>, rowId: string): Option<string> {
    if ds == [] then first
    else
      var d := ds[|ds| - 1];
      if d.rowId == rowId && d.patch.target.Some? then d.patch.target.value else LastTarget(first, ds[..|ds| - 1], rowId)
  }

  /** Over every sequence of decisions each row has the action and the target that were last chosen for it. */
  lemma {:induction false} LastChoicesStand(resolutions: Resolutions, ds: seq<Decision>, rowId: string)
    ensures rowId in Decided(resolutions, ds) <==> rowId in resolutions || exists i :: 0 <= i < |ds| && ds[i].rowId == rowId
    ensures var was := if rowId in resolutions then resolutions[rowId] else Resolution(rowId, Skip, None);
      rowId in Decided(resolutions, ds) ==>
        && Decided(resolutions, ds)[rowId].action == LastAction(was.action, ds, rowId)
        && Decided(resolutions, ds)[rowId].target == LastTarget(was.target, ds, rowId)
        && (was.rowId == rowId ==> Decided(resolutions, ds)[rowId].rowId == rowId)
  {
    if ds != [] {
      var before := ds[..|ds| - 1];
      assert ds == before + [ds[|ds| - 1]];
      LastChoicesStand(resolutions, before, rowId);
      if rowId !in Decided(resolutions, before) {
        NothingChosen(Skip, None, before, rowId);
      }
    }
  }

  lemma {:induction false} NothingChosen(action: Action, target: Option<string>, ds: seq<Decision>, rowId: string)
    requires forall i :: 0 <= i < |ds| ==> ds[i].rowId != rowId
    ensures LastAction(action, ds, rowId) == action && LastTarget(target, ds, rowId) == target
  {
    if ds != [] {
      NothingChosen(action, target, ds[..|ds| - 1], rowId);
    }
  }

  function Ids(rows: seq<Row>): set<string> {
    set r | r in rows :: r.id
  }

  predicate IdsDiffer(rows: seq<Row>) {
    forall i, j :: 0 <= i < j < |rows| ==> rows[i].id != rows[j].id
  }

  /** What the server promises: one match for each record it was sent, in order. */
  predicate OneMatchPerRow(matches: seq<Match>, rows: seq<Row>) {
    |matches| == |rows| && forall k :: 0 <= k < |rows| ==> matches[k].rowId == rows[k].id
  }

  lemma SizesAdd(a: set<string>, b: set<string>)
    requires a !! b
    ensures |a + b| == |a| + |b|
  {
  }

  lemma PlansEveryResolution(resolutions: Resolutions)
    ensures Planning(resolutions, Create) + Planning(resolutions, Merge) + Planning(resolutions, Replace) + Planning(resolutions, Skip) ==
      |resolutions.Keys|
  {
    var c, m := Choosing(resolutions, Create), Choosing(resolutions, Merge);
    var r, s := Choosing(resolutions, Replace), Choosing(resolutions, Skip);
    SizesAdd(c, m);
    SizesAdd(r, s);
    SizesAdd(c + m, r + s);
    assert resolutions.Keys == (c + m) + (r + s);
  }

  lemma {:induction false} RowsSplit(rows: seq<Row>)
    ensures |rows| == |Valid(rows)| + |Invalid(rows)|
  {
    if rows != [] {
      RowsSplit(rows[..|rows| - 1]);
    }
  }

  lemma {:induction false} DifferentIdsCount(rows: seq<Row>)
    requires IdsDiffer(rows)
    ensures |Ids(rows)| == |rows|
  {
    if rows != [] {
      var before, last := rows[..|rows| - 1], rows[|rows| - 1];
      DifferentIdsCount(before);
      assert rows == before + [last];
      assert Ids(rows) == Ids(before) + {last.id};
    }
  }

  lemma {:induction false} DefaultsCoverTheRows(matches: seq<Match>, rows: seq<Row>)
    requires OneMatchPerRow(matches, rows)
    ensures Defaults(matches).Keys == Ids(rows)
    decreases |rows|
  {
    if rows != [] {
      var before, last := rows[..|rows| - 1], rows[|rows| - 1];
      DefaultsCoverTheRows(matches[..|rows| - 1], before);
      assert rows == before + [last];
      assert Ids(rows) == Ids(before) + {last.id};
    }
  }

  function DecidedIds(ds: seq<Decision>): set<string> {
    if ds == [] then {} else DecidedIds(ds[..|ds| - 1]) + {ds[|ds| - 1].rowId}
  }

  lemma {:induction false} DecidingAddsIds(resolutions: Resolutions, ds: seq<Decision>)
    ensures Decided(resolutions, ds).Keys == resolutions.Keys + DecidedIds(ds)
  {
    if ds != [] {
      DecidingAddsIds(resolutions, ds[..|ds| - 1]);
    }
  }

  lemma {:induction false} DecidedWithinIff(ds: seq<Decision>, ids: set<string>)
    ensures DecidedIds(ds) <= ids <==> forall d :: d in ds ==> d.rowId in ids
  {
    if ds != [] {
      DecidedWithinIff(ds[..|ds| - 1], ids);
      assert ds == ds[..|ds| - 1] + [ds[|ds| - 1]];
    }
  }

  lemma SubsetBySize(a: set<string>, b: set<string>)
    ensures |a + b| == |a| <==> b <= a
  {
    if b <= a {
      assert a + b == a;
    } else {
      var x :| x in b && x !in a;
      assert a + b == a + (b - a) && a !! (b - a) && x in b - a;
    }
  }

  /**
   The planned counts add up to the prepared rows through every sequence of decisions, exactly when
   each decision is about a valid row.
   */
  lemma PlanCoversTheRowsIff(rows: seq<Row>, matches: seq<Match>, ds: seq<Decision>, usage: nat)
    requires OneMatchPerRow(matches, Valid(rows)) && IdsDiffer(Valid(rows))
    ensures Planned(Review(rows, matches, Decided(Defaults(matches), ds), usage)).Sum() == |rows| <==>
      forall d :: d in ds ==> d.rowId in Ids(Valid(rows))
  {
    var resolutions := Decided(Defaults(matches), ds);
    var valid := Ids(Valid(rows));
    PlansEveryResolution(resolutions);
    RowsSplit(rows);
    DifferentIdsCount(Valid(rows));
    DefaultsCoverTheRows(matches, Valid(rows));
    DecidingAddsIds(Defaults(matches), ds);
    SubsetBySize(valid, DecidedIds(ds));
    DecidedWithinIff(ds, valid);
    assert Planned(Review(rows, matches, resolutions, usage)).Sum() == |valid + DecidedIds(ds)| + |Invalid(rows)|;
  }
}
