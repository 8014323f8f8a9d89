/**
 The staff form that keeps its fields in the tab (src/components/AdminDraftForm.tsx): what a capture
 reads from the form's elements, and what restoring it writes back.
 */
module AdminDraftForm {
  import opened Options

  /** A form element; only the first three kinds are controls the form reads and writes. */
  datatype Kind = Input(inputType: string) | TextArea | Select | Other

  /** `name` is the attribute, which may be missing; the name property is then empty. */
  datatype Control = Control(kind: Kind, name: Option<string>, value: string, checked: bool) {
    function Name(): string {
      if name.Some? then name.value else ""
    }

    predicate Ticks() {
      kind == Input("checkbox") || kind == Input("radio")
    }

    predicate Retained(fields: seq<string>) {
      && !kind.Other?
      && Name() in fields
      && kind != Input("password") && kind != Input("hidden") && kind != Input("file")
    }
  }

  type Form = seq<Control>

  datatype Field = Field(value: string, checked: Option<bool>)

  type Values = map<string, seq<Field>>

  function FieldOf(c: Control): Field {
    Field(c.value, if c.Ticks() then Some(c.checked) else None)
  }

  // ----- Capture -----

  /** The fields of one name, in the order of the form. */
  function FieldsNamed(form: Form, fields: seq<string>, name: string): seq<Field> {
    if form == [] then []
    else
      var before, c := form[..|form| - 1], form[|form| - 1];
      FieldsNamed(before, fields, name) + (if c.Retained(fields) && c.Name() == name then [FieldOf(c)] else [])
  }

  ghost predicate Holds(values: Values, form: Form, fields: seq<string>) {
    && (forall name :: name in values ==> values[name] == FieldsNamed(form, fields, name) != [])
    && (forall name :: name !in values ==> FieldsNamed(form, fields, name) == [])
  }

  function Pushed(values: Values, c: Control): Values {
    values[c.Name() := (if c.Name() in values then values[c.Name()] else []) + [FieldOf(c)]]
  }

  lemma FieldsOneMore(form: Form, k: nat, fields: seq<string>, name: string)
    requires k < |form|
    ensures FieldsNamed(form[..k + 1], fields, name) ==
      FieldsNamed(form[..k], fields, name) + (if form[k].Retained(fields) && form[k].Name() == name then [FieldOf(form[k])] else [])
  {
    assert form[..k + 1][..k] == form[..k];
  }

  lemma HoldsOneMore(values: Values, form: Form, k: nat, fields: seq<string>)
    requires k < |form| && Holds(values, form[..k], fields)
    ensures Holds(if form[k].Retained(fields) then Pushed(values, form[k]) else values, form[..k + 1], fields)
  {
    var after := if form[k].Retained(fields) then Pushed(values, form[k]) else values;
    forall name
      ensures if name in after then after[name] == FieldsNamed(form[..k + 1], fields, name) != [] else FieldsNamed(form[..k + 1], fields, name) == []
    {
      FieldsOneMore(form, k, fields, name);
    }
  }

  // ----- Restore -----

  function CountNamed(form: Form, k: nat, name: Option<string>): nat
    requires k <= |form|
  {
    if k == 0 then 0 else CountNamed(form, k - 1, name) + (if form[k - 1].name == name then 1 else 0)
  }

  /** The place of an element among all elements with its name; none when it carries no name attribute. */
  function PlaceOf(form: Form, k: nat): Option<nat>
    requires k < |form|
  {
    if form[k].name.None? then None else Some(CountNamed(form, k, form[k].name))
  }

  function Offered(form: Form, k: nat, values: Values): Option<Field>
    requires k < |form|
  {
    var name := form[k].Name();
    if name !in values || PlaceOf(form, k).None? || PlaceOf(form, k).value >= |values[name]| then None
    else Some(values[name][PlaceOf(form, k).value])
  }

  /** Ticking a radio button unticks the others of its group. */
  function Ticked(form: Form, k: nat, checked: bool): (after: Form)
    requires k < |form|
    ensures |after| == |form|
  {
    seq(|form|, j requires 0 <= j < |form| =>
      if j == k then form[j].(checked := checked)
      else if checked && SameGroup(form[j], form[k]) then form[j].(checked := false)
      else form[j])
  }

  predicate SameGroup(a: Control, b: Control) {
    a.kind == b.kind == Input("radio") && a.Name() == b.Name() != ""
  }

  function WriteBack(form: Form, k: nat, fields: seq<string>, values: Values): (after: Form)
    requires k < |form|
    ensures |after| == |form|
  {
    var offered := Offered(form, k, values);
    if !form[k].Retained(fields) || offered.None? then form
    else
      var written := form[k := form[k].(value := offered.value.value)];
      if form[k].kind.Input? && offered.value.checked.Some? then Ticked(written, k, offered.value.checked.value) else written
  }

  function Restored(form: Form, k: nat, fields: seq<string>, values: Values): (after: Form)
    requires k <= |form|
    ensures |after| == |form|
  {
    if k == 0 then form else WriteBack(Restored(form, k - 1, fields, values), k - 1, fields, values)
  }

  class AdminForm {
    var elements: Form
    const fields: seq<string>

    constructor (elements: Form, fields: seq<string>)
      ensures this.elements == elements && this.fields == fields
    {
      this.elements, this.fields := elements, fields;
    }

    method Capture() returns (values: Values)
      ensures Holds(values, elements, fields)
    {
      values := map[];
      for k := 0 to |elements|
        invariant Holds(values, elements[..k], fields)
      {
        var control := elements[k];
        HoldsOneMore(values, elements, k, fields);
        if control.kind.Other? || !control.Retained(fields) {
          continue;
        }
        var known := if control.Name() in values then values[control.Name()] else [];
        values := values[control.Name() := known + [FieldOf(control)]];
      }
      assert elements[..|elements|] == elements;
    }

    method Restore(values: Values)
      modifies this`elements
      ensures elements == Restored(old(elements), |old(elements)|, fields, values)
    {
      var n := |elements|;
      for k := 0 to n
        invariant |elements| == n && elements == Restored(old(elements), k, fields, values)
      {
        var control := elements[k];
        if control.kind.Other? {
          continue;
        }
        var retained := Offered(elements, k, values);
        if !control.Retained(fields) || retained.None? {
          continue;
        }
        elements := elements[k := control.(value := retained.value.value)];
        if control.kind.Input? && retained.value.checked.Some? {
          elements := Ticked(elements, k, retained.value.checked.value);
        }
      }
    }
  }

  // ----- Places -----

  predicate SameShape(a: Form, b: Form) {
    |a| == |b| && forall k :: 0 <= k < |a| ==> a[k].kind == b[k].kind && a[k].name == b[k].name
  }

  /** No retained element follows one of its name that is not retained, nor lacks the attribute. */
  predicate Aligned(form: Form, fields: seq<string>) {
    forall k :: 0 <= k < |form| && form[k].Retained(fields) ==> IsAligned(form, k, fields)
  }

  predicate IsAligned(form: Form, k: nat, fields: seq<string>)
    requires k < |form|
  {
    form[k].name.Some? && forall j :: 0 <= j < k && form[j].name == form[k].name ==> form[j].Retained(fields)
  }

  lemma {:induction false} CountOfShape(a: Form, b: Form, k: nat, name: Option<string>)
    requires SameShape(a, b) && k <= |a|
    ensures CountNamed(a, k, name) == CountNamed(b, k, name)
  {
    if k > 0 {
      CountOfShape(a, b, k - 1, name);
    }
  }

  function RankOf(form: Form, k: nat, fields: seq<string>): nat
    requires k < |form|
  {
    |FieldsNamed(form[..k], fields, form[k].Name())|
  }

  /** An element's field stands at its rank among the retained elements of its name. */
  lemma {:induction false} FieldAtItsRank(form: Form, k: nat, fields: seq<string>)
    requires k < |form| && form[k].Retained(fields)
    ensures RankOf(form, k, fields) < |FieldsNamed(form, fields, form[k].Name())|
    ensures FieldsNamed(form, fields, form[k].Name())[RankOf(form, k, fields)] == FieldOf(form[k])
    decreases |form|
  {
    var before := form[..|form| - 1];
    if k < |before| {
      assert before[..k] == form[..k];
      FieldAtItsRank(before, k, fields);
    }
  }

  /** How many of the first elements are retained ones of this name. */
  function CountRetained(form: Form, k: nat, name: string, fields: seq<string>): nat
    requires k <= |form|
  {
    if k == 0 then 0
    else CountRetained(form, k - 1, name, fields) + (if form[k - 1].Retained(fields) && form[k - 1].Name() == name then 1 else 0)
  }

  lemma {:induction false} RankIsTheCount(form: Form, k: nat, name: string, fields: seq<string>)
    requires k <= |form|
    ensures |FieldsNamed(form[..k], fields, name)| == CountRetained(form, k, name, fields)
  {
    if k > 0 {
      RankIsTheCount(form, k - 1, name, fields);
      FieldsOneMore(form, k - 1, fields, name);
    }
  }

  predicate AllRetained(form: Form, k: nat, name: string, fields: seq<string>)
    requires k <= |form|
  {
    forall j :: 0 <= j < k && form[j].name == Some(name) ==> form[j].Retained(fields)
  }

  lemma {:induction false} CountsAgreeIff(form: Form, k: nat, name: string, fields: seq<string>)
    requires k <= |form|
    requires forall j :: 0 <= j < k && form[j].Name() == name && form[j].Retained(fields) ==> form[j].name.Some?
    ensures CountRetained(form, k, name, fields) <= CountNamed(form, k, Some(name))
    ensures CountRetained(form, k, name, fields) == CountNamed(form, k, Some(name)) <==> AllRetained(form, k, name, fields)
  {
    if k > 0 {
      CountsAgreeIff(form, k - 1, name, fields);
    }
  }

  /** The place among all elements is the rank among retained ones exactly when no other one comes before. */
  lemma PlaceIsRankIff(form: Form, k: nat, name: string, fields: seq<string>)
    requires k <= |form|
    requires name in fields
    requires forall j :: 0 <= j < k && form[j].Name() == name && form[j].Retained(fields) ==> form[j].name.Some?
    ensures |FieldsNamed(form[..k], fields, name)| <= CountNamed(form, k, Some(name))
    ensures |FieldsNamed(form[..k], fields, name)| == CountNamed(form, k, Some(name)) <==>
      forall j :: 0 <= j < k && form[j].name == Some(name) ==> form[j].Retained(fields)
  {
    RankIsTheCount(form, k, name, fields);
    CountsAgreeIff(form, k, name, fields);
  }

  // ----- What is kept and what is not -----

  /** A control whose value must not be kept: a password, a hidden field, a file, or one that is not listed. */
  predicate IsSecret(c: Control, fields: seq<string>) {
    c.kind == Input("password") || c.kind == Input("hidden") || c.kind == Input("file") || c.Name() !in fields || c.kind == Other
  }

  /** What is captured does not depend on what a secret control holds. */
  lemma {:induction false} SecretsAreNotCaptured(form: Form, k: nat, value: string, checked: bool, fields: seq<string>, name: string)
    requires k < |form| && IsSecret(form[k], fields)
    ensures FieldsNamed(form[k := form[k].(value := value, checked := checked)], fields, name) == FieldsNamed(form, fields, name)
    decreases |form|
  {
    var other := form[k := form[k].(value := value, checked := checked)];
    var n := |form| - 1;
    if k < n {
      assert other[..n] == form[..n][k := form[k].(value := value, checked := checked)];
      SecretsAreNotCaptured(form[..n], k, value, checked, fields, name);
    } else {
      assert other[..n] == form[..n];
    }
  }

  /** Every other control is captured with what it shows: its value, and for a checkbox or a radio button its tick. */
  lemma VisibleIsCaptured(form: Form, k: nat, fields: seq<string>)
    requires k < |form| && !IsSecret(form[k], fields)
    ensures Field(form[k].value, if form[k].kind == Input("checkbox") || form[k].kind == Input("radio") then Some(form[k].checked) else None)
      in FieldsNamed(form, fields, form[k].Name())
  {
    FieldAtItsRank(form, k, fields);
  }

  /** Nor does restoring touch a secret control, whatever the values are. */
  lemma {:induction false} SecretsAreNotRestored(form: Form, n: nat, k: nat, fields: seq<string>, values: Values)
    requires n <= |form| && k < |form| && IsSecret(form[k], fields)
    ensures Spared(Restored(form, n, fields, values), form, k)
  {
    if n > 0 {
      SecretsAreNotRestored(form, n - 1, k, fields, values);
      RestoreSparesSecrets(form, n - 1, k, fields, values);
    }
  }

  predicate Spared(now: Form, form: Form, k: nat) {
    k < |form| && SameShape(now, form) && now[k] == form[k]
  }

  lemma RestoreSparesSecrets(form: Form, n: nat, k: nat, fields: seq<string>, values: Values)
    requires n < |form| && k < |form| && IsSecret(form[k], fields) && Spared(Restored(form, n, fields, values), form, k)
    ensures Spared(Restored(form, n + 1, fields, values), form, k)
  {
    WriteSparesSecrets(Restored(form, n, fields, values), n, k, fields, values);
  }

  lemma WriteSparesSecrets(now: Form, n: nat, k: nat, fields: seq<string>, values: Values)
    requires n < |now| && k < |now| && IsSecret(now[k], fields)
    ensures SameShape(WriteBack(now, n, fields, values), now) && WriteBack(now, n, fields, values)[k] == now[k]
  {
  }

  // ----- The round trip -----

  /** A browser keeps at most one radio button of a group ticked. */
  predicate RadiosExclude(form: Form) {
    forall j, k :: 0 <= j < k < |form| && SameGroup(form[j], form[k]) ==> !(form[j].checked && form[k].checked)
  }

  /** What a control shows the reader. */
  predicate LooksLike(a: Control, b: Control) {
    a.value == b.value && (a.Ticks() ==> a.checked == b.checked)
  }

  /** The form after `k` controls were written back: those look as captured, and nothing else was touched. */
  predicate BackTo(after: Form, k: nat, form: Form, captured: Form, fields: seq<string>) {
    && SameShape(after, form) && SameShape(captured, form) && k <= |form|
    && (forall j :: 0 <= j < k && form[j].Retained(fields) ==> LooksLike(after[j], captured[j]))
    && (forall j :: 0 <= j < |form| && !form[j].Retained(fields) ==> after[j] == form[j])
  }

  lemma OfferedIsCaptured(form: Form, captured: Form, k: nat, fields: seq<string>, values: Values)
    requires SameShape(form, captured) && k < |form| && form[k].Retained(fields)
    requires Aligned(form, fields) && Holds(values, captured, fields)
    ensures Offered(form, k, values) == Some(FieldOf(captured[k]))
  {
    var name := form[k].Name();
    assert IsAligned(form, k, fields);
    assert forall j :: 0 <= j < k && captured[j].Retained(fields) ==> form[j].Retained(fields) && IsAligned(form, j, fields);
    FieldAtItsRank(captured, k, fields);
    PlaceIsRankIff(captured, k, name, fields);
    CountOfShape(form, captured, k, form[k].name);
  }

  lemma WriteBackMovesOn(now: Form, k: nat, form: Form, captured: Form, fields: seq<string>, values: Values)
    requires k < |form| && BackTo(now, k, form, captured, fields) && RadiosExclude(captured)
    requires Aligned(form, fields) && Holds(values, captured, fields)
    ensures BackTo(WriteBack(now, k, fields, values), k + 1, form, captured, fields)
  {
    if form[k].Retained(fields) {
      assert forall j :: 0 <= j < |form| && now[j].Retained(fields) ==> form[j].Retained(fields);
      assert Aligned(now, fields) by {
        forall j | 0 <= j < |now| && now[j].Retained(fields) ensures IsAligned(now, j, fields) {
          assert IsAligned(form, j, fields);
        }
      }
      OfferedIsCaptured(now, captured, k, fields, values);
      WrittenLooksCaptured(now, k, form, captured, fields, WriteBack(now, k, fields, values));
    }
  }

  lemma WrittenLooksCaptured(now: Form, k: nat, form: Form, captured: Form, fields: seq<string>, after: Form)
    requires k < |form| && BackTo(now, k, form, captured, fields) && RadiosExclude(captured) && form[k].Retained(fields)
    requires var written := now[k := now[k].(value := captured[k].value)];
      after == if captured[k].Ticks() then Ticked(written, k, captured[k].checked) else written
    ensures BackTo(after, k + 1, form, captured, fields)
  {
    forall j | 0 <= j < k && form[j].Retained(fields) ensures LooksLike(after[j], captured[j]) {
      if captured[k].Ticks() && captured[k].checked && SameGroup(captured[j], captured[k]) {
        assert !captured[j].checked;
      }
    }
    forall j | 0 <= j < |form| && !form[j].Retained(fields) ensures after[j] == form[j] {
      assert !SameGroup(now[j], now[k]);
    }
  }

  lemma {:induction false} RestoreReproduces(form: Form, k: nat, captured: Form, fields: seq<string>, values: Values)
    requires SameShape(captured, form) && k <= |form| && RadiosExclude(captured)
    requires Aligned(form, fields) && Holds(values, captured, fields)
    ensures BackTo(Restored(form, k, fields, values), k, form, captured, fields)
  {
    if k > 0 {
      RestoreReproduces(form, k - 1, captured, fields, values);
      RestoreMovesOn(form, k - 1, captured, fields, values);
    }
  }

  lemma RestoreMovesOn(form: Form, k: nat, captured: Form, fields: seq<string>, values: Values)
    requires k < |form| && BackTo(Restored(form, k, fields, values), k, form, captured, fields) && RadiosExclude(captured)
    requires Aligned(form, fields) && Holds(values, captured, fields)
    ensures BackTo(Restored(form, k + 1, fields, values), k + 1, form, captured, fields)
  {
    WriteBackMovesOn(Restored(form, k, fields, values), k, form, captured, fields, values);
  }

  /** At every step of restoring, at most one radio button of a group is ticked. */
  lemma {:induction false} RestoreKeepsRadiosApart(form: Form, k: nat, fields: seq<string>, values: Values)
    requires k <= |form| && RadiosExclude(form)
    ensures RadiosExclude(Restored(form, k, fields, values))
  {
    if k > 0 {
      RestoreKeepsRadiosApart(form, k - 1, fields, values);
      WriteKeepsRadiosApart(Restored(form, k - 1, fields, values), k - 1, fields, values);
    }
  }

  lemma TickKeepsRadiosApart(form: Form, k: nat, checked: bool)
    requires k < |form| && RadiosExclude(form)
    ensures RadiosExclude(Ticked(form, k, checked))
  {
  }

  lemma WriteKeepsRadiosApart(form: Form, k: nat, fields: seq<string>, values: Values)
    requires k < |form| && RadiosExclude(form)
    ensures RadiosExclude(WriteBack(form, k, fields, values))
  {
    var offered := Offered(form, k, values);
    if form[k].Retained(fields) && offered.Some? {
      var written := form[k := form[k].(value := offered.value.value)];
      assert RadiosExclude(written);
      if offered.value.checked.Some? {
        TickKeepsRadiosApart(written, k, offered.value.checked.value);
      }
    }
  }

  /** Restoring what was captured gives back what every retained control showed, and touches no other element. */
  ghost predicate RestoresFaithfully(shape: Form, fields: seq<string>) {
    forall form: Form, captured: Form, values: Values ::
      SameShape(form, shape) && SameShape(captured, shape) && RadiosExclude(captured) && Holds(values, captured, fields) ==>
        BackTo(Restored(form, |form|, fields, values), |form|, form, captured, fields)
  }

  /**
   The round trip holds on a form's shape exactly when it is aligned: every name in the list is used
   by retained controls only, up to the last of them.
   */
  lemma RestoresFaithfullyIff(shape: Form, fields: seq<string>)
    ensures RestoresFaithfully(shape, fields) <==> Aligned(shape, fields)
  {
    if Aligned(shape, fields) {
      forall form: Form, captured: Form, values: Values |
        SameShape(form, shape) && SameShape(captured, shape) && RadiosExclude(captured) && Holds(values, captured, fields)
        ensures BackTo(Restored(form, |form|, fields, values), |form|, form, captured, fields)
      {
        AlignedByShape(shape, form, fields);
        RestoreReproduces(form, |form|, captured, fields, values);
      }
    } else {
      var m :| 0 <= m < |shape| && shape[m].Retained(fields) && !IsAligned(shape, m, fields);
      var k := m;
      if j :| 0 <= j < |shape| && shape[j].Retained(fields) && shape[j].name.None? {
        k := j;
      }
      MisalignedIsNotReproduced(shape, k, fields);
    }
  }

  lemma AlignedByShape(shape: Form, form: Form, fields: seq<string>)
    requires SameShape(form, shape) && Aligned(shape, fields)
    ensures Aligned(form, fields)
  {
    forall k | 0 <= k < |form| && form[k].Retained(fields) ensures IsAligned(form, k, fields) {
      assert shape[k].Retained(fields) && IsAligned(shape, k, fields);
    }
  }

  // ----- A form that is not aligned -----

  /** The form with nothing ticked, one element showing `x` and all others showing `y`. */
  function Marked(shape: Form, k: int): (form: Form)
    ensures SameShape(form, shape) && RadiosExclude(form)
  {
    seq(|shape|, j requires 0 <= j < |shape| => Control(shape[j].kind, shape[j].name, if j == k then "x" else "y", false))
  }

  lemma {:induction false} HoldsSome(form: Form, fields: seq<string>) returns (values: Values)
    ensures Holds(values, form, fields)
  {
    if form == [] {
      values := map[];
    } else {
      var c := form[|form| - 1];
      var before := HoldsSome(form[..|form| - 1], fields);
      HoldsOneMore(before, form, |form| - 1, fields);
      assert form[..|form|] == form;
      values := if c.Retained(fields) then Pushed(before, c) else before;
    }
  }

  lemma {:induction false} OnlyTheMarkedShows(form: Form, k: nat, fields: seq<string>, name: string)
    requires k < |form| && forall j :: 0 <= j < |form| && j != k ==> form[j].value == "y" && !form[j].checked
    requires form[k].Name() == name && form[k].Retained(fields)
    ensures forall i :: 0 <= i < |FieldsNamed(form, fields, name)| && i != RankOf(form, k, fields) ==>
      FieldsNamed(form, fields, name)[i].value == "y"
    decreases |form|
  {
    var before := form[..|form| - 1];
    if k < |before| {
      assert before[..k] == form[..k];
      OnlyTheMarkedShows(before, k, fields, name);
      FieldAtItsRank(before, k, fields);
    } else {
      assert form[..k] == before;
      AllShow(before, fields, name);
    }
  }

  lemma {:induction false} AllShow(form: Form, fields: seq<string>, name: string)
    requires forall j :: 0 <= j < |form| ==> form[j].value == "y"
    ensures forall i :: 0 <= i < |FieldsNamed(form, fields, name)| ==> FieldsNamed(form, fields, name)[i].value == "y"
  {
    if form != [] {
      AllShow(form[..|form| - 1], fields, name);
    }
  }

  /** A control to show the failure with: one that lacks a name, or any misaligned one when none does. */
  predicate Misplaced(shape: Form, k: nat, fields: seq<string>)
    requires k < |shape|
  {
    && shape[k].Retained(fields) && !IsAligned(shape, k, fields)
    && (shape[k].name.None? || forall j :: 0 <= j < |shape| && shape[j].Retained(fields) ==> shape[j].name.Some?)
  }

  /** The misaligned control is offered another element's field, or none. */
  lemma OfferedAnother(shape: Form, form: Form, k: nat, fields: seq<string>, values: Values)
    requires k < |shape| && Misplaced(shape, k, fields)
    requires SameShape(form, shape) && Holds(values, Marked(shape, k), fields)
    ensures Offered(form, k, values).Some? ==> Offered(form, k, values).value.value == "y"
  {
    var captured := Marked(shape, k);
    var name := shape[k].Name();
    OnlyTheMarkedShows(captured, k, fields, name);
    if shape[k].name.Some? {
      CountOfShape(form, captured, k, shape[k].name);
      PlaceIsRankIff(captured, k, name, fields);
    }
  }

  lemma WriteShowsWhatIsOffered(now: Form, n: nat, k: nat, fields: seq<string>, values: Values)
    requires n < |now| && k < |now| && now[k].value == "y"
    requires n == k && Offered(now, k, values).Some? ==> Offered(now, k, values).value.value == "y"
    ensures SameShape(WriteBack(now, n, fields, values), now) && WriteBack(now, n, fields, values)[k].value == "y"
  {
  }

  /** Whatever a form of this shape shows, the control is offered "y" or nothing. */
  ghost predicate OffersOnlyY(form: Form, k: nat, values: Values)
    requires k < |form|
  {
    forall now: Form :: SameShape(now, form) && Offered(now, k, values).Some? ==> Offered(now, k, values).value.value == "y"
  }

  predicate StillShowsY(now: Form, form: Form, k: nat) {
    k < |form| && SameShape(now, form) && now[k].value == "y"
  }

  lemma RestoreKeepsY(form: Form, n: nat, k: nat, fields: seq<string>, values: Values)
    requires n < |form| && StillShowsY(Restored(form, n, fields, values), form, k) && OffersOnlyY(form, k, values)
    ensures StillShowsY(Restored(form, n + 1, fields, values), form, k)
  {
    WriteShowsWhatIsOffered(Restored(form, n, fields, values), n, k, fields, values);
  }

  lemma {:induction false} WritesOnlyWhatIsOffered(form: Form, n: nat, k: nat, fields: seq<string>, values: Values)
    requires n <= |form| && k < |form|
    requires form[k].value == "y" && OffersOnlyY(form, k, values)
    ensures StillShowsY(Restored(form, n, fields, values), form, k)
  {
    if n > 0 {
      WritesOnlyWhatIsOffered(form, n - 1, k, fields, values);
      RestoreKeepsY(form, n - 1, k, fields, values);
    }
  }

  lemma MisalignedIsNotReproduced(shape: Form, k: nat, fields: seq<string>)
    requires k < |shape| && Misplaced(shape, k, fields)
    ensures !RestoresFaithfully(shape, fields)
  {
    var form, captured := Marked(shape, -1), Marked(shape, k);
    var values := HoldsSome(captured, fields);
    forall now: Form | SameShape(now, form) && Offered(now, k, values).Some? ensures Offered(now, k, values).value.value == "y" {
      OfferedAnother(shape, now, k, fields, values);
    }
    WritesOnlyWhatIsOffered(form, |form|, k, fields, values);
    assert !LooksLike(Restored(form, |form|, fields, values)[k], captured[k]);
  }
}
