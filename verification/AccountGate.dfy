/**
 The boundary that shows a page's content only while the browser's account is confirmed
 (src/components/BrowserAccountBoundary.tsx): overlapping checks, a change marker shared by tabs,
 and an end state that nothing leaves. A state write and the commit it causes are one step.
 */
module AccountGate {

  datatype Phase = Checking | Ready | Offline | Expired | Changed | SignedOut

  /** What a check hears: this page's account, no account, another account, or no usable answer. */
  datatype Hearing = Mine | Nobody | Other | Unusable

  /** A check that is under way: the marker it started from and whether it masked the content. */
  datatype Probe = Probe(marker: nat, mask: bool)

  datatype Gate = Gate(
    phase: Phase,
    inert: bool,
    discarded: bool,
    sequence: nat,
    gone: bool,
    signedOut: bool,
    probes: map<nat, Probe>,
    hidden: bool,
    marker: nat)

  datatype Event =
    | Hear(id: nat, hearing: Hearing)
    | Signal(signedOut: bool)
    | PageHide
    | Focus
    | Visibility(hidden: bool)
    | PageShow(persisted: bool)
    | WentOffline
    | Tick
    | MarkerWritten(marker: nat)

  // ----- The handlers as functions -----

  function Masked(g: Gate): Gate {
    g.(inert := true)
  }

  function Checked(g: Gate, mask: bool): Gate {
    if g.gone then g
    else
      var next := g.(sequence := g.sequence + 1, probes := g.probes[g.sequence + 1 := Probe(g.marker, mask)]);
      if mask then Masked(next).(phase := Checking) else next
  }

  function Left(g: Gate): Gate {
    Masked(g).(sequence := g.sequence + 1)
  }

  function Focused(g: Gate): Gate {
    if g.gone then Masked(g) else Checked(g, g.inert)
  }

  function Settled(g: Gate, id: nat): Gate {
    g.(probes := g.probes - {id})
  }

  function Heard(g: Gate, id: nat, hearing: Hearing): Gate
    requires id in g.probes
  {
    var s := Settled(g, id);
    if id != g.sequence || g.gone then s
    else if hearing.Unusable? then Masked(s).(phase := Offline)
    else if g.probes[id].marker != g.marker then Checked(s, true)
    else if hearing.Mine? then
      if g.hidden then Masked(s).(signedOut := false, phase := Checking)
      else s.(signedOut := false, phase := Ready, inert := false)
    else if hearing.Nobody? && !g.signedOut then Masked(s).(phase := Expired)
    else Masked(s).(gone := true, discarded := true, phase := if hearing.Nobody? then SignedOut else Changed)
  }

  predicate Enabled(g: Gate, e: Event) {
    e.Hear? ==> e.id in g.probes
  }

  function Apply(g: Gate, e: Event): Gate
    requires Enabled(g, e)
  {
    match e
    case Hear(id, hearing) => Heard(g, id, hearing)
    case Signal(signedOut) => Checked(g.(signedOut := g.signedOut || signedOut), true)
    case PageHide => Left(g)
    case Focus => Focused(g)
    case Visibility(hidden) => if hidden then Left(g.(hidden := true)) else Focused(g.(hidden := false))
    case PageShow(persisted) => if persisted then Focused(g) else g
    case WentOffline => if g.gone then g else Left(g).(phase := Offline)
    case Tick => if g.hidden then g else Checked(g, false)
    case MarkerWritten(marker) => g.(marker := marker)
  }

  predicate Legal(g: Gate, es: seq<Event>)
    decreases |es|
  {
    es == [] || (Enabled(g, es[0]) && Legal(Apply(g, es[0]), es[1..]))
  }

  function Run(g: Gate, es: seq<Event>): Gate
    requires Legal(g, es)
    decreases |es|
  {
    if es == [] then g else Run(Apply(g, es[0]), es[1..])
  }

  /** The page as it is first shown: masked, with the first check under way. */
  function Start(hidden: bool, marker: nat): Gate {
    Checked(Gate(Checking, true, false, 0, false, false, map[], hidden, marker), true)
  }

  // ----- The boundary as it is updated -----

  class Boundary {
    var phase: Phase
    var inert: bool
    var discarded: bool
    var sequence: nat
    var gone: bool
    var signedOut: bool
    var probes: map<nat, Probe>
    var hidden: bool
    var marker: nat

    ghost function View(): Gate
      reads this
    {
      Gate(phase, inert, discarded, sequence, gone, signedOut, probes, hidden, marker)
    }

    constructor (hidden: bool, marker: nat)
      ensures View() == Start(hidden, marker)
    {
      this.phase, this.inert, this.discarded := Checking, true, false;
      this.sequence, this.gone, this.signedOut, this.probes := 0, false, false, map[];
      this.hidden, this.marker := hidden, marker;
      new;
      Check(true);
    }

    method Hide()
      modifies this`inert
      ensures inert
    {
      inert := true;
    }

    method Check(mask: bool)
      modifies this
      ensures View() == Checked(old(View()), mask)
    {
      if gone {
        return;
      }
      sequence := sequence + 1;
      probes := probes[sequence := Probe(marker, mask)];
      if mask {
        Hide();
        phase := Checking;
      }
    }

    method OnHearing(id: nat, hearing: Hearing)
      requires id in probes
      modifies this
      ensures View() == Heard(old(View()), id, hearing)
    {
      var probe := probes[id];
      probes := probes - {id};
      if id != sequence || gone {
        return;
      }
      match hearing {
        case Unusable =>
          Hide();
          phase := Offline;
        case _ =>
          if probe.marker != marker {
            Check(true);
            return;
          }
          OnScope(hearing);
      }
    }

    method OnScope(hearing: Hearing)
      requires !hearing.Unusable?
      modifies this
      ensures var g := old(View());
        View() ==
          if hearing.Mine? then
            if g.hidden then Masked(g).(signedOut := false, phase := Checking)
            else g.(signedOut := false, phase := Ready, inert := false)
          else if hearing.Nobody? && !g.signedOut then Masked(g).(phase := Expired)
          else Masked(g).(gone := true, discarded := true, phase := if hearing.Nobody? then SignedOut else Changed)
    {
      if hearing.Mine? {
        signedOut := false;
        if hidden {
          Hide();
          phase := Checking;
          return;
        }
        phase := Ready;
        inert := false;
      } else if hearing.Nobody? && !signedOut {
        Hide();
        phase := Expired;
      } else {
        Hide();
        gone := true;
        discarded := true;
        phase := if hearing.Nobody? then SignedOut else Changed;
      }
    }

    method OnSignal(signOut: bool)
      modifies this
      ensures View() == Apply(old(View()), Signal(signOut))
    {
      if signOut {
        signedOut := true;
      }
      Check(true);
    }

    method OnPageHide()
      modifies this
      ensures View() == Left(old(View()))
    {
      sequence := sequence + 1;
      Hide();
    }

    method OnFocus()
      modifies this
      ensures View() == Focused(old(View()))
    {
      if gone {
        Hide();
      } else {
        Check(inert);
      }
    }

    method OnVisible(nowHidden: bool)
      modifies this
      ensures View() == Apply(old(View()), Visibility(nowHidden))
    {
      hidden := nowHidden;
      if hidden {
        OnPageHide();
      } else {
        OnFocus();
      }
    }

    method OnPageShow(persisted: bool)
      modifies this
      ensures View() == Apply(old(View()), PageShow(persisted))
    {
      if persisted {
        OnFocus();
      }
    }

    method OnOffline()
      modifies this
      ensures View() == Apply(old(View()), WentOffline)
    {
      if !gone {
        sequence := sequence + 1;
        Hide();
        phase := Offline;
      }
    }

    method OnTick()
      modifies this
      ensures View() == Apply(old(View()), Tick)
    {
      if !hidden {
        Check(false);
      }
    }
  }

  // ----- What holds over every run -----

  predicate Invariant(g: Gate) {
    && (!g.inert ==> g.phase.Ready? && !g.gone && !g.hidden)
    && (g.gone <==> g.discarded)
    && (g.gone ==> g.phase.Changed? || g.phase.SignedOut?)
    && (forall id :: id in g.probes ==> 0 < id <= g.sequence)
  }

  lemma StartIsSound(hidden: bool, marker: nat)
    ensures Invariant(Start(hidden, marker))
  {
  }

  lemma StepKeepsInvariant(g: Gate, e: Event)
    requires Invariant(g) && Enabled(g, e)
    ensures Invariant(Apply(g, e))
  {
  }

  lemma {:induction false} RunKeepsInvariant(g: Gate, es: seq<Event>)
    requires Invariant(g) && Legal(g, es)
    ensures Invariant(Run(g, es))
    decreases |es|
  {
    if es != [] {
      StepKeepsInvariant(g, es[0]);
      RunKeepsInvariant(Apply(g, es[0]), es[1..]);
    }
  }

  /** A hidden page is masked, in every world of every run. */
  lemma HiddenIsMasked(g: Gate, es: seq<Event>)
    requires Invariant(g) && Legal(g, es) && Run(g, es).hidden
    ensures Run(g, es).inert
  {
    RunKeepsInvariant(g, es);
  }

  /**
   Content becomes usable only through the check with the highest number, which heard this page's
   account with the marker unchanged since it began, while the page is visible.
   */
  lemma OnlyTheLatestCheckReveals(g: Gate, e: Event)
    requires Invariant(g) && Enabled(g, e) && g.inert && !Apply(g, e).inert
    ensures e.Hear? && e.hearing.Mine?
    ensures e.id == g.sequence && forall id :: id in g.probes ==> id <= e.id
    ensures g.probes[e.id].marker == g.marker && !g.hidden && !g.gone
  {
  }

  /** A check that something newer has overtaken: a later check, the page leaving, or the connection going. */
  predicate Overtaken(g: Gate, id: nat) {
    id < g.sequence
  }

  lemma {:induction false} OvertakenForGood(g: Gate, es: seq<Event>, id: nat)
    requires Legal(g, es) && Overtaken(g, id)
    ensures Overtaken(Run(g, es), id)
    decreases |es|
  {
    if es != [] {
      OvertakenForGood(Apply(g, es[0]), es[1..], id);
    }
  }

  /** Whatever an overtaken check hears, and whenever, it changes nothing. */
  lemma OvertakenChangesNothing(g: Gate, es: seq<Event>, id: nat, hearing: Hearing)
    requires Legal(g, es) && Overtaken(g, id) && id in Run(g, es).probes
    ensures Heard(Run(g, es), id, hearing) == Settled(Run(g, es), id)
  {
    OvertakenForGood(g, es, id);
  }

  /** The page leaving, the connection going, a signal and a check each overtake every check under way. */
  lemma LeavingOvertakesAll(g: Gate, e: Event, id: nat)
    requires Invariant(g) && id in g.probes && !g.gone
    requires e.PageHide? || e.WentOffline? || e.Signal? || e.Focus? || e.Visibility? || (e.Tick? && !g.hidden)
    ensures Overtaken(Apply(g, e), id)
  {
  }

  /** Once the content was discarded, nothing reveals or restores it. */
  lemma {:induction false} DiscardIsForGood(g: Gate, es: seq<Event>)
    requires Invariant(g) && Legal(g, es) && g.gone
    ensures var t := Run(g, es); t.gone && t.discarded && t.inert && t.phase == g.phase
    decreases |es|
  {
    if es != [] {
      StepKeepsInvariant(g, es[0]);
      DiscardIsForGood(Apply(g, es[0]), es[1..]);
    }
  }

  /** The content is discarded only by the latest check, hearing another account or a sign-out that was signalled. */
  lemma DiscardHasACause(g: Gate, e: Event)
    requires Enabled(g, e) && !g.gone && Apply(g, e).gone
    ensures e.Hear? && e.id == g.sequence && g.probes[e.id].marker == g.marker
    ensures e.hearing.Other? || (e.hearing.Nobody? && g.signedOut)
  {
  }

  /** A session that merely ran out never costs the content: not without a signalled sign-out or another account. */
  lemma {:induction false} ExpiryNeverDiscards(g: Gate, es: seq<Event>)
    requires Legal(g, es) && !g.gone && !g.signedOut
    requires forall i :: 0 <= i < |es| ==> es[i] != Signal(true) && !(es[i].Hear? && es[i].hearing.Other?)
    ensures !Run(g, es).gone && !Run(g, es).signedOut
    decreases |es|
  {
    if es != [] {
      assert es[0] != Signal(true) && !(es[0].Hear? && es[0].hearing.Other?);
      ExpiryNeverDiscards(Apply(g, es[0]), es[1..]);
    }
  }

  // ----- When the content is discarded -----

  /** The check with the highest number hears this, with the marker as it was when it began. */
  predicate LatestHears(g: Gate, e: Event, hearing: Hearing) {
    && e == Hear(g.sequence, hearing) && !g.gone
    && g.sequence in g.probes && g.probes[g.sequence].marker == g.marker
  }

  /**
   A sign-out was signalled and this page's account was not confirmed since: `before` says whether that
   was so before these events.
   */
  ghost predicate SignOutStands(g: Gate, es: seq<Event>, before: bool)
    requires Legal(g, es)
    decreases |es|
  {
    if es == [] then before
    else SignOutStands(Apply(g, es[0]), es[1..], es[0] == Signal(true) || (before && !LatestHears(g, es[0], Mine)))
  }

  lemma {:induction false} SignOutIsKnown(g: Gate, es: seq<Event>)
    requires Invariant(g) && Legal(g, es) && !Run(g, es).gone
    ensures Run(g, es).signedOut <==> SignOutStands(g, es, g.signedOut)
    decreases |es|
  {
    if es != [] {
      if Apply(g, es[0]).gone {
        StepKeepsInvariant(g, es[0]);
        DiscardIsForGood(Apply(g, es[0]), es[1..]);
      }
      StepKeepsInvariant(g, es[0]);
      SignOutIsKnown(Apply(g, es[0]), es[1..]);
    }
  }

  /**
   Over every run the content is discarded exactly when the latest check hears another account, or hears
   none while a sign-out was signalled and the account not confirmed since.
   */
  lemma DiscardedIff(hidden: bool, marker: nat, es: seq<Event>, e: Event)
    requires Legal(Start(hidden, marker), es) && Enabled(Run(Start(hidden, marker), es), e) && !Run(Start(hidden, marker), es).gone
    ensures var g := Run(Start(hidden, marker), es);
      Apply(g, e).discarded <==>
        LatestHears(g, e, Other) || (LatestHears(g, e, Nobody) && SignOutStands(Start(hidden, marker), es, false))
  {
    StartIsSound(hidden, marker);
    RunKeepsInvariant(Start(hidden, marker), es);
    StepKeepsInvariant(Run(Start(hidden, marker), es), e);
    SignOutIsKnown(Start(hidden, marker), es);
  }

  /** And then the page says which of the two it was, through whatever happens later. */
  lemma DiscardSaysWhy(g: Gate, e: Event, later: seq<Event>)
    requires Invariant(g) && Enabled(g, e) && !g.gone && Apply(g, e).discarded && Legal(Apply(g, e), later)
    ensures var t := Run(Apply(g, e), later);
      && t.discarded && t.inert && (LatestHears(g, e, Nobody) ==> t.phase == SignedOut) && (LatestHears(g, e, Other) ==> t.phase == Changed)
  {
    StepKeepsInvariant(g, e);
    DiscardIsForGood(Apply(g, e), later);
  }

  // ----- What each answer shows -----

  /** What the latest check hears decides what the page shows. */
  lemma LatestCheckDecides(g: Gate, e: Event)
    requires Invariant(g) && Enabled(g, e)
    ensures LatestHears(g, e, Mine) ==>
      if g.hidden then Apply(g, e).inert && Apply(g, e).phase == Checking else !Apply(g, e).inert && Apply(g, e).phase == Ready
    ensures LatestHears(g, e, Nobody) && !Apply(g, e).discarded ==> Apply(g, e).inert && Apply(g, e).phase == Expired
    ensures e == Hear(g.sequence, Unusable) && !g.gone ==> Apply(g, e).inert && Apply(g, e).phase == Offline
  {
  }

  /** A check that finds the marker changed shows nothing and is followed by another, from the marker now. */
  lemma ChangedMarkerIsCheckedAgain(g: Gate, id: nat, hearing: Hearing)
    requires Invariant(g) && id == g.sequence && id in g.probes && !g.gone && !hearing.Unusable? && g.probes[id].marker != g.marker
    ensures var t := Apply(g, Hear(id, hearing));
      && t.inert && t.phase == Checking && t.sequence > g.sequence
      && t.sequence in t.probes && t.probes[t.sequence].marker == g.marker
  {
  }

  /** A signal, leaving and losing the connection mask the content at once; checking in the background does not. */
  lemma MaskedAtOnceIff(g: Gate, e: Event)
    requires Invariant(g) && Enabled(g, e) && !g.inert && !e.Hear?
    ensures Apply(g, e).inert <==> e.Signal? || e.PageHide? || e.WentOffline? || e == Visibility(true)
    ensures e.WentOffline? ==> Apply(g, e).phase == Offline
    ensures e.Signal? ==> Apply(g, e).phase == Checking
  {
  }

  /** Signals, ticks on a visible page, and every way to come back start a check from the marker now. */
  lemma ChecksBegin(g: Gate, e: Event)
    requires Invariant(g) && Enabled(g, e) && !g.gone
    requires e.Signal? || e.Focus? || e == Visibility(false) || e == PageShow(true) || (e.Tick? && !g.hidden)
    ensures var t := Apply(g, e); t.sequence > g.sequence && t.sequence in t.probes && t.probes[t.sequence].marker == t.marker
    ensures g.inert && !e.Tick? ==> Apply(g, e).inert && Apply(g, e).phase == Checking
  {
  }

  /** A page restored from no cache, a tick in the background and a marker that is written start no check and show nothing. */
  lemma QuietEvents(g: Gate, e: Event)
    requires e.MarkerWritten? || e == PageShow(false) || (e.Tick? && g.hidden)
    ensures var t := Apply(g, e);
      t == g.(marker := t.marker) && t.marker == if e.MarkerWritten? then e.marker else g.marker
  {
  }

  /** The page knows its visibility and the shared marker as they were last. */
  lemma EventsAreTaken(g: Gate, e: Event)
    requires Enabled(g, e)
    ensures Apply(g, e).hidden == if e.Visibility? then e.hidden else g.hidden
    ensures Apply(g, e).marker == if e.MarkerWritten? then e.marker else g.marker
  {
  }

  lemma HearingEndsTheCheck(g: Gate, id: nat, hearing: Hearing)
    requires Invariant(g) && id in g.probes
    ensures var after := Heard(g, id, hearing).probes;
      id !in after && forall other :: other in g.probes && other != id ==> other in after && after[other] == g.probes[other]
  {
  }

  /** It hears each check once, and loses none. */
  lemma ChecksAreHeardOnce(g: Gate, e: Event)
    requires Invariant(g) && Enabled(g, e)
    ensures e.Hear? ==> e.id !in Apply(g, e).probes
    ensures forall id :: id in g.probes && (e.Hear? ==> e.id != id) ==>
      id in Apply(g, e).probes && Apply(g, e).probes[id] == g.probes[id]
  {
    if e.Hear? {
      HearingEndsTheCheck(g, e.id, e.hearing);
    }
  }

  ghost predicate CanBeUsedAgain(g: Gate) {
    exists es :: Legal(g, es) && !Run(g, es).inert
  }

  /** The content can become usable again, from any phase, exactly while it has not been discarded. */
  lemma UsableAgainIffNotDiscarded(g: Gate)
    requires Invariant(g)
    ensures CanBeUsedAgain(g) <==> !g.gone
  {
    if g.gone {
      forall es | Legal(g, es) ensures Run(g, es).inert {
        DiscardIsForGood(g, es);
      }
    } else {
      var back := Visibility(false);
      var seen := Apply(g, back);
      var hear := Hear(seen.sequence, Mine);
      var es := [back, hear];
      assert es[1..] == [hear] && [hear][1..] == [];
      assert Legal(Apply(seen, hear), []) && Legal(seen, [hear]);
      assert Run(seen, [hear]) == Apply(seen, hear);
      assert Legal(g, es) && Run(g, es) == Apply(seen, hear);
    }
  }
}
