/**
 Follow-up cards that hide once an outcome is recorded and may return, and the confirmations that offer
 an Undo (JumpWorkflowCard, HostedConfirmationItem and the hosted list in src/components/JumpWorkflow.tsx).
 Time is counted in milliseconds; a state change and what it renders are one step.
 */
module OutcomeCards {
  import opened Options

  // ----- The card -----

  datatype Card = Card(hidden: bool, revision: string, outcomeRevision: string)

  /** What a card meets: its follow-up's state as the page hears of it, and fresh reads of the list. */
  datatype CardEvent = Hears(pending: bool) | Reads(revision: string)

  function CardAfter(c: Card, e: CardEvent): Card {
    match e
    case Hears(true) => c.(hidden := false)
    case Hears(false) => c.(hidden := true, outcomeRevision := c.revision)
    case Reads(revision) => c.(revision := revision, hidden := c.hidden && revision == c.outcomeRevision)
  }

  function CardAfterAll(c: Card, es: seq<CardEvent>): Card {
    if es == [] then c else CardAfter(CardAfterAll(c, es[..|es| - 1]), es[|es| - 1])
  }

  class WorkflowCard {
    var hidden: bool
    var latestRevision: string
    var outcomeRevision: string

    ghost function Now(): Card
      reads this
    {
      Card(hidden, latestRevision, outcomeRevision)
    }

    constructor (revision: string)
      ensures Now() == Card(false, revision, revision)
    {
      hidden, latestRevision, outcomeRevision := false, revision, revision;
    }

    method OnState(pending: bool)
      modifies this
      ensures Now() == CardAfter(old(Now()), Hears(pending))
    {
      if pending {
        hidden := false;
      } else {
        outcomeRevision := latestRevision;
        hidden := true;
      }
    }

    method OnRead(revision: string)
      modifies this
      ensures Now() == CardAfter(old(Now()), Reads(revision))
    {
      latestRevision := revision;
      if hidden && revision != outcomeRevision {
        hidden := false;
      }
    }
  }

  /** The revision of the last read, or the one at first. */
  function LastRead(first: string, es: seq<CardEvent>): string {
    if es == [] then first
    else if es[|es| - 1].Reads? then es[|es| - 1].revision
    else LastRead(first, es[..|es| - 1])
  }

  lemma {:induction false} RevisionIsTheLastRead(c: Card, es: seq<CardEvent>)
    ensures CardAfterAll(c, es).revision == LastRead(c.revision, es)
  {
    if es != [] {
      RevisionIsTheLastRead(c, es[..|es| - 1]);
    }
  }

  /** The step settled the follow-up, and since then it was not reopened, nor read at another revision. */
  predicate StaysSettled(c: Card, es: seq<CardEvent>, i: nat)
    requires i < |es|
  {
    && es[i] == Hears(false)
    && (forall j :: i < j < |es| ==> es[j] != Hears(true))
    && (forall j :: i < j < |es| && es[j].Reads? ==> es[j].revision == LastRead(c.revision, es[..i]))
  }

  lemma StaysSettledOn(c: Card, es: seq<CardEvent>, e: CardEvent, i: nat)
    requires i < |es|
    ensures StaysSettled(c, es + [e], i) <==>
      StaysSettled(c, es, i) && e != Hears(true) && (e.Reads? ==> e.revision == LastRead(c.revision, es[..i]))
  {
    var more := es + [e];
    assert more[..i] == es[..i] && more[|es|] == e && forall j :: 0 <= j < |es| ==> more[j] == es[j];
    if StaysSettled(c, more, i) {
      assert forall j :: i < j < |es| ==> more[j] == es[j];
      assert more[|es|] != Hears(true);
    }
  }

  lemma {:induction false} RevisionWhileSettled(c: Card, es: seq<CardEvent>, i: nat)
    requires i < |es| && StaysSettled(c, es, i)
    ensures CardAfterAll(c, es).hidden && CardAfterAll(c, es).outcomeRevision == CardAfterAll(c, es).revision == LastRead(c.revision, es[..i])
    decreases |es|
  {
    var before, e := es[..|es| - 1], es[|es| - 1];
    assert es == before + [e];
    if i < |before| {
      StaysSettledOn(c, before, e, i);
      assert before[..i] == es[..i];
      RevisionWhileSettled(c, before, i);
    } else {
      assert es[..i] == before;
      RevisionIsTheLastRead(c, before);
    }
  }

  /**
   A card is out of the list exactly while an outcome the page heard stands: no reopening was heard
   since, and every read since then shows the follow-up at the revision the outcome was recorded on.
   */
  lemma {:induction false} CardIsHiddenIff(c: Card, es: seq<CardEvent>)
    requires !c.hidden
    ensures CardAfterAll(c, es).hidden <==> exists i :: 0 <= i < |es| && StaysSettled(c, es, i)
  {
    if es != [] {
      var before, e := es[..|es| - 1], es[|es| - 1];
      assert es == before + [e];
      CardIsHiddenIff(c, before);
      if i :| 0 <= i < |es| && StaysSettled(c, es, i) {
        RevisionWhileSettled(c, es, i);
      }
      if CardAfterAll(c, es).hidden {
        if e == Hears(false) {
          assert StaysSettled(c, es, |before|);
        } else {
          var i :| 0 <= i < |before| && StaysSettled(c, before, i);
          RevisionWhileSettled(c, before, i);
          StaysSettledOn(c, before, e, i);
        }
      }
    }
  }

  // ----- Confirmations and their Undo -----

  const HOLD := 10_000

  /** `mount` tells one stay of a follow-up's confirmation from the next; `timer` is the one it cleans up. */
  datatype Confirmation = Confirmation(mount: nat, skipped: bool, undoing: bool, timer: Option<nat>)

  datatype Timer = Timer(jumpId: string, due: int)

  datatype Undo = Undo(jumpId: string, mount: nat)

  /** The hosted list, every timer that is set, and the Undo requests under way. */
  datatype Hosted = Hosted(shown: map<string, Confirmation>, timers: map<nat, Timer>, undos: map<nat, Undo>, next: nat)

  datatype Step =
    | Settles(jumpId: string, skipped: bool)
    | Reopens(jumpId: string)
    | TimerRuns(timer: nat)
    | UndoPressed(jumpId: string)
    | UndoFails(undo: nat)
    | UndoWorks(undo: nat)
    | ListRead

  predicate Can(h: Hosted, step: Step, now: int) {
    match step
    case TimerRuns(timer) => timer in h.timers && h.timers[timer].due <= now
    case UndoPressed(jumpId) => jumpId in h.shown && !h.shown[jumpId].undoing
    case UndoFails(undo) => undo in h.undos
    case UndoWorks(undo) => undo in h.undos
    case _ => true
  }

  /** A confirmation leaves and clears the timer it knows of. */
  function Dropped(h: Hosted, jumpId: string): Hosted {
    if jumpId !in h.shown then h
    else h.(shown := h.shown - {jumpId}, timers := if h.shown[jumpId].timer.Some? then h.timers - {h.shown[jumpId].timer.value} else h.timers)
  }

  function Stepped(h: Hosted, step: Step, now: int): Hosted
    requires Can(h, step, now)
  {
    match step
    case Settles(jumpId, skipped) =>
      if jumpId in h.shown then h.(shown := h.shown[jumpId := h.shown[jumpId].(skipped := skipped)])
      else h.(shown := h.shown[jumpId := Confirmation(h.next, skipped, false, Some(h.next))],
              timers := h.timers[h.next := Timer(jumpId, now + HOLD)], next := h.next + 1)
    case Reopens(jumpId) => Dropped(h, jumpId)
    case TimerRuns(timer) => Dropped(h.(timers := h.timers - {timer}), h.timers[timer].jumpId)
    case UndoPressed(jumpId) =>
      var c := h.shown[jumpId];
      h.(shown := h.shown[jumpId := c.(undoing := true, timer := None)],
         timers := if c.timer.Some? then h.timers - {c.timer.value} else h.timers,
         undos := h.undos[h.next := Undo(jumpId, c.mount)], next := h.next + 1)
    case UndoFails(undo) =>
      var u := h.undos[undo];
      var mounted := u.jumpId in h.shown && h.shown[u.jumpId].mount == u.mount;
      h.(shown := if mounted then h.shown[u.jumpId := h.shown[u.jumpId].(undoing := false, timer := Some(h.next))] else h.shown,
         timers := h.timers[h.next := Timer(u.jumpId, now + HOLD)], undos := h.undos - {undo}, next := h.next + 1)
    case UndoWorks(undo) => Dropped(h.(undos := h.undos - {undo}), h.undos[undo].jumpId)
    case ListRead => h
  }

  class Confirmations {
    var shown: map<string, Confirmation>
    var timers: map<nat, Timer>
    var undos: map<nat, Undo>
    var next: nat

    ghost function Now(): Hosted
      reads this
    {
      Hosted(shown, timers, undos, next)
    }

    constructor ()
      ensures Now() == Hosted(map[], map[], map[], 0)
    {
      shown, timers, undos, next := map[], map[], map[], 0;
    }

    method Host(jumpId: string, skipped: bool, now: int)
      modifies this
      ensures Now() == Stepped(old(Now()), Settles(jumpId, skipped), now)
    {
      if jumpId in shown {
        shown := shown[jumpId := shown[jumpId].(skipped := skipped)];
      } else {
        shown := shown[jumpId := Confirmation(next, skipped, false, Some(next))];
        timers := timers[next := Timer(jumpId, now + HOLD)];
        next := next + 1;
      }
    }

    method Drop(jumpId: string)
      modifies this`shown, this`timers
      ensures Now() == Dropped(old(Now()), jumpId)
    {
      if jumpId in shown {
        if shown[jumpId].timer.Some? {
          timers := timers - {shown[jumpId].timer.value};
        }
        shown := shown - {jumpId};
      }
    }

    method OnTimer(timer: nat, now: int)
      requires Can(Now(), TimerRuns(timer), now)
      modifies this
      ensures Now() == Stepped(old(Now()), TimerRuns(timer), now)
    {
      var jumpId := timers[timer].jumpId;
      timers := timers - {timer};
      Drop(jumpId);
    }

    method PressUndo(jumpId: string, now: int) returns (undo: nat)
      requires Can(Now(), UndoPressed(jumpId), now)
      modifies this
      ensures Now() == Stepped(old(Now()), UndoPressed(jumpId), now) && undo == old(next)
    {
      var c := shown[jumpId];
      if c.timer.Some? {
        timers := timers - {c.timer.value};
      }
      shown := shown[jumpId := c.(undoing := true, timer := None)];
      undos := undos[next := Undo(jumpId, c.mount)];
      undo := next;
      next := next + 1;
    }

    method OnUndoFailed(undo: nat, now: int)
      requires Can(Now(), UndoFails(undo), now)
      modifies this
      ensures Now() == Stepped(old(Now()), UndoFails(undo), now)
    {
      var u := undos[undo];
      undos := undos - {undo};
      timers := timers[next := Timer(u.jumpId, now + HOLD)];
      if u.jumpId in shown && shown[u.jumpId].mount == u.mount {
        shown := shown[u.jumpId := shown[u.jumpId].(undoing := false, timer := Some(next))];
      }
      next := next + 1;
    }

    method OnUndone(undo: nat, now: int)
      requires Can(Now(), UndoWorks(undo), now)
      modifies this
      ensures Now() == Stepped(old(Now()), UndoWorks(undo), now)
    {
      var jumpId := undos[undo].jumpId;
      undos := undos - {undo};
      Drop(jumpId);
    }
  }

  // ----- Runs -----

  /** A step and when it happens. */
  datatype Timed = Timed(step: Step, now: int)

  ghost predicate Reaches(h: Hosted, steps: seq<Timed>, since: int, end: Hosted)
    decreases |steps|
  {
    if steps == [] then h == end
    else
      && steps[0].now >= since && Can(h, steps[0].step, steps[0].now)
      && Reaches(Stepped(h, steps[0].step, steps[0].now), steps[1..], steps[0].now, end)
  }

  ghost predicate NumberedInOrder(h: Hosted) {
    && (forall t :: t in h.timers ==> t < h.next)
    && (forall u :: u in h.undos ==> u < h.next && h.undos[u].mount < h.next)
    && (forall j :: j in h.shown ==> h.shown[j].mount < h.next && (h.shown[j].timer.Some? ==> h.shown[j].timer.value < h.next))
  }

  predicate IsMounted(h: Hosted, u: Undo) {
    u.jumpId in h.shown && h.shown[u.jumpId].mount == u.mount
  }

  /** A confirmation whose Undo is under way has no timer, and only one Undo at a time. */
  ghost predicate UndosAreSound(h: Hosted) {
    && (forall j :: j in h.shown && h.shown[j].undoing ==> h.shown[j].timer.None?)
    && (forall u :: u in h.undos && IsMounted(h, h.undos[u]) ==> h.shown[h.undos[u].jumpId].undoing)
    && (forall u, v :: u in h.undos && v in h.undos && u != v ==> h.undos[u] != h.undos[v] || !IsMounted(h, h.undos[u]))
  }

  /** Every timer that is set is the one its follow-up's confirmation knows of. */
  ghost predicate TimersAreOwned(h: Hosted) {
    forall t :: t in h.timers ==> h.timers[t].jumpId in h.shown && h.shown[h.timers[t].jumpId].timer == Some(t)
  }

  /** An Undo that fails after its confirmation left. */
  predicate FailsLate(h: Hosted, step: Step) {
    step.UndoFails? && step.undo in h.undos && !IsMounted(h, h.undos[step.undo])
  }

  lemma SettlingKeepsUndos(h: Hosted, jumpId: string, skipped: bool, now: int)
    requires NumberedInOrder(h) && UndosAreSound(h)
    ensures var after := Stepped(h, Settles(jumpId, skipped), now); NumberedInOrder(after) && UndosAreSound(after)
  {
  }

  lemma DroppingKeepsUndos(h: Hosted, jumpId: string)
    requires NumberedInOrder(h) && UndosAreSound(h)
    ensures NumberedInOrder(Dropped(h, jumpId)) && UndosAreSound(Dropped(h, jumpId))
  {
  }

  lemma PressingKeepsUndos(h: Hosted, jumpId: string, now: int)
    requires NumberedInOrder(h) && UndosAreSound(h) && Can(h, UndoPressed(jumpId), now)
    ensures var after := Stepped(h, UndoPressed(jumpId), now); NumberedInOrder(after) && UndosAreSound(after)
  {
  }

  lemma FailingKeepsUndos(h: Hosted, undo: nat, now: int)
    requires NumberedInOrder(h) && UndosAreSound(h) && Can(h, UndoFails(undo), now)
    ensures var after := Stepped(h, UndoFails(undo), now); NumberedInOrder(after) && UndosAreSound(after)
  {
  }

  lemma StepKeepsOrder(h: Hosted, step: Step, now: int)
    requires NumberedInOrder(h) && UndosAreSound(h) && Can(h, step, now)
    ensures NumberedInOrder(Stepped(h, step, now)) && UndosAreSound(Stepped(h, step, now))
  {
    match step {
      case Settles(jumpId, skipped) => SettlingKeepsUndos(h, jumpId, skipped, now);
      case Reopens(jumpId) => DroppingKeepsUndos(h, jumpId);
      case TimerRuns(timer) => DroppingKeepsUndos(h.(timers := h.timers - {timer}), h.timers[timer].jumpId);
      case UndoPressed(jumpId) => PressingKeepsUndos(h, jumpId, now);
      case UndoFails(undo) => FailingKeepsUndos(h, undo, now);
      case UndoWorks(undo) => DroppingKeepsUndos(h.(undos := h.undos - {undo}), h.undos[undo].jumpId);
      case ListRead =>
    }
  }

  lemma StepKeepsOwned(h: Hosted, step: Step, now: int)
    requires NumberedInOrder(h) && UndosAreSound(h) && TimersAreOwned(h) && Can(h, step, now)
    ensures TimersAreOwned(Stepped(h, step, now)) <==> !FailsLate(h, step)
  {
    if FailsLate(h, step) {
      assert h.next in Stepped(h, step, now).timers;
    }
  }

  /** No Undo of the run fails after its confirmation left. */
  ghost predicate NoneFailsLate(h: Hosted, steps: seq<Timed>)
    decreases |steps|
  {
    steps == [] || (!FailsLate(h, steps[0].step) && Can(h, steps[0].step, steps[0].now) &&
      NoneFailsLate(Stepped(h, steps[0].step, steps[0].now), steps[1..]))
  }

  lemma {:induction false} RunKeepsOwned(h: Hosted, steps: seq<Timed>, since: int, end: Hosted)
    requires Reaches(h, steps, since, end) && NoneFailsLate(h, steps)
    requires NumberedInOrder(h) && UndosAreSound(h) && TimersAreOwned(h)
    ensures NumberedInOrder(end) && TimersAreOwned(end)
    decreases |steps|
  {
    if steps != [] {
      StepKeepsOrder(h, steps[0].step, steps[0].now);
      StepKeepsOwned(h, steps[0].step, steps[0].now);
      RunKeepsOwned(Stepped(h, steps[0].step, steps[0].now), steps[1..], steps[0].now, end);
    }
  }

  /** Only time passes: timers run, earlier Undo requests fail, fresh lists are read. */
  predicate IsIdle(step: Step) {
    step.TimerRuns? || step.UndoFails? || step.ListRead?
  }

  /** Some timer other than the confirmation's own would take it away before `end`. */
  ghost predicate StrayTimer(h: Hosted, jumpId: string, end: int) {
    exists t :: t in h.timers && h.timers[t].jumpId == jumpId && h.timers[t].due < end
  }

  lemma IdleKeeps(h: Hosted, step: Step, now: int, jumpId: string, end: int)
    requires Can(h, step, now) && IsIdle(step) && end - HOLD <= now < end && (forall t :: t in h.timers ==> t < h.next)
    requires jumpId in h.shown && !StrayTimer(h, jumpId, end)
    ensures var after := Stepped(h, step, now);
      && jumpId in after.shown && after.shown[jumpId].mount == h.shown[jumpId].mount && !StrayTimer(after, jumpId, end)
      && forall t :: t in after.timers ==> t < after.next
  {
  }

  lemma {:induction false} IdleRunKeeps(h: Hosted, steps: seq<Timed>, since: int, after: Hosted, jumpId: string, end: int)
    requires Reaches(h, steps, since, after) && end - HOLD <= since && (forall t :: t in h.timers ==> t < h.next)
    requires forall k :: 0 <= k < |steps| ==> IsIdle(steps[k].step) && steps[k].now < end
    requires jumpId in h.shown && !StrayTimer(h, jumpId, end)
    ensures jumpId in after.shown && after.shown[jumpId].mount == h.shown[jumpId].mount
    decreases |steps|
  {
    if steps != [] {
      IdleKeeps(h, steps[0].step, steps[0].now, jumpId, end);
      IdleRunKeeps(Stepped(h, steps[0].step, steps[0].now), steps[1..], steps[0].now, after, jumpId, end);
    }
  }

  // ----- Each confirmation leaves, and its Undo ends -----

  /** A confirmation has a timer that is set for it, and comes within ten seconds; or an Undo under way. */
  ghost predicate EachWillEnd(h: Hosted, now: int) {
    forall j :: j in h.shown ==>
      if h.shown[j].undoing then exists u :: u in h.undos && h.undos[u] == Undo(j, h.shown[j].mount)
      else
        && h.shown[j].timer.Some? && h.shown[j].timer.value in h.timers
        && h.timers[h.shown[j].timer.value].jumpId == j && h.timers[h.shown[j].timer.value].due <= now + 10_000
  }

  /** Each timer is known by the confirmation it was set for only. */
  ghost predicate TimersAreNamed(h: Hosted) {
    forall j :: j in h.shown && h.shown[j].timer.Some? && h.shown[j].timer.value in h.timers ==>
      h.timers[h.shown[j].timer.value].jumpId == j
  }

  lemma DroppingEndsOthers(h: Hosted, jumpId: string, now: int)
    requires TimersAreNamed(h)
    requires forall j :: j in h.shown && j != jumpId && h.shown[j].undoing ==>
      exists u :: u in h.undos && h.undos[u] == Undo(j, h.shown[j].mount)
    requires forall j :: j in h.shown && j != jumpId && !h.shown[j].undoing ==>
      && h.shown[j].timer.Some? && h.shown[j].timer.value in h.timers
      && h.timers[h.shown[j].timer.value].jumpId == j && h.timers[h.shown[j].timer.value].due <= now + 10_000
    ensures EachWillEnd(Dropped(h, jumpId), now)
  {
  }

  lemma SettlingWillEnd(h: Hosted, jumpId: string, skipped: bool, now: int)
    requires NumberedInOrder(h) && EachWillEnd(h, now)
    ensures EachWillEnd(Stepped(h, Settles(jumpId, skipped), now), now)
  {
  }

  lemma PressedWillEnd(h: Hosted, jumpId: string, now: int)
    requires NumberedInOrder(h) && UndosAreSound(h) && EachWillEnd(h, now) && Can(h, UndoPressed(jumpId), now)
    ensures EachWillEnd(Stepped(h, UndoPressed(jumpId), now), now)
  {
    var after := Stepped(h, UndoPressed(jumpId), now);
    assert after.undos[h.next] == Undo(jumpId, h.shown[jumpId].mount);
    forall j | j in h.shown && j != jumpId && h.shown[j].undoing
      ensures exists u :: u in after.undos && after.undos[u] == Undo(j, h.shown[j].mount)
    {
      var u :| u in h.undos && h.undos[u] == Undo(j, h.shown[j].mount);
      assert after.undos[u] == h.undos[u];
    }
  }

  lemma FailedWillEnd(h: Hosted, undo: nat, now: int)
    requires NumberedInOrder(h) && UndosAreSound(h) && EachWillEnd(h, now) && Can(h, UndoFails(undo), now)
    ensures EachWillEnd(Stepped(h, UndoFails(undo), now), now)
  {
    var after := Stepped(h, UndoFails(undo), now);
    forall j | j in after.shown && after.shown[j].undoing
      ensures exists u :: u in after.undos && after.undos[u] == Undo(j, after.shown[j].mount)
    {
      assert j in h.shown && h.shown[j].undoing && after.shown[j].mount == h.shown[j].mount;
      var u :| u in h.undos && h.undos[u] == Undo(j, h.shown[j].mount);
      assert u != undo && u in after.undos;
    }
  }

  lemma DoneWillEnd(h: Hosted, undo: nat, now: int)
    requires NumberedInOrder(h) && UndosAreSound(h) && EachWillEnd(h, now) && Can(h, UndoWorks(undo), now)
    ensures EachWillEnd(Stepped(h, UndoWorks(undo), now), now)
  {
    var g := h.(undos := h.undos - {undo});
    forall j | j in g.shown && j != h.undos[undo].jumpId && g.shown[j].undoing
      ensures exists u :: u in g.undos && g.undos[u] == Undo(j, g.shown[j].mount)
    {
      var u :| u in h.undos && h.undos[u] == Undo(j, h.shown[j].mount);
      assert u in g.undos;
    }
    DroppingEndsOthers(g, h.undos[undo].jumpId, now);
  }

  lemma TimerWillEnd(h: Hosted, timer: nat, now: int)
    requires EachWillEnd(h, now) && TimersAreNamed(h) && Can(h, TimerRuns(timer), now)
    ensures EachWillEnd(Stepped(h, TimerRuns(timer), now), now)
  {
    var g := h.(timers := h.timers - {timer});
    DroppingEndsOthers(g, h.timers[timer].jumpId, now);
  }

  lemma StepWillEnd(h: Hosted, step: Step, now: int)
    requires NumberedInOrder(h) && UndosAreSound(h) && TimersAreNamed(h) && EachWillEnd(h, now) && Can(h, step, now)
    ensures EachWillEnd(Stepped(h, step, now), now)
  {
    match step {
      case Settles(jumpId, skipped) => SettlingWillEnd(h, jumpId, skipped, now);
      case Reopens(jumpId) => DroppingEndsOthers(h, jumpId, now);
      case TimerRuns(timer) => TimerWillEnd(h, timer, now);
      case UndoPressed(jumpId) => PressedWillEnd(h, jumpId, now);
      case UndoFails(undo) => FailedWillEnd(h, undo, now);
      case UndoWorks(undo) => DoneWillEnd(h, undo, now);
      case ListRead =>
    }
  }

  lemma StepNamesTimers(h: Hosted, step: Step, now: int)
    requires NumberedInOrder(h) && TimersAreNamed(h) && Can(h, step, now)
    ensures TimersAreNamed(Stepped(h, step, now))
  {
  }

  lemma {:induction false} RunWillEnd(h: Hosted, steps: seq<Timed>, since: int, end: Hosted)
    requires Reaches(h, steps, since, end) && NumberedInOrder(h) && UndosAreSound(h) && TimersAreNamed(h) && EachWillEnd(h, since)
    ensures NumberedInOrder(end) && UndosAreSound(end) && TimersAreNamed(end)
    ensures EachWillEnd(end, if steps == [] then since else steps[|steps| - 1].now)
    decreases |steps|
  {
    if steps != [] {
      StepKeepsOrder(h, steps[0].step, steps[0].now);
      StepNamesTimers(h, steps[0].step, steps[0].now);
      StepWillEnd(h, steps[0].step, steps[0].now);
      RunWillEnd(Stepped(h, steps[0].step, steps[0].now), steps[1..], steps[0].now, end);
    }
  }

  /**
   In every run a confirmation ends: its timer comes within ten seconds and takes it away, once; or its
   Undo is under way, and takes it away when it works, and makes it whole again when it fails.
   */
  lemma ConfirmationEnds(steps: seq<Timed>, h: Hosted, jumpId: string, start: int, now: int)
    requires Reaches(Hosted(map[], map[], map[], 0), steps, start, h) && jumpId in h.shown
    requires now == if steps == [] then start else steps[|steps| - 1].now
    ensures !h.shown[jumpId].undoing ==> exists t, at ::
      && at <= now + 10_000 && Can(h, TimerRuns(t), at)
      && jumpId !in Stepped(h, TimerRuns(t), at).shown && t !in Stepped(h, TimerRuns(t), at).timers
    ensures h.shown[jumpId].undoing ==> exists u ::
      && Can(h, UndoWorks(u), now) && Can(h, UndoFails(u), now)
      && jumpId !in Stepped(h, UndoWorks(u), now).shown && u !in Stepped(h, UndoWorks(u), now).undos
      && jumpId in Stepped(h, UndoFails(u), now).shown && !Stepped(h, UndoFails(u), now).shown[jumpId].undoing
  {
    RunWillEnd(Hosted(map[], map[], map[], 0), steps, start, h);
    if h.shown[jumpId].undoing {
      var u :| u in h.undos && h.undos[u] == Undo(jumpId, h.shown[jumpId].mount);
      assert Can(h, UndoWorks(u), now) && Can(h, UndoFails(u), now);
    } else {
      var t := h.shown[jumpId].timer.value;
      assert Can(h, TimerRuns(t), h.timers[t].due);
    }
  }

  /** A timer runs once, and takes no other timer along but its follow-up's own. */
  lemma TimerRunsOnce(h: Hosted, timer: nat, now: int, other: nat)
    requires Can(h, TimerRuns(timer), now) && other in h.timers
    ensures other in Stepped(h, TimerRuns(timer), now).timers <==>
      other != timer && !(h.timers[timer].jumpId in h.shown && h.shown[h.timers[timer].jumpId].timer == Some(other))
  {
  }

  /** What each confirmation says is the outcome last heard of its follow-up; no other step changes it. */
  lemma EachSaysItsOutcome(h: Hosted, step: Step, now: int, jumpId: string)
    requires Can(h, step, now)
    ensures jumpId in Stepped(h, step, now).shown <==>
      || (step.Settles? && step.jumpId == jumpId)
      || (jumpId in h.shown && step != Reopens(jumpId)
          && !(step.TimerRuns? && h.timers[step.timer].jumpId == jumpId) && !(step.UndoWorks? && h.undos[step.undo].jumpId == jumpId))
    ensures jumpId in Stepped(h, step, now).shown ==>
      Stepped(h, step, now).shown[jumpId].skipped == (if step.Settles? && step.jumpId == jumpId then step.skipped else h.shown[jumpId].skipped)
  {
  }

  ghost predicate CanLeaveEarly(h: Hosted, jumpId: string, now: int, end: int) {
    exists steps: seq<Timed>, after: Hosted :: LeavesEarly(h, steps, after, jumpId, now, end)
  }

  ghost predicate LeavesEarly(h: Hosted, steps: seq<Timed>, after: Hosted, jumpId: string, now: int, end: int) {
    && Reaches(h, steps, now, after) && jumpId !in after.shown
    && forall k :: 0 <= k < |steps| ==> IsIdle(steps[k].step) && steps[k].now < end
  }

  /**
   A confirmation put up at `now` is offered for the whole ten seconds, whatever else only time brings,
   exactly when no timer of its follow-up was left behind to run before.
   */
  lemma ConfirmationIsHeldIff(h: Hosted, jumpId: string, skipped: bool, now: int)
    requires (forall t :: t in h.timers ==> t < h.next) && jumpId !in h.shown
    ensures CanLeaveEarly(Stepped(h, Settles(jumpId, skipped), now), jumpId, now, now + 10_000) <==> StrayTimer(h, jumpId, now + 10_000)
  {
    var shown := Stepped(h, Settles(jumpId, skipped), now);
    var end := now + 10_000;
    if StrayTimer(h, jumpId, now + 10_000) {
      var t :| t in h.timers && h.timers[t].jumpId == jumpId && h.timers[t].due < now + 10_000;
      var at := if h.timers[t].due < now then now else h.timers[t].due;
      var steps := [Timed(TimerRuns(t), at)];
      var after := Stepped(shown, TimerRuns(t), at);
      assert steps[1..] == [] && Reaches(shown, steps, now, after);
      assert LeavesEarly(shown, steps, after, jumpId, now, end);
    } else if steps, after :| LeavesEarly(shown, steps, after, jumpId, now, end) {
      assert !StrayTimer(shown, jumpId, now + 10_000);
      IdleRunKeeps(shown, steps, now, after, jumpId, now + 10_000);
    }
  }

  /** In every run where no Undo fails after its confirmation left, each confirmation is held for ten seconds. */
  lemma ConfirmationsAreHeld(steps: seq<Timed>, h: Hosted, jumpId: string, skipped: bool, start: int, now: int)
    requires Reaches(Hosted(map[], map[], map[], 0), steps, start, h) && NoneFailsLate(Hosted(map[], map[], map[], 0), steps)
    requires jumpId !in h.shown
    ensures !CanLeaveEarly(Stepped(h, Settles(jumpId, skipped), now), jumpId, now, now + 10_000)
  {
    RunKeepsOwned(Hosted(map[], map[], map[], 0), steps, start, h);
    ConfirmationIsHeldIff(h, jumpId, skipped, now);
  }

  /**
   Such a timer is left behind by an Undo that fails after its confirmation left: here the second
   confirmation, put up one second later, loses its Undo a second early.
   */
  lemma FailedUndoLeavesATimer(jumpId: string) returns (end: Hosted)
    ensures Reaches(Hosted(map[], map[], map[], 0), [Timed(Settles(jumpId, false), 0), Timed(UndoPressed(jumpId), 0), Timed(Reopens(jumpId), 0), Timed(UndoFails(1), 0)], 0, end)
    ensures jumpId !in end.shown && StrayTimer(end, jumpId, 11_000)
  {
    var h1 := Stepped(Hosted(map[], map[], map[], 0), Settles(jumpId, false), 0);
    var h2 := Stepped(h1, UndoPressed(jumpId), 0);
    var h3 := Stepped(h2, Reopens(jumpId), 0);
    end := Stepped(h3, UndoFails(1), 0);
    var s4 := [Timed(UndoFails(1), 0)];
    var s3 := [Timed(Reopens(jumpId), 0)] + s4;
    var s2 := [Timed(UndoPressed(jumpId), 0)] + s3;
    assert s4[1..] == [] && Reaches(h3, s4, 0, end);
    assert s3[1..] == s4 && Reaches(h2, s3, 0, end);
    assert s2[1..] == s3 && Reaches(h1, s2, 0, end);
    assert ([Timed(Settles(jumpId, false), 0)] + s2)[1..] == s2;
    assert end.timers[2] == Timer(jumpId, 10_000);
  }
}
