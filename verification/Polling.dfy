/**
 One run of the polling effect (src/components/PreparationNotice.tsx): checks started by a timer or by
 the page becoming visible, each a request whose answer, body or failure comes at any later time, even
 after another check took its place. Time is counted in milliseconds. A change of visibility and its
 event are one step.
 */
module Polling {
  import opened Options

  const WINDOW := 60_000
  const INTERVAL := 3_000

  datatype State = Ready | Preparing | Delayed | Failed

  /**
   The effect's variables, with the page's visibility and what is shown. A check is named by the number
   of its abort controller; `next` is the number of the next one.
   */
  datatype Poll = Poll(stopped: bool, hidden: bool, deadline: int, controller: Option<nat>, timer: Option<int>,
                       current: State, retry: bool, interactive: bool, next: nat,
                       status: State, busy: bool, error: bool, signedOut: bool)

  function Begun(initial: State, manual: bool, retry: bool, hidden: bool, now: int): Poll {
    Poll(false, hidden, now + WINDOW, None,
      if manual then Some(now) else if initial.Preparing? || initial.Delayed? then Some(now + 1_000) else None,
      initial, manual && retry, manual, 0, initial, false, false, false)
  }

  /** A check asks the server when the page is visible and the time is not up. */
  predicate Asks(p: Poll, now: int) {
    !p.stopped && !p.hidden && now < p.deadline
  }

  function Checked(p: Poll, now: int): Poll {
    if p.stopped || p.hidden then p
    else if now >= p.deadline then p.(status := Delayed, busy := false)
    else p.(controller := Some(p.next), next := p.next + 1, busy := p.busy || p.interactive)
  }

  function TimerStopped(p: Poll): Poll {
    p.(timer := None, controller := None)
  }

  function Turned(p: Poll, hidden: bool, now: int): Poll {
    var q := TimerStopped(p.(hidden := hidden));
    if !hidden && q.current != Ready then Checked(q, now) else q
  }

  predicate Superseded(p: Poll, active: nat) {
    p.stopped || p.hidden || p.controller != Some(active)
  }

  /** The `finally` part of a check. */
  function Ended(p: Poll, active: nat): Poll {
    p.(interactive := false, busy := p.busy && (p.stopped || p.controller != Some(active)))
  }

  /** The `catch` part of a check, and its end. */
  function Thrown(p: Poll, active: nat): Poll {
    Ended(if Superseded(p, active) then p else p.(error := true), active)
  }

  datatype Response = Fine | Unauthorized | Refused

  function Responded(p: Poll, active: nat, response: Response): Poll {
    var q := p.(retry := false);
    if Superseded(q, active) then Ended(q, active)
    else if response.Fine? then q
    else Thrown(if response.Unauthorized? then q.(signedOut := true) else q, active)
  }

  /** The body of a response, none when it is not a preparation status. */
  function Read(p: Poll, active: nat, value: Option<State>, now: int): Poll {
    if value.None? then Thrown(p, active)
    else if Superseded(p, active) then Ended(p, active)
    else
      var q := p.(current := value.value, status := value.value, error := false);
      Ended(if value.value.Ready? || value.value.Failed? then q else q.(timer := Some(now + INTERVAL)), active)
  }

  class PollingEffect {
    var stopped: bool
    var hidden: bool
    var deadline: int
    var controller: Option<nat>
    var timer: Option<int>
    var current: State
    var retry: bool
    var interactive: bool
    var next: nat
    var status: State
    var busy: bool
    var error: bool
    var signedOut: bool

    ghost function Now(): Poll
      reads this
    {
      Poll(stopped, hidden, deadline, controller, timer, current, retry, interactive, next, status, busy, error, signedOut)
    }

    constructor (initial: State, manual: bool, retry: bool, hidden: bool, now: int)
      ensures Now() == Begun(initial, manual, retry, hidden, now)
    {
      stopped, this.hidden, deadline := false, hidden, now + WINDOW;
      controller, timer, current, next := None, None, initial, 0;
      this.retry, interactive := manual && retry, manual;
      status, busy, error, signedOut := initial, false, false, false;
      if manual || initial == Preparing || initial == Delayed {
        timer := Some(now + if manual then 0 else 1_000);
      }
    }

    /** The synchronous part of a check; `asked` tells whether it sent a request. */
    method Check(now: int) returns (asked: bool)
      modifies this
      ensures Now() == Checked(old(Now()), now) && asked == Asks(old(Now()), now)
    {
      if stopped || hidden {
        return false;
      }
      if now >= deadline {
        status, busy := Delayed, false;
        return false;
      }
      controller, next := Some(next), next + 1;
      if interactive {
        busy := true;
      }
      return true;
    }

    method OnTimer(now: int) returns (asked: bool)
      modifies this
      ensures Now() == Checked(old(Now()).(timer := None), now) && asked == Asks(old(Now()), now)
    {
      timer := None;
      asked := Check(now);
    }

    method OnVisibility(hidden: bool, now: int) returns (asked: bool)
      modifies this
      ensures Now() == Turned(old(Now()), hidden, now)
      ensures asked == (old(Now()).current != Ready && Asks(old(Now()).(hidden := hidden), now))
    {
      this.hidden := hidden;
      timer, controller := None, None;
      asked := false;
      if !hidden && current != Ready {
        asked := Check(now);
      }
    }

    method Finish(active: nat)
      modifies this`interactive, this`busy
      ensures Now() == Ended(old(Now()), active)
    {
      interactive := false;
      if !stopped && controller == Some(active) {
        busy := false;
      }
    }

    method OnFailure(active: nat)
      modifies this
      ensures Now() == Thrown(old(Now()), active)
    {
      if !stopped && !hidden && controller == Some(active) {
        error := true;
      }
      Finish(active);
    }

    method OnResponse(active: nat, response: Response)
      modifies this
      ensures Now() == Responded(old(Now()), active, response)
    {
      retry := false;
      if stopped || hidden || controller != Some(active) {
        Finish(active);
        return;
      }
      if response == Fine {
        return;
      }
      if response == Unauthorized {
        signedOut := true;
      }
      OnFailure(active);
    }

    method OnBody(active: nat, value: Option<State>, now: int)
      modifies this
      ensures Now() == Read(old(Now()), active, value, now)
    {
      if value.None? {
        OnFailure(active);
        return;
      }
      if !(stopped || hidden || controller != Some(active)) {
        current, status, error := value.value, value.value, false;
        if value.value != Ready && value.value != Failed {
          timer := Some(now + INTERVAL);
        }
      }
      Finish(active);
    }

    method OnCleanup()
      modifies this
      ensures Now() == TimerStopped(old(Now())).(stopped := true)
    {
      stopped, timer, controller := true, None, None;
    }
  }

  // ----- Runs -----

  datatype Phase = Waiting | Reading

  /** `answered` records whether any response had arrived by then. */
  datatype Request = Request(at: int, post: bool, answered: bool)

  /** The effect, the checks whose requests are under way, and a record of what was sent. */
  datatype World = World(p: Poll, start: int, now: int, calls: map<nat, Phase>, requests: seq<Request>, answered: bool, visits: nat)

  datatype Happening =
    | Passed(now: int)
    | TimerFired
    | VisibilityChanged(hidden: bool)
    | GotResponse(active: nat, response: Response)
    | GotBody(active: nat, value: Option<State>)
    | CallFailed(active: nat)
    | CleanedUp

  predicate Legal(w: World, h: Happening) {
    match h
    case Passed(now) => now >= w.now
    case TimerFired => w.p.timer.Some? && w.p.timer.value <= w.now
    case VisibilityChanged(hidden) => !w.p.stopped && hidden != w.p.hidden
    case GotResponse(active, _) => active in w.calls && w.calls[active].Waiting?
    case GotBody(active, _) => active in w.calls && w.calls[active].Reading?
    case CallFailed(active) => active in w.calls
    case CleanedUp => true
  }

  /** A check just ran: `p` is the effect before it. */
  function Ran(w: World, p: Poll): World {
    var next := w.(p := Checked(p, w.now));
    if !Asks(p, w.now) then next
    else next.(calls := w.calls[p.next := Waiting], requests := w.requests + [Request(w.now, p.retry, w.answered)])
  }

  function Apply(w: World, h: Happening): World
    requires Legal(w, h)
  {
    match h
    case Passed(now) => w.(now := now)
    case TimerFired => Ran(w, w.p.(timer := None))
    case VisibilityChanged(hidden) =>
      var q := TimerStopped(w.p.(hidden := hidden));
      if !hidden && q.current != Ready then Ran(w, q).(p := Turned(w.p, hidden, w.now), visits := w.visits + 1)
      else w.(p := Turned(w.p, hidden, w.now))
    case GotResponse(active, response) =>
      w.(p := Responded(w.p, active, response), answered := true,
         calls := if response.Fine? && !Superseded(w.p, active) then w.calls[active := Reading] else w.calls - {active})
    case GotBody(active, value) => w.(p := Read(w.p, active, value, w.now), calls := w.calls - {active})
    case CallFailed(active) => w.(p := Thrown(w.p, active), calls := w.calls - {active})
    case CleanedUp => w.(p := TimerStopped(w.p).(stopped := true))
  }

  ghost predicate Reaches(w: World, hs: seq<Happening>, end: World)
    decreases |hs|
  {
    if hs == [] then w == end else Legal(w, hs[0]) && Reaches(Apply(w, hs[0]), hs[1..], end)
  }

  function Started(initial: State, manual: bool, retry: bool, hidden: bool, now: int): World {
    World(Begun(initial, manual, retry, hidden, now), now, now, map[], [], false, 0)
  }

  /** The check that the effect still listens to is under way. */
  predicate Listening(p: Poll, calls: map<nat, Phase>) {
    p.controller.Some? && p.controller.value in calls
  }

  function LastAsked(w: World): int {
    if w.requests == [] then w.start - INTERVAL else w.requests[|w.requests| - 1].at
  }

  /** A chain of checks is either waiting for its timer or for an answer: never both. */
  ghost predicate OneChain(p: Poll, calls: map<nat, Phase>) {
    && !(p.timer.Some? && Listening(p, calls))
    && (p.stopped ==> p.timer.None? && p.controller.None?)
    && (p.hidden ==> p.controller.None?)
    && (p.controller.Some? ==> p.controller.value < p.next)
    && (forall id :: id in calls ==> id < p.next)
  }

  /** The button shows that a check is running only while one is, as long as there is work and the page is visible. */
  ghost predicate BusyIsBusy(p: Poll, calls: map<nat, Phase>) {
    p.busy && !p.stopped && !p.hidden && p.current != Ready ==> Listening(p, calls)
  }

  ghost predicate Paced(w: World) {
    && w.p.deadline == w.start + WINDOW
    && LastAsked(w) <= w.now
    && (w.p.timer.Some? ==> LastAsked(w) + INTERVAL <= w.p.timer.value)
    && (|w.requests| - w.visits) * INTERVAL <= LastAsked(w) - w.start + INTERVAL
  }

  ghost predicate RequestsAreProper(w: World) {
    && (w.answered ==> !w.p.retry)
    && (forall i :: 0 <= i < |w.requests| ==> w.start <= w.requests[i].at < w.p.deadline)
    && (forall i :: 0 <= i < |w.requests| ==> !(w.requests[i].post && w.requests[i].answered))
  }

  ghost predicate Invariant(w: World) {
    && w.start <= w.now
    && OneChain(w.p, w.calls)
    && BusyIsBusy(w.p, w.calls)
    && Paced(w)
    && RequestsAreProper(w)
  }

  lemma StartedIsSound(initial: State, manual: bool, retry: bool, hidden: bool, now: int)
    ensures Invariant(Started(initial, manual, retry, hidden, now))
  {
  }

  lemma RanKeepsInvariant(w: World, p: Poll, visits: nat)
    requires w.start <= w.now && OneChain(p, w.calls) && p.timer.None? && !Listening(p, w.calls)
    requires Paced(w) && RequestsAreProper(w) && p.deadline == w.p.deadline && p.retry == w.p.retry
    requires visits > w.visits || (visits == w.visits && LastAsked(w) + INTERVAL <= w.now)
    ensures Invariant(Ran(w, p).(visits := visits))
  {
    var next := Ran(w, p);
    if Asks(p, w.now) {
      assert next.requests[..|w.requests|] == w.requests && next.requests[|w.requests|] == Request(w.now, p.retry, w.answered);
      assert forall i :: 0 <= i < |w.requests| ==> next.requests[i] == w.requests[i];
    }
  }

  lemma TimerKeepsInvariant(w: World)
    requires Invariant(w) && Legal(w, TimerFired)
    ensures Invariant(Apply(w, TimerFired))
  {
    RanKeepsInvariant(w, w.p.(timer := None), w.visits);
  }

  lemma VisibilityKeepsInvariant(w: World, hidden: bool)
    requires Invariant(w) && Legal(w, VisibilityChanged(hidden))
    ensures Invariant(Apply(w, VisibilityChanged(hidden)))
  {
    var q := TimerStopped(w.p.(hidden := hidden));
    if !hidden && q.current != Ready {
      RanKeepsInvariant(w, q, w.visits + 1);
    }
  }

  /** What a late answer may change: only how the next check presents itself. */
  predicate SameButMood(p: Poll, q: Poll) {
    q.(retry := p.retry, interactive := p.interactive) == p
  }

  lemma SupersededKeepsThePoll(p: Poll, active: nat, response: Response, value: Option<State>, now: int)
    requires Superseded(p, active) && (p.stopped ==> p.controller.None?) && (p.hidden ==> p.controller.None?)
    ensures SameButMood(p, Responded(p, active, response)) && SameButMood(p, Thrown(p, active)) && SameButMood(p, Read(p, active, value, now))
  {
  }

  lemma FailureKeepsInvariant(w: World, active: nat)
    requires Invariant(w) && Legal(w, CallFailed(active))
    ensures Invariant(Apply(w, CallFailed(active)))
  {
  }

  lemma BodyKeepsInvariant(w: World, active: nat, value: Option<State>)
    requires Invariant(w) && Legal(w, GotBody(active, value))
    ensures Invariant(Apply(w, GotBody(active, value)))
  {
    if value.None? {
      FailureKeepsInvariant(w, active);
    } else if Superseded(w.p, active) {
      SupersededKeepsThePoll(w.p, active, Fine, value, w.now);
    } else {
      HeardKeepsInvariant(w, active, value);
    }
  }

  lemma HeardKeepsInvariant(w: World, active: nat, value: Option<State>)
    requires Invariant(w) && Legal(w, GotBody(active, value)) && value.Some? && !Superseded(w.p, active)
    ensures Invariant(Apply(w, GotBody(active, value)))
  {
    var p := Read(w.p, active, value, w.now);
    assert p.timer.Some? ==> p.timer.value == w.now + INTERVAL;
  }

  lemma ResponseKeepsInvariant(w: World, active: nat, response: Response)
    requires Invariant(w) && Legal(w, GotResponse(active, response))
    ensures Invariant(Apply(w, GotResponse(active, response)))
  {
  }

  lemma StepKeepsInvariant(w: World, h: Happening)
    requires Invariant(w) && Legal(w, h)
    ensures Invariant(Apply(w, h))
  {
    match h {
      case Passed(_) =>
      case TimerFired => TimerKeepsInvariant(w);
      case VisibilityChanged(hidden) => VisibilityKeepsInvariant(w, hidden);
      case GotResponse(active, response) => ResponseKeepsInvariant(w, active, response);
      case GotBody(active, value) => BodyKeepsInvariant(w, active, value);
      case CallFailed(active) => FailureKeepsInvariant(w, active);
      case CleanedUp =>
    }
  }

  lemma {:induction false} RunKeepsInvariant(w: World, hs: seq<Happening>, end: World)
    requires Invariant(w) && Reaches(w, hs, end)
    ensures Invariant(end)
    decreases |hs|
  {
    if hs != [] {
      StepKeepsInvariant(w, hs[0]);
      RunKeepsInvariant(Apply(w, hs[0]), hs[1..], end);
    }
  }

  // ----- What every run keeps -----

  /**
   A run asks at most twenty times, and once more for each time the page became visible; never at or
   after its deadline; and never with a retry once any response arrived. One chain is live at most.
   */
  lemma RequestsAreBounded(initial: State, manual: bool, retry: bool, hidden: bool, now: int, hs: seq<Happening>, end: World)
    requires Reaches(Started(initial, manual, retry, hidden, now), hs, end)
    ensures |end.requests| <= 20 + end.visits
    ensures forall i :: 0 <= i < |end.requests| ==> now <= end.requests[i].at < now + 60_000
    ensures forall i :: 0 <= i < |end.requests| ==> !(end.requests[i].post && end.requests[i].answered)
    ensures !(end.p.timer.Some? && Listening(end.p, end.calls))
    ensures BusyIsBusy(end.p, end.calls)
  {
    StartedIsSound(initial, manual, retry, hidden, now);
    RunKeepsInvariant(Started(initial, manual, retry, hidden, now), hs, end);
    StartStays(Started(initial, manual, retry, hidden, now), hs, end);
  }

  lemma AnswersKeepTheDeadline(p: Poll, active: nat, response: Response, value: Option<State>, now: int)
    ensures Responded(p, active, response).deadline == Read(p, active, value, now).deadline == p.deadline
  {
  }

  lemma StepKeepsTheStart(w: World, h: Happening)
    requires Legal(w, h)
    ensures Apply(w, h).start == w.start && Apply(w, h).p.deadline == w.p.deadline
  {
    match h {
      case GotResponse(active, response) => AnswersKeepTheDeadline(w.p, active, response, None, w.now);
      case GotBody(active, value) => AnswersKeepTheDeadline(w.p, active, Fine, value, w.now);
      case _ =>
    }
  }

  lemma {:induction false} StartStays(w: World, hs: seq<Happening>, end: World)
    requires Reaches(w, hs, end)
    ensures end.start == w.start && end.p.deadline == w.p.deadline
    decreases |hs|
  {
    if hs != [] {
      StepKeepsTheStart(w, hs[0]);
      StartStays(Apply(w, hs[0]), hs[1..], end);
    }
  }

  /** The answer to a check that was superseded changes nothing that is shown and schedules nothing. */
  lemma SupersededAnswersChangeNothing(w: World, h: Happening)
    requires Legal(w, h) && Invariant(w)
    requires (h.GotResponse? || h.GotBody? || h.CallFailed?) && Superseded(w.p, h.active)
    ensures SameButMood(w.p, Apply(w, h).p) && Apply(w, h).requests == w.requests && h.active !in Apply(w, h).calls
  {
    match h {
      case GotResponse(active, response) => SupersededKeepsThePoll(w.p, active, response, None, w.now);
      case GotBody(active, value) => SupersededKeepsThePoll(w.p, active, Fine, value, w.now);
      case CallFailed(active) => SupersededKeepsThePoll(w.p, active, Fine, None, w.now);
    }
  }

  /** Each check that hears of work to come is followed by one timer, and by none if it hears anything else. */
  lemma TimerIsSetIff(w: World, h: Happening)
    requires Legal(w, h) && Invariant(w) && (h.GotResponse? || h.GotBody? || h.CallFailed?)
    requires w.p.controller == Some(h.active)
    ensures Apply(w, h).p.timer.Some? <==> h.GotBody? && h.value.Some? && (h.value.value.Preparing? || h.value.value.Delayed?)
    ensures Apply(w, h).p.timer.Some? ==> Apply(w, h).p.timer.value == w.now + 3_000
  {
  }

  /** Nothing is live, and nothing can start a check: the effect was cleaned up, or the follow-ups are ready. */
  ghost predicate AtRest(w: World) {
    OneChain(w.p, w.calls) && w.p.timer.None? && !Listening(w.p, w.calls) && (w.p.stopped || w.p.current.Ready?)
  }

  lemma RestStays(w: World, h: Happening)
    requires AtRest(w) && Legal(w, h)
    ensures AtRest(Apply(w, h)) && Apply(w, h).requests == w.requests && Apply(w, h).p.status == w.p.status
  {
    match h {
      case GotResponse(active, response) => SupersededKeepsThePoll(w.p, active, response, None, w.now);
      case GotBody(active, value) => SupersededKeepsThePoll(w.p, active, Fine, value, w.now);
      case CallFailed(active) => SupersededKeepsThePoll(w.p, active, Fine, None, w.now);
      case _ =>
    }
  }

  /** At rest no request is ever sent again, whatever the page or late answers do. */
  lemma {:induction false} RestIsFinal(w: World, hs: seq<Happening>, end: World)
    requires AtRest(w) && Reaches(w, hs, end)
    ensures AtRest(end) && end.requests == w.requests && end.p.status == w.p.status
    decreases |hs|
  {
    if hs != [] {
      RestStays(w, hs[0]);
      RestIsFinal(Apply(w, hs[0]), hs[1..], end);
    }
  }

  /** Hearing that all is ready, and being cleaned up, each bring the effect to rest. */
  lemma RestIsReached(w: World, h: Happening)
    requires Invariant(w) && Legal(w, h)
    requires h.CleanedUp? || (h.GotBody? && h.value == Some(Ready) && !Superseded(w.p, h.active))
    ensures AtRest(Apply(w, h))
  {
  }

  // ----- What is asked and what is shown -----

  /** A check hears its own answer: no later one took its place, and the page is visible. */
  predicate Hears(w: World, active: nat) {
    !w.p.stopped && !w.p.hidden && w.p.controller == Some(active)
  }

  /** A check comes up: its timer fires, or the page became visible while not all is ready. */
  predicate ComesUp(w: World, h: Happening) {
    (h.TimerFired? && !w.p.stopped && !w.p.hidden) || (h == VisibilityChanged(false) && w.p.current != Ready)
  }

  /** A request is sent exactly when a check comes up before the deadline; it is a retry only as the first. */
  lemma RequestIsSentIff(w: World, h: Happening)
    requires Invariant(w) && Legal(w, h)
    ensures var t := Apply(w, h);
      if ComesUp(w, h) && w.now < w.start + WINDOW
      then |t.requests| == |w.requests| + 1 && t.requests[..|w.requests|] == w.requests
        && t.requests[|w.requests|] == Request(w.now, w.p.retry, w.answered) && t.p.controller == Some(w.p.next) && w.p.next in t.calls
      else t.requests == w.requests
  {
  }

  /** The body of a preparation status that a check hears. */
  predicate HearsStatus(w: World, h: Happening) {
    h.GotBody? && h.value.Some? && Hears(w, h.active)
  }

  predicate HearsFailure(w: World, h: Happening) {
    || (h.CallFailed? && Hears(w, h.active))
    || (h.GotBody? && h.value.None? && Hears(w, h.active))
    || (h.GotResponse? && h.response != Fine && Hears(w, h.active))
  }

  /** What the notice shows after an event, from what it showed and what was heard. */
  predicate ShowsRight(w: World, h: Happening, p: Poll) {
    && p.status == (if HearsStatus(w, h) then h.value.value else if ComesUp(w, h) && w.now >= w.p.deadline then Delayed else w.p.status)
    && p.current == (if HearsStatus(w, h) then h.value.value else w.p.current)
    && p.error == (HearsFailure(w, h) || (w.p.error && !HearsStatus(w, h)))
    && p.signedOut == (w.p.signedOut || (h.GotResponse? && h.response == Unauthorized && Hears(w, h.active)))
  }

  lemma CheckShows(w: World, h: Happening)
    requires Legal(w, h) && (h.TimerFired? || h.VisibilityChanged?)
    ensures ShowsRight(w, h, Apply(w, h).p)
  {
  }

  lemma ResponseShows(w: World, active: nat, response: Response)
    requires Legal(w, GotResponse(active, response))
    ensures ShowsRight(w, GotResponse(active, response), Responded(w.p, active, response))
  {
  }

  lemma BodyShows(w: World, active: nat, value: Option<State>)
    requires Legal(w, GotBody(active, value))
    ensures ShowsRight(w, GotBody(active, value), Read(w.p, active, value, w.now))
  {
  }

  lemma FailureShows(w: World, active: nat)
    requires Legal(w, CallFailed(active))
    ensures ShowsRight(w, CallFailed(active), Thrown(w.p, active))
  {
  }

  /**
   The notice shows the status heard last, "delayed" when a check comes up after the deadline, and an
   error from a failure that was heard until a status is heard; a sign-out stays.
   */
  lemma ShowsWhatWasHeard(w: World, h: Happening)
    requires Legal(w, h)
    ensures ShowsRight(w, h, Apply(w, h).p)
  {
    match h {
      case TimerFired => CheckShows(w, h);
      case VisibilityChanged(_) => CheckShows(w, h);
      case GotResponse(active, response) => ResponseShows(w, active, response);
      case GotBody(active, value) => BodyShows(w, active, value);
      case CallFailed(active) => FailureShows(w, active);
      case _ =>
    }
  }

  /** A check that was started by hand shows as running; one that comes up after the deadline does not. */
  lemma CheckShowsAsRunning(p: Poll, now: int)
    requires !p.stopped && !p.hidden
    ensures Checked(p, now).busy == (now < p.deadline && (p.busy || p.interactive))
    ensures Checked(p, now).retry == p.retry && Checked(p, now).interactive == p.interactive
  {
  }

  /** A retry is over with the first answer, and the running check with its own. */
  lemma AnswerEndsTheRetry(p: Poll, active: nat, response: Response)
    ensures !Responded(p, active, response).retry
    ensures response != Fine && !p.stopped && !p.hidden && p.controller == Some(active) ==> !Responded(p, active, response).busy
  {
  }

  /** A check that ends is no longer running, unless another one took its place; none after it is by hand. */
  lemma CheckEnds(p: Poll, active: nat, value: Option<State>, now: int)
    ensures !Thrown(p, active).interactive && !Read(p, active, value, now).interactive
    ensures Thrown(p, active).busy == Read(p, active, value, now).busy == (p.busy && (p.stopped || p.controller != Some(active)))
  {
  }

  /** A change of visibility is taken, and ends what was waiting: a timer, and the check under way. */
  lemma VisibilityEndsTheCheck(w: World, hidden: bool, active: nat)
    requires Invariant(w) && Legal(w, VisibilityChanged(hidden)) && active in w.calls
    ensures var t := Apply(w, VisibilityChanged(hidden));
      t.p.hidden == hidden && t.p.timer == None && !Hears(t, active) && (hidden ==> t.p.controller == None && t.requests == w.requests)
  {
  }

  /** Time and answers are recorded as they come. */
  lemma ResponsesAreRecorded(w: World, h: Happening)
    requires Legal(w, h)
    ensures Apply(w, h).answered <==> w.answered || h.GotResponse?
    ensures Apply(w, h).now == if h.Passed? then h.now else w.now
    ensures h.CleanedUp? ==> Apply(w, h).p.stopped && Apply(w, h).p.timer == None && Apply(w, h).p.controller == None
  {
  }

  /** The first check comes at once if started by hand, after a second if work is going on, and never otherwise. */
  lemma FirstCheck(initial: State, manual: bool, retry: bool, hidden: bool, now: int)
    ensures var w := Started(initial, manual, retry, hidden, now);
      && w.p.timer == (if manual then Some(now) else if initial == Preparing || initial == Delayed then Some(now + 1_000) else None)
      && w.p.retry == (manual && retry) && w.p.interactive == manual && w.p.status == w.p.current == initial
      && !w.p.busy && !w.p.error && !w.p.signedOut && !w.p.stopped && w.p.hidden == hidden
  {
  }

  // ----- The bound is tight -----

  /** A visible page where work is still going on, with the timer due `k` intervals after the start. */
  predicate AboutToAsk(w: World, k: nat) {
    && !w.p.stopped && !w.p.hidden && w.p.deadline == w.start + WINDOW && w.p.current.Preparing?
    && w.p.timer == Some(w.start + k * INTERVAL) && w.now <= w.start + k * INTERVAL && |w.requests| == k && w.visits == 0
  }

  lemma OneMoreRound(w: World, k: nat) returns (hs: seq<Happening>, end: World)
    requires AboutToAsk(w, k) && k < 20
    ensures Reaches(w, hs, end) && AboutToAsk(end, k + 1)
  {
    var id := w.p.next;
    hs := [Passed(w.start + k * INTERVAL), TimerFired, GotResponse(id, Fine), GotBody(id, Some(Preparing))];
    var w1 := Apply(w, hs[0]);
    var w2 := Apply(w1, hs[1]);
    var w3 := Apply(w2, hs[2]);
    end := Apply(w3, hs[3]);
    assert Reaches(w3, hs[3..], end);
    assert hs[2..][1..] == hs[3..] && Reaches(w2, hs[2..], end);
    assert hs[1..][1..] == hs[2..] && Reaches(w1, hs[1..], end);
  }

  lemma {:induction false} RunsJoin(w: World, hs: seq<Happening>, mid: World, gs: seq<Happening>, end: World)
    requires Reaches(w, hs, mid) && Reaches(mid, gs, end)
    ensures Reaches(w, hs + gs, end)
    decreases |hs|
  {
    if hs == [] {
      assert hs + gs == gs;
    } else {
      assert (hs + gs)[1..] == hs[1..] + gs;
      RunsJoin(Apply(w, hs[0]), hs[1..], mid, gs, end);
    }
  }

  lemma {:induction false} Rounds(w: World, n: nat) returns (hs: seq<Happening>, end: World)
    requires AboutToAsk(w, 0) && n <= 20
    ensures Reaches(w, hs, end) && AboutToAsk(end, n)
  {
    if n == 0 {
      hs, end := [], w;
    } else {
      var gs, mid := Rounds(w, n - 1);
      var more: seq<Happening>;
      more, end := OneMoreRound(mid, n - 1);
      hs := gs + more;
      RunsJoin(w, gs, mid, more, end);
    }
  }

  /** Twenty requests do happen without the page ever being hidden. */
  lemma TwentyAreReached(retry: bool, now: int) returns (hs: seq<Happening>, end: World)
    ensures Reaches(Started(Preparing, true, retry, false, now), hs, end) && |end.requests| == 20 && end.visits == 0
  {
    hs, end := Rounds(Started(Preparing, true, retry, false, now), 20);
  }
}
