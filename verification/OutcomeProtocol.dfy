/**
 Recording what happened with one follow-up: the controls that send an outcome and remember its
 request id (src/components/JumpWorkflow.tsx), the server that stores one answer per request id
 (src/app/api/jumps/[jumpId]/outcome/route.ts), and answers that are lost or come late. The server
 looks a request up, reads the follow-up and records in separate steps, so that other requests, and
 changes made elsewhere, may come in between.
 */
module OutcomeProtocol {
  import opened Options

  datatype Outcome =
    | Completed
    | Connected
    | LeftVoicemail
    | NoAnswer
    | NotSent
    | WrongNumber
    | Rescheduled
    | Skipped
    | Reopened

  datatype Status = Pending | Done | SkippedOver | Canceled

  predicate Finished(status: Status) {
    status.Done? || status.SkippedOver?
  }

  predicate Finishing(outcome: Outcome) {
    !outcome.NotSent? && !outcome.Reopened?
  }

  // ----- The server -----

  /**
   What happened to the follow-up: an outcome recorded under its request id, with the status it was
   answered with; or a status set elsewhere, by an automatic delivery, a cancellation, the return of a
   held follow-up or another form.
   */
  datatype Entry =
    | Record(id: nat, outcome: Outcome, status: Status)
    | Elsewhere(status: Status)

  /** `workflow` says whether the follow-up belongs to a workflow, where a rescheduled one stays pending. */
  datatype Server = Server(status: Status, workflow: bool, stored: map<nat, Status>, log: seq<Entry>)

  datatype Answer = Recorded(status: Status) | Conflicting(status: Status)

  /**
   The status an outcome is recorded with, or nothing when it is refused. "Not sent" goes by the status
   that was `seen` before; every other outcome by the status at the record.
   */
  function Outcomes(server: Server, outcome: Outcome, seen: Status): Option<Status> {
    if outcome.Reopened? then (if Finished(server.status) then Some(Pending) else None)
    else if outcome.NotSent? then (if seen.Pending? then Some(Pending) else None)
    else if !server.status.Pending? then None
    else if outcome.Rescheduled? && server.workflow then Some(Pending)
    else if outcome.Skipped? then Some(SkippedOver)
    else Some(Done)
  }

  /** The transaction: the stored answer again, a refusal (nothing), or a new record. */
  function Handle(server: Server, outcome: Outcome, id: nat, seen: Status): (Server, Option<Status>) {
    if id in server.stored then (server, Some(server.stored[id]))
    else if Outcomes(server, outcome, seen).None? then (server, None)
    else
      var status := Outcomes(server, outcome, seen).value;
      (server.(status := if outcome.NotSent? then server.status else status,
               stored := server.stored[id := status],
               log := server.log + [Record(id, outcome, status)]),
       Some(status))
  }

  // ----- The controls -----

  /** An attempt: what is recorded, and what tells it from another attempt at the same outcome. */
  datatype Key = Key(outcome: Outcome, details: nat)

  /** What a caller of `saveOutcome` learns; nothing when the call throws. */
  datatype Result = Saved(status: Status) | AlreadySo(status: Status) | Thrown

  function ResultOf(outcome: Outcome, answer: Answer): Result {
    match answer
    case Recorded(status) => Saved(status)
    case Conflicting(status) =>
      if Finishing(outcome) && Finished(status) then AlreadySo(status)
      else if outcome.Reopened? && status.Pending? then AlreadySo(status)
      else Thrown
  }

  /** A button, a confirmation or the tray: it saves one attempt at a time and has its own memory. */
  datatype Control = Control(page: nat, tray: bool, ids: map<Key, nat>, saving: Option<Save>)

  datatype Save = Save(key: Key, id: nat, call: nat)

  /**
   A request on its way: not yet looked up, not found among the stored answers, with the status it read
   (and how much had happened by then), refused, refused and looked up once more, or answered.
   */
  datatype Stage =
    | Waiting
    | Looked
    | Seen(status: Status, since: nat)
    | Refusing
    | Refused
    | Answered(answer: Answer)

  datatype Call = Call(outcome: Outcome, id: nat, stage: Stage)

  datatype World = World(server: Server, controls: map<nat, Control>, calls: map<nat, Call>, nextCall: nat, nextId: nat)

  datatype Move =
    | Submit(control: nat, key: Key)
    | LookUp(call: nat)
    | ReadJump(call: nat)
    | Commit(call: nat)
    | LookAgain(call: nat)
    | ReadStatus(call: nat)
    | Hear(control: nat)
    | Lose(control: nat)
    | ChangeElsewhere(status: Status)

  predicate Enabled(w: World, move: Move) {
    match move
    case Submit(c, _) => c in w.controls && w.controls[c].saving.None?
    case LookUp(k) => k in w.calls && w.calls[k].stage.Waiting?
    case ReadJump(k) => k in w.calls && w.calls[k].stage.Looked?
    case Commit(k) => k in w.calls && w.calls[k].stage.Seen?
    case LookAgain(k) => k in w.calls && w.calls[k].stage.Refusing?
    case ReadStatus(k) => k in w.calls && w.calls[k].stage.Refused?
    case Hear(c) =>
      && c in w.controls && w.controls[c].saving.Some?
      && w.controls[c].saving.value.call in w.calls && w.calls[w.controls[c].saving.value.call].stage.Answered?
    case Lose(c) => c in w.controls && w.controls[c].saving.Some?
    case ChangeElsewhere(_) => true
  }

  /** A state change heard in a page: its tray forgets the follow-up's ids. */
  function HeardIn(controls: map<nat, Control>, page: nat): map<nat, Control> {
    map c | c in controls ::
      if controls[c].page == page && controls[c].tray then controls[c].(ids := map[]) else controls[c]
  }

  function Submitted(w: World, c: nat, key: Key): World
    requires c in w.controls
  {
    var control := w.controls[c];
    var id := if key in control.ids then control.ids[key] else w.nextId;
    w.(controls := w.controls[c := control.(ids := control.ids[key := id], saving := Some(Save(key, id, w.nextCall)))],
       calls := w.calls[w.nextCall := Call(key.outcome, id, Waiting)],
       nextCall := w.nextCall + 1,
       nextId := if key in control.ids then w.nextId else w.nextId + 1)
  }

  /** The caller releases the id and the page hears of the state, unless the call threw. */
  function Heard(w: World, c: nat, result: Result): World
    requires c in w.controls && w.controls[c].saving.Some?
  {
    var control := w.controls[c];
    if result.Thrown? then w.(controls := w.controls[c := control.(saving := None)])
    else
      var released := control.(ids := control.ids - {control.saving.value.key}, saving := None);
      w.(controls := HeardIn(w.controls[c := released], control.page))
  }

  function AnswerFor(w: World, c: nat): Answer
    requires Enabled(w, Hear(c))
  {
    w.calls[w.controls[c].saving.value.call].stage.answer
  }

  /** The stored answer of an id, or what comes next without one. */
  function Found(server: Server, id: nat, otherwise: Stage): Stage {
    if id in server.stored then Answered(Recorded(server.stored[id])) else otherwise
  }

  function Staged(w: World, k: nat, stage: Stage): World
    requires k in w.calls
  {
    w.(calls := w.calls[k := w.calls[k].(stage := stage)])
  }

  function Apply(w: World, move: Move): World
    requires Enabled(w, move)
  {
    match move
    case Submit(c, key) => Submitted(w, c, key)
    case LookUp(k) => Staged(w, k, Found(w.server, w.calls[k].id, Looked))
    case ReadJump(k) =>
      Staged(w, k, if w.server.status.Canceled? then Answered(Conflicting(Status.Canceled)) else Seen(w.server.status, |w.server.log|))
    case Commit(k) =>
      var (server, status) := Handle(w.server, w.calls[k].outcome, w.calls[k].id, w.calls[k].stage.status);
      Staged(w, k, if status.Some? then Answered(Recorded(status.value)) else Refusing).(server := server)
    case LookAgain(k) => Staged(w, k, Found(w.server, w.calls[k].id, Refused))
    case ReadStatus(k) => Staged(w, k, Answered(Conflicting(w.server.status)))
    case Hear(c) => Heard(w, c, ResultOf(w.controls[c].saving.value.key.outcome, AnswerFor(w, c)))
    case Lose(c) => Heard(w, c, Thrown)
    case ChangeElsewhere(status) => w.(server := w.server.(status := status, log := w.server.log + [Elsewhere(status)]))
  }

  predicate Legal(w: World, moves: seq<Move>)
    decreases |moves|
  {
    moves == [] || (Enabled(w, moves[0]) && Legal(Apply(w, moves[0]), moves[1..]))
  }

  function Run(w: World, moves: seq<Move>): World
    requires Legal(w, moves)
    decreases |moves|
  {
    if moves == [] then w else Run(Apply(w, moves[0]), moves[1..])
  }

  /** A pending follow-up, and controls that remember nothing yet. */
  predicate Fresh(w: World) {
    && w.server.status.Pending? && w.server.stored == map[] && w.server.log == []
    && w.calls == map[]
    && forall c :: c in w.controls ==> w.controls[c].ids == map[] && w.controls[c].saving.None?
  }
}
