/**
 The promise queue of the editor (runExclusive in src/components/EditableFollowUpAction.tsx): each task is
 chained behind the last one's promise, whether that is fulfilled or rejected, and the queue goes on from
 a promise that swallows the failure. It is why `DraftEditor` may hold its tasks as a sequence whose head
 starts when nothing is in flight; `QueueRefinement` proves it.
 */
module RequestQueue {

  datatype Promise = Pending | Fulfilled | Rejected

  /**
   `results[i]` is the promise of the i-th task and `tails[i]` what the queue was when it was added, the
   promise it waits for; the last tail is the queue as it is now.
   */
  datatype Queue = Queue(results: seq<Promise>, started: seq<bool>, tails: seq<Promise>)

  datatype Event =
    | Added
    | Started(task: nat)
    | Settled(task: nat, ok: bool)
    | Swallowed(task: nat)

  /** A task runs once the promise before it settles, either way; its own settles when it is done. */
  predicate Can(q: Queue, e: Event) {
    && |q.started| == |q.results| && |q.tails| == |q.results| + 1
    && match e
       case Added => true
       case Started(i) => i < |q.results| && !q.started[i] && !q.tails[i].Pending?
       case Settled(i, _) => i < |q.results| && q.started[i] && q.results[i].Pending?
       case Swallowed(i) => i < |q.results| && !q.results[i].Pending? && q.tails[i + 1].Pending?
  }

  function After(q: Queue, e: Event): Queue
    requires Can(q, e)
  {
    match e
    case Added => Queue(q.results + [Pending], q.started + [false], q.tails + [Pending])
    case Started(i) => q.(started := q.started[i := true])
    case Settled(i, ok) => q.(results := q.results[i := if ok then Fulfilled else Rejected])
    case Swallowed(i) => q.(tails := q.tails[i + 1 := Fulfilled])
  }

  class TaskQueue {
    var results: seq<Promise>
    var started: seq<bool>
    var tails: seq<Promise>

    ghost function View(): Queue
      reads this
    {
      Queue(results, started, tails)
    }

    constructor ()
      ensures View() == Empty()
    {
      results, started, tails := [], [], [Fulfilled];
    }

    /** Chains a task behind the queue, and the queue behind the task. */
    method RunExclusive()
      requires Sound(View())
      modifies this
      ensures View() == After(old(View()), Added)
    {
      results := results + [Pending];
      started := started + [false];
      tails := tails + [Pending];
    }

    /** The promise before a task has settled: the task starts. */
    method Start(task: nat)
      requires Can(View(), Started(task))
      modifies this`started
      ensures View() == After(old(View()), Started(task))
    {
      started := started[task := true];
    }

    method Settle(task: nat, ok: bool)
      requires Can(View(), Settled(task, ok))
      modifies this`results
      ensures View() == After(old(View()), Settled(task, ok))
    {
      results := results[task := if ok then Fulfilled else Rejected];
    }

    method Swallow(task: nat)
      requires Can(View(), Swallowed(task))
      modifies this`tails
      ensures View() == After(old(View()), Swallowed(task))
    {
      tails := tails[task + 1 := Fulfilled];
    }
  }

  function Empty(): Queue {
    Queue([], [], [Fulfilled])
  }

  ghost predicate Sound(q: Queue) {
    && |q.started| == |q.results| && |q.tails| == |q.results| + 1
    && !q.tails[0].Pending?
    && (forall i :: 0 <= i <= |q.results| ==> !q.tails[i].Rejected?)
    && (forall i :: 0 <= i < |q.results| && q.results[i].Pending? ==> q.tails[i + 1].Pending?)
    && (forall i :: 0 <= i < |q.results| && !q.started[i] ==> q.results[i].Pending?)
    && (forall i :: 0 <= i < |q.results| && q.tails[i].Pending? ==> !q.started[i])
  }

  ghost predicate Reaches(q: Queue, es: seq<Event>, end: Queue)
    decreases |es|
  {
    if es == [] then q == end else Can(q, es[0]) && Reaches(After(q, es[0]), es[1..], end)
  }

  lemma StepKeepsSound(q: Queue, e: Event)
    requires Sound(q) && Can(q, e)
    ensures Sound(After(q, e))
  {
  }

  lemma {:induction false} RunKeepsSound(q: Queue, es: seq<Event>, end: Queue)
    requires Sound(q) && Reaches(q, es, end)
    ensures Sound(end)
    decreases |es|
  {
    if es != [] {
      StepKeepsSound(q, es[0]);
      RunKeepsSound(After(q, es[0]), es[1..], end);
    }
  }

  lemma {:induction false} EarlierAreDone(q: Queue, i: nat, j: nat)
    requires Sound(q) && i < j < |q.results| && q.started[j]
    ensures q.started[i] && !q.results[i].Pending?
    decreases j
  {
    assert !q.tails[j].Pending?;
    assert !q.results[j - 1].Pending?;
    if i < j - 1 {
      EarlierAreDone(q, i, j - 1);
    }
  }

  /** Over every run a task that started has all earlier ones done: they start in order, and one runs at a time. */
  lemma TasksRunInOrder(es: seq<Event>, q: Queue, i: nat, j: nat)
    requires Reaches(Empty(), es, q)
    ensures |q.started| == |q.results|
    ensures i < j < |q.results| && q.started[j] ==> q.started[i] && !q.results[i].Pending?
  {
    RunKeepsSound(Empty(), es, q);
    if i < j < |q.results| && q.started[j] {
      EarlierAreDone(q, i, j);
    }
  }

  predicate Running(q: Queue, i: nat)
    requires |q.started| == |q.results|
  {
    i < |q.results| && q.started[i] && q.results[i].Pending?
  }

  lemma {:induction false} FirstUnstarted(q: Queue, n: nat) returns (k: nat)
    requires Sound(q) && n < |q.results| && !q.started[n]
    ensures k <= n && !q.started[k] && (k > 0 ==> q.started[k - 1])
  {
    k := n;
    if n > 0 && !q.started[n - 1] {
      k := FirstUnstarted(q, n - 1);
    }
  }

  /**
   Failures do not stop the queue: while a task waits and none runs, the first one that waits can start,
   at once or when the failure or success before it was swallowed.
   */
  lemma QueueGoesOn(es: seq<Event>, q: Queue, n: nat) returns (k: nat)
    requires Reaches(Empty(), es, q)
    requires |q.started| == |q.results| && n < |q.results| && !q.started[n]
    requires forall i :: 0 <= i < |q.results| ==> !Running(q, i)
    ensures k <= n && !q.started[k]
    ensures Can(q, Started(k)) || (k > 0 && Can(q, Swallowed(k - 1)) && Can(After(q, Swallowed(k - 1)), Started(k)))
  {
    RunKeepsSound(Empty(), es, q);
    k := FirstUnstarted(q, n);
    assert k > 0 ==> !Running(q, k - 1);
  }
}
