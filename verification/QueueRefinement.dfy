/**
 The editor's sequence of tasks refines its chain of promises: whatever the editor and its server do, the
 promises can follow, with the tasks not yet started, in order, the sequence; and they can do no more.
 */
module QueueRefinement {
  import opened Options
  import opened DraftEditor
  import opened DraftServer
  import opened DraftSafety
  import Promises = RequestQueue

  /** The tasks whose functions the promises have not called, in the order they were chained. */
  function Waiting(started: seq<bool>, tasks: seq<Task>): seq<Task>
    requires |started| == |tasks|
  {
    if started == [] then [] else (if started[0] then [] else [tasks[0]]) + Waiting(started[1..], tasks[1..])
  }

  lemma {:induction false} WaitingIsTheRest(started: seq<bool>, tasks: seq<Task>, n: nat)
    requires |started| == |tasks| && n <= |tasks|
    requires forall i :: 0 <= i < |started| ==> (started[i] <==> i < n)
    ensures Waiting(started, tasks) == tasks[n..]
    decreases |started|
  {
    if started != [] {
      WaitingIsTheRest(started[1..], tasks[1..], if n > 0 then n - 1 else 0);
      assert n > 0 ==> tasks[1..][n - 1..] == tasks[n..];
      assert tasks == [tasks[0]] + tasks[1..];
    }
  }

  /** One promise for each task that was queued; those begun have started, and the one awaited is pending. */
  ghost predicate Mirrors(q: Promises.Queue, s: System) {
    && Promises.Sound(q) && |q.results| == |s.enqueued| && |s.begun| <= |s.enqueued|
    && (forall i :: 0 <= i < |q.started| ==> (q.started[i] <==> i < |s.begun|))
    && (forall i :: 0 <= i < |s.begun| && q.results[i].Pending? ==> i == |s.begun| - 1 && s.editor.inFlight.Some?)
    && (s.editor.inFlight.Some? ==> s.begun != [] && q.results[|s.begun| - 1].Pending?)
  }

  /** Some events of the promises lead from one chain to the other. */
  ghost predicate Leads(q: Promises.Queue, end: Promises.Queue) {
    exists es :: Promises.Reaches(q, es, end)
  }

  lemma {:induction false} EventsJoin(q: Promises.Queue, es: seq<Promises.Event>, r: Promises.Queue, fs: seq<Promises.Event>, end: Promises.Queue)
    requires Promises.Reaches(q, es, r) && Promises.Reaches(r, fs, end)
    ensures Promises.Reaches(q, es + fs, end)
    decreases |es|
  {
    if es == [] {
      assert es + fs == fs;
    } else {
      assert (es + fs)[1..] == es[1..] + fs;
      EventsJoin(Promises.After(q, es[0]), es[1..], r, fs, end);
    }
  }

  lemma LeadsItself(q: Promises.Queue)
    ensures Leads(q, q)
  {
    assert Promises.Reaches(q, [], q);
  }

  lemma LeadsJoin(q: Promises.Queue, r: Promises.Queue, end: Promises.Queue)
    requires Leads(q, r) && Leads(r, end)
    ensures Leads(q, end)
  {
    var es :| Promises.Reaches(q, es, r);
    var fs :| Promises.Reaches(r, fs, end);
    EventsJoin(q, es, r, fs, end);
  }

  lemma Event(q: Promises.Queue, r: Promises.Queue, e: Promises.Event) returns (end: Promises.Queue)
    requires Leads(q, r) && Promises.Sound(r) && Promises.Can(r, e)
    ensures end == Promises.After(r, e) && Leads(q, end) && Promises.Sound(end)
  {
    end := Promises.After(r, e);
    Promises.StepKeepsSound(r, e);
    assert [e][1..] == [] && Promises.Reaches(r, [e], end);
    LeadsJoin(q, r, end);
  }

  // ----- The promises follow the editor -----

  /** An answer, a failure or a lost one too, ends the task that runs. */
  lemma AnswerEnds(s: System, h: Happening)
    requires Enabled(s, h) && (h.Deliver? || h.Lose?)
    ensures var t := Apply(s, h); t.begun == s.begun && t.enqueued == s.enqueued && t.editor.inFlight.None?
  {
    AnswerKeepsFrame(s.editor, if h.Deliver? then s.calls[s.awaited].reply else Failed);
  }

  /** A step of the server or of other devices leaves the sequences alone. */
  lemma ElsewhereQueuesNothing(s: System, h: Happening)
    requires Enabled(s, h) && (h.Decide? || h.Read? || h.Refuse? || h.OtherSave? || h.OtherDiscard?)
    ensures var t := Apply(s, h); t.begun == s.begun && t.enqueued == s.enqueued && t.editor == s.editor
  {
  }

  /** Any other step that starts no task may queue one. */
  lemma StepQueuesOne(s: System, h: Happening)
    requires Enabled(s, h) && !h.Begin? && !h.Deliver? && !h.Lose?
    ensures var t := Apply(s, h);
      && t.begun == s.begun && t.editor.inFlight == s.editor.inFlight
      && (t.enqueued == s.enqueued || |t.enqueued| == |s.enqueued| + 1)
  {
    if h.Decide? || h.Read? || h.Refuse? || h.OtherSave? || h.OtherDiscard? {
      ElsewhereQueuesNothing(s, h);
    }
  }

  lemma QueuedIsMirrored(s: System, t: System, q: Promises.Queue) returns (end: Promises.Queue)
    requires Mirrors(q, s) && t.begun == s.begun && t.editor.inFlight == s.editor.inFlight
    requires t.enqueued == s.enqueued || |t.enqueued| == |s.enqueued| + 1
    ensures Leads(q, end) && Mirrors(end, t)
  {
    LeadsItself(q);
    end := q;
    if t.enqueued != s.enqueued {
      end := Event(q, q, Promises.Added);
    }
  }

  lemma EndedIsMirrored(s: System, t: System, q: Promises.Queue, ok: bool) returns (end: Promises.Queue)
    requires Mirrors(q, s) && s.editor.inFlight.Some?
    requires t.begun == s.begun && t.enqueued == s.enqueued && t.editor.inFlight.None?
    ensures Leads(q, end) && Mirrors(end, t)
  {
    LeadsItself(q);
    end := Event(q, q, Promises.Settled(|s.begun| - 1, ok));
  }

  /** With no task running the first one that waits starts, once the promise before it has swallowed its end. */
  lemma HeadStarts(s: System, q: Promises.Queue) returns (end: Promises.Queue)
    requires Mirrors(q, s) && s.editor.inFlight.None? && |s.begun| < |s.enqueued|
    ensures Leads(q, end) && Promises.Sound(end)
    ensures end.started == q.started[|s.begun| := true] && end.results == q.results
  {
    var k := |s.begun|;
    LeadsItself(q);
    end := q;
    if q.tails[k].Pending? {
      end := Event(q, q, Promises.Swallowed(k - 1));
    }
    end := Event(q, end, Promises.Started(k));
  }

  lemma BegunIsMirrored(s: System, q: Promises.Queue) returns (end: Promises.Queue)
    requires Invariant(s) && Enabled(s, Begin) && Mirrors(q, s)
    ensures Leads(q, end) && Mirrors(end, Apply(s, Begin))
  {
    var t := Apply(s, Begin);
    BegunKeepsTexts(s.editor, s.rows, s.plans);
    end := HeadStarts(s, q);
    if t.editor.inFlight.None? {
      end := Event(q, end, Promises.Settled(|s.begun|, true));
    }
  }

  /** Every step of the editor and its server is followed by events of the promises. */
  lemma StepIsMirrored(s: System, h: Happening, q: Promises.Queue) returns (end: Promises.Queue)
    requires Invariant(s) && Enabled(s, h) && Mirrors(q, s)
    ensures Leads(q, end) && Mirrors(end, Apply(s, h))
  {
    if h.Begin? {
      end := BegunIsMirrored(s, q);
    } else if h.Deliver? || h.Lose? {
      AnswerEnds(s, h);
      end := EndedIsMirrored(s, Apply(s, h), q, h.Deliver?);
    } else {
      StepQueuesOne(s, h);
      end := QueuedIsMirrored(s, Apply(s, h), q);
    }
  }

  lemma {:induction false} RunIsMirrored(s: System, hs: seq<Happening>, q: Promises.Queue) returns (end: Promises.Queue)
    requires Invariant(s) && Legal(s, hs) && Mirrors(q, s)
    ensures Leads(q, end) && Mirrors(end, Run(s, hs)) && Invariant(Run(s, hs))
    decreases |hs|
  {
    if hs == [] {
      LeadsItself(q);
      end := q;
    } else {
      StepKeepsInvariant(s, hs[0]);
      var r := StepIsMirrored(s, hs[0], q);
      end := RunIsMirrored(Apply(s, hs[0]), hs[1..], r);
      LeadsJoin(q, r, end);
    }
  }

  /** Over every run the tasks that the promises have yet to start are, in order, the editor's sequence. */
  lemma QueueIsTheWaitingTasks(template: Source, draft: Option<Source>, hs: seq<Happening>) returns (q: Promises.Queue)
    requires Legal(Start(template, draft), hs)
    ensures var s := Run(Start(template, draft), hs);
      && Leads(Promises.Empty(), q) && Mirrors(q, s)
      && |q.started| == |s.enqueued| && Waiting(q.started, s.enqueued) == s.editor.queue
  {
    StartIsSound(template, draft);
    q := RunIsMirrored(Start(template, draft), hs, Promises.Empty());
    var s := Run(Start(template, draft), hs);
    WaitingIsTheRest(q.started, s.enqueued, |s.begun|);
    assert s.enqueued == s.begun + s.editor.queue;
  }

  // ----- And do no more -----

  /** Whichever task the promises can start is the head of the sequence, and the editor can begin it. */
  lemma OnlyTheHeadStarts(s: System, q: Promises.Queue, i: nat)
    requires Invariant(s) && Mirrors(q, s) && Promises.Can(q, Promises.Started(i))
    ensures Enabled(s, Begin) && i == |s.begun| && s.enqueued[i] == s.editor.queue[0]
  {
    assert s.enqueued == s.begun + s.editor.queue;
    if i > 0 {
      assert !q.results[i - 1].Pending?;
      assert q.started[i - 1];
    }
  }

  /** And whichever can settle is the one whose answer the editor awaits. */
  lemma OnlyTheAwaitedSettles(s: System, q: Promises.Queue, i: nat, ok: bool)
    requires Mirrors(q, s) && Promises.Can(q, Promises.Settled(i, ok))
    ensures s.editor.inFlight.Some? && i == |s.begun| - 1
  {
  }
}
