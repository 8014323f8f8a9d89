# A verified model of the application's client protocols and of its monitor

The application prepares follow-ups for its owner, lets several devices edit them, records what
happened, and has a small monitor that reports outages of its database from outside. Much of its hard
behaviour is in protocols written by hand: editors that save to a server with revisions, answers that
are lost, checks that overtake one another, timers, and a state file that crashing processes share.
This project models those protocols in Dafny and proves what they guarantee over every run. Where the
code keeps less than its own comments promise, it proves exactly when the promise holds and gives a run
in which it does not.

## How the model is built

Each component has a specification: its state as a value, and a function for each thing that can
happen to it. A class with the component's own fields and methods changes its state step by step as
the code does, and each method is proved to end in the state that the function gives. Runs are
sequences of steps of everything involved, in any order: the owner, timers, the network, the server,
other devices, other processes. The theorems are about the functions and about all runs; where a
property needs one, an invariant is proved of the first world and of every step.

| Files | What they model |
|---|---|
| `Monitor`, `MonitorSafety`, `MonitorTheorems`, `MonitorSpacing`, `MonitorEarly`, `MonitorReport`, `MonitorRuns` | The notifier of the independent monitor. Invocations share a state file and a lock file, and may stall or crash between any two steps. Checking that the lock is owned and writing the file is one step; a file system reuses an inode only when no handle holds it, and identifiers of events are never reused. `MonitorReport` holds the imperative form of one uninterrupted call and shows it to be a run; `MonitorSpacing` and `MonitorEarly` say exactly when an attempt may be sent early. The theorems about all runs allow calls that are given a time that is past, as the function's parameter does; the runs that are constructed have calls that read the clock when they are made. |
| `RequestQueue`, `QueueRefinement`, `DraftEditor`, `DraftServer`, `DraftSafety`, `DraftTheorems`, `DraftAnswers`, `DraftLosses`, `DraftOverwrites` | The follow-up editor and the draft row it saves to, with other devices, refreshes, lost answers and requests that are carried out late. The server follows `src/lib/jump-drafts.ts`: a new draft starts at revision 1, and a save reads the row again for its answer. A state write and its render are one step; the fields take no typing while a discard is under way. `RequestQueue` is the chain of promises behind the editor's queue, and `QueueRefinement` shows that the editor's sequence of tasks is what the chain has yet to start. |
| `CodeUnits`, `StableJson`, `StableJsonFaithful`, `StableJsonSame`, `StableHash` | Canonical printing of JSON-like values, with a reader for the grammar of RFC 8259 (sections 4, 5 and 7) that is written independently of the printer, and the 32-bit hash of the text. |
| `RequestIds`, `OutcomeProtocol`, `OutcomeTheorems`, `OutcomeRuns`, `OutcomeCards` | Recording outcomes: request keys and the memory of request ids, the controls and the server (`src/app/api/jumps/[jumpId]/outcome/route.ts`), which looks up, reads and records in separate steps while the status may also be set elsewhere at any time, cards that hide and return, and confirmations with their Undo. |
| `AccountGate` | The boundary that shows content only to the account that is signed in. |
| `Settlement` | Receipts of settled follow-ups that arrive in any order, and the snapshot that is shown. |
| `Polling` | The effect that polls for prepared follow-ups. |
| `MergeFields` | The tokenizer of merge fields, over 16-bit code units. |
| `AdminDraftForm`, `AdminDraftStore`, `AdminDraftGuard` | Staff forms: capture and restore, the store of drafts, and the revision guard. |
| `ImportReview`, `ImportQueue` | The contact import: chunks, analysis, decisions, planned counts, and queueing on a server that keeps one batch per import identifier. |

## Where the code keeps less than it says

- The comment in `src/lib/jump-drafts.ts` says that two devices never overwrite each other silently. A
  draft that was discarded and created anew starts at revision 1 again, and an acknowledged save may
  name another device's row, because it reads the row after writing it. In both cases a row is replaced
  that the editor was never shown (`DraftLosses`); in no other (`ReplacedRowWasKnownUnless`,
  `UndisturbedRunsLoseNoUpdate`). While no draft is created anew, a request on its way can come to do so
  exactly when it carries the current row's revision as only another write's acknowledgement gave it, or one
  of an earlier draft whose number the current row has not reached, or has unknown to the editor (`CanReplaceUnknownOfThisDraftIff`); if a draft
  may be created anew, every request can (`EveryRequestCanReplaceUnknown`).
- A discard promises to keep what is typed until the server confirms it. What is on screen when it starts
  is what it replaces: text typed while it waited behind a save is gone once it goes through
  (`TypedWhileDiscardWaitedIsLost`). It stays exactly if the server does not carry the discard out or it is
  the plan's text (`StartedDiscardKeepsUnsavedTextIff`); without a revision to send it goes at once. Only a
  text that came on screen after the discard was sent is kept (`DiscardKeepsTextIff`), and the fields are
  disabled by then.
- "Keep my wording" sends nothing when that wording equals the text saved before the conflict
  (`KeptWordingIsSentIff`), so the other version stays on the server (`KeptWordingIsNotSent`).
- A new outage is announced as a reminder when the last event is a day old or older
  (`NewOutageIsOpenedIff`, `NewOutageIsAReminder`).
- An event may be posted after its acceptance was saved: exactly when an invocation had reserved an
  attempt before and has yet to send it (`AcceptedIsPostedAgainIffBeingSent`,
  `StalledAttemptIsSentAfterAcceptance`).
- Attempts are spaced by the times their invocations began, so one that was sent with a delay leaves less of
  the wait. The next one can be sent less than the backoff after the last one exactly when that backoff has
  not run out, the lock path can be had before it does, and some call may retry the event: one made once it is
  due, in time and with no reminder due by then, or a running one of such a time that has not come to reserve
  (`NextIsSentEarlyIff`). The wait can shrink by the whole delay (`WaitCanShrinkByTheDelay`). These runs are
  of calls that take their time from the clock, as `scripts/check-operations.ts` makes them, and may stall
  after that. For calls that are given a past time the condition is wider
  (`NextIsSentEarlyAtGivenTimesIff`).
- The tray forgets request ids so that no old answer replays against a new state. It does not hear of a
  reopening in another page, and then the old answer does replay (`ReopeningElsewhereIsNotHeard`). An
  attempt is answered from the store by another than the last record exactly when its id is remembered, is
  stored, and another outcome was recorded after it (`OldRecordIsReplayedIff`); the answer's status differs
  from the follow-up's exactly when a later change left another one, or it was itself a "not sent" that went by
  an old read (`ReplayDiffersIff`).
- "Not sent" goes by a status that was read before it is recorded. Its answer, pending, contradicts the
  follow-up exactly when its status was changed in between (`NotSentContradictsIff`,
  `NotSentIsSavedOverDone`). A follow-up can also be "already done" without an outcome recorded under any request
  id, by an automatic delivery (`DeliveredElsewhereIsAlreadySo`).
- A confirmation is offered for ten seconds unless a timer was left behind for its follow-up; an Undo
  that fails after its confirmation left does leave one (`ConfirmationIsHeldIff`,
  `FailedUndoLeavesATimer`).
- Two versions of one instant that are spelled differently leave the spelling of whichever came first;
  the receipt is the same (`OrderShowsInTheTextIff`, `ReceiptsConverge`).
- Captured fields of a staff form are counted among retained controls and restored by their place among
  all elements of the name. The two agree exactly when no other element of a retained name comes before
  a retained one (`RestoresFaithfullyIff`).
- The revision guard of a staff form ends when its draft expires, while the wording stays on the screen
  (`CanSendUnreviewedIff`, `ExpiryDropsTheGuard`). A review of a record without a revision is remembered as
  the empty text, so a record whose revision is then empty passes unreviewed (`MissingIsReviewedAsEmpty`).
- A retry of an import's failed rows takes a new import identifier at each press, so rows are queued
  again for each press that reached the server unheard (`FailedRowIsRetriedOnceIff`); the import as a
  whole keeps its identifier and is stored once (`ImportIsQueuedOnce`).

## Model

| member | source | states |
|---|---|---|
| MonitorTheorems.StartIsSound | scripts/lib/operations-fallback.ts:11-17 | With no files and no invocation everything the theorems need holds |
| MonitorSafety.StepKeepsInvariant | scripts/lib/operations-fallback.ts:11-48 | Every step of every invocation, a crash and the passing of time keep the lock, the events, the reservations and the posts consistent |
| MonitorSafety.RunKeepsInvariant | scripts/lib/operations-fallback.ts:11-48 | So does every run, with any number of invocations that stall or crash anywhere |
| MonitorTheorems.WriteReplacesWhatWasKnown | scripts/lib/operations-fallback.ts:27-32 | The state file only changes by a write of the lock's owner, within ten minutes of creating the lock, over exactly what that invocation had read or written last |
| MonitorTheorems.LostLeaseFails | scripts/lib/operations-fallback.ts:30-46 | An invocation that comes to a write without its lock, by its age or another's, writes nothing and its call fails |
| MonitorTheorems.OwnershipIsUnbroken | scripts/lib/operations-fallback.ts:14-32 | An invocation that owns the lock path now has owned it without a break since it created the file, and nobody else changed the state file meanwhile |
| MonitorTheorems.AtMostFivePostsPerEvent | scripts/lib/operations-fallback.ts:39-44 | Over every run each event id is posted at most five times |
| MonitorTheorems.CapNeverBinds | scripts/lib/operations-fallback.ts:42 | For the attempts that are possible the backoff is 60 * 2^k seconds and the 3600-second cap never binds |
| MonitorTheorems.CapBindsFromTheSixth | scripts/lib/operations-fallback.ts:42 | From a sixth attempt on the cap of an hour would bind |
| MonitorTheorems.PostsAreSpaced | scripts/lib/operations-fallback.ts:39-44 | Posts k and k+1 of an event carry times at least 60 * 2^k seconds apart; the times of sending are as far apart, less the delay of post k at most |
| MonitorSpacing.BlockedSendsNothingEarly | scripts/lib/operations-fallback.ts:14-46 | While a reminder comes first, or the lock stays where it is until the backoff has run out, no run sends the next attempt before that |
| MonitorEarly.PathIsFreed | scripts/lib/operations-fallback.ts:16-47 | A lock path that is free, about to be freed, held by an invocation that may leave, or whose lease runs out in time is freed by some run that leaves the event as it is |
| MonitorSpacing.OutOfReachSendsNothingEarly | scripts/lib/operations-fallback.ts:11-46 | While no running call and none yet to be made may retry the event before the backoff has run out, no run of calls that read the clock sends its next attempt before that |
| MonitorEarly.NextCanBeSent | scripts/lib/operations-fallback.ts:11-44 | With the path free, a call made as soon as the next attempt is due, now or later, sends it at once, unless a reminder is due by then |
| MonitorEarly.NextIsSentEarlyIff | scripts/lib/operations-fallback.ts:11-47 | With calls that read the clock, the next attempt can be sent less than the backoff after the last one if and only if that backoff has not run out, the lock path can be had before it does, and some call, running or yet to be made, may retry the event in time with no reminder due at its time |
| MonitorEarly.ReachNeedsADelay | scripts/lib/operations-fallback.ts:39-44 | Such a call takes a last attempt that was sent later than its invocation began |
| MonitorEarly.NextIsSentEarlyAtGivenTimesIff | scripts/lib/operations-fallback.ts:11-47 | If calls may be given past times, the condition is that the last attempt was sent with a delay, its backoff has not run out, the lock path can be had before it does, and no reminder was due when the attempt was |
| MonitorEarly.WaitCanShrinkByTheDelay | scripts/lib/operations-fallback.ts:39-44 | With the path free and the event not yet due, some run shortens the wait by the whole delay |
| MonitorTheorems.AcceptedStepReservesNothing | scripts/lib/operations-fallback.ts:39-45 | Once acceptance is saved no invocation comes to send the event |
| MonitorTheorems.AcceptedIsPostedAgainIffBeingSent | scripts/lib/operations-fallback.ts:39-46 | After acceptance is saved another post of the event can happen if and only if an invocation is past its reservation for it and has not sent it |
| MonitorTheorems.SavedStateIsTheReport | scripts/lib/operations-fallback.ts:37-38 | Every write stores the outage that was reported, and kind RESOLVED exactly when there is none |
| MonitorTheorems.OutageEventsAreADayApart | scripts/lib/operations-fallback.ts:35-38 | Events of one unbroken outage are at least a day apart and keep the opening time |
| MonitorTheorems.OutageOpensAtItsFirstEvent | scripts/lib/operations-fallback.ts:33-37 | The opening time is the time of the outage's first event |
| MonitorTheorems.OutagePostsAreBounded | scripts/lib/operations-fallback.ts:33-44 | An unbroken outage of length T causes at most 5 * (1 + T / 24h) posts |
| MonitorTheorems.RecoveryPostFollowsAnAttempt | scripts/lib/operations-fallback.ts:34-44 | A recovery is posted only if the notice it replaced had been attempted |
| MonitorTheorems.RecoveryIsSilentIffNothingWasAttempted | scripts/lib/operations-fallback.ts:36-39 | A recovery is stored as already delivered exactly when the outage's current event had no attempt |
| MonitorTheorems.NewOutageIsOpenedIff | scripts/lib/operations-fallback.ts:33-37 | A new outage gets kind OPENED exactly when nothing was recorded or the last event is less than a day old; otherwise REMINDER, with the opening time now |
| MonitorRuns.NewOutageIsAReminder | scripts/lib/operations-fallback.ts:33-44 | A run in which a new outage, a day after a recovery, is stored and posted as a reminder |
| MonitorReport.Volume.constructor | scripts/lib/operations-fallback.ts:11-14 | No state file, no lock and no posts |
| MonitorReport.Volume.Persist | scripts/lib/operations-fallback.ts:31-32 | Writes the notice exactly when the lock path still holds this invocation's unexpired file, and otherwise leaves the state file as it was |
| MonitorReport.Volume.ReportAvailability | scripts/lib/operations-fallback.ts:11-48 | One uninterrupted call leaves the state file, lock, posts and answer of the specification: busy, unreadable, nothing to report, not due, no destination, sent, accepted |
| MonitorReport.Volume.Update | scripts/lib/operations-fallback.ts:24-46 | The part under the lock: decides, stores before sending, reserves before sending, and stores acceptance |
| MonitorReport.CallIsARun | scripts/lib/operations-fallback.ts:11-48 | Whoever else is running and whatever lock it finds, live or expired, such a call is a run of the shared state machine that leaves file, lock and posts so and gives its caller the same answer |
| MonitorReport.BusyCall | scripts/lib/operations-fallback.ts:16-22 | A call that finds a lock removes one that expired, leaves a live one, and is told that it is busy |
| MonitorReport.AnswerSaysWhatHappened | scripts/lib/operations-fallback.ts:16-46 | The answer is busy exactly for a lock that is there, which goes exactly if it is older than ten minutes; a failure exactly for an unreadable file; and accepted exactly if a post was made now, was accepted, and that is saved |
| MonitorReport.ReachedIsSound | scripts/lib/operations-fallback.ts:11-48 | Whatever is reached from the start satisfies the invariant |
| MonitorReport.StalledAttemptIsSentAfterAcceptance | scripts/lib/operations-fallback.ts:39-45 | A run in which attempt 1 is sent after attempt 2 of the same event was sent, accepted and saved |
| DraftEditor.FollowUpEditor.constructor | src/components/EditableFollowUpAction.tsx:193-201 | The editor opens on the saved draft or the plan's text, with an empty queue |
| DraftEditor.FollowUpEditor.ShowSegments | src/components/EditableFollowUpAction.tsx:204-207 | Replaces the text on screen and nothing else |
| DraftEditor.FollowUpEditor.RunExclusive | src/components/EditableFollowUpAction.tsx:196-201 | Adds a task at the end of the queue and changes nothing else |
| DraftEditor.FollowUpEditor.Trigger | src/components/EditableFollowUpAction.tsx:259-281 | Autosave, page hide and the retry timer each queue one save; a retry uses up its timer |
| DraftEditor.FollowUpEditor.BeginNext | src/components/EditableFollowUpAction.tsx:196-201 | The head of the queue starts and sends the request of the specification, or none |
| DraftEditor.FollowUpEditor.BeginFlush | src/components/EditableFollowUpAction.tsx:232-238 | A save that starts sends the text on screen with the last known revision, unless the editor is paused or nothing is unsaved |
| DraftEditor.FollowUpEditor.BeginDiscard | src/components/EditableFollowUpAction.tsx:323-336 | A discard that starts uses the revision captured when it was pressed; without one it shows the plan's text and sends nothing |
| DraftEditor.FollowUpEditor.OnReply | src/components/EditableFollowUpAction.tsx:239-260 | An answer is handled by the request that waits for it |
| DraftEditor.FollowUpEditor.OnPutReply | src/components/EditableFollowUpAction.tsx:239-260 | Acknowledged, conflicting, missing, barred and failed saves lead to the states of the specification |
| DraftEditor.FollowUpEditor.OnDeleteReply | src/components/EditableFollowUpAction.tsx:337-360 | Removed, conflicting, missing, barred and failed discards lead to the states of the specification |
| DraftEditor.FollowUpEditor.RevertUnsaved | src/components/EditableFollowUpAction.tsx:295-299 | Shows the saved text and answers the conflict |
| DraftEditor.FollowUpEditor.KeepMine | src/components/EditableFollowUpAction.tsx:302-309 | Takes over only the other version's revision and queues a save |
| DraftEditor.FollowUpEditor.UseTheirs | src/components/EditableFollowUpAction.tsx:312-319 | Shows and holds the other version |
| DraftEditor.FollowUpEditor.PressDiscard | src/components/EditableFollowUpAction.tsx:365-368 | Captures the revision and asks, or queues the discard at once after one that failed |
| DraftEditor.FollowUpEditor.ConfirmDiscard | src/components/EditableFollowUpAction.tsx:365-368 | Queues the discard with the captured revision exactly when the owner says yes |
| DraftEditor.FollowUpEditor.DiscardAnyway | src/components/EditableFollowUpAction.tsx:323-345 | Queues a discard with the revision of the version that was found |
| DraftEditor.FollowUpEditor.Refresh | src/components/EditableFollowUpAction.tsx:209-221 | A refresh with news replaces the text, revision and conflict exactly when nothing is unsaved |
| DraftEditor.FollowUpEditor.TakeOver | src/components/EditableFollowUpAction.tsx:217-220 | The text, revision and status that were read replace the editor's, and the conflict is over |
| DraftSafety.StartIsSound | src/components/EditableFollowUpAction.tsx:193-201 | An editor that was just opened satisfies the invariant |
| DraftSafety.StepKeepsInvariant | src/components/EditableFollowUpAction.tsx:193-368 | Every step of the editor, the server, the network and other devices keeps it |
| DraftSafety.RunKeepsInvariant | src/components/EditableFollowUpAction.tsx:193-368 | So does every run |
| DraftTheorems.WordingStaysUntilSaved | src/components/EditableFollowUpAction.tsx:209-261 | Over every run without an owner's choice, the text on screen stays unless at some point exactly that text was the saved one, as a row of the server or the plan's text |
| DraftTheorems.WordingReachesTheServer | src/components/EditableFollowUpAction.tsx:193-261 | From the opened editor on, text with no discard under way stays on screen unless the server's row had exactly that text at some point, or it is the plan's |
| DraftTheorems.AcknowledgedTextWasStored | src/lib/jump-drafts.ts:146-175 | A text that is acknowledged as saved is the server's row of that revision, or was the row before the other write that a raced acknowledgement names |
| DraftTheorems.StoredIsAlwaysTrue | src/components/EditableFollowUpAction.tsx:239-360 | Over every run a page that says "saved" holds a text that was a row of the server, with a revision |
| DraftTheorems.StepKeepsWording | src/components/EditableFollowUpAction.tsx:209-345 | Of all other steps, one replaces the text on screen only while it is the saved text |
| DraftTheorems.ConfirmedDiscardKeepsLaterTyping | src/components/EditableFollowUpAction.tsx:332-342 | A discard that was carried out keeps exactly a text that came on screen after it was sent, as unsaved wording |
| DraftTheorems.DiscardKeepsTextIff | src/components/EditableFollowUpAction.tsx:323-342 | Text typed while a discard waited stays on its start, without a revision, only if it is the plan's; with one, the text on screen at the answer stays exactly if the discard was not carried out, or it is another than at the start, or it is the plan's |
| DraftTheorems.StartedDiscardKeepsUnsavedTextIff | src/components/EditableFollowUpAction.tsx:332-342 | Unsaved text on screen when a discard starts is gone after its answer, whatever came in between without the owner, exactly if the discard was carried out and it is not the plan's text |
| DraftLosses.TypedWhileDiscardWaitedIsLost | src/components/EditableFollowUpAction.tsx:321-342 | A run in which text typed after a discard was confirmed is replaced by the plan's text and never reached the server |
| DraftTheorems.KeptWordingIsSentIff | src/components/EditableFollowUpAction.tsx:302-309 | The save that starts after "Keep my wording" sends that wording over the other version exactly when it differs from the text saved before the conflict |
| DraftTheorems.UseTheirsShowsARow | src/components/EditableFollowUpAction.tsx:312-319 | "Use theirs" shows and holds a row of the server with its revision, or the plan's text when it was discarded |
| DraftTheorems.RefreshReachesUntouched | src/components/EditableFollowUpAction.tsx:209-221 | Over saved text a read is shown and held exactly when it brings another text or revision |
| DraftTheorems.RefreshSparesUnsaved | src/components/EditableFollowUpAction.tsx:209-221 | Unsaved text, its revision and its conflict are never touched by a read |
| DraftTheorems.FailedSaveIsSentAgain | src/components/EditableFollowUpAction.tsx:252-281 | A save that failed arms one retry, which sends the unsaved text of then with the revision of then |
| DraftTheorems.NothingIsSentIff | src/components/EditableFollowUpAction.tsx:232-238 | A save that starts sends nothing exactly while the editor has stopped, a conflict is open, or nothing is unsaved |
| DraftLosses.KeptWordingIsNotSent | src/components/EditableFollowUpAction.tsx:233-309 | A run in which "Keep my wording" ends the conflict, sends nothing and leaves the other version on the row |
| DraftAnswers.OpenedIsQuiet | src/components/EditableFollowUpAction.tsx:180-201 | An opened editor shows what is saved, has nothing to send, and can discard exactly a draft |
| DraftAnswers.SaveIsAskedIff | src/components/EditableFollowUpAction.tsx:259-281 | A save is asked for, after typing and on leaving, exactly when it would send the text on screen |
| DraftAnswers.TypingGoesOut | src/components/EditableFollowUpAction.tsx:232-281 | Text that is new is sent by the next save, with the last known revision |
| DraftAnswers.KeptWordingGoesOut | src/components/EditableFollowUpAction.tsx:302-309 | After "Keep my wording" the next save sends it over the other version's revision, or as a first save when that is gone |
| DraftAnswers.ConfirmedDiscardGoesOut | src/components/EditableFollowUpAction.tsx:321-368 | A discard that is pressed and confirmed is sent with the revision at the press; one that is not confirmed changes nothing |
| DraftAnswers.FailedDiscardGoesOutAgain | src/components/EditableFollowUpAction.tsx:365-368 | After one that failed a press sends the discard without asking |
| DraftAnswers.DiscardAnywayGoesOut | src/components/EditableFollowUpAction.tsx:323-345 | "Discard anyway" is sent with the revision of the version that was found |
| DraftAnswers.ReadArrives | src/components/EditableFollowUpAction.tsx:209-221 | A read that arrives replaces saved text exactly if it brings news, spares unsaved text, and sends nothing |
| DraftAnswers.BusyIsDiscarding | src/components/EditableFollowUpAction.tsx:331-360 | Over every run the fields are disabled exactly while a discard is under way |
| DraftTheorems.ConflictWaitsForTheOwner | src/components/EditableFollowUpAction.tsx:213-345 | A conflict ends only by an owner's answer, a discard that goes through, or a refresh while nothing is unsaved |
| DraftTheorems.TasksStartInOrder | src/components/EditableFollowUpAction.tsx:196-201 | Tasks start in the order they were queued, one request at a time |
| DraftTheorems.QueueGoesOnAfterAnyAnswer | src/components/EditableFollowUpAction.tsx:197-201 | After any answer, failed or lost, the queue is as it was and its head can start |
| RequestQueue.TaskQueue.constructor | src/components/EditableFollowUpAction.tsx:196 | The queue starts from a promise that is fulfilled |
| RequestQueue.TaskQueue.RunExclusive | src/components/EditableFollowUpAction.tsx:197-201 | A task is chained behind the queue, and the queue behind the task |
| RequestQueue.TaskQueue.Start | src/components/EditableFollowUpAction.tsx:198 | A task starts once the promise before it has settled, either way |
| RequestQueue.TaskQueue.Settle | src/components/EditableFollowUpAction.tsx:198 | A task's promise settles as the task ends |
| RequestQueue.TaskQueue.Swallow | src/components/EditableFollowUpAction.tsx:199 | The queue's promise is fulfilled even by a task that failed |
| RequestQueue.TasksRunInOrder | src/components/EditableFollowUpAction.tsx:196-201 | Over every run, a task that started has all earlier ones started and done, failed or not |
| RequestQueue.QueueGoesOn | src/components/EditableFollowUpAction.tsx:196-201 | While a task waits and none runs, the first that waits can start, at once or after a failure was swallowed |
| QueueRefinement.StepIsMirrored | src/components/EditableFollowUpAction.tsx:196-201 | Whatever the editor and its server do is followed by events of the promises, with the same tasks started, done and awaited |
| QueueRefinement.QueueIsTheWaitingTasks | src/components/EditableFollowUpAction.tsx:196-201 | Over every run the tasks that the promises have yet to start are, in order, the editor's sequence |
| QueueRefinement.OnlyTheHeadStarts | src/components/EditableFollowUpAction.tsx:198 | A task that the promises can start is the head of that sequence, and the editor can begin it |
| QueueRefinement.OnlyTheAwaitedSettles | src/components/EditableFollowUpAction.tsx:198 | A task whose promise can settle is the one whose answer the editor awaits |
| DraftTheorems.SentRevisionsWereGiven | src/components/EditableFollowUpAction.tsx:232-336 | Every revision sent names a real row that this editor was acknowledged, refreshed with or answered a conflict about |
| DraftAnswers.FirstSaveIsCarriedOut | src/lib/jump-drafts.ts:146-162 | A first save creates the draft as number 1 exactly when there is none, and is otherwise refused with the one there is |
| DraftAnswers.SaveIsCarriedOut | src/lib/jump-drafts.ts:163-175 | A save stores its text as the next revision exactly when it carries the row's revision, and is otherwise refused with the row |
| DraftAnswers.DiscardIsCarriedOut | src/lib/jump-drafts.ts:178-189 | A discard removes the row exactly when it carries its revision, is refused with another row, and is done when there is none |
| DraftAnswers.RequestsAreAnswered | src/lib/jump-drafts.ts:117-189 | Each request is decided and answered once, and its answer stays |
| DraftAnswers.KnownWasShown | src/components/EditableFollowUpAction.tsx:213-336 | What counts as known to the editor was acknowledged as its own write, taken over from a read, or answered as a conflict |
| DraftTheorems.OnlyMatchingRequestsReplace | src/lib/jump-drafts.ts:163-187 | A row disappears by this editor only through a request that carries the row's revision |
| DraftTheorems.RequestMeetsItsRowIff | src/lib/jump-drafts.ts:146-187 | A request replaces the row its revision was read from exactly when the draft was not created anew since |
| DraftTheorems.ReplacedRowWasKnownUnless | src/lib/jump-drafts.ts:146-187 | A replaced row was known to the editor, unless the draft was created anew since or an acknowledgement had named another device's row |
| DraftTheorems.UndisturbedRunsLoseNoUpdate | src/lib/jump-drafts.ts:117-189 | In every run in which no draft is created anew and no such acknowledgement is heard, no row is replaced that the editor did not know |
| DraftOverwrites.CanReplaceUnknownOfThisDraftIff | src/lib/jump-drafts.ts:146-187 | With no draft created anew from now on, a request on its way can come to replace a row the editor did not know if and only if it carries the current row's revision as only another write's acknowledgement gave it, or one of an earlier draft whose number the current row has not reached, or has unknown to the editor |
| DraftOverwrites.EveryRequestCanReplaceUnknown | src/lib/jump-drafts.ts:146-187 | If drafts may be created anew, every request on its way can, by another device's discard and saves |
| DraftLosses.DraftCreatedAnewIsOverwritten | src/lib/jump-drafts.ts:146-168 | A run in which the first event costs another device its draft |
| DraftLosses.RowOfRacedAnswerIsOverwritten | src/lib/jump-drafts.ts:165-175 | A run in which the second event does |
| StableJsonFaithful.StringifyIsReadBack | src/components/JumpWorkflow.tsx:95-104 | The reader of RFC 8259 reads the whole printed text as one value: the value printed, with keys sorted, undefined members dropped and undefined items null |
| StableJsonFaithful.ValueIsRead | src/components/JumpWorkflow.tsx:95-104 | It does so with any delimiter and further text behind the value |
| StableJsonFaithful.ShortEscapesAre | src/components/JumpWorkflow.tsx:95-104 | Seven characters are quoted by the short escapes of ECMA-262 |
| StableJsonFaithful.OthersAreEscapedByNumber | src/components/JumpWorkflow.tsx:95-104 | Other control characters and lone surrogates are quoted by four lower-case hexadecimal digits |
| StableJsonFaithful.OthersStay | src/components/JumpWorkflow.tsx:95-104 | All others are printed as they are, pairs of surrogates whole |
| StableJsonFaithful.LiteralsAre | src/components/JumpWorkflow.tsx:95-104 | Literals and the marks of structure are printed character by character as RFC 8259 names them |
| StableJsonSame.SameTextIffSame | src/components/JumpWorkflow.tsx:94-104 | Two values print the same text if and only if they are equal up to key order, undefined members and undefined items |
| StableHash.StepIsABijection | src/components/JumpWorkflow.tsx:110-112 | For each code unit the hash step is undone by another step, so it is a bijection on 32-bit states |
| StableHash.OneUnitChangesTheHash | src/components/JumpWorkflow.tsx:107-113 | Texts that differ in exactly one code unit hash differently, whatever surrounds it |
| StableHash.EightDigitsNameTheHash | src/components/JumpWorkflow.tsx:114 | The hexadecimal form has eight digits, no colon, and the number can be read back from it |
| StableHash.ComputeStableHash | src/components/JumpWorkflow.tsx:107-115 | The loop computes the eight-digit form of the hash of the canonical text |
| StableHash.KnownHashes | src/components/JumpWorkflow.tsx:107-114 | The hash of the empty text and of "a" are those known of FNV-1a |
| StableHash.SamePayloadsShareTheHash | src/components/JumpWorkflow.tsx:106-115 | Equal payloads share the hash |
| StableHash.OneUnitChangesTheStableHash | src/components/JumpWorkflow.tsx:106-115 | Payloads whose texts differ in one code unit have different hashes |
| RequestIds.KeyNamesTheAttempt | src/components/JumpWorkflow.tsx:117-124 | Two keys are equal exactly when follow-up, outcome and payload hash are, and both attempt ids are the same or both missing or empty |
| RequestIds.SamePayloadSameKey | src/components/JumpWorkflow.tsx:117-124 | Equal payloads retry under one key |
| RequestIds.KeyHasPrefixIff | src/components/JumpWorkflow.tsx:149-151 | A key begins with a follow-up's prefix exactly when it is that follow-up's or its id extends the prefix |
| RequestIds.PrefixPicksOutTheFollowUp | src/components/JumpWorkflow.tsx:117-151 | For ids without a colon the prefix picks out exactly the follow-up's keys |
| RequestIds.OutcomeRequestIds.constructor | src/components/JumpWorkflow.tsx:138-140 | The memory starts empty |
| RequestIds.OutcomeRequestIds.Claim | src/components/JumpWorkflow.tsx:141-147 | Gives the id the key has, or remembers the new one, and changes no other key |
| RequestIds.ClaimGivesAnId | src/components/JumpWorkflow.tsx:141-147 | Every claim gives an id that is not empty |
| RequestIds.OutcomeRequestIds.Release | src/components/JumpWorkflow.tsx:148 | Forgets one key and no other |
| RequestIds.OutcomeRequestIds.Forget | src/components/JumpWorkflow.tsx:149-151 | Deleting key by key leaves exactly the keys without the prefix |
| RequestIds.KeyKeepsItsId | src/components/JumpWorkflow.tsx:130-151 | Through any uses of the memory a key keeps its id until it is released or its follow-up forgotten |
| RequestIds.ForgetDropsExactlyTheFollowUp | src/components/JumpWorkflow.tsx:134-151 | Forgetting drops the ids of all attempts of a follow-up and of no other |
| OutcomeTheorems.FreshIsSound | src/components/JumpWorkflow.tsx:138-153 | A pending follow-up and controls without memory satisfy the invariant |
| OutcomeTheorems.StepKeepsInvariant | src/app/api/jumps/[jumpId]/outcome/route.ts:158-370 | Every step of controls, network and server, and every change of the status elsewhere, keeps it: the status is what the last change left, and each record was made from the status before it, "not sent" from the one it read |
| OutcomeTheorems.RunKeepsInvariant | src/app/api/jumps/[jumpId]/outcome/route.ts:158-370 | So does every run |
| OutcomeTheorems.EachIdRecordsAtMostOnce | src/app/api/jumps/[jumpId]/outcome/route.ts:229-353 | Through any submissions, retries, lost and late answers one request id records at most one outcome |
| OutcomeTheorems.FinishedOncePerReopening | src/app/api/jumps/[jumpId]/outcome/route.ts:237-266 | Between two records that finished the follow-up it was reopened, by a record or elsewhere |
| OutcomeTheorems.SavedIsTheRecord | src/components/JumpWorkflow.tsx:209-221 | A caller that is told "saved" holds the status recorded, once, for its own attempt |
| OutcomeTheorems.AlreadySoWasSo | src/components/JumpWorkflow.tsx:216-217 | A refusal is taken as "already so" only if the follow-up had that status when it was read, which its last change left, recorded or made elsewhere |
| OutcomeTheorems.NewRecordIsTheStatus | src/app/api/jumps/[jumpId]/outcome/route.ts:238-266 | A new record of any outcome but "not sent" is answered with the status that the follow-up then has |
| OutcomeTheorems.RecordsSayWhatHappened | src/app/api/jumps/[jumpId]/outcome/route.ts:238-266 | In every world a record is skipped exactly by a skip; pending exactly by a reopening, "not sent" or, in a workflow, a rescheduling; and done by all others |
| OutcomeTheorems.RefusedIff | src/app/api/jumps/[jumpId]/outcome/route.ts:238-266 | A new attempt is refused exactly when no record of it would be sound: reopening what is finished, finishing what is pending, and "not sent" of what was seen pending |
| OutcomeTheorems.RefusalIsTakenAsDoneIff | src/components/JumpWorkflow.tsx:216-218 | A refused caller takes its attempt as done exactly when the follow-up is as it asked for, and otherwise keeps its id |
| OutcomeTheorems.NotSentContradictsIff | src/app/api/jumps/[jumpId]/outcome/route.ts:167-251 | "Not sent" is answered with pending as it was read, which contradicts the follow-up exactly when a change since the read left another status |
| OutcomeRuns.NotSentIsSavedOverDone | src/app/api/jumps/[jumpId]/outcome/route.ts:167-251 | A run in which a caller hears that "not sent" was saved and the follow-up is pending, when it is done |
| OutcomeRuns.DeliveredElsewhereIsAlreadySo | src/lib/automatic-delivery.ts:261-265 | A run in which a caller hears "already done" of a follow-up without an outcome recorded under any request id |
| OutcomeTheorems.RetrySendsTheSameId | src/components/JumpWorkflow.tsx:195-222 | A retry sends the id of the first try, through lost answers and errors, until its answer is heard or, in the tray, any change in its page |
| OutcomeTheorems.HeardAttemptIsOver | src/components/JumpWorkflow.tsx:141-222 | An answer that is heard frees the control and its id, so the same attempt made anew has a new one; a failure frees the control and keeps the id |
| OutcomeTheorems.CanceledIsRefused | src/app/api/jumps/[jumpId]/outcome/route.ts:167-178 | A canceled follow-up, and no other, is refused as it is read, with nothing recorded |
| OutcomeTheorems.TrayStartsAfreshAfterAChange | src/components/JumpWorkflow.tsx:476-491 | After a state change heard in its page the tray remembers nothing and its next submission has an id never used |
| OutcomeTheorems.OldRecordIsReplayedIff | src/components/JumpWorkflow.tsx:134-153 | An attempt submitted now is answered from the store by another than the last record if and only if its control remembers an id for it, the id is stored, and another outcome was recorded after it |
| OutcomeTheorems.ReplayDiffersIff | src/app/api/jumps/[jumpId]/outcome/route.ts:160-165 | A replayed record's status differs from the follow-up's exactly when the last change after it left another one or, without one, it said "not sent" of a follow-up that was not pending |
| OutcomeRuns.ReopeningElsewhereIsNotHeard | src/components/JumpWorkflow.tsx:476-555 | A run in which the tray hears "done" from an old answer for a follow-up that is pending |
| OutcomeCards.WorkflowCard.constructor | src/components/JumpWorkflow.tsx:325-326 | A card is shown at first |
| OutcomeCards.WorkflowCard.OnState | src/components/JumpWorkflow.tsx:339-358 | A settled state hides the card and notes the revision; a pending one shows it |
| OutcomeCards.WorkflowCard.OnRead | src/components/JumpWorkflow.tsx:327-337 | A read at another revision than the noted one shows a hidden card again |
| OutcomeCards.CardIsHiddenIff | src/components/JumpWorkflow.tsx:325-358 | Over every run a card is hidden exactly when an outcome was heard and since then no reopening was heard and every read was at that outcome's revision |
| OutcomeCards.Confirmations.constructor | src/components/JumpWorkflow.tsx:247-253 | No confirmation, timer or Undo |
| OutcomeCards.Confirmations.Host | src/components/JumpWorkflow.tsx:252-279 | A new confirmation gets a ten-second timer; one that is shown already keeps the timer it has |
| OutcomeCards.Confirmations.Drop | src/components/JumpWorkflow.tsx:253-278 | A confirmation leaves with the timer it knows of, and no other |
| OutcomeCards.Confirmations.OnTimer | src/components/JumpWorkflow.tsx:275-277 | A timer takes away its follow-up's confirmation, whichever it is |
| OutcomeCards.Confirmations.PressUndo | src/components/JumpWorkflow.tsx:280-288 | Undo stops the timer and sends one request |
| OutcomeCards.Confirmations.OnUndoFailed | src/components/JumpWorkflow.tsx:294-304 | A failed Undo starts a timer, known to the confirmation only if that is still there |
| OutcomeCards.Confirmations.OnUndone | src/components/JumpWorkflow.tsx:288-293 | An Undo that worked takes the confirmation away |
| OutcomeCards.StepKeepsOwned | src/components/JumpWorkflow.tsx:267-305 | Every timer stays known to its confirmation through a step exactly unless an Undo fails after its confirmation left |
| OutcomeCards.ConfirmationEnds | src/components/JumpWorkflow.tsx:267-305 | In every run a confirmation's timer comes within ten seconds and takes it away, once; or its Undo is under way, takes it away when it works and makes it whole when it fails |
| OutcomeCards.TimerRunsOnce | src/components/JumpWorkflow.tsx:275-279 | A timer runs once, and takes no other timer along but its follow-up's own |
| OutcomeCards.EachSaysItsOutcome | src/components/JumpWorkflow.tsx:245-293 | Exactly a settlement puts a confirmation up, and its timer, a reopening or an Undo that worked takes it away; it says the outcome heard last |
| OutcomeCards.ConfirmationIsHeldIff | src/components/JumpWorkflow.tsx:276-305 | Time alone can take a new confirmation away within its ten seconds exactly when a timer was left behind that is due by then |
| OutcomeCards.ConfirmationsAreHeld | src/components/JumpWorkflow.tsx:256-305 | In every run in which no Undo fails late, each confirmation is held for ten seconds |
| OutcomeCards.FailedUndoLeavesATimer | src/components/JumpWorkflow.tsx:294-301 | A run that leaves such a timer behind |
| AccountGate.Boundary.constructor | src/components/BrowserAccountBoundary.tsx:22-25 | The page starts masked with its first check under way |
| AccountGate.Boundary.Hide | src/components/BrowserAccountBoundary.tsx:26-37 | Masks the content and changes nothing else |
| AccountGate.Boundary.Check | src/components/BrowserAccountBoundary.tsx:38-44 | A new check takes the next number and the present marker, and masks only if asked to; none starts after a discard |
| AccountGate.Boundary.OnHearing | src/components/BrowserAccountBoundary.tsx:45-71 | What a check hears counts only if nothing overtook it; a marker that moved starts it anew |
| AccountGate.Boundary.OnScope | src/components/BrowserAccountBoundary.tsx:53-68 | This account reveals a visible page, no account masks it, another account or a signalled sign-out discards the content |
| AccountGate.Boundary.OnSignal | src/components/BrowserAccountBoundary.tsx:73-76 | A signal is remembered as a sign-out if it says so, and starts a masking check |
| AccountGate.Boundary.OnPageHide | src/components/BrowserAccountBoundary.tsx:81 | Masks and takes the next number |
| AccountGate.Boundary.OnFocus | src/components/BrowserAccountBoundary.tsx:84 | Masks after a discard; otherwise checks, masking only what is masked already |
| AccountGate.Boundary.OnVisible | src/components/BrowserAccountBoundary.tsx:85 | Hiding acts as the page leaving, showing as focus |
| AccountGate.Boundary.OnPageShow | src/components/BrowserAccountBoundary.tsx:86 | Acts as focus exactly for a page restored from the cache |
| AccountGate.Boundary.OnOffline | src/components/BrowserAccountBoundary.tsx:87 | Masks and takes the next number, unless discarded |
| AccountGate.Boundary.OnTick | src/components/BrowserAccountBoundary.tsx:97 | A visible page is checked without masking |
| AccountGate.StepKeepsInvariant | src/components/BrowserAccountBoundary.tsx:22-101 | Usable content is on a visible page in the ready state that was not discarded, through every event |
| AccountGate.RunKeepsInvariant | src/components/BrowserAccountBoundary.tsx:22-101 | So it is over every run |
| AccountGate.HiddenIsMasked | src/components/BrowserAccountBoundary.tsx:56-85 | A hidden page is always masked |
| AccountGate.OnlyTheLatestCheckReveals | src/components/BrowserAccountBoundary.tsx:45-59 | Content becomes usable only through the highest-numbered check, hearing this account, with the marker unchanged since it began, on a visible page |
| AccountGate.OvertakenForGood | src/components/BrowserAccountBoundary.tsx:38-50 | A check that was overtaken stays so |
| AccountGate.OvertakenChangesNothing | src/components/BrowserAccountBoundary.tsx:50-70 | Whatever an overtaken check hears, and whenever, it changes nothing |
| AccountGate.LeavingOvertakesAll | src/components/BrowserAccountBoundary.tsx:73-97 | Page leaving, going offline, a signal, focus and a timed check overtake every check in flight |
| AccountGate.DiscardIsForGood | src/components/BrowserAccountBoundary.tsx:38-68 | After a discard no later event or late answer reveals or restores the content |
| AccountGate.DiscardHasACause | src/components/BrowserAccountBoundary.tsx:63-68 | Only the latest check discards, having heard another account, or none after a signalled sign-out |
| AccountGate.DiscardedIff | src/components/BrowserAccountBoundary.tsx:50-74 | Over every run the content is discarded exactly when the latest check hears another account, or none while a sign-out was signalled and the account was not confirmed since |
| AccountGate.DiscardSaysWhy | src/components/BrowserAccountBoundary.tsx:63-68 | It then says "signed out" or "changed", masked and empty, through whatever comes later |
| AccountGate.LatestCheckDecides | src/components/BrowserAccountBoundary.tsx:53-70 | The latest check shows the content, "expired" or "offline" by what it hears, and nothing to a hidden page |
| AccountGate.ChangedMarkerIsCheckedAgain | src/components/BrowserAccountBoundary.tsx:51 | A check that finds the marker changed shows nothing and is followed by another from the marker now |
| AccountGate.MaskedAtOnceIff | src/components/BrowserAccountBoundary.tsx:73-97 | Usable content is masked at once exactly by a signal, by leaving or hiding, and by losing the connection |
| AccountGate.ChecksBegin | src/components/BrowserAccountBoundary.tsx:73-97 | A signal, every way back, and a tick on a visible page start a check from the marker now |
| AccountGate.EventsAreTaken | src/components/BrowserAccountBoundary.tsx:40-97 | The page knows its visibility and the marker as they were last |
| AccountGate.ChecksAreHeardOnce | src/components/BrowserAccountBoundary.tsx:38-72 | Each check is heard once, and none is lost |
| AccountGate.ExpiryNeverDiscards | src/components/BrowserAccountBoundary.tsx:63-65 | Over runs without those, an expired session never discards the content |
| AccountGate.UsableAgainIffNotDiscarded | src/components/BrowserAccountBoundary.tsx:38-68 | Some continuation makes the content usable again if and only if it was not discarded |
| Settlement.NextActionSummary.constructor | src/components/NextAction.tsx:47-49 | The first read is shown and no receipt is held |
| Settlement.NextActionSummary.Render | src/components/NextAction.tsx:47-48 | A read that was not observed before the shown one replaces it |
| Settlement.NextActionSummary.OnChange | src/components/NextAction.tsx:51-65 | An event changes its follow-up's receipt as the merge says |
| Settlement.ReceiptIsTheGreatest | src/components/NextAction.tsx:54-65 | Without a reopening a receipt is the greatest of the settlements heard and of what it was: unversioned is top, otherwise the latest instant |
| Settlement.ReceiptsConverge | src/components/NextAction.tsx:50-70 | Receipts agree, whatever the order and repetition, when the same settlements were heard since the last reopening |
| Settlement.OrderShowsInTheTextIff | src/components/NextAction.tsx:60-62 | Two settlements leave different maps by their order exactly when they spell one instant differently |
| Settlement.ShownConverges | src/lib/next-action.ts:83-92 | What is shown of a read depends on the receipts alone |
| Settlement.ItemIsShownIff | src/lib/next-action.ts:76-92 | An item is shown exactly when the settlement heard of its follow-up covers no item of it in the read: has a version, which both the item and the read are later than |
| Settlement.ShownKeepsTheOrder | src/lib/next-action.ts:76-92 | Items that are shown keep the order of the read |
| Settlement.SettledWorkIsNotRevived | src/lib/next-action.ts:76-92 | Settled work stays out of every read that does not show a newer version, until it is reopened |
| Settlement.SnapshotNeverGoesBack | src/components/NextAction.tsx:45-48 | The snapshot is one of the reads that arrived and none of them was observed later |
| Settlement.SnapshotTimesConverge | src/components/NextAction.tsx:45-48 | The same reads in another order end with the same time of observation |
| Settlement.TheLastOfTheLatestIsShown | src/components/NextAction.tsx:47-48 | Of the most recent reads the one that came last is shown |
| Polling.PollingEffect.constructor | src/components/PreparationNotice.tsx:28-81 | The run starts with its deadline and, when there is work or the owner asked, one timer |
| Polling.PollingEffect.Check | src/components/PreparationNotice.tsx:41-49 | A check sends a request exactly on a visible page before the deadline; at the deadline it shows "delayed" |
| Polling.PollingEffect.OnTimer | src/components/PreparationNotice.tsx:41-81 | A timer runs one check |
| Polling.PollingEffect.OnVisibility | src/components/PreparationNotice.tsx:77-80 | A change stops the chain and starts a new one exactly when the page is visible and work is left |
| Polling.PollingEffect.Finish | src/components/PreparationNotice.tsx:71-75 | Only the latest check may say that nothing is running |
| Polling.PollingEffect.OnFailure | src/components/PreparationNotice.tsx:68-75 | Only the latest check on a visible page shows an error |
| Polling.PollingEffect.OnResponse | src/components/PreparationNotice.tsx:50-54 | Any response ends retrying; refusals are errors of the latest check |
| Polling.PollingEffect.OnBody | src/components/PreparationNotice.tsx:55-75 | A status heard by the latest check is shown and sets a timer exactly while work is going on |
| Polling.PollingEffect.OnCleanup | src/components/PreparationNotice.tsx:83 | Stops the timer and gives up the check |
| Polling.StepKeepsInvariant | src/components/PreparationNotice.tsx:27-84 | Every step keeps one chain, the pace of requests and what they may carry |
| Polling.RequestsAreBounded | src/components/PreparationNotice.tsx:27-84 | A run makes at most 20 requests and one more for each time the page became visible; none at or after the deadline; no retry after any response; one live chain at most; and the button is busy only while a check is |
| Polling.RequestIsSentIff | src/components/PreparationNotice.tsx:41-49 | A request is sent exactly when a timer fires or the page becomes visible with work left, before the deadline, and is a retry only until a first answer |
| Polling.VisibilityEndsTheCheck | src/components/PreparationNotice.tsx:40-80 | A change of visibility ends the timer and the check under way |
| Polling.ShowsWhatWasHeard | src/components/PreparationNotice.tsx:43-70 | The notice shows the status heard last, "delayed" from a check after the deadline, an error from a failure heard until a status is heard, and a sign-out for good |
| Polling.FirstCheck | src/components/PreparationNotice.tsx:31-38 | The first check comes at once if started by hand, after a second if work is going on, and never otherwise |
| Polling.TwentyAreReached | src/components/PreparationNotice.tsx:27-84 | A run without visibility changes does make 20 |
| Polling.SupersededAnswersChangeNothing | src/components/PreparationNotice.tsx:50-74 | The answer to a superseded check shows nothing and schedules nothing |
| Polling.TimerIsSetIff | src/components/PreparationNotice.tsx:58-67 | After the latest check's answer a timer is set exactly when it heard of work going on, three seconds ahead |
| Polling.RestIsReached | src/components/PreparationNotice.tsx:58-83 | Hearing "ready" and cleaning up bring the effect to rest |
| Polling.RestIsFinal | src/components/PreparationNotice.tsx:41-84 | At rest no request is ever sent again, whatever comes |
| MergeFields.RunEnd | src/components/MergeFieldText.tsx:5 | The run ends at the first brace or the end of the text |
| MergeFields.SpacesAre | src/components/MergeFieldText.tsx:5-6 | White space is exactly the code units that the pattern's `\s` matches |
| MergeFields.MatchEndIsTheField | src/components/MergeFieldText.tsx:5 | The scan reports a match from one place to another exactly when the pattern matches that text: spaces, a visible character, no braces, spaces, in double braces |
| MergeFields.FieldsNeverOverlap | src/components/MergeFieldText.tsx:5 | Two different fields of a text never overlap |
| MergeFields.SplitLosesNothing | src/components/MergeFieldText.tsx:12 | The parts concatenate to the text |
| MergeFields.ChipsAreTheFields | src/components/MergeFieldText.tsx:12-15 | What stands between two places is a chip if and only if it is a field |
| MergeFields.PartsAlternate | src/components/MergeFieldText.tsx:12-15 | Every odd part is a field and no even part holds one |
| MergeFields.ChipsStandAtTheSpans | src/components/MergeFieldText.tsx:12-15 | The odd parts of the split are the text at those places, in order |
| MergeFields.NameIsTheCapture | src/components/MergeFieldText.tsx:6 | A part has a name exactly when it is a field, and the name is the lazy capture |
| MergeFields.ChipNamesAreTrimmed | src/components/MergeFieldText.tsx:6-15 | A field is two braces, spaces, a non-empty trimmed name without braces, spaces and two braces |
| MergeFields.TextIsShownFaithfully | src/components/MergeFieldText.tsx:12-16 | The whole text is shown, with a chip in the place of each field and nowhere else |
| AdminDraftForm.AdminForm.constructor | src/components/AdminDraftForm.tsx:9-13 | A form has the elements and the list of names it was given |
| AdminDraftForm.AdminForm.Capture | src/components/AdminDraftForm.tsx:35-42 | The loop collects, for each name, the fields of its retained controls in the order of the form, and no others |
| AdminDraftForm.AdminForm.Restore | src/components/AdminDraftForm.tsx:22-34 | The loop writes back field by field, ticking radio buttons as a browser does |
| AdminDraftForm.PlaceIsRankIff | src/components/AdminDraftForm.tsx:28-41 | An element's place among all of its name is its rank among the retained ones exactly when all before it are retained |
| AdminDraftForm.SecretsAreNotCaptured | src/components/AdminDraftForm.tsx:8-42 | What is captured does not depend on any password, hidden field, file or field that is not listed |
| AdminDraftForm.VisibleIsCaptured | src/components/AdminDraftForm.tsx:38-42 | Every other control is captured with its value and, for a checkbox or radio button, its tick |
| AdminDraftForm.SecretsAreNotRestored | src/components/AdminDraftForm.tsx:26-33 | Restoring never touches such a field |
| AdminDraftForm.RestoreKeepsRadiosApart | src/components/AdminDraftForm.tsx:26-33 | At every step of restoring at most one radio button of a group is ticked |
| AdminDraftForm.RestoreReproduces | src/components/AdminDraftForm.tsx:22-42 | On an aligned form, restoring a capture gives back what every retained control showed and touches no other element |
| AdminDraftForm.RestoresFaithfullyIff | src/components/AdminDraftForm.tsx:22-42 | That holds for all contents of a form if and only if it is aligned |
| AdminDraftStore.DraftStore.constructor | src/components/AdminDraftProvider.tsx:6-7 | The store starts empty |
| AdminDraftStore.DraftStore.Write | src/components/AdminDraftProvider.tsx:12 | Writes a draft for thirty minutes and leaves the others |
| AdminDraftStore.DraftStore.Forget | src/components/AdminDraftProvider.tsx:13 | Removes one draft and leaves the others |
| AdminDraftStore.DraftStore.ExpireDue | src/components/AdminDraftProvider.tsx:15 | The sweep deletes exactly the entries that are due |
| AdminDraftStore.DraftStore.Get | src/components/AdminDraftProvider.tsx:11 | Whatever operations were carried out, gives the draft that one of them wrote and none since ended, due or not, and nothing if there is none |
| AdminDraftStore.HeldIff | src/components/AdminDraftProvider.tsx:6-18 | After any operations a draft is held exactly if one wrote it and none since wrote, removed or cleared it or swept thirty minutes or more later |
| AdminDraftGuard.GuardedForm.constructor | src/components/AdminDraftForm.tsx:15-20 | A form opens with what the store holds and nothing reviewed |
| AdminDraftGuard.GuardedForm.HasConflict | src/components/AdminDraftForm.tsx:21 | There is a conflict exactly when a held draft names another revision than the record and its author has not reviewed the record's |
| AdminDraftGuard.GuardedForm.Capture | src/components/AdminDraftForm.tsx:35-44 | Typing reaches the draft, which keeps its revision under a conflict and takes the record's otherwise |
| AdminDraftGuard.GuardedForm.Submit | src/components/AdminDraftForm.tsx:45-50 | A submission goes out exactly without a conflict |
| AdminDraftGuard.GuardedForm.PressReviewed | src/components/AdminDraftForm.tsx:52 | The draft takes the record's revision, which counts as reviewed |
| AdminDraftGuard.StepKeepsInvariant | src/components/AdminDraftForm.tsx:19-52 | Every step keeps a held draft's revision among those it was begun on or reviewed for, or the empty one after a review of none, until it expires |
| AdminDraftGuard.HeldDraftsAreSentAgainstKnownRevisions | src/components/AdminDraftForm.tsx:19-52 | Over every run of a form, wording whose draft did not expire is sent only against a revision it was begun on or its author marked as reviewed, or the empty one after a missing one was marked |
| AdminDraftGuard.ConflictBlocksUntilAnswered | src/components/AdminDraftForm.tsx:21-52 | Under a conflict nothing is sent however often the author types or submits, and the last typing stays in the draft |
| AdminDraftGuard.DraftHoldsTheTyping | src/components/AdminDraftForm.tsx:35-52 | The draft holds what was typed last, through reviews and refreshes, and a submission sends exactly what is submitted, against the record's revision |
| AdminDraftGuard.LapseIsAnExpiry | src/components/AdminDraftProvider.tsx:15 | A draft counts as expired only by an expiry after its wording was begun |
| AdminDraftGuard.ReviewEndsTheConflict | src/components/AdminDraftForm.tsx:21-52 | A review ends the conflict until the record has another revision than the one reviewed |
| AdminDraftGuard.CanSendUnreviewedIff | src/components/AdminDraftForm.tsx:21-52 | Some refresh lets wording out against an unknown revision if and only if no draft of it is held, the draft names an unknown revision, or the last review was of a missing one and the empty one is unknown; it takes an expiry or such a review |
| AdminDraftGuard.ExpiryDropsTheGuard | src/components/AdminDraftProvider.tsx:15 | A run in which an expiry lets it out |
| AdminDraftGuard.MissingIsReviewedAsEmpty | src/components/AdminDraftForm.tsx:20-52 | A run in which a review of a missing revision does, with the draft held |
| ImportReview.Chunk | src/components/ContactImportWizardV2.tsx:83-87 | The loop cuts a list into full groups and a last one that may be shorter, which join to the list |
| ImportReview.ChunkingIsUnique | src/components/ContactImportWizardV2.tsx:83-87 | There is only one such way to cut it |
| ImportReview.ImportWizard.constructor | src/components/ContactImportWizardV2.tsx:195-204 | Nothing is reviewed yet |
| ImportReview.ImportWizard.Analyze | src/components/ContactImportWizardV2.tsx:272-296 | Asks for matches in chunks of at most 100 and replaces rows, matches, decisions and usage together when every answer came, and none of them otherwise |
| ImportReview.ImportWizard.UpdateResolution | src/components/ContactImportWizardV2.tsx:315-320 | Changes the given parts of one row's decision and no other row's |
| ImportReview.PlanCoversTheRowsIff | src/components/ContactImportWizardV2.tsx:207-220 | Given one match per valid row, the planned counts add up to the prepared rows through every sequence of decisions exactly when each is about a valid row |
| ImportReview.LastChoicesStand | src/components/ContactImportWizardV2.tsx:315-320 | Over every sequence of decisions each row has the action and the target that were last chosen for it |
| ImportReview.DefaultsAreRecommended | src/components/ContactImportWizardV2.tsx:288 | Each row starts with what its last match recommends, on its first candidate if there is one |
| ImportReview.CollectedAreAll | src/components/ContactImportWizardV2.tsx:279-287 | The matches of all chunks are taken, one after another |
| ImportQueue.QueueButton.constructor | src/components/ContactImportWizardV2.tsx:195-196 | No batch yet |
| ImportQueue.QueueButton.QueueImport | src/components/ContactImportWizardV2.tsx:322-369 | A press sends the whole import under the kept identifier or the failed rows under a new one, and takes over identifier and batch exactly when it is answered |
| ImportQueue.FullPayloadConservesRows | src/components/ContactImportWizardV2.tsx:339-350 | A queued import names every prepared row exactly as often as the file, valid rows as items with their decisions, others as failures |
| ImportQueue.PlanIsWhatIsQueued | src/components/ContactImportWizardV2.tsx:212-343 | The planned counts are the counts of the queued items |
| ImportQueue.RetryQueuesTheFailedRows | src/components/ContactImportWizardV2.tsx:336-344 | A retry queues exactly the valid rows that failed |
| ImportQueue.SentAsDecided | src/components/ContactImportWizardV2.tsx:336-350 | A whole import and a retry send rows in the order of the file, each with the decision in force, and tell of each row that was wrong where it stood and why |
| ImportQueue.FullPayloadIsAcceptedIff | src/lib/contact-import-jobs.ts:111-117 | The server takes the import exactly when the file's identifiers differ and are of the right length, each decision names its own row, and there are 1 to 5000 rows |
| ImportQueue.ImportIsQueuedOnce | src/lib/contact-import-jobs.ts:120-163 | However often it is pressed, answers are lost and decisions change, an import is stored at most once, as it first arrived, and no other batch comes or changes |
| ImportQueue.HeardPressIsShown | src/components/ContactImportWizardV2.tsx:350-362 | A press whose answer is heard shows the batch of its identifier, which the page keeps; any other leaves the page as it was |
| ImportQueue.PageFollowsTheServer | src/components/ContactImportWizardV2.tsx:350-362 | Over every run what the page shows of its batch is what the server has of it |
| ImportQueue.WrongRowsHaveFailed | src/components/ContactImportWizardV2.tsx:344-350 | A new batch has failed exactly for the rows that were wrong |
| ImportQueue.UnheardRetriesAddUp | src/components/ContactImportWizardV2.tsx:336-362 | Each retry that reaches the server unheard stores the failed rows once more |
| ImportQueue.FailedRowIsRetriedOnceIff | src/components/ContactImportWizardV2.tsx:336-362 | A failed row is queued again exactly once if and only if no press before the answered one reached the server |

## Left out

- Everything that only draws: markup, focus, dialogs, announcements, links, copy text and device preferences.
- Draft text: how the editor cuts it into segments and computes values; a text is an opaque value.
- The editor's older form, which does not save, and the indicators it derives for other parts of the page.
- Limits and validation of requests (rate limits, sizes, schemas, permissions); a refused request is one answer.
- OutcomeTheorems.EachIdRecordsAtMostOnce: does not model the seven days after which a stored answer is dropped; no retry is that late in the model.
- Journey steps, activity records and mixes that an outcome sets off.
- MonitorTheorems.OwnershipIsUnbroken: does not model the time between the check that the lock is owned and the write of the state file; the two are one step.
- What a file system or a generator of identifiers could do wrong: inodes of open files are not reused and new identifiers are new.
- StableJsonFaithful.StringifyIsReadBack: does not model the digits of numbers (section 6 of RFC 8259); a finite number is named by the text the language prints for it.
- Collisions of the hash beyond one code unit; 32 bits cannot exclude them.
- The boundary's restart for another account and its cleanup, and the notifications and private state it clears.
- The cleanup of all confirmations when their list leaves the page.
- Selections, counts and order of the next actions beyond what settled work hides.
- Whether a finished poll shows its result at once or waits for an open draft.
- AdminDraftForm.RestoresFaithfullyIff: does not model which options a select box has, nor boxes with several choices; a value that is written back is taken to show.
- The check of the staff session that hides and clears the forms; a cleared store counts as an expired draft or a reopened page.
- How contact files are read and mapped to rows, and the warning before importing rows without a way to reach them.
- List reordering, the service worker, the proxy's filters, schedulers and set-up scripts.
