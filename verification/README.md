# Terminal lobby: a verified model of the agent service's hard parts

This project models the parts of terminal-lobby that keep state, race, crash or
print something another program parses back, and proves what they promise. It
checks with Dafny 4.11: `dafny verify dfyconfig.toml`.

The modules follow the program's components.

| file | models |
|---|---|
| `Ids.dfy`, `Prelude.dfy` | ids and creation orders; the option type |
| `Wakeups.dfy` | the close-and-replace wakeup channel of both stores |
| `Delegations.dfy`, `DelegationStore.dfy` | the delegation records and the store that writes before it commits |
| `DelegationRuns.dfy`, `DelegationCaps.dfy`, `CapWindows.dfy` | whole runs of that store: crashes, failed writes, rolling caps, RetryAfter |
| `Runners.dfy` | one drain goroutine per conversation |
| `Tasks.dfy`, `TaskStore.dfy` | the task status machine, its store and prune |
| `Turns.dfy`, `RunTurn.dfy` | tasks, goroutines, turns, cancels and answers interleaving; one turn start to finish |
| `TurnRead.dfy`, `TurnWatch.dfy` | reading a turn out of a transcript, and watching it to its end |
| `Ulids.dfy` | minting ids |
| `McpPins.dfy` | pins and wait caps applied to MCP calls |
| `ShellWords.dfy` | the command line claude starts with, and the shell that reads it |
| `Multipart.dfy` | storing an upload whole or not at all |
| `StoreLinks.dfy` | removing a session's uploads through links |
| `CallerTags.dfy` | the memo of a session's Caller |
| `UserMaps.dfy` | the user map's printer and its two readers |

## How it is modelled

Objects the program mutates are classes whose methods mutate; each method's
contract ties the new state to a function of the old one, and the lemmas are
about those functions. Every region held under a lock is one step. A write that
fails, a crash, a reading of the clock, what a poll sees of a session, the order
a Go map is iterated in, how short a read is and what the disk refuses are all
inputs, and the theorems hold for every choice of them. Runs are sequences of
worlds and events, with histories of what was submitted, completed or created.

Readings of the clock that the code takes separately are separate parameters
(`now`, then `stamp`, then `later`). Times are whole numbers of nanoseconds.

What the code and its comments say differently, the model takes from the code:

- `Runner.Ahead` is documented as the unfinished turns. It counts one too many
  between a submit and the first pop, and after the last turn
  (`Runners.AheadBounds` says exactly when, `Runners.AheadCanOverCount` shows it).
- `OSUsersInMap` says it reads the map the way its other readers do. It cuts a
  line at any hash sign, so an account whose identity holds one, which
  `ParseUsers` accepts, is in the services' map and not in its list
  (`UserMaps.AllVisible`, `UserMaps.HashHidesAccount`), and an account of that
  kind that is revoked is not reported as dropped (`UserMaps.DroppedIsWhole` says
  when the report is whole, `UserMaps.RevokedUnreported` shows it missing one).
- Ids sort in creation order only while the clock does not go back
  (`Ulids.SortsAfter`, `Ulids.ClockBack`).
- The caps are exact in recorded whole seconds, since `CreatedAt` is truncated:
  `DelegationCaps.CapsHoldOverRuns` is about the recorded times, and
  `DelegationCaps.MadeApart` says what that leaves of the real ones.
- `backgroundOutstanding` can list an id twice when it is started, ended and
  started again; the theorems are about which ids are listed.

## Model

| member | source | states |
|---|---|---|
| `Wakeups.NoLostWakeup` | agent-api/task.go:312-352 | a waiter whose snapshot had not ended and whose channel is still open waits on an entry that is still there and has not moved at any step since: by the time the status has moved, or the entry is gone, the waiter's channel has been closed |
| `Wakeups.SignalSound` | agent-api/task.go:312-317 | close-and-replace closes exactly the entry's current channel, closes none twice, and leaves every entry with an open channel of its own |
| `Wakeups.JoinSound` | agent-api/delegation.go:301-302 | a new entry gets a channel nobody else holds and wakes nobody |
| `Wakeups.DropsSound` | agent-api/task.go:228-239 | entries that are pruned take their channels with them unclosed, and the others keep theirs |
| `Wakeups.WakesThenDrops` | agent-api/delegation.go:545-559 | entries leaving after a status change in the same region do not undo what it woke |
| `DelegationStores.NoWaiterLeft` | agent-api/delegation.go:494-529 | so for the delegation store, over any run of its regions, Sweep's prune included |
| `TaskStores.NoWaiterLeft` | agent-api/task.go:319-352 | and for the task store, Add's prune included |
| `TaskStores.OnlyFinishedGo` | agent-api/task.go:228-239 | a task the prune drops had finished, so it leaves no waiter behind |
| `Delegations.TruncateKeeps` | agent-api/delegation.go:272-276 | truncation to the second keeps the order between a stamp already truncated and a later reading |
| `Delegations.OpenIsWellFormed` | agent-api/delegation.go:262-269 | what is loaded is a proper store whatever duplicates or nameless records the file holds |
| `Delegations.LoadedListing` | agent-api/delegation.go:577-595 | loading back what a whole write lists gives the same records: the file's round trip |
| `Delegations.LoadedFirst` | agent-api/delegation.go:262-269 | of any file, each id it has is loaded as the first record that has it |
| `Delegations.TransitionMeans` | agent-api/delegation.go:420-492 | each of the three changes, edit by edit and refusal by refusal, in the lifecycle's own terms |
| `Delegations.SweepLeaves` | agent-api/delegation.go:540-566 | what a sweep leaves of each record |
| `DelegationRuns.CrashRefinement` | agent-api/delegation.go:231-304 | at every point of every run, with any writes failing and any clock: every id in memory is in the file, and at any time from the latest reading on memory and a store reopened from the file report the same status, result and reason; what only the file holds has ended |
| `DelegationRuns.FailedWriteIsInvisible` | agent-api/delegation.go:205-210 | a request whose write fails leaves the file as it was and changes nothing any later read reports |
| `DelegationRuns.ReportMovesAlongLifecycle` | agent-api/delegation.go:62-76 | over every event, restarts after failed writes included, what a read reports stays or moves as canGo allows |
| `DelegationRuns.EndIsFinal` | agent-api/delegation.go:57-76 | once a read would say a delegation ended, every later read says it ended the same way with the same result and reason, for as long as it is kept, under a clock that does not go back |
| `DelegationRuns.NextRefines` | agent-api/delegation.go:389-414 | every lock-held region, written or not, keeps the relation between memory and file that the crash refinement needs |
| `DelegationRuns.ExpireRefines` | agent-api/delegation.go:387-414 | an expiry committed although its write failed is one the reopened file would derive |
| `DelegationRuns.PruneRefines` | agent-api/delegation.go:540-566 | a prune whose write failed leaves in the file only records that read as finished |
| `DelegationRuns.TransitionRefines` | agent-api/delegation.go:461-492 | write-before-commit keeps memory and file in step whether or not the write succeeds |
| `DelegationRuns.NextWellFormed` | agent-api/delegation.go:200-223 | every region keeps ids, order and map in step |
| `DelegationRuns.NextKeepsEnd` | agent-api/delegation.go:461-492 | no event changes how an ended delegation ended |
| `DelegationRuns.NotCreatedAgain` | agent-api/delegation.go:281-304 | an id that was ever held is not created again |
| `DelegationCaps.CapsHoldOverRuns` | agent-api/delegation.go:281-337 | across failed writes, prunes and restarts under a clock that does not go back, limit + 1 successive creations for one Caller have recorded times at least the window apart, for the hour and the day |
| `DelegationCaps.MadeApart` | agent-api/delegation.go:272-276 | recorded a window apart means made more than the window less one second apart |
| `DelegationCaps.SpacedAtCreation` | agent-api/delegation.go:306-337 | a creation the check let through is recorded a whole window after the one `limit` creations before it |
| `DelegationCaps.AllRecent` | agent-api/delegation.go:540-566 | pruning never frees a slot: every creation inside a window is still counted, because retention is longer than any window and a record's update is not before its creation |
| `DelegationCaps.NextCapsOk` | agent-api/delegation.go:281-337 | every event keeps recorded times whole-second, ordered, not in the future, and recent creations in memory and file |
| `CapWindows.HeaderKeepsRoom` | agent-api/delegations.go:380-386 | from the header's whole seconds on the refusing window has room, and a second sooner it is still full, unless that is past already |
| `CapWindows.AtLeastAbove` | agent-api/delegation.go:330-333 | the k-th newest time is after an instant exactly when at least k are |
| `CapWindows.Sorted` | agent-api/delegation.go:330 | sorting keeps the list's length and its count after every instant, in ascending order |
| `CapWindows.TimesAreCreations` | agent-api/delegation.go:319-326 | the collected times count exactly the Caller's creations after every instant in the window |
| `DelegationStores.DelegationStore.constructor` | agent-api/delegation.go:231-270 | a store opened from a file: each id the file has, as the first record that has it, nameless records passed over, every entry with an open channel |
| `DelegationStores.DelegationStore.Get` | agent-api/delegation.go:352-362 | the one entry, if unfinished and past its expiry, is expired and stamped, nothing else about it or any other changes, and the record memory then holds is reported |
| `DelegationStores.DelegationStore.List` | agent-api/delegation.go:364-377 | expires everything due, then gives the kept records from the newest place of the order back, all of them or the newest `limit` |
| `DelegationStores.DelegationStore.ExpireLocked` | agent-api/delegation.go:387-414 | moves exactly the due entries, wakes exactly their waiters, writes once and only if something moved |
| `DelegationStores.DelegationStore.Transition` | agent-api/delegation.go:461-492 | a finish that takes leaves the record with exactly the given status and result, sent and undelivered likewise with the given reason, everything else but the stamp as before, and answers with it; accepted from pending alone, or for a result from sent too, and only before the expiry; not found, not pending, expired, already finished and unwritten are each answered in exactly their own case, and leave what a read would; no other record moves |
| `DelegationStores.DelegationStore.ApplyLocked` | agent-api/delegation.go:471-491 | memory changes only when the write succeeded |
| `DelegationStores.DelegationStore.Wait` | agent-api/delegation.go:494-516 | looks as Get does; a waiter that blocks holds the open, current channel of a record still in the status it knows and not due, and its timer runs to the expiry |
| `DelegationStores.DelegationStore.Sweep` | agent-api/delegation.go:540-566 | every record is left as a read would leave it, but those finished and last touched 14 days or more ago, which are gone; the order of the rest stays, and exactly whom it should wake wakes |
| `DelegationStores.DelegationStore.CheckWindow` | agent-api/delegation.go:306-336 | refused exactly when the window is full, and RetryAfter is exactly least: full at every instant before it, room from then on |
| `DelegationStores.DelegationStore.CheckCaps` | agent-api/delegation.go:306-337 | the hour is looked at before the day; refused exactly when one is full, with that window's exact RetryAfter |
| `DelegationStores.DelegationStore.Create` | agent-api/delegation.go:278-304 | refused by a cap, unwritten with nothing changed, or written and only then committed at the end of the order: pending, no result or reason, stamped now to the second, everything else as asked |
| `DelegationStores.DelegationStore.PersistLocked` | agent-api/delegation.go:577-595 | a write that succeeds leaves exactly the current records in creation order in the file; one that fails leaves the file |
| `Runners.ExactlyOnceInOrder` | agent-api/runner.go:51-120 | per conversation, over any interleaving: submitted is completed, then in flight, then pending, in order; one goroutine a conversation; live counts the active queues |
| `Runners.AheadBounds` | agent-api/runner.go:70-90 | Ahead is the unfinished turns or one more, and exact if and only if the conversation is idle or a turn of it is in flight |
| `Runners.AheadCanOverCount` | agent-api/runner.go:78-90 | between a submit and the first pop Ahead counts the one unfinished turn twice |
| `Runners.Progress` | agent-api/runner.go:92-120 | an unfinished conversation always has a goroutine, whose every step brings it exactly one nearer to having run everything; no other conversation's event moves it; a submit of its own adds exactly that turn's steps |
| `Runners.NextInv` | agent-api/runner.go:97-120 | every lock region and turn end keeps queues, goroutines and histories in step |
| `Runners.Runner.Submit` | agent-api/runner.go:51-68 | the task is the last of its conversation's queue, no other queue moves, and a goroutine starts exactly when the conversation had none |
| `Runners.Runner.Drain` | agent-api/runner.go:97-119 | takes the oldest pending task, or ends the queue; the idle channel is closed and replaced exactly when the last queue drains |
| `Runners.Runner.AheadOf` | agent-api/runner.go:78-90 | is the count the bounds speak of |
| `Runners.Runner.Idle` | agent-api/runner.go:122-133 | closed exactly when nothing is live, else the open channel the last drain will close |
| `Tasks.PruneKeeps` | agent-api/task.go:222-240 | prune changes no task it keeps and drops only finished ones |
| `Tasks.PrunedTerminal` | agent-api/task.go:228-239 | whatever the loop drops is in a terminal status: a live task is never dropped |
| `Tasks.PrunedCount` | agent-api/task.go:229-235 | it drops at most what is over, and fewer only when no finished task is left |
| `Tasks.OldestFirst` | agent-api/task.go:222-240 | a finished task older than a dropped one is dropped too |
| `Tasks.PruneFits` | agent-api/task.go:222-240 | after a prune the store fits or holds only unfinished tasks |
| `Tasks.PruneWellFormed` | agent-api/task.go:222-240 | order and map stay in step |
| `Tasks.AddKeeps` | agent-api/task.go:208-220 | a new task is kept whatever the prune drops for it: accepted, made and touched now, otherwise as given |
| `Tasks.AddInOrder` | agent-api/task.go:208-240 | what an Add keeps stays in order, the new task the newest |
| `Tasks.UpdateKeeps` | agent-api/task.go:293-310 | a refused change changes nothing; one that takes, which is to any other status but accepted from one that has not ended, moves that task alone: the status, the stamp, exactly what is filled in (a question, a result with its background flag, an error) and nothing else |
| `Tasks.SetQuestionKeeps` | agent-api/task.go:363-376 | a re-read question replaces the question of a task waiting on one, and moves nothing else |
| `TaskStores.TaskStore.Update` | agent-api/task.go:293-310 | took exactly when the task has not ended and the status is another one and not accepted; then that status, the stamp, exactly what was filled in and nothing else; exactly the task's waiters woken |
| `TaskStores.TaskStore.SetQuestion` | agent-api/task.go:363-376 | replaces the question exactly of a task waiting on one, waking nobody |
| `TaskStores.TaskStore.Add` | agent-api/task.go:208-220 | the new task accepted, stamped now and otherwise as given, the newest in the order; then the prune; nobody woken who should not be |
| `TaskStores.TaskStore.Prune` | agent-api/task.go:222-240 | the in-place filter is the specified prune |
| `TaskStores.DropOldest` | agent-api/task.go:228-239 | the loop over the order keeps exactly the specified ids and entries |
| `TaskStores.TaskStore.Cancel` | agent-api/task.go:393-406 | under the lock, cancels exactly an unfinished task, with its stamp and nothing else of it, wakes its waiters and says whether its turn was live |
| `TaskStores.TaskStore.CloseCancel` | agent-api/task.go:407 | after the lock, the task's cancel channel closes, and no other |
| `TaskStores.TaskStore.CancelOpen` | agent-api/task.go:411-434 | exactly the unfinished tasks of one conversation of one OS user are cancelled and stamped, each with its cancel channel closed, and listed in the order sent; no other task is touched |
| `TaskStores.TaskStore.Get` | agent-api/task.go:242-278 | shows a question, a result or an error in exactly the status that has one |
| `TaskStores.TaskStore.Wait` | agent-api/task.go:319-352 | a waiter that blocks holds the open, current channel of a task still in the status it saw |
| `TaskStores.PrunedSlots` | agent-api/task.go:222-240 | what a prune keeps keeps its channel |
| `Turns.OneLiveTask` | agent-api/runner.go:34-40 | with cancels and answers racing, a conversation never has two tasks running or waiting on a question, and the one it has is the turn in flight |
| `Turns.TurnsEndFinished` | agent-api/turn.go:32-86 | every turn the drain loop has gone past left its task finished |
| `Turns.FinishedIsFinal` | agent-api/task.go:40-48 | a finished task never changes again while it is kept, and one that is gone had finished first |
| `Turns.CancelSeen` | agent-api/task.go:436-446 | what a closed cancel channel tells the turn that looks: its task is cancelled, or gone from the store, at every point of every interleaving |
| `Turns.WalkEnds` | agent-api/turn.go:32-86 | whatever everybody else does to the store between its steps, a turn that has walked to its return has left its task finished or gone |
| `RunTurns.RunTurn` | agent-api/turn.go:32-86 | the message is sent exactly when nothing stood in its way, and otherwise the turn ends as the first thing in its way says; once sent there is a poll n, the first that does not go on, whose outcome is o; the steps are the way in, one report for each one due at the polls up to n, in order, with its question, and nothing else, and a last step that settles exactly o's answer and background flag, fails for o's reason, or heeds the cancel; each step does to the task what it says and the rest of the store stays, with anything everybody else does in between; a task unfinished when the last step comes is left done with that answer, or failed for that reason; and it ends finished or gone |
| `RunTurns.Prepare` | agent-api/turn.go:34-83 | the message is sent exactly when no cancel was seen, the session woke, no dialog was in the way and the session was found; every other way ends with the failure or the cancel of the first thing in the way |
| `RunTurns.WatchSteps` | agent-api/turn.go:248-443 | the reports of the polls become steps, each due one and no other, in order, and then the outcome's own step |
| `RunTurns.Play` | agent-api/turn.go:32-86 | the store after each step is what that step says of what everybody else left |
| `Turns.TurnDoes` | agent-api/turn.go:248-443 | what each step of a turn does to its task: running once sent, the question asked, the answer settled with its background flag, the failure's reason, or nothing, and never another task |
| `Turns.NextInv` | agent-api/tasks.go:82-145 | every step of turns, cancels, answers, posts and goroutines keeps the system's invariant |
| `Turns.TurnInv` | agent-api/turn.go:32-86 | each step runTurn can take keeps it |
| `Turns.MarksInv` | agent-api/tasks.go:276-280 | a cancel or an answer landing at any moment keeps it: neither makes a task live that was not |
| `Turns.PostInv` | agent-api/task.go:208-220 | posting a task, prune included, keeps it |
| `Turns.LockInv` | agent-api/runner.go:97-118 | a goroutine taking its next task keeps it |
| `Turns.TurnEndInv` | agent-api/runner.go:118 | a turn returning keeps it |
| `Turns.NextStep` | agent-api/task.go:293-310 | no event changes a finished task, drops an unfinished one or brings a dropped one back |
| `TurnRead.TurnLines` | agent-api/turnread.go:15-39 | everything after a known mark, nothing past the end; with an unknown mark the records stamped at or after the send |
| `TurnRead.Since` | agent-api/turnread.go:26-38 | exactly the lines stamped at or after the send are kept |
| `TurnRead.TurnAnswer` | agent-api/turnread.go:41-65 | settled if and only if some answering record has no later answer and no conversational user text after it; the answer is then its text |
| `TurnRead.TurnEnded` | agent-api/turnread.go:67-96 | true if and only if some turn-end record has nothing said after it |
| `TurnRead.LastAnswerAt` | agent-api/turnread.go:308-328 | gives t if and only if the newest message is a spoken answer without a tool call, written at t |
| `TurnRead.BackgroundOutstanding` | agent-api/turnread.go:146-253 | an id is listed if and only if a record starts it and neither that nor a later one ends it, monitors of a subagent's own transcript aside; ScheduleWakeup if and only if the newest one is armed and nothing has been said since it fired |
| `TurnRead.CloseNoticed` | agent-api/turnread.go:340-361 | retires exactly the tasks some notice ends: expired, or final and not interim unless the subagent is idle |
| `TurnRead.IsIdle` | agent-api/turnread.go:286-306 | idle if and only if the depth allows, the transcript reads, its newest message is an answer from no later than the notice, and nothing of its own is outstanding |
| `TurnRead.FollowTasks` | agent-api/turnread.go:180-237 | one record starts and ends exactly the ids it names, a stop beating a start in the same record |
| `TurnRead.FollowWakeup` | agent-api/turnread.go:167-209 | one record moves the wakeup slot as armed, fired, answered, stopped |
| `TurnRead.WakeupMeans` | agent-api/turnread.go:333-338 | the slot is set at the end exactly when a wakeup is due |
| `TurnRead.Conservative` | agent-api/turnread.go:269-306 | fewer readable transcripts, or less depth left, never stop anything being outstanding, cyclic references between agents included |
| `TurnRead.IdleMonotone` | agent-api/turnread.go:286-306 | an agent seen idle with less to see is idle with more |
| `TurnRead.EndsMonotone` | agent-api/turnread.go:340-361 | what ends a task with less to see ends it with more |
| `TurnRead.BlindKeepsInterim` | agent-api/turnread.go:255-258 | a view that sees nothing keeps the subagent of an interim notice outstanding |
| `TurnWatch.WatchTurn` | agent-api/turn.go:248-443 | ends at the first poll that does not go on, by the deadline at the latest, with that poll's outcome, and reports at every poll exactly what it has to; without a mod it settles an answer only over a transcript that shows the turn's end or was cut short, or one that shows nothing of it under a stamped done |
| `TurnWatch.OutcomeIsDetermined` | agent-api/turn.go:271-442 | a poll goes on or gives one outcome, never both and never two: what to wait for, what to fail for and what to settle leave no choice |
| `TurnWatch.NotToldAgain` | agent-api/turn.go:302-346 | a dialog that was reported is not reported again in its episode until another one has been |
| `TurnWatch.MarkNext` | agent-api/turn.go:263-269 | a since variable, set when zero and zeroed at a reset, is the time of the earliest poll since the last reset |
| `TurnWatch.Poll` | agent-api/turn.go:271-442 | one pass of the loop: it goes on, or gives its outcome; it reports exactly what is due; and it remembers exactly what the polls so far say |
| `TurnWatch.OnAwaiting` | agent-api/turn.go:302-346 | a readable dialog is reported at the first poll of its episode, the next one once an answer has the task running, and an unreadable one after the grace, counted from its first poll; nothing else is |
| `TurnWatch.OnDone` | agent-api/turn.go:348-422 | a done state is believed only once the turn has begun; not begun by the grace, it fails; it goes past the poll only where it may |
| `TurnWatch.OnUnsettled` | agent-api/turn.go:380-397 | without an answer it fails exactly when the grace, counted from the first such poll since the session was busy, is over |
| `TurnWatch.OnSettled` | agent-api/turn.go:398-422 | it settles exactly when nothing is outstanding, or the hold, counted from the first poll that found work out, is over; until then the task is kept running |
| `TurnWatch.ReadTurn` | agent-api/turn.go:355-368 | the answer is read from this turn's own records |
| `TurnWatch.SessionState` | agent-api/turn.go:290-295 | a mod's stamp is the state; without one, a turn with no end in the transcript reads running, or awaiting under a menu, an ended one done, and nothing of the turn unset, or done if so stamped |
| `TurnWatch.StateFromTranscript` | agent-api/turn.go:496-530 | done if and only if the transcript is shorter than before the send or one of this turn's records is a turn-end record with nothing said in the turn after it; running if and only if it shows the turn and no such end; unset otherwise |
| `TurnWatch.TranscriptShows` | agent-api/turn.go:496-530 | the transcript's word, from the mark, the stamps and the records alone |
| `TurnWatch.SettledOverEnd` | agent-api/turn.go:508-511 | no answer is settled over a turn the transcript shows begun and not ended: its opening words are never its answer |
| `TurnWatch.SettledAnswerIsNew` | agent-api/turn.go:348-368 | on an append-only transcript a settled answer is the text of a record past the mark, stamped at or after the send when the mark is unknown, with no conversational user text after it: never an earlier turn's |
| `TurnWatch.AwaitReady` | agent-api/turn.go:128-246 | fails the task exactly over a dialog in the way of a pane that never settled; ends the turn exactly then or on a cancel; otherwise the mark is the second look's: the length read, zero over a missing transcript nothing ever stamped, unknown in every other case |
| `Ulids.IncrementEntropy` | agent-api/id.go:80-88 | plus one on the 80-bit big-endian number |
| `Ulids.EncodeUlid` | agent-api/id.go:90-114 | 26 Crockford characters that read, in base 32, as the 128-bit number of the bytes |
| `Ulids.EncodingIsOrdered` | agent-api/id.go:90-114 | two ids are equal, or in text order, exactly as their bytes are |
| `Ulids.EncodingIsUndone` | agent-api/id.go:90-114 | the bytes can be had back from the text, and the first character is at most 7 |
| `Ulids.TextOrder` | agent-api/id.go:21-23 | texts of one length sort as the numbers they spell |
| `Ulids.IdGen.New` | agent-api/id.go:42-78 | a new millisecond takes the drawn bytes with the top bit cleared, the same one the entropy plus one; the id spells the clock's 48 bits and then the 80 of entropy |
| `Ulids.SortsAfter` | agent-api/id.go:42-67 | the next id sorts after this one if and only if the clock moved on, or stood still with the entropy not full |
| `Ulids.ClockBack` | agent-api/id.go:50-65 | a clock one millisecond back gives an id that sorts before the last |
| `Ulids.IdsSort` | agent-api/id.go:42-78 | under a clock that does not go back, at most 2^79 ids to a millisecond, any two ids sort in the order they were minted |
| `Ulids.Headroom` | agent-api/id.go:61-63 | the cleared top bit leaves room for 2^79 increments |
| `McpPins.RewriteBody` | agent-api/mcppins.go:303-362 | a tools/call message goes on with nothing but its arguments replaced, by ones that carry the pin and the cap in the protocol's own fields and values; any other message goes on as it is; the same message if and only if no field is named |
| `McpPins.RewriteIsProjection` | agent-api/mcppins.go:303-362 | rewriting a rewritten message changes nothing |
| `McpPins.PinsHold` | agent-api/mcppins.go:8-30 | for the launch tool, the task tool, a configure and every created thread: a forced model is there on Claude with the provider's older name gone, a forced effort is the one effort option, everything else of the field is as sent; runtimeMode is full-access exactly under bypassPermissions, auto-accept-edits under acceptEdits and approval-required under default or plan, interactionMode plan exactly under plan and default under the other three, and both as sent under anything else; a timeout over the cap, or none on a wait tool, becomes the cap, any other is as sent; with no pin every other argument is |
| `McpPins.UnnamedStays` | agent-api/mcppins.go:303-362 | every argument not named as changed is as it was sent, timeoutMs included; pinned threads are as many as before, and every field of a thread not named with it, and every entry that is no object, stays |
| `McpPins.BodyArguments` | agent-api/mcppins.go:346-361 | nothing of the message but the arguments changes |
| `McpPins.ThreadUnnamed` | agent-api/mcppins.go:169-184 | a field of a thread that is not named for it stays |
| `McpPins.PinUnnamed` | agent-api/mcppins.go:332-344 | the pin leaves every argument it does not name |
| `McpPins.ArgsNamed` | agent-api/mcppins.go:92-135 | a field is named if and only if its value changed |
| `McpPins.PinNames` | agent-api/mcppins.go:332-344 | nothing is named exactly when nothing changed, for every tool |
| `McpPins.SlotPinned` | agent-api/mcppins.go:137-167 | what is built carries the model on Claude and exactly the effort, keeps every other key, and is a fixed point; the one pin not taken is an effort for a selection with no model |
| `McpPins.OptionsKept` | agent-api/mcppins.go:223-241 | options stay as sent but for the effort, in order; another provider's are dropped with a pinned model |
| `McpPins.EffortSet` | agent-api/mcppins.go:245-275 | exactly one effort option, the pinned one, all others kept in order; setting it again changes nothing |
| `McpPins.MergedPlace` | agent-api/mcppins.go:245-275 | the pinned effort stands where the first one stood, or last, with every option before it as it was |
| `McpPins.SetEffort` | agent-api/mcppins.go:245-275 | the loop places the effort where the first one was, or at the end |
| `McpPins.Built` | agent-api/mcppins.go:203-243 | the loop-built selection or target is the specified one |
| `McpPins.Args.PinArgs` | agent-api/mcppins.go:92-135 | a launch's or a task's arguments carry the pin in their protocol fields, naming exactly the fields that differ |
| `McpPins.Args.PinModes` | agent-api/mcppins.go:103-120 | runtimeMode and interactionMode are those the permission stands for, or as sent when it forces none; every other field stays; the two are named if they differ |
| `McpPins.Args.PinConfigure` | agent-api/mcppins.go:186-201 | only a selection that was sent is rewritten |
| `McpPins.Args.PinCreateThreads` | agent-api/mcppins.go:169-184 | every thread pinned in place and every change named by thread |
| `McpPins.Args.CapWait` | agent-api/mcppins.go:277-301 | a wait tool without a timeout gets the cap, a number over it is lowered, anything else is left |
| `McpPins.PinnedThreads` | agent-api/mcppins.go:173-182 | as many threads, each pinned on its own |
| `ShellWords.ClaudeCommandLine` | agent-api/conversations.go:371-408 | the line's words, read by the shell, are the program, each setting that is given directly after its own option, and nothing else: the rules by their file or the prompt inline, the mode asked for or the default one |
| `ShellWords.ClaudeArgsRight` | agent-api/conversations.go:371-401 | each given setting is directly after its own option, and the list is no longer than that takes |
| `ShellWords.SplitsBack` | agent-api/conversations.go:404-419 | splitting a line of quoted arguments gives exactly those arguments, for all NUL-free ones, empty ones and runs of quotes included |
| `ShellWords.QuoteRead` | agent-api/conversations.go:410-419 | one quoted argument reads back as itself, whatever follows |
| `ShellWords.EscapedRead` | agent-api/conversations.go:418 | inside the quotes every character, quotes included, reads back as itself |
| `ShellWords.PlainRead` | agent-api/conversations.go:415-430 | an unquoted argument has nothing the shell would treat specially |
| `Multipart.ReadMessage` | agent-api/attach.go:220-292 | all or nothing: refused leaves the directory exactly as it was; accepted means every part known, whole and within its limit, the text the one text part's, and one new file per file part with its bytes, listed by name and size, no other file touched; sound parts are accepted unless the storing side fails |
| `Multipart.PartsAdded` | agent-api/attach.go:282-286 | an accepted message leaves one new file per part, under a name that was free, with the part's bytes |
| `Multipart.ReadParts` | agent-api/attach.go:252-291 | up to the end, or to the first part that gives a reason to refuse |
| `Multipart.ReadPart` | agent-api/attach.go:261-289 | a second text, a text over its limit, an unknown field and a part that does not fit are refused |
| `Multipart.WrongRefuses` | agent-api/attach.go:261-289 | a part with a reason to refuse means the message is not sound or not storable |
| `Multipart.TakeBack` | agent-api/attach.go:235-246 | removing what was stored leaves the directory as it was, since every name was new |
| `Multipart.StorePart` | agent-api/attach.go:294-331 | stored exactly when not empty, whole, within the limit its first 512 bytes decide, and the disk takes it under a free safe name, the pasted or the attached one by the same bytes; each refusal for its own reason |
| `Multipart.CappedReader.Read` | agent-api/attach.go:161-188 | passes the part's next bytes in order, at most limit + 1 of them; fails if and only if past the limit; ends only after every byte |
| `Multipart.CappedReader.Next` | agent-api/attach.go:318 | the sniffed head first, then the rest, no byte lost or repeated |
| `Multipart.Dir.Save` | clipstore/clipstore.go:446-479 | the file whole or nothing, never over an existing one |
| `Multipart.Dir.Copy` | clipstore/clipstore.go:469 | ok only with every byte written and the source ended cleanly within its limit |
| `Multipart.Dir.Remove` | clipstore/clipstore.go:481-488 | removes exactly one safe name |
| `Multipart.ReadFull` | agent-api/attach.go:302-307 | as many first bytes as were asked for or exist, however short the reads |
| `Multipart.Source.Read` | agent-api/attach.go:178 | any pattern of short reads: at least one byte or the end |
| `StoreLinks.Gone` | clipstore/clipstore.go:403-411 | the fixpoint is exactly the names that lead to the session through links, in any iteration order and with link cycles |
| `StoreLinks.LeadsIsReaches` | clipstore/clipstore.go:393-411 | leading to the session by the links read is having a chain of entries to it |
| `StoreLinks.Pass` | clipstore/clipstore.go:404-410 | a pass that takes nothing has closed the set |
| `StoreLinks.UserDir.RemoveSession` | clipstore/clipstore.go:374-431 | unsafe names are refused untouched; otherwise of every chain of readable links that ends at the session each name on it goes, unless the disk will not remove it, and a name on no such chain stays; what cannot be removed does not stop the rest and is the error; a missing directory is none |
| `StoreLinks.NothingLeadsThere` | clipstore/clipstore.go:374-380 | afterwards no chain of links from a name that is left ends at the session, and no entry left is a link to it |
| `CallerTags.AnswerWasTrue` | session-events/callertag.go:52-81 | under any interleaving, the answer was true of the session at an instant from one TTL before the call began until it returned |
| `CallerTags.RunOk` | session-events/callertag.go:55-81 | every memo entry, an older read over a newer one included, was true at an instant since its own stamp |
| `CallerTags.SweptIsFresh` | session-events/callertag.go:72-78 | a sweep drops only what could not answer any later call |
| `CallerTags.CallerMemo.Lookup` | session-events/callertag.go:57-63 | answers exactly from an entry no older than 60 seconds, with its tag |
| `CallerTags.CallerMemo.Remember` | session-events/callertag.go:70-79 | stores the tag with the time before the read; a memo of 512 tags or more loses exactly those past the TTL, and otherwise none |
| `CallerTags.CallerMemo.Sweep` | session-events/callertag.go:72-78 | drops exactly the expired entries |
| `UserMaps.ParseUsers` | release/users.go:43-87 | accepted if and only if no line is malformed and no identity or account is declared twice; then exactly the rows, by account |
| `UserMaps.CollectedIs` | release/users.go:54-84 | the early returns refuse exactly a malformed line or a repeated name |
| `UserMaps.RowIsProper` | release/users.go:55-72 | an accepted row's identity and account are trimmed, of the allowed characters, and not a comment |
| `UserMaps.RowMeans` | release/users.go:55-72 | a line declares a user if and only if it is an identity, one equals sign and an account, each usable, with space only around them; it is passed over if and only if it is blank or a comment; any other line is refused |
| `UserMaps.SortUsersSorts` | release/users.go:85 | sorting keeps every user and orders by account |
| `UserMaps.RenderUserMap` | release/users.go:91-108 | the text the readers below are proved over |
| `UserMaps.MapRoundTrip` | authuser/resolve.go:305-335 | the services' reader gets back from the rendered map exactly the declared pairs |
| `UserMaps.UserMap` | authuser/resolve.go:313-335 | the loop reads the specified map |
| `UserMaps.RenderedAccounts` | release/users.go:197-220 | the wrappers' reader gets exactly the accounts of the identities without a hash sign, in order |
| `UserMaps.AllVisible` | release/users.go:204-206 | so all the accounts if and only if no identity has a hash sign |
| `UserMaps.HashHidesAccount` | release/users.go:204-206 | a declared identity with a hash sign: in one reader's map, missing from the other's list |
| `UserMaps.OSUsersInMap` | release/users.go:200-220 | the loop reads the specified accounts |
| `UserMaps.DroppedOSUsers` | release/users.go:222-245 | sorted, without repeats, exactly the previous accounts not kept |
| `UserMaps.DroppedSinceRender` | release/users.go:222-245 | against a map rendered earlier, an account is reported exactly when it is not declared now and the identity it was declared under had no hash sign |
| `UserMaps.DroppedIsWhole` | release/users.go:222-245 | the report is the whole difference if and only if every account declared under an identity with a hash sign is still declared |
| `UserMaps.RevokedUnreported` | release/users.go:204-245 | it can miss one: the account of a#b is revoked and nothing is reported |

## Left out

- Texts the stores only keep and compare (ids, names, tasks, answers) are numbers compared for equality; so are the JSON keys and strings of `McpPins`.
- Entries of both stores are values in a map with numbered channels, not shared objects: an entry held on to outside its store is not captured.
- JSON encoding and decoding: a file holds the list of records that was written, a message is a tree, and a transcript line is what each of its three decoders makes of it. Fields cut into regular-expression matches (`<task-notification>` blocks) arrive parsed.
- `atomicWrite` is one step that replaces the file or leaves it; its temporary file, sync and rename are not modelled.
- Ids are assumed new where a store adds one (`idGen` mints them; `Ulids` proves the order of one generator's ids, not uniqueness against ids read from a file).
- The blocking itself in both `Wait`s and its timers: a pass under the lock is modelled, and what a blocked waiter's channel means.
- TaskStores.TaskStore.CancelOpen: taken as one step; other regions between its cancels are covered per task by `Turns`.
- Turns.NextInv: a task pruned between its cancel's two halves may have its channel seen open or closed, whichever came first.
- RunTurns.RunTurn: what the session, the pane and the send answer are inputs; that each of those calls returns is assumed.
- DelegationStores.DelegationStore.constructor: a file that does not parse or cannot be read, and the directory that cannot be made. The store such a file leaves refuses every change; the model's nearest to it is a store whose every write fails.
- Multipart.Dir.Remove: an unlink that the disk refuses; the code goes on past one, and the file stays.
- TurnWatch.SettledAnswerIsNew: the mark is read before the send, so a line that lands between the two counts as the turn's, as in the code.
- TurnRead.IsIdle: a subagent's transcript is the same each time one fold reads it.
- TurnWatch.WatchTurn: requires that some poll reads a clock past the deadline, which is what a ticker and a clock that runs give.
- Multipart.ReadMessage: removing a file this message wrote succeeds, and nothing else writes to the directory meanwhile; a reader that returns no byte and no error for ever is not modelled; the request's own size limit is one of the ways a part's bytes break off; sniffing is any function of the first 512 bytes.
- Multipart.Dir.Save: names arrive with their random tokens; a name met twice is refused, as by the exclusive create.
- StoreLinks.UserDir.RemoveSession: nothing changes the directory between listing it and removing from it.
- CallerTags.AnswerWasTrue: the clock does not go back; an origin that cannot be read reads as no Caller, as in the code.
- ShellWords.SplitsBack: words only. A first word with an equals sign is an assignment in the shell's grammar (POSIX.1-2017 XCU section 2.10.2); the path of claude has none.
- ShellWords.ClaudeCommandLine: the settings and prompt texts are parameters.
- UserMaps.ParseUsers: the line number and wording of an error; texts are sequences of characters, invalid UTF-8 aside.
- Ulids.IdGen.New: a random source that fails, which panics; the millisecond is not negative.
- McpPins.RewriteBody: duplicate keys in a message, whitespace and number spelling outside the arguments.
- `resolveMCPPin`: `McpPins` starts from a pin whose "inherit" is already replaced by the box's defaults, or forces nothing.
- HTTP handlers, credentials, tracing, quotas on lengths of delegation texts, dialog text, suspend and resume, tmux and sudo: plumbing around the parts modelled.
- `RenderSudoers`, `IsTarget`, `Targets`, `UserDir`, `HoldsSession`, `newSessionID`, `composePrompt`: straight-line code that would only add easy members.
