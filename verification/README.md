# Verified model of the kestrel agent core

This project models the control core of the kestrel agent in Dafny 4.11 and proves what it promises over all inputs
and all runs. `dafny verify dfyconfig.toml` verifies the whole project. Every proof is kept small enough for
`--resource-limit 2000000`, so that the outcome does not hang on the speed of the machine.

| file | component | what it holds |
|---|---|---|
| `Core.dfy`, `Texts.dfy` | shared | messages, entries, usage, bytes and tokens of a text; joining, trimming, splitting |
| `ToolCallAssembly.dfy` | `runner.rs` | reassembly of tool calls from interleaved stream deltas |
| `StreamHealth.dfy`, `StreamProgress.dfy` | `stream_health.rs`, `stream_progress.rs` | the two monitors of a stream, as classes with a ghost history |
| `Streaming.dfy` | `runner.rs` | one completion: poll loop, stream retries, the assembled answer |
| `ExecuteTools.dfy`, `MutatingGuard.dfy` | `runner.rs` | collecting the results of spawned tools; the lock of mutating tools as a step system |
| `Runner.dfy`, `RetryLoop.dfy` | `runner.rs`, `loop_mod.rs` | the LLM-tool loop and the retries around it |
| `SpawnParallel.dfy`, `TaskTable.dfy`, `WaitNotify.dfy` | `subagent.rs` | the bounded-concurrency scheduler; the task table and its mailboxes; the notify protocol of `wait_for` |
| `ContextBudget.dfy`, `PruneProperties.dfy` | `context_budget.rs` | `prune_messages` and what it keeps, drops, spends and reorders |
| `Sessions.dfy`, `Compaction.dfy` | `kestrel-session/src/types.rs`, `compaction.rs` | the stored session; compaction over whole runs |
| `NotesExtract.dfy`, `NotesCompact.dfy` | `notes.rs` | the note-block expression, its scanner and its printer; compaction of notes |
| `SessionMaps.dfy` | `loop_mod.rs` | main loop, timeout, `/stop` and interrupt listener on the two session maps |
| `MemoryRecall.dfy`, `Truncation.dfy` | `loop_mod.rs` | escaping and packing of recalled memories; cutting a text at a byte limit |

Code that updates state is imperative here too: classes whose methods state the whole new state, loops with
invariants. Each such method is tied to a specification function, and the properties are proved about that function.
Concurrency is modelled as steps: one step for each section under a lock and for each operation on a concurrent map.
Providers, tools, other tasks and clocks are oracles: an arbitrary value, chosen anew at each call; clocks never run
backwards and timers never fire early, but may fire late. From when on a tool is ready, a stream item can be had, a run
is cancelled and a future may be dropped is part of these values, so contracts can say who was waited for. The
provider, the place where tools are spawned and the set of joined tasks keep ghost logs of what passed through them,
and the contracts of the loops above them speak about these logs.

## Where the code and its own documentation differ

The model follows the code. For each difference the named members prove when the documented promise holds, or give
inputs on which it fails.

- `subagent.rs:164` promises results "in submission order". They come in completion order, which is the
  submission order for every schedule exactly when at most one task runs at a time or there is at most one task
  (`SpawnParallel.SubmissionOrderExactly`).
- `subagent.rs:648` says that one failure does not affect others. A panic ends the collection, and every task that has
  not finished by then, started or not, has no result. So no panic takes another task's result with it exactly when there
  is at most one task, or the limit is 0 and none ever runs (`SpawnParallel.PanicIsIsolatedExactly`); otherwise the first
  panic can lose another one (`SpawnParallel.FirstPanicLosesAnother`).
- `subagent.rs:573-577` promises a final status or a timeout. With two waits at once the second one sleeps on
  (`WaitNotify.SecondWaiterSleepsOn`, `SoundExactly`), and a wait for a task that `spawn_single` has yet to mark as
  running can return `Running` without a timeout (`WaitNotify.ReturnsWhileRunning`). Waits that never overlap are sound
  exactly for all other tasks (`WaitNotify.SequentialWaitsExactly`).
- `stream_health.rs:162` calls `content_chunks` a total. It counts the last 30 s only
  (`StreamHealth.StreamHealthMonitor.ContentChunks`, `StreamHealth.WindowUndercounts`).
- `context_budget.rs:332-339` speaks of chronological order. Older messages that are filled in stand before older
  tool-call messages, so a message behind a tool-call message can end up in front of it (`PruneProperties.OutOfOrder`).
  The order is kept exactly when no older tool-call message is kept, or each plain message behind the first of them is
  too long by itself for what the fixed part leaves of the budget (`PruneProperties.ChronologicalExactly`). "Dropping
  the oldest first" (`context_budget.rs:231-232`) fails when a newer message is too long and an older one is not
  (`PruneProperties.OldestFirstExactly`, `OlderKeptNewerDropped`). The removed list misses a dropped message that has a
  twin among the kept ones (`PruneProperties.RemovedExactly`, `TwinIsNotReported`).
- `notes.rs:532-534` says that the most recent `keep_recent` notes are always preserved. The number of notes to drain is
  computed before the stale notes are deleted; so from the second compaction on one recent note fewer survives, and
  with `keep_recent` 0 the drain is out of range and panics (`NotesCompact.RecentPreservedExactly`,
  `LaterCompactionsLoseOne`; three notes on which they do: `RecentNoteIsLost`, `DrainIsOutOfRange`).
- `loop_mod.rs:352-376` interrupts and replans when a session is busy, and `loop_mod.rs:252-258` cancels the active run
  on `/stop`. The main loop awaits each message before it takes the next one, so neither ever finds an active
  session there; only the interrupt listener does (`SessionMaps.BusyIsNeverSeen`). With two concurrent callers
  for one session a queued message can be left behind (`SessionMaps.CleanExactly`).
- `runner.rs:425-427` retries a broken stream. The text already shown is not taken back: what the user saw is the
  answer, as far as text chunks go, exactly when no chunk that an attempt given up has taken carries text
  (`Streaming.LiveTextIsTheAnswer`); under any timeouts there is a completion that shows some other text first
  (`Streaming.RetryShowsTextTwice`).
- `loop_mod.rs:975-977` injects recalled memories into the user message, not the system prompt. `runner.rs:219-225` puts
  them into the system message (`Runner.Run`).
- `loop_mod.rs:980-981` keeps recalled memories within a budget. The newlines between the lines are not counted. The
  lines of a block keep the budget, whatever is stored, exactly when it is less than 18 bytes, which is too small for
  two lines (`MemoryRecall.BudgetIsKeptExactly`); any two memories that fill it exceed it (`TwoLinesOverrun`). The
  fallback of `loop_mod.rs:984` runs only when not even one line fits (`MemoryRecall.NothingFitsExactly`), and then
  adds nothing if it finds only entries of the first search (`MemoryRecall.FallbackAddsNothing`).

## Model

| member | source | states |
|---|---|---|
| ToolCallAssembly.AccumulateDeltas | crates/kestrel-agent/src/runner.rs:650-674 | after every chunk the map holds exactly the indices seen, each with its last id, last name and its arguments in arrival order |
| ToolCallAssembly.BuildToolCalls | crates/kestrel-agent/src/runner.rs:705-723 | the list is the same whatever order the hash map yields: one call per index, ascending |
| ToolCallAssembly.OneCallPerIndex | crates/kestrel-agent/src/runner.rs:705-723 | the list is strictly ascending by index, and no index is lost or doubled |
| ToolCallAssembly.InterleavingIsIrrelevant | crates/kestrel-agent/src/runner.rs:650-674 | delta sequences that agree index by index give the same calls, however they interleave |
| ToolCallAssembly.SplittingAFragmentIsIrrelevant | crates/kestrel-agent/src/runner.rs:650-674 | splitting one argument fragment in two, with deltas of other indices in between, changes nothing |
| ToolCallAssembly.EnumerationIsUnique | crates/kestrel-agent/src/runner.rs:722-723 | sorting by distinct indices has one possible result |
| StreamHealth.StreamHealthMonitor.RecordChunk | crates/kestrel-agent/src/stream_health.rs:82-101 | all fields stay what the whole history of chunks says, the pruned window included; content makes the stream healthy |
| StreamHealth.StreamHealthMonitor.CheckHealth | crates/kestrel-agent/src/stream_health.rs:108-127 | dead after the absolute limit without any chunk, else stale after the (in thinking tripled) threshold without content, else unchanged |
| StreamHealth.StreamHealthMonitor.TokenRate | crates/kestrel-agent/src/stream_health.rs:130-150 | the rate over the pruned window is the rate over everything ever received |
| StreamHealth.StreamHealthMonitor.ContentChunks | crates/kestrel-agent/src/stream_health.rs:162-165 | the "total" is right exactly while no content chunk is more than 30 s older than the newest |
| StreamHealth.WindowUndercounts | crates/kestrel-agent/src/stream_health.rs:162-165 | two content chunks 31 s apart count as one |
| StreamHealth.PrunedRateIsNaiveRate | crates/kestrel-agent/src/stream_health.rs:177-180 | pruning at any earlier moment never shows in a later rate |
| StreamHealth.HealthyExactlyWhenNoBadCheck | crates/kestrel-agent/src/stream_health.rs:108-127 | healthy exactly when no check since the last content chunk saw a stale or dead stream |
| StreamHealth.VerdictAgrees | crates/kestrel-agent/src/stream_health.rs:82-127 | the step-by-step state is what the latest bad check of the history saw |
| StreamHealth.AgreementIsUnique | crates/kestrel-agent/src/stream_health.rs:82-127 | the history leaves one possible state |
| StreamProgress.StreamProgressTracker.Transition | crates/kestrel-agent/src/stream_progress.rs:82-91 | a new phase re-arms the first-byte notices only; the start of thinking is kept |
| StreamProgress.StreamProgressTracker.Poll | crates/kestrel-agent/src/stream_progress.rs:107-181 | exactly the notice that is due is sent, and the bounds below stay true |
| StreamProgress.StreamProgressTracker.OnReconnect | crates/kestrel-agent/src/stream_progress.rs:94-104 | the reconnect notice is sent once |
| StreamProgress.StreamProgressTracker.NoticesAreBounded | crates/kestrel-agent/src/stream_progress.rs:82-181 | whatever the poll times: at most one warning and one slow notice (only after a warning) per wait for a first byte, one more thinking notice than full 30 s intervals beyond 15 s, one timeout warning, one reconnect notice |
| Streaming.TakeChunk | crates/kestrel-agent/src/runner.rs:640-680 | the buffers always hold what the chunks read so far amount to |
| Streaming.PollOnce | crates/kestrel-agent/src/runner.rs:476-570 | a healthy timeout brings the stream nearer to stale; stale is reported only after the idle limit without content, dead only after the absolute limit without a chunk, both counted from the last one; a timeout means that nothing could be had |
| Streaming.PollStream | crates/kestrel-agent/src/runner.rs:476-692 | terminates on every finite stream; takes no item before it can be had and leaves none; ends as the items call for, or is given up while nothing can be had, after a silence as long as the limit (at the beginning also the first-byte limit); reads nothing past the final chunk; keeps the notice bounds for one attempt |
| Streaming.LivelyStreamIsReadThrough | crates/kestrel-agent/src/runner.rs:476-692 | a stream that always goes on before its limits is never given up: it is read up to its final chunk, its error or its end |
| Streaming.CompleteStreaming | crates/kestrel-agent/src/runner.rs:428-747 | one to three provider calls, all with the same request and each in the log; only idle timeouts and stream errors are retried; the answer is assembled from the last attempt alone |
| Streaming.LiveTextIsTheAnswer | crates/kestrel-agent/src/runner.rs:639-643 | the text chunks shown live are the answer exactly when no chunk taken by an abandoned attempt carries text |
| Streaming.LivelyStreamIsTheAnswer | crates/kestrel-agent/src/runner.rs:428-747 | if the first stream is lively and free of errors, the completion makes one call and returns what there is to read in it |
| Streaming.RetryShowsTextTwice | crates/kestrel-agent/src/runner.rs:425-427 | under all timeouts and for any two texts: a properly retried completion whose user has read both, one behind the other, while the answer is the second |
| ExecuteTools.AwaitTool | crates/kestrel-agent/src/runner.rs:823-941 | a handle that is ready ends with the result of its task; it times out only while not ready, not before its limit and after exactly the time reported; it is cancelled only when the run is, before its turn or at a heartbeat it was not ready for; the future is dropped only when due and while the task is not ready; fewer than tool_timeout / 10 s heartbeats |
| ExecuteTools.AbortAll | crates/kestrel-agent/src/runner.rs:19-33 | dropping the guard aborts exactly the tasks still running |
| ExecuteTools.Execute | crates/kestrel-agent/src/runner.rs:755-948 | spawns each call in order; one result per call in call order, each awaited as above from the end of the previous one, unless the future is dropped when that is due and the next task is not ready; one event per result that is not cancelled; no task left running either way |
| ExecuteTools.ReadyToolIsReported | crates/kestrel-agent/src/runner.rs:823-941 | a task ready by its deadline is reported on, even if the run is cancelled once its turn has come and the task is ready within ten seconds |
| ExecuteTools.ReadyToolsAreReported | crates/kestrel-agent/src/runner.rs:755-948 | if all tasks are ready within one limit, and the run is neither cancelled nor may be dropped before, the results are exactly those of the tasks |
| ExecuteTools.CancelledFromThenOn | crates/kestrel-agent/src/runner.rs:826-841 | behind the first cancelled result all are cancelled |
| MutatingGuard.MutatingToolsExclude | crates/kestrel-agent/src/runner.rs:785-796 | in no state of any run, aborts included, are two mutating tools past the lock |
| MutatingGuard.NoDeadlock | crates/kestrel-agent/src/runner.rs:768-803 | while a task is unfinished some step is possible |
| MutatingGuard.RunsAreShort | crates/kestrel-agent/src/runner.rs:768-803 | n tasks are done after at most 4n steps |
| Runner.AppendBlock | crates/kestrel-agent/src/runner.rs:366-411 | one assistant message, then one tool message per call with the call's id and name and the text of its result, in order |
| Runner.BlockIsWellFormed | crates/kestrel-agent/src/runner.rs:366-411 | the block of executed calls is well formed: n ≥ 1 calls, then exactly n tool messages whose ids and names match in order |
| Runner.AddUsage | crates/kestrel-agent/src/runner.rs:301-322 | the running total is the componentwise sum over all responses that reported usage |
| Runner.Run | crates/kestrel-agent/src/runner.rs:189-420 | the provider has received exactly these requests: the k-th is system message, history and the blocks of the first k turns; each turn answers the reply to its request with the results of the tasks spawned for it, awaited within the run; iterations, tool calls, usage, text, reasoning and the limit flag account for these; an error is the reply of the last request; no result means that a drop was due and a tool not ready; a run cancelled before it starts sends nothing |
| Runner.ReadyToolIsAnswered | crates/kestrel-agent/src/runner.rs:366-411 | a tool ready before its deadline in a run that is not cancelled has its own output in the message that answers its call |
| Runner.CancelledToolMeansCancelledRun | crates/kestrel-agent/src/runner.rs:826-841 | a tool is reported as cancelled only in a run that is |
| Runner.EveryCallIsWellFormed | crates/kestrel-agent/src/runner.rs:225-299 | every single provider call of a run, stream retries included, carries the opening and a whole number of well-formed blocks |
| Runner.CallsPerRequest | crates/kestrel-agent/src/runner.rs:246-299 | one to three provider calls per request when streaming, otherwise one |
| Runner.RequestsGrowByOneBlock | crates/kestrel-agent/src/runner.rs:244-411 | each request extends the previous one by exactly one well-formed block |
| Runner.CallCountIsToolMessages | crates/kestrel-agent/src/runner.rs:378-411 | the reported number of tool calls is the number of tool messages appended |
| RetryLoop.RunWithRetries | crates/kestrel-agent/src/loop_mod.rs:509-668 | one to four runs, which made exactly the provider calls of the log; each but the last failed with a transient error and was repeated after its backoff within the deadline; the last one was not to be repeated, and its result is returned; at most 4·3·max_iterations provider calls and 14 s of backoff |
| RetryLoop.OneMessageIsBounded | crates/kestrel-agent/src/loop_mod.rs:509-668 | these two bounds hold of every such chain of runs |
| RetryLoop.StreamFailuresAcrossBothLoops | crates/kestrel-agent/src/loop_mod.rs:620-640 | what the inner loop gives up after three calls is retried outside, a dead stream nowhere |
| SpawnParallel.CollectResults | crates/kestrel-agent/src/subagent.rs:690-750 | the results are those joined, in this order, of a schedule whose states the loop passes through; it ends by the total timeout exactly when the last result came after it, and no earlier one did; a panic ends it midway; otherwise nothing runs at the end and, with a limit of at least one, every task has its result |
| SpawnParallel.SpawnParallel | crates/kestrel-agent/src/subagent.rs:651-766 | the same for the whole call: results follow a feasible order of one schedule, one per task without panic and total timeout; succeeded + failed and the tokens add up |
| SpawnParallel.ScheduleKeepsInv | crates/kestrel-agent/src/subagent.rs:690-750 | every state of every schedule is within the limit and work-conserving |
| SpawnParallel.FeasibleOrdersHappen | crates/kestrel-agent/src/subagent.rs:690-750 | every completion order that respects the start order is the outcome of some schedule |
| SpawnParallel.SchedulesAreFeasible | crates/kestrel-agent/src/subagent.rs:690-750 | every schedule completes in such an order |
| SpawnParallel.SubmissionOrderExactly | crates/kestrel-agent/src/subagent.rs:163-165 | results come in submission order in all schedules exactly when the limit or the number of tasks is at most one |
| SpawnParallel.PanicIsIsolatedExactly | crates/kestrel-agent/src/subagent.rs:645-708 | no panic in any schedule loses another task exactly when there is at most one task or the limit is 0 |
| SpawnParallel.PanicLosesTheRest | crates/kestrel-agent/src/subagent.rs:700-708 | at a panic every unfinished task stays without result, n less the results so far |
| SpawnParallel.FirstPanicLosesAnother | crates/kestrel-agent/src/subagent.rs:645-708 | for two or more tasks: a schedule in which the first panic loses another task, which is running exactly when two may at once |
| TaskTable.SubAgentManager.Finish | crates/kestrel-agent/src/subagent.rs:376-409 | the status of the id is overwritten, and its notify is signalled exactly when the id is known |
| TaskTable.SubAgentManager.Cancel | crates/kestrel-agent/src/subagent.rs:919-943 | cancels and notifies exactly when the task is known and has not ended |
| TaskTable.SubAgentManager.TerminateAll | crates/kestrel-agent/src/subagent.rs:600-625 | cancels exactly the tasks that have not ended, notifies each once, leaves none active |
| TaskTable.SubAgentManager.CleanupCompleted | crates/kestrel-agent/src/subagent.rs:630-635 | removes exactly the ended tasks and keeps the order of the others |
| TaskTable.SubAgentManager.SendMessage | crates/kestrel-agent/src/subagent.rs:803-817 | a message is refused exactly when the id is unknown or its task has ended |
| TaskTable.SubAgentManager.BroadcastMessage | crates/kestrel-agent/src/subagent.rs:820-835 | every task that has not ended gets the message, and they are counted |
| TaskTable.SubAgentManager.DrainMessages | crates/kestrel-agent/src/subagent.rs:840-847 | hands over the whole mailbox and empties it |
| TaskTable.SubAgentManager.Spawn | crates/kestrel-agent/src/subagent.rs:358-373 | a new task stands at the end of the table, pending, with an empty mailbox |
| TaskTable.MailboxIsFifo | crates/kestrel-agent/src/subagent.rs:803-847 | in every run, registration, cleanup and status changes included, a drain returns each message accepted since the last drain once, first in, first out; ids stay unique |
| TaskTable.FinishPerId | crates/kestrel-agent/src/subagent.rs:376-409 | complete and fail change no other id, and an ended status is not protected |
| TaskTable.CancelPerId | crates/kestrel-agent/src/subagent.rs:919-943 | cancel changes no other id and no ended status |
| TaskTable.TerminateAllPerId | crates/kestrel-agent/src/subagent.rs:600-625 | terminate_all changes no ended status |
| TaskTable.CleanupPerId | crates/kestrel-agent/src/subagent.rs:630-635 | an id is forgotten exactly when its task has ended |
| TaskTable.CleanupKeepsTask | crates/kestrel-agent/src/subagent.rs:630-635 | a task that has not ended keeps its whole entry, mailbox included |
| WaitNotify.EveryStateKeepsInv | crates/kestrel-agent/src/subagent.rs:578-592 | any number of waits that do not overlap, on a registered or started task: blocked on an ended task only while a notifier is still to fire, and back without a timeout only with an end status |
| WaitNotify.WaiterCanMove | crates/kestrel-agent/src/subagent.rs:578-592 | on an ended task each wait has a step of its own, or a notifier that wakes it, until it has returned |
| WaitNotify.InternalStepsRunOut | crates/kestrel-agent/src/subagent.rs:578-592 | these moves are bounded, so every such wait does return |
| WaitNotify.TableFollowsProtocol | crates/kestrel-agent/src/subagent.rs:376-409 | the table operations change the status of an id exactly as the steps of the protocol do |
| WaitNotify.SoundExactly | crates/kestrel-agent/src/subagent.rs:574-592 | no lost wakeup and no early return in any run exactly when there is no wait, or one and the task is not one that spawn_single has yet to mark as running |
| WaitNotify.SequentialWaitsExactly | crates/kestrel-agent/src/subagent.rs:573-592 | among the runs whose waits never overlap the same holds for any number of waits |
| WaitNotify.SecondWaiterSleepsOn | crates/kestrel-agent/src/subagent.rs:376-409 | a run in which the second waiter is never woken |
| WaitNotify.ReturnsWhileRunning | crates/kestrel-agent/src/subagent.rs:517-524 | a run in which a stored permit makes a wait return Running at once |
| ContextBudget.Prune | crates/kestrel-agent/src/context_budget.rs:235-373 | within the budget nothing changes; otherwise the result is the selection the lemmas below speak about, with its tokens and its removed list |
| PruneProperties.KeptIsDistinct | crates/kestrel-agent/src/context_budget.rs:253-339 | no input message is used twice |
| PruneProperties.PruneConserves | crates/kestrel-agent/src/context_budget.rs:253-339 | kept and dropped messages together are exactly the input, and tokens never grow |
| PruneProperties.PruneMeetsBudget | crates/kestrel-agent/src/context_budget.rs:279-312 | only the system message and the recent block can exceed the budget |
| PruneProperties.ResultMeetsBudget | crates/kestrel-agent/src/context_budget.rs:235-373 | so for whatever a prune returns: tokens within the larger of the budget and system message plus recent block, and no more than before |
| PruneProperties.PruneIsMaximal | crates/kestrel-agent/src/context_budget.rs:304-312 | no dropped older message without tool calls would still fit |
| PruneProperties.AnchorsAllOrNone | crates/kestrel-agent/src/context_budget.rs:279-302 | an older tool-call message is kept exactly when all of them fit beside the system message and the recent block |
| PruneProperties.OldestFirstExactly | crates/kestrel-agent/src/context_budget.rs:231-232 | the fill is the newest messages from some point on exactly when these fit and no older one fits beside them |
| PruneProperties.OlderKeptNewerDropped | crates/kestrel-agent/src/context_budget.rs:231-232 | a history of which an older message is kept and a newer one dropped |
| PruneProperties.RecentBlockIsTheSuffix | crates/kestrel-agent/src/context_budget.rs:317-339 | with System only in front the result is system message, fill, anchors, recent block |
| PruneProperties.ChronologicalExactly | crates/kestrel-agent/src/context_budget.rs:332-339 | it is in the order of the history exactly when there is no older tool-call message, these do not all fit, or every plain message behind the first of them exceeds by itself what system message, tool-call messages and recent block leave of the budget |
| PruneProperties.FilledUpTo | crates/kestrel-agent/src/context_budget.rs:304-312 | the greedy fill takes nothing behind a position exactly when no message behind it fits by itself |
| PruneProperties.OutOfOrder | crates/kestrel-agent/src/context_budget.rs:332-339 | a history of four messages that comes out of order |
| PruneProperties.RemovedExactly | crates/kestrel-agent/src/context_budget.rs:341-354 | kept and removed are at most the input; removed is what was dropped exactly when no dropped message has a twin, by content and role, among the kept |
| PruneProperties.DistinctPairsAreReported | crates/kestrel-agent/src/context_budget.rs:341-354 | with distinct pairs of content and role the removed list is right |
| PruneProperties.TwinIsNotReported | crates/kestrel-agent/src/context_budget.rs:341-354 | a dropped message that is not reported |
| Sessions.Session.Truncate | crates/kestrel-session/src/types.rs:126-151 | keeps a leading system message and the last entries |
| Sessions.Session.SaveNote | crates/kestrel-session/src/types.rs:186-195 | updates the note of that title in place or appends it |
| Sessions.Saved | crates/kestrel-session/src/types.rs:186-195 | titles stay unique |
| Sessions.WithoutEach | crates/kestrel-session/src/types.rs:208-212 | deleting titles one by one removes exactly the notes that have one of them |
| Compaction.CompactSession | crates/kestrel-agent/src/compaction.rs:128-169 | rewrites the history exactly when the tokens exceed the threshold and there are more than keep_recent + 1 messages: the exit "not enough old messages" is never taken from here |
| Compaction.CompactSummarize | crates/kestrel-agent/src/compaction.rs:172-286 | summary in place of the old messages, and the notes found in them saved |
| Compaction.Perform | crates/kestrel-agent/src/compaction.rs:128-169 | adding, compacting, truncating and clearing a session do to its history what the step function of the runs below says |
| Compaction.PerformAll | crates/kestrel-agent/src/compaction.rs:128-169 | so a session on which operations are performed has the history the lemmas below speak about |
| Compaction.OneCompaction | crates/kestrel-agent/src/compaction.rs:239-264 | keeps a leading system message and the last keep_recent entries, leaves at most keep_recent + 2, never lengthens; same length exactly at keep_recent + 2 behind a system message |
| Compaction.TokensSavedExactly | crates/kestrel-agent/src/compaction.rs:239-266 | tokens do not grow exactly when the summary is no longer than what it replaces |
| Compaction.CompactingAgain | crates/kestrel-agent/src/compaction.rs:139-169 | a compacted history fires again exactly when it had a system message and is still too long; then only the summary changes |
| Compaction.EveryRunKeepsATail | crates/kestrel-agent/src/compaction.rs:128-267 | over every run of adding, compacting, truncating and clearing, the history is at most two System messages and an unchanged tail of everything ever added |
| Compaction.CutNeverDecreases | crates/kestrel-agent/src/compaction.rs:128-267 | what has left the history never comes back |
| Compaction.LeadingSystemIsPinned | crates/kestrel-agent/src/compaction.rs:182-245 | a leading System message, be it the first summary, stays in front until the history is cleared |
| NotesExtract.MatchIsSound | crates/kestrel-agent/src/notes.rs:484-487 | what the scanner finds is a word of the expression at that place, with no closing tag in its content |
| NotesExtract.MatchIsComplete | crates/kestrel-agent/src/notes.rs:484-487 | wherever a word of the expression stands the scanner finds one, same title and tags, shortest content |
| NotesExtract.NoBlockIsMissed | crates/kestrel-agent/src/notes.rs:487-487 | the start of every word of the expression lies in some match |
| NotesExtract.ExtractNotesFromResponse | crates/kestrel-agent/src/notes.rs:482-515 | saves the notes of all matches, left to right, passing over blank ones, and counts them |
| NotesExtract.ReadingInvertsPrinting | crates/kestrel-agent/src/notes.rs:470-487 | reading printed blocks, with any text free of the opening tag between them, gives exactly these blocks |
| NotesExtract.ExtractionInvertsPrinting | crates/kestrel-agent/src/notes.rs:470-506 | extracting printed notes gives exactly these notes in order |
| NotesExtract.PlainNoteReadsBack | crates/kestrel-agent/src/notes.rs:488-504 | title, trimmed content and trimmed tags survive printing and reading |
| NotesExtract.SaveAllNew | crates/kestrel-agent/src/notes.rs:503-506 | notes with new titles are appended as they are |
| Texts.SplitOfJoin | crates/kestrel-agent/src/notes.rs:489-499 | splitting undoes joining with a separator that occurs in no part |
| Texts.JoinOfSplit | crates/kestrel-agent/src/notes.rs:489-499 | and joining undoes splitting |
| Texts.LineStandsInText | crates/kestrel-agent/src/notes.rs:676-700 | each line of a text, trimmed or not, stands in the text |
| Texts.TrimParts | crates/kestrel-agent/src/notes.rs:495-501 | trimming takes white space off both ends and nothing else |
| NotesCompact.CompactWithConfig | crates/kestrel-agent/src/notes.rs:538-637 | out of range, with the stale notes already gone, exactly when more notes are to be drained than are left; otherwise one _compacted note and the rest, and the number drained |
| NotesCompact.Categorize | crates/kestrel-agent/src/notes.rs:565-611 | the categories become sections in their order; the branch for other known formats is never taken |
| NotesCompact.CategoriesPartition | crates/kestrel-agent/src/notes.rs:573-591 | every drained note is in exactly one category |
| NotesCompact.NothingDrainedIsLost | crates/kestrel-agent/src/notes.rs:573-624 | title and content of every drained note occur in the text of the _compacted note |
| NotesCompact.RecentPreservedExactly | crates/kestrel-agent/src/notes.rs:532-564 | needs as many kept as stale notes and keeps the difference; all recent notes stay exactly when none is stale, all recent notes that are not stale exactly when no stale note stands before the boundary |
| NotesCompact.LaterCompactionsLoseOne | crates/kestrel-agent/src/notes.rs:543-564 | whatever has been saved since the last compaction, every later one keeps one recent note fewer, and fails exactly with keep_recent 0 |
| NotesCompact.RecentNoteIsLost | crates/kestrel-agent/src/notes.rs:543-564 | three notes of which the most recent is to be kept and none is |
| NotesCompact.DrainIsOutOfRange | crates/kestrel-agent/src/notes.rs:543-564 | three notes of which three are drained when two are left |
| NotesCompact.CompactionLeaves | crates/kestrel-agent/src/notes.rs:551-624 | one _compacted note in front and no other stale note |
| NotesCompact.CompactionKeepsUnique | crates/kestrel-agent/src/notes.rs:551-624 | titles stay unique |
| NotesCompact.ExtractCompactionNotes | crates/kestrel-agent/src/notes.rs:657-807 | the notes of an earlier compaction are replaced by those of the findings in the messages, one per format found; they are counted |
| NotesCompact.FindingsAreVerbatim | crates/kestrel-agent/src/notes.rs:672-770 | every finding stands word for word in a discarded message of a role that may speak for it |
| NotesCompact.NotesDoNotAccumulate | crates/kestrel-agent/src/notes.rs:653-670 | after any number of compactions only the notes of the last one remain, and no other note has changed |
| SessionMaps.EveryStateKeepsInv | crates/kestrel-agent/src/loop_mod.rs:198-325 | in every run without two callers on one session nothing is ever pending, and every active session has a live token and a caller that will release it |
| SessionMaps.NothingIsLeftBehind | crates/kestrel-agent/src/loop_mod.rs:291-323 | whenever a pass is over, by any exit, its session is in neither map |
| SessionMaps.BusyIsNeverSeen | crates/kestrel-agent/src/loop_mod.rs:352-376 | the busy branch, a pending message and a run for "/stop" to cancel are never seen by exclusive callers such as the main loop |
| SessionMaps.EveryPassEnds | crates/kestrel-agent/src/loop_mod.rs:340-966 | a pass is over after at most five steps of its own and can always take one; no step of others changes where it stands |
| SessionMaps.CleanExactly | crates/kestrel-agent/src/loop_mod.rs:958-966 | the idle maps are empty in every run exactly when there is at most one caller |
| SessionMaps.PendingIsLeftBehind | crates/kestrel-agent/src/loop_mod.rs:353-376 | two callers for one session: a queued message that nobody takes |
| MemoryRecall.ThreePassesAreOne | crates/kestrel-agent/src/loop_mod.rs:1585-1590 | the three replacements one after the other equal escaping each character on its own |
| MemoryRecall.UnescapeInverts | crates/kestrel-agent/src/loop_mod.rs:1585-1590 | decoding the entities gives the text back |
| MemoryRecall.EscapedHasNoAngle | crates/kestrel-agent/src/loop_mod.rs:1585-1590 | no markup character is left |
| MemoryRecall.Pack | crates/kestrel-agent/src/loop_mod.rs:1017-1030 | the lines kept are within the budget in bytes |
| MemoryRecall.PackedIsGreedy | crates/kestrel-agent/src/loop_mod.rs:1017-1030 | a line is kept exactly when it fits into what the lines kept before it have left |
| MemoryRecall.SkippedLinesDoNotFit | crates/kestrel-agent/src/loop_mod.rs:1017-1030 | every skipped line is longer than the final leftover |
| MemoryRecall.GreedyIsUnique | crates/kestrel-agent/src/loop_mod.rs:1017-1030 | there is one such choice |
| MemoryRecall.NothingFitsExactly | crates/kestrel-agent/src/loop_mod.rs:1033-1049 | the fallback runs exactly when every line exceeds the whole budget |
| MemoryRecall.FallbackAddsNothing | crates/kestrel-agent/src/loop_mod.rs:1032-1051 | a fallback that finds only entries of the first search leaves the lines as they are |
| MemoryRecall.SortedNewestFirst | crates/kestrel-agent/src/loop_mod.rs:1011-1015 | newest entries first, none lost |
| MemoryRecall.RecallMemories | crates/kestrel-agent/src/loop_mod.rs:985-1072 | nothing for an empty store, otherwise the block of the packed lines or, if there is none, of the fallback's |
| MemoryRecall.RecalledBlockIsContained | crates/kestrel-agent/src/loop_mod.rs:1060-1071 | whatever the memories say, the block has one opening and one closing tag, at its ends |
| MemoryRecall.JoinedBytes | crates/kestrel-agent/src/loop_mod.rs:1017-1071 | the separators are not charged: n lines are n - 1 bytes longer than the budget was charged |
| MemoryRecall.BudgetIsKeptExactly | crates/kestrel-agent/src/loop_mod.rs:978-1071 | the joined lines keep the budget for every store and every fallback exactly when the budget is less than two of the shortest lines, 18 bytes |
| MemoryRecall.TwoLinesOverrun | crates/kestrel-agent/src/loop_mod.rs:1017-1071 | any two memories that fill the budget are both recalled and take one byte more |
| Truncation.BoundaryExactly | crates/kestrel-agent/src/loop_mod.rs:1708-1719 | in valid UTF-8 the character boundaries are exactly the lengths of the valid prefixes |
| Truncation.BoundaryIsNear | crates/kestrel-agent/src/loop_mod.rs:1708-1719 | a boundary is at most three bytes back |
| Truncation.TruncateStr | crates/kestrel-agent/src/loop_mod.rs:1708-1719 | the longest prefix of at most max_len bytes that is valid UTF-8, in as many steps back as bytes are given up, at most three |

## Left out

- Integer width: `usize`, `u64` and `u32` are unbounded here; no sum in the modelled code comes near their limits.
- Clocks: milliseconds on one non-decreasing clock; sub-millisecond timing and `Instant` resolution are not modelled.
- Provider, tools, bus, hooks and memory store: their answers are arbitrary; how they are computed is not modelled. A
  failed memory search and a missing store both mean no block.
- The wording of progress, heartbeat, timeout, error and status messages, icons, tool previews, trace ids, log lines,
  audit records and learning events.
- Announcing a tool name while its deltas arrive, and the callback for it: the assembled calls do not depend on it.
- A provider that is not registered: the run fails before its first request.
- Timeout resolution (`adaptive_timeout.rs`): the resolved timeouts are parameters.
- `compaction.rs:88-90`: the threshold is a parameter; the floating-point product behind it is not modelled.
- `build_summary`: an arbitrary string. It cuts at byte positions and can fail on a multi-byte character; that failure
  is not modelled. The lower-casing of the runtime, on which the findings of `extract_compaction_notes` depend, is an
  arbitrary function.
- The compaction hooks read the session and cannot change it; their side effects are not modelled.
- Ids and timestamps of notes, ids of sub-agent tasks other than the numbered ones of `spawn_parallel`.
- The `max_tasks` check of `spawn_single`: the check and the push use separate locks, so no bound on concurrent spawns is
  claimed. What a background task does between its transitions is not modelled either.
- The regular-expression engine: its search is modelled by a scanner that is proved to decide the expression.
- What a pass over a message does between the map operations: it is one awaiting stage that may end in any way. The
  reflection task and the stream consumer are not part of it.
- `compute_allocation`, `validate` and the `fits_*` helpers, `summary_quality`, the similarity ratio of memories, the
  cancel registry, the heartbeat checks, skills, note and session files: each is settled by reading one branch or is
  file handling.
- Runner.Run: the result None stands for the future being dropped while tools run; a drop during a provider call, which
  has no task to abort, is not modelled.
- Streaming.LiveTextIsTheAnswer: about text chunks; the lines that announce tool names are shown live as well and are not
  part of it.
- ExecuteTools.AwaitTool: how long a timer may overshoot is left open, so a tool may end later than its limit.
- StreamHealth.Rate: real numbers in place of floating point.
