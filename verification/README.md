# Verification of the Lumin agent core

A Dafny model of the parts of the repository whose guarantees span several functions: tool scheduling,
conversation-history integrity, the dual-loop task protocol, the hand-written stream codecs, and three
bounded or splicing data structures. `dafny verify dfyconfig.toml` checks everything.

What is outside the program is a parameter and so arbitrary: what the model answers, what tools and hooks
return, which compaction summaries come back, how often and in which order promises resolve, how text is cut
into network chunks, random identifiers, clocks, JSON. Code between two `await`s is one atomic event.
Objects and arrays that the source updates in place are classes and arrays here, and their methods are
proved against functions on values; the theorems are about those functions. A string is a sequence of Dafny
characters, which are Unicode scalar values, where the source counts and slices UTF-16 code units; no proof looks
at how a character is encoded, so lengths, costs and offsets agree with the source on text in which every
character is one code unit.

| area | files |
|---|---|
| tool scheduling | `Serializability`, `RunLength`, `ToolScheduling`, `ToolBatches`, `StreamingExecutor`, `Delegation` |
| conversation history | `History`, `SessionRepair`, `Session`, `Compaction`, `Truncation`, `Microcompact`, `Abort`, `AgentRun`, `AgentTurns`, `AgentLoop`, `SharedSession`, `Wording`, `Strings` |
| dual-loop protocol | `TaskLifecycle`, `MessageQueue`, `DualLoop`, `DualLoopEvents`, `DualLoopSafety`, `DualLoopTranscripts`, `DualLoopRestart`, `DualLoopAgent` |
| stream codecs and logs | `WebSocket`, `TextLines`, `EventStream`, `ToolAssembly`, `TranscriptLog` |
| bounded and splicing structures | `BoundedUuidSet`, `Ingress`, `PastedRefs`, `SplitMessage` |
| values that may be absent, parts of sequences | `Wrappers`, `Sublists` |

## How the areas are modelled

**Tool scheduling.** A running call is a deterministic program of atomic steps over shared state of any type;
between two of its steps any other running call may step. The calls, their local states, the shared state and
the results are abstract types. The streaming executor and the batches are schedulers over the same states; a
run is any list of events, and an event that is not possible at its moment changes nothing, so a theorem about
all event lists is one about all interleavings. `executeFn` always resolves.

**Conversation history.** Messages have text content. An empty `toolCallId` stands for an absent or empty one,
which the code treats alike; `arguments` is the stringified JSON. A history is well-formed when every tool
message answers a call of the closest earlier message that is not a tool message, and every call of an
assistant message is answered in the run of tool messages right after it. A run of the agent loop is a function
of the list of turns its environment produces; the heap version refines it and shows which objects it may
touch. The arguments a call has after its round are part of what its environment produces, since a before-tool
hook may rewrite them after the assistant message was made. A run has its session to itself while it lasts, which
the dual loop does not guarantee (see below). Thresholds are at least 1. The fixed texts are a record, with the real ones in `Wordings.ENGLISH`.

**Dual-loop protocol.** The state holds every task object, the task store, the contexts, one program counter
for each dispatched inner loop, the `resumeTask` calls that wait for their transcript, and the message traffic.
Pausing a task, which only code outside `src/loop` can do through the public state machine, is an event like
any other. No event moves a running task to interrupted, which the transition table allows and nothing in the
repository does; what is said below about a second inner loop is for runs without that. A run starts with what
`loadPersistedTasks` restores.

**Codecs.** Bytes are numbers below 256 and exclusive or is defined bit by bit. Chunks of the event stream are
the texts after UTF-8 decoding.

## What turned out to be false, and when it holds

- Repairing the tail of a history by the set of known ids is not always enough when ids repeat:
  `Compaction.RepairedTailIff` gives the exact condition, `Compaction.ReusedIdBreaksRepair` an input.
- The session repair is idempotent exactly when no call has the empty id: `SessionRepair.RepairIdempotentIff`, with
  an input in `SessionRepair.EmptyIdIsNeverAnswered`.
- A transcript does not stay free of stray results when something else writes to it in the middle of a tool round,
  for instance a user message (`SharedSession.UserMessageInRound`).
  Another run's messages do no harm exactly when all of them answer calls of that round
  (`SharedSession.InterleavedRoundIff`), a rebuilt transcript exactly when it ends in the calls of the round
  (`SharedSession.RebuiltRoundIff`). The dual loop lets two inner agents run on one session:
  `DualLoopRestart.TwoRunsShareASession`.
- Overlapping `resumeTask` calls can start two inner loops for one task, exactly when the task is paused between
  the moments they go through: `DualLoopSafety.DispatchedTwiceIff`, `DualLoopSafety.PausedResumeRunsTwice`.
- A message delivered to a session does not always stay in its transcript: a `resumeTask` call rebuilds the
  transcript before it finds out that it comes too late. `DualLoopTranscripts.TranscriptsShow` says exactly which
  messages are still there, `DualLoopTranscripts.NothingIsForgottenIff` when all of them are, and
  `DualLoopTranscripts.DeliveredThenForgotten` gives a run that loses one.
- What the tool-use callback is given early is the final list exactly when no delta changes a call already
  handed over: `ToolAssembly.CallbackAgreesIff`, with an input in `ToolAssembly.LateDeltaIsMissed`.
- The comment at src/loop/dual.ts:607-608 says results of ended tasks stay queryable after a restart, but the
  metadata on disk has no result: a task has the result it had exactly unless it completed since the restart
  before (`DualLoopRestart.ResultSurvivesIff`); `DualLoopRestart.CompletedResultIsForgotten` is a run that loses one.

## Model

| member | source | states |
|---|---|---|
| `Serializability.MicroStepKeepsConsistent` | src/streaming-executor.ts:72-81 | whichever running call takes the next atomic step, the state still looks like a serial execution in submission order that was cut short, as long as conflicting calls never run together and safe calls are read-only |
| `Serializability.RunsAsInTurn` | src/streaming-executor.ts:129-141 | a running call sees exactly the local state and the shared state it would see if it ran alone in its turn |
| `Serializability.FinishedPrefixIsSerial` | src/streaming-executor.ts:110-141 | as soon as the first k calls have finished, whatever else still runs, their results are those of running the calls one after another in submission order |
| `Serializability.SeriallyIsUnique` | src/streaming-executor.ts:72-81 | running calls one after another determines results and final shared state |
| `ToolScheduling.PassStarts` | src/streaming-executor.ts:110-141 | a scheduling pass starts only calls that conflict with no unfinished earlier call, keeps the started calls a prefix and unsafe calls alone, and leaves no call waiting while nothing runs |
| `ToolScheduling.PassExhausts` | src/streaming-executor.ts:110-127 | a pass starts all it can: afterwards every call still waiting stands beside a running call with which it conflicts, or waits behind an unsafe call that does |
| `ToolScheduling.PollMeans` | src/streaming-executor.ts:151-162 | a poll yields exactly the finished calls at the front that were not yielded before, once each and in order, and changes nothing else |
| `ToolScheduling.EveryRunIsGood` | src/streaming-executor.ts:94-193 | after any adds, steps, completions, polls and rescheduling in any order: started is a prefix of submitted, yielded a prefix of started, an executing unsafe tool is alone, a queued tool implies an executing one, and the results handed out are those of the yielded calls in order |
| `ToolScheduling.OutputIsSerial` | src/streaming-executor.ts:94-193 | at every moment of every run the results handed out are those of serial execution of the first calls added |
| `ToolScheduling.CompleteRunIsSerial` | src/streaming-executor.ts:172-193 | a run that handed out every result has the results and the final shared state of serial execution |
| `ToolScheduling.NeverStalls` | src/streaming-executor.ts:172-193 | while a call is unfinished, some running call can step or resolve |
| `RunLengths.StepsAreBounded` | src/streaming-executor.ts:72-81 | no interleaving makes a call take more steps than it takes in its turn, and a finished call has taken all of them |
| `ToolScheduling.EveryRunEnds` | src/streaming-executor.ts:172-193 | if running the calls one after another comes to an end, every run of the executor takes at most the same fixed number of steps and resolutions, and exactly that many once every call has finished; so draining ends |
| `StreamingExecutor.StreamingToolExecutor.CanExecute` | src/streaming-executor.ts:137-141 | the answer is the rule: nothing executes, or the tool and everything executing are safe |
| `StreamingExecutor.StreamingToolExecutor.ProcessQueue` | src/streaming-executor.ts:110-127 | the scan over the tool objects leaves exactly the statuses of the scheduling pass |
| `StreamingExecutor.StreamingToolExecutor.AddTool` | src/streaming-executor.ts:94-104 | one new tracked tool at the end, then a pass; the discipline is kept |
| `StreamingExecutor.StreamingToolExecutor.Resolved` | src/streaming-executor.ts:116-121 | the completion callback stores the result, completes the tool and schedules again |
| `StreamingExecutor.StreamingToolExecutor.GetCompletedResults` | src/streaming-executor.ts:151-162 | returns the stored results at the yielded positions, in order, and marks exactly those as yielded |
| `StreamingExecutor.StreamingToolExecutor.Drain` | src/streaming-executor.ts:172-193 | terminates with every tool yielded, and yields every result not yielded before exactly once, in submission order, whichever executions resolve when |
| `ToolBatches.PartitionToolCalls` | src/agent.ts:174-187 | the partition loop computes the plan |
| `ToolBatches.PlanIsPlan` | src/agent.ts:174-187 | the plan's batches are the calls in order, cut into longest stretches of safe calls and single unsafe calls |
| `ToolBatches.PlanIsUnique` | src/agent.ts:174-187 | there is no other way to cut the calls like that |
| `ToolBatches.EveryRunIsGood` | src/agent.ts:406-425 | in any run of the batches every start conflicts with no unfinished earlier call, and the started calls are those of the batches begun |
| `ToolBatches.CompleteRunIsSerial` | src/agent.ts:406-425 | when every call has resolved, results and shared state are those of serial execution |
| `ToolBatches.NeverStalls` | src/agent.ts:406-425 | until every call has resolved, a running call can go on or the next batch can begin |
| `ToolBatches.EveryRunEnds` | src/agent.ts:406-425 | if running the calls one after another comes to an end, every run of the batches takes at most the same fixed number of steps, resolutions and new batches, and exactly that many once every call has finished |
| `ToolBatches.SchedulersAgree` | src/agent.ts:406-425 | for the same calls the streaming executor and the batches return the same results in the same order and leave the same shared state, under any two interleavings |
| `Delegation.OutcomeIff` | src/agent.ts:623-675 | an attempt is refused if and only if the agent is unknown or the depth is at least 5; otherwise it runs one deeper, and its own attempts from there |
| `Delegation.NestingIsBounded` | src/agent.ts:623-675 | sub-agents nest exactly as deep as the models ask for, up to the limit of 5, and none runs beyond it |
| `History.WellFormedByRecursion` | src/session.ts:176-228 | the recursive form of well-formedness used in the proofs is the definition by positions |
| `SessionRepair.RepairIsWellFormed` | src/session.ts:197-228 | the repaired history is well-formed if and only if the input has no stray results |
| `SessionRepair.RepairOnlyInserts` | src/session.ts:197-228 | the output is the input with synthetic results inserted, order kept: directly behind each assistant message, before its tool run, one for each of its calls that this run leaves open or whose id is empty, in the order of the calls, and none for an answered call |
| `SessionRepair.RepairIsUnique` | src/session.ts:197-228 | the output is the only history with exactly those insertions |
| `SessionRepair.RepairSkipsAnswered` | src/session.ts:197-228 | a history in which every call is answered, none with an empty id, is returned unchanged |
| `SessionRepair.RepairIdempotentIff` | src/session.ts:197-228 | repairing twice changes nothing more if and only if no call has the empty id |
| `SessionRepair.EmptyIdIsNeverAnswered` | src/session.ts:203-222 | a history whose one call has an empty id gains a result with every repair |
| `Sessions.RepairOrphanedToolCalls` | src/session.ts:197-228 | the loops over message objects compute the repair; existing objects are shared, inserted ones are fresh |
| `Sessions.Session.BuildMessages` | src/session.ts:69-93 | system prompt, summary pair and repaired transcript, without touching the session |
| `Sessions.RequestIs` | src/session.ts:69-93 | a request is the system prompt, then the summary in a user and an assistant message if there is one that is not empty, then the repaired transcript |
| `Sessions.RequestIsWellFormed` | src/session.ts:69-98 | what buildMessages returns is well-formed if and only if the transcript has no stray results |
| `Compaction.RepairedTailIff` | src/compaction.ts:127-149 | the exact condition under which a cut history is well-formed after its orphaned results are repaired |
| `Compaction.RepairedTailIsFormed` | src/compaction.ts:127-149 | with unique non-empty ids, any prefix of plain messages plus a repaired tail of a well-formed history is well-formed |
| `Compaction.ReusedIdBreaksRepair` | src/compaction.ts:127-149 | an input with a reused id whose repaired tail is not well-formed |
| `Compaction.RepairedAt` | src/compaction.ts:127-149 | a tool result whose non-empty id no message calls becomes a user message with its first 500 characters; every other message stays as it is |
| `Truncation.TruncationUnique` | src/agent.ts:156-172 | the conditions on a truncation determine it: the longest suffix that fits, and at least the last six messages |
| `Truncation.TruncatedIsTruncation` | src/agent.ts:156-172 | the walk from the newest message down meets these conditions |
| `Truncation.DroppedIsOneBlock` | src/agent.ts:487-503 | the original is the system message, then the dropped messages as the caller computes them, then the rest of the truncated list |
| `Truncation.TotalIsSize` | src/agent.ts:142-159 | the walks measure a history by the characters of all its contents and 50 for each message |
| `Truncation.TruncationFits` | src/agent.ts:156-172 | the characters of the result and 50 for each message stay within the limit, or the result is exactly the system message and the last six, or all when there are no more |
| `Microcompact.CompactedAt` | src/microcompact.ts:33-53 | message k is cleared if and only if it is clearable and at least keepRecent clearable ones follow it |
| `Microcompact.ClearedIff` | src/microcompact.ts:33-53 | a tool message that holds output is replaced by the marker if and only if at least keepRecent such messages follow; everything else stays |
| `Microcompact.CompactedIsWellFormed` | src/microcompact.ts:33-53 | clearing old results keeps a history well-formed or not, in both directions |
| `Microcompact.CompactedCount` | src/microcompact.ts:33-53 | exactly the most recent keepRecent clearable results, or all when fewer, remain |
| `Microcompact.CompactedIdempotent` | src/microcompact.ts:33-53 | clearing again changes nothing |
| `Abort.SynthesizedCompletes` | src/agent.ts:279-308 | a history whose last exchange lacks results is well-formed once the synthesized ones are appended |
| `Abort.SynthesizedIs` | src/agent.ts:279-308 | one message with the marker for each call of the last message that has calls and that no tool message after it answers, in the order of the calls |
| `Abort.AnsweredNeedsNothing` | src/agent.ts:279-308 | when every call is answered, none with an empty id, nothing is synthesized |
| `AgentRun.RunIsWellFormed` | src/agent.ts:466-611 | from a transcript without stray results and with unique non-empty ids, every request of every run that has the session to itself is well-formed, and the transcript keeps those properties for the next run, even when a round of tool calls throws |
| `AgentRun.RunIsBounded` | src/agent.ts:466-611 | at each loop head consecutiveErrors is the number of trailing all-error rounds and below the doom threshold, the signatures, taken of the arguments after hooks, do not end in a repetition, at most three output recoveries and one reactive compaction happened, and at most one request was sent per iteration |
| `AgentTurns.TurnIsRecorded` | src/agent.ts:558-588 | a turn sends one request and appends to the transcript the queued messages and what came of the request, for a round of tool calls the assistant message and right behind it, for each call, its own output; the context gets the same behind what was sent |
| `AgentTurns.AbortIsRecorded` | src/agent.ts:466-473 | a turn that finds the run aborted sends nothing and adds only the results that the context lacks |
| `AgentTurns.EveryRoundIsRecorded` | src/agent.ts:558-588 | in the transcript at any later moment of the run every round is found where it happened, each output under the id of its call |
| `AgentTurns.OutputIsShown` | src/agent.ts:148-154 | an output within the limit is shown as it is, a longer one by its first 90,000 and last 50,000 characters with a note between |
| `Strings.DecimalReads` | src/agent.ts:152-153 | numerals in such notes are written digit by digit, without a zero in front |
| `AgentTurns.RunEndsIff` | src/agent.ts:466-611 | whether and how a run ends after a turn, from what its turns brought about: failed rounds in a row, repeated signatures, continued replies, compacted prompts, aborts and errors |
| `AgentTurns.BegunIs` | src/agent.ts:450-451 | a run begins with the user message behind the transcript and a context built from that |
| `AgentTurns.UnstoppedResult` | src/agent.ts:613-616 | a run that used up its turns returns the text of its last reply, or the fixed text when that is empty |
| `AgentTurns.StoppedResult` | src/agent.ts:466-614 | a run that has stopped returns the text, or throws the error, that it stopped with |
| `AgentTurns.SignatureIff` | src/agent.ts:589 | calls of one tool have the same signature if and only if their arguments agree, or are at least 80 characters long and agree in the first 80 |
| `AgentTurns.SentIs` | src/agent.ts:485-511 | a request is the context with old results cleared and, when still too large, truncated and repaired, in the first turn with the system prompt of the hook |
| `AgentTurns.HalvedIs` | src/agent.ts:529-543 | after a prompt that was too long the context is the system message, the summary in two messages and the repaired newer half of what was sent |
| `AgentTurns.SummaryIs` | src/agent.ts:487-543 | which turns set the session summary, and to what |
| `AgentRun.AbortAddsNothing` | src/agent.ts:466-473 | at the head of the loop, where an abort is noticed, no call lacks a result |
| `SharedSession.InterleavedRoundIff` | src/agent.ts:558-588 | when messages with call ids of their own come between the calls of a round and their results, no result is stray if and only if all of them answer calls of that round |
| `SharedSession.UserMessageInRound` | src/agent.ts:558-588 | a user message added by another run between the calls of a round and their results leaves a stray result |
| `SharedSession.RebuiltRoundIff` | src/loop/dual.ts:657-688 | after a rebuild in the middle of a round no result is stray if and only if the rebuilt transcript has none and ends in the calls of the round |
| `AgentRun.PreparedIsGood` | src/agent.ts:485-503 | microcompaction, truncation and orphan repair in sequence keep a good context good |
| `AgentRun.HalvedIsGood` | src/agent.ts:529-543 | reactive compaction keeps a good context good |
| `AgentLoop.ClearOldResults` | src/microcompact.ts:33-53 | the index loop and the slot writes compute the compaction; cleared messages are fresh objects, the others are shared |
| `AgentLoop.TruncateOldestTurns` | src/agent.ts:156-172 | the accumulating loops compute the truncation |
| `AgentLoop.RepairOrphanedToolResults` | src/compaction.ts:127-149 | the set-filling loop and the map compute the repair; converted messages are fresh objects |
| `AgentLoop.SynthesizeAbortedToolResults` | src/agent.ts:279-308 | the backward search and the push loop append exactly the missing results to context and session |
| `AgentLoop.CompactReactively` | src/agent.ts:532-541 | the new context is the system message, the summary pair and the repaired younger half |
| `AgentLoop.HandleReply` | src/agent.ts:558-609 | what a reply pushes to context and session, and how it moves the counters |
| `AgentLoop.ProcessMessage` | src/agent.ts:428-620 | the whole loop on the heap refines the run on values, to the text it returns or the error it throws; session messages only grow, and the message objects in the session keep their contents although the context array shares them |
| `TaskLifecycle.TransitionFacts` | src/task/machine.ts:11-19 | nothing leaves completed or failed, exactly the live statuses can fail, only executing can complete, interrupted can only be taken up |
| `TaskLifecycle.EntryFacts` | src/task/machine.ts:11-19 | planning is entered from pending only, paused from executing only, executing from pending, planning, paused and interrupted |
| `TaskLifecycle.ErrorsRead` | src/task/machine.ts:23-28 | what the errors for invalid transitions read like |
| `TaskLifecycle.Transition` | src/task/machine.ts:42-49 | a valid transition moves the status and nothing else; an invalid one changes nothing and reports both statuses |
| `TaskLifecycle.Complete` | src/task/machine.ts:60-64 | status and result together, or neither |
| `TaskLifecycle.TryFail` | src/task/machine.ts:67-71 | status and error together, or neither |
| `MessageQueues.MessageQueue.Enqueue` | src/task/message-queue.ts:28-37 | one new message at the end |
| `MessageQueues.MessageQueue.DrainForTask` | src/task/message-queue.ts:43-52 | the partition loop returns the target's messages in order and keeps the others in order |
| `MessageQueues.DrainSplits` | src/task/message-queue.ts:43-52 | draining one task leaves every other task's messages as they were |
| `MessageQueues.DrainPicks` | src/task/message-queue.ts:38-52 | draining takes out exactly the messages of the task and leaves exactly the others, both in the order they had |
| `DualLoopEvents.ActiveIff` | src/task/store.ts:44-59 | the active task that is found is the oldest stored one that is executing or paused, in the session when one is given |
| `DualLoopEvents.TasksAfter` | src/loop/dual.ts:171-827 | what every event makes of the status, result and error of every task |
| `DualLoopEvents.NewTasks` | src/loop/dual.ts:171-244 | exactly a submission to a session without an active task makes a task, pending, stored, with its context and its inner loop |
| `DualLoopEvents.RunsAfter` | src/loop/dual.ts:299-550 | where every event moves every inner loop |
| `DualLoopEvents.SubmitQueues` | src/loop/dual.ts:171-197 | a submission to a session with an active task is queued for the oldest one and does nothing else |
| `DualLoopEvents.IterationDelivers` | src/loop/dual.ts:437-442 | the start of an iteration leaves nothing for its task in the queue; all of it is appended to the session |
| `DualLoopEvents.WriteAppends` | src/session.ts:95-98 | what an inner agent adds to its session stands at the end of the transcript and touches no queued or delivered message |
| `DualLoopEvents.EndOrphans` | src/loop/dual.ts:497-549 | the end of an inner loop and a cancellation leave nothing for the task in the queue; all of it is announced as orphaned |
| `DualLoopEvents.ResumesAfter` | src/loop/dual.ts:646-713 | which resumeTask calls are let in, and what one does when its transcript has come |
| `DualLoopSafety.NextKeeps` | src/loop/dual.ts:171-550 | every event keeps the invariant of tasks, contexts, inner loops and messages |
| `DualLoopSafety.MessagesAreConserved` | src/loop/dual.ts:497-549 | after any events from any restart every accepted message is in exactly one of transcript delivery, orphan announcement and queue, in FIFO order for each task; none has vanished; a queued message belongs to an executing or paused task that has its context |
| `DualLoopSafety.NoBusNoMessages` | src/loop/dual.ts:816-827 | where the silent return without a bus could be taken there is no message to lose |
| `DualLoopSafety.DeliverConserves` | src/loop/dual.ts:437-442 | an iteration start moves the queued messages behind those delivered before |
| `DualLoopSafety.OrphanConserves` | src/loop/dual.ts:816-827 | a termination moves the queued messages to the orphaned ones |
| `DualLoopSafety.EndedIsForever` | src/loop/dual.ts:776-808 | once a task has completed or failed, no events change its status, result or error |
| `DualLoopSafety.HowTasksEnd` | src/loop/dual.ts:497-549 | only a cancellation, a finish, an error or a crash ends a task, with exactly this status, result and error; so of cancel and completion the first wins |
| `DualLoopSafety.LoadedIsGood` | src/loop/dual.ts:610-635 | after restart loading no task is pending, planning, executing or paused |
| `DualLoopSafety.KeptExactly` | src/task/store.ts:81-92 | eviction removes exactly the completed and failed tasks past the age limit |
| `DualLoopSafety.AtMostOneDispatch` | src/loop/dual.ts:646-716 | as long as no task is paused while a resumeTask call waits for it, at most one inner loop is ever dispatched for a task |
| `DualLoopSafety.DispatchedTwiceIff` | src/loop/dual.ts:646-716 | over any run, some task gets two inner loops if and only if a resumeTask call goes through on a task that is paused and has one |
| `DualLoopSafety.SecondDispatchIff` | src/loop/dual.ts:690-713 | a resumeTask call starts a second inner loop exactly when the task is paused at that moment |
| `DualLoopSafety.PausedResumeRunsTwice` | src/loop/dual.ts:646-716 | two overlapping resumeTask calls with a pause in between start two inner loops |
| `DualLoopRestart.LoadedStore` | src/loop/dual.ts:610-635 | after a restart the store holds each task that has a file, once |
| `DualLoopRestart.ResultSurvivesIff` | src/loop/dual.ts:574-635 | after any run and a restart a task comes back with its session, its error and, if it has ended, its status; it has the result it had if and only if it did not complete in that run |
| `DualLoopRestart.ChangesAreWritten` | src/loop/dual.ts:225-239 | every change of a task is written to its file, except going to planning, a pause, and going on after a pause |
| `DualLoopRestart.DiskKeepsUp` | src/loop/dual.ts:225-239 | at every moment of every run the files, rewritten where the code rewrites them, give every task as far as a restart can tell, although planning, pausing and going on write nothing |
| `DualLoopRestart.CompletedResultIsForgotten` | src/loop/dual.ts:574-635 | a run whose task completes with a result that the restart does not bring back |
| `DualLoopRestart.TwoRunsShareASession` | src/loop/dual.ts:171-244 | two submissions before the first task is active lead to two inner agents running on one session |
| `DualLoopTranscripts.TranscriptsShow` | src/loop/dual.ts:655-688 | a session transcript holds exactly the messages delivered to its tasks since it was last rebuilt, in order |
| `DualLoopTranscripts.NothingIsForgottenIff` | src/loop/dual.ts:437-442 | a session transcript holds every message ever delivered to its tasks if and only if each rebuild of it came before any delivery |
| `DualLoopTranscripts.LateResumeForgets` | src/loop/dual.ts:655-691 | a resumeTask call that comes too late changes no task and starts nothing, but no earlier delivery is left in the transcript |
| `DualLoopTranscripts.DeliveredThenForgotten` | src/loop/dual.ts:646-716 | a run in which a delivered message is lost that way |
| `DualLoopAgents.TaskStore.GetActive` | src/task/store.ts:44-59 | the scan returns the first executing or paused task, of the session when one is given |
| `DualLoopAgents.TaskStore.EvictCompleted` | src/task/store.ts:81-92 | removes exactly the ended tasks past the age limit and counts them |
| `DualLoopAgents.DualLoopAgent.ProcessMessage` | src/loop/dual.ts:171-244 | queue for the active task of the session, or create a pending task with its context: the event of the protocol |
| `DualLoopAgents.DualLoopAgent.AfterMemoryRecall` | src/loop/dual.ts:299-329 | to planning, or the crash an invalid transition raises |
| `DualLoopAgents.DualLoopAgent.AfterPlanningCall` | src/loop/dual.ts:365-371 | to executing, unless the task has left planning |
| `DualLoopAgents.DualLoopAgent.OnIterationStart` | src/loop/dual.ts:437-442 | the drained messages are appended to the session in order |
| `DualLoopAgents.DualLoopAgent.FinishRun` | src/loop/dual.ts:497-548 | complete or, when that throws, fail; announce the orphans; release the context |
| `DualLoopAgents.DualLoopAgent.FailRun` | src/loop/dual.ts:537-548 | fail unless ended, announce the orphans, release the context |
| `DualLoopAgents.DualLoopAgent.HandleCrash` | src/loop/dual.ts:276-285 | the catch handler of a dispatched inner loop does the same |
| `DualLoopAgents.DualLoopAgent.Cancel` | src/loop/dual.ts:792-807 | fail unless ended, announce the orphans, keep the context |
| `DualLoopAgents.DualLoopAgent.Resume` | src/loop/dual.ts:759-765 | the first active task goes on if it is paused |
| `DualLoopAgents.DualLoopAgent.BeginResume` | src/loop/dual.ts:646-651 | only an interrupted task passes |
| `DualLoopAgents.DualLoopAgent.EndResume` | src/loop/dual.ts:657-713 | the session is rebuilt first, then the task is taken up or the call fails |
| `DualLoopAgents.DualLoopAgent.EvictTick` | src/loop/dual.ts:155-162 | eviction touches nothing but the store |
| `DualLoopAgents.DualLoopAgent.LoadPersistedTasks` | src/loop/dual.ts:610-635 | the restored tasks, in order, live ones as interrupted |
| `WebSocket.XorTwice` | src/server.ts:135-137 | exclusive or with the same byte twice gives the byte back |
| `WebSocket.XorIff` | src/server.ts:135-137 | the exclusive or of two bytes is the byte that has a 1 just where their binary digits differ |
| `WebSocket.BigEndianInverse` | src/server.ts:102-107 | a length written in big-endian bytes reads back |
| `WebSocket.WsEncode` | src/server.ts:89-111 | the bytes written are the unmasked text frame of section 5.2 of RFC 6455, for all three length forms |
| `WebSocket.Unmask` | src/server.ts:132-137 | the loop changes only the payload bytes, each by the key byte of section 5.3 |
| `WebSocket.WsDecode` | src/server.ts:113-143 | the array version returns what decoding means and overwrites only the payload of a complete masked frame |
| `WebSocket.RoundTrip` | src/server.ts:89-143 | decoding a frame, unmasked or masked with any key, followed by any bytes, returns the payload and consumes exactly the frame |
| `WebSocket.FrameLaysOut` | src/server.ts:89-111 | byte by byte: what is encoded is a final text frame with the shortest length form of section 5.2 and, with a key, the masking of section 5.3 |
| `WebSocket.DecodeIff` | src/server.ts:113-143 | decoding returns a payload and a length if and only if the buffer begins with a frame of that length that carries the payload, in any length form, masked or not |
| `WebSocket.AfterDecodeIs` | src/server.ts:132-137 | after decoding the payload stands in place of the bytes that carried it, and nothing else in the buffer has changed |
| `WebSocket.PrefixWaits` | src/server.ts:113-143 | every proper prefix of a frame decodes to nothing and is left untouched |
| `WebSocket.StreamRoundTrip` | src/server.ts:113-143 | frames sent one after another and cut off anywhere in the next decode to all payloads in order |
| `TextLines.SplitOfJoin` | src/provider.ts:274-276 | splitting at newlines inverts joining newline-free pieces |
| `TextLines.JoinOfSplit` | src/provider.ts:274-276 | joining inverts splitting |
| `TextLines.SplitIff` | src/provider.ts:274-276 | the pieces of a text are the newline-free ones that join to it, and no others |
| `TextLines.ChunkStep` | src/provider.ts:274-276 | reading a chunk on top of the kept residue ends the same lines and keeps the same residue as having the whole text |
| `EventStream.AnyChunking` | src/provider.ts:267-276 | however the text is cut into chunks, the lines read are the newline-terminated lines of the whole |
| `EventStream.ChatStream` | src/provider.ts:256-379 | for any chunking the reply and the final tool calls are those of the newline-terminated lines of the whole text |
| `EventStream.ReadLine` | src/provider.ts:278-341 | what one line does to text, thinking, tool calls, finish reason and usage |
| `EventStream.FeedToolDelta` | src/provider.ts:305-324 | one tool-call delta, with the early emission it may cause |
| `EventStream.EmitRemaining` | src/provider.ts:345-353 | the emission loop hands over every part not handed over yet, in insertion order |
| `EventStream.ReplyHasSpelledCalls` | src/provider.ts:303-367 | the tool calls of a reply are what the deltas of its lines spell; the callback is called once for each, in the same order, or never without a callback |
| `EventStream.ReplyIsRead` | src/provider.ts:278-341 | text is the pieces of content of the lines, thinking their pieces of reasoning, each handed to its callback; finish reason and usage are the last ones given |
| `EventStream.StreamedTextAddsUp` | src/provider.ts:288-301 | text and thinking of the reply are exactly the concatenated deltas passed to the callbacks |
| `ToolAssembly.AssemblyIsSpelling` | src/provider.ts:303-367 | the final list has one call for each index in order of first appearance, with its last id and all its name and argument pieces in order |
| `ToolAssembly.CallbackOncePerIndex` | src/provider.ts:303-353 | the callback is called exactly once for each index in order of first appearance, with the call as spelled when the next index opened with an id |
| `ToolAssembly.CallbackAgreesIff` | src/provider.ts:303-367 | the calls handed over equal the final list if and only if no later delta changes a call already handed over |
| `ToolAssembly.LateDeltaIsMissed` | src/provider.ts:303-367 | three deltas for which the callback gets a call without its last argument piece |
| `ToolAssembly.InOrderAgrees` | src/provider.ts:303-367 | they are equal when every delta is for a new index or the one opened last |
| `TranscriptLog.TurnFile.AppendTurn` | src/task/disk.ts:61-65 | one line is appended, and the file stays the log of the turns appended so far |
| `TranscriptLog.TurnFile.ReadTranscript` | src/task/disk.ts:67-77 | split, drop empty lines, parse, nothing for a missing file; on a log these are exactly the turns appended so far |
| `TranscriptLog.ReadsWhatWasAppended` | src/task/disk.ts:61-77 | for any turns appended, reading returns exactly those turns in order |
| `TranscriptLog.Replay` | src/loop/dual.ts:657-688 | the session afterwards holds fresh messages with the projection of the turns |
| `TranscriptLog.ProjectionInOrder` | src/loop/dual.ts:661-688 | the projection is the user, assistant and tool turns in order, and nothing else |
| `TranscriptLog.ReplayIff` | src/loop/dual.ts:661-688 | replaying turns gives exactly the messages they record: role, content, call id and calls, whatever the tool names, with nothing for status turns |
| `TranscriptLog.RebuildSession` | src/loop/dual.ts:655-688 | a resumed task finds in its session exactly the messages that the turns appended to its file record |
| `BoundedUuidSets.BoundedUuidSet.Add` | ref/CC-Source/src/bridge/bridgeMessaging.ts:440-450 | the set refines the list of accepted identifiers: a known one changes nothing, a new one is appended |
| `BoundedUuidSets.BoundedUuidSet.Has` | ref/CC-Source/src/bridge/bridgeMessaging.ts:452-454 | an identifier is known exactly when it is among the last capacity accepted |
| `BoundedUuidSets.BoundedUuidSet.Clear` | ref/CC-Source/src/bridge/bridgeMessaging.ts:456-460 | nothing is known afterwards |
| `BoundedUuidSets.RingStep` | ref/CC-Source/src/bridge/bridgeMessaging.ts:440-450 | writing the slot and moving on keeps the ring equal to the window, read around from the write position |
| `BoundedUuidSets.EvictionStep` | ref/CC-Source/src/bridge/bridgeMessaging.ts:442-448 | the evicted identifier is the oldest of the window and occurs once in it, so the set stays equal to the ring |
| `BoundedUuidSets.InWindowIff` | ref/CC-Source/src/bridge/bridgeMessaging.ts:452-454 | an identifier is remembered exactly while fewer than capacity others have been accepted since |
| `Ingress.HandleIngressMessage` | ref/CC-Source/src/bridge/bridgeMessaging.ts:132-208 | the outcome is the routing rule, and only a forwarded user message with an identifier is recorded |
| `Ingress.ForwardedAreSpaced` | ref/CC-Source/src/bridge/bridgeMessaging.ts:175-197 | no identifier is forwarded again before capacity others have been |
| `Ingress.ForwardedIff` | ref/CC-Source/src/bridge/bridgeMessaging.ts:132-208 | a message is forwarded if and only if it is a user message that has no identifier or at least capacity others were accepted since it was posted and since it was last forwarded; permission answers and control requests go to their handlers, all else is dropped |
| `PastedRefs.ScanIsOrdered` | ref/CC-Source/src/history.ts:62-75 | matches are disjoint and increasing |
| `PastedRefs.MatchIff` | ref/CC-Source/src/history.ts:65-66 | the pattern matches at a position if and only if a placeholder begins there: one of three kinds, a number, perhaps a line count, perhaps dots |
| `PastedRefs.ScanIff` | ref/CC-Source/src/history.ts:62-75 | the matches found are the leftmost ones, each sought behind the one before, and no others |
| `PastedRefs.PositiveIs` | ref/CC-Source/src/history.ts:67-74 | of the matches exactly those with a positive number are references |
| `PastedRefs.ExpandPastedTextRefs` | ref/CC-Source/src/history.ts:81-100 | splicing from the last reference to the first equals replacing all of them at once, with the gaps and the non-text references unchanged |
| `PastedRefs.FormatMatches` | ref/CC-Source/src/history.ts:51-75 | a formatted placeholder of a text or an image matches the pattern whatever follows it, and its number is read back |
| `PastedRefs.ScanPromptIff` | ref/CC-Source/src/history.ts:62-75 | scanning a prompt put together from typed text and placeholders finds exactly the placeholders if and only if no match of the pattern begins in typed text |
| `PastedRefs.PromptExpands` | ref/CC-Source/src/history.ts:51-100 | when no match begins in typed text and placeholders are numbered from 1, a prompt expands to the same text with the pasted contents in place, even when they look like placeholders; typed text and placeholders of images stay as they were |
| `SplitMessages.SplitMessage` | src/channels/telegram.ts:158-175 | the chunks are cut at the last newline in the upper half of what fits, or at the limit when there is none; terminates for every limit of at least 1 |
| `SplitMessages.SplitIsUnique` | src/channels/telegram.ts:158-175 | there is one way to cut a text like that |
| `SplitMessages.ChunksAreTheText` | src/channels/telegram.ts:158-175 | the chunks concatenate to the text, none is longer than the limit, none is empty unless the text is |
| `SplitMessages.FewChunks` | src/channels/telegram.ts:158-175 | every chunk but the last fills half the limit, so the number of chunks is bounded linearly |

## Left out

- Rejections of `executeFn`: a rejected call stays executing forever, so every execution resolves here.
- Wiring of the streaming executor: its module documents how the agent loop could use it; the loop itself uses the
  batches, and both are modelled.
- WsEncode: the payload is the UTF-8 bytes of the text, shorter than 2^53 as every `Buffer` is; UTF-8 itself is not
  modelled. Reading an eight-byte length as a JavaScript number rounds only lengths that no buffer can hold.
- WsDecode: like the code it looks at neither the opcode nor the FIN bit and accepts lengths that are not minimal;
  the caller in src/server.ts, which decodes at most one frame for each data event, is not modelled.
- ChatStream: trimming, JSON parsing and UTF-8 decoding are parameters; a chunk whose processing throws half way is
  not distinguished from malformed text; the callbacks do not throw.
- CallbackAgreesIff: compares the collected argument text, not the parsed JSON, so two different texts with the same
  value count as different.
- ReadsWhatWasAppended: each append is atomic; the order in which unawaited appends reach the file is not modelled.
- DiskKeepsUp: each write reaches the disk when it is begun; writes that fail or overtake each other are not modelled.
- RunIsWellFormed: when one call of a concurrent batch throws, the others go on in the background; what they still
  do is not modelled.
- Cancel: cancels one task; `cancel()` without a task is several such events, one for each context.
- ProcessMessage: in the dual-loop agent, artifacts, the world model, metadata on disk and bus events other than
  orphan announcements are not modelled; message and task identifiers are fresh by assumption.
- LoadPersistedTasks: eviction ages, timestamps, checkpoints and progress of tasks are not modelled; which tasks are
  past the age limit is a parameter.
- BoundedUuidSet with capacity 0, whose write position becomes `NaN`: a capacity of at least 1 is required.
- ExpandPastedTextRefs: identifiers are exact numbers, while `parseInt` rounds those of 2^53 and more.
- SplitMessage: with a limit of 0 the loop of the source does not end; a limit of at least 1 is required.
- TruncateOldestTurns: text content only; for content blocks the source counts array elements instead of characters.
  A history of one message that does not fit comes back doubled, which the model follows but which no run reaches.
- NestingIsBounded: says nothing of which tools a sub-agent has.
- Mentions, memory context, directives, events, usage counts, approvals and permissions of the agent loop.
- `createChild`, which copies the last four messages and can begin with a stray tool result.
- Nested plan mode, the prompt-size bound, the event bus, view stack, artifact store, hook and agent registries,
  token estimates: they add only easy members or no theorem holds.
- The rest of `ref/CC-Source`, and the LLM and HTTP calls, timers, logging, schemas, plugins, shell and file tools.
- Claims the code does not support and that are not theorems: one active task per session (`getActiveForSession`
  looks only at executing and paused tasks), release of every context (the early return after planning keeps one),
  stopping of the inner run by a cancel, arrival of a drained message in the request under way.
