# Go code agent: a verified model

This project models the decision-making core of a terminal coding agent written in Go and proves
what that core promises. The agent keeps a conversation with a language model, runs the tools the
model asks for, plans work on a persistent board of dependent tasks, summarises old conversation
when it grows too long, survives restarts through an append-only log, falls back between model
providers, remembers facts in daily files, and attaches external tool servers. Nothing here runs
the Go program; the model follows its branches, constants and error paths, and `dafny verify
dfyconfig.toml` checks all proofs.

Where the Go code updates state, so does the model: objects are classes, and the loops that build
lists, scan text, search or rewrite in place are methods proved against a function or relation on
values; the properties are lemmas about those. For each main operation there are also lemmas that
say what it does on the fields of its own inputs and results, without the functions it is computed
with: `BoardLaws`, `RepairLaws`, `HistoryLaws`, `MemoryLaws`, `McpLaws`, `ShellLines`, `Transcript`,
and the last sections of `Gateway`, `Permissions` and `Compaction`. A few loops that only collect or count (the next task
ID, the set of completed tasks, the number of dropped tools) are set or recursive expressions. Proofs
that only combine lemmas `hide` the definitions they do not need.

| area | files |
|---|---|
| task board | `Dag.dfy`, `Ids.dfy`, `Board.dfy`, `BoardLaws.dfy`, `BoardProgress.dfy`, `TaskService.dfy` |
| conversation protocol | `Messages.dfy`, `Pairing.dfy`, `PairingFacts.dfy`, `RepairLaws.dfy`, `AnthropicTurns.dfy` |
| log, replay, compaction | `History.dfy`, `HistoryFacts.dfy`, `HistoryLaws.dfy`, `Compaction.dfy`, `CompactionFacts.dfy`, `MicroCompaction.dfy` |
| agent loop | `TurnBudget.dfy`, `AgentRun.dfy`, `AgentLoop.dfy`, `Transcript.dfy` |
| sessions of many turns | `Session.dfy`, `Recovery.dfy` |
| provider gateway | `Gateway.dfy` |
| memory | `MemoryStore.dfy`, `MemoryFacts.dfy`, `MemoryLaws.dfy` |
| tool catalog and MCP servers | `Catalog.dfy`, `McpNames.dfy`, `McpManager.dfy`, `McpLaws.dfy` |
| permissions and shell text | `Glob.dfy`, `Permissions.dfy`, `ShellWords.dfy`, `ShellPipeline.dfy`, `ShellLines.dfy` |
| shared | `Options.dfy`, `Text.dfy` |

The outside world (model replies, tool results, judge verdicts, clocks, tokens counted, summaries,
provider behaviour) enters as arguments: an arbitrary script for a run, an arbitrary oracle for
providers, arbitrary functions for text similarity and letter case. All statements hold for every
choice of these.

## What the code does not do

Some laws one would expect do not hold. Each is proved to fail where it fails, together with the
condition under which it holds.

- Clearing completed tasks (internal/task/service.go:657-675) turns them into deleted tasks but
  keeps their edges, so a dependent that was ready is blocked for good
  (`BoardProgress.ClearingStrandsDependents`, `BoardProgress.ReadyAfterClearing`). Progress holds
  exactly when some pending task is not stranded behind a deleted one (`BoardProgress.ProgressIff`).
- Claiming (internal/task/service.go:529-546) may take a finished task back to work; it is the one
  operation that breaks the transition table (`BoardProgress.StepIsLegalIff`), and create, complete,
  claim is such a run (`BoardProgress.ClaimReopensFinished`).
- The pairing repair can rebuild a list without filling anything in, and the loop then sends the
  old list (internal/agent/runner_loop.go:317). With distinct call IDs the request is answered exactly
  when some call had no result before the next assistant message, or nothing was out of place to begin
  with (`PairingFacts.RequestAnsweredIff`, `PairingFacts.InterruptedBlockIsSentBroken`).
- Trimming a replayed log keeps a dangling block at the very start (internal/history/history.go:326),
  because nothing was kept before it. It delivers answered calls exactly when they were answered to
  begin with or some block behind the ones at the very start is not (`HistoryFacts.TrimmedCoveredIff`,
  `HistoryFacts.LeadingDanglingBlockSurvives`). Replay puts the system message first, so this never
  shows there (`HistoryFacts.ReplayIsCovered`).
- A run does not always hand back a well-paired thread: a wrap-up sent without tools may still be
  answered with calls (internal/agent/runner.go:411-447). That is the only case
  (`AgentRun.EveryRunEndsPairedIff`), and with distinct call IDs the next turn's first request mends it
  (`Recovery.NextTurnRecovers`).
- Dropping consumed nudges is said to be transparent to history (internal/agent/runner_loop.go:135-141),
  but the caller's index of the first unsaved message is not moved along. The index keeps its meaning
  exactly when no dropped nudge stood before it (`AgentRun.DroppingKeepsBoundaryIff`); otherwise the
  next messages are never saved (`AgentRun.DroppedNudgeHidesReply`).
- The line number given to a new memory (internal/memory/store.go:105-111) is wrong as soon as its
  file holds anything but one readable entry to a line, and an empty memory, which the write accepts,
  is such a line (`MemoryFacts.AppendAgreesIff`, `MemoryFacts.EmptyWriteDrifts`,
  `MemoryFacts.NextWriteIsMisplaced`).
- A server name may end in an underscore (internal/mcp/manager.go:100-117). Its qualified tool names
  then parse to another server (`McpNames.ParseGivesBackIff`), and of two connected servers whose names
  differ by that underscore, disconnecting one can take the other's tools
  (`McpManager.DisconnectKeepsInvIff`, `McpManager.DisconnectTakesNeighbours`).
- Splitting a command line at a semicolon is splitting both sides exactly when the left side leaves
  no quote or escape open (`ShellPipeline.SplitsAtSemicolonIff`).

## Model

| member | source | states |
|---|---|---|
| Dag.PathSearch.Dfs | internal/task/service.go:944-957 | one shared visited set is sound: a failed call leaves everything it visited closed under successors and free of the target, a successful one has a walk |
| Dag.HasPath | internal/task/service.go:936-959 | the search answers exactly reflexive-transitive reachability, for every edge list, cyclic ones included |
| Dag.NewEdgeClosesCycle | internal/task/service.go:785-787 | on an acyclic graph a new edge closes a cycle if and only if its head already reaches its tail |
| Dag.AcyclicWithSink | internal/task/service.go:259-276 | edges into a task nothing depends on yet, as creation adds them, cannot close a cycle |
| Ids.NextId | internal/task/service.go:153-164 | a fresh task ID is positive and above every ID on record |
| Ids.SortedIds | internal/task/service.go:203-221 | listings walk exactly the recorded IDs, strictly ascending |
| Board.DependencyEdgesShape | internal/task/service.go:259-274 | exactly the requested dependencies that exist, differ from the new task and share its batch become edges into it |
| Board.NoDependencyIsLost | internal/task/service.go:253-274 | every requested dependency becomes an edge or a warning, never both, and the two add up to the requests |
| Board.AddEdgeRefusesExactlyCycles | internal/task/service.go:747-793 | between distinct tasks of one batch not yet joined, a dependency is refused as cyclic exactly when accepting it would break acyclicity |
| Board.StepKeepsInv | internal/task/service.go:233-815 | every operation keeps IDs positive, edges between existing tasks of one batch, and the graph acyclic |
| Board.RunKeepsInv | internal/task/service.go:233-815 | so does every sequence of operations |
| Board.ReachableBoardsAreDags | internal/task/service.go:233-815 | every board reachable from the empty one is a batch-confined acyclic graph |
| BoardLaws.CreateMeans | internal/task/service.go:233-286 | a created task is new, pending, nobody's and in the named batch; exactly the requested dependencies that exist in its batch become edges into it, each other one is warned about for the right reason, and nothing else changes |
| BoardLaws.UpdateMeans | internal/task/service.go:426-489 | an update takes effect exactly for a known task and an allowed move: deletion removes the task and every edge at it, any other move changes its status alone, and completion announces exactly the ready tasks in ID order |
| BoardLaws.UnknownStatusMeans | internal/task/service.go:426-489 | an update to anything but the four status names is refused and changes nothing |
| BoardLaws.ClaimMeans | internal/task/service.go:529-546 | a claim goes through exactly for a known task that is nobody else's; then the task names the owner and is in progress, and no other task and no edge changes |
| BoardLaws.ClaimIsExclusive | internal/task/service.go:535-540 | after a claim, over every later run that leaves the task on record, a claim by anybody else is answered with the owner's name and changes nothing |
| BoardLaws.AddEdgeMeans | internal/task/service.go:747-793 | a dependency is recorded exactly between two distinct known tasks of one batch, not yet joined and not joined the other way round by any walk; tasks stay as they are |
| BoardLaws.RemoveEdgeMeans | internal/task/service.go:795-815 | every copy of the named edge goes, every other edge stays as often as it was |
| BoardLaws.SealMeans | internal/task/service.go:355-378 | exactly the live tasks of the batch become sealed, in nothing else changed |
| BoardLaws.ClearMeans | internal/task/service.go:657-675 | clearing turns exactly the completed tasks into deleted ones; every edge stays |
| BoardLaws.ResetMeans | internal/task/service.go:678-701 | resetting leaves no task and no edge |
| BoardProgress.FindReady | internal/task/service.go:717-745 | walking backwards from a pending task not stranded behind a deleted one reaches a ready task |
| BoardProgress.ProgressIff | internal/task/service.go:717-745 | with nothing in progress, something is ready if and only if some pending task is not stranded |
| BoardProgress.Progress | internal/task/service.go:717-745 | on every reachable board with a pending task, none in progress and no edge from a deleted task, the ready list is not empty |
| BoardProgress.ReadyAfterClearing | internal/task/service.go:657-675 | after clearing, a pending task is ready if and only if it has no dependency on record |
| BoardProgress.ClearingStrandsDependents | internal/task/service.go:657-675 | a run after which clearing leaves a formerly ready task pending and nothing ready |
| BoardProgress.BatchReadinessIsReadiness | internal/task/service.go:845-883 | readiness against the batch's completed set is readiness against the global one |
| BoardProgress.NextUpAgreesWithReady | internal/task/service.go:845-883 | each batch's next-up list is the ready list cut down to that batch, in order |
| BoardProgress.OwnerIsNeverReplaced | internal/task/service.go:529-546 | no operation hands an owned task to somebody else, whoever recorded the owner |
| BoardProgress.StepKeepsSeal | internal/task/service.go:355-378 | only hard deletion and reset can lose a batch's seal |
| BoardProgress.SealedBatchStaysInactive | internal/task/service.go:313-378 | once the active batch is sealed, no later run without hard deletion or reset makes it active again |
| BoardProgress.StepIsLegalIff | internal/task/service.go:529-546 | an operation moves every surviving task along the transition table if and only if it is not a successful claim of a finished task |
| BoardProgress.ClaimReopensFinished | internal/task/service.go:529-546 | a run from the empty board after which anyone's claim succeeds on a completed task and breaks the table |
| TaskService.Service.CreateForBatch | internal/task/service.go:233-286 | takes exactly the creation step: trimmed subject required, fresh ID, batch default, filtered dependency edges, and a warning for each dependency skipped |
| TaskService.Service.Update | internal/task/service.go:426-489 | takes exactly the update step with its error order; deletion removes the task and all its edges, completion announces the ready tasks |
| TaskService.Service.OnComplete | internal/task/service.go:558-586 | announces exactly what the ready list shows afterwards |
| TaskService.Service.ReadyTasks | internal/task/service.go:717-745 | lists exactly the pending tasks all of whose predecessors are completed, in ID order |
| BoardLaws.ReadyIsAnnounced | internal/task/service.go:717-745 | the ready list holds, by ascending ID, exactly the pending tasks all of whose predecessors stand completed on record |
| TaskService.Service.Claim | internal/task/service.go:529-546 | takes exactly the claim step: unknown task, then somebody else's, then owner and status recorded |
| TaskService.Service.AddEdge | internal/task/service.go:747-793 | takes exactly the add-edge step, refusing in the source's order |
| TaskService.Service.RemoveEdge | internal/task/service.go:795-815 | removes exactly that edge, or reports it missing |
| TaskService.Service.ClearCompleted | internal/task/service.go:657-675 | completed tasks become deleted, edges stay, and the count is that of completed tasks |
| TaskService.Service.Reset | internal/task/service.go:678-701 | leaves the empty board and reports how many tasks there were |
| TaskService.Service.SealBatch | internal/task/service.go:355-378 | seals exactly the live tasks of the batch and counts the unfinished ones |
| TaskService.Service.ActiveBatch | internal/task/service.go:331-351 | the batch of the newest unfinished task in a batch without a sealed member, or none |
| BoardLaws.ActiveBatchMeans | internal/task/service.go:331-351 | it is the batch of the pending or in-progress task of the highest ID among batches without any sealed task, or none if there is no such task |
| TaskService.Service.ProgressSummary | internal/task/service.go:817-883 | per batch with a live task: the counts by status, seal, newest task, completed set and next-up list; done equals total exactly when every live task is completed |
| TaskService.GatheredMeaning | internal/task/service.go:832-861 | what the first pass of the summary gathers means: its completed set is the batch's, its counts add up to the total, and done equals total exactly when all live tasks are completed |
| TaskService.GatheredSealAndNewest | internal/task/service.go:832-850 | a batch is reported sealed exactly when a live member is, and its newest task is its live task of the highest ID |
| TaskService.GatheredCounts | internal/task/service.go:839-850 | each count of a batch is the number of its listed tasks at that status |
| Messages.WellPairedMeans | internal/agent/runner.go:462-469 | the protocol read position by position: answers follow their calls at once and in order, and tool messages stand nowhere else |
| Messages.SplitKeepsPairing | internal/agent/compression.go:460-471 | cutting anywhere but before a tool message leaves two well-paired halves |
| Messages.WithoutKeepsPairing | internal/agent/runner.go:544-572 | dropping user and system messages never separates calls from answers |
| Pairing.PullForward | internal/agent/runner.go:486-511 | the inner scan collects the first result per needed ID and defers everything else, up to the next assistant message |
| Pairing.EnsureToolCallPairing | internal/agent/runner.go:470-536 | returns the rebuilt list and the number of synthetic results when anything changed, else the input and 0 |
| PairingFacts.RepairAnswers | internal/agent/runner.go:470-536 | in the rebuilt list every assistant message with calls is followed at once by one result per call, in call order |
| PairingFacts.RepairConserves | internal/agent/runner.go:470-536 | every message occurs in the rebuilt list as often as in the input and the synthetic errors together |
| PairingFacts.RepairKeepsOrder | internal/agent/runner.go:470-536 | messages other than tool results keep their relative order |
| RepairLaws.EveryCallGetsItsAnswer | internal/agent/runner.go:470-536 | wherever calls stand: in the rebuilt list they are followed at once, in call order, by the first result for each ID before the next assistant message, or by an error naming the tool |
| RepairLaws.RepairStartsAfresh | internal/agent/runner.go:486-511 | what stands behind an assistant message is repaired as if nothing stood before it |
| PairingFacts.ChangedIff | internal/agent/runner.go:476-535 | the repair reports a change if and only if some answer block is incomplete or interrupted |
| PairingFacts.FilledIffMissing | internal/agent/runner.go:512-527 | results are made up if and only if some call has none before the next assistant message |
| PairingFacts.RepairedIsAnsweredAndStable | internal/agent/runner.go:470-536 | what the repair returns is answered, and a second repair changes and fills nothing |
| PairingFacts.RequestAnsweredIff | internal/agent/runner_loop.go:317-328 | the list actually sent is answered if and only if some call has no result before the next assistant message, or every block was answered already |
| PairingFacts.InterruptedBlockIsSentBroken | internal/agent/runner_loop.go:317-328 | one interrupted block with all results present is sent as it was |
| PairingFacts.WellPairedRequest | internal/agent/runner_loop.go:317-328 | a well-paired conversation is sent unchanged, whatever its call IDs |
| AnthropicTurns.BuildAnthropicMessages | internal/gateway/provider/anthropic.go:227-321 | the loop with its in-place merge builds exactly the joined turns and system texts |
| AnthropicTurns.TurnsAlternateAndKeepBlocks | internal/gateway/provider/anthropic.go:246-321 | for every conversation: turns strictly alternate, none is empty, and read in order they carry exactly the messages' blocks in order |
| AnthropicTurns.NextMessageSays | internal/gateway/provider/anthropic.go:227-321 | one more message adds behind everything else exactly what it says: a prompt or reply its text unless blank, a reply its calls, a result what it gave or `(empty)`, a system message its text apart |
| AnthropicTurns.WellPairedBecomesPairedTurns | internal/gateway/provider/anthropic.go:246-321 | from a well-paired conversation, each user turn opens with the results of exactly the calls of the turn before it, in order, and no call is left open |
| History.DropLeadingTools | internal/history/history.go:281-294 | tool messages before the first call are dropped, nothing else |
| History.StripLoop | internal/history/history.go:296-328 | the scan with its flushed index removes exactly the blocks with unanswered calls, unless nothing precedes them |
| History.TrimDanglingToolCalls | internal/history/history.go:280-338 | trimming as a whole, trailing user messages included |
| History.Store.AppendEntry | internal/history/history.go:94-114 | appends exactly the entry and keeps the count of written entries equal to the log |
| History.Store.AppendSystem | internal/history/history.go:131-133 | appends one system entry, which replay skips |
| History.Store.AppendUser | internal/history/history.go:135-137 | appends one user entry |
| History.Store.AppendAssistant | internal/history/history.go:139-145 | appends one assistant entry with its calls |
| History.Store.AppendTool | internal/history/history.go:147-149 | appends one tool entry with the call it answers |
| History.Store.AppendCheckpoint | internal/history/history.go:151-157 | appends one checkpoint covering the log from its first entry |
| History.Store.LoadRuntime | internal/history/history.go:186-249 | replays from the last valid checkpoint behind the system message and trims; the restored count is adjusted for what was trimmed |
| History.FindLastCheckpoint | internal/history/history.go:191-198 | finds the last entry that is a valid checkpoint at its own index, or none |
| HistoryFacts.TrimmedCoveredIff | internal/history/history.go:280-338 | trimming delivers completely answered calls if and only if they were answered before or some block behind the unanswered ones at the very start is not |
| HistoryFacts.CoveredIff | internal/history/history.go:303-323 | completely answered, read position by position: right behind every assistant message with N calls stands a run of tool messages at least N of which answer one of them |
| HistoryFacts.LeadingDanglingBlockSurvives | internal/history/history.go:326-328 | a dangling block at the very start survives trimming |
| HistoryFacts.ReplayIsCovered | internal/history/history.go:186-249 | for any log, every call in the replayed conversation is answered by a run of tool messages right behind it, and the last message is not a user's |
| HistoryLaws.LoadedMeans | internal/history/history.go:186-249 | every replay opens with the system message and, with a checkpoint, a message ending in its summary and an acknowledgement; behind them stand the replayed entries as trimmed, and exactly those count as restored |
| HistoryLaws.AnsweredStays | internal/history/history.go:296-328 | what is completely answered is kept, whatever has to go behind it |
| HistoryLaws.UnansweredGoes | internal/history/history.go:303-323 | a message whose calls the results behind it do not answer in full goes, and they with it |
| HistoryLaws.PlainStays | internal/history/history.go:296-328 | whatever the damage, every message that is neither a call nor a result is kept, in order |
| HistoryLaws.StrayResultsGo | internal/history/history.go:281-294 | ahead of the first calls every result goes, and nothing else |
| HistoryLaws.UnansweredPromptsGo | internal/history/history.go:330-337 | at the end exactly the user messages nobody answered go |
| HistoryLaws.EntryIsReplayed | internal/history/history.go:206-240 | what each kind of entry adds to a replay, and which add nothing |
| HistoryFacts.ReplayInvertsAppending | internal/history/history.go:186-249 | a checkpoint-free log written from a well-paired conversation not ending in a user message comes back whole, with restored equal to its length |
| Compaction.FindCompactionSplit | internal/agent/compression.go:424-458 | returns the last user start in the preferred window, else the last safe cut up to the desired one, else the first safe cut after it, else 0 |
| Compaction.BestSplitIsUnique | internal/agent/compression.go:424-458 | that preference determines the cut |
| Compaction.SplitExists | internal/agent/compression.go:424-471 | a well-paired conversation of two messages or more that starts with a system message and outgrows the kept tail always has a cut |
| Compaction.SafeSplitKeepsPairing | internal/agent/compression.go:460-471 | a safe cut leaves both halves well paired |
| Compaction.Compression.AutoCompact | internal/agent/compression.go:323-409 | either the list becomes the system message, a user message naming the transcript and ending in the summary, a plain acknowledgement and everything from the cut on, the boundary moves with the cut and the log gets one checkpoint covering all but the persisted tail; or nothing changes at all |
| Compaction.CompactionMeans | internal/agent/compression.go:323-409 | the first happens exactly when compaction is wired, there is a cut, the summary is not blank and, with a log, an entry before the kept tail is on disk |
| CompactionFacts.CompactOnKeepsPairing | internal/agent/compression.go:323-409 | whatever compaction decides, a well-paired conversation stays well paired |
| CompactionFacts.CoverageMeetsTail | internal/agent/compression.go:60-71 | coverage and persisted tail add up to what is written |
| CompactionFacts.NewCheckpointCounts | internal/history/history.go:251-258 | the new checkpoint is valid at its own index and is the one replay starts from |
| CompactionFacts.CompactionSurvivesReload | internal/agent/compression.go:323-409 | if the persisted part of the kept tail ends the log, a reload yields the summary pair followed by exactly that tail, up to trailing user messages, and coverage plus tail is the log |
| CompactionFacts.CompactThenReload | internal/agent/compression.go:323-409 | the same for the cut compaction itself chooses: checkpoint valid at the end of the log, coverage plus tail is the log, and replay yields the summary pair and that tail |
| CompactionFacts.StoreCompactThenReload | internal/agent/compression.go:323-409 | the same read off a live store, whose count of written entries is the length of its log |
| CompactionFacts.CompactMovesBoundary | internal/agent/compression.go:395-409 | the boundary a compaction hands back selects from the new messages exactly those not persisted before |
| CompactionFacts.BoundarySelectsUnpersisted | internal/agent/compression.go:49-51 | the remapped boundary selects exactly the messages that were not persisted before |
| MicroCompaction.MicroCompact | internal/agent/compression.go:108-182 | in place and all-or-nothing: every clearable result becomes its placeholder, or the guard leaves everything as it was |
| MicroCompaction.ProtectNewest | internal/agent/compression.go:127-139 | the backward scan protects exactly the newest result of each task-state category |
| MicroCompaction.RewrittenAt | internal/agent/compression.go:175-181 | result by result: a clearable one becomes its placeholder, any other stays |
| MicroCompaction.ClearedIff | internal/agent/compression.go:108-182 | message by message: a result becomes its note exactly when fifteen results or more stand behind it, it is not the newest of its task-state category, and it is longer than 100 bytes and than the note |
| MicroCompaction.UsedIffItSaves | internal/agent/compression.go:168-173 | the rewriting is used if and only if the conversation shrinks by as much as asked for |
| MicroCompaction.NamedAfterLatestCall | internal/agent/compression.go:109-116 | a result is named after the latest call under its ID |
| MicroCompaction.ReclaimedExactly | internal/agent/compression.go:108-182 | total content shrinks by exactly the bytes reported |
| MicroCompaction.KeptVerbatim | internal/agent/compression.go:108-182 | roles, IDs and length stay, and so does every message but an old tool result: one with at least 15 tool messages behind it that is not the newest of its category |
| MicroCompaction.SecondPassClearsNothing | internal/agent/compression.go:108-182 | a second pass finds nothing to clear |
| TurnBudget.TurnState.Before | internal/agent/tool_interceptors.go:65-182 | the before-hooks in order: the first decision other than continue wins, with its reason, counters and nudges |
| TurnBudget.TurnState.RunCall | internal/agent/runner_loop.go:533-661 | one call of a batch, exactly as specified: what is executed, answered, counted and nudged |
| TurnBudget.HooksAdmit | internal/agent/tool_interceptors.go:65-182 | the hooks let a call through if and only if the counters leave room for it |
| TurnBudget.CallKeepsCounts | internal/agent/tool_interceptors.go:65-238 | a call is executed exactly when its arguments are whole, the planning guard does not apply and the counters admit it; the counters go on bounding what was executed |
| TurnBudget.CountedMeansWithinLimits | internal/agent/turn_state.go:33-64 | the counters keep identical calls and delegations to 3 each, lead reads after an exploration to 2, and reads of one path in an explore run to 2 |
| AgentLoop.DropConsumedNudges | internal/agent/runner.go:544-572 | drops exactly the nudges before the last assistant message and says how many |
| AgentLoop.FinalizeWithoutTools | internal/agent/runner.go:411-447 | one last request, its reply or a notice appended, one more round, and an outcome completed by a reply or failed without one |
| AgentLoop.RelieveContext | internal/agent/runner_loop.go:165-230 | compaction at the token-check interval, clearing of old results every six rounds |
| AgentLoop.PrepareRound | internal/agent/runner_loop.go:114-302 | takes exactly the preparation step, with its two ways of ending the run |
| AgentLoop.ExploreBudget | internal/agent/runner_loop.go:329-353 | warns once, refuses a prompt over budget except the first, and counts what it admits |
| AgentLoop.CallModel | internal/agent/runner_loop.go:306-378 | repair, budget and call; the request goes on record as it is sent |
| AgentLoop.HandleTruncation | internal/agent/runner_loop.go:380-401 | calls of a cut-off reply are answered by errors, one each and in order, and never executed |
| AgentLoop.HandleNoToolCalls | internal/agent/runner_loop.go:405-502 | lesson stage once, judge feedback at most twice, else the answer stands |
| AgentLoop.ExecuteToolBatch | internal/agent/runner_loop.go:511-675 | exactly one tool message per call in call order, then the nudges; turn counters as the hooks leave them |
| Transcript.BatchAnswers | internal/agent/runner_loop.go:511-675 | call by call: answered under its own ID by the tool's output if it was executed and otherwise by the reason why not, read off its arguments, the role and the counters before it; recorded as executed in the one case only, with its nudges and counts |
| Transcript.CallTakes | internal/agent/runner_loop.go:533-661 | what each call leaves counted: identical calls, reads of a path, delegations, reads after an exploration, failures |
| Transcript.RoundDelivers | internal/agent/runner_loop.go:306-675 | after a round with calls, the conversation is the request on record, the model's reply as it came, and then the answer to each call in order |
| Transcript.TruncatedRound | internal/agent/runner_loop.go:380-401 | after a reply cut off by the output limit: every call answered by saying so, none executed, and the model told |
| Transcript.PlainRound | internal/agent/runner_loop.go:405-502 | a reply without calls ends the run as its answer, unless lessons are due or the judge sends it back, and then exactly those texts follow it |
| Transcript.WrapUpRound | internal/agent/runner.go:411-447 | a wrapped-up run asks once more, saying why, and ends in the reply or a note that there was none |
| Transcript.QuietRequest | internal/agent/runner_loop.go:114-353 | while nothing is compacted or cleared, a well-paired conversation is sent without the nudges already answered, followed by the plan nudge of the first two rounds, the reflections and an explore run's one warning |
| Transcript.ReliefMeans | internal/agent/runner_loop.go:165-230 | when the conversation is summarised and when old results are cleared, by round number |
| Transcript.ClearingMeans | internal/agent/runner_loop.go:205-230 | old results are cleared all or none, and only when at least 4096 bytes are saved |
| Transcript.OnlyUserMessagesAreConsumed | internal/agent/runner.go:544-572 | dropping consumed nudges leaves everything but user messages, in order |
| AgentLoop.AfterTools | internal/agent/runner_loop.go:678-726 | round count, requested compaction and the end of the lesson stage |
| AgentLoop.Iterate | internal/agent/runner.go:252-292 | one iteration is the composition of its stages |
| AgentLoop.Run | internal/agent/runner.go:215-293 | the loop is the run its rounds make up, for every script; from a well-paired thread it is safe, hands back a well-paired one unless a wrap-up ended it in calls, and reports completion and failure accordingly |
| AgentRun.PrepareKeeps | internal/agent/runner_loop.go:114-302 | preparation keeps a well-paired conversation and all accounts, or ends the run within its bounds |
| AgentRun.CallKeeps | internal/agent/runner_loop.go:306-378 | the request sent is well paired and counted |
| AgentRun.BatchKeeps | internal/agent/runner_loop.go:511-675 | a tool batch closes the open block and keeps the tool budgets |
| AgentRun.RoundKeeps | internal/agent/runner.go:252-292 | every round keeps the run's invariant or ends it within its bounds |
| AgentRun.EveryRunIsSafe | internal/agent/runner.go:215-293 | for every script from a well-paired thread: all requests well paired, at most maxRounds + 4 completed calls, at most 3 batches in the lesson stage, tool budgets kept, explore prompts within budget or the first positive estimate |
| Transcript.SafeInNumbers | internal/agent/turn_state.go:33-64 | what such a run keeps, in numbers: 3 identical calls, 3 delegations, 2 reads after an exploration or of one path, 80000 prompt tokens or the first estimate that counts |
| AgentRun.EveryRunEndsPairedIff | internal/agent/runner.go:215-293 | what a run hands back is well paired if and only if it did not end in a wrap-up answered with calls; completed if and only if the model had the last word, failed if and only if a call failed or the run was cancelled |
| AgentRun.DroppingKeepsBoundaryIff | internal/agent/runner_loop.go:135-153 | dropping nudges keeps the caller's index of the first unsaved message meaning what it did if and only if none stood before it and before the last assistant message |
| AgentRun.DroppedNudgeHidesReply | internal/agent/runner_loop.go:135-153 | three messages before the index, one of them a consumed nudge: the next message is behind the list but not behind the index |
| Session.TurnKeepsPairingIff | internal/repl/turn.go:13-58 | a turn from a well-paired thread runs safely and passes a well-paired thread on if and only if it was not left open |
| Session.SessionIsSafe | internal/repl/turn.go:13-58 | over any number of turns, with inbox notes and injected context: as long as no earlier turn was left open, each starts well paired and runs safely |
| Session.AppendHistoryMessages | internal/repl/history.go:53-67 | saves exactly what the agent said and what its tools answered, in order |
| Session.AnsweredTurnComesBack | internal/repl/turn.go:18-53 | a restart brings an answered turn back as it was said, prompt first, with the right count of restored entries |
| Session.UnansweredTurnIsDropped | internal/history/history.go:330-337 | a prompt saved before a turn that broke off is dropped on restart |
| Session.SessionComesBack | internal/repl/turn.go:18-53 | for any sequence of saved turns without a checkpoint: a restart brings back every prompt, everything said and every tool result in order, less trailing unanswered prompts |
| Recovery.RepairBehindPaired | internal/agent/runner.go:470-536 | a well-paired beginning passes through the repair untouched, whatever stands behind it |
| Recovery.OpenThreadIsMended | internal/agent/runner_loop.go:317-328 | a thread whose last calls nobody answered is sent well paired, whatever was said to the agent since |
| Recovery.OpenThreadRecovers | internal/agent/runner.go:215-293 | a run that gets as far as its first call is as safe on such a thread as on a well-paired one |
| Recovery.NextTurnRecovers | internal/repl/turn.go:13-58 | after a turn left open, the next turn runs safely and passes a well-paired thread on if and only if it was not left open itself |
| Gateway.NextEligibleProvider | internal/gateway/gateway.go:284-319 | the first eligible provider at or after a position, or none exists |
| Gateway.PrepareParamsFor | internal/gateway/gateway.go:71-107 | adapts a request exactly as specified for the provider |
| Gateway.PreparedLeaksNothing | internal/gateway/gateway.go:71-107 | no provider is sent continuation state bound to another endpoint or model, and nothing else changes |
| Gateway.TrackingSink.Receive | internal/gateway/gateway.go:136-157 | text and reasoning are forwarded, the provider's end signal is swallowed, and emitted says whether answer text was shown |
| Gateway.StreamWithRetry | internal/gateway/client.go:434-481 | the attempts at one provider, exactly as specified: which are repeated, how the last one ends, and what has been shown by then |
| Gateway.Stream | internal/gateway/gateway.go:366-397 | the whole call: attempts in order, its conclusion, answer text from the last attempt only, and one end signal exactly after success or shown text |
| Gateway.NextAttemptIff | internal/gateway/client.go:434-481 | another attempt at the same provider follows exactly an attempt that showed no text, whose request goes on, and which timed out or failed with a passing error, with retries left; one at another provider follows only a permanent failure or the last retry |
| Gateway.LastAttemptDecides | internal/gateway/gateway.go:366-397 | what the caller is told, read off the last attempt: its answer, its partial answer with its error, or which kind of silent failure |
| Gateway.MadeAsAsked | internal/gateway/gateway.go:71-107 | every attempt is at a provider that can serve the request and asks what was asked, less reasoning state not bound to that endpoint and model |
| Gateway.SignalsReachUser | internal/gateway/gateway.go:136-157 | signal by signal: text and reasoning reach the user as they came, a provider's end does not |
| Gateway.SuccessIsValid | internal/gateway/gateway.go:366-397 | success means the last attempt's own valid answer |
| Gateway.FailureLeavesNothing | internal/gateway/gateway.go:366-397 | silent failure other than cancellation means no eligible provider is left |
| Gateway.AttemptsInOrder | internal/gateway/gateway.go:366-397 | providers are used in chain order and one provider's attempts are consecutive |
| Gateway.AttemptsPerProviderBounded | internal/gateway/client.go:434-481 | no provider is tried more than maxRetries + 1 times |
| Gateway.NoEligibleSkipped | internal/gateway/gateway.go:310-319 | by the time a provider is tried, every eligible one before it has been |
| Gateway.OnlyOneEndSignal | internal/gateway/gateway.go:147-153 | no attempt shows the user an end signal of its own |
| MemoryStore.Store.Write | internal/memory/store.go:80-134 | length check, category default, replacement of the first similar entry or append with the counted line |
| MemoryStore.Store.FindDuplicate | internal/memory/store.go:136-158 | the first indexed entry of the category that is similar enough and readable on disk |
| MemoryStore.Store.Delete | internal/memory/store.go:189-246 | removes the most similar entry above the threshold, first of equals, with every error path |
| MemoryLaws.WriteMeans | internal/memory/store.go:80-168 | over 2000 characters refused; the first indexed entry of the category at least 0.7 similar and still in its file is reworded where it stands; exactly without one, today's file and the index get the entry at their end, and no other file changes |
| MemoryLaws.DeleteMeans | internal/memory/store.go:189-246 | nothing without words or without a candidate at least 0.7 similar; otherwise the most similar candidate, the first of equals, is taken out of its file and the index, or found missing on disk |
| MemoryStore.Store.RemoveEntry | internal/memory/store.go:221-238 | the line leaves its file, an entry-less file disappears, and the chunks below move up |
| MemoryStore.Store.LoadAllFromDisk | internal/memory/store.go:308-360 | reads exactly the readable entries with their positions |
| MemoryFacts.AgreesMeans | internal/memory/store.go:308-360 | index and rebuild agree if and only if every chunk is held exactly as often as it is recorded |
| MemoryFacts.AppendAgreesIff | internal/memory/store.go:105-131 | an appended entry is indexed where it stands if and only if it is not empty and its file was absent or held one readable entry to a line |
| MemoryFacts.EmptyWriteDrifts | internal/memory/store.go:80-134 | writing an empty memory into an empty directory puts index and files out of step at once |
| MemoryFacts.NextWriteIsMisplaced | internal/memory/store.go:105-131 | after a reload the next memory of that day is indexed one line above where it stands |
| MemoryFacts.ReplaceAgreesIff | internal/memory/store.go:136-168 | replacing keeps index and files in step if and only if the new text is not empty |
| MemoryFacts.DeleteKeepsAgreement | internal/memory/store.go:216-238 | deleting keeps them in step whatever the files look like |
| MemoryFacts.IndexNeverDrifts | internal/memory/store.go:80-246 | over every run of non-empty writes and deletions on tidy files the index equals a rebuild, and the out-of-sync branch is never taken |
| MemoryFacts.WriteRecords | internal/memory/store.go:80-168 | a write adds exactly its entry or puts it in the place of exactly one similar entry of its category |
| MemoryFacts.DeleteRemovesOne | internal/memory/store.go:189-246 | a deletion removes exactly one occurrence of one matching entry, or nothing |
| Catalog.ToolCatalog.RegisterAll | internal/tool/definition.go:282-302 | replaces the catalog by the definitions in order, later ones of a name winning |
| Catalog.ToolCatalog.Register | internal/tool/definition.go:312-340 | merges definitions into the catalog |
| Catalog.ToolCatalog.UnregisterPrefix | internal/tool/definition.go:343-380 | keeps exactly the names without the prefix and counts the others |
| Catalog.ToolCatalog.Subset | internal/tool/definition.go:385-408 | a new catalog of exactly the wanted tools that exist |
| Catalog.ToolCatalog.Resolve | internal/tool/definition.go:410-414 | finds a handler exactly for the defined names, and it is the definition's own |
| Catalog.ToolCatalog.OrderedNames | internal/tool/definition.go:425-435 | the stored order is always used; the sorted fallback is never needed |
| Catalog.RegisterOnlyExtends | internal/tool/definition.go:304-340 | registering only extends the order, defines exactly the names on either side and leaves all others alone |
| Catalog.LastDefinitionCounts | internal/tool/definition.go:331-338 | of several definitions of one name the last counts |
| Catalog.RestrictedIsConsistent | internal/tool/definition.go:343-408 | what is kept stays with its definition and in order, each name once |
| Catalog.RegisterThenDropRestores | internal/tool/definition.go:312-380 | registering names of their own and dropping them again restores order, definitions and handlers exactly |
| McpNames.ValidateServerConfig | internal/mcp/manager.go:100-117 | accepts exactly the valid configurations |
| McpNames.ParseGivesBackIff | internal/mcp/manager.go:313-320 | parsing a qualified name gives back server and tool if and only if the server's name does not end in an underscore |
| McpNames.CoversIff | internal/mcp/manager.go:537-539 | exactly when one server's prefix covers another's tool |
| McpManager.Manager.StartServer | internal/mcp/manager.go:121-194 | takes exactly the start step with its error order |
| McpLaws.ConnectMeans | internal/mcp/manager.go:121-194 | started exactly with a valid configuration, an open manager and a free name; the catalog then has each tool under its public name, described as that server's and handled under the same name, and everything else as before; a failed start is only remembered |
| McpLaws.StageMeans | internal/mcp/manager.go:59-98 | staged is exactly the last valid configuration of each name that is not connected |
| McpLaws.DisconnectMeans | internal/mcp/manager.go:223-243 | the server is forgotten and exactly the tools under its prefix leave the catalog |
| McpLaws.ShutdownMeans | internal/mcp/manager.go:289-310 | closed for good, and exactly the tools under a connected server's prefix leave the catalog |
| McpManager.Manager.Approve | internal/mcp/manager.go:198-214 | a pending server is started and, on success only, no longer pending |
| McpLaws.ApproveMeans | internal/mcp/manager.go:198-214 | approving starts the pending configuration of that name, which stays pending until that succeeds |
| McpManager.Manager.LoadAndStart | internal/mcp/manager.go:59-98 | stages exactly the valid servers that are not connected |
| McpManager.Manager.Disconnect | internal/mcp/manager.go:223-243 | takes exactly the disconnect step |
| McpManager.Manager.Shutdown | internal/mcp/manager.go:289-310 | closes and removes every server's tools, in whatever order the servers are visited |
| McpManager.Manager.CallTool | internal/mcp/manager.go:313-329 | routes by the parsed name to a connected server, or refuses |
| McpManager.StepKeepsInvIff | internal/mcp/manager.go:59-329 | an operation keeps the catalog equal to the built-in tools and the connected servers' tools if and only if it does not disconnect a server whose prefix covers tools of another connected one |
| McpManager.DisconnectKeepsInvIff | internal/mcp/manager.go:223-243 | disconnecting keeps catalog and servers in step if and only if no other connected server has a tool under the prefix, read off the two names and the tool's first character |
| McpManager.CatalogFollowsServers | internal/mcp/manager.go:59-329 | over every run that never does that: built-in tools first and unchanged, then exactly the tools of the servers connected at the time; a connected server is never listed as failed |
| McpManager.ApartNeverOverreaches | internal/mcp/manager.go:223-243 | it never happens while no two connected servers' names differ by a trailing underscore |
| McpManager.RegisteredToolsAreReachable | internal/mcp/manager.go:543-574 | every tool of a connected server is in the catalog, and its handler reaches that very tool if and only if the server's name does not end in an underscore |
| McpManager.ConnectThenDisconnectRestoresIff | internal/mcp/manager.go:121-243 | connecting a new server and disconnecting it restores the catalog exactly if and only if its prefix covers no tool of a server already connected |
| McpManager.DisconnectTakesNeighbours | internal/mcp/manager.go:223-243 | a run in which both `a` and `a_` are accepted and connected, and disconnecting the first removes the second's tool |
| Glob.WildcardMatch | internal/security/permissions.go:164-193 | the loop with its one restart point accepts exactly what the recursive meaning of the pattern accepts, and terminates |
| Glob.MatchesIff | internal/security/permissions.go:164-193 | a name matches exactly when it can be cut so that every star takes any stretch, every question mark one character and every other character itself |
| Glob.LaterStarSubsumes | internal/security/permissions.go:171-175 | once a later star is reached, the earlier star's restarts are redundant |
| Permissions.NormalizePermissionRules | internal/security/permissions.go:62-86 | maps each rule to its normal form and drops the rest |
| Permissions.RuleIsNormalized | internal/security/permissions.go:62-86 | a rule is kept under `allow`, `confirm` (also `ask`) or `block` (also `deny`), as its level says or, where that is blank, its action; any other rule, and one about nothing, is dropped |
| Permissions.NormalizingTwiceIsOnce | internal/security/permissions.go:62-86 | normalised rules carry one of three levels, and normalising again changes nothing |
| Permissions.PermissionToolMatches | internal/security/permissions.go:103-122 | which rules speak about a tool, exactly as specified |
| Permissions.PermissionArgsMatch | internal/security/permissions.go:124-144 | which rules accept the arguments |
| Permissions.Match | internal/security/permissions.go:90-101 | the first rule that applies decides |
| Permissions.NamedRule | internal/security/permissions.go:103-144 | a rule naming one tool answers exactly for that name in any case, and with a pattern only for arguments it accepts |
| Permissions.GlobRule | internal/security/permissions.go:103-144 | a rule with a glob for its tool answers exactly for the names the glob matches; a lone star matches all |
| Permissions.PatternRule | internal/security/permissions.go:113-144 | a rule with only a pattern: one word is a glob over tool names, several are one tool's name and what its arguments must look like |
| Permissions.AcceptsArgsIff | internal/security/permissions.go:124-144 | arguments are accepted exactly by an empty or starred remainder, a glob match, or containing the pattern less one star at its end in any case |
| Permissions.FirstAnswerCounts | internal/security/permissions.go:90-101 | a list answers what its first rule answers by itself, or else what the others answer |
| Permissions.OtherToolsDoNotDecide | internal/security/permissions.go:90-122 | rules that all name other tools decide nothing |
| Permissions.LaterRulesNeverOverrule | internal/security/permissions.go:90-101 | appended rules are asked only when none before them applies |
| Permissions.GlobAloneIgnoresArgs | internal/security/permissions.go:113-138 | a lone pattern without a space is a glob over tool names and says nothing about arguments |
| Permissions.CombinedMeansTwoFields | internal/security/permissions.go:117-144 | the combined form means the two-field rule for exactly that tool name |
| ShellWords.TokenizeShellWords | internal/security/classify.go:348-387 | the byte loop computes exactly the scan |
| ShellWords.PrintedWordsAreReadBack | internal/security/classify.go:348-387 | any list of words, each written in pieces bare, escaped or quoted either way and separated by any kind of white space, is read back, less its empty words |
| ShellPipeline.SplitShellPipeline | internal/security/classify.go:284-344 | the byte loop computes exactly the scan |
| ShellLines.LineIsTakenApart | internal/security/classify.go:284-344 | a line put together from commands and operators is split into exactly these commands, in order and trimmed: every operator splits, doubled ones once, and nothing quoted, escaped or behind a redirect does |
| ShellPipeline.SplitsAtSeparator | internal/security/classify.go:284-344 | at a semicolon or line break, the segments are those of the left side and then those of the right, if the left leaves nothing open |
| ShellPipeline.SplitsAtSemicolonIff | internal/security/classify.go:284-344 | at a semicolon this holds if and only if the left side leaves nothing open |

## Left out

- Locks and interleavings: every operation is one atomic step, including task creation, which
  releases its lock midway (internal/task/service.go:252).
- Disk failures, file permissions and JSON: writes succeed; log lines all parse, so the count of
  written entries is the length of the log; a memory line is blank, unreadable or an entry.
- Timestamps, TTL expiry, random IDs, token estimates, time-outs and back-off delays: they are
  arguments or do not appear.
- Strings are lists of characters; byte lengths, UTF-8 decoding and letter case are not modelled,
  and the white space that trimming removes is judged character by character.
- Wording of nudges, limits, refusals and tool errors: parameters of the run. Only the prefixes by
  which nudges are recognised are fixed.
- `AgentLoop.PrepareRound`: what the planning gate and the reflection engine say is part of the
  script; their own state is not modelled.
- `AgentLoop.HandleNoToolCalls`: the judge's and the lesson writer's own model calls are not
  counted; the lesson writer is taken to be present whenever the profile may use memory.
- `CompactionFacts.CompactMovesBoundary`: boundary facts are stated for one compaction and for one
  dropping of nudges, not for a whole turn, because dropping loses the boundary.
- `AgentLoop.ExecuteToolBatch`: result statuses are success or failure; the list of result records,
  which repeats calls and outputs, snapshots around file changes, the failure streak and the todo
  counters are left out.
- `TurnBudget.TurnState.RunCall`: the failure streak, the planning flags and the result record a call
  leaves behind; they feed the reflection engine and the judge, which the script stands for.
- `Recovery.NextTurnRecovers`: asks for call IDs that are distinct within each message; with repeated
  or empty IDs the repair cannot tell the calls apart. A turn cancelled or out of time before its first
  call leaves the thread open.
- `Session.SessionComesBack`: speaks of sessions no compaction has put a checkpoint into
  (`CompactionFacts.StoreCompactThenReload` is about those) and of messages saved from a boundary that
  cuts before something other than a tool message.
- `HistoryFacts.ReplayInvertsAppending`: speaks of logs whose user messages have text and whose
  results name their call; replay skips the others. Native reasoning is not persisted, in the
  source as here.
- `TaskService.Service.ProgressSummary`: the order of batches by newest task, leaving out finished ones
  that are not the current one, the cap on reported batches and the rendered text.
- `Gateway.Stream`: reasoning and answer text are signals of an arbitrary oracle; throttling is
  whether an attempt could be started. The non-streaming `Call` goes through the same providers in
  the same order without a sink and is not modelled.
- `AnthropicTurns.BuildAnthropicMessages`: the error flag on tool results, which is read off the
  result text, and the JSON of tool arguments.
- `MemoryStore.Store.Write`: files not named by a day, labels of chunks and the rest of a JSON
  entry are left out; similarity is an arbitrary real-valued function.
- `Catalog.ToolCatalog.Register`: the snapshot's version number, and schemas, risk levels and
  effects of definitions.
- `McpManager.Manager.StartServer`: servers start one at a time, so a start refused while another of
  the same name is under way and a manager closed meanwhile do not occur; a registry is attached, and
  the subprocess is an arbitrary outcome.
- `Permissions.Match`: loading the file; letter case is an arbitrary pair of functions.
- Compression of the text to summarise, transcripts, the summary model and its prompt.
- Verdicts on whole shell commands, regular expressions and secret redaction: they rest on regular
  expressions or finite tables.
- Terminal UI, HTTP, SDK types, search ranking, subprocesses, git, configuration and logging.
