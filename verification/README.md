# Verified model of the agent's transcript engine and its protocols

kez is a coding agent in Go. It keeps one message list over many turns with a model provider, executes the
tool calls of each reply, compacts and prunes the list, and speaks several small protocols beside that loop.
This project models those parts in Dafny and proves what they keep.

| file | models |
|---|---|
| `Transcript.dfy`, `Tokens.dfy`, `Text.dfy` | messages, the pairing rule of strict providers, token estimates, strings |
| `AgentLoop.dfy`, `TurnBatch.dfy`, `TurnOutcome.dfy`, `ParallelTools.dfy` | the turn loop, the tool batch of a turn and what it leaves, parallel read-ahead |
| `Guardrails.dfy`, `Posture.dfy`, `Reconnect.dfy` | stop guards, the one-shot escalation, reconnects |
| `Compactor.dfy`, `Compaction.dfy`, `Summarizer.dfy`, `Prune.dfy` | the compaction controller, one compaction, its summarizer, pruning of old tool output |
| `RecentEdits.dfy`, `Carryover.dfy`, `OneLook.dfy`, `CarryChain.dfy`, `PreservedState.dfy`, `Json.dfy`, `Markers.dfy` | the structured state that repeated compactions carry, its JSON block, and how it is found again |
| `AsyncDiagnostics.dfy`, `JsonRpc.dfy`, `Background.dfy`, `TopUp.dfy`, `TopUpOutcome.dfy` | protocols as state machines: background diagnostics, pending calls, kill and exit of background tasks, payment |
| `Fingerprint.dfy`, `Completions.dfy`, `CommandPrefix.dfy` | translations: tool lists to hashed texts, the command tree to a transition table, shell commands to approved prefixes |

Code that updates state is a class with the same fields, or a method with the same loops, whose contract ties it
to a specification function; the lemmas are about those functions. In the four protocols each section under a
lock is one step, steps of different callers interleave in any order, and the lemmas speak of every sequence of
steps. What comes from outside (provider replies, tool results, the clock, cancellation, lost replies, failing
writes, the order in which goroutines finish) is a parameter, so the results hold for all of it.

## What the proofs show about the code

Most promises hold as stated. These hold only under a condition, which is part of the result:

- The preserved state is read back exactly, unless a carried string holds the label of the block; then the next
  compaction reads nothing (`PreservedState.ReadBack`, `PreservedState.LabelInPlanLosesAll`).
- A user message that opens with the summary label is read in place of the summary that compaction wrote
  (`Carryover.SummaryShadowed`).
- One live checkout at a time holds as long as no live session that was paid for is taken for dead. Two replies do
  that: a 4xx, at the resume or in either poll, and at the resume a 2xx with a status that is none of the eight,
  an empty object included (both polls only wait or end on it). Either drops the token, and later runs can then
  open a second checkout exactly when the dropped session had been paid for and is not dead
  (`TopUp.DropOpensSecondExactly`, `TopUp.FirstDropOpensSecondExactly`); `TopUp.ThreeRunsOpenTwo` and
  `TopUp.PollRefusalOpensSecond` are such runs.
- A drained diagnostics block is fresh exactly when its file was not waiting; after a cancellation a stale one can
  be drained (`AsyncDiagnostics.CancellationDrainsStale`).
- A kill that fails is undone exactly when the task still has the marked pid and the write succeeds
  (`Background.RestoredExactly`, `Background.FailedKillIsUndoneExactly`): a pid set meanwhile leaves the task
  killed (`Background.SomeRunLeavesAFailedKill`). An exit that is reported while a kill mark stands is not
  recorded (`Background.ExitRecorded`) and is lost when the kill fails (`Background.SomeRunLosesAnExit`). The
  comment at internal/background/manager.go:361-366 only considers a recorded exit.
- A proposed command prefix, once recorded, makes its command accepted exactly when no additional permissions
  are asked for and its tokens carry no white space at their ends (`CommandPrefix.SessionProposalAccepted`); the
  persistent store has one condition more (`CommandPrefix.StoredProposalAccepted`).

## Model

| member | source | states |
|---|---|---|
| Transcript.ValidIffPaired | internal/agent/loop.go:722-726 | the reader that owes results one by one and the rule said position by position (only assistant messages call tools, n calls are answered at once by n results in order and by id, no other result stands anywhere) accept the same histories |
| Transcript.ValidCut | internal/agent/compaction.go:240-262 | a replayable history cut before a message that is no tool result is two replayable histories |
| Transcript.CallsAreAnswered | internal/agent/loop.go:722-726 | in a replayable history each call of a message is answered at its own distance behind it, and what is still owed in between is the rest of the calls |
| Transcript.AnswersPay | internal/agent/loop.go:3267-3276 | results that answer the owed calls in order pay them off, one id at a time |
| Tokens.ApproxTextTokens | internal/agent/compaction.go:99-110 | the bytes that are not ASCII white space, divided by four and rounded down, so a short text counts nothing |
| Tokens.EstimateTokens | internal/agent/compaction.go:115-129 | the loop over messages and calls computes the sum the specification gives |
| Tokens.EstimateConcat | internal/agent/compaction.go:115-129 | the estimate of two histories in a row is the sum of their estimates |
| Prune.ToolNameForResult | internal/agent/prune.go:106-117 | the backward search finds the name of the newest call with the id of a result |
| Prune.PruneStaleToolOutput | internal/agent/prune.go:46-102 | the pruned messages, or the input when less than the minimum would be reclaimed; the estimate before is the estimate after plus the reclaimed count |
| Prune.CollectCandidates | internal/agent/prune.go:59-83 | the backward loop lists exactly the stale positions, newest first, with what pruning them gains |
| Prune.ReplaceBodies | internal/agent/prune.go:88-101 | rewriting the listed bodies in place yields the pruned history and the exact gain |
| Prune.PruningIsSafe | internal/agent/prune.go:46-102 | length, roles, ids, calls and images stay; the last preserveLast messages stay; every pruned body has 40000 tokens of newer tool output left verbatim behind it |
| Prune.PruningKeepsValid | internal/agent/prune.go:46-102 | a replayable history stays replayable |
| Prune.PlaceholderIsRecognised | internal/agent/prune.go:31-36 | every placeholder that is written is recognised as one, so it is never pruned again |
| Prune.PruningIsIdempotent | internal/agent/prune.go:46-102 | pruning a pruned history changes nothing |
| Prune.PruningIsComplete | internal/agent/prune.go:46-102 | a stale body is rewritten exactly when all stale bodies together reach the 20000-token minimum; below it every one of them stays |
| Prune.PruningIsExact | internal/agent/prune.go:31-117 | a body is replaced exactly when it is a tool result of 200 tokens or more before the suffix, behind 40000 tokens of newer tool output, no placeholder, and all such bodies hold 20000 tokens together; its placeholder carries the tool of the newest earlier call with its id, or "tool", and the tokens it had |
| Summarizer.RequestBound | internal/agent/compaction.go:525-565 | at most 3n - 2 summarizer calls for n messages |
| Summarizer.RequestBoundIsTight | internal/agent/compaction.go:525-565 | for every n a model reaches that bound |
| Summarizer.EverythingIsRead | internal/agent/compaction.go:525-565 | on success the slices that were summarized directly, in order, are the whole input |
| Summarizer.ErrorsSurface | internal/agent/compaction.go:525-565 | a failed summary is an error some call really got, never an invented one |
| Summarizer.KeptTextStays | internal/agent/compaction.go:525-565 | both halves enter the text that joins them: what a model never leaves out of a summary is in the final one, however often the input was halved |
| Summarizer.HalvesJoinInOrder | internal/agent/compaction.go:525-565 | in order: with a model that repeats single messages the summary is the input, paragraph by paragraph |
| Compaction.SafeSuffixBoundary | internal/agent/compaction.go:251-262 | the boundary walks back to the newest assistant message, or to the system head |
| Compaction.CompactMessages | internal/agent/compaction.go:187-238 | the compacted history, the untouched one, or the summarizer error; removed and preserved counts add up |
| Compaction.CompactionShape | internal/agent/compaction.go:187-238 | the system head and at least the last preserveLast messages, or six when none or a negative number is asked for, stay verbatim around one user message followed by an assistant message, and the kept suffix is the shortest such |
| Compaction.NothingToCompact | internal/agent/compaction.go:201-217 | nothing is summarized exactly when no assistant message stands between the system head and the preserved tail |
| Compaction.CompactionKeepsValid | internal/agent/compaction.go:223-231 | no tool call is separated from its result, whatever the summary says |
| Compactor.CompactionState.Calibrate | internal/agent/compaction.go:347-362 | one usage sample, clamped and folded into the ratio by the moving average |
| Compactor.CompactionState.CalibratedTokens | internal/agent/compaction.go:366-371 | the estimate scaled by the ratio, zero meaning one |
| Compactor.CompactionState.MaybeCompact | internal/agent/compaction.go:388-450 | the proactive step on the fields is the specified one, whose outcome the rows below state |
| Compactor.CompactionState.Recover | internal/agent/compaction.go:457-506 | the one-shot reactive step on the fields is the specified one |
| Compactor.ThresholdIsSevenTenths | internal/agent/compaction.go:151-157 | the threshold is seven tenths of the window, rounded down |
| Compactor.PruningSuffices | internal/agent/compaction.go:413-423 | a history over the threshold and grown since the mark that pruning alone gets under the threshold is returned pruned, with its size as the mark, and nobody is paid |
| Compactor.DueIsCompacted | internal/agent/compaction.go:405-449 | otherwise what pruning leaves is summarized: a smaller compaction is the result and its size the mark; one that is not smaller leaves that history with its own size as the mark; a failing summarizer leaves it and the control |
| Compactor.NotDueStays | internal/agent/compaction.go:394-410 | a history under the threshold or not grown since the mark stays, and so does the control |
| Compactor.RecoversWhenItHelps | internal/agent/compaction.go:457-506 | a context limit, the attempt unspent, is retried exactly when a compaction lowers the estimate, with that history and mark, or when the summarizer fails, with that failure |
| Compactor.ClampIsNearest | internal/agent/compaction.go:351-356 | a sample counts as the nearest ratio of the band from 0.5 to 2 |
| Compactor.FirstSample | internal/agent/compaction.go:347-361 | the first sample moves the ratio from one; one without an estimate or a count is ignored |
| Compactor.RatioStaysInBand | internal/agent/compaction.go:347-362 | after any samples the ratio is unset or in [0.5, 2] |
| Compactor.RatioConverges | internal/agent/compaction.go:347-362 | under a constant sample the distance to it shrinks to 0.7 of itself at every step |
| Compactor.NeverGrows | internal/agent/compaction.go:388-450 | the returned history is never larger, calibrated, than the given one |
| Compactor.NoThrash | internal/agent/compaction.go:388-450 | unless the summarizer failed, asking again at once returns the argument, keeps the control and calls no summarizer |
| Compactor.PaysOnlyWhenGrown | internal/agent/compaction.go:425-445 | the summarizer is called only over the threshold and above the low-water mark |
| Compactor.ControllerKeepsValid | internal/agent/compaction.go:388-506 | both paths hand back a replayable history for a replayable one |
| Compactor.ControllerKeepsHead | internal/agent/compaction.go:388-506 | and one that opens with the same system message |
| Compactor.RecoversOnce | internal/agent/compaction.go:457-506 | a retry follows only a strict reduction and a context-limit error, at most once; nothing gives the attempt back |
| Compactor.SettingsStay | internal/agent/compaction.go:388-506 | no call changes the settings, and a disabled controller touches nothing |
| RecentEdits.LastSeenOrder | internal/agent/compaction_preserve.go:161-173 | each path once, at its last occurrence, in order |
| RecentEdits.RecentEditsOf | internal/agent/compaction_preserve.go:114-156 | the last twenty edited paths in last-edited order, each with the last note a result of its edits gave |
| RecentEdits.MergeRecentEdits | internal/agent/compaction_preserve.go:539-565 | older entries not edited again keep their order, fresh ones follow with fresh notes |
| RecentEdits.CapRecentEdits | internal/agent/compaction_preserve.go:569-574 | the newest twenty entries |
| RecentEdits.CapCommutes | internal/agent/compaction_preserve.go:569-574 | capping before a merge gives the same capped merge: what the cap drops could not have survived |
| RecentEdits.CarriedPathsAreExact | internal/agent/compaction_preserve.go:496-499 | through any number of compactions the carried paths and their order are those of one look at everything elided |
| RecentEdits.CarriedEditsAreExact | internal/agent/compaction_preserve.go:496-499 | so are the notes, when the pieces share no call ids and hold the results of their edits |
| RecentEdits.ValidPieceIsNoted | internal/agent/compaction_preserve.go:135-143 | a replayable piece with unique call ids holds a note for every file it edits |
| Json.ValueReads | internal/agent/compaction_preserve.go:606-612 | reading a printed value followed by anything but a digit gives the value and the rest |
| Json.PrintOneLine | internal/agent/compaction_preserve.go:48-52 | the printed form has no line break, whatever the strings hold |
| Markers.PrintContains | internal/agent/compaction_preserve.go:613-617 | a label of plain characters stands in printed JSON exactly when a string of the value holds it |
| Markers.UnreadableBehindMarker | internal/agent/compaction_preserve.go:613-630 | behind a label inside printed JSON a reader stands inside a string literal and can read no complete value |
| PreservedState.StateReads | internal/agent/compaction_preserve.go:417-451 | field by field the written state is the state that is read, with zero values left out |
| PreservedState.EncodedHolds | internal/agent/compaction_preserve.go:589-612 | the encoded state holds the label exactly when a carried string does |
| PreservedState.LabelIsLast | internal/agent/compaction_preserve.go:613-617 | the last label in the summary is that of the block, unless the JSON holds one |
| PreservedState.ReadBack | internal/agent/compaction_preserve.go:589-632 | behind any prose, labels included, parsing gives exactly the formatted state, unless a carried string holds the label, and then the empty state |
| PreservedState.LabelInPlanLosesAll | internal/agent/compaction_preserve.go:613-632 | a plan that quotes the label makes the next compaction read nothing at all |
| Carryover.ExtractLatestPlan | internal/agent/compaction_preserve.go:64-77 | the newest call of the plan tool that has a formatted view |
| Carryover.PlanConcat | internal/agent/compaction_preserve.go:486-492 | a fresh plan replaces the carried one, otherwise the carried one stays: the plan of both stretches together |
| Carryover.LoadedEntries | internal/agent/compaction_preserve.go:219-260 | newest body per name in first-seen order; the loops for skills, tool schemas and project instructions |
| Carryover.MergeSkillEntries | internal/agent/compaction_preserve.go:682-705 | older entries keep their place and take the newer body; other newer entries follow |
| Carryover.OverlaidIsLatest | internal/agent/compaction_preserve.go:682-705 | merging the newest bodies of two stretches gives the newest bodies of both together |
| Carryover.LatestSummaryContent | internal/agent/compaction_preserve.go:669-677 | the newest user message that opens with the summary label |
| Carryover.AppendPreservedState | internal/agent/compaction_preserve.go:466-518 | the summary with the block of the state that the earlier block and the elided middle give |
| Carryover.StepIsDirect | internal/agent/compaction_preserve.go:466-518 | one compaction adds to what was elided before exactly what its own stretch holds, in all six fields |
| Carryover.StateSurvives | internal/agent/compaction_preserve.go:460-518 | for any chain of replayable pieces, each summarized with the summary before it, the newest block reads back as the plan, edits, tools, skills and instructions of one look at all pieces, and the last task snapshot |
| Carryover.SummaryShadowed | internal/agent/compaction_preserve.go:669-677 | a user message that opens with the summary label is read in place of the summary written by compaction |
| Carryover.SummaryHeadsNextMiddle | internal/agent/compaction.go:223-231 | the written summary is the first message the next compaction elides |
| OneLook.LoadsAreFound | internal/agent/compaction_preserve.go:219-400 | in a replayable stretch with ids of its own, a name is carried exactly when a call loads it, with the body of the last result that does, in the order in which names came up: skills by a call with an id and a nonblank result, "(unnamed)" without a name, capped and trimmed; tool schemas by the entries of such results; instructions by their messages |
| OneLook.PlanIsNewest | internal/agent/compaction_preserve.go:64-77 | the plan is that of the newest call of the plan tool that has a formatted view, and none without one |
| OneLook.EditsAreFound | internal/agent/compaction_preserve.go:114-173 | an edited path is carried exactly when fewer than twenty others were edited after its last edit, in the order of last edits |
| OneLook.NoteFound | internal/agent/compaction_preserve.go:135-156 | and with the note of the result of its last edit |
| OneLook.DirectDescribes | internal/agent/compaction_preserve.go:466-518 | one look at a stretch describes it: plan, edits with their notes, schemas, skills and instructions, said of its calls and results by position |
| OneLook.SummaryDescribes | internal/agent/compaction_preserve.go:460-518 | after any chain of compactions the newest block, as the next compaction reads it, describes everything that was elided |
| CarryChain.SummaryDescribesElided | internal/agent/compaction_preserve.go:460-518 | a valid history that grows by valid stretches and is pruned and compacted after each of them, in any way, is the raw history, some tool results faded to placeholders, with one stretch behind the system head replaced by the summary message; the block in that message reads back as what one look at the whole replaced stretch gives and describes its calls and results; in plan, edited paths and instructions it is what the raw stretch gives |
| CarryChain.ChainKeepsValid | internal/agent/compaction.go:187-238 | and after any number of prunings and compactions it can be replayed |
| CarryChain.ProactiveIsRound | internal/agent/compaction.go:388-450 | what the controller does at the top of a turn, whether it prunes, compacts or drops the compaction, is a round of that chain |
| CarryChain.ReactiveIsRound | internal/agent/compaction.go:457-506 | and so is its recovery |
| Guardrails.GuardState.ObserveToolResult | internal/agent/guardrails.go:532-565 | count, signature and hint flag of the tool, with the outcome |
| Guardrails.GuardState.ObserveMutatedFiles | internal/agent/guardrails.go:572-600 | turn counts per file, total rework, and the verdict with the worst file |
| Guardrails.GuardState.ObserveTurn | internal/agent/guardrails.go:607-643 | empty turns in a row, and the stop at the cap |
| Guardrails.RecordIsStreak | internal/agent/guardrails.go:532-565 | after any history the record of a tool is the longest trailing run of its own failures with one signature |
| Guardrails.OutcomeIsStreak | internal/agent/guardrails.go:532-565 | the hint comes exactly at 2 and the stop exactly from 6 on, whatever other tools did in between |
| Guardrails.ReworkIsConserved | internal/agent/guardrails.go:572-600 | total rework plus the number of files is the number of all changes; each count is the number of turns that changed the file |
| Guardrails.StopsExactlyAtTheCaps | internal/agent/guardrails.go:572-600 | the guard stops a turn exactly when a file reaches its fifth turn or all changes exceed the files by eight |
| Guardrails.BoundedUntilStopped | internal/agent/guardrails.go:572-600 | until it stops, each file has at most 4 turns and all changes number at most files + 7 |
| Guardrails.DedupeStrings | internal/agent/loop.go:3280-3291 | each value once, in first-seen order |
| Posture.ProfileController.ObserveToolRan | internal/agent/profile_controller.go:43-58 | the failure and risk trips after a tool ran |
| Posture.ProfileController.ObserveUncertain | internal/agent/profile_controller.go:63-71 | the uncertainty count and its trip |
| Posture.ProfileController.ObserveSelfCorrect | internal/agent/profile_controller.go:76-85 | the verification trip |
| Posture.ProfileController.MaybeEscalate | internal/agent/profile_controller.go:90-101 | fires with an armed trip and only once |
| Posture.TripsMirrorRun | internal/agent/profile_controller.go:43-101 | after any run the flags say whether an escalation fired and whether an armed trigger was met |
| Posture.EscalatesOnce | internal/agent/profile_controller.go:90-101 | a decision escalates exactly when a trigger was met and none escalated before; later decisions never do |
| Reconnect.BackoffFor | internal/agent/reconnect.go:157-170 | half a second, doubled per attempt, eight seconds from the fifth on |
| Reconnect.JitteredBackoff | internal/agent/reconnect.go:175-178 | between the capped backoff and one and a half times it, at most 12 seconds; a roll up to half of it is added as it is |
| Reconnect.StreamWithReconnect | internal/agent/reconnect.go:77-108 | at most five connects, a retry only for a transient error, and the outcome and the moment of the last connect |
| Reconnect.ConnectedIsFirst | internal/agent/reconnect.go:77-150 | the reply is that of the first connect that was not refused with a transient error, neither a context limit nor an image rejection, of a run not cancelled before or during the backoff; or of the fifth |
| ParallelTools.ResourceKeysConflict | internal/agent/parallel_tools.go:100-118 | two key lists conflict exactly when a nonempty key is shared |
| ParallelTools.ExtendParallelRun | internal/agent/parallel_tools.go:126-156 | the longest run of parallel-safe calls without conflicting keys: it cannot be extended |
| ParallelTools.ExecuteParallelReadBatch | internal/agent/parallel_tools.go:162-197 | in whatever order the goroutines finish, each slot holds the result its call has in the same workspace |
| TurnBatch.ExecuteNext | internal/agent/loop.go:687-713 | the next execution, out of a batch or alone, is the one executing now would give |
| TurnBatch.ExecuteToolCalls | internal/agent/loop.go:678-782 | batches leave exactly the transcript, workspace, guard state, posture, loads and stop of one call at a time |
| TurnBatch.ConsumeResult | internal/agent/loop.go:714-781 | one consumed result: message, loads, model request, abort, stop, guard, hint and changed files in the order of the loop |
| TurnBatch.AppendAbortedToolResults | internal/agent/loop.go:3267-3276 | one placeholder per remaining call, by its own id |
| TurnBatch.EveryCallIsAnswered | internal/agent/loop.go:678-782 | however a turn ends, it appended one result per call, in order and by id |
| TurnBatch.TurnKeepsValid | internal/agent/loop.go:678-782 | a replayable history stays replayable through an assistant message and its turn |
| TurnOutcome.TurnIsExact | internal/agent/loop.go:678-782 | a turn runs its calls up to the first that ends it: an abort or the cancellation first, then the stop a result asks for, then the sixth failure in a row of its tool with one signature, earlier turns counted; the hint is about the tool of the first call whose streak is two; changed are the files of the results that are ok; loaded is what any consumed result loads; the model is the first one asked for |
| AgentLoop.HistorySafeToolCalls | internal/agent/loop.go:1009-1037 | only the arguments of calls are replaced |
| AgentLoop.AgentRun.constructor | internal/agent/loop.go:167-178 | a run starts from its system and user message with the requested turn ceiling, twelve without one, or the wider budget of the implement phase, nothing loaded and nothing sent |
| AgentLoop.AgentRun.Recover | internal/agent/loop.go:338-346 | the one compaction for a context limit: history, control, retry and failure |
| AgentLoop.AgentRun.RecoverStreamError | internal/agent/loop.go:425-458 | the outcome, history, control and requests of an error inside a stream: an image rejection ends the run; a context limit is recovered once and reissued |
| AgentLoop.AgentRun.NextReply | internal/agent/loop.go:331-531 | the reply to the current history, or the end, with every request sent, as specified; at most ten connects, five more only with the recovery of the run |
| AgentLoop.AgentRun.Collect | internal/agent/loop.go:459-531 | the same from an opened stream on |
| AgentLoop.AgentRun.RetryStalled | internal/agent/loop.go:493-516 | a timed-out stream is reissued, with the same history, exactly when it had shown and collected no text and the run is not cancelled |
| AgentLoop.AgentRun.ApplyPosture | internal/agent/loop.go:217-232 | triggers, ceiling and gate after the decision |
| AgentLoop.AgentRun.FinishOrContinue | internal/agent/loop.go:562-653 | a reply without calls: empty turns, posture, the one notice that is appended or the end of the run |
| AgentLoop.AgentRun.ToolTurn | internal/agent/loop.go:656-925 | a reply with calls: what one call at a time would leave, then its notices and the posture decision, or the matching end |
| AgentLoop.AgentRun.AfterBatch | internal/agent/loop.go:784-925 | feedback, switch notice, dropped-call notice and reminder behind the last result, the rework counted and the posture reported, or the stall |
| AgentLoop.AgentRun.Verify | internal/agent/loop.go:784-821 | feedback of the verification, the rework count, and the stall exactly when the guard says so |
| AgentLoop.AgentRun.OneTurn | internal/agent/loop.go:268-926 | diagnostics and compaction, one reply, and what follows from it: the end its request came to, the end or notice of a reply without calls, or the tool turn; every history stays replayable |
| AgentLoop.AgentRun.ActOn | internal/agent/loop.go:540-926 | the answer is appended with the ids of its calls, the controller calibrated with its usage, and the reply concluded or its calls run |
| AgentLoop.AgentRun.FinalAnswer | internal/agent/loop.go:972-1006 | the summary request after the last turn; its prompt stays in the history, with the answer, exactly when there is one |
| AgentLoop.AgentRun.OutOfTurns | internal/agent/loop.go:928-947 | behind the last turn a cancelled run ends at once; any other sends its last diagnostics and the summary request |
| AgentLoop.AgentRun.Run | internal/agent/loop.go:268-947 | a run takes turns until one ends it, and then ends with it, or until it has taken all that its ceiling allows; with a ceiling of one or more the first is taken, as specified; every history sent and the one returned can be replayed and opens with the system message; at least one request per turn, at most 10T + 10; the end fits the stop; without compaction the histories only grow |
| AgentLoop.DisposalIsExact | internal/agent/loop.go:562-653 | how a reply without calls is answered: by the notice for a malformed call, the end at the third empty turn, the notice for nothing visible, the verdict or hint of the gate, fresh diagnostics, or the settled end, in this order |
| AgentLoop.DecisionRaises | internal/agent/loop.go:217-232 | a decision that escalates raises the ceiling to that of the policy, never lowers it, and may gate the end of the run; any other changes neither |
| AgentLoop.NoticesInOrder | internal/agent/loop.go:784-925 | the notices behind a batch stand in the order feedback, model switch, dropped calls, hint or reminder, empty ones left out |
| AgentLoop.CleanReply | internal/agent/loop.go:331-531 | a first reply without an error is the reply, with one request, unless the run was cancelled |
| AgentLoop.ImageRejectionEnds | internal/agent/loop.go:334-337 | an image rejection, before or in a stream, ends the run after one request |
| AgentLoop.RefusalRecovers | internal/agent/loop.go:338-358 | any other refusal ends the run with its error, unless the controller recovers: then the second request carries the compacted history |
| AgentLoop.SilentStallIsReissued | internal/agent/loop.go:484-516 | a timeout before any text was forwarded or collected is asked for once more with the same history; stalled again, it is final |
| AgentLoop.ShownErrorIsFinal | internal/agent/loop.go:425-531 | any other error in a stream that is neither a context limit nor an image rejection ends the run after one request |
| AsyncDiagnostics.Diagnostics.EnqueueFiles | internal/agent/async_diagnostics.go:80-101 | the locked section: queue, queued set, dropped results and the worker it starts |
| AsyncDiagnostics.Diagnostics.TakeNext | internal/agent/async_diagnostics.go:106-119 | the section at the head of the worker loop |
| AsyncDiagnostics.Diagnostics.Store | internal/agent/async_diagnostics.go:123-129 | the section behind a check |
| AsyncDiagnostics.Diagnostics.DrainBegin | internal/agent/async_diagnostics.go:148-150 | the first section of a drain: the worker to wait for |
| AsyncDiagnostics.Diagnostics.Consume | internal/agent/async_diagnostics.go:162-177 | the second section, behind the wait: every result once, in the given order; it does not look for a worker |
| AsyncDiagnostics.ApplyKeeps | internal/agent/async_diagnostics.go:65-178 | every section keeps the invariant of the queue, the worker, the checks and the results |
| AsyncDiagnostics.DrainsAreQuiet | internal/agent/async_diagnostics.go:144-163 | in every interleaving, once the wait of a drain is over no worker is left, although the second section never tests it |
| AsyncDiagnostics.DrainedIsFresh | internal/agent/async_diagnostics.go:144-177 | in every interleaving a drained block is of a check begun after its file was last enqueued exactly when the file was not waiting; without cancellation always |
| AsyncDiagnostics.NothingIsForgotten | internal/agent/async_diagnostics.go:80-178 | without cancellation, once no worker is left, every enqueued file was checked after its last enqueue and its block is a result or was drained |
| AsyncDiagnostics.EachCheckIsReportedOnce | internal/agent/async_diagnostics.go:103-178 | in every interleaving a check is reported at most once, and what is reported of a file later is of a later check |
| AsyncDiagnostics.EditedFilesLoseTheirBlocks | internal/agent/async_diagnostics.go:80-101 | an edited file that was not waiting waits behind those that were and loses its undrained block; other files keep theirs |
| AsyncDiagnostics.IdleDrainTakesAll | internal/agent/async_diagnostics.go:144-177 | a drain that found no worker ends in no other way than by handing out every result |
| AsyncDiagnostics.QueueAndWorker | internal/agent/async_diagnostics.go:80-129 | no duplicates, the queue is the queued set, one check at most, and no worker means an empty queue |
| AsyncDiagnostics.CancellationDrainsStale | internal/agent/async_diagnostics.go:103-178 | with cancellation a block of a check begun before the last enqueue can be drained |
| JsonRpc.Conn.BeginCall | internal/acp/jsonrpc.go:215-225 | a fresh id and channel in the table, or a refusal once closed |
| JsonRpc.Conn.EndCall | internal/acp/jsonrpc.go:227-231 | the deferred removal of the id |
| JsonRpc.Conn.Deliver | internal/acp/jsonrpc.go:260-279 | a response goes to the channel of its id, which leaves the table first |
| JsonRpc.Conn.TrySend | internal/acp/jsonrpc.go:272-278 | the non-blocking send to a channel of capacity one |
| JsonRpc.Conn.FailAllPending | internal/acp/jsonrpc.go:281-293 | every channel of the table gets the close error, the others stay |
| JsonRpc.ApplyKeeps | internal/acp/jsonrpc.go:209-293 | every locked section and channel operation keeps the invariant |
| JsonRpc.IdsAreNeverReused | internal/acp/jsonrpc.go:219-221 | in every interleaving ids are positive and distinct |
| JsonRpc.RepliesMatch | internal/acp/jsonrpc.go:260-293 | no send finds a channel full, and what a call received answers its own id or is the close error |
| JsonRpc.ResponseReachesItsCall | internal/acp/jsonrpc.go:233-279 | once the read loop has read the response to a waiting call, then in every interleaving the call receives that payload or gave up before, and as long as it waits it gets it as soon as the loop has sent |
| JsonRpc.OutcomeIsFinal | internal/acp/jsonrpc.go:233-258 | a call gets one outcome and keeps it |
| JsonRpc.ClosingReleasesAll | internal/acp/jsonrpc.go:281-293 | once the close has finished every waiting call has a message |
| JsonRpc.LaterCallsAreRefused | internal/acp/jsonrpc.go:215-219 | once closed, every later call is refused and none draws an id |
| JsonRpc.StrayFramesReachNobody | internal/acp/jsonrpc.go:260-270 | a null or unreadable id, or the number of no open call, changes nothing |
| Background.Manager.RegisterTask | internal/background/manager.go:124-178 | a new running task in memory and on disk exactly for an id of up to 128 allowed characters that is not taken, a kind, no negative pid, a file and a successful write; else nothing changes |
| Background.Manager.SetTaskPid | internal/background/manager.go:180-198 | the pid in both places, or neither |
| Background.Manager.MarkTaskExited | internal/background/manager.go:226-251 | the exit of a running task in both places; any other task stays |
| Background.Manager.KillTarget | internal/background/manager.go:309-323 | the pid of a running task that has one, or an error |
| Background.Manager.IsRunningPid | internal/background/manager.go:325-330 | whether the task still runs with the pid |
| Background.Manager.MarkKilledIfStillRunning | internal/background/manager.go:336-365 | the mark, only for a running task with the pid and a successful write |
| Background.Manager.RestoreRunningAfterFailedKill | internal/background/manager.go:367-382 | the mark taken back, only if it stands with the same pid |
| Background.MemoryIsDisk | internal/background/manager.go:124-382 | after every section of every interleaving, failed writes included, memory and disk agree |
| Background.ExitsStay | internal/background/manager.go:180-382 | a completed or error status, with its code and time, is never overwritten |
| Background.SignalsFollowMarks | internal/background/manager.go:260-294 | every signal was preceded by the mark of its own Kill, made while the task was running with that pid |
| Background.OneSignalEach | internal/background/manager.go:260-294 | a Kill sends one signal at most |
| Background.EndedKillsSignalled | internal/background/manager.go:260-294 | a Kill that reports success, or a process it could not terminate, did send its signal |
| Background.OneKillHoldsTheMark | internal/background/manager.go:260-294 | while a Kill holds the mark of a task, from marking to its end, no other Kill does |
| Background.ApplyKeeps | internal/background/manager.go:124-382 | every section keeps the invariant: one Kill at most holds the mark of a task |
| Background.SuccessStaysKilled | internal/background/manager.go:260-294 | a Kill that succeeded stays so, and its task stays killed in memory and on disk, whatever comes later |
| Background.ExitRecorded | internal/background/manager.go:226-251 | an exit is recorded exactly when the task is running and the write succeeds |
| Background.RestoredExactly | internal/background/manager.go:367-382 | the last section of a failed kill puts the task back to running exactly when the task still has the marked pid and the write succeeds, and otherwise leaves it killed |
| Background.FailedKillIsUndoneExactly | internal/background/manager.go:284-293 | in every interleaving a Kill that could not terminate its process put the task back exactly when, at the one moment it tried, the task had the pid it had marked and signalled and the write succeeded |
| Background.ExitLostUnderMark | internal/background/manager.go:238-240 | an exit reported under a mark is lost when the kill then fails: the task reads running |
| Background.NewPidBlocksRestore | internal/background/manager.go:370-373 | a pid set under a mark makes the failed kill leave the task killed |
| Background.SomeRunLosesAnExit | internal/background/manager.go:238-240 | a run from an empty manager that ends with the task running although its exit was reported |
| Background.SomeRunLeavesAFailedKill | internal/background/manager.go:370-373 | a run from an empty manager that ends with the task killed although its only kill failed |
| TopUp.Client.ResolveTopupSession | internal/aimlapi/stream.go:158-189 | where a run enters, status by status, and when the token is dropped |
| TopUp.Client.ResolveByKeySession | internal/aimlapi/stream.go:308-335 | the same for the flow by key |
| TopUp.Client.PollUntilPaid | internal/aimlapi/topup.go:77-117 | the poll loop against its specification, with every way out |
| TopUp.Client.PollUntilExchangeSettled | internal/aimlapi/topup.go:128-160 | the poll loop that follows a claimed exchange |
| TopUp.Client.StreamTopUp | internal/aimlapi/stream.go:63-143 | the phases of a run in order: resolve, pay, poll, exchange |
| TopUp.Client.StreamTopUpByKey | internal/aimlapi/stream.go:248-302 | the same without an exchange |
| TopUpOutcome.RunIsExact | internal/aimlapi/stream.go:63-189 | what a run sends and sees, in order: its first sight; then Pay exactly when that asks for it; polls; Exchange last, exactly when it was asked for and the session was seen paid; and the token it holds afterwards |
| TopUpOutcome.RunSucceedsExactly | internal/aimlapi/stream.go:63-143 | a run succeeds exactly when it saw its session paid or exchanging or, by key, exchanged at its start, and, if it is to exchange it, sent an Exchange last that was answered |
| TopUpOutcome.UnpaidRunWaits | internal/aimlapi/topup.go:77-117 | a run that has to be paid for and never sees it paid gave up no earlier than it had to: its Pay was not answered, or it polled as often as its patience allows, or its last poll was stopped, refused, or saw the session neither pending nor paid |
| TopUp.RunKeeps | internal/aimlapi/stream.go:63-189 | a run keeps the safety of the money and the order of the requests, wherever it is cut off |
| TopUp.OneCheckoutAtATime | internal/aimlapi/stream.go:145-189 | over any runs with lost replies, crashes and retries, as long as no 4xx, and no unknown status at a resume, was about a live session that a Pay was sent for, no two live sessions have a checkout opened |
| TopUp.RequestsAreOrderly | internal/aimlapi/stream.go:77-143 | Pay directly follows the creation of its session or the sight of it pending authorization; Exchange directly follows the sight of it paid, ends its run, and never comes after exchanging or exchanged was seen; a 4xx about a session, or an unknown status at its resume, ends its run too |
| TopUp.DropOpensSecondExactly | internal/aimlapi/topup.go:77-160 | a run in which a request, in either poll or at the resume, gets a 4xx, or in which the resume gets a status that is none of the eight, ends with the token dropped; later runs can then open two checkouts, with nothing of that kind happening again, exactly when the dropped session had been paid for and is not dead |
| TopUp.FirstDropOpensSecondExactly | internal/aimlapi/stream.go:145-189 | the same over all runs from the start, up to the first live session that was paid for and dropped so; a run that ends in any other way wrongs nobody |
| TopUp.ResumeOpensSecond | internal/aimlapi/stream.go:167-188 | a 4xx, such as a rate limit, or an unknown status at the resume of an open checkout drops the token, and the next run opens a second checkout beside it |
| TopUp.FirstRunHolds | internal/aimlapi/stream.go:77-94 | the first run reaches such a state: its Pay is answered and it times out |
| TopUp.ThreeRunsOpenTwo | internal/aimlapi/stream.go:185-187 | three runs from the start, the second of which meets an unknown status at its resume, open two checkouts |
| TopUp.PollRefusalOpensSecond | internal/aimlapi/topup.go:90-93 | two runs from the start: the first poll of the first gets a 4xx, and the second opens a second checkout |
| Fingerprint.WriteLengthPrefixed | internal/agent/prompt_fingerprint.go:71-74 | the decimal byte length, a colon and the bytes are appended |
| Fingerprint.ToolSubstrings | internal/agent/prompt_fingerprint.go:53-69 | the two texts encode names with descriptions and names with schemas, in emitted order |
| Fingerprint.DecodeIsExact | internal/agent/prompt_fingerprint.go:53-74 | a text decodes as a list exactly when it encodes that list |
| Fingerprint.TextsIdentifyTools | internal/agent/prompt_fingerprint.go:49-74 | each text changes exactly with the part it stands for, and the pair identifies the ordered tool list |
| Fingerprint.CompletePrefixIdentifies | internal/agent/prompt_fingerprint.go:200-222 | barring a hash collision on the four pairs of texts, the complete fingerprint is equal exactly for equal prompts and tool lists |
| Completions.UniqueStrings | internal/cli/completions.go:205-216 | each nonempty value once, in order |
| Completions.Flattener.Visit | internal/cli/completions.go:174-199 | the recursion appends the contexts of a node and of everything below it |
| Completions.AllTransitions | internal/cli/completions.go:218-226 | the union of all transition tables, later ones winning |
| Completions.CompleteAfter | internal/cli/completions.go:274-308 | the generated loop over the tokens and the lookup of the candidates |
| Completions.JoinInjective | internal/cli/completions.go:182-183 | a path determines the names it was joined from |
| Completions.KeyInjective | internal/cli/completions.go:182-183 | a table key determines its context and its token, whatever the token |
| Completions.TableIsTree | internal/cli/completions.go:171-226 | from the context of a node a token leads to the child it names, and nowhere if it names none |
| Completions.WalksAgree | internal/cli/completions.go:274-295 | for any tokens the walk over the table stays at the path of the node the tree walk is at |
| Completions.CompletionsAgree | internal/cli/completions.go:171-308 | for every well-named tree, any order of its contexts and any tokens, the table offers exactly the candidates of the node the tree walk reaches |
| Completions.CandidatesAreExact | internal/cli/completions.go:174-216 | the candidates of a node are its flags and the names of its children, none empty, none twice, the flags first |
| Completions.TargetsAreContexts | internal/cli/completions.go:171-203 | every transition target is the path of a context |
| CommandPrefix.LiteralCallTokens | internal/agent/command_prefix.go:463-479 | the tokens of a call of bare words, or none |
| CommandPrefix.CollectSafe | internal/agent/command_prefix.go:435-461 | the collector appends the segments of a statement in order, or rejects it |
| CommandPrefix.SafeShellCommandSegments | internal/agent/command_prefix.go:414-433 | all segments of a parsed command, or none |
| CommandPrefix.StrictIsTolerant | internal/agent/command_prefix.go:198-290 | the strict reading accepts exactly the commands of bare words the tolerant one accepts, with the same segments |
| CommandPrefix.ReadingsAreExact | internal/agent/command_prefix.go:198-290 | a command is read exactly when it parses, is not empty, and consists of commands without assignments, redirection or negation, of words without expansion (strictly: of one literal without globs), combined by and, or and pipe; the segments are the words of those commands, in order and without quotes |
| CommandPrefix.SafeRequestedPrefix | internal/agent/command_prefix.go:390-412 | a requested prefix is safe exactly when it is valid, begins a segment, and every other segment begins with it or is safe |
| CommandPrefix.ProposedCommandPrefix | internal/agent/command_prefix.go:13-62 | the requested prefix if it is safe, else the only unsafe segment or the first of safe ones |
| CommandPrefix.RuleIsProposed | internal/agent/command_prefix.go:355-412 | a prefix_rule is proposed, trimmed, exactly when it lists tokens without a blank one that could be approved, begins a segment, and every other segment begins with it or is safe |
| CommandPrefix.PlainIsProposed | internal/agent/command_prefix.go:33-62 | without one, the segment that could be approved is proposed when all others are safe and it is unsafe or the first |
| CommandPrefix.MatchCommandPrefix | internal/agent/command_prefix.go:66-109 | accepted exactly when no additional permissions are asked for, every segment is granted or safe, and one is granted; with the grant of the first granted segment |
| CommandPrefix.GrantIsExact | internal/sandbox/grants.go:237-258 | the grant of a segment is the first stored prefix of it, if it could be approved itself, or else the first of the session |
| CommandPrefix.RecordedOnce | internal/sandbox/command_prefix.go:31-44 | recording a prefix that could be approved adds its trimmed form, once; any other changes nothing |
| CommandPrefix.ProposalCovers | internal/agent/command_prefix.go:33-48 | a proposed prefix begins a segment, and every other segment begins with it or is safe |
| CommandPrefix.SessionProposalAccepted | internal/sandbox/command_prefix.go:31-59 | recorded for the session, a proposal makes its command accepted exactly when no additional permissions are asked for and its tokens are trimmed |
| CommandPrefix.StoredProposalAccepted | internal/sandbox/grants.go:237-258 | recorded in the store, exactly when besides the segments that need it could be approved themselves |
| CommandPrefix.PlainProposalAccepted | internal/agent/command_prefix.go:13-109 | without a prefix_rule a trimmed proposal is accepted from either store |
| CommandPrefix.MoreGrantsAcceptMore | internal/agent/command_prefix.go:66-109 | further grants never take an acceptance away |
| CommandPrefix.EscapedSpaceIsNotAccepted | internal/sandbox/command_prefix.go:73-86 | a command with an escaped space at the end of a word before its last one is proposed, recorded without the space, and not accepted |

## Left out

- Compactor.CompactionState.Calibrate: the ratio is a real number, so the rounding of 64-bit floats is not modelled; the threshold likewise.
- Compactor.CompactionState.CalibratedTokens: the product with the ratio is exact, for the same reason.
- Json.ValueReads: the reader covers the JSON the writer produces (objects, arrays, strings, non-negative integers); white space between tokens, other literals, surrogate escapes and field names that differ in case are not read.
- PreservedState.ReadBack: strings are sequences of Unicode characters; the replacement of invalid UTF-8 by the encoder is not modelled.
- Carryover.LoadedEntries: the readers of a plan, a skill name, a schema listing, an instruction block and the byte caps are parameters; their text formats are not modelled.
- CarryChain.SummaryDescribesElided: skills, tool schemas and notes of edits are those of the bodies as pruning left them when they were elided.
- RecentEdits.CarriedEditsAreExact: the note of an edit is what its result said when the piece was elided; a body that pruning had replaced gives the note of the placeholder.
- AgentLoop.AgentRun.Run: hooks, tracing, callbacks, thinking blocks, reasoning effort, the exposed tool list and the wording of notices are not modelled; error texts appear only through the predicates the loop applies to them.
- AgentLoop.AgentRun.Verify: the result of the self-correction is a parameter; its own attempt budget is not modelled.
- TurnBatch.ExecuteToolCalls: executing one call, with permissions and sandbox, is a parameter; assumed is that a result carries the id of its call and that parallel-safe calls leave the workspace unchanged.
- Reconnect.StreamWithReconnect: sleeping is not modelled, only the number of connects and the size of each backoff.
- AsyncDiagnostics.Diagnostics.Consume: the sorted order of the paths is a parameter, and the text of the nudge is not modelled; a worker closes its channel in the step in which it leaves, and the end of a wait by time or cancellation is one step that may happen at any moment.
- JsonRpc.Conn.BeginCall: ids are unbounded integers, so the wrap-around of a 64-bit counter is not modelled; framing, handlers and the write of a request are not modelled, only that it may fail.
- Background.Manager.RegisterTask: output files and directories are a flag that says whether they could be made; loading tasks at the start and UpdateStatus, which allows any transition, are not modelled.
- TopUp.OneCheckoutAtATime: amounts, payment ids and checkout addresses are not modelled, nor a reply that leaves out or changes the session token; a caller that changes the amount starts a new intent.
- Completions.CompletionsAgree: the sort of the contexts is any order; the quoting of each shell and the case-insensitive switch of PowerShell are not modelled, and that the shipped tree is well named is not proved.
- CommandPrefix.MatchCommandPrefix: the shell parser and the lists of safe commands and unsafe prefixes are parameters; grants are those of the tool of the call.
- Fingerprint.ToolSubstrings: the rendering of a schema is a parameter, and the hash is any function.
- Cron schedules, provider HTTP and streaming, prompt assembly, ACP handlers, command-line parsing, evaluation, authentication and release commands: not modelled.
