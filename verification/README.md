# Verified model of the MeetYou agent runtime

MeetYou is an agent runtime: a core that keeps one chat history per session, lets a model call tools in it,
lets a person stop, steer, repeat or take back a reply, and keeps what is sent to the model provider within
the provider's rules and limits. This project models the parts of that core whose behaviour is hard to see
from the code and proves what they promise. `dafny verify dfyconfig.toml` checks all of it.

| file | what it models |
|---|---|
| `Messages.dfy`, `Text.dfy`, `Subsequence.dfy` | the chat message, its call ids, its token estimate; trimming of text; elements of a list in their places |
| `ToolHistory.dfy` | the one-pass sanitizer of the tool protocol, against a block-wise and an index-wise specification |
| `ToolCollapse.dfy` | the collapser of answered tool chains, and sanitizer and collapser together |
| `ToolScheduler.dfy`, `ToolTrace.dfy` | the greedy scheduler of parallel tool calls, and its runs in time |
| `ToolRound.dfy`, `PlannedRounds.dfy` | one tool round of a turn, whole or stopped, what the sanitizer makes of it, and of the rounds in a context plan |
| `ReplyState.dfy`, `ReplyControl.dfy`, `ReplyRuns.dfy` | reply control: its steps as functions, the session object that carries them out in place, and whole runs |
| `ReplyFailures.dfy`, `ReplyCommands.dfy`, `ReplyRequests.dfy` | what a failed turn leaves in the history, what becomes of an accepted command, and what comes of a request in the end |
| `Selection.dfy`, `LengthPolicy.dfy`, `HistoryTrim.dfy`, `ContextPlan.dfy`, `PlanContents.dfy` | removal in a stable order, the token budgets, the trim of the history, the selection loop of the context plan, and what a plan contains |
| `EventBus.dfy` | the table of requests that wait for a person |
| `SessionActor.dfy`, `SessionRuntime.dfy` | the per-session actor and the runtime over all sessions |
| `InboundCache.dfy` | the bounded idempotency cache of inbound messages |
| `SseReader.dfy` | the reader of server-sent events |

Conventions. An id that is missing or blank is `NoId` or `None` where a message or a policy carries it, and
the empty string where the code itself compares with it. Ratios are hundredths, and a text length divided by
1.8 is `length * 10 / 18`. Code between two awaits is one atomic step; what other code cannot be seen to do
(a tool's result, a provider's JSON, the wording of a summary) is an arbitrary parameter. Generated ids are
new: a run never uses one twice.

## Main results

- **Sanitizer.** The one-pass sanitizer keeps exactly what an index-wise definition keeps: a tool-call message
  survives iff its ids are pairwise distinct and the tool messages right after it cover them all, with the
  first result per id; everything else that is no tool message survives in order
  (`SanitizeToolMessageHistory`, `SanitizedIsKept`). Sanitizing and collapsing any history leaves at most one
  live chain, complete and at the very end (`PreparedShape`), and doing both again changes nothing
  (`PreparedIdempotent`).
- **Scheduler.** The batching loop runs the greedy rounds (`ExecuteVisibleToolCalls`), no split of the calls
  into consecutive admissible batches, defined on the policies' own fields (`AdmissibleIff`), has fewer
  (`GreedyIsOptimal`), and in every interleaving each call runs
  once, order-requiring calls are barriers, and caps and resource keys hold at every moment (`ToolTrace`).
- **Tool round.** After any history the sanitizer is the identity on a whole round iff the round's ids are
  present and distinct (`WholeRoundSurvivesIff`); a stopped round disappears without a trace
  (`StoppedRoundVanishes`). Whatever a context plan drops, sanitizing it leaves the current turn's rounds as they
  are iff their ids are present and distinct (`PlanKeepsCurrentTurnIff`).
- **Reply control.** In every run at all, the checkpoints in use are live, so ending a turn never finds its
  checkpoint missing (`FinalizeNeverMissing`). In every run that does not rewrite the history, starts each turn
  from the history's real length and discards nothing below a live checkpoint, every live checkpoint's prefix is
  the history at its creation (`SessionsAreSound`), and regenerating, guiding and rolling back restore exactly
  that history. A turn that fails, in progress or after it completed, leaves the history as it was exactly under
  the condition of `FailedTurnIff`. An accepted command is carried out exactly if nothing ends its turn and no
  other command is accepted first (`CarriedOutIff`), and then does what was asked: a rollback restores the
  checkpoint it named, regenerating and guiding restore the history before the turn and replay its input
  (`RollbackGoesBack`, `RegenerateGoesBack`, `GuidanceGoesBack`).
- **Budgets.** Trimming removes the shortest sufficient prefix of a stable order by role and age, between the
  preserved head and the last two messages (`TrimHistory`, `TrimIs`), and so does the context plan with its own
  order, which spares unanswered requests and recent talk and keeps every message in its place
  (`BuildContextPlan`, `PlanIs`). What meets its budget leaves room for the
  reserved reply (`TrimLeavesRoomForReply`, `PlanLeavesRoomForReply`).
- **Registries.** The request table and its index stay inverse to each other and outcomes never change
  (`AlwaysInverse`, `DoneForever`); each session's payloads are handled in order across cancellation and
  restart (`EverySessionInOrder`); the bounded cache is an unbounded log cut to its newest 2048 records
  (`RememberInboundEventId`, `FirstIdIsKept`).
- **Stream reader.** The eager reader is the blank-line-delimited reader of a re-segmented stream, always
  (`EagerReadsSegments`), and of the stream itself when no proper prefix of an event parses
  (`EagerAgreesWithDelimited`).

Eight promises hold only under a condition, which is stated and shown to be exact, with the case that breaks it:

- Before a transient turn is marked as failed, all trailing transient messages above the base prompt are
  discarded (`core/brain.py:399-407`, called at `core/app.py:3004-3005`), not only those of the turn. A turn that
  fails in progress, with its length recorded right, leaves the history as it was iff it is not transient, or
  appended a message that is not transient, or the message right before it is not transient or lies within the
  base: `FailedTurnLeavesNoTraceIff`. Otherwise the older message is lost and the turn's checkpoint lies beyond
  the history. A stopped transient turn followed by one that fails does this: `DiscardTooMuchHappens`. Which
  discards keep all checkpoints right: `DiscardFaithfulIff`.
- A turn can also fail after it completed, while its answer is being delivered (`core/app.py:2917-2945`). Then
  marking it as failed finds no turn to undo. If it is not transient its input and answer always stay, though it
  is reported as failed: `CompletedTurnStays`. If it is transient the history is as before iff the message right
  before the turn is not transient or lies within the base and nothing but transient messages above the base came
  after it, whatever the turn itself appended: `FailedTurnLeavesNoTraceIff`, `CompletedDiscardTooMuch`,
  `CompletedDiscardHappens`. `FailWithoutTurn` says the same of a failure before the turn begins.
- The length a turn starts from is recorded before the turn awaits its memory (`core/brain.py:2948`, used at
  `core/brain.py:2959-2964`). If a rollback happens in between, the new checkpoint lies beyond the history, and
  a failed turn leaves its messages behind: `BeginFaithfulIff`, `FailedTurnIff`, `StaleLength`,
  `StaleLengthHappens`.
- Ending a turn as not interrupted while a command waits leaves the command behind: `NoStrayIff`. The
  callers always pass an interruption (`core/app.py:1450`, `core/app.py:2951`).
- A command that was accepted is lost if its turn completes or fails before it is interrupted, and replaced if
  another one is accepted: `CarriedOutIff`, `CommandLost`.
- An answer to a confirmation that names a request but no session completes that request and reports another
  one, when the first waiting confirmation belongs to a session without a name: `ConfirmCompletesIff`,
  `AstrayHappens`. The two callers that ask for a confirmation (`tools/system_tools.py:337`,
  `tools/system_tools.py:433`) put a name for a missing one, so only a direct caller of the bus can meet this
  case, and in all runs in which every request names its session it does not arise: `NamedRunsComplete`.
- A cancellation that reaches the worker can leave queued payloads without one, for good if the actor is being
  stopped at that moment: `AttendedIff`, `StrandedHappens`, `StrandedForever`. A handler that absorbs
  cancellation prevents it only from its first step on; cancelled before that, its payload is never begun:
  `UnbegunIsSkipped`.
- A trim overwrites the history only after its summary has arrived; messages that are appended in between are
  lost: `LateMessagesAreLost`. If the session was given another list in between (`core/brain.py:285`, `431`,
  `2665`), that list stays untrimmed, as the contract of `TrimHistory` says.

## Model

| member | source | states |
|---|---|---|
| `Messages.AssistantCallIds` | adapters/openai_adapter.py:206-223 | the call ids of an assistant message are the present ids of its tool calls, or of its provider items if there are none |
| `Messages.PresentIs` | adapters/openai_adapter.py:206-223 | the present ids of a list are those that are there, each in its place |
| `Messages.CallIdsAre` | adapters/openai_adapter.py:206-223 | the calls a message asks for, and which messages are callers, in terms of the ids in its two lists |
| `Messages.EveryPartCounts` | core/context.py:99-105 | each part of a message adds the estimate of its own text |
| `Messages.TextTokensAre` | core/context.py:84-86 | the estimate of a text is its length divided by 1.8, rounded down |
| `Text.StripIs` | adapters/openai_adapter.py:266 | stripping takes the white space at both ends and nothing else |
| `ToolHistory.SanitizeToolMessageHistory` | adapters/openai_adapter.py:226-278 | the one-pass loop with its held-back assistant returns what the index-wise rule keeps of exactly those entries that are messages, in their order |
| `ToolHistory.MessagesOfAre` | adapters/openai_adapter.py:247-249 | only entries that are not messages are skipped |
| `ToolHistory.SanitizedIsKept` | adapters/openai_adapter.py:226-278 | the group-wise result is, in order, exactly the messages the index-wise rule keeps: callers with distinct and fully answered ids, first results per id, all messages outside the protocol |
| `ToolHistory.BlocksWellFormed` | adapters/openai_adapter.py:226-278 | every surviving chain answers each of its distinct calls exactly once and nothing else |
| `ToolHistory.FirstsProperties` | adapters/openai_adapter.py:267-272 | the kept results answer wanted ids only, one per id, and cover exactly the wanted ids the run answers |
| `ToolHistory.CountDecidesComplete` | adapters/openai_adapter.py:270-271 | comparing the number of answered ids with the number of requested ids decides whether the calls are distinct and all answered |
| `ToolHistory.CompletedGroup` | adapters/openai_adapter.py:240-245 | once all ids are answered the chain is settled, whatever tool messages still follow |
| `ToolHistory.AbandonedGroup` | adapters/openai_adapter.py:233-238 | an unanswered caller vanishes with its results and nothing else |
| `ToolHistory.BlocksAppend` | adapters/openai_adapter.py:226-278 | sanitizing is local: a history that starts a new group is sanitized independently of what precedes it |
| `ToolHistory.SanitizeIdempotent` | adapters/openai_adapter.py:226-278 | sanitizing twice is sanitizing once |
| `ToolCollapse.ActiveTailToolChainStart` | adapters/openai_adapter.py:116-133 | finds the answered chain at the very end of a history, if its caller carries tool calls |
| `ToolCollapse.CollapseResolvedToolHistory` | adapters/openai_adapter.py:136-203 | the nested index loops collapse every resolved chain before the active tail |
| `ToolCollapse.ScanResults` | adapters/openai_adapter.py:163-177 | the inner loop finds the run of wanted results that `SpanIsShortest` is about |
| `ToolCollapse.SpanIsShortest` | adapters/openai_adapter.py:163-177 | the run that the inner loop finds consists of wanted results, completes the calls, and no shorter one does; it finds none only if there is none |
| `ToolCollapse.CollapsedBlockwise` | adapters/openai_adapter.py:136-203 | on a sanitized history collapsing works chain by chain: each becomes one text message, except a live one at the end |
| `ToolCollapse.PreparedBlocks` | adapters/openai_adapter.py:280-285 | sanitizing then collapsing keeps plain messages in order and settles every chain |
| `ToolCollapse.CollapsedAt` | adapters/openai_adapter.py:184-201 | block by block: plain messages and a live last chain stay, every other chain becomes an assistant message without calls, written from its caller and all its results |
| `ToolCollapse.PreparedShape` | adapters/openai_adapter.py:280-285 | the result has no tool message and no caller before its tail, and the tail, if any, is one complete chain at the very end |
| `ToolCollapse.PreparedIdempotent` | adapters/openai_adapter.py:280-285 | sanitizing and collapsing once more, singly or together, changes nothing |
| `ToolScheduler.DefaultLimit` | core/brain.py:258-271 | of the limits from 1 to 8 the one closest to the number read from the configured value, and 3 when that counts as false or is unreadable |
| `ToolScheduler.RouterLimit` | core/brain.py:1412-1420 | the configured number, or the default when it is absent or unreadable, exactly if positive, and none otherwise |
| `ToolScheduler.ResolveLimit` | core/brain.py:2062-2071 | the global limit is always positive: the route's if positive, else the router's, else the default |
| `ToolScheduler.AdmissibleIff` | core/brain.py:2089-2119 | a batch may run as one round iff it is a single call, or is within the limit and each call is safe, needs no order, shares no resource key and has fewer earlier mates of its group than its own limit |
| `ToolScheduler.CanJoinMonotone` | core/brain.py:2090-2119 | a call that can join a batch can join the batch with its first calls dropped |
| `ToolScheduler.GreedySplits` | core/brain.py:2016-2034 | the greedy rounds are consecutive, admissible and together the whole plan |
| `ToolScheduler.RoundIsSlice` | core/brain.py:2016-2034 | the rounds are cut out of the plan one after another |
| `ToolScheduler.FirstRoundIsLongest` | core/brain.py:2016-2034 | the first greedy round is the longest admissible batch at the front |
| `ToolScheduler.GreedyShrinks` | core/brain.py:2016-2034 | dropping calls from the front never makes the greedy scheduler need more rounds |
| `ToolScheduler.GreedyIsOptimal` | core/brain.py:2016-2034 | no split of the calls into consecutive admissible batches has fewer rounds |
| `ToolScheduler.AdmissibleIsCapped` | core/brain.py:2090-2119 | every batch has at most the global limit of calls, repeats no resource key, and each call has fewer group predecessors than its own limit |
| `ToolScheduler.GroupCap` | core/brain.py:2105-2116 | when a group agrees on its limit, no batch holds more of its calls |
| `ToolScheduler.BarrierIsAlone` | core/brain.py:2098-2102 | a call that is not safe or requires order, by its policy, is alone in its round |
| `ToolScheduler.FlushParallelBatch` | core/brain.py:1995-2014 | flushing files the result of every call of the batch under its index and leaves the others alone |
| `ToolScheduler.RunRounds` | core/brain.py:2016-2034 | the loop over the plan runs exactly the greedy rounds and files one result per call |
| `ToolScheduler.ExecuteVisibleToolCalls` | core/brain.py:1928-2054 | one tool message per call, in call order, with that call's own result or dispatch failure; the missing-result branch never contributes |
| `ToolTrace.EveryCallRunsOnce` | core/brain.py:1995-2034 | in every interleaving of the rounds each call starts once and finishes once, and nothing else happens |
| `ToolTrace.Barrier` | core/brain.py:2016-2034 | if one of two calls is unsafe or order-requiring, everything of the earlier one happens before anything of the later one |
| `ToolTrace.InFlightIsCapped` | core/brain.py:2062-2119 | at every moment of every run at most the global limit of calls is in flight |
| `ToolTrace.InFlightShareNothing` | core/brain.py:2090-2119 | at every moment of every run no two calls in flight hold the same resource key |
| `ToolTrace.GroupInFlightIsCapped` | core/brain.py:2105-2116 | at every moment of every run a group whose calls agree on a limit has at most that many calls in flight |
| `ToolRound.Session.RunToolRound` | core/brain.py:3282-3414 | a round appends its caller message, the switch answers and the visible answers, executed up to the limits and noticed beyond them |
| `ToolRound.SelectIs` | core/brain.py:3303-3304 | the switches and the other calls are selected in the order of the calls |
| `ToolRound.RoundMessagesAre` | core/brain.py:3282-3414 | a round adds the caller with all calls, then an answer per switch and per other call in order: all with their own replies and results without a limit, the first n under a limit of n, the rest with the notice |
| `ToolRound.OneAnswerPerCall` | core/brain.py:3282-3414 | whatever the limits, the answers of a whole round are tool messages that answer every call exactly once |
| `ToolRound.WholeRoundSurvivesIff` | core/brain.py:3282-3414 | after any history the sanitizer leaves a whole round unchanged iff its call ids are present and pairwise distinct |
| `ToolRound.StoppedRoundVanishes` | core/brain.py:3282-3414 | a round stopped before its last answer is dropped as a whole, and neither what precedes it nor what follows is affected |
| `PlannedRounds.CurrentTurnSurvivesIff` | adapters/openai_adapter.py:226-278 | after anything at all the sanitizer leaves the current turn, its input, whole rounds and plain messages, unchanged iff the calls of every round are well named |
| `PlannedRounds.PlanKeepsCurrentTurnIff` | core/context.py:555-617 | whatever a plan drops, sanitizing it leaves the current turn unchanged iff the calls of every round are well named |
| `ReplyState.WithinKeeps` | core/brain.py:725-729 | going back keeps exactly the checkpoints within the shortened history |
| `ReplyControl.Session.CreateReplyCheckpoint` | core/brain.py:654-679 | appends the checkpoint and keeps the newest twelve |
| `ReplyControl.Session.RestoreReplyCheckpoint` | core/brain.py:710-730 | finds the newest checkpoint of that id, cuts history and checkpoints, puts the usage back and clears turn and command; a missing one changes nothing |
| `ReplyControl.Session.BeginTurn` | core/brain.py:2958-2977 | the whole state after a turn starts, for any recorded length |
| `ReplyControl.Session.CompleteTurn` | core/brain.py:3262-3280 | the whole state after a turn completes, transient turns cut back |
| `ReplyControl.Session.RequestReplyControl` | core/brain.py:744-861 | the whole state and the reply for every action, with every rejection |
| `ReplyControl.Session.FinalizeReplyControl` | core/brain.py:863-921 | the whole state and the report at the end of a turn, with the missing-checkpoint error |
| `ReplyControl.Session.MarkReplyTurnFailed` | core/brain.py:923-937 | the whole state after a failed turn |
| `ReplyControl.Session.DiscardTrailingTransientMessages` | core/brain.py:399-407 | drops exactly the trailing transient messages above the base and nothing else |
| `ReplyControl.Session.FailTurn` | core/app.py:3004-3026 | the whole state after a turn fails: the discard if it is transient, then the failure |
| `ReplyRuns.AlwaysLive` | core/brain.py:675-679 | in every state of every run, rewrites included, at most twelve checkpoints are kept and those in use are among them |
| `ReplyRuns.FinalizeNeverMissing` | core/brain.py:863-921 | ending a turn never finds its checkpoint missing |
| `ReplyRuns.NoStrayIff` | core/brain.py:863-921 | a step leaves a command without a turn iff it ends the command's turn as not interrupted |
| `ReplyRuns.NeverStray` | core/brain.py:744-921 | as long as turns are only finalized as interrupted, a waiting command has a turn in progress |
| `ReplyRuns.CleanRunsAreSound` | core/brain.py:654-730 | in every run without rewrites, stale lengths and discards below a live checkpoint, each live checkpoint's prefix is the history at its creation, lengths are sorted and within the history, and turns and inputs belong together |
| `ReplyRuns.SessionsAreSound` | core/brain.py:654-730 | the same for every such run of a session from its beginning |
| `ReplyRuns.DiscardFaithfulIff` | core/brain.py:399-407 | discarding trailing transient messages keeps all checkpoints faithful iff it reaches below none of them |
| `ReplyRuns.BackToFaithful` | core/brain.py:710-730 | going back to a live checkpoint restores the history of its creation and disturbs no other live checkpoint |
| `ReplyRuns.MeteredStep` | core/brain.py:654-730 | every checkpoint holds the usage at its creation through every step of such a run |
| `ReplyRuns.BeginFaithfulIff` | core/brain.py:2948-2977 | starting a turn keeps all checkpoints faithful iff the recorded length is the length of the history |
| `ReplyRuns.FailUndoesTurn` | core/brain.py:923-937 | in a sound state marking a turn as failed puts back the history before the turn |
| `ReplyFailures.DiscardThenFailIff` | core/app.py:3004-3026 | in a sound state discarding and then marking as failed puts it back iff the discard does not reach below the turn's beginning; otherwise the history is shorter and the turn's checkpoint lies beyond it |
| `ReplyFailures.FailedTurnIff` | core/app.py:2917-3026 | from any state, with any recorded length and any messages, usage and requests in it, a turn that fails in progress or after completing leaves the history as it was iff a condition on the recorded length, the transient marks and the base holds |
| `ReplyFailures.RewrittenTurnIff` | core/app.py:3004-3026 | with any rewriting of the history while it is in progress, a turn that fails leaves the history as it was iff the earlier messages kept their places and the cut or the discard takes away all others |
| `ReplyFailures.FailedTurnLeavesNoTraceIff` | core/app.py:2917-3026 | the same with the right length. In progress: it is not transient, or appended a message that is not, or the message before it is not or lies within the base. Completed: it is transient, the message before it is not or lies within the base, and only transient messages above the base came after it |
| `ReplyFailures.FailWithoutTurn` | core/app.py:3004-3026 | a failure that finds no turn to undo only discards, and leaves the history as it is iff there is nothing to discard |
| `ReplyFailures.CompletedTurnStays` | core/app.py:2917-3026 | a turn that is not transient and fails after completing keeps everything it appended |
| `ReplyFailures.TransientCompletionIff` | core/brain.py:3262-3280 | a transient turn that completes leaves the history as before iff its recorded length was right |
| `ReplyFailures.CompletedDiscardTooMuch` | core/app.py:2917-3026 | a transient turn that fails after completing takes a transient message before it along, whatever it appended, and leaves its checkpoint beyond the history |
| `ReplyFailures.CompletedDiscardHappens` | core/app.py:2917-3026 | a stopped transient turn followed by a transient one that uses a tool, completes and fails does this |
| `ReplyFailures.DiscardTooMuch` | core/app.py:3004-3026 | a wholly transient turn after a transient message above the base takes that message along when it fails |
| `ReplyFailures.DiscardTooMuchHappens` | core/app.py:2950-3026 | a stopped transient turn followed by a failing one ends with a shorter history and a checkpoint beyond it |
| `ReplyFailures.DuringTurn` | core/brain.py:755-861 | while a turn is in progress requests only wait: turn and checkpoints stay and the history grows by the appended messages only |
| `ReplyCommands.CommandFate` | core/brain.py:863-921 | at the interrupted end of a turn nothing is carried out, replayed or restored if the turn ended before, and else exactly the command accepted last |
| `ReplyCommands.CarriedOutIff` | core/app.py:1430-1455 | an accepted command is carried out at its turn's interrupted end iff no end of the turn and no later accepted command comes first |
| `ReplyCommands.CommandLost` | core/app.py:1430-1455 | a regenerate is accepted, the turn completes, and nothing is replayed |
| `ReplyRequests.AcceptedIff` | core/brain.py:744-861 | a request is accepted iff a turn is in progress that it does not contradict, guidance is not blank and a rollback names a live checkpoint |
| `ReplyRequests.AcceptedWaits` | core/brain.py:775-850 | an accepted request waits with the checkpoint it named, or else the turn's, and with its own guidance, and changes nothing else but the turn's phase |
| `ReplyRequests.MismatchIff` | core/brain.py:759-765 | when a request is refused for its turn or its stream, and that refusals change nothing |
| `ReplyRequests.OtherReplies` | core/brain.py:766-861 | lists are given in order, and nothing is stopped or guided without a turn |
| `ReplyRequests.RollbackGoesBack` | core/brain.py:836-921 | from request to interrupted end, if nothing ends the turn and no other request is accepted: a rollback restores history and usage of the checkpoint it named |
| `ReplyRequests.RegenerateGoesBack` | core/brain.py:805-921 | likewise regenerating restores the history and usage before the turn and replays its input, with the exact condition for the fallback |
| `ReplyRequests.GuidanceGoesBack` | core/brain.py:788-921 | likewise guidance, with the guidance of the request merged in |
| `ReplyRequests.GuidanceText` | core/brain.py:732-742 | the replay's text is the stripped content, the label and the stripped guidance |
| `ReplyRequests.StopKeeps` | core/brain.py:775-921 | likewise a stop keeps the conversation as it stands |
| `ReplyRequests.CompletedTurnCanBeRepeated` | core/brain.py:805-860 | after a turn completed, regenerating replays its input, and it or a rollback to its checkpoint restores history and usage before the turn |
| `ReplyRequests.EndsWithoutCommand` | core/brain.py:863-921 | an end without a command keeps the conversation and reports stopped or completed; a report for another turn changes nothing |
| `ReplyRequests.BeginRecords` | core/brain.py:654-679 | what the start of a turn records, the newest twelve checkpoints being kept |
| `ReplyRuns.FinalizeUndoesTurn` | core/brain.py:873-921 | interrupted: regenerate and guidance restore the history before the turn, rollback that of its checkpoint, stop keeps it |
| `ReplyRuns.RegenerateReplaysInput` | core/brain.py:882-895 | regenerating replays what the turn was asked iff that is not empty or there is no non-empty input to fall back to |
| `ReplyRuns.GuidanceReplaysInput` | core/brain.py:882-893 | guidance replays what the turn was asked with the guidance merged in iff that is not empty or the input to fall back to, if any, adds nothing visible |
| `ReplyRuns.GuidanceKeepsInput` | core/brain.py:732-742 | merging keeps the text before, the guidance after, and every other field and metadata entry but two marks |
| `ReplyRuns.IdleRegenerate` | core/brain.py:805-835 | idle regenerate succeeds iff the last completed turn's checkpoint is live; then the history is as before that turn and its input is replayed; otherwise nothing changes |
| `ReplyRuns.IdleRollback` | core/brain.py:836-860 | idle rollback succeeds iff the checkpoint is live and restores the history of its creation |
| `ReplyFailures.StaleLength` | core/brain.py:2948-2977 | a rollback between recording and use makes a failed turn that is not transient leave its input behind |
| `ReplyFailures.StaleLengthHappens` | core/brain.py:2948-2977 | after any completed turn the conversation is one in which that can happen |
| `LengthPolicy.PolicyIs` | core/context.py:20-148 | for each provider family with its own numbers, the reply gets its share and at least the minimum, and the input the most that is within its share and leaves the reserve |
| `LengthPolicy.UsableIs` | core/context.py:664-665 | the budget of a trim is the largest number within the caller's share and the target |
| `LengthPolicy.TargetFitsIff` | core/context.py:133-148 | for every provider family input target and reserved reply fit the window together iff the window holds the minimum reply and 512 tokens |
| `LengthPolicy.UsableFits` | core/context.py:664-665 | whatever meets the usable budget leaves room for the reserved reply |
| `Selection.FirstLowest` | core/context.py:704 | the chosen index is the first of the lowest priority |
| `Selection.OrderIsStable` | core/context.py:170-181 | listing the candidates level by level is the stable order by priority and age |
| `Selection.ChosenIsNext` | core/context.py:699-705 | repeatedly taking the first of the lowest priority follows the stable order |
| `Selection.TokensConserved` | core/context.py:107-109 | what is left and what was removed add up to the estimate before |
| `Selection.StopsOnce` | core/context.py:699-705 | there is exactly one number of removals that is the least sufficient one |
| `HistoryTrim.Shrink` | core/context.py:699-705 | the removal loop takes out the shortest prefix of the stable order that meets the budget, or all of it, and keeps the rest in order |
| `HistoryTrim.Conversation.TrimHistory` | core/context.py:645-736 | trims as `Shrink` says, keeping the preserved head, overwrites whatever the trimmed list has become when the summary arrives, leaves a list that replaced it alone, and reports budget, counts and estimates |
| `HistoryTrim.TrimIs` | core/context.py:696-719 | on the positions of the history: the preserved messages and the last two stay, and of the others tool messages go first, then other messages with calls, then the assistant's, the user's and all others, the older first, as many as it takes and no more |
| `HistoryTrim.TrimConservesTokens` | core/context.py:696-736 | the estimate before is the estimate after plus that of the removed messages |
| `HistoryTrim.TrimMeetsBudget` | core/context.py:699-705 | the budget is met unless only two messages are left after the head |
| `HistoryTrim.TrimLeavesRoomForReply` | core/context.py:664-736 | for every family and every large enough window, trimmed history and reserved reply fit the window unless trimming bottomed out |
| `HistoryTrim.LateMessagesAreLost` | core/context.py:710-719 | messages appended while the summary is awaited are lost: the written history is what was kept before, complete iff nothing arrived |
| `ContextPlan.PendingToolCallIds` | core/context.py:194-208 | the requested ids that no message answers |
| `ContextPlan.PinnedIndexes` | core/context.py:560-574 | the positions that ask for a pending call, answer one or stand before an answer |
| `ContextPlan.OnlyRequestsPin` | core/context.py:560-574 | no message of a history answers one of its pending calls, so only requests pin |
| `ContextPlan.LookupFindsChosen` | core/context.py:604-606 | looking the chosen message up by equality finds the very one that was chosen |
| `ContextPlan.OlderStep` | core/context.py:598-606 | dropping an older message follows the stable order of the unpinned older messages |
| `ContextPlan.RecentStep` | core/context.py:607-615 | once no older message is left, recent tool traffic is dropped oldest first |
| `ContextPlan.SelectHistory` | core/context.py:593-617 | the loop drops the shortest prefix of its drop order that meets the target, or all of it |
| `ContextPlan.BuildContextPlan` | core/context.py:535-617 | under the length policy in force, the plan is the system part, the layers, the selection and the current turn, the selection being the history without the shortest sufficient prefix of the drop order |
| `PlanContents.PlanIs` | core/context.py:555-617 | on the positions of the history: system messages and selected messages keep their places, unanswered requests and recent talk stay, older messages go by role and age and recent tool traffic by age, as many as it takes and no more, and none if all fits |
| `PlanContents.SideIs` | core/context.py:555-557 | the two sides of a history are its system messages and the others, each in their places |
| `PlanContents.PendingIff` | core/context.py:194-208 | a call is pending iff some message asks for it and none answers it |
| `PlanContents.DropOrderIff` | core/context.py:593-617 | exactly which messages may be dropped |
| `ContextPlan.PlanMeetsTarget` | core/context.py:593-617 | the plan is within its target unless everything that can be dropped was dropped |
| `ContextPlan.PlanLeavesRoomForReply` | core/context.py:535-617 | for every family and every large enough window, plan and reserved reply fit the window unless everything that can be dropped was dropped |
| `ContextPlan.PendingRequestIsKept` | core/context.py:555-617 | every message of the history asking for a call no message has answered is among the messages of the plan |
| `ContextPlan.RecentTalkIsKept` | core/context.py:593-617 | every recent message that is not tool traffic is kept in its place and is among the messages of the plan |
| `ContextPlan.NothingRemovable` | core/context.py:593-617 | when the order is used up, the older messages left ask for pending calls, and if none are left so does all recent tool traffic |
| `EventBus.Bus.FindPendingRequest` | core/event_bus.py:58-67 | the first waiting request of the kind, and of the session if one is named |
| `EventBus.Bus.RegisterPendingRequest` | core/event_bus.py:69-93 | registers, replacing a request that is done, and fails exactly while the session's request waits |
| `EventBus.Bus.ClearPendingRequest` | core/event_bus.py:95-101 | removes the request from the table and its own index entry |
| `EventBus.Bus.GiveUp` | core/event_bus.py:200-207 | a timeout cancels a waiting future and clears the request |
| `EventBus.Bus.ResolvePendingRequest` | core/event_bus.py:103-136 | the whole new state and whether the answer was accepted |
| `EventBus.Bus.ResolveConfirmation` | core/event_bus.py:209-243 | the whole new state and the notice published for a confirmation |
| `EventBus.Bus.SubmitHumanInputResponse` | core/event_bus.py:371-417 | the whole new state and the notice published for a human answer |
| `EventBus.FindIsFirst` | core/event_bus.py:58-67 | the search finds the oldest waiting request of the kind and session, and none only if none waits |
| `EventBus.RegisterIs` | core/event_bus.py:69-93 | a request is refused exactly while another of its session waits, and else waits last in the table in place of its session's old one |
| `EventBus.ClearIs` | core/event_bus.py:95-101 | clearing takes out exactly one request and touches no outcome |
| `EventBus.ExpireIs` | core/event_bus.py:200-207 | a timeout cancels a waiting future and nothing else |
| `EventBus.NoticeNames` | core/event_bus.py:209-243 | a notice names a request of the table by id, session and kind, and carries the answer |
| `EventBus.WaitsInTable` | core/event_bus.py:69-136 | in every run a request stays in the table as long as it waits and is not cleared |
| `EventBus.GivenUpIsFinal` | core/event_bus.py:200-207 | once given up, a request stays cancelled and no answer naming it is accepted |
| `EventBus.AlwaysInverse` | core/event_bus.py:69-101 | in every reachable state table and session index are inverse to each other |
| `EventBus.ReachableInverse` | core/event_bus.py:69-101 | the same from the empty bus |
| `EventBus.OnePerSession` | core/event_bus.py:69-93 | a session has at most one request |
| `EventBus.ConfirmCompletesIff` | core/event_bus.py:209-243 | an accepted confirmation completes the request named in its notice iff it does not go astray, always the one it named itself, and a rejected one completes nothing |
| `EventBus.NamedSessionsNeverAstray` | core/event_bus.py:224-243 | with only named sessions no confirmation goes astray |
| `EventBus.NamedRunsComplete` | core/event_bus.py:209-243 | in every run in which every request names its session, an accepted confirmation completes the request of its notice, and a rejected one nothing |
| `EventBus.AstrayHappens` | core/event_bus.py:224-243 | two waiting confirmations, one without a session name, make one go astray |
| `EventBus.HumanCompletes` | core/event_bus.py:371-417 | an accepted human answer completes exactly the request named in its notice, a rejected one nothing |
| `EventBus.DoneForever` | core/event_bus.py:103-136 | a future that is done keeps its outcome through every run |
| `EventBus.LateAnswersRejected` | core/event_bus.py:123-131 | late and repeated answers that name their request are rejected and change no outcome, whatever happened since |
| `EventBus.UnnamedAnswers` | core/event_bus.py:209-243 | an answer that names no request is accepted iff a request of its kind waits, in its session if it names one, and completes the first of these |
| `EventBus.LateUnnamedAnswers` | core/event_bus.py:123-131 | repeated answers by session or by kind alone leave finished outcomes alone and complete the first request that waits, if any, which is another one |
| `SessionActor.QueueActor.Submit` | core/session_actor.py:28-32 | accepts at the end of the queue with a worker ensured, and refuses iff closed |
| `SessionActor.QueueActor.TakeNext` | core/session_actor.py:65-71 | takes the oldest item; at the stop marker the worker is done with everything accepted, and everything was begun iff nothing was cancelled before it began |
| `SessionActor.QueueActor.StartHandler` | core/session_actor.py:71-72 | the handler takes its first step |
| `SessionActor.QueueActor.CancelCurrent` | core/session_actor.py:50-59 | ends the handler if there is one; one that has not begun is skipped and the cancellation reaches the worker |
| `SessionActor.CancelledIs` | core/session_actor.py:50-59 | after a cancellation no handler is in progress, and the worker survives iff the handler had begun and absorbs it |
| `SessionActor.QueueActor.FinishPass` | core/session_actor.py:72-79 | after a handler the worker goes on, or is gone if the handler let a cancellation through |
| `SessionActor.QueueActor.BeginStop` | core/session_actor.py:37-44 | closes once, and cancels the current handler at every call |
| `SessionActor.QueueActor.FinishStop` | core/session_actor.py:45-48 | ensures a worker and queues the stop marker last |
| `SessionActor.AlwaysSound` | core/session_actor.py:28-79 | in every state of every run payloads done with, in flight and queued are the accepted ones in order, those done with are the begun ones and the skipped ones, and a stop marker is the last item of a closed actor |
| `SessionActor.ClosedAcceptsNothing` | core/session_actor.py:28-32 | once closed an actor accepts nothing more |
| `SessionActor.StopComesAfterAll` | core/session_actor.py:65-70 | when the stop marker is taken the worker is done with everything accepted, and all of it was begun iff nothing was cancelled before it began |
| `SessionActor.MarkerMeansAllBegunIff` | core/session_actor.py:65-70 | in a run that takes the stop marker everything accepted is done with, and all of it was begun iff the run cancelled no handler before its first step |
| `SessionActor.MarkerWithUnbegun` | core/session_actor.py:37-71 | a stop right after a payload is taken leads to the marker with that payload never begun |
| `SessionActor.HandledGrows` | core/session_actor.py:65-79 | what the worker is done with stays so, in the same order |
| `SessionActor.AttendedIff` | core/session_actor.py:50-79 | a step leaves queued items without a worker iff a cancellation reaches the worker with items queued or being queued |
| `SessionActor.EnqueueAttends` | core/session_actor.py:28-32 | the next payload restarts a worker that is gone |
| `SessionActor.RestIff` | core/session_actor.py:65-79 | an actor at rest has an empty queue iff its queue is attended, and then is done with everything, all of it begun iff nothing was skipped |
| `SessionActor.RestMeansAllHandled` | core/session_actor.py:65-79 | with handlers that absorb cancellation and are not cancelled before their first step, an actor rests only when everything accepted is begun and handled |
| `SessionActor.UnbegunIsSkipped` | core/session_actor.py:50-79 | a handler cancelled before its first step is never begun and takes the worker away from the payload behind it |
| `SessionActor.StrandedHappens` | core/session_actor.py:37-48 | a cancelled handler and a stop at the same moment leave a payload and the marker queued for good |
| `SessionActor.StrandedForever` | core/session_actor.py:37-79 | nothing can happen to such an actor any more |
| `SessionRuntime.EverySessionInOrder` | core/session_actor.py:82-97 | in every run of the runtime each session's payloads are its accepted submissions in order, at most one in flight |
| `SessionRuntime.OfIs` | core/session_actor.py:88-97 | a session's submissions are those of the log that name it, in order |
| `SessionRuntime.ShutdownIsFinal` | core/session_actor.py:109-117 | after a shutdown nothing is accepted in any session |
| `SessionRuntime.SessionsAreIndependent` | core/session_actor.py:82-97 | what happens in one session leaves every other alone |
| `InboundCache.Cache.GetRecentInboundEventId` | core/session_manager.py:188-198 | returns what the newest records of the log hold for the key, nothing for a blank message id |
| `InboundCache.Cache.RememberInboundEventId` | core/session_manager.py:200-222 | keeps dictionary and order list in one-to-one correspondence with the newest 2048 records of the log, and returns the id remembered for the key |
| `InboundCache.Cache.PruneInboundEventIds` | core/session_manager.py:60-66 | evicts from the front, from list and dictionary alike, down to the limit |
| `InboundCache.KeysAgreeIff` | core/session_manager.py:45-58 | when two deliveries share a key: same session, same message and same source, a missing source id standing for the default one |
| `InboundCache.FirstIdIsKept` | core/session_manager.py:200-222 | a key returns its first event id through any deliveries until 2048 newer keys are remembered |
| `InboundCache.ThenForgotten` | core/session_manager.py:60-66 | after 2048 newer keys it is forgotten unless remembered anew |
| `InboundCache.RememberingTwice` | core/session_manager.py:212-215 | remembering a key again remembers nothing new |
| `SseReader.IterSsePayloads` | adapters/openai_adapter.py:803-846 | the reader yields exactly the events of the eager reading, and its yields at blank lines and at the end of the stream never happen |
| `SseReader.ClassifyIs` | adapters/openai_adapter.py:817-834 | blank lines, data lines with their stripped text, and ignored lines |
| `SseReader.JoinIs` | adapters/openai_adapter.py:806-807 | the lines of an event are joined by line feeds |
| `SseReader.ParseIs` | adapters/openai_adapter.py:806-815 | when a text is nothing, the end, an event or an error |
| `SseReader.DataIsRead` | adapters/openai_adapter.py:833-841 | a completed event is delivered at once, the end mark ends the reading, and anything else is held back |
| `SseReader.BufferNeverParses` | adapters/openai_adapter.py:833-846 | what the reader holds back never parses |
| `SseReader.NothingAfterEnd` | adapters/openai_adapter.py:839-840 | nothing is read after the end mark |
| `SseReader.EagerReadsSegments` | adapters/openai_adapter.py:803-846 | on every stream the eager reader is the delimited reader of the stream cut at each parsing prefix |
| `SseReader.EagerAgreesWithDelimited` | adapters/openai_adapter.py:803-846 | on streams in which no proper prefix of an event's data lines parses, it delivers what a blank-line-delimited reader delivers and ends the same way |
| `SseReader.SplitEvent` | adapters/openai_adapter.py:833-841 | otherwise an event of two data lines that parse singly becomes two events |

## Left out

- Rounding of floating-point ratios and of the division by 1.8: the model divides exactly and rounds down.
- Entries of `tool_calls` that are not objects: they count as calls without an id, where the pinning loop of the context plan would raise an error on them.
- Provider HTTP calls, JSON parsing, the summary written by the model and the wording of collapsed chains: arbitrary values here. Decoding errors of the byte stream are not modelled.
- The context layers of the plan (summary, pool, project, memory, policy messages) are one given list.
- ToolRound.Session.RunToolRound: does not model which mode a switch call leads to; the text of its answer is arbitrary.
- ToolTrace: a round ends before the next begins, as the awaited gather makes it; a stop that cancels a round in the middle is modelled by the messages it leaves, in `StoppedRoundVanishes`.
- Reply control keeps one turn at a time per session, as the session actor does; the preview texts and timestamps of checkpoints and commands are not modelled, and usage is one opaque value.
- ReplyFailures.StaleLength: states the effect of one rollback between the two awaits; other steps in that gap fall under `FailedTurnIff`.
- ReplyFailures.FailedTurnIff: a turn whose history is trimmed or otherwise rewritten while it runs falls under `RewrittenTurnIff` instead. The discard and the failure are taken as one after the other; steps in between, which can happen when the end of a reasoning stream is still to be sent, fall under `DiscardFaithfulIff` and `FailUndoesTurn`.
- EventBus.Submitted: how an answer text is matched to the offered options is an arbitrary function of the request.
- SseReader.EagerAgreesWithDelimited: states one direction, because with an arbitrary parser two readings of an ambiguous stream may agree by chance; `EagerReadsSegments` says what is read in every case.
- Publishing of events to subscribers, clearing of a whole conversation, touching of sessions, session bindings and streams.
- The Responses-API input builder, background turns, the heart, configuration and persistence: they would add only simpler copies or tables.
