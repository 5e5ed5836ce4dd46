# Taugentic: verified models of its protocols

Dafny models of the parts of the Taugentic repository that are protocols rather than plumbing, with proofs of
what they keep over every run. `dafny verify dfyconfig.toml` checks everything; the project imports nothing
but its own modules.

| area | modules |
|---|---|
| the native agent turn loop, its tools, history and message queues | `AgentLoop`, `AgentLoopDecisions`, `AgentLoopBounds`, `AgentLoopTools`, `AgentLoopTasks`, `AgentLoopRuns`, `AgentLoopHistory`, `AgentLoopFrames`, `AgentLoopRows`, `AgentLoopCallFrames`, `Collector`, `Session`, `Queues` |
| event projections: in-flight turns and tool calls, approvals, run list, event ranges | `Wire`, `AgentTurns`, `AgentTurnsLog`, `AgentTurnsReplay`, `DurableEvents`, `Approvals`, `RunsList`, `EventRanges` |
| token refresh under concurrent callers | `Refresh`, `RefreshCalls`, `RefreshGrants`, `RefreshLate` |
| the JSON-RPC connection and the server's in-flight cap | `JsonRpc`, `Connection`, `InFlight` |
| duplicate YAML keys, the Linux sandbox helper | `YamlKeys`, `Paths`, `Sandbox`, `SandboxNetwork`, `BwrapReads` |
| shared datatypes, string facts and written numbers | `Prelude`, `Numerals` |

## How the model is built

Code that several tasks run at once (the turn loop with the tool tasks it spawns, the token manager, the accept
loop with its connections) is a transition function over atomic steps. A run is any sequence of actions that the
function allows, so a statement about every reachable state covers every interleaving; everything the code
does not decide itself (model replies, tool outcomes, approvals, clocks, store and network answers, a caller
that is dropped) is in the action. Code that updates its own fields or loops over a collection is a class
or a method with its loop, proved against a function of its inputs, and what the repository promises is
proved about that function.

The two crates `taugentic-agent` and `ta-store` form one protocol: the loop pushes frames and the projection
accepts or refuses them. `AgentLoopFrames` joins the two models and proves when a frame is refused;
`AgentLoopRows` proves that the rows a reader sees are the conversation the model was shown.

## Assumptions

- Run ids are unique, and event sequences of a session strictly increase. Both appear as preconditions where a
  theorem needs them.
- Tool call ids may repeat: whether the projection accepts a run is proved to be the same as no call id being
  started twice in one turn.
- Locks are not poisoned, and connection tasks do not panic.
- `logout` and `store_login_credentials` write the credential store without the refresh lock
  (crates/ta-auth-openai/src/refresh/manager.rs:118 and :155), so the refresh theorems are about runs of
  `ensure_fresh` and `force_refresh`.
- Compaction can orphan a tool result (crates/taugentic-agent/src/session.rs:118-125). What is proved of
  requests is that every call has a result, not the converse.
- Operating system strings and JSON values are texts; decoders are parameters.

## Where the code does less than one might expect

- A refresh token that the server has already replaced can be sent again, against section 6 of RFC 6749, which
  asks a client to discard it. The new token is lost in five ways: the response carries no usable expiry, which
  the code checks before it stores anything (crates/ta-auth-openai/src/refresh/manager.rs:236-243), the store
  refuses it, the caller is dropped while the exchange is in flight, the exchange fails after the server has
  answered (crates/ta-auth-openai/src/refresh/manager.rs:218-225), or the server answers only after one of these
  two has happened. Over every run of the model these are the only ways. For tokens issued in time the exact
  condition is `RefreshGrants.ReplacedTokenReturnsExactlyWhenNotStored`, with
  `RefreshGrants.ReceivedExactlyWhenUsable` for the expiry; for those issued late it is
  `RefreshLate.LateReplacedTokenReturns`. `RefreshGrants.ReplacedTokenRun` and `RefreshLate.LateAnswerRun` have
  runs from a fresh manager.
- Durable events alone do not tell whether the live log was accepted: a delta without an open turn is refused
  live and invisible afterwards (`AgentTurnsReplay.StrayDeltaIsRefusedLiveOnly`).
  `AgentTurnsReplay.LiveExactlyWhenGrounded` gives the exact condition.
- A YAML key that contains a dot can share its joined path with nested keys, and is then reported as a
  duplicate. Reports look at the segments between the dots, no more and no less
  (`YamlKeys.ReportedExactlyBySegments`), so a report is wrong exactly when the enclosing keys divide them
  differently (`YamlKeys.SpuriousExactlyWhenDividedDifferently`); `YamlKeys.DottedKeysCollide` is such a text.
- A connection rejected because of the cap gets its first line answered even if that is a notification
  (crates/ta-jsonrpc/src/server.rs:404-476), which section 4.1 of the JSON-RPC 2.0 Specification forbids; a
  connection that is served never has one answered. Over every interleaving, a first line that is a notification
  is answered exactly if the counter was read with the cap full (`InFlight.FirstLineAnsweredByTheCap`, and
  `InFlight.NotificationAnswered` for a run).
- `run_jsonrpc_connection_loop` only closes the connection on its normal exit. After an error return it is open
  unless a queue overflow or something other than the loop closed it
  (`Connection.ConnectionRuntime.RunConnectionLoop`, and `Connection.FailedReadStaysOpen` for a run).
- Deferred actions are taken per message, not per request (crates/ta-jsonrpc/src/runtime.rs:358-373): one that
  another task registers between two requests goes with the next message, and is dropped if that one gets no
  success response. Over every log whose messages are all done with, an action runs if and only if the first
  message taken after it succeeds (`Connection.RunsExactlyIfItsMessageSucceeds`);
  `Connection.DeferredActionIsDropped` is a connection on which a notification costs an action its run.

## Model

| member | source | states |
|---|---|---|
| AgentLoopFrames.FramesConform | crates/taugentic-agent/src/turn_loop.rs:150-258 | at any point of any run, in any interleaving of the loop with its tool tasks, the frames pushed are accepted by the projection if and only if no tool call id was started twice in one turn |
| AgentLoopFrames.CompletedRunsLeaveOnlyAbandonedTurns | crates/taugentic-agent/src/turn_loop.rs:150-258 | after a run that ended through `complete` no tool call is in flight and the open assistant turns are exactly those abandoned to compaction |
| AgentLoopFrames.ConcurrentRunsConform | crates/ta-store/src/agent_turns.rs:77-234 | a log that interleaves the frames of any number of such runs with other events in any way is accepted |
| AgentLoopRows.RowsShowTheConversation | crates/ta-store/src/agent_turns.rs:77-234 | at any point of any run, failed ones and the tool phase included, the completed rows show exactly the assistant turns and tool results recorded in the history, in order and with their full text, followed by an empty answer per refused approval, or, with none refused, all but the message just recorded; approvals are refused only in the tool phase or after a failure, and a completed run has shown all of it |
| AgentLoopRuns.RunsAreBounded | crates/taugentic-agent/src/turn_loop.rs:151-232 | every run opens at most 32 streams, compacts at most 5 times in a row and 27 times in all, and continues cut-off turns at most 3 times between turns that use tools |
| AgentLoopRuns.ToolsNeverOverlapWrongly | crates/taugentic-agent/src/turn_loop.rs:407-490 | in every interleaving, detached tasks of a failed run included, at most 8 tools run at once and a tool that is not parallel-safe runs alone |
| AgentLoopRuns.BatchedRefinesSerial | crates/taugentic-agent/src/turn_loop.rs:419-441 | when the tool phase succeeds its results are those of running the calls one after another: each call's own result, in call order |
| AgentLoopRuns.NeverStuck | crates/taugentic-agent/src/turn_loop.rs:150-258 | at every point of every run that has not ended, the loop or one of its tasks can go on: tasks waited for have been spawned, permits run out only while tasks run, and no result lacks its call |
| AgentLoopDecisions.TurnsStart | crates/taugentic-agent/src/turn_loop.rs:152-172 | before every turn but the first the steering lane is delivered, all of it or its oldest message by its mode; after 32 turns the run is complete, a cancelled one fails, any other announces a turn |
| AgentLoopDecisions.TurnsEnd | crates/taugentic-agent/src/turn_loop.rs:212-232 | a turn with calls runs them; one cut off without calls is continued if that has happened fewer than 3 times since tools were used, and else fails the run; any other takes follow-up messages into another turn or completes the run |
| AgentLoopDecisions.RunsCompleteInTwoWays | crates/taugentic-agent/src/turn_loop.rs:156-231 | a run completes after 32 turns, or right after an assistant turn without calls that ends the history, with no follow-up left |
| AgentLoopDecisions.RunsFailExactlyWhen | crates/taugentic-agent/src/turn_loop.rs:150-258 | each step of each run fails it if and only if it was cancelled, its stream failed beyond compaction, its calls cannot be parsed, it was cut off once too often, a call has no id, a tool is unknown or failed, or something outside failed |
| AgentLoopDecisions.TurnsRecordTheirStream | crates/taugentic-agent/src/turn_loop.rs:183-204 | a turn records one assistant message with the text and calls that its stream's events assemble to, as far as usable, and runs exactly those calls |
| AgentLoopDecisions.TurnsPushTheirStream | crates/taugentic-agent/src/turn_loop.rs:320-330 | each text delta of the turn is pushed as it comes, numbered from zero, and a turn ends with its completion |
| AgentLoopDecisions.BatchesAreMaximal | crates/taugentic-agent/src/turn_loop.rs:419-441 | a parallel batch ends where the next call must run alone, and no call that may overlap ever runs alone |
| AgentLoopDecisions.SpawnsUpToTheCap | crates/taugentic-agent/src/turn_loop.rs:443-480 | while fewer than 8 tools run, the next of a batch is spawned without waiting |
| AgentLoopDecisions.SchedulerMovesOn | crates/taugentic-agent/src/turn_loop.rs:407-490 | every step of the scheduler brings the tool phase nearer to its end, within 9 steps per call and a few |
| AgentLoopTasks.CallsFollowTheirDialogue | crates/taugentic-agent/src/turn_loop.rs:612-694 | in every interleaving, what a call has come to is what its dialogue with policy, approver and tool says: a tool that ran was allowed first, a refused approval runs nothing, and its result is what the tool said or the denial |
| AgentLoopTasks.ResultsAreWhatToolsSaid | crates/taugentic-agent/src/turn_loop.rs:612-735 | each result of a successful tool phase carries the content and outcome that its own call's tool, or the policy's denial, gave |
| AgentLoopTasks.TasksTakeTheirAnswers | crates/taugentic-agent/src/turn_loop.rs:612-694 | the policy's, approver's and tool's answers are each taken exactly where the call waits for them; an unknown tool only errs |
| AgentLoopTasks.EventsAreTaken | crates/taugentic-agent/src/turn_loop.rs:150-258 | what the loop waits for from outside is taken exactly in the phase that waits for it, whatever form it has |
| AgentLoopCallFrames.FramesTellTheCalls | crates/taugentic-agent/src/turn_loop.rs:234-258 | in every run, each call started has an id and a frame with its own name and rendered input, each that waits a frame saying so, each result frames with its output and outcome, and each refused call one that cancels it |
| AgentLoopHistory.RequestsAreAnswered | crates/taugentic-agent/src/turn_loop.rs:178-204 | every request sent in any run has a result for each tool call in it and starts with the message the run started with |
| AgentLoopHistory.NoMarkersWithoutCompaction | crates/taugentic-agent/src/turn_loop.rs:234-256 | a run without compaction whose initial and queued messages leave no call open never inserts a repair marker |
| AgentLoopHistory.HistoryIsAccountedFor | crates/taugentic-agent/src/turn_loop.rs:150-258 | in every run everything added to the initial history is an interleaving of what the two queue lanes handed out, the turns and results recorded, and repair markers, each in order, once, and nothing else; what is gone of it is the oldest after the first, one for each compaction called for that found more than two messages |
| AgentLoopHistory.CompactsExactlyWhenCalledFor | crates/taugentic-agent/src/turn_loop.rs:517-535 | a run compacts exactly as often as its stream fails for the context's length with fewer than 5 compactions in a row before, and abandons no turn otherwise |
| AgentLoopHistory.StreamErrorsEndTheRun | crates/taugentic-agent/src/turn_loop.rs:533 | any other failure of a stream ends the run with everything else as it was |
| AgentLoopHistory.UncompactedHistoryGrows | crates/taugentic-agent/src/turn_loop.rs:517-535 | without a failure for the context's length the initial history is never cut |
| AgentLoopHistory.QueuesAreConserved | crates/taugentic-agent/src/turn_loop.rs:152-154 | over any run each lane's deliveries followed by what is still queued are what entered it, and a run reaches "normal end" only with the follow-up lane empty |
| Collector.CollectTurn | crates/taugentic-agent/src/turn_loop.rs:303-379 | the loop returns the declarative reading of the stream up to its first completion or error, and pushes one numbered frame per text delta |
| Collector.FinishIsAssemble | crates/taugentic-agent/src/turn_loop.rs:303-379 | each call's input is the concatenation of the deltas after the last start for its index, for any interleaving of text and calls |
| Collector.FramesCarryTheText | crates/taugentic-agent/src/turn_loop.rs:320-330 | one frame per text delta, in order, numbered from zero as far as 64 bits go |
| Collector.AssemblyIgnoresInterleaving | crates/taugentic-agent/src/turn_loop.rs:303-379 | streams with the same text deltas, the same events per index and the same stop events give the same turn |
| Collector.AscendingIsSorted | crates/taugentic-agent/src/turn_loop.rs:370-373 | calls come out in ascending order of their index |
| Collector.FinalizedCallsAreUsable | crates/taugentic-agent/src/turn_loop.rs:542-577 | no call with unparseable input is executed; calls are dropped only from a cut-off turn, and exactly those whose input is empty, null or unparseable; any other turn with unparseable input fails |
| Session.RepairAnswersEveryCall | crates/taugentic-agent/src/session.rs:139-152 | after repair every call has a result, the history is only extended, and it is left alone exactly if nothing was missing |
| Session.MissingToolResults | crates/taugentic-agent/src/session.rs:189-204 | exactly the calls of the history without a result anywhere in it, in order |
| Session.Conversation.RepairMissingToolOutputs | crates/taugentic-agent/src/session.rs:139-152 | one marker per unanswered call is appended and counted |
| Session.Conversation.Compact | crates/taugentic-agent/src/session.rs:118-125 | of more than two messages the second goes, and the first and everything from the third on stay in order; of two or fewer none does |
| Queues.QueueConservation | crates/taugentic-agent/src/queues.rs:70-143 | for every sequence of pushes, fetches, mode changes and drains, what left a lane followed by what is queued is what entered it, in order |
| Queues.DrainsByMode | crates/taugentic-agent/src/queues.rs:134-143 | one mode delivers the whole lane, fetched messages included, and empties it, the other delivers its oldest message alone |
| Queues.NumbersFollowArrival | crates/taugentic-agent/src/queues.rs:123-131 | over every sequence of operations messages carry distinct numbers in the order they came, over both lanes |
| Queues.ModesAreAsLastSet | crates/taugentic-agent/src/queues.rs:75-78 | each lane's mode is the one it was last given |
| Queues.MessageQueue.DrainSteeringInto | crates/taugentic-agent/src/queues.rs:93-106 | the history grows by exactly the messages that leave the lane, fetched ones last |
| Queues.MessageQueue.DrainFollowUpInto | crates/taugentic-agent/src/queues.rs:108-121 | likewise, and an empty delivery means that the lane is empty |
| AgentTurns.Projection.ApplyAgentStreamEvent | crates/ta-store/src/agent_turns.rs:77-234 | the two maps become what the specification says, and a refused event leaves both unchanged |
| AgentTurnsLog.ProjectionReadsTheLog | crates/ta-store/src/agent_turns.rs:77-234 | a log is accepted if and only if each record is legal after those before it; the rows are then exactly the ones the log spells out, text being the deltas since the matching start, and the maps hold exactly its open slots |
| AgentTurnsReplay.DurableReplay | crates/ta-store/src/events.rs:151-173 | the durable events of an accepted log are accepted, leave the same keys in flight and give the same rows with empty text and output |
| AgentTurnsReplay.LiveExactlyWhenGrounded | crates/ta-store/src/events.rs:151-173 | a live log is accepted if and only if its durable events are and every delta falls on a slot that they hold open |
| AgentTurnsReplay.StrayDeltaIsRefusedLiveOnly | crates/ta-store/src/events.rs:151-173 | a log of one delta for a turn never started is refused live, while its durable events are accepted |
| AgentTurnsReplay.PartProjection | crates/ta-store/src/agent_turns.rs:236-251 | projecting one session's records, or one run's, gives exactly that part of the rows, in order, and of the maps |
| AgentTurnsReplay.AcceptedRunByRun | crates/ta-store/src/agent_turns.rs:236-251 | a log is accepted if and only if the records of each run are on their own |
| DurableEvents.OnlyTextIsLost | crates/ta-store/src/events.rs:151-173 | durable events are all events but pieces of messages and of tool output |
| DurableEvents.ApprovalsAreDurable | crates/ta-store/src/events.rs:151-173 | approvals folded from the durable events, errors included, are those folded from all |
| DurableEvents.RangesLoseTextOnly | crates/ta-store/src/events.rs:105-138 | a run's durable events are its events without those pieces, in order |
| DurableEvents.EventsBelongToTheirRun | crates/ta-store/src/events.rs:76-103 | every event but a change of the session belongs to the run it names |
| EventRanges.RunEventRange | crates/ta-store/src/events.rs:105-138 | the first records of the run after the given sequence, up to the limit, and the run's latest sequence whatever was asked for |
| EventRanges.RangesHoldWhatIsAskedFor | crates/ta-store/src/events.rs:105-138 | a range holds no more than the limit, only records of the run and session after the given sequence, and if it is not full all of them |
| EventRanges.FollowedRangesCatchUp | crates/ta-store/src/events.rs:105-138 | asking again after the last record received delivers the run's records in order, none skipped or repeated, and is complete exactly when that record carries the reported latest sequence |
| Approvals.ValidationIsExact | crates/ta-store/src/approval_lifecycle.rs:66-156 | on a foldable log a batch is accepted if and only if the extended log folds and each approval event is of the validated run |
| Approvals.CommittedHistoryFolds | crates/ta-store/src/approval_lifecycle.rs:14-76 | any history of validated batches, accepted and refused, leaves a log that folds |
| Approvals.FoldsExactlyWhenWellOrdered | crates/ta-store/src/approval_lifecycle.rs:14-25 | a log folds if and only if no approval is requested or resolved twice and each resolution answers an earlier request of the same id, run and tool call |
| Approvals.FoldReadsTheLog | crates/ta-store/src/approval_lifecycle.rs:90-156 | pending and resolved are what the log requests and resolves, and each id is requested and resolved at most once |
| Approvals.FaultsAreRead | crates/ta-store/src/approval_lifecycle.rs:90-156 | on a foldable log an approval event is refused exactly for the fault that the log shows, in the order of the checks, and under its own approval |
| Approvals.QueriesSelect | crates/ta-store/src/approval_lifecycle.rs:27-54 | the answer to a query holds exactly the requests of the log that nothing resolved and whose run and approval the query names or leaves open |
| Approvals.LookupAgreesWithTheLog | crates/ta-store/src/approval_lifecycle.rs:56-64 | pending and resolved are disjoint, and a lookup answers from the log alone, in each of its three cases |
| Approvals.ApprovalLifecycle.ApplyDaemonEvent | crates/ta-store/src/approval_lifecycle.rs:78-156 | the state steps as specified, and a rejected event leaves it unchanged |
| Approvals.ApprovalLifecycle.FoldSessionRecords | crates/ta-store/src/approval_lifecycle.rs:14-25 | the state after all records, or the first error |
| Approvals.ApprovalLifecycle.ValidateRunTransition | crates/ta-store/src/approval_lifecycle.rs:66-76 | the verdict on a batch, without touching the state |
| Approvals.ApprovalLifecycle.ApprovalsForQuery | crates/ta-store/src/approval_lifecycle.rs:27-54 | exactly the unresolved requests of the log that the query selects, newest first |
| RunsList.FollowedPagesAreTheList | crates/ta-store/src/runs_list.rs:41-77 | for unique ids, any filter and any limit from 1 on, following cursors through their text form ends, and the pages join up to the matching runs in descending order, none skipped or repeated |
| RunsList.ListHoldsWhatIsAskedFor | crates/ta-store/src/runs_list.rs:79-108 | the list holds exactly the session's native runs with a listed status and harness, of the given parent, and without one those that have none |
| RunsList.ListIsNewestFirst | crates/ta-store/src/runs_list.rs:110-127 | later start first, an unstarted run counting as the earliest, larger id first |
| RunsList.PagesAreFull | crates/ta-store/src/runs_list.rs:45-76 | a page with a cursor holds the client's limit of runs, but no more than 200, and more runs follow |
| RunsList.DecodeIsExact | crates/ta-store/src/runs_list.rs:32-38 | a text is a cursor exactly if it writes a 64-bit start, with an optional plus sign and leading zeros, a colon and a non-blank id |
| RunsList.ListNativeRuns | crates/ta-store/src/runs_list.rs:41-77 | the loop returns the page of the sorted list that lies after the cursor, with a cursor exactly if more follow |
| RunsList.CursorRoundTrip | crates/ta-store/src/runs_list.rs:27-39 | decoding an encoded cursor gives it back, for every 64-bit start and every non-blank id, colons included |
| RunsList.SortSorts | crates/ta-store/src/runs_list.rs:110-114 | on unique ids the comparison yields a strictly descending list |
| RunsList.SortedUnique | crates/ta-store/src/runs_list.rs:110-114 | there is only one such arrangement, so any correct sort gives the same pages |
| Refresh.SingleFlight | crates/ta-auth-openai/src/refresh/manager.rs:88-115 | in every interleaving at most one refresh per key is in flight |
| Refresh.NoSupersededTokenIsPresented | crates/ta-auth-openai/src/refresh/manager.rs:210-282 | every request presents the refresh token that the store holds at that moment, never one that a stored one superseded |
| Refresh.ReturnedTokenIsStored | crates/ta-auth-openai/src/refresh/manager.rs:88-115 | whichever way a call returns a token, it is the one stored for the key at that moment, and it had not expired when looked at or granted |
| RefreshCalls.CallsGoOnUnlessTheTokenLasts | crates/ta-auth-openai/src/refresh/manager.rs:88-115 | `ensure_fresh` hands out the stored token at either of its reads exactly if it lasts beyond the window from now, said in issue time, lifetime and account expiry; otherwise, and always for `force_refresh`, it goes on to the lock or the request, a blank refresh token being an error |
| RefreshCalls.EnsuredTokensLast | crates/ta-auth-openai/src/refresh/manager.rs:88-105 | over every run, a token returned at a read of `ensure_fresh` lasts beyond the window |
| RefreshCalls.RequestsAreDue | crates/ta-auth-openai/src/refresh/manager.rs:100-105 | over every run, a request of `ensure_fresh` is sent only for credentials that its read under the lock found not to last |
| RefreshCalls.ReturnedTokensAreGivenOut | crates/ta-auth-openai/src/refresh/manager.rs:301-320 | every token returned is the platform token of the stored credentials or, without one, their access token, and they had not expired |
| RefreshCalls.ResponsesRenew | crates/ta-auth-openai/src/refresh/manager.rs:226-239 | a received response makes credentials of its tokens and the account kept, refreshed now, and goes on to the store exactly if they have not expired |
| RefreshCalls.FailuresAreReported | crates/ta-auth-openai/src/refresh/manager.rs:261-293 | any other error is counted, and reported as too many failures from the policy's number on |
| RefreshCalls.DecisionsAreStored | crates/ta-auth-openai/src/refresh/manager.rs:230-259 | exactly the renewed credentials are stored, or on a revocation the key's deleted, and a failing store is the error reported |
| RefreshCalls.CallsReturnAtLast | crates/ta-auth-openai/src/refresh/manager.rs:233-260 | then the counter is reset, and the call returns the stored token, or the revocation |
| Refresh.FailuresAreCounted | crates/ta-auth-openai/src/refresh/manager.rs:261-293 | in every interleaving the attempts a failed refresh reports are the key's failures since the counter was last reset, saturating |
| RefreshGrants.ReplacedTokenReturnsExactlyWhenNotStored | crates/ta-auth-openai/src/refresh/manager.rs:218-259 | over every interleaving, a request after the server issued a token for its key to a waiting caller sends that token if it was stored, and otherwise the one it replaced; not storing it means an unusable response, a store that refuses, or an answer lost to a dropped caller or a failed exchange |
| RefreshGrants.ReceivedExactlyWhenUsable | crates/ta-auth-openai/src/refresh/manager.rs:226-239 | a received response goes on to the store if and only if the expiry it carries or keeps is in the future, and otherwise ends the call with the store untouched |
| RefreshGrants.ReplacedTokenIsPresentedAgain | crates/ta-auth-openai/src/refresh/manager.rs:107-115 | whenever a forced refresh waits for the lock of another one whose answer is lost, be it for want of an expiry or of its caller, it sends the token that the server has just replaced |
| RefreshGrants.ReplacedTokenRun | crates/ta-auth-openai/src/refresh/manager.rs:107-115 | both happen in runs from a fresh manager |
| RefreshLate.LateReplacedTokenReturns | crates/ta-auth-openai/src/refresh/manager.rs:218-225 | over every interleaving, if the server processes a request only after its caller was dropped or got an error, a later request for the key sends the replaced token if and only if no other token has been stored since that request was sent |
| RefreshLate.LateAnswerRun | crates/ta-auth-openai/src/refresh/manager.rs:218-225 | a run from a fresh manager in which that happens |
| JsonRpc.AnswersPairUp | crates/ta-jsonrpc/src/server.rs:504-563 | one answer per line that is not a notification, in order, under the request's id or none, and a response exactly if a request's handler returned a value |
| JsonRpc.ErrorsSayWhatHappened | crates/ta-jsonrpc/src/server.rs:504-563 | a refusal is answered by the handler's own error, a panic as an internal error of its method, an undecodable line and anything but a request by the codes of the specification |
| JsonRpc.OverloadIsAnError | crates/ta-jsonrpc/src/server.rs:442-476 | a rejected connection's line gets an error under the id it asks for, whatever the line is |
| JsonRpc.OverloadErrorsSayWhy | crates/ta-jsonrpc/src/server.rs:442-500 | a rejected request gets an internal error, any other message an invalid request, an undecodable line its parse error |
| Connection.AnswersAreQueuedInOrder | crates/ta-jsonrpc/src/runtime.rs:327-378 | the answers queued, with the one still owed, are exactly the answers to the messages processed, in order, whatever else is queued between them |
| Connection.RunsUnderItsOwnResponse | crates/ta-jsonrpc/src/runtime.rs:357-374 | a deferred action only runs after the success response to the message it was taken with was queued, and before the next message is processed |
| Connection.RunsAtMostOnce | crates/ta-jsonrpc/src/runtime.rs:97-110 | actions run in the order they were registered, so none runs twice |
| Connection.RunsExactlyIfItsMessageSucceeds | crates/ta-jsonrpc/src/runtime.rs:357-374 | whoever registers an action and when, it is taken with the first message taken after it and no other, it never runs unless that message's answer is a success response, and it has run if so once all is done with the last message |
| Connection.TakenAtMostOnce | crates/ta-jsonrpc/src/runtime.rs:104-110 | an action taken with one message is not taken with a later one |
| Connection.DeferredActionIsDropped | crates/ta-jsonrpc/src/runtime.rs:357-374 | on a new connection, an action registered before a notification is gone after it, and the success response to the next request does not run it |
| Connection.DisarmedExactlyByPollMode | crates/ta-jsonrpc/src/runtime.rs:419-458 | once no answer is owed, the request timeout is disarmed exactly if a request for the persistent method had a success response |
| Connection.DisarmedExactlyByAnsweredPolls | crates/ta-jsonrpc/src/runtime.rs:444-458 | once no answer is owed, the timeout is disarmed exactly if there is a persistent method and a request for that very method has its response queued |
| Connection.OtherMethodsStayArmed | crates/ta-jsonrpc/src/runtime.rs:444-458 | without a persistent method, or with requests for other methods only, it never is |
| Connection.DisarmedAtMostOnce | crates/ta-jsonrpc/src/runtime.rs:432-442 | it is disarmed at most once and never re-armed |
| Connection.ConnectionRuntime.EnqueueMessage | crates/ta-jsonrpc/src/runtime.rs:213-226 | any message, at any time, is queued or refused with the error that the writer and the queue call for; only a full queue closes the connection, and a message that the order of answers allows keeps that order |
| Connection.ConnectionRuntime.SendNotification | crates/ta-jsonrpc/src/runtime.rs:87-124 | queued exactly if the connection is open, its writer alive and its queue not full, with the matching error otherwise |
| Connection.ConnectionRuntime.TakeAfterResponseActions | crates/ta-jsonrpc/src/runtime.rs:104-110 | everything registered so far is taken with this message, and nothing is left for a later one |
| Connection.ConnectionRuntime.ObserveMessage | crates/ta-jsonrpc/src/runtime.rs:432-458 | the mode changes at most here, and only one way |
| Connection.ConnectionRuntime.RunAfterResponseActions | crates/ta-jsonrpc/src/runtime.rs:380-402 | the whole batch runs, in order, whatever the actions do to the session |
| Connection.ConnectionRuntime.HandleMessage | crates/ta-jsonrpc/src/runtime.rs:352-374 | with other tasks interfering while the handler runs, after its actions are taken and while the queue is drained: unless `process_message` fails, one message is processed, its answer queued or owed, and exactly the actions registered before its handler ended run, only after a success response; what is registered afterwards is exactly what is left, and if it fails nothing is taken |
| Connection.ConnectionRuntime.RunConnectionLoop | crates/ta-jsonrpc/src/runtime.rs:327-378 | the loop processes exactly the messages read, in order, but for one whose processing failed, never breaks the order of events that the theorems above speak of, ends closed only on end of stream or because the connection was closed, fails only for the last round's own error, is then open exactly if nothing closed the connection, and owes an answer exactly if queueing one failed |
| Connection.FailedReadStaysOpen | crates/ta-jsonrpc/src/runtime.rs:343-351 | a new connection whose first read fails: the loop returns the error and the connection says that it is open |
| InFlight.CapHolds | crates/ta-jsonrpc/src/server.rs:207-284 | in every interleaving at most `max_in_flight_requests` connections hold a place, the counter is their number plus the accept loop's one transient increment, and a connection was refused exactly if the cap was full when the counter was read |
| InFlight.FirstLineAnsweredByTheCap | crates/ta-jsonrpc/src/server.rs:404-476 | in every interleaving each first line read belongs to a connection decided once, and it goes without an answer if and only if it is a notification and the cap was not full at that decision |
| InFlight.NotificationAnswered | crates/ta-jsonrpc/src/server.rs:459-476 | for every cap and every notification, a run in which it is answered, by an error without an id, once the cap is full |
| InFlight.OneFirstLineEach | crates/ta-jsonrpc/src/server.rs:404-476 | over every interleaving no connection has two first lines, and none that is still to be decided has one |
| InFlight.CounterNeverUnderflows | crates/ta-jsonrpc/src/server.rs:244-282 | both decrements always find a positive counter |
| InFlight.StepsArePossible | crates/ta-jsonrpc/src/server.rs:242-284 | in every interleaving each step of the accept loop and of a connection task is possible exactly where it belongs |
| InFlight.FreePlaceIsServed | crates/ta-jsonrpc/src/server.rs:244-253 | an accepted connection is served if and only if a place is free when the counter is read |
| InFlight.EachConnectionIsDecidedOnce | crates/ta-jsonrpc/src/server.rs:242-284 | connections are decided one at a time in the order they were accepted, each served or refused and never both |
| YamlKeys.DuplicateKeyErrors | crates/ta-workflow/src/yaml_keys.rs:5-40 | exactly one error per key line whose key occurred earlier under the same joined path of enclosing keys, in line order |
| YamlKeys.PoppedIsEnclosing | crates/ta-workflow/src/yaml_keys.rs:14-16 | the popped stack is the chain of enclosing lines: the nearest earlier line of smaller indentation, repeated |
| YamlKeys.EnclosingIndentsIncrease | crates/ta-workflow/src/yaml_keys.rs:14-37 | indentations along that chain strictly increase and stay below the line's own |
| YamlKeys.PathsTellSegmentsApart | crates/ta-workflow/src/yaml_keys.rs:17-28 | joined paths are equal if and only if the enclosing keys, each split at its dots, give the same segments |
| YamlKeys.ReportedExactlyBySegments | crates/ta-workflow/src/yaml_keys.rs:29-35 | a line is reported if and only if an earlier one has its key under the same segments |
| YamlKeys.SpuriousExactlyWhenDividedDifferently | crates/ta-workflow/src/yaml_keys.rs:29-35 | a key repeated among the same enclosing keys is always reported, and a report has no such repetition behind it exactly when every earlier line with the key and segments divides them differently |
| YamlKeys.DotFreeRepeatsAreInPlace | crates/ta-workflow/src/yaml_keys.rs:29-35 | if no line with the key is enclosed by keys with dots, its report means a repetition among the same enclosing keys, and conversely |
| YamlKeys.DottedKeysCollide | crates/ta-workflow/src/yaml_keys.rs:5-40 | a text of five lines whose last is reported, as `$.a.b`, with no such repetition |
| YamlKeys.PlainKeyIsRead | crates/ta-workflow/src/yaml_keys.rs:48-70 | an indented `key: value` line is read as its indentation and key whatever its value or comment |
| YamlKeys.KeysEndAtTheColon | crates/ta-workflow/src/yaml_keys.rs:48-70 | any line has a key exactly if a colon comes before a comment sign and what precedes it is no list item, not empty, and free of spaces and brackets; the key is that without its quotes, the indentation the bytes before it |
| YamlKeys.LinesOfUnlines | crates/ta-workflow/src/yaml_keys.rs:10-13 | text is split into exactly the lines it was joined from |
| Sandbox.ParseIsExact | crates/ta-linux-sandbox/src/main.rs:164-204 | parsing succeeds with an invocation if and only if the words are options with a decodable last profile, the separator, and that command and its arguments |
| Sandbox.ParseIsMeaning | crates/ta-linux-sandbox/src/main.rs:164-204 | each other command line fails with the error its first offending word calls for |
| Sandbox.Parse | crates/ta-linux-sandbox/src/main.rs:165-203 | the loop computes that function of the words after the program name |
| Sandbox.Run | crates/ta-linux-sandbox/src/main.rs:111-144 | a command line that does not parse has no effect; otherwise descriptors are closed before anything else, only the last step hands the process over, and the run succeeds exactly if that succeeds; the fallback is entered exactly for a profile without network that Landlock cannot take and never by the child, bubblewrap is executed exactly if its command line could be built there, and the command exactly by that child or right after its own profile was applied |
| Sandbox.RunsAreConfined | crates/ta-linux-sandbox/src/main.rs:111-144 | whatever the system answers, the hooks that execute included, the command runs last, and only after its own profile was applied or as bubblewrap's child, which enters no sandbox again; the conditions on which it runs, and on which bubblewrap does, are exact |
| SandboxNetwork.RunsUseTheirNetwork | crates/ta-linux-sandbox/src/main.rs:219-253 | over every run, what is probed and applied is the network the profile asks for: none when off, any when open, and connections to exactly the ports its allowlist denotes; loopback, or an entry that denotes no port, is refused with nothing probed or executed |
| SandboxNetwork.PortsAreDenoted | crates/ta-linux-sandbox/src/main.rs:324-337 | an entry is read as a port from 1 to 65535 exactly if it writes it, after `tcp:` or not, with an optional plus sign and leading zeros; zero is refused as such |
| SandboxNetwork.AllowlistsAreDenoted | crates/ta-linux-sandbox/src/main.rs:314-322 | an allowlist is read exactly if every entry denotes a port, as the set of those |
| Sandbox.BuildBwrapArgs | crates/ta-linux-sandbox/src/main.rs:448-544 | the words are the bubblewrap options, always without network and environment, followed by the helper's own command line; the first relative path is refused |
| Sandbox.RefusalsAreExact | crates/ta-linux-sandbox/src/main.rs:453-517 | the command line is refused exactly for a caller's environment, or else for the first writable or readable path that is relative |
| Sandbox.AlwaysIsolated | crates/ta-linux-sandbox/src/main.rs:456-476 | whatever the profile, users and network are unshared, bubblewrap dies with its parent, the environment is cleared before any of it is set, and only variables and binds are given between that and the system mounts |
| Sandbox.BindsAreExact | crates/ta-linux-sandbox/src/main.rs:495-526 | each writable path is bound once, under its first spelling, each other readable path likewise and read-only, both in ascending order of their components |
| Sandbox.ReadPathsAreExact | crates/ta-linux-sandbox/src/main.rs:507-517 | the paths read are the platform's as far as they exist, the helper's own, and the profile's |
| Sandbox.EnvironmentIsExact | crates/ta-linux-sandbox/src/main.rs:479-493 | a variable is set if and only if it is a base variable that the profile allows and the parent has, to the parent's value |
| BwrapReads.BwrapReadsItsOptions | crates/ta-linux-sandbox/src/main.rs:448-544 | read word by word as bubblewrap does, the command line is exactly the options meant, whatever paths and values they carry, then the helper and its own words |
| Paths.PathSetIsExact | crates/ta-linux-sandbox/src/main.rs:500-517 | inserting paths one by one leaves a strictly ascending sequence of exactly the first spellings of each path |
| Paths.AscendingUnique | crates/ta-linux-sandbox/src/main.rs:519-526 | no other sequence with those members is ascending, so the order of the binds is fixed |
| Paths.SpellingsOfAPath | crates/ta-linux-sandbox/src/main.rs:500-524 | a slash at the end, a doubled slash and an inner dot make no other path |
| Paths.NamesBelowAPath | crates/ta-linux-sandbox/src/main.rs:500-524 | a name or two dots below a path are one more component |
| Paths.PathsInOrder | crates/ta-linux-sandbox/src/main.rs:519-526 | a path comes before what lies below it, and names below one path in the order of their characters |
| Sandbox.ChildReadsBack | crates/ta-linux-sandbox/src/main.rs:462-476 | that command line parses back to the same profile, command and arguments with the child flag set, for arbitrary arguments |
| Sandbox.FallbackRunsTheCommand | crates/ta-linux-sandbox/src/main.rs:406-413 | whatever bubblewrap is executed with ends in words on which the run inside passes validation, executes that command with those arguments, and never enters a sandbox again |

## Left out

- AgentLoop.Step: `execute` is a transition function, not a method with a loop, because its tool tasks outlive the steps that start them and push frames of their own; `collect_turn` and the history, queue and projection objects it calls are methods and classes.
- AgentLoop: a permit of the tool semaphore is held while a task is active, and tasks are joined in spawn order; the runtime's own scheduling and fairness are not modelled, nor is `APPROVAL_INTERRUPT_DEADLINE`.
- AgentLoop: the `Finish` result of `stream_turn` is never built there, so that arm of `execute` has no step; completion results, artifacts, token usage records and the provider session id change none of the state modelled.
- AgentLoop: text that a tool returns is one string; the JSON envelope of `tool_result` with its duration is not built.
- Approvals.ApprovalLifecycle.ApprovalsForQuery: the map's key order plays no part, since sequences increase.
- RunsList.ListNativeRuns: the library sort is a function that inserts into a sorted list; `RunsList.SortedUnique` makes the choice of algorithm immaterial.
- RunsList: the clamp of the client's limit before the store is called, and the run fields that no filter reads.
- Refresh: times are whole seconds, and lifecycle broadcasts, account data and error texts are not modelled; logout and login are out, as stated above.
- Refresh.SingleFlight: the guard map of locks is never pruned in the code, so growth of that map is not discussed.
- Connection: the writer task is an interference that takes messages off the queue or stops; encoding failures, sockets and real timeouts are its causes and not part of the model. The serialized form omits an absent error id rather than writing null.
- InFlight.CapHolds: a connection counts until its task has given its place back, a moment after it was finished, so a refusal can meet a connection that is already done.
- YamlKeys: agreement with a YAML parser is not claimed; list items are skipped by the code, so keys inside different items of a list share one path.
- Sandbox: Landlock, seccomp and bubblewrap themselves, descriptor closing, and the file-system tests behind the parameters. Component names are compared as texts rather than as bytes.
- Storage back ends, the orchestrator, HTTP, OAuth login, policy tables, wire serialization and user interfaces: input and output, or one-branch facts that would only add easy members.
