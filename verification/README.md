# Verified models of the omnara server

A Dafny model of the parts of the omnara server whose correctness is hard to see from the code, with
machine-checked proofs about them. Five components are modelled.

- **Context compaction.** An agent's history is an append-only log of events. When it grows too long,
  a prefix is replaced by a summary, called a checkpoint. `Events`, `SourceEnds`, `Worlds` and
  `Selector` model where the log may be cut and how a cut is chosen. `Store` models the paged reads,
  with other transactions extending the log between any two calls. `Candidates` models the search for
  the largest prefix that fits a token budget and the choice of a smaller one. `Rounds` says what a run
  does with one prefix, as a relation between the world, the answers it gets and its next step, and
  `Runner` proves the code's paged reads and loops against it: a whole run claims a model call, prepares,
  sends, judges, publishes, or starts over on a smaller prefix. The provider's answers, the retry policy
  and every refusal of the store are arbitrary.
  `Chain` draws the consequences for any sequence of runs interleaved with other work, and `Calls` for the
  order in which the server claims model calls.
- **Live event streams.** `EventStream` models one connection move by move, `LiveStreams` all
  connections of a server together with the reconciler that wakes them, as one machine whose steps
  interleave freely, and `Reconciler` the reconciler's own loops.
- **Daemon sockets.** `Drain` models the drain coalescer (two flags under a lock and a goroutine that
  comes and goes) and `Hub` the registry in which sockets replace one another.
- **Printers and parsers.** `Sse` proves server-sent event frames against the parser of sections 9.2.5
  and 9.2.6 of the WHATWG HTML standard, `JsonPointer` proves issue paths against sections 3 and 4 of
  RFC 6901, and `BearerToken` covers the token format. `Text` holds the string operations they share.
- **Authorization.** `Authz` proves the depth-first search over the implication table equal to
  reachability.

Code that updates state step by step is modelled by classes and loops whose contracts tie them to
specification functions; protocols are modelled as state machines, and their theorems range over every
run. `dafny verify dfyconfig.toml` checks everything.

## Conditions and a failed promise

Two properties of compaction hold on a condition that the runner leaves to its callers. The condition is
exact in each case, and the server's callers meet it.

- Published ranges tile the log from sequence 1 exactly when each run's watermark has reached the event
  of the checkpoint published before it (`Chain.ChainTilesIff`). The claim query by itself admits a run at
  an older watermark, which would start over (`Chain.OlderWatermarkOverlaps`, `Chain.TwoRunsMayPublish`).
  The order in which calls are claimed rules this out: in every history the ranges tile
  (`Calls.CheckpointsTile`).
- A boundary that a run takes for safe is safe exactly when no turn's opening events reach from before
  it to past the planned end (`Chain.TakenForSafeIsSafeIff`): the store lists opening groups only up to
  the source end (`Chain.HandedPlanMaySplitOpening`). The selector never offers such an end
  (`Calls.OfferedAtNewestIsSafe`).

One promise fails. A drain request on an open socket can be lost although its caller's context lives on:
it was coalesced into a loop that another caller started, and that caller's context ended
(`Drain.CoalescedCallCanBeLost`). It is served whenever the loop's own context lives and the socket stays
open (`Drain.ServedUnlessOwnLoopEnds`), and `Drain.CanBeLostIff` says exactly when it can still be lost.

## Model

| member | source | states |
|---|---|---|
| Events.InvisibleMeans | internal/compaction/planner.go:360-373 | an event has no model semantics exactly when it is a checkpoint, or has no tool name, call or outcome and an empty array as content |
| Events.EventTokensMean | internal/compaction/planner.go:254-256 | the estimate is one more than the whole groups of four content bytes |
| Events.RenderConcat | internal/compaction/runner_candidate.go:418-454 | rendering two pieces one after the other is the first rendering followed by the second, it fails exactly if one of them does, and an event no model can see renders to nothing |
| SourceEnds.LatestModelOutputMeans | internal/compaction/planner.go:320-325 | with ordered evidence the recorded last output of a turn is later than an event exactly when some later output of that turn exists |
| SourceEnds.LatestModelOutputByTurn | internal/compaction/planner.go:320-325 | the map built in one pass holds each turn's last model output, nothing else |
| SourceEnds.SafeEndsMembers | internal/compaction/planner.go:315-358 | a sequence is a safe end exactly when its event has model semantics, ends a settled step and no group is cut there |
| SourceEnds.SafeEndsAscending | internal/compaction/planner.go:315-344 | safe ends of ordered events are strictly ascending |
| SourceEnds.SafeCompactionSourceEnds | internal/compaction/planner.go:315-344 | the two loops compute exactly the safe ends |
| SourceEnds.CompleteTurnEndsMembers | internal/compaction/planner.go:123-146 | the complete-turn ends are exactly the candidates that are the last event of their turn and a model output; order is kept |
| SourceEnds.CompleteTurnSourceEnds | internal/compaction/planner.go:123-146 | the loops compute exactly the complete-turn ends |
| SourceEnds.BoundariesAroundTarget | internal/compaction/planner.go:148-158 | the scan yields the last candidate before the target and the first one past it |
| Selector.Validate | internal/compaction/planner.go:191-212 | accepts exactly the valid boundary inputs |
| Selector.CandidatesMembers | internal/compaction/planner.go:177-189 | a sequence is a candidate exactly when the sequence before it is a safe end inside the allowed source |
| Selector.RetainFromCandidates | internal/compaction/planner.go:177-189 | an error on an invalid input, all candidates otherwise |
| Selector.RetainedTailFitsTarget | internal/compaction/planner.go:160-175 | the early-exit loop agrees with the sum of the tail's tokens |
| Selector.WholeTurnRetainFrom | internal/compaction/planner.go:214-252 | the loops compute the whole-turn rule |
| Selector.WholeTurnBoundaryRetainFrom | internal/compaction/planner.go:96-121 | the loops compute the complete-turn rule |
| Selector.SelectRetainFrom | internal/compaction/planner.go:58-94 | an invalid input is rejected; otherwise the selection is the wanted one: the turn of the desired event whole, if its first opening event is past the source start, within the bounds, right behind a safe end and the turn is within a positive target; else the best place after a complete turn, if one is within the target or past it; else the best candidate; else none |
| Selector.ChoiceIsWanted | internal/compaction/planner.go:58-94 | that description, proved of the three rules in their order |
| Selector.WantedIsUnique | internal/compaction/planner.go:58-94 | the description leaves one selection only |
| Selector.WithoutTarget | internal/compaction/planner.go:160-175 | without a token target the tail starts at the last candidate at or before the desired sequence, else at the first after it |
| Selector.TokensAddUp | internal/compaction/planner.go:160-175 | the token counts of a tail and of a turn are sums over exactly the events at or after the sequence, and of the turn |
| Selector.SelectionIsSoundAndComplete | internal/compaction/planner.go:58-121 | a boundary is selected exactly when a candidate exists, and the selected one is a candidate |
| Selector.StepChoiceIsBest | internal/compaction/planner.go:70-93 | among all candidates the settled-step rule picks the last one at or before the desired sequence if some such tail fits its target, otherwise the first one past it |
| Selector.TurnBoundaryChoiceIsBest | internal/compaction/planner.go:96-121 | the same among the complete turns; the rule gives up exactly when no earlier turn fits and none follows |
| Selector.WholeTurnIsKept | internal/compaction/planner.go:214-252 | the whole-turn rule starts the tail at the first opening event of the turn it would split, at or before the desired sequence, and the turn is within the target |
| Selector.WholeTurnIff | internal/compaction/planner.go:214-252 | the whole-turn rule finds a place exactly when the turn of the desired event can be kept whole, and it is that turn's first opening event |
| Selector.ObstacleIsFrontierCut | internal/compaction/planner.go:276-293 | when the end cuts no group, a plan is split exactly by a group that the previous frontier cuts |
| Selector.PlannedIff | internal/compaction/planner.go:258-302 | a checkpoint is planned exactly when ids and watermark are given, the range is not empty and within the watermark, and every group is inside the range or apart from it; the plan is that range |
| Selector.CandidatePlans | internal/compaction/planner.go:258-302 | every candidate plans its range, unless the previous frontier cuts a group; then, and only then, the plan reports a split |
| Worlds.ListingCuts | internal/storage/queries/events.sql:110-155 | the listed groups cut exactly the points that separate a tool call from a result, or two opening events in view |
| Worlds.ListedCutIsReal | internal/storage/queries/events.sql:110-155 | whatever the query, a listed group is cut only where a tool call is separated from a result or two opening events of a turn |
| Worlds.RangeEndsMembers | internal/compaction/planner.go:315-358 | the safe ends computed from a range, its evidence and its listing are exactly the safe boundaries of the world in that range |
| Worlds.SafeAfterShrink | internal/compaction/runner_candidate.go:282-333 | moving the source end to a safe end changes no safe boundary at or below it |
| Worlds.SafeUnlessEndCutsOpening | internal/storage/queries/events.sql:137-151 | a boundary taken for safe is safe unless the source end itself separates opening events of a turn |
| Worlds.SafeStable | internal/compaction/planner.go:315-358 | growth of the log and of tool results changes no verdict at or below a durable watermark, in either direction |
| Store.OpeningEventsRequireVerbatimRetention | internal/compaction/planner.go:387-397 | true exactly when no model output among the events follows the opening event |
| Store.PlannerAndRunnerAgreeOnOpening | internal/compaction/planner.go:387-397 | the planner's answer over the events it holds is the runner's answer over the log |
| Store.UnansweredMeans | internal/compaction/runner_candidate.go:85-118 | the opening is unanswered exactly when the log has no model output after it up to the watermark |
| Store.RemainingMeans | internal/compaction/runner_candidate.go:120-158 | source remains exactly when a visible event after the end, within the watermark and before a protected opening, is in the log |
| Store.TakeSource | internal/compaction/runner_candidate.go:60-67 | one page of the range load takes exactly the page's events up to the end |
| Store.ScanForOutput | internal/compaction/runner_candidate.go:104-112 | one page of the opening check: found, stopped past the watermark, or all read |
| Store.ScanForSource | internal/compaction/runner_candidate.go:141-152 | one page of the remaining-source check: found, stopped past the watermark, or all read |
| Store.ExecutionStore.LoadClosedRange | internal/compaction/runner_candidate.go:46-83 | for any page size and with the log growing between reads: fails exactly when a read of the store failed; otherwise succeeds exactly when every sequence of the range is present, and returns precisely that range |
| Store.ExecutionStore.OpeningRequiresVerbatimRetention | internal/compaction/runner_candidate.go:85-118 | the paged answer equals the whole-log answer at return, and is missing exactly when a read failed |
| Store.ExecutionStore.HasRemainingSource | internal/compaction/runner_candidate.go:120-158 | true exactly when an event after the source, within the watermark and outside a protected opening, can still be summarised; missing exactly when a read failed |
| Store.ExecutionStore.Publish | migrations/000005_model_context_tools_policy.sql:153-162 | a checkpoint is recorded, with its event and its producing call, exactly when the store accepts it and no earlier one has its watermark or its end |
| Candidates.SourceNeedsLaterEvidence | internal/compaction/runner_candidate.go:376-393 | the loops decide whether some visible input is not answered inside the source |
| Candidates.LazyEvidenceRefinesEager | internal/compaction/runner_candidate.go:341-393 | when the source answers its own inputs, evidence past its end changes no safe end |
| Candidates.LazyTurnEndsAreSuperset | internal/compaction/planner.go:123-146 | complete-turn ends found with all evidence are among those found with the source alone |
| Candidates.LazyTurnEndsAreNotExact | internal/compaction/planner.go:123-146 | and the two can differ |
| Candidates.EndsTurnMeans | internal/compaction/planner.go:123-146 | a complete turn ends at a sequence exactly when a model output of the turn is there and nothing of the turn but checkpoints follows |
| Candidates.SearchLargest | internal/compaction/runner_candidate.go:217-231 | the binary search ends where the candidate before fits and the candidate at its answer does not, and fails only on a candidate that cannot be prepared |
| Candidates.LargestFittingRequest | internal/compaction/runner_candidate.go:166-266 | the result is the binary search's answer improved by the second pass, which `SecondPassMeans` spells out; it fails only on a request that cannot be prepared |
| Candidates.FitsMeans | internal/model/model.go:158-165 | an estimate fits exactly when it is positive and, with the whole output allowance, within the window |
| Candidates.SecondPassMeans | internal/compaction/runner_candidate.go:233-265 | when estimates ignore the allowance: the smallest complete turn if it is past the search's answer and leaves room for the minimum output, else the smallest safe end if it does, else the search's answer; a trimmed allowance is the largest that fits |
| Candidates.NothingFitsFully | internal/compaction/runner_candidate.go:233-265 | when nothing fits at full allowance the smallest complete turn is taken before the smallest safe end, each with the room it leaves, and there is no request exactly when neither leaves the minimum |
| Candidates.FitsAreInitial | internal/compaction/runner_candidate.go:217-231 | when estimates are positive and grow with the prefix, what fits is an initial part of the safe ends |
| Candidates.TargetsFit | internal/compaction/runner_candidate.go:233-265 | a chosen request ends at a safe end and fits with its own output allowance, whatever the estimates |
| Candidates.LargestRequest | internal/compaction/runner_candidate.go:166-266 | under a growing estimate every safe prefix that fits at full allowance ends no later than the chosen one, and none fits when none is chosen |
| Candidates.TrimmingIsExact | internal/compaction/runner_candidate.go:249-263 | a target is taken exactly when it fits at full allowance or its input leaves room for the client's minimum output, and then with the largest allowance that fits; the clamping of the usable input is part of the condition |
| Candidates.SummaryAllowanceFits | internal/compaction/runner_failure.go:259-289 | the allowance of the summary model is the largest within the preferred size, half the window and the normal allowance, and always leaves the safety margin |
| Candidates.NoRequestMeansIrreducible | internal/compaction/runner_candidate.go:166-266 | no request means that even the smallest safe prefix leaves no room for the minimum output |
| Candidates.RenderStep | internal/compaction/runner_candidate.go:418-454 | rendering event by event adds up to rendering the prefix at once |
| Candidates.FillPrefixBytes | internal/compaction/runner_candidate.go:302-311 | entry i is the size of rendering events 0..i at once; fails exactly when an event cannot be rendered |
| Candidates.NextSmallerEnd | internal/compaction/runner_candidate.go:282-333 | the loops compute the shrink rule below the current end |
| Candidates.ShrinkChoiceMeans | internal/compaction/runner_candidate.go:282-333 | the latest complete-turn end within half the bytes, else the first complete-turn end, else the latest safe end within half, else the first safe end |
| Runner.LoadWindow | internal/compaction/runner_candidate.go:341-374 | evidence loaded or not, the window shows the source, its evidence and the safe boundaries of the world at return; it fails only when a store call failed or the log has a gap |
| Runner.NextSmallerSourceEnd | internal/compaction/runner_candidate.go:282-333 | the next end is the preferred one of the safe boundaries below the current end; none is reported exactly when no boundary below is safe; an error only for a failed call, a gap or an event that cannot be rendered |
| Runner.Admit | internal/compaction/runner.go:33-119 | a run is admitted exactly when its plan is valid, its claim is its own and matches, an unanswered opening is out of the source and the start is right; otherwise it reports the first of these that fails, unless a store call failed |
| Runner.ResultForUnclaimed | internal/compaction/runner.go:512-549 | an unclaimed call reports the checkpoint that this very call produced, its scheduled retry, its end, or an error, by its state; a store error only if the read failed |
| Runner.PrepareRequest | internal/compaction/runner.go:198-255 | the largest request decides: over the whole source it is sent, and only if the planned end is itself safe; a smaller one replaces the source by its end; none means irreducible; other failures only for setup, loading or preparing |
| Rounds.AdmissibleMeans | internal/compaction/runner.go:33-119 | a run works under the claim it was handed, else under its own, else, when its own is a scheduled retry, under the next one |
| Runner.Summarize | internal/compaction/runner.go:256-305 | a truncated reply shrinks the source to the preferred smaller one whenever there is one; otherwise a summary is accepted exactly when the response ended normally or at its limit, without tool calls, not empty, saves the required tokens and the projected next request allows it; each failure has its cause |
| Rounds.AcceptedResponse | internal/compaction/runner_failure.go:291-337 | a response is accepted exactly when it ended normally or at its limit, without tool calls and with a text; exceeding the window is told apart from every other problem |
| Rounds.ReducesMeans | internal/compaction/runner_failure.go:339-359 | the reduction check is one inequality: summary and required saving fit into what they replace |
| Rounds.TokensMean | internal/compaction/runner_candidate.go:516-521 | the estimate is 0 for the empty text and one more than the whole groups of four otherwise |
| Runner.TruncatedShrinks | internal/compaction/runner.go:274-287 | a truncated reply shrinks to a safe boundary below whenever one exists |
| Runner.CheckProjection | internal/compaction/runner.go:306-385 | a checkpoint is let through exactly when the next request fits, or is over budget while the frontier moves, source remains and fewer than three checkpoints came in a row, unless a store call failed |
| Runner.JustifiedBeforeShrink | internal/compaction/runner_failure.go:182-225 | what a run over a smaller source guarantees holds for the larger one |
| Runner.FewerBoundaries | internal/compaction/runner_failure.go:182-225 | every replacement leaves strictly fewer boundaries to fall back to |
| Runner.Run | internal/compaction/runner.go:16-440 | ends whatever the provider and the store answer; publishes at most one checkpoint, at a safe end no later than planned, with the right start, never an unanswered opening event, at a token saving, and never twice for a watermark; tries at most end - start + 1 sources, and at most one more than the safe boundaries below the planned end; when it reports that no smaller source was left it has tried the smallest; never ends with a failure that calls for a smaller source; and, whatever commits meanwhile, does round by round what `Rounds.Round` says of the world at its start |
| Rounds.StepsFrom | internal/compaction/runner_failure.go:182-225 | a round and the rounds after the replacement of its source follow one another, each on the claim the replacement gave |
| Runner.SeenStable | internal/compaction/runner.go:16-440 | whatever commits after the start of a run with a durable watermark, the run sees the same source, safe ends, remaining events and opening |
| Runner.RunsEarlier | internal/compaction/runner.go:16-440 | a run over a later world is the same run over the world at its start |
| Runner.SmallerSourceFollows | internal/compaction/runner_failure.go:84-99 | in every round without disturbance, a context-window or payload-too-large failure, or a summary that saves nothing, goes on with the preferred smaller source; only if none is left does the run end, as irreducible; it is never retried |
| Runner.TruncatedReplyShrinks | internal/compaction/runner.go:274-287 | so does a truncated reply, as long as a smaller source is left |
| Runner.SummaryIsPublished | internal/compaction/runner.go:386-440 | a summary that saves tokens, with a next request that fits, is published over the whole source once the store accepts it |
| Runner.SourcesDescend | internal/compaction/runner_failure.go:182-225 | the sources a run tries get strictly smaller, each ending at a safe boundary of the one before |
| Runner.PublishSummary | internal/compaction/runner.go:386-440 | publishing gives exactly that checkpoint; when the store finds the boundary unsafe the preferred smaller source follows, or the verdict that none remains |
| Runner.RecordFailure | internal/compaction/runner_failure.go:77-180 | a summary that saves nothing, a context-window and a payload-too-large failure are never retried at this source: the preferred smaller source follows if a boundary below is safe, else the source is irreducible, with the right detail; every other failure is retried or final as the policy says, an irreducible one always final |
| Runner.ReplaceSource | internal/compaction/runner_failure.go:182-225 | the run goes on with the same start and a strictly smaller safe end on the new claim, or ends if the store refuses or was preempted |
| Chain.OfferedIsSafe | internal/compaction/planner.go:177-189 | an end the selector offers is safe with every opening event in view, then and ever after |
| Chain.StepKeepsInvariant | internal/compaction/runner.go:386-402 | every run and every other growth keeps every published checkpoint sound |
| Chain.EveryChainIsSound | internal/compaction/runner.go:16-440 | in every reachable state each checkpoint has its proper start, a safe end and a saving |
| Chain.UnansweredOpeningIsKept | internal/compaction/runner.go:46-52 | opening events unanswered at a run's watermark are never in what it summarised, in any later state |
| Chain.RunIsStep | internal/compaction/runner.go:28-440 | a run on a planned job is a step of a chain |
| Chain.NoGroupIsCut | internal/compaction/planner.go:315-344 | in every reachable state no group the store can list, whatever the query, is cut by a checkpoint's end |
| Chain.ChainTilesIff | internal/compaction/runner.go:46-75 | for any callers of the runner: the published ranges tile the log from 1 without gap or overlap exactly when each watermark reached the previous checkpoint's event |
| Chain.OlderWatermarkOverlaps | internal/storage/queries/context_checkpoints.sql:65-81 | whenever runs may publish at two watermarks, one after the other is a chain and the ranges overlap |
| Chain.TwoRunsMayPublish | internal/storage/queries/model_contexts.sql:98-132 | a concrete state in which that happens, with distinct watermarks and ends |
| Chain.HandedPlanMaySplitOpening | internal/storage/queries/events.sql:137-151 | a world in which a boundary inside a turn's opening events is taken for safe |
| Chain.TakenForSafeIsSafeIff | internal/storage/queries/events.sql:137-151 | a boundary taken for safe is safe exactly when no turn's opening events reach from before it to past the planned end |
| Chain.SummaryCostTelescopes | internal/compaction/runner_failure.go:339-359 | over any chain a summary costs at most its own source and all the sources along its lineage, each less its required saving |
| Chain.CumulativeCost | internal/compaction/runner_failure.go:339-359 | when every run saw its predecessor, the n-th summary costs at most the sum of all n sources, each less its required saving |
| Chain.SummaryIsCheaper | internal/compaction/runner_failure.go:339-359 | each cumulative summary costs strictly less than the prior summary plus the source |
| Calls.StepKeeps | internal/storage/executionstore/model_contexts_claims.go:162-176 | claiming, handing off, resuming, ending and publishing keep: the call under way is at the newest watermark, every checkpoint is behind it or was made for it, and each checkpoint sees its predecessor |
| Calls.EveryStateIsSound | migrations/000005_model_context_tools_policy.sql:352-425 | that holds in every state of every history |
| Calls.CheckpointsTile | migrations/000005_model_context_tools_policy.sql:138-162 | in every state of every history the published ranges tile the log from 1 without gap or overlap |
| Calls.OfferedAtNewestIsSafe | internal/storage/executionstore/model_contexts_claims.go:162-176 | what the selector offers at the newest call's watermark is safe and never ends inside a turn's opening events |
| Calls.SummaryCostIsCumulative | internal/compaction/runner_failure.go:339-359 | in every history each summary costs at most the sum of all sources so far, each less its required saving |
| EventStream.ChooseStart | internal/httpapi/agent_runtime_routes.go:640-652 | Last-Event-ID wins over after_sequence, which wins over 0; exactly the negative ones are rejected |
| EventStream.PageIsQuery | internal/httpapi/agent_runtime_routes.go:822 | a page is the next events past the cursor, at most a hundred |
| EventStream.EffectKeeps | internal/httpapi/agent_runtime_routes.go:816-925 | everything that can happen to a stream keeps its invariant: order, cursor, page, wakeups, completed calls |
| EventStream.AwakeUntilRead | internal/httpapi/agent_runtime_routes.go:885-924 | only the start of a durable read puts a pending wakeup to rest |
| EventStream.ReadsAgainIff | internal/httpapi/agent_runtime_routes.go:874-924 | a reader goes back to reading exactly when it is admitted, finds the slot full, or has written a page of a hundred |
| EventStream.MoveAdds | internal/httpapi/agent_runtime_routes.go:838-967 | what each move adds to the frames: the next event of the log, a best-effort frame, an error frame, or, for a delta, the delta exactly if well-formed and its call is not complete |
| EventStream.BlockedIsCaughtUp | internal/httpapi/agent_runtime_routes.go:885-924 | a stream blocked with an empty slot has written everything ever announced to it |
| EventStream.ResumeContinues | internal/httpapi/agent_runtime_routes.go:640-652 | what a client received before a reconnect and after it is one gapless piece of the log |
| EventStream.Connection.WritePage | internal/httpapi/agent_runtime_routes.go:838-873 | the record loop does what the reader's moves do, one after another |
| EventStream.Connection.WriteModelOutputDelta | internal/httpapi/agent_runtime_routes.go:950-967 | the delta is written exactly if it is well-formed and no frame so far carries the output of its model call |
| LiveStreams.StepKeeps | internal/httpapi/agent_event_reconciler.go:80-208 | every step of every party keeps the invariant of all streams, the registry and the pass |
| LiveStreams.EveryStateIsSound | internal/httpapi/agent_event_reconciler.go:80-208 | the invariant holds in every state of every run |
| LiveStreams.DeliveryIsExactlyOnce | internal/httpapi/agent_runtime_routes.go:815-876 | in every interleaving the events written are the log after the start, in order, each once; the registered cursor is the last of them; no delta follows its call's output |
| LiveStreams.WhatIsWritten | internal/httpapi/agent_runtime_routes.go:815-967 | in every interleaving each step adds to a connection's frames exactly what the log and the frames before determine |
| LiveStreams.DeltaIsWrittenIff | internal/httpapi/agent_runtime_routes.go:950-967 | in every interleaving a delta is written exactly if it is well-formed and no output of its model call was |
| LiveStreams.ReconnectContinues | internal/httpapi/agent_runtime_routes.go:640-652 | in every interleaving a client that resumes with the last id it received sees one gapless piece of the log over both connections |
| LiveStreams.SignalIsServed | internal/httpapi/agent_runtime_routes.go:816-925 | a signalled stream begins a durable read after the signal before it can block with an empty slot |
| LiveStreams.NoReadWithoutSignal | internal/httpapi/agent_runtime_routes.go:885-924 | a stream that blocked with an empty slot begins no durable read before it is signalled |
| LiveStreams.OneFrameRaces | internal/httpapi/agent_runtime_routes.go:885-924 | at most one best-effort frame precedes the durable read after a signal |
| LiveStreams.PassLeavesNoneBehind | internal/httpapi/agent_event_reconciler.go:128-172 | a completed pass leaves no stream that was registered throughout asleep behind the log as it was when the pass began |
| LiveStreams.SentOnlyIfBehind | internal/httpapi/agent_event_reconciler.go:156-172 | the reconciler wakes only streams that were behind a frontier of their log when it looked |
| Reconciler.WithdrawUndoesEnrol | internal/httpapi/agent_event_reconciler.go:197-208 | unregistering undoes registering and is idempotent |
| Reconciler.EventReconciler.Register | internal/httpapi/agent_event_reconciler.go:80-109 | refuses exactly when closed; otherwise enrols the stream at its cursor |
| Reconciler.EventReconciler.Unregister | internal/httpapi/agent_event_reconciler.go:197-208 | withdraws the stream, and the agent with its last stream |
| Reconciler.EventReconciler.Advance | internal/httpapi/agent_event_reconciler.go:184-191 | the cursor becomes the maximum |
| Reconciler.EventReconciler.ActiveAgentIDs | internal/httpapi/agent_event_reconciler.go:146-154 | each registered agent exactly once |
| Reconciler.EventReconciler.SignalBehindStreams | internal/httpapi/agent_event_reconciler.go:156-172 | afterwards a slot is full exactly if it was or its stream is behind a frontier |
| Reconciler.EventReconciler.Reconcile | internal/httpapi/agent_event_reconciler.go:128-144 | for any batch size a pass fills only slots of lagging streams, and a completed one fills them all, with one query per full batch and one for the rest; it breaks off exactly at a failed query |
| Drain.StepKeeps | internal/httpapi/daemon_socket_reports.go:139-175 | at most one loop is live, exactly when a flag is up, and calls that returned true equal passes begun plus drops plus the queued one |
| Drain.EveryStateIsSound | internal/httpapi/daemon_socket_reports.go:139-175 | that holds in every state of every run |
| Drain.QuietMeansServed | internal/httpapi/daemon_socket.go:105-129 | once no loop is live, every call, accepted or coalesced, had a pass begin after it, or a loop gave up |
| Drain.FateOfCall | internal/httpapi/daemon_socket_reports.go:139-175 | in every run: a pass began after the call, or the loop live when it returned gave up with its own context cancelled or the socket closed, or the call is still queued with that loop |
| Drain.ServedUnlessOwnLoopEnds | internal/httpapi/daemon_socket.go:105-129 | in every run a call is served by a later pass as long as the socket stays open and the context of the loop it left live does not end, whichever other contexts do |
| Drain.LostOnlyToOwnLoop | internal/httpapi/daemon_socket_reports.go:151-158 | a lost call was lost to that loop, which gave up after the call with its own context cancelled or the socket closed |
| Drain.CanBeLostIff | internal/httpapi/daemon_socket_reports.go:151-175 | with nothing else happening, a queued call can be lost exactly when the loop has decided to give up, or has yet to pass its check and its own context is cancelled or the socket closed |
| Drain.CoalescedCallCanBeLost | internal/httpapi/daemon_socket.go:111-128 | a call coalesced into a running pass is lost if that pass's context ends, though the caller's lives on |
| Drain.PassUnderAnotherContext | internal/httpapi/daemon_socket.go:105-129 | such a pass is reachable |
| Drain.DaemonSocket.EnqueueDrain | internal/httpapi/daemon_socket.go:105-129 | the queue flag is up afterwards; true exactly if it was down; a loop starts exactly if both flags were down |
| Drain.DaemonSocket.DrainLoop | internal/httpapi/daemon_socket_reports.go:139-175 | the loop ends with both flags down, and every call that arrives during a pass is followed by another pass unless the context ended |
| Hub.StepKeeps | internal/httpapi/daemon_socket_hub.go:189-224 | keys match their sockets, and a live socket missing from a map is closed or about to be |
| Hub.UnregisterSparesOthers | internal/httpapi/daemon_socket_hub.go:215-224 | unregistering never removes another socket's entry |
| Hub.OneOpenSocket | internal/httpapi/daemon_socket_hub.go:189-224 | in every reachable state each machine and each runtime has at most one open socket that is not about to close, and it is in both maps |
| Hub.MachineHeldByLatest | internal/httpapi/daemon_socket_hub.go:189-224 | a machine's entry is the socket registered last for it, unless that one was unregistered |
| Hub.RuntimeHeldByLatest | internal/httpapi/daemon_socket_hub.go:189-224 | the same for runtimes |
| Hub.DoomedIffReplaced | internal/httpapi/daemon_socket_hub.go:189-213 | in every run a socket is about to be closed by the hub exactly when another socket was registered for its machine or runtime while it was the latest for that key |
| Hub.ClosedMeans | internal/httpapi/daemon_socket_hub.go:189-213 | a socket is closed exactly if it was closed by itself or by the hub, and the hub closes only what was replaced |
| Hub.OpenMeans | internal/httpapi/daemon_socket_hub.go:189-224 | a socket is open exactly when it was registered and not unregistered since, nobody closed it and no registration replaced it |
| Hub.OthersStayOpen | internal/httpapi/daemon_socket_hub.go:189-213 | a registration for another machine and another runtime leaves an open socket open and in both maps |
| Hub.DaemonSocketHub.Replace | internal/httpapi/daemon_socket_hub.go:190-209 | the sockets to close are exactly the other ones that held the machine or the runtime, each once |
| Hub.DaemonSocketHub.Register | internal/httpapi/daemon_socket_hub.go:189-213 | both maps name the new socket, and exactly the other sockets that held one of its keys are closed |
| Hub.DaemonSocketHub.Unregister | internal/httpapi/daemon_socket_hub.go:215-224 | an entry is removed only if it is the socket's own |
| Text.TwoPassesAreLineFeeds | internal/httpapi/agent_runtime_routes.go:999-1000 | the two replacements turn exactly CRLF and CR into LF |
| Sse.WriteSseFrame | internal/httpapi/agent_runtime_routes.go:981-1010 | writes the frame, or refuses it and writes nothing, or, only if a write failed, has written a beginning of it |
| Sse.FeedsFrame | internal/httpapi/agent_runtime_routes.go:981-1010 | a client between frames reads a frame as one message with that name, id and data |
| Sse.PrintedStreamIsReadBack | internal/httpapi/agent_runtime_routes.go:981-1010 | any sequence of accepted frames and comments is parsed to exactly those messages, and the last event ID is the latest one printed |
| Sse.SurvivesIffAccepted | internal/httpapi/agent_runtime_routes.go:981-1010 | the frames refused are exactly those a client could not read back as one message with that name, id and data |
| Sse.PartialItemIsInvisible | internal/httpapi/agent_runtime_routes.go:981-1010 | a frame cut off before its last character changes nothing the client can see |
| Sse.BrokenStreamShowsWholeItems | internal/httpapi/agent_runtime_routes.go:811-925 | a stream broken anywhere shows exactly the items printed in full and their latest id |
| JsonPointer.UnescapeUndoesEscape | internal/agentconfig/issues.go:123-129 | the two-pass replacements undo each other on every text |
| JsonPointer.EscapeUndoesUnescape | internal/agentconfig/issues.go:123-129 | the other way round exactly on well-escaped reference tokens |
| JsonPointer.JsonPointerOf | internal/agentconfig/issues.go:107-121 | the loop prints the pointer of the segments' texts |
| JsonPointer.ItoaReadsBack | internal/agentconfig/issues.go:107-121 | a printed index is a minus sign for the negative ones and decimal digits that stand for it |
| JsonPointer.PointerSegments | internal/agentconfig/issues.go:163-173 | the loop computes the segments |
| JsonPointer.PointerRoundTrip | internal/agentconfig/issues.go:107-173 | the segments of a printed pointer are the texts printed, for every list |
| JsonPointer.ReprintedIffValid | internal/agentconfig/issues.go:107-173 | printing a pointer's segments gives it back exactly when it is a valid JSON Pointer |
| JsonPointer.NestingConcatenatesSegments | internal/agentconfig/issues.go:46-53 | wrapping an issue concatenates the segment lists exactly when a path is empty or the inner one begins with a slash |
| BearerToken.FourBytesEach | internal/bearertoken/token.go:31-35 | exactly four of the bytes not rejected stand for each alphabet character |
| BearerToken.DigitsReadBack | internal/bearertoken/token.go:170-177 | the digits of a value that fits stand for that value |
| BearerToken.ChecksumIsInjective | internal/bearertoken/token.go:170-177 | six digits tell all 32-bit checksums apart |
| BearerToken.EncodeChecksum | internal/bearertoken/token.go:170-177 | the loop fills the buffer with the base-62 digits |
| BearerToken.ValidateBase62 | internal/bearertoken/token.go:128-141 | accepts exactly the base-62 strings of that length |
| BearerToken.KindOfPrefixed | internal/bearertoken/token.go:98-126 | every prefix is recognised as its own kind, whatever follows |
| BearerToken.ParseIsInverse | internal/bearertoken/token.go:48-85 | Parse returns a kind exactly for the tokens format produces for that kind |
| BearerToken.TokenMeans | internal/bearertoken/token.go:48-85 | Parse returns a kind exactly for "omnara_", the kind's name, "_v1_", 43 base-62 characters, an underscore and six base-62 digits that stand for the checksum of all before the underscore |
| BearerToken.GenerateSecret | internal/bearertoken/token.go:143-168 | the secret is the first characters the unbiased bytes stand for; it fails only at a failed or empty read with too few |
| BearerToken.GeneratedTokenParses | internal/bearertoken/token.go:40-58 | a secret of the right form always makes a token that parses to its kind |
| Authz.Search.Implies | internal/authz/authz.go:70-84 | with the shared visited set: a find is reachable, a failure has explored everything it added without meeting the goal; the search ends on any finite table |
| Authz.ActionImplies | internal/authz/authz.go:66-84 | true exactly when a chain of implications leads from the granted to the requested action |
| Authz.ReachesItself | internal/authz/authz.go:66-84 | implication is reflexive |
| Authz.ReachesIsTransitive | internal/authz/authz.go:66-84 | implication is transitive |
| Authz.RoleAllows | internal/authz/authz.go:86-102 | true exactly when some grant of the role reaches the action |
| Authz.OrgRolesNest | internal/authz/authz.go:43-57 | owner allows all that admin allows, admin all that member allows |
| Authz.ProjectRolesNest | internal/authz/authz.go:43-64 | admin, developer, operator and viewer are nested likewise |
| Authz.OrgRolesExactly | internal/authz/authz.go:43-57 | the exact set of actions each organisation role allows; the roles are strictly nested |
| Authz.ProjectRolesExactly | internal/authz/authz.go:43-64 | the exact set of actions each project role allows; the roles are strictly nested |

## Left out

- SQL, Redis, websockets, object storage, email and HTTP clients; the model keeps only what their callers rely on: event pages come ascending and bounded, group listings follow the query's text, an agent's events are numbered 1, 2, and so on.
- Growth of the log is assumed to append events in order, to answer open tool calls later than the log's end, and to add opening events only to new turns, as the input admission transaction does.
- Runner.Run: the guarantees about the published checkpoint and the round-by-round description are stated for a watermark that is durable when the run starts, because the caller always passes one; termination and the round bound need no such condition.
- The store's own boundary checks at publication are an arbitrary refusal; only its unique watermark and end per checkpoint are modelled.
- No other party publishes a checkpoint for the agent during a run, because publishing needs the agent's runtime lock, which the run holds.
- Attempts, turns, stop events and steering inputs that further restrict which calls are claimed or resumed; `Calls` allows more histories than the server does.
- Candidates.LargestRequest: stated for estimates that grow with the prefix, because the adapters that compute estimates are opaque.
- Candidates.SecondPassMeans: stated for estimates that ignore the output allowance, for the same reason; whatever the estimates, `Candidates.TargetsFit` holds.
- Candidates.NothingFitsFully: likewise.
- Candidates.NoRequestMeansIrreducible: stated for estimates that grow with the prefix and ignore the output allowance, for the same reason.
- Prompt text, the rendering of content parts and tool output reduction are one abstract text per event; token estimates, retry timing and provider evidence fields are abstract or arbitrary.
- RecentTailTargetTokens and the model selection checks would only add easy members.
- EventStream.Connection.WritePage: the sequential loop without a fault; faults and interleavings are covered by the machine's moves.
- Reconciler.EventReconciler.Reconcile: runs without interference; interleavings are covered by `LiveStreams`. The compare-and-swap loop of `advance` is one atomic maximum, since only the stream itself advances its cursor.
- Subagent subscriptions, tool call update contents and buffer overflow of best-effort channels: a best-effort frame is one abstract frame.
- Liveness under a scheduler: the theorems are about what precedes a blocked or quiet state, and say nothing about how soon a step is taken.
- drainWork, the send queue and presence ownership of daemon sockets.
- Strings are sequences of characters; UTF-8 decoding and the replacement of malformed bytes are not modelled. Byte lengths and character counts agree on all accepted tokens.
- CRC-32 is an arbitrary 32-bit function; randomness and entropy are a list of reads.
- DisplayPath, YAML locations and the sorting of issues.
- Integers are unbounded; sequences and token counts stay far below 64 bits.
