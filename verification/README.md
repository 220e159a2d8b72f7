# Verified cores of the agent platform

A Dafny model of the self-contained cores of the platform: the arithmetic its judges are
measured with, the state machines that carry telemetry, threads and agent loops, the
verifier and the review merge that decide verdicts, the reducers that survive replay, and
the printer/parser pairs that keep rule maps and routing defaults in step. Every module
follows one source component: code that updates state in place is a class, an array or a
loop with invariants, tied to a function on values; the lemmas are about that function.

| module | component | what is proved |
|---|---|---|
| `CohensKappa` | `meta/drift.py` | the confusion-matrix kappa equals a definition that has no matrix; its range, its extreme, its symmetry |
| `JudgeValidation` | `meta/judge_validation.py` | tallies are set sizes; the prevalence correction is exact on its own set; bias and retest bounds |
| `TelemetryBridge`, `FieldGrowth` | `middleware/telemetry_bridge.py` | buffers are a function of the call history; traces do not interfere; every delta is settled once; when fields keep their limit, exactly |
| `ThreadStore`, `ThreadOwners`, `ThreadTitle` | `agent_ui_adapter/server.py` | paging stays right while other requests create, rename and archive; which operations in other users' names an owner can notice, exactly |
| `Router`, `FallbackLoop`, `LoopSpending` | `components/router.py`, `meta/fallback_prototype.py` | the books of whole runs of the checkpointed loop; what the history bounds, and when the budget bounds what a run attempts, exactly |
| `AnswerVerifier`, `AnswerFallback` | `components/answer_verifiers.py` | runs are the maximal runs; some answer is accepted if and only if the graph has no cycle; which orders are accepted on the edges of their own text, exactly: a right one only without arrows |
| `ReviewMerge`, `ReviewGuarantees`, `DeterministicReview` | `meta/code_reviewer.py` | of every review: the deterministic half controls the criticals of the trusted dimensions, its verdict is never softened, and exactly which LLM reports can make it reject |
| `StateReducers`, `Reflexion` | `orchestration/state.py`, `components/reflexion.py` | every replay schedule ends in the plain run's channel; the re-entry budget binds, and exactly when |
| `Metrics` | `meta/analysis.py` | one pass with a dozen accumulators equals an order-free summary |
| `CiteLint`, `ReviewScaffold` | `code_reviewer/` | parsing a scaffolded map gives back its tokens; drift is exactly what was added since |
| `Optimizer` | `meta/optimizer.py` | reading a rewritten source gives the proposal exactly for non-negative numbers; the last write wins |

`Basics`, `Sorting`, `Text` and `Wrappers` hold small shared facts, the language's sorting and string
operations, and result types.

Numbers the program keeps as floats are exact reals, taken before the program rounds them.
Clocks, fresh ids, and the outcomes of language-model, tool and exporter calls are inputs,
and the theorems hold for all of them.

## Where the code is not what its documentation says

- The bridge documents that per-trace buffers are cleared when a run finishes. When the
  exporter raises on the finish event they are not (`TelemetryBridge.RunFinishClears` gives
  the exact condition), and the safety-net finish never clears them
  (`TelemetryBridge.SafetyNetKeepsDeltas`).
- The bridge calls its field limits bounds. It cuts before it scrubs, and a replacement can be
  longer than what it replaces, so a field can outgrow its limit
  (`TelemetryBridge.ShortMatchOutgrowsLimit`); `FieldGrowth.ValueKeepsLimitIff` says exactly which
  values keep it.
- `_ThreadStore.create` accepts a client id it already has. The creator is then shown the thread
  twice (`ThreadOwners.ListedOnceIff`), and when the id is another owner's live thread, that owner
  loses it to the creator (`ThreadOwners.OthersChangeViewIff`). A cursor that was archived ends the
  reading (`ThreadStore.PageIsRightIffCursorLives`).
- The router counts past escalations in the model history, which the loop writes only for
  iterations that succeed. So `max_escalations` bounds what is recorded
  (`FallbackLoop.RecordedPicksAreBounded`), but a run whose tools keep failing escalates in every
  further iteration, and its step results say so: `LoopSpending.EscalationsBoundedIff`,
  `LoopSpending.EscalatedResultsBoundedIff` and `LoopSpending.ExpenseBoundedIff` say exactly for
  which configurations the bounds hold. The retry branch cannot be reached from the loop, which
  never records a retryable error; a success does not erase the last error type.
- The topological-sort verifier supports orders written as arrow chains, and falls back to the
  edges in the task and the answer. There an arrow of the answer is a dependency the other way
  round. A right order is always presented, but it is accepted if and only if it is written without
  an arrow, and rejected otherwise (`AnswerFallback.RightOrderAcceptedIff`). That is for texts in
  which no arrow joins the task to the answer; with one, the first two names may carry an arrow
  (`AnswerFallback.SpelledOrderAcceptedIff`, `AnswerFallback.ChainAcceptedAcrossTheSeam`).
- The merge is documented to downgrade uncorroborated LLM criticals in D1 and D4. It does so for what
  is reported under these dimensions (`ReviewGuarantees.TrustedViolationsAreDeterministic`), but the
  policy looks at the dimension a finding names, so one that names D1 or D4 and is reported elsewhere
  can reject (`DeterministicReview.ReviewRejectsIff` says which).
- A critique's tag falls back from the task id to the workflow id, which is documented to keep it
  non-empty. When both are empty no critique counts and the budget does not bind
  (`Reflexion.BudgetBindsIff`).
- The optimizer promises a written file that carries the proposal. A negative number comes
  back as a minus applied to a literal, which the reader skips
  (`Optimizer.RoundTripIff`, `Optimizer.SecondWriteIsUnchangedIff`).

## Model

| member | source | states |
|---|---|---|
| CohensKappa.Compute | meta/drift.py:106-135 | The program's kappa is the definition counted from the lists, lies in [-1, 1], is 0 on empty or unequal lists, and raises exactly when there is no category for a non-empty pair |
| CohensKappa.FillConfusion | meta/drift.py:116-121 | The matrix filled in place holds, per cell, the number of positions with that pair of clamped categories |
| CohensKappa.SumDiagonal | meta/drift.py:123-123 | The diagonal is the number of agreements |
| CohensKappa.SumRow | meta/drift.py:125-125 | A row sum is the first rater's marginal |
| CohensKappa.SumColumn | meta/drift.py:126-129 | A column sum is the second rater's marginal |
| CohensKappa.SumsOfTheMatrix | meta/drift.py:118-129 | Row, column and diagonal sums are marginals and agreements, and the marginals add up to the list |
| CohensKappa.MarginProductsBound | meta/drift.py:125-130 | Four times the marginal products stay below the marginals plus twice the diagonal, scaled by the length: the inequality behind the lower bound |
| CohensKappa.AgreementRates | meta/drift.py:123-130 | Both rates lie in [0, 1], twice the expected agreement is at most one plus the observed, and observed agreement is 1 exactly when every clamped rating agrees |
| CohensKappa.KappaBounds | meta/drift.py:106-135 | Kappa never leaves [-1, 1] |
| CohensKappa.KappaOneIsAgreement | meta/drift.py:132-135 | Kappa is 1 exactly when all clamped ratings agree, and the exit for an expected agreement of 1 is only reached when the observed one is 1 |
| CohensKappa.KappaSymmetric | meta/drift.py:106-135 | Swapping the raters changes nothing |
| CohensKappa.ConstantRaterEarnsNothing | meta/drift.py:130-135 | A rater who always gives one category gets kappa 0, unless the other does too and they agree |
| JudgeValidation.ConfusionCounts | services/governance/goaljudge_calibration.py:106-127 | The four tallies are the sizes of the four quadrants and add up to the items; empty or differing key sets raise |
| JudgeValidation.RatesAreComplementary | meta/judge_validation.py:94-107 | A rate is missing exactly when its gold class is empty, lies in [0, 1], and adds up to 1 with its complement |
| JudgeValidation.CorrectionInverts | meta/judge_validation.py:133-166 | Correcting what an imperfect judge is expected to observe at prevalence theta returns theta, unclamped |
| JudgeValidation.ExactOnItsOwnSet | meta/judge_validation.py:212-214 | On the set the rates were measured on, the raw estimate is the gold failure rate, so it is never clamped |
| JudgeValidation.PrevalenceIsMixed | meta/judge_validation.py:212-213 | The observed failure rate mixes the judge's two rates in the proportion of the gold classes |
| JudgeValidation.ValidateJudge | meta/judge_validation.py:190-245 | The gate passes exactly on two measured rates at or above their floors, names every shortfall and nothing else, and its corrected estimate is the share of gold failures |
| JudgeValidation.MeasurePositionBias | meta/judge_validation.py:324-363 | Agreement and first-position rate are the shares they claim to be; the pull towards the first slot is at most half the disagreement, and attains it when every inconsistent item leans the same way |
| JudgeValidation.TallyPositions | meta/judge_validation.py:346-353 | The loop collects exactly the order-dependent items and counts first picks over both presentations |
| JudgeValidation.PicksAgainstStuck | meta/judge_validation.py:346-357 | First picks differ from the number of items by at most the inconsistent ones |
| JudgeValidation.TestRetest | meta/judge_validation.py:265-297 | Over the items with two or more trials, the mean majority share is at least halfway from the consistency to 1, and both reach 1 together |
| JudgeValidation.TallyTrials | meta/judge_validation.py:281-288 | The loop sums the majority shares and collects exactly the items with both verdicts |
| JudgeValidation.MajorityFractionRange | meta/judge_validation.py:284-288 | A majority share lies in [1/2, 1] and is 1 exactly for a unanimous item |
| JudgeValidation.MajoritySumBounds | meta/judge_validation.py:290-291 | Flipped items lose at most one half each, and something each |
| TelemetryBridge.FieldsKeepLimitIff | middleware/telemetry_bridge.py:94-100 | Every field keeps its limit if and only if the scrubber does not outgrow the room it is given, for whole fields and for cut ones |
| TelemetryBridge.ShortMatchOutgrowsLimit | services/governance/black_box_publisher.py:137-143 | A full field that ends in a short address outgrows its limit by four characters, once the address is replaced |
| FieldGrowth.RedactText | services/governance/black_box_publisher.py:137-143 | The loop applies one rule after the other, each to what the ones before it left |
| FieldGrowth.ValueKeepsLimitIff | middleware/telemetry_bridge.py:94-100 | A value keeps the limit of its field if and only if its matches grow, over all rules, by no more than the room it leaves, and by nothing at all when it is cut |
| FieldGrowth.LongMatchesKeepLimits | services/governance/black_box_publisher.py:137-143 | Rules with no match shorter than its replacement keep every limit |
| TelemetryBridge.CutsAreMarked | middleware/telemetry_bridge.py:97-100 | A field that was cut ends in the marker, whatever the scrubber does |
| TelemetryBridge.StepRoundTrip | middleware/telemetry_bridge.py:115-131 | The step written before the colon of a tool call id is read back, whatever the rest contains |
| TelemetryBridge.Bridge.DropTrace | middleware/telemetry_bridge.py:110-112 | Removes exactly the entries of the trace |
| TelemetryBridge.Bridge.ClearTraceBuffers | middleware/telemetry_bridge.py:103-112 | All three maps lose the trace's entries and keep every other one |
| TelemetryBridge.Bridge.BuildAttributes | middleware/telemetry_bridge.py:134-212 | Pops what it merges, even when building a field then raises, and builds the export of the event, or none for the skipped types |
| TelemetryBridge.Bridge.EmitDomainEvent | middleware/telemetry_bridge.py:215-292 | The buffers and the exports after one event, whether building its fields or the exporter raises or not; it never fails |
| TelemetryBridge.Bridge.EmitRunFinishedSafetyNet | middleware/telemetry_bridge.py:295-335 | Exports and releases, and leaves every buffer as it is |
| TelemetryBridge.TracesDoNotInterfere | middleware/telemetry_bridge.py:89-112 | For every interleaving, one trace's buffers and exports are those of its own calls alone |
| TelemetryBridge.BuffersAreTheHistory | middleware/telemetry_bridge.py:245-286 | At every moment the buffers hold exactly the pending deltas and the unconsumed starts, as told from the calls alone |
| TelemetryBridge.MergedCallCarriesPendingDeltas | middleware/telemetry_bridge.py:177-212 | A merged message without text of its own carries the in-order concatenation of exactly its pending deltas |
| TelemetryBridge.MessageIsFolded | middleware/telemetry_bridge.py:177-212 | From start to end, a message's export carries the bounded, scrubbed input of its start event and the time between the two, whatever other calls come between |
| TelemetryBridge.ToolCallIsFolded | middleware/telemetry_bridge.py:158-175 | From start to result, a tool's export carries its name, bounded arguments and result, step and duration |
| TelemetryBridge.MergedToolCarriesLastStart | middleware/telemetry_bridge.py:158-175 | A tool result is merged with the last unconsumed start of its own call |
| TelemetryBridge.TokenIndicesAreDeltas | middleware/telemetry_bridge.py:245-248 | The pending deltas belong to the message and come in the order they were emitted |
| TelemetryBridge.DeltasAreConserved | middleware/telemetry_bridge.py:186-187 | Every delta is still pending or was settled by exactly one call, so none reaches two exports or another message |
| TelemetryBridge.RunFinishClears | middleware/telemetry_bridge.py:275-286 | After a run finish no entry of the trace is left, if and only if the export did not raise or there was none |
| TelemetryBridge.SafetyNetKeepsDeltas | middleware/telemetry_bridge.py:295-335 | The safety-net finish keeps the deltas of a dead run pending |
| TelemetryBridge.ExporterFailuresStayLocal | middleware/telemetry_bridge.py:275-292 | Apart from run finishes, what the exporter does to some calls changes no buffer, and no export of any other call |
| ThreadStore.ThreadStore.Create | agent_ui_adapter/server.py:207-229 | Honours a client id, derives the title from the first message, appends to the order, and keeps the map and the order consistent |
| ThreadStore.ThreadStore.GetThread | agent_ui_adapter/server.py:231-240 | Finds a thread for an owner exactly when it is the owner's and live |
| ThreadStore.ThreadStore.LiveThreads | agent_ui_adapter/server.py:246-251 | Walking the order backwards yields the owner's live threads, newest first |
| ThreadStore.ThreadStore.ListThreads | agent_ui_adapter/server.py:242-260 | The page and its next cursor, for every cursor and every limit, negative ones included |
| ThreadStore.ThreadStore.Rename | agent_ui_adapter/server.py:262-270 | Changes the title of a live thread of the owner and nothing else |
| ThreadStore.ThreadStore.Archive | agent_ui_adapter/server.py:272-279 | Succeeds exactly on a live thread of the owner, which nobody finds again, and keeps its place in the order |
| ThreadStore.VisibleIsSorted | agent_ui_adapter/server.py:246-251 | With distinct ids, the listing holds exactly the live threads, each once, newest first |
| ThreadStore.PageAfterCursor | agent_ui_adapter/server.py:252-260 | With a live cursor, a page is the next threads older than it, and the next cursor is its last thread unless nothing older is left |
| ThreadStore.PageIsRightIffCursorLives | agent_ui_adapter/server.py:253-260 | A page shows what is older than the cursor if and only if the cursor is still live or nothing is left; a dead cursor gives an empty last page |
| ThreadStore.OpKeepsOrder | agent_ui_adapter/server.py:207-279 | No operation moves a thread, and ids stay distinct exactly while creates are fresh |
| ThreadStore.OnePage | agent_ui_adapter/server.py:242-260 | Every live thread is on the page or older than its last one |
| ThreadStore.PagingIsStable | agent_ui_adapter/server.py:207-279 | Under interleaved fresh creates, renames, and archives of any thread but the cursor, a reading is strictly newest first, collects every thread visible throughout, and ends |
| ThreadStore.ReadingFromTheStart | agent_ui_adapter/server.py:242-260 | From no cursor to no cursor: no thread twice, all that stayed visible, and an end within as many pages as there were threads |
| ThreadTitle.TitleIsTidy | agent_ui_adapter/server.py:129-148 | A title is not empty, at most sixty characters, and has no whitespace but single blanks between words |
| ThreadTitle.TitleIsItsOwn | agent_ui_adapter/server.py:129-148 | A title taken for a first message is its own title |
| ThreadOwners.RepeatedIdIsListedTwice | agent_ui_adapter/server.py:207-229 | From every store, creating with a known id shows the creator a thread twice |
| ThreadOwners.ListedOnceIff | agent_ui_adapter/server.py:207-229 | The creator's listing stays free of repetitions if and only if the id is fresh |
| ThreadOwners.OthersChangeViewIff | agent_ui_adapter/server.py:231-279 | An operation in another user's name changes what an owner finds or is shown if and only if it creates with the id of one of the owner's live threads |
| ThreadOwners.TakenThreadChangesHands | middleware/app_prod.py:453-465 | Then the owner no longer finds the thread, and the creator does |
| ThreadOwners.OwnersDoNotInterfere | agent_ui_adapter/server.py:207-279 | While creates take fresh ids, an owner's part of the store after any requests is what the requests in the owner's name alone make of it |
| ThreadOwners.PagesDoNotInterfere | agent_ui_adapter/server.py:242-260 | So is every page the owner reads |
| ThreadOwners.ListingIsVisible | agent_ui_adapter/server.py:246-251 | The threads an owner can look up, in order, are the ones listed |
| Router.FirstFit | components/router.py:65-79 | Looking up by tier or by name returns a registered model that fits, or none exactly when none does |
| Router.SelectSameModel | components/router.py:98-115 | The backward scan finds the model used last, or falls back |
| FallbackLoop.FallbackState.CountFailure | meta/fallback_prototype.py:178-182 | The failure bookkeeping on the restored state, and nothing else |
| FallbackLoop.FallbackReactLoop.Run | meta/fallback_prototype.py:136-293 | The loop over the mutable state with its two rollback points reports what iterating one step on values gives |
| FallbackLoop.FallbackReactLoop.Iterate | meta/fallback_prototype.py:154-183 | One iteration; a raised completion leaves no trace of its routing in the state |
| FallbackLoop.FallbackReactLoop.Respond | meta/fallback_prototype.py:187-251 | The tool and answer branches; a raising tool keeps the request and drops everything after the second checkpoint |
| FallbackLoop.FallbackReactLoop.RecordSuccess | meta/fallback_prototype.py:253-281 | The bookkeeping of an iteration without a failure |
| FallbackLoop.RunAccounting | meta/fallback_prototype.py:154-281 | For every sequence of outcomes: at most max_steps iterations, one result per completion that came back, with strictly increasing ids and telling what its iteration was, one history entry per iteration without failure, and the error counter is the trailing failed run |
| FallbackLoop.RunStopsExactly | meta/fallback_prototype.py:283-368 | A run stops at its first final answer and otherwise exactly when its steps run out, and is reported completed exactly when that answer is not empty |
| FallbackLoop.FinishAccounts | meta/fallback_prototype.py:154-281 | Transcript, results, history, counters and last error are told from the outcomes alone, in every reachable state |
| FallbackLoop.RecordedPicksAreBounded | meta/fallback_prototype.py:271-281 | The history never records more than max_escalations escalations, each after an unbroken failed run of at least the threshold, and nothing from the retry branch; with a cheap steady state it records at most max(1, max_escalations) capable or reasoning picks |
| FallbackLoop.FastTierIsCheap | components/router.py:386-388 | A registered fast tier makes the steady state cheap |
| FallbackLoop.RecordedExpensiveBoundedIff | components/router.py:359-389 | The bound on recorded expensive picks holds for every run if and only if the steady state is cheap or the run too short or too poor to exceed it |
| LoopSpending.HistoryRecordsSuccesses | meta/fallback_prototype.py:169-281 | The history records exactly what the iterations without failure spent |
| LoopSpending.ResultsShowHeard | meta/fallback_prototype.py:205-229 | The step results show what all iterations with a completion spent, failed tools included |
| LoopSpending.FailingRunIsWorst | meta/fallback_prototype.py:154-281 | No outcomes make a run escalate, or pick an expensive model, more often than one in which every tool fails; its number is the exact maximum |
| LoopSpending.WorstInClosedForm | components/router.py:350-389 | That maximum in closed form: all iterations after the first escalate_after_failures, and the planning step |
| LoopSpending.EscalationsBoundedIff | components/router.py:350-378 | The escalations a run attempts stay within max_escalations for every outcome if and only if there is nothing to escalate to, no budget to do it, or no more than max_escalations steps after the threshold |
| LoopSpending.EscalatedResultsBoundedIff | meta/fallback_prototype.py:205-229 | The step results that name an escalation stay within it under exactly the same condition |
| LoopSpending.ExpenseBoundedIff | components/router.py:350-389 | The expensive models a run asks for stay within max(1, max_escalations) if and only if the configuration leaves no more iterations to ask in |
| FallbackLoop.PlainAnswersStayExpensive | components/router.py:380-388 | With an expensive steady state, plain answers pick an expensive model in every step |
| FallbackLoop.LastErrorIsNeverTerminal | meta/fallback_prototype.py:181-227 | The loop records no other error type than its two, so neither the retry branch nor the terminal exit is reached |
| AnswerVerifier.NodeRuns | components/answer_verifiers.py:412-446 | The scanner returns the runs, with their taints |
| AnswerVerifier.RunsAreTheMaximalRuns | components/answer_verifiers.py:412-446 | They are exactly the maximal runs of node tokens joined by separators, tainted exactly by a node-shaped stranger |
| AnswerVerifier.RunsHoldTheNodeTokens | components/answer_verifiers.py:426-446 | Concatenated, they are the node tokens of the text, all of them, in order |
| AnswerVerifier.ParseOrder | components/answer_verifiers.py:377-404 | Returns the order the answer presents, and none exactly when it presents none it can be held to |
| AnswerVerifier.PresentedOrderIsPermutation | components/answer_verifiers.py:391-398 | A presented order names every node of the graph exactly once |
| AnswerVerifier.ParseEdgesFromText | components/answer_verifiers.py:368-369 | The search collects the names on both sides of each arrow, without overlap |
| AnswerVerifier.ParseEdges | components/answer_verifiers.py:356-365 | The edges of all tool outputs |
| AnswerVerifier.Verify | components/answer_verifiers.py:316-348 | On the observed edges, or else those of the task and the answer itself: abstains, accepts and rejects, each if and only if; a rejection names a presented order that violates an edge |
| AnswerFallback.AcceptedRunHasNoArrow | components/answer_verifiers.py:328-348 | On the edges of its own text, with no arrow joining task and answer at the head of the run, an accepted order has no arrow anywhere in the run that presents it |
| AnswerFallback.ChainsAreNeverAccepted | components/answer_verifiers.py:328-348 | There an answer that is one arrow chain is never accepted, whatever order it gives, as long as no arrow joins the task to it |
| AnswerFallback.PresentedArrowIsRejected | components/answer_verifiers.py:328-348 | There an order that is presented by a run with an arrow is rejected, not just left undecided |
| AnswerFallback.SpelledOrderAcceptedIff | components/answer_verifiers.py:328-348 | For every task, seam and spelled order: it is presented exactly when it names every node once, and accepted exactly when it also respects the task's edges and the one at the seam and has no arrow that the search can start an edge with |
| AnswerFallback.JoinedRespectsIff | components/answer_verifiers.py:328-348 | A spelled order respects the edges of task and answer together exactly when it respects the task's and the one at the seam and has no arrow that the search can start an edge with |
| AnswerFallback.RightOrderAcceptedIff | components/answer_verifiers.py:328-348 | An order that is right by the task, spelled on its own, is always presented, accepted if and only if it is written without an arrow, and rejected otherwise |
| AnswerFallback.JoinedEdges | components/answer_verifiers.py:328-330 | The edges of the joined text are the task's, the answer's, and the one an arrow at the seam makes of the last free name and the first |
| AnswerFallback.ChainAcceptedAcrossTheSeam | components/answer_verifiers.py:328-348 | After a task that ends in c and an arrow, the chain from b to c is accepted |
| AnswerVerifier.CheckEdges | components/answer_verifiers.py:343-348 | The position table decides whether every dependency comes before its dependent |
| AnswerVerifier.CyclesAreNeverAccepted | components/answer_verifiers.py:339-348 | A graph with a cycle is never accepted, whatever the answer says |
| AnswerVerifier.OrderExists | components/answer_verifiers.py:344-346 | Every acyclic graph has an order that respects it |
| AnswerVerifier.SpelledOrderIsPresented | components/answer_verifiers.py:377-404 | An answer that is the names of an order with separators between them presents it exactly when it names every node once |
| AnswerVerifier.WrittenOrderIsPresented | components/answer_verifiers.py:389-404 | Writing an order down and parsing it presents that order |
| AnswerVerifier.AcceptableIffAcyclic | components/answer_verifiers.py:316-348 | Some answer is accepted if and only if the dependencies have no cycle |
| ReviewMerge.DemoteCosmeticWarnings | meta/code_reviewer.py:296-328 | The loop turns exactly the low-confidence warnings into notes, in place, and says so with the confidence in two places |
| ReviewMerge.PolicyCounts | meta/code_reviewer.py:331-414 | The verdict is a function of three counts of the findings as given; demotion changes none of them |
| ReviewMerge.PolicyIgnoresSecondDemotion | meta/code_reviewer.py:356-356 | A second demotion changes neither findings nor verdict |
| ReviewMerge.PolicyMonotone | meta/code_reviewer.py:331-414 | More findings never soften the verdict, and their order does not matter |
| ReviewMerge.ReconcileLlmFindings | meta/code_reviewer.py:1451-1490 | In D1 and D4 exactly the uncorroborated criticals are downgraded, each with one entry appended to the shared gap list |
| ReviewMerge.MergeReports | meta/code_reviewer.py:1310-1449 | The whole merge: dimensions, verdict, statement, gaps, log and files |
| ReviewMerge.MergeDimensions | meta/code_reviewer.py:1314-1357 | Deterministic dimensions host what the LLM adds, without repeated (rule, file) pairs |
| ReviewGuarantees.HostKeepsBoth | meta/code_reviewer.py:1335-1354 | A hosted dimension keeps its own findings first, repeats none of their violations, shows every other finding of its guest, and counts each addition as confirmed |
| ReviewGuarantees.GapsCountDowngrades | meta/code_reviewer.py:1467-1490 | Every downgrade is on record exactly once, and no finding is dropped |
| ReviewGuarantees.DeterministicHalfComesFirst | meta/code_reviewer.py:1323-1411 | Deterministic dimensions keep their places in the merged report, and their findings come first in each, for every LLM report |
| ReviewMerge.AddGuests | meta/code_reviewer.py:1359-1379 | LLM-only dimensions follow, reconciled against nothing |
| ReviewMerge.DemoteMerged | meta/code_reviewer.py:1384-1411 | Every merged dimension is demoted, in order |
| ReviewMerge.DemoteInside | meta/code_reviewer.py:1386-1410 | A changed dimension gets a recomputed status; the program's severity comparison finds exactly the changed ones |
| ReviewGuarantees.TrustedViolationsAreDeterministic | meta/code_reviewer.py:1314-1379 | Whatever both reports hold, the critical violations reported under D1 and D4 after the merge are those of the deterministic report: each is corroborated by one of them, and none is lost |
| ReviewGuarantees.TrustedHalfControlsCriticals | meta/code_reviewer.py:1314-1379 | When repeated trusted dimensions cover each other, the criticals inside D1 and D4 after the merge are the deterministic ones, in order, for every LLM report |
| ReviewGuarantees.TrustedHalfControlsIff | meta/code_reviewer.py:1314-1379 | Why the merge wants distinct ids: the list of criticals in D1 and D4 is the deterministic one for every LLM report if and only if repeated trusted dimensions cover each other's criticals |
| ReviewGuarantees.DistinctIsCovered | meta/code_reviewer.py:1314-1316 | Distinct deterministic ids are enough for that |
| ReviewGuarantees.UncoveredCriticalEnters | meta/code_reviewer.py:1314-1342 | Otherwise an LLM report that repeats one uncovered critical changes the criticals of a trusted dimension |
| ReviewGuarantees.ExtraHasNoCriticals | meta/code_reviewer.py:1335-1342 | An uncorroborated critical is downgraded and a corroborated one is a duplicate, so reconciliation adds none |
| ReviewGuarantees.MergedVerdictIsNeverSofter | meta/code_reviewer.py:1384-1424 | For every LLM report the merged verdict is at least as severe as the policy's on the deterministic findings alone |
| ReviewGuarantees.LlmRejectsIff | meta/code_reviewer.py:1415-1435 | Unless the LLM failed as infrastructure, the merge rejects if and only if the deterministic findings alone do, or a rejecting LLM finding enters outside D1 and D4 without repeating its host |
| ReviewGuarantees.MergedRejections | meta/code_reviewer.py:1323-1379 | The rejecting findings of the merge come from the deterministic half or enter that way, both directions |
| ReviewGuarantees.WellFiledLlmCannotReject | meta/code_reviewer.py:1415-1435 | An LLM report that files its findings where they belong and fakes no auto-reject rule neither causes nor prevents a rejection |
| DeterministicReview.CheckImportRules | meta/code_reviewer.py:53-121 | The findings of one Python file: criticals in D1 and D4, warnings in D5 |
| DeterministicReview.GroupByDimension | meta/code_reviewer.py:148-151 | The groups are exactly the dimensions of the findings, each with its findings in order |
| DeterministicReview.RunDeterministicReview | meta/code_reviewer.py:124-213 | The flat review: three fixed dimensions, the counts, the verdict and its statement, the log and the files |
| DeterministicReview.RunRoutedReview | meta/code_reviewer.py:417-635 | The routed review: backend, test, frontend and decision-record findings, one dimension per id in sorted order, the policy's verdict, the gaps, the log and the files |
| DeterministicReview.AggregateRouted | meta/code_reviewer.py:585-610 | The sorted keys of the groups give the dimensions |
| Sorting.AscendingIsUnique | meta/code_reviewer.py:592-592 | There is only one way to sort, so the order of the dictionary does not matter |
| DeterministicReview.AggregationKeepsFindings | meta/code_reviewer.py:585-610 | Grouping by dimension loses no finding and repeats none |
| DeterministicReview.PolicyIgnoresGrouping | meta/code_reviewer.py:585-616 | The policy says the same of the grouped findings as of the findings as they came |
| DeterministicReview.FlatVerdictIsPolicy | meta/code_reviewer.py:179-187 | The flat review's own verdict, from two counts, is the policy's on everything its checks can find |
| DeterministicReview.DeterministicReports | meta/code_reviewer.py:124-213 | Every deterministic report, flat or routed, has no dimension twice, files every finding under its own dimension, and carries the policy's verdict |
| DeterministicReview.ReviewsKeepTheDeterministicHalf | meta/code_reviewer.py:704-743 | For every review the program runs, with or without an LLM: its verdict is at least as severe as the deterministic report's, and the criticals in D1 and D4 are exactly that report's, in order |
| DeterministicReview.ReviewRejectsIff | meta/code_reviewer.py:704-743 | A review rejects if and only if its deterministic report does, the LLM failed as infrastructure, or a rejecting LLM finding enters outside D1 and D4 without repeating its host |
| DeterministicReview.WellFiledReviewRejectsIff | meta/code_reviewer.py:704-743 | An LLM that files its findings where they belong and fakes no auto-reject rule neither causes nor prevents the rejection of a review |
| StateReducers.AppendIsReplaySafe | orchestration/state.py:17-30 | The channel stays as a prefix, a delta changes nothing exactly when all its ids are known, and applying it twice is applying it once |
| StateReducers.AppendAssociative | orchestration/state.py:17-30 | Deltas may be merged with each other first |
| StateReducers.ReplayLeavesNoTrace | orchestration/state.py:17-30 | Every schedule of deliveries, redeliveries and checkpoint reloads ends in the channel of the plain run |
| StateReducers.MergeIsRightBiased | orchestration/state.py:33-43 | The merge keeps every key and lets the delta win |
| StateReducers.MergeAssociative | orchestration/state.py:33-43 | The merge is associative with the empty and the missing dictionary as identities |
| StateReducers.MergeReplay | orchestration/state.py:33-43 | Replaying the last delta is harmless; replaying an older one is harmless exactly when the later one agrees with it |
| Reflexion.ReentryCountsIffFresh | components/reflexion.py:72-74 | A re-entry moves its own task's counter, and no other, exactly when its step id is fresh and its scope not empty |
| Reflexion.VisitOwn | orchestration/react_loop.py:3596-3666 | What one terminal turn adds to the critiques of a task |
| Reflexion.RecordedCritiquesAreBounded | components/reflexion.py:148-152 | However many tasks share the thread, a task records at most its budget of critiques, numbered in order |
| Reflexion.ReentriesAreRecorded | components/router.py:287-301 | With fresh steps every re-entry is recorded, so the ceiling bounds the re-entries themselves |
| Reflexion.TasksDoNotInterfere | components/reflexion.py:35-74 | A task's critiques are those of a thread it has to itself |
| Reflexion.DecisionsDoNotInterfere | orchestration/react_loop.py:3668-3713 | So are its decisions |
| Reflexion.GraphStepsAreFresh | orchestration/react_loop.py:3013-3014 | Every evaluation raises the thread's additive step counter and a critique follows only an evaluation, so no two critiques of a thread share a step id |
| Reflexion.EveryThreadKeepsBudget | orchestration/react_loop.py:3668-3713 | On every thread the graph can produce, a task's re-entries are recorded one by one within the budget, and its critiques are those of a thread it has to itself |
| Reflexion.EveryThreadDecidesAlone | orchestration/react_loop.py:3683-3713 | So are its decisions |
| Reflexion.BudgetBindsIff | orchestration/react_loop.py:206-207 | The budget binds the re-entries of a scope on every such thread if and only if the scope is not empty or there is nothing to bind |
| Reflexion.StaleStepsBypassTheBudget | orchestration/state.py:19-22 | Why the reducer needs fresh ids: were a step id to repeat, it would drop every critique after the first and the loop re-enter every time |
| Metrics.ComputeMetrics | meta/analysis.py:92-227 | The one pass over the records, and the division of the rollbacks, return the summary defined by counting and summing |
| Metrics.Accumulate | meta/analysis.py:108-166 | After the loop every accumulator is the count, sum or set it stands for |
| Metrics.AddCounts | meta/analysis.py:128-159 | Model, target, error and step counters after one more record |
| Metrics.AddTier | meta/analysis.py:133-151 | The per-tier outcome lists after one more record |
| Metrics.AddTask | meta/analysis.py:144-150 | A task is marked successful as soon as one of its records has no error, and stays so |
| Metrics.AddCosts | meta/analysis.py:136-152 | Total, successful costs and latencies after one more record |
| Metrics.AddRouting | meta/analysis.py:147-166 | Fast, capable and escalation accumulators after one more record |
| Metrics.Finish | meta/analysis.py:168-227 | The ratios computed at the end |
| Metrics.DivideRollbacks | meta/analysis.py:187-195 | The rollback frequencies, tallied and divided by the records of the tier |
| Metrics.SummaryOrderFree | meta/analysis.py:92-227 | The metrics are invariant under every permutation of the records and of the rollbacks |
| Metrics.CountsAddUp | meta/analysis.py:128-143 | Model, target and task counts each sum to the number of records, error counts to the failed ones |
| Metrics.TasksAddUp | meta/analysis.py:168-170 | Successful and failed tasks make up the total, and a task succeeds exactly when some record of it has no error |
| Metrics.RatesAreRates | meta/analysis.py:172-204 | Every rate lies in [0, 1] |
| CiteLint.ParseCites | code_reviewer/cite_lint.py:118-157 | The loop over the lines with its table state yields the cites of the line-by-line definition |
| CiteLint.TablesAreIndependent | code_reviewer/cite_lint.py:120-144 | A line that is no table row separates: the cites of the whole are those above it followed by those below it, read on their own |
| CiteLint.ProseYieldsNothing | code_reviewer/cite_lint.py:137-144 | Lines that are no table rows yield nothing and close the table |
| ReviewScaffold.DiscoverRuleTokens | code_reviewer/review_scaffold.py:62-98 | One scan finds the first occurrence of every token outside headings, in order, with the nearest heading |
| ReviewScaffold.FirstsAreDistinct | code_reviewer/review_scaffold.py:86-98 | Keeping first occurrences loses no token and repeats none |
| ReviewScaffold.ScaffoldTokens | code_reviewer/review_scaffold.py:149-157 | The folder's tokens followed by the root invariants not among them |
| ReviewScaffold.RowCells | code_reviewer/review_scaffold.py:183-192 | A scaffolded row has the token in its first cell, whatever bars its context contains |
| ReviewScaffold.ScaffoldReadsBack | code_reviewer/review_scaffold.py:179-194 | Parsing a scaffolded map returns one cite per token, the same tokens in the same order |
| ReviewScaffold.ReviewMdDrift | code_reviewer/review_scaffold.py:197-227 | The drift computed from the parsed cites and the root invariants |
| ReviewScaffold.DriftIsTheUncovered | code_reviewer/review_scaffold.py:227-227 | The drift is exactly the uncovered tokens, and empty exactly when all are covered |
| ReviewScaffold.DriftAfterScaffold | code_reviewer/review_scaffold.py:197-227 | After scaffolding, the drift is exactly what the rules gained since; a freshly scaffolded folder has none |
| Optimizer.DiffConfigs | meta/optimizer.py:278-289 | The loop collects the differences in field order |
| Optimizer.DiffsAreTheDifferences | meta/optimizer.py:286-288 | There is one entry for every field that differs, with both values, and no other |
| Optimizer.NoDiffsIffEqual | meta/optimizer.py:278-289 | No differences if and only if the configurations are equal |
| Optimizer.AstRewrite | meta/optimizer.py:292-328 | The nodes are assigned in place; the outcome names the missing class or exactly the missing fields |
| Optimizer.RewriteAcceptsIff | meta/optimizer.py:321-326 | A source is accepted if and only if it holds the class and declares every field |
| Optimizer.OnlyFieldValuesChange | meta/optimizer.py:311-319 | Every other statement, and everything but the value of a field, is untouched after the trip through text |
| Optimizer.EvalRoutingConfig | meta/optimizer.py:385-404 | The reader takes the last literal of every field and the defaults for the rest |
| Optimizer.OverridesReadBack | meta/optimizer.py:392-403 | After a rewrite the reader finds the proposed value of every declared field that is not negative, and nothing for the others |
| Optimizer.RewriteReadsBack | meta/optimizer.py:301-328 | Reading a rewritten source gives the proposal with its negative numbers replaced by the defaults |
| Optimizer.RoundTripIff | meta/optimizer.py:392-404 | Reading back gives the proposal if and only if its numbers are non-negative |
| Optimizer.ConfigFile.WriteOptimizedConfig | meta/optimizer.py:331-382 | Status, differences, file and backup after a write, on every path |
| Optimizer.WriteIsAllOrNothing | meta/optimizer.py:361-382 | Only a completed write changes the file, its backup is the text before, and a dry run changes nothing |
| Optimizer.SecondWriteIsUnchangedIff | meta/optimizer.py:355-363 | A second write reports unchanged if and only if the numbers are non-negative, and never changes the file |
| Optimizer.RewriteTwice | meta/optimizer.py:301-328 | Rewriting a rewritten source changes nothing |
| Optimizer.WriteReads | meta/optimizer.py:331-382 | After one write an accepted file reads as the proposal with the defaults in place of its negative numbers, or as the proposal itself when it read as that before |
| Optimizer.LastWriteWins | meta/optimizer.py:331-382 | After any run of writes, whatever was proposed before, the file reads as the last proposal with the defaults in place of its negative numbers; nothing is written as long as the proposals are what it reads as anyway |

## Left out

- Float rounding: rates are exact reals, before the program rounds them to four places; NaN, infinities and negative zero are not part of this model.
- Regular expressions and Unicode: a text is its tokens with two flags per gap, whitespace and letter case are ASCII, and the rule-token recogniser, the scrubber's searches and the validator's reading of numbers in strings are parameters.
- FallbackLoop.FallbackReactLoop.Run: serializing a state and restoring it is taken as exact, and the final answer and the tool call found in a response are part of the outcome; checkpoint files, evaluation capture, latency and the token and cost fields that stay zero are not modelled.
- FallbackLoop.RecordedPicksAreBounded: bounds only what the model history records; what a run attempts is the subject of `LoopSpending`.
- TelemetryBridge: the copies of a field under the output key are one field.
- Thread messages, which the store only carries, and the other answer verifiers, which count and compare: only easy members.
- DeterministicReview.RunRoutedReview: routing the files, reading them, and what the validators and frontend tools report are inputs, and the line, advice and certificate of a finding are one field.
- ReviewMerge.MergeReports: gap and file lists are sets, as the program builds them through sets, and copied fields of a finding are one field.
- StateReducers.AppendIsReplaySafe: items without an id are left out, since the program falls back to object identity, which has no meaning after a reload.
- Reflexion.ReentriesAreRecorded: when a turn is terminal, and what a critique says, are inputs; the generation of a critique is not modelled.
- ReviewScaffold.ScaffoldReadsBack: the wording of the note above the table is arbitrary quoted text, and a discovered token is assumed to be one cell that the recogniser returns unchanged.
- CiteLint.ParseCites: resolving a cite to a file and the encoding lint are not modelled.
- Optimizer.ConfigFile.WriteOptimizedConfig: the text is its syntax nodes, so comments and layout, which the program's printer drops, and file-system errors are not modelled.
- Drift detectors, planning depth, benchmark selection and other threshold tables: only easy members.
- Routes, streaming, authentication, storage back ends, prompts and the frontend: wiring and input/output.
