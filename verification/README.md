# Agent protocol and approval control planes

This project models the search-quality agent of the repository and proves what its parts promise
about one another. Four areas are covered.

**Runs, traces and replay.** `Runtime` is the budgeted agent loop over an arbitrary planner,
arbitrary tools and an arbitrary clock; `Trace` is the recorder of its hash-chained log and the
write-once trace store; `Replay` is the separately written checker. `TraceLanguage` says without a
loop which traces the checker accepts (a chain of action, observation and processed triples with one
final event) and proves that it accepts exactly those. `ReplayCompleteness` ties the two programs
together: a stored trace replays if and only if the conditions that only the checker looks at hold
of it. `CompliantRuns` says the same about the planner's answers instead of the log, gives conditions
a planner can meet beforehand, and names the answers after which a run is stored and never replays.
`TamperEvidence` proves that the last event hash pins the whole trace, `RuntimeBudgets` what holds
against any planner, and `RunSummary` when the public summary can be read from a log.

**The retrieval policies.** `RetrievalEvidence`, `RetrievalPlanner`, `RetrievalPolicy`, `Grounding`
and `Reporting` follow their source files. `RetrievalSelection` and `RetrievalOutcomes` prove what
any accepted history establishes; `FixedRun` and `AdaptiveRun` compose the two policies with the
runtime under their concrete budgets. `StageTools` is the tools' own memory and the response rebuilt
from it, `StageResponse` ties that response to the trace, `AnsweredRuns` the summary to completed
runs, and `RetrievalAnalysis` is the entry point that runs, replays and answers; `RetryRun` is a run
it refuses. `BranchingPlanner` is the deterministic comparison planner and `ComparisonSchema` the
output schema of its evidence.

**The release control plane.** `ReleaseControl` is the intent-first store of proposals, decisions,
outcomes and rollbacks, where a process may die between any two writes. `ReleaseSafety` holds the
invariant of every history, `ReleaseHistory` uniqueness, lifecycle and client actions,
`ReleaseRecovery` proposals and retries.

**Strategy decisions and small algorithms.** `StrategyDecisions` is the five-write approval,
`StrategySafety` and `StrategyRecovery` its guarantees, and `StrategyListing` what a crash in it
leaves behind. `StrategySearch`, `ChangedExamples` and `LedgerMatching` specify the selections and
the judge's ledger matching completely; `Sorting` is the order theory they share.

Code that changes state is a class or a method with loops, proved equal to a specification function;
the theorems are about those functions. Digests are an abstract type and every hash or content id is
an arbitrary function of what it hashes; a theorem that needs collision freedom says so in a
`requires` clause.

Where the code promises less than its documentation, a lemma gives runs that fail and another the
exact condition, over all runs:

- A run may write a trace that does not replay: a comparison run that first asks for a run by a list
  or an object (`UnhashableRunNeverReplays`), an adaptive run whose audit miscounts its options
  (`MiscountedOptionsNeverReplay`) or changes its configuration later (`ChangedBindingNeverReplays`).
  A run replays if and only if its registry is minimal and every turn it takes is honest
  (`HonestRunsReplay`).
- The response may be refused after a completed run, when a retried call computes other evidence than
  the failed one had stored (`RetrySpoilsResponse`, a stored run with such a harness). It is refused if
  and only if a failed call left such a conflict (`AllowedIsAnswered`). The harness of the repository
  computes the same evidence again under the same code revision, and with it that never happens
  (`RepeatableIsUndisturbed`).
- One client action may decide two proposals after a crash (`CrashSharesAction`). Actions stay bound if
  and only if no first decision is made by a request that lives for all of its writes but the last
  (`ActionsBoundExactly`).
- A retry of an active outcome is answered if and only if its revision is still serving (`ActiveRetry`),
  and a rollback without a record is undone exactly when the pointer returns
  (`DerivedRollbackFollowsPointer`).
- The strategy history may list a strategy that was never active (`CrashListsUnadopted`). Only
  strategies that were active come to be listed if and only if no unlisted approval dies between its
  catalog write and its activation without its strategy having been active before (`ListedExactly`).
- An approval intent may be stuck for good (`OvertakenApproval`). It is stuck if and only if the active
  strategy is neither its proposal's parent nor its target (`StuckExactly`).

## Model

| member | source | states |
|---|---|---|
| `Runtime.AgentRuntime.Run` | src/search_quality/agent/runtime.py:126-414 | the loop stores exactly the specified trace and returns its terminal, or nothing when the id already names another trace |
| `Runtime.AgentRuntime.Dispatch` | src/search_quality/agent/runtime.py:327-382 | one dispatch records the action, its observation and the processing step, with the executed observation and its violation flag |
| `Trace.TraceRecorder.Append` | src/search_quality/agent/trace.py:132-181 | a terminal result goes with final events only; the new event is numbered, chained to the last hash and hashed without an absent audit |
| `Trace.TraceStore.Store` | src/search_quality/agent/trace.py:194-219 | a trace file is written once: equal content is accepted again, other content refused and nothing changed |
| `Trace.AcceptedIsLoaded` | src/search_quality/agent/trace.py:194-252 | an accepted trace is loaded whole under its own id after any later stores, and nothing else is ever accepted under that id |
| `Replay.TraceReplayer.ReplayTrace` | src/search_quality/agent/replay.py:57-373 | the loading, the event loop and the final checks return the trace when, and only when, the verdict is empty, and otherwise the first error |
| `TraceLanguage.PrefixExact` | src/search_quality/agent/replay.py:70-207 | the event loop survives a prefix exactly when it follows the triple pattern, and its variables are then a function of that prefix |
| `TraceLanguage.ReplayExact` | src/search_quality/agent/replay.py:57-373 | the replayer accepts a trace if and only if it is well formed: triples, links, audits, one final event, counts, limits, grounding and report |
| `TraceLanguage.AcceptedShape` | src/search_quality/agent/replay.py:96-323 | an accepted log has 3k+1 or 3k events for k tool calls, every action has the observation of the same tool, forbidden actions failed with the recomputed code, and steps, calls and run creations respect the policy |
| `TamperEvidence.HashPinsEvent` | src/search_quality/agent/replay.py:86-95 | events with equal hashes are equal although a missing audit has two encodings |
| `TamperEvidence.HashPinsPrefix` | src/search_quality/agent/replay.py:80-95 | by backward induction the hash of event k pins the first k+1 events |
| `TamperEvidence.LastHashPinsTrace` | src/search_quality/agent/trace.py:83-117 | two accepted traces with the same last event hash are the same trace: length, events, id, task, policy, tools and terminal |
| `ReplayCompleteness.ScopeCrashes` | src/search_quality/agent/grounding.py:25-65 | the scope check raises an unexpected error exactly for an unhashable run id in a comparison task |
| `ReplayCompleteness.ExecuteAnswers` | src/search_quality/agent/runtime.py:416-478 | the dispatcher answers an out-of-scope or unregistered action with the very error replay recomputes |
| `ReplayCompleteness.PerformSimulates` | src/search_quality/agent/runtime.py:327-382 | a performed action keeps the simulation invariant between the loop variables and the replayed log |
| `ReplayCompleteness.RunReplaysExactly` | src/search_quality/agent/runtime.py:126-414 | for every planner, tools, clock and policy the stored trace replays if and only if the registry is minimal and every recorded decision is replayable |
| `CompliantRuns.HonestRunsReplay` | src/search_quality/agent/replay.py:324-415 | a run replays if and only if its registry is minimal and at every turn the planner is the task's, the run id can be looked up, and the audit counts the options truly under the opening configuration |
| `CompliantRuns.CompliantRunReplays` | src/search_quality/agent/replay.py:324-415 | under conditions on configuration and planner alone every run is accepted by replay |
| `CompliantRuns.DishonestTurnNeverReplays` | src/search_quality/agent/replay.py:375-415 | one dishonest turn anywhere in a run and the stored trace is refused |
| `CompliantRuns.MiscountedOptionsNeverReplay` | src/search_quality/agent/replay.py:391-395 | an adaptive run whose first audit does not count exactly one option is stored and never replays |
| `CompliantRuns.ChangedBindingNeverReplays` | src/search_quality/agent/replay.py:401-415 | an adaptive run whose planner configuration differs at any later recorded decision is stored and never replays |
| `CompliantRuns.UnhashableRunNeverReplays` | src/search_quality/agent/grounding.py:60-65 | a comparison run whose planner first names a run by a list or an object is stored and never replays |
| `RuntimeBudgets.RunKeepsBudgets` | src/search_quality/agent/runtime.py:156-414 | one terminal event at the end; no tool and arguments dispatched more often than allowed; failures within budget; a forbidden action is the last and the run fails with a policy violation |
| `Grounding.ValidateFinishGrounding` | src/search_quality/agent/grounding.py:68-139 | the loops report the first grounding error, or none |
| `Grounding.GroundedFinishMeans` | src/search_quality/agent/grounding.py:68-232 | a grounded finish cites distinct successful references, is a policy decision on retrieval tasks, and accepts or rejects only on cited, consistent comparisons of the task's runs in that direction |
| `RetrievalEvidence.PassedFlagIsEarned` | src/search_quality/agent/retrieval_tools.py:229-360 | a validated experiment that claims to pass has all twelve measurements passing and no failed gate |
| `RetrievalEvidence.BestIsMaximal` | src/search_quality/agent/retrieval_tools.py:362-368 | the selected experiment is a member that no other one beats in the selection key |
| `RetrievalEvidence.BestPassingIsCanonical` | src/search_quality/agent/retrieval_tools.py:362-368 | among distinct variants the best passing experiment depends only on the set of experiments |
| `RetrievalPlanner.AnalyzeHistory` | src/search_quality/agent/retrieval_planner.py:77-214 | the history loop computes the one expected decision, or raises |
| `RetrievalSelection.PlannerProgress` | src/search_quality/agent/retrieval_planner.py:77-214 | every history the planner accepts has its candidates in trusted order on one baseline, cites all of them, and a finish names a passing maximum or reports three failures |
| `RetrievalSelection.AfterExperimentOk` | src/search_quality/agent/retrieval_planner.py:151-191 | an expected experiment always leads on or to a verdict; the error about a selected candidate inconsistent with the path is unreachable |
| `RetrievalSelection.AdaptiveHistory` | src/search_quality/agent/retrieval_policy.py:147-212 | an admitted history has distinct variants and ids on one baseline, in any order, and recounts exactly the observations |
| `RetrievalPolicy.AnalyzeAdaptiveHistory` | src/search_quality/agent/retrieval_policy.py:147-212 | the history loop computes the validated history, or raises |
| `RetrievalPolicy.DeriveAdaptiveOptions` | src/search_quality/agent/retrieval_policy.py:66-144 | the option list built step by step is the specified option set, or an error when nothing safe is left |
| `RetrievalOutcomes.OfferedResolves` | src/search_quality/agent/retrieval_policy.py:215-229 | every offered decision resolves back to exactly the option that offers it |
| `RetrievalOutcomes.AllowedFinish` | src/search_quality/agent/retrieval_policy.py:115-144 | under either policy an allowed finish cites exactly the observed evidence and encodes a passing maximum or three failures |
| `RetrievalOutcomes.AllowedFinishIsGrounded` | src/search_quality/agent/grounding.py:68-115 | a finish the policy allows never fails the grounding check |
| `RetrievalOutcomes.ReasonRoundTrip` | src/search_quality/agent/reporting.py:72-150 | the report, and the selection among the observed experiments, recover from the reason code exactly the chosen variant; its comparison is cited and earned all gates |
| `RetrievalOutcomes.NoSafeMeansAllFailed` | src/search_quality/agent/retrieval_tools.py:579-590 | a finish without a proposal means all three variants were observed and failed, and one of them is still selected |
| `RetrievalOutcomes.OrderDoesNotMatter` | src/search_quality/agent/retrieval_policy.py:96-144 | adaptive options and the candidate behind the finish depend on the set of experiments, not their order |
| `RetrievalOutcomes.PoliciesAgree` | src/search_quality/agent/retrieval_planner.py:174-190 | after all three candidates the adaptive policy offers exactly one option, the finish with the fixed planner's outcome and variant |
| `RetrievalRuns.DispatchAnswers` | src/search_quality/agent/runtime.py:416-478 | an in-scope retrieval request is dispatched without violation and answered by a well-formed failure or matching evidence |
| `FixedRun.AdvanceMatched` | src/search_quality/agent/retrieval_planner.py:87-191 | a matching observation moves one stage on, uses the only retry, or ends the plan |
| `FixedRun.FixedRunCompletes` | src/search_quality/agent/retrieval_runtime.py:62-79 | for every pattern of successes and failures the fixed run completes within five calls and six steps with at most one retry, on its own expected finish, and replays |
| `AdaptiveRun.OptionsRemain` | src/search_quality/agent/retrieval_policy.py:142-144 | until a tool fails the option set is never empty, so the policy never raises for want of a safe decision |
| `AdaptiveRun.AnySelectorEnds` | src/search_quality/agent/retrieval_runtime.py:62-79 | whatever is selected, the run ends within four calls and five steps on an offered finish, or because a tool failed, and replays |
| `StageTools.StageRetrievalTools.DiagnoseBaselineRetrieval` | src/search_quality/agent/retrieval_tools.py:438-486 | run and diagnosis are stored before the baseline is pinned; a failure leaves exactly the updates made so far |
| `StageTools.StageRetrievalTools.RunRetrievalCandidate` | src/search_quality/agent/retrieval_tools.py:488-558 | over a pinned baseline run only: run, diagnosis and comparison in order, a failure leaving exactly those made |
| `StageTools.StageRetrievalTools.BuildAnalysisResponse` | src/search_quality/agent/retrieval_tools.py:560-597 | the response from one pin, one run of each variant, one diagnosis and one comparison of each run, or the error |
| `StageResponse.CachesHold` | src/search_quality/agent/retrieval_tools.py:700-724 | the caches hold exactly what the log of updates stored |
| `StageResponse.MadeIsAllowed` | src/search_quality/agent/retrieval_tools.py:438-558 | what a handler leaves, wherever it fails, extends the log by allowed updates |
| `StageResponse.HandlersRan` | src/search_quality/agent/retrieval_tools.py:438-558 | a whole sequence of handler calls, failing wherever they do, leaves the caches of its attempts, in the form the other results ask for |
| `StageResponse.ResponseExactly` | src/search_quality/agent/retrieval_tools.py:748-838 | the response from the caches is the selection among the experiments in the trace, unless and only unless a failed call left a conflicting run or diagnosis |
| `StageResponse.AllowedIsAnswered` | src/search_quality/agent/retrieval_tools.py:560-595 | so it is for every verdict of either policy, and under the adaptive policy there is no conflict |
| `StageResponse.RepeatableIsUndisturbed` | src/search_quality/agent/retrieval_tools.py:504-558 | if repeating a candidate gives the same evidence, no pattern of failures and retries leaves a conflict |
| `RetryRun.RetrySpoilsResponse` | src/search_quality/agent/retrieval_tools.py:761-777 | a stored run in which a candidate fails after storing its run and passes on the retry with another run: it completes on a proposal and replays, and its analysis is refused |
| `RunSummary.AgentRunSummary` | src/search_quality/agent/retrieval_runtime.py:141-194 | the loop over the log computes the summary or raises |
| `RunSummary.SummaryExactly` | src/search_quality/agent/retrieval_runtime.py:141-194 | an accepted, completed trace has a summary if and only if each call can be summarized; one line for each call in order, one audit for each LLM step, one configuration |
| `AnsweredRuns.CompletedIsGood` | src/search_quality/agent/runtime.py:327-404 | a completed run dispatched nothing out of scope and each observation answers its action |
| `AnsweredRuns.CompletedIsSummarized` | src/search_quality/agent/retrieval_runtime.py:197-268 | every completed run that replays has a summary with a line for each tool call |
| `RetrievalAnalysis.Analyze` | src/search_quality/agent/retrieval_runtime.py:62-101 | run, completeness check, replay, comparison of terminals, response and summary in that order, as one function of the run's trace and the tools' caches |
| `RetrievalAnalysis.FixedAnalysis` | src/search_quality/agent/retrieval_runtime.py:80-101 | with the fixed planner, after any handler calls that gave its observations, the analysis is of the experiment the trace chose, unless there is no verdict or a failed call left a conflict; replay, consistency and summary errors never occur |
| `RetrievalAnalysis.AdaptiveAnalysis` | src/search_quality/agent/retrieval_runtime.py:80-101 | for any selector the analysis is of the experiment the trace chose, and fails only when a tool failed |
| `BranchingPlanner.ValidateComparison` | src/search_quality/agent/planner.py:176-268 | the validator accepts exactly the stated evidence: run pair, epsilon, counts, every metric, distinct negative regressions |
| `BranchingPlanner.DrivenInspects` | src/search_quality/agent/planner.py:50-108 | every driven history is one comparison followed by inspections of the first listed regressions in order |
| `BranchingPlanner.DecidedOnMeans` | src/search_quality/agent/planner.py:110-140 | accept is chosen exactly for a positive primary delta, no regression and no metric below minus epsilon; reject exactly below minus epsilon |
| `BranchingPlanner.BranchingIsGrounded` | src/search_quality/agent/planner.py:50-140 | whatever the comparison tool answered, a finish cites distinct references and is grounded if and only if the comparison failed or is in scope; invalid evidence and accept are reported exactly when they should be |
| `ComparisonSchema.SchemaMeetsPlanner` | src/search_quality/agent/tools.py:150-297 | evidence within the output schema is usable by the planner if and only if it is of the task's pair of runs, and always consistent |
| `ComparisonSchema.SchemaFinishIsGrounded` | src/search_quality/agent/tools.py:229-342 | with a comparison tool within its schema a finish is grounded, and no evidence declined, if and only if the comparison failed or is of the task's pair |
| `ReleaseControl.ReleaseControlPlane.WriteImmutable` | src/search_quality/evaluation/artifacts.py:79-108 | one file is published once, equal content is accepted, different content is an error, or the process dies |
| `ReleaseControl.ReleaseControlPlane.CreateOrLoadProposal` | src/search_quality/agent/retrieval_release_control.py:476-526 | intent, then proposal; with an intent the proposal is rebuilt from its parent revision and must match it |
| `ReleaseControl.ReleaseControlPlane.PrepareDecisionIntent` | src/search_quality/agent/retrieval_release_control.py:1528-1543 | an existing intent must be equal, otherwise one write |
| `ReleaseControl.ReleaseControlPlane.CompleteDecisionPublication` | src/search_quality/agent/retrieval_release_control.py:1546-1556 | record, proposal pointer, client-action pointer, in that order, stopping where a write fails |
| `ReleaseControl.ReleaseControlPlane.ApplyDecision` | src/search_quality/agent/retrieval_release_control.py:575-641 | the decision request leaves exactly the specified store and reply wherever it dies |
| `ReleaseControl.ReleaseControlPlane.RecordReleaseOutcome` | src/search_quality/agent/retrieval_release_control.py:679-744 | the outcome request: receipt before existing record, then intent, record and pointer |
| `ReleaseControl.ReleaseControlPlane.RecordReleaseRollback` | src/search_quality/agent/retrieval_release_control.py:793-852 | the rollback request: existing record before the pointer check, then intent, record and pointer |
| `ReleaseControl.PerformAppend` | src/search_quality/agent/retrieval_release_control.py:1546-1556 | performing two lists of writes in turn, with crashes and collisions, is performing their concatenation |
| `ReleaseSafety.UnintendedIsPublished` | src/search_quality/agent/retrieval_release_control.py:592-612 | the path that publishes without an intent is reached only for a decision that is already visible |
| `ReleaseSafety.LoadsSucceed` | src/search_quality/agent/retrieval_release_control.py:1760-1858 | in every store of the invariant pointers agree with their immutable records, so no artifact is found invalid |
| `ReleaseSafety.ServeKeeps` | src/search_quality/agent/retrieval_release_control.py:476-852 | one request, dying anywhere, keeps the invariant of the store and only adds to it |
| `ReleaseSafety.RunKeeps` | src/search_quality/agent/retrieval_release_control.py:476-852 | the invariant holds after every sequence of requests, crashes and retries |
| `ReleaseSafety.RunGrows` | src/search_quality/evaluation/artifacts.py:79-108 | nothing ever written changes or disappears in a longer history |
| `ReleaseHistory.OneDecision` | src/search_quality/agent/retrieval_release_control.py:575-630 | at most one decision per proposal is ever visible, permanent, with its record, and it is what the first intent names |
| `ReleaseHistory.OneOutcome` | src/search_quality/agent/retrieval_release_control.py:1633-1657 | at most one outcome per proposal, permanent, on the approval of that proposal, as the first intent names it |
| `ReleaseHistory.OneRollback` | src/search_quality/agent/retrieval_release_control.py:1707-1734 | at most one rollback per proposal, permanent, of its active outcome and from the revision it activated |
| `ReleaseHistory.LifecycleCoherent` | src/search_quality/agent/retrieval_release_control.py:1861-1898 | deriving a lifecycle never raises, and active holds exactly for an active outcome whose revision is serving, without a rollback record |
| `ReleaseHistory.RollbackIsPermanent` | src/search_quality/agent/retrieval_release_control.py:1869-1884 | a recorded rollback stays rolled back in every later store and under every serving pointer |
| `ReleaseHistory.DerivedRollbackFollowsPointer` | src/search_quality/agent/retrieval_release_control.py:1885-1895 | without a record the release is active exactly when its revision is serving again |
| `ReleaseHistory.ActiveRetry` | src/search_quality/agent/retrieval_release_control.py:694-725 | a retry of a recorded active outcome is answered if and only if its revision is still serving |
| `ReleaseHistory.DecideBinds` | src/search_quality/agent/retrieval_release_control.py:582-612 | a decision request leaves a client action unbound if and only if it is a first decision, free of collisions, that lives for all of its planned writes but the last |
| `ReleaseHistory.ActionsBoundExactly` | src/search_quality/agent/retrieval_release_control.py:1546-1556 | client actions stay bound throughout a history if and only if it contains no such request |
| `ReleaseHistory.OneActionOneDecision` | src/search_quality/agent/retrieval_release_control.py:582-597 | in such histories one client action decides at most one proposal |
| `ReleaseHistory.CrashSharesAction` | src/search_quality/agent/retrieval_release_control.py:1546-1556 | after such a crash the same client action can decide another proposal, and in every later store the first request conflicts |
| `ReleaseRecovery.ProposalIsStable` | src/search_quality/agent/retrieval_release_control.py:476-526 | every answered call for a trace returns the proposal of the call that first recorded its intent, with the parent revision that call saw |
| `ReleaseRecovery.ProposalIsAnswered` | src/search_quality/agent/retrieval_release_control.py:1350-1404 | once the intent exists, in every later store and under every pointer the same analysis is answered with that proposal and any other for the trace is refused |
| `ReleaseRecovery.ResumeConverges` | src/search_quality/agent/retrieval_release_control.py:1546-1556 | repeating a list of writes from anywhere inside it, with or without its first write, leads to the same store |
| `ReleaseRecovery.RetryConverges` | src/search_quality/agent/retrieval_release_control.py:476-852 | wherever a request of any kind dies, repeating it reaches the store and the answer of the undisturbed request |
| `StrategyDecisions.StrategyControl.PrepareIntent` | src/search_quality/agent/optimization.py:1669-1686 | an existing intent must be the expected one, otherwise one write |
| `StrategyDecisions.StrategyControl.AdoptedCatalog` | src/search_quality/agent/optimization.py:1261-1313 | the loops build the specified catalog: old entry replaced, history inherited when empty, decision appended once |
| `StrategyDecisions.StrategyControl.WriteCatalog` | src/search_quality/agent/optimization.py:1261-1328 | the catalog is replaced first and the active strategy second |
| `StrategyDecisions.StrategyControl.ApplyDecision` | src/search_quality/agent/optimization.py:376-449 | the decision request leaves exactly the specified files and reply wherever it dies |
| `StrategySafety.AdoptedKeeps` | src/search_quality/agent/optimization.py:1261-1313 | one catalog entry per strategy id, one history entry per decision, no history lost |
| `StrategySafety.RunKeeps` | src/search_quality/agent/optimization.py:376-449 | after every history of decisions and crashes intents are of eligible proposals, pointers have intents and records, and the active strategy is listed under its decision |
| `StrategySafety.OneEntryEach` | src/search_quality/agent/optimization.py:1267-1304 | in every history, from any files of the invariant, the catalog has one entry per strategy id and the history one per decision |
| `StrategySafety.ActivationIsLinear` | src/search_quality/agent/optimization.py:395-434 | whatever is active at the start, every change of the active strategy replaces exactly the parent id and hash its proposal names, and is already in the history |
| `StrategySafety.ApprovalWasActive` | src/search_quality/agent/optimization.py:1276-1326 | every approval published in a history was the active strategy at some point of it, so none is lost |
| `StrategyRecovery.AdoptedTwice` | src/search_quality/agent/optimization.py:1261-1304 | adopting the same decision again changes nothing, not even its time |
| `StrategyRecovery.RetryConverges` | src/search_quality/agent/optimization.py:385-449 | after a crash at any write, repeating the decision gives the reply and the files of the undisturbed one up to the adoption time |
| `StrategyListing.ListedExactly` | src/search_quality/agent/optimization.py:1298-1326 | from any files, only strategies that were active come to be listed if and only if no unlisted approval dies between catalog write and activation without having been active before |
| `StrategyListing.StrandLists` | src/search_quality/agent/optimization.py:1305-1326 | such a step lists a strategy that was active at no point up to it |
| `StrategyListing.CrashListsUnadopted` | src/search_quality/agent/optimization.py:1305-1326 | the first approval of any eligible proposal, dying after three writes, is listed although nothing was ever active |
| `StrategyListing.StuckIntent` | src/search_quality/agent/optimization.py:395-420 | an open approval intent can be decided if and only if its proposal is eligible over what is active and its record is free; otherwise no request for it does anything |
| `StrategyListing.StuckExactly` | src/search_quality/agent/optimization.py:395-420 | after any history that means if and only if the active strategy is the parent its proposal names or its target |
| `StrategyListing.OvertakenApproval` | src/search_quality/agent/optimization.py:395-420 | an approval that dies after its intent and is overtaken by another proposal is never decided in any later history |
| `StrategySearch.CollectSupport` | src/search_quality/agent/strategy_search.py:548-553 | each cause collects exactly the diagnoses that found it |
| `StrategySearch.CandidatesCanonical` | src/search_quality/agent/strategy_search.py:532-621 | candidate selection gives the same result for every arrangement of the diagnoses |
| `StrategySearch.SelectionIsValid` | src/search_quality/agent/strategy_search.py:532-621 | at most the maximum, unique ids, true support counts, most supported causes first |
| `StrategySearch.WinnerCanonical` | src/search_quality/agent/strategy_search.py:760-804 | no field of the winner selection depends on the order of the evaluations |
| `StrategySearch.WinnerIsFirst` | src/search_quality/agent/strategy_search.py:760-804 | there is a winner exactly when something passed; it passed every gate, is first in the total order, and the output validators hold |
| `ChangedExamples.CollectBest` | src/search_quality/agent/retrieval_examples.py:30-69 | the nested loops compute the dictionary of best examples |
| `ChangedExamples.SelectChangedExamples` | src/search_quality/agent/retrieval_examples.py:12-107 | the selector with its in-place replacement computes the specified list |
| `ChangedExamples.BestAreChampions` | src/search_quality/agent/retrieval_examples.py:63-69 | the dictionary holds exactly one example per query and direction, the first that no other is preferred to |
| `ChangedExamples.SelectionCanonical` | src/search_quality/agent/retrieval_examples.py:12-107 | with distinct run ids the shown examples do not depend on the order of the runs |
| `ChangedExamples.SelectionIsFair` | src/search_quality/agent/retrieval_examples.py:71-85 | size is the smaller of limit and available, all but the last are the top of the list, no duplicates, display order, and both directions shown when both exist and the limit is at least two |
| `LedgerMatching.JudgeTrace` | src/search_quality/agent_eval/judge.py:308-352 | the judge's loop computes the judged actions and whether the ledger was exhausted, or a malformed trace |
| `LedgerMatching.ExhaustedExactly` | src/search_quality/agent_eval/judge.py:308-352 | the ledger is reported exhausted if and only if it is a subsequence of the trace's calls |
| `LedgerMatching.HandlerRecordingRegistry.Execute` | src/search_quality/agent_eval/scenarios.py:84-116 | a call is recorded when its handler answered or failed and not when policy rejected it |
| `LedgerMatching.RunLedgerExhausted` | src/search_quality/agent_eval/scenarios.py:65-116 | the ledger of every run is exhausted by the run's own trace |

## Left out

- Identifier patterns, digest and id formats and the truncation of content ids to twelve hex digits: ids and digests are values compared for equality only.
- Canonical JSON and SHA-256: every hash is an arbitrary function; collision freedom is a hypothesis where a theorem needs it.
- File-system details: links, locks, size limits, atomic replacement, JSON parsing; requests are serialised by the lock and each write is all or nothing.
- Logging, the language-model subprocess and client, token accounting and provider errors: a planner is any function of its view.
- Floating point: deltas, scores, durations and the clock are real numbers, and the rounding of scores and gate observations to twelve decimals is not modelled.
- Payload objects are records of the fields the program reads; every other payload is opaque, and a field that is absent or of the wrong type is `None`.
- Fixed values of profile, task id and runtime id, pipeline ids, catalog and display text of the retrieval tools, and the report fields made only of them.
- `StageRetrievalTools`: generating the evidence and reading it back from disk; a handler may compute anything, and its cached artifacts are the ids, variants and figures the response reads.
- `score_strategy_comparison` and `diagnose_bad_case`: one-pass arithmetic; an evaluation is any value its validators accept.
- `StrategySearch.SelectionIsValid`: the sorted lists of supporting ids are sets, so their sorted display is not stated.
- `LedgerMatching.RunLedgerExhausted`: a ledger entry is the tool and the requested variant; profile, status and error code of an entry are not compared by the judge and not modelled.
- `ReleaseControl.ReleaseControlPlane.CreateOrLoadProposal`: the analysis arrives validated; rebuilding it from stored runs and diagnoses is not modelled.
- `ReleaseControl.ReleaseControlPlane.ApplyDecision`: the code revision and the revalidated evidence are inputs of the request.
- `StrategyDecisions.StrategyControl.ApplyDecision`: evidence validation and code revision are inputs; migration of legacy active strategies is not modelled.
- `RunSummary.AgentRunSummary`: token sums and fixed labels of the summary; an audit is carried whole.
- `ComparisonSchema.SchemaMeetsPlanner`: id patterns and the order of dumped keys; a dumped metric has exactly its three keys.
- The activation envelope, the public catalogs, the remaining judge checks and the scenario scripts: projections without a harder property.
- Ranking, metrics, catalog serving and bad-case supervision: their results are arbitrary valid evidence and the serving pointer is an input of each request.
