/** The analysis entry point (retrieval_runtime.py): run, replay what was stored, and build the
    response; and why its defensive checks never fire. */
module RetrievalAnalysis {
  import opened Contracts
  import opened Grounding
  import opened Replay
  import opened RetrievalEvidence
  import opened RetrievalOutcomes
  import opened RetrievalSelection
  import opened RunSummary
  import opened Runtime
  import opened StageResponse
  import opened Trace
  import opened TraceLanguage
  import AdaptiveRun
  import AnsweredRuns
  import FixedRun
  import RetrievalPlanner
  import RetrievalPolicy
  import RuntimeBudgets
  import StageTools

  datatype AnalysisError = NotStored | NoVerdict | ReplayRefused | ReplayDiffers | ToolsIncomplete | TerminalInconsistent | SummaryMalformed

  datatype Analysis = Analysis(chosen: Experiment, summary: Summary)

  predicate CompleteEvidence(terminal: TerminalResult) {
    terminal.state == Completed && (terminal.outcome == ProposalReady || terminal.outcome == NoSafeImprovement)
  }

  function Answered(trace: AgentTrace, response: Result<Experiment, StageTools.ResponseError>): Result<Analysis, AnalysisError> {
    match response
    case Ok(chosen) =>
      var summary := SummaryOf(trace);
      if summary.None? then Err(SummaryMalformed) else Ok(Analysis(chosen, summary.value))
    case Err(Incomplete) => Err(ToolsIncomplete)
    case Err(Inconsistent) => Err(TerminalInconsistent)
  }

  /** The reply for a trace that was stored, from what the tools hold after the run. */
  function AnalysisOf(h: Hashes, trace: AgentTrace, caches: StageTools.Caches): Result<Analysis, AnalysisError> {
    if !CompleteEvidence(trace.terminal) then Err(NoVerdict)
    else if !Accepted(h, trace) then Err(ReplayRefused)
    else Answered(trace, StageTools.Respond(caches, trace.terminal))
  }

  /** Run, completeness check, replay, comparison of terminals, response, summary.  `tools` is in the state its
      handlers left it in. */
  method Analyze(cfg: Config, task: Task, env: Environment, store: TraceStore, tools: StageTools.StageRetrievalTools)
    returns (r: Result<Analysis, AnalysisError>)
    modifies store
    ensures var trace, before := RunTrace(cfg, task, env), old(store.traces);
            r == if env.traceId in before && before[env.traceId] != trace then Err(NotStored)
                 else AnalysisOf(cfg.hashes, trace, old(tools.caches))
  {
    hide RunTrace, Accepted, ReplayVerdict, StageTools.Respond, SummaryOf;
    var runtime := new AgentRuntime(cfg, store);
    var terminal := runtime.Run(task, env);
    TraceIsNamed(cfg, task, env);
    AcceptedIs(cfg.hashes, RunTrace(cfg, task, env));
    if terminal.None? {
      return Err(NotStored);
    }
    if !CompleteEvidence(terminal.value) {
      return Err(NoVerdict);
    }
    var replayer := new TraceReplayer(cfg.hashes, store);
    var replayed := replayer.ReplayTrace(terminal.value.traceId);
    if replayed.Err? {
      return Err(ReplayRefused);
    }
    var trace := replayed.value;
    if trace.terminal != terminal.value {
      return Err(ReplayDiffers);
    }
    var response := tools.BuildAnalysisResponse(trace.terminal);
    if response.Err? {
      return Answered(trace, response);
    }
    var summary := AgentRunSummary(trace);
    return if summary.None? then Err(SummaryMalformed) else Ok(Analysis(response.value, summary.value));
  }

  lemma AcceptedIs(h: Hashes, trace: AgentTrace)
    ensures Accepted(h, trace) <==> ReplayVerdict(h, trace).None?
  {
    hide ReplayVerdict;
  }

  /** Header and terminal of a stored trace carry the run's id. */
  lemma TraceIsNamed(cfg: Config, task: Task, env: Environment)
    ensures RunTrace(cfg, task, env).header.traceId == RunTrace(cfg, task, env).terminal.traceId == env.traceId
  {
    hide *;
    RunStarts(cfg, task, env);
    RunIsNamed(cfg, task, env, Runtime.START);
  }

  lemma {:induction false} RunIsNamed(cfg: Config, task: Task, env: Environment, s: RunState)
    ensures RunFrom(cfg, task, env, s).header.traceId == RunFrom(cfg, task, env, s).terminal.traceId == env.traceId
    decreases cfg.policy.maxSteps - s.steps
  {
    hide *;
    RunExhausts(cfg, task, env, s);
    EndIsNamed(cfg, task, env, s);
    if s.steps < cfg.policy.maxSteps {
      var consulted := Consult(cfg, env, CurrentView(cfg, task, env, s));
      RunStops(cfg, task, env, s);
      if consulted.Decided? && consulted.decision.ToolAction? {
        var action, audit := consulted.decision, consulted.audit;
        RunDenies(cfg, task, env, s, action, audit);
        if Denied(cfg, s, action).None? {
          RunActs(cfg, task, env, s, action, audit);
          var o := ExecuteTool(cfg, task, action, s.observations, env.tool(CurrentView(cfg, task, env, s), action)).0;
          var next := Perform(cfg, task, env, s, action, audit, o);
          PerformFields(cfg, task, env, s, action, audit, o);
          EndIsNamed(cfg, task, env, next);
          RunIsNamed(cfg, task, env, next);
        }
      }
    }
  }

  lemma EndIsNamed(cfg: Config, task: Task, env: Environment, s: RunState)
    ensures forall steps, reason :: var trace := Fail(cfg, task, env, s, steps, reason);
              trace.header.traceId == trace.terminal.traceId == env.traceId
    ensures forall steps, finish: Decision, audit {:trigger Complete(cfg, task, env, s, steps, finish, audit)} :: finish.Finish? ==>
              var trace := Complete(cfg, task, env, s, steps, finish, audit);
              trace.header.traceId == trace.terminal.traceId == env.traceId
  {
  }

  function Seen(trace: AgentTrace): seq<Observation> {
    ObservationsBefore(trace.events, |trace.events|)
  }

  /** The experiment the terminal names among those in the trace. */
  function ChosenExperiment(trace: AgentTrace): Option<Experiment> {
    ResponseExperiment(trace.terminal.outcome, trace.terminal.reason, trace.terminal.refs, ObservedExperiments(Seen(trace)))
  }

  /** The analysis the trace calls for: of the experiment its terminal names, unless there is no verdict
      or a failed call has left a conflicting artifact. */
  ghost function Expected(trace: AgentTrace, attempts: seq<Attempt>): Result<Analysis, AnalysisError> {
    if !CompleteEvidence(trace.terminal) then Err(NoVerdict)
    else if Disturbed(Seen(trace), attempts) then Err(ToolsIncomplete)
    else
      var chosen := ChosenExperiment(trace);
      if chosen.None? then Err(TerminalInconsistent)
      else if SummaryOf(trace).None? then Err(SummaryMalformed)
      else Ok(Analysis(chosen.value, SummaryOf(trace).value))
  }

  // A trace whose finish was allowed on its own observations yields an analysis of its choice.
  lemma AllowedIsAnalyzed(h: Hashes, task: Task, trace: AgentTrace, attempts: seq<Attempt>)
    requires Accepted(h, trace) && task.RetrievalTask? && Ran(Seen(trace), attempts)
    requires CompleteEvidence(trace.terminal) ==>
               RetrievalFinishAllowed(task, Finish(trace.terminal.outcome, trace.terminal.refs, trace.terminal.reason), Seen(trace))
    ensures CompleteEvidence(trace.terminal) ==> ChosenExperiment(trace).Some?
    ensures AnalysisOf(h, trace, CachesAfter(attempts)) == Expected(trace, attempts)
    ensures CompleteEvidence(trace.terminal) && task.policy == AdaptiveLlm ==> !Disturbed(Seen(trace), attempts)
  {
    hide Accepted, RetrievalFinishAllowed, ResponseExperiment, StageTools.Respond, Seen, Ran, Disturbed, CachesAfter,
      SummaryOf;
    if CompleteEvidence(trace.terminal) {
      var d := Finish(trace.terminal.outcome, trace.terminal.refs, trace.terminal.reason);
      AllowedIsAnswered(task, Seen(trace), attempts, d, trace.terminal);
    }
  }

  /** With the fixed planner the analysis fails for want of a verdict, or because a failed call left a
      conflicting artifact, and otherwise is about the experiment the trace chose: the stored trace
      always replays, the terminal is never inconsistent and the run is always summarized. */
  lemma FixedAnalysis(cfg: Config, task: Task, env: Environment, steps: seq<Step>)
    requires FixedRun.Setup(cfg, task, env) && Observes(Seen(RunTrace(cfg, task, env)), steps)
    ensures var trace := RunTrace(cfg, task, env);
            && trace.terminal.state == Completed
            && (CompleteEvidence(trace.terminal) ==> ChosenExperiment(trace).Some?)
            && SummaryOf(trace).Some?
            && (!CompleteEvidence(trace.terminal) ==> trace.terminal.outcome == Inconclusive)
            && AnalysisOf(cfg.hashes, trace, CachesOf(steps)) == Expected(trace, AttemptsOf(steps))
  {
    hide Accepted, RunTrace, AnalysisOf, FixedRun.Setup, ObservationsBefore, RetrievalPlanner.ExpectedDecision,
      RuntimeBudgets.Failures, Ran, Disturbed, CachesAfter, ChosenExperiment, SummaryOf,
      Observes, CachesOf, AttemptsOf;
    var trace := RunTrace(cfg, task, env);
    FixedRun.FixedRunCompletes(cfg, task, env);
    FixedRun.SetupMeans(cfg, task, env);
    FixedSetup(cfg, task, env);
    AnsweredRuns.CompletedIsSummarized(cfg, task, env);
    HandlersRan(Seen(trace), steps);
    AllowedIsAnalyzed(cfg.hashes, task, trace, AttemptsOf(steps));
    FixedOutcomes(ObservationsBefore(trace.events, |trace.events|));
  }

  lemma FixedSetup(cfg: Config, task: Task, env: Environment)
    requires FixedRun.Setup(cfg, task, env)
    ensures AnsweredRuns.RetrievalSetup(cfg, task, env)
  {
    hide FixedRun.Driven;
    FixedRun.SetupMeans(cfg, task, env);
  }

  lemma AdaptiveSetup(cfg: Config, task: Task, env: Environment, binding: AuditBinding)
    requires AdaptiveRun.Setup(cfg, task, env, binding)
    ensures AnsweredRuns.RetrievalSetup(cfg, task, env)
  {
    hide AdaptiveRun.Selecting;
    AdaptiveRun.SetupMeans(cfg, task, env, binding);
  }

  lemma FixedOutcomes(observations: seq<Observation>)
    ensures var d := RetrievalPlanner.ExpectedDecision(observations);
            d.Some? && d.value.Finish? ==> d.value.outcome in {ProposalReady, NoSafeImprovement, Inconclusive}
  {
    hide RetrievalPlanner.ProgressOf, Experimental, Recounts, Passing, Best;
    PlannerProgress(observations);
  }

  /** Likewise for any selector over the adaptive options: nothing but a failed tool prevents it. */
  lemma AdaptiveAnalysis(cfg: Config, task: Task, env: Environment, binding: AuditBinding, steps: seq<Step>)
    requires AdaptiveRun.Setup(cfg, task, env, binding) && Observes(Seen(RunTrace(cfg, task, env)), steps)
    ensures var trace := RunTrace(cfg, task, env);
            && (trace.terminal.state == Completed ==> ChosenExperiment(trace).Some? && SummaryOf(trace).Some?)
            && (trace.terminal.state != Completed ==> trace.terminal.reason == FailureBudgetExhausted)
            && var reply := AnalysisOf(cfg.hashes, trace, CachesOf(steps));
            if trace.terminal.state != Completed then reply == Err(NoVerdict)
            else reply.Ok? && Some(reply.value.chosen) == ChosenExperiment(trace) && Some(reply.value.summary) == SummaryOf(trace)
  {
    hide Accepted, RunTrace, AnalysisOf, AdaptiveRun.Setup, ObservationsBefore, RetrievalPolicy.HistoryOf,
      RetrievalFinishAllowed, Ran, Disturbed, CachesAfter, ChosenExperiment, SummaryOf,
      Observes, CachesOf, AttemptsOf;
    AdaptiveRun.AnySelectorEnds(cfg, task, env, binding);
    AdaptiveRun.SetupMeans(cfg, task, env, binding);
    AdaptiveSetup(cfg, task, env, binding);
    if RunTrace(cfg, task, env).terminal.state == Completed {
      AnsweredRuns.CompletedIsSummarized(cfg, task, env);
    }
    HandlersRan(Seen(RunTrace(cfg, task, env)), steps);
    AllowedIsAnalyzed(cfg.hashes, task, RunTrace(cfg, task, env), AttemptsOf(steps));
  }
}
