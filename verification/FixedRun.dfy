/** The fixed planner under its runtime policy: every run completes within its budgets. */
module FixedRun {
  import opened CompliantRuns
  import opened Contracts
  import opened Grounding
  import opened Replay
  import opened ReplayCompleteness
  import opened RetrievalEvidence
  import opened RetrievalOutcomes
  import opened RetrievalPlanner
  import opened RetrievalRuns
  import opened RetrievalSelection
  import opened Runtime
  import opened RuntimeBudgets
  import opened Trace
  import opened TraceLanguage

  /** Asked about this task, the planner proposes the one expected decision and raises when there is none. */
  ghost predicate Driven(task: Task, env: Environment, policy: RuntimePolicy) {
    forall view: View {:trigger env.planner(view)} :: view.task == task ==>
      match ExpectedDecision(view.observations)
      case None => env.planner(view).Raised?
      case Some(d) =>
        var reply := env.planner(view);
        && reply.Replied? && reply.audit == AuditTaken(None) && reply.decision.Proposed?
        && reply.decision.decision == d && reply.decision.bytes <= policy.maxDecisionBytes
  }

  ghost predicate Setup(cfg: Config, task: Task, env: Environment) {
    && cfg.registry == REGISTRY && cfg.policy == FIXED_POLICY && cfg.plannerId != LlmPlanner
    && task.RetrievalTask? && task.policy == FixedSequence
    && Driven(task, env, cfg.policy) && MatchingTools(env) && NoOverrun(cfg.policy, env)
    && DistinctActionDigests(cfg.hashes)
  }

  function Retries(c: Cursor): nat {
    if c.retryConsumed then 1 else 0
  }

  // How many tools have succeeded.
  function Stage(c: Cursor): nat {
    if c.expectedTool == DiagnoseBaseline then 0 else 1 + |c.experiments|
  }

  // ----- One observation -----

  /** A matching observation moves the planner one stage on, uses up the only retry, or ends the run. */
  lemma AdvanceMatched(front: seq<Observation>, c: Cursor, o: Observation)
    requires ProgressOf(front) == Running(c) && NextRequest(c).Some? && Answered(NextRequest(c).value, front, o)
    ensures var p := Advance(c, front + [o]);
            && !p.Invalid?
            && (p.Running? ==>
                  Stage(p.cursor) + Retries(p.cursor) == Stage(c) + Retries(c) + 1
                  && Retries(p.cursor) == Retries(c) + (if o.succeeded then 0 else 1)
                  && (!o.succeeded ==> p.cursor == c.(retryConsumed := true))
                  && (o.succeeded ==> Stage(p.cursor) == Stage(c) + 1))
            && (p.Stopped? && o.succeeded ==> p.decision.Finish? && p.decision.outcome != Inconclusive)
  {
    hide ProgressOf, ParseBaseline, ParseExperiment, AfterExperiment, Experimental, FixedFinish;
    PlannerProgress(front);
    if o.succeeded && c.expectedTool != DiagnoseBaseline {
      var e := ParseExperiment(o.ref, o.payload).value;
      CandidateArgumentsDiffer(c.baselineRunId.value, c.expectedVariant.value, e.baselineRunId, e.variant);
      ParsedIsValid(o.ref, o.payload);
      ExpectedIsFresh(c, e);
      ExperimentalAppend(c.baselineRunId, c.experiments, e);
      AfterExperimentOk(c, front + [o], e);
      StoppedIsDecided(c, front + [o], e);
    }
  }

  lemma ExpectedIsFresh(c: Cursor, e: Experiment)
    requires CursorOk(c) && c.expectedTool == RunCandidate && c.expectedVariant == Some(e.variant)
    ensures FreshVariant(e, c.experiments)
  {
  }

  lemma StoppedIsDecided(c: Cursor, seen: seq<Observation>, e: Experiment)
    requires c.expectedVariant == Some(e.variant)
    ensures var p := AfterExperiment(c.(experiments := c.experiments + [e]), seen, e);
            p.Stopped? ==> p.decision.Finish? && p.decision.outcome != Inconclusive
  {
  }

  // ----- The run -----

  // No later candidate was requested yet, and the current request at most once before.
  ghost predicate RequestsCounted(cfg: Config, s: RunState, c: Cursor) {
    && (forall b, v :: Position(v) + 1 > Stage(c) ==>
          Attempts(s, cfg.hashes.action(RunCandidate, CandidateArguments(b, v))) == 0)
    && (NextRequest(c).Some? ==>
          var next := NextRequest(c).value;
          Attempts(s, cfg.hashes.action(next.tool, next.arguments)) <= Retries(c))
  }

  ghost predicate Counted(s: RunState, calls: int, failures: int) {
    && s.steps == calls && s.calls == calls && s.creations == calls
    && |s.observations| == calls && s.failures == failures && Failures(s.observations) == failures
  }

  /** The planner still has a request. */
  ghost predicate OnPath(cfg: Config, s: RunState, c: Cursor) {
    && ProgressOf(s.observations) == Running(c)
    && Counted(s, Stage(c) + Retries(c), Retries(c))
    && RequestsCounted(cfg, s, c)
  }

  /** The planner has its finish. */
  ghost predicate AtEnd(s: RunState) {
    && ProgressOf(s.observations).Stopped?
    && var n := |s.observations|;
    && 1 <= n <= 5 && Counted(s, n, Failures(s.observations))
    && Failures(s.observations) <= 2 && Failures(s.observations[..n - 1]) <= 1
    && (ProgressOf(s.observations).decision.outcome == Inconclusive ==> !s.observations[n - 1].succeeded)
  }

  lemma CursorRequests(observations: seq<Observation>, c: Cursor)
    requires ProgressOf(observations) == Running(c)
    ensures NextRequest(c).Some? && NextRequest(c).value.ToolAction?
    ensures ExpectedDecision(observations) == NextRequest(c)
    ensures Stage(c) <= 3
    ensures var next := NextRequest(c).value;
            if c.expectedTool == DiagnoseBaseline then
              Stage(c) == 0 && next.tool == DiagnoseBaseline && next.arguments == DIAGNOSE_ARGUMENTS
            else
              && next.tool == RunCandidate && c.expectedVariant.Some? && c.baselineRunId.Some?
              && next.arguments == CandidateArguments(c.baselineRunId.value, c.expectedVariant.value)
              && Stage(c) == Position(c.expectedVariant.value) + 1
  {
    hide ProgressOf, Experimental;
    PlannerProgress(observations);
  }

  // The turn of a planner that has a decision: it is taken as it is.
  lemma ConsultDriven(cfg: Config, task: Task, env: Environment, s: RunState, d: Decision)
    requires Setup(cfg, task, env) && ExpectedDecision(s.observations) == Some(d)
    requires d.Finish? ==> |d.refs| <= MAX_REFS
    ensures Consult(cfg, env, CurrentView(cfg, task, env, s)) == Decided(d, None)
    ensures AuditBound(task, s.observations, d, None)
  {
    hide ExpectedDecision, MatchingTools, DistinctActionDigests;
    var view := CurrentView(cfg, task, env, s);
    assert env.clockMs(2 * view.stepsUsed) <= cfg.policy.maxElapsedMs as real;
    assert env.planner(view).Replied?;
  }

  lemma SetupMeans(cfg: Config, task: Task, env: Environment)
    requires Setup(cfg, task, env)
    ensures cfg.Valid() && cfg.policy == FIXED_POLICY && cfg.registry == REGISTRY
    ensures cfg.policy.maxFailures == 3 && cfg.policy.maxSteps == 8
    ensures task.RetrievalTask? && task.policy == FixedSequence && DistinctActionDigests(cfg.hashes)
  {
  }

  lemma NotDenied(cfg: Config, s: RunState, c: Cursor)
    requires cfg.policy == FIXED_POLICY && OnPath(cfg, s, c)
    ensures NextRequest(c).Some? && NextRequest(c).value.ToolAction? && Denied(cfg, s, NextRequest(c).value).None?
  {
    hide ProgressOf, CreatesRun, Failures;
    CursorRequests(s.observations, c);
  }

  // The request is in scope, so the tool is asked and its observation answers the request.
  lemma RequestAnswered(cfg: Config, task: Task, env: Environment, s: RunState, c: Cursor)
    requires Setup(cfg, task, env) && ProgressOf(s.observations) == Running(c)
    requires NextRequest(c).Some? && NextRequest(c).value.ToolAction?
    ensures var action := NextRequest(c).value;
            var reply := env.tool(CurrentView(cfg, task, env, s), action);
            var (o, violation) := ExecuteTool(cfg, task, action, s.observations, reply);
            !violation && Answered(action, s.observations, o)
  {
    hide ProgressOf, ExecuteTool, Answered, MatchingReply, Driven, NoOverrun, DistinctActionDigests;
    var action, view := NextRequest(c).value, CurrentView(cfg, task, env, s);
    CursorRequests(s.observations, c);
    assert view.observations == s.observations;
    assert MatchingReply(action, view.observations, env.tool(view, action));
    DispatchAnswers(cfg, task, action, s.observations, env.tool(view, action));
  }

  /** A request's digest is not that of any later candidate. */
  lemma RequestKey(cfg: Config, c: Cursor, observations: seq<Observation>, b: Id, v: Variant)
    requires DistinctActionDigests(cfg.hashes) && ProgressOf(observations) == Running(c)
    requires Position(v) + 1 > Stage(c)
    ensures NextRequest(c).Some? && NextRequest(c).value.ToolAction?
    ensures var r := NextRequest(c).value;
            cfg.hashes.action(r.tool, r.arguments) != cfg.hashes.action(RunCandidate, CandidateArguments(b, v))
  {
    hide ProgressOf;
    CursorRequests(observations, c);
    if c.expectedTool != DiagnoseBaseline {
      CandidateArgumentsDiffer(b, v, c.baselineRunId.value, c.expectedVariant.value);
    }
  }

  lemma RequestsStep(
    cfg: Config, task: Task, env: Environment, s: RunState, c: Cursor, o: Observation, next: Cursor)
    requires DistinctActionDigests(cfg.hashes) && OnPath(cfg, s, c)
    requires NextRequest(c).Some? && NextRequest(c).value.ToolAction? && Answered(NextRequest(c).value, s.observations, o)
    requires ProgressOf(s.observations + [o]) == Running(next)
    ensures RequestsCounted(cfg, Perform(cfg, task, env, s, NextRequest(c).value, None, o), next)
  {
    hide ProgressOf, Answered, Failures, Counted, ActionEvents, Advance;
    var action, front := NextRequest(c).value, s.observations;
    var after := Perform(cfg, task, env, s, action, None, o);
    ProgressAppend(front, o, c);
    AdvanceMatched(front, c, o);
    CursorRequests(front, c);
    CursorRequests(front + [o], next);
    forall b, v | Position(v) + 1 > Stage(next)
      ensures Attempts(after, cfg.hashes.action(RunCandidate, CandidateArguments(b, v))) == 0
    {
      RequestKey(cfg, c, front, b, v);
      assert Attempts(s, cfg.hashes.action(RunCandidate, CandidateArguments(b, v))) == 0;
    }
    if o.succeeded {
      RequestKey(cfg, c, front, next.baselineRunId.value, next.expectedVariant.value);
      assert Attempts(s, cfg.hashes.action(RunCandidate, CandidateArguments(next.baselineRunId.value, next.expectedVariant.value))) == 0;
    }
  }

  lemma ProgressAppend(front: seq<Observation>, o: Observation, c: Cursor)
    requires ProgressOf(front) == Running(c)
    ensures ProgressOf(front + [o]) == Advance(c, front + [o])
  {
  }

  /** One performed request keeps the run on its path or takes it to its end. */
  lemma PathStep(cfg: Config, task: Task, env: Environment, s: RunState, c: Cursor, o: Observation)
    requires DistinctActionDigests(cfg.hashes) && OnPath(cfg, s, c)
    requires NextRequest(c).Some? && NextRequest(c).value.ToolAction? && Answered(NextRequest(c).value, s.observations, o)
    ensures var after := Perform(cfg, task, env, s, NextRequest(c).value, None, o);
            var p := ProgressOf(s.observations + [o]);
            && !p.Invalid? && after.failures <= 2
            && (p.Running? ==> OnPath(cfg, after, p.cursor))
            && (p.Stopped? ==> AtEnd(after))
  {
    hide ProgressOf, Answered, RequestsCounted, Failures, ActionEvents, Advance, NextRequest;
    var front, action := s.observations, NextRequest(c).value;
    var p := ProgressOf(front + [o]);
    PerformFields(cfg, task, env, s, action, None, o);
    ProgressAppend(front, o, c);
    AdvanceMatched(front, c, o);
    CursorRequests(front, c);
    FailuresAppend(front, o);
    RequestCreates(c);
    assert (front + [o])[..|front|] == front;
    if p.Running? {
      RequestsStep(cfg, task, env, s, c, o, p.cursor);
    }
  }

  lemma RequestCreates(c: Cursor)
    requires NextRequest(c).Some? && NextRequest(c).value.ToolAction?
    ensures CreatesRun(NextRequest(c).value.tool)
  {
  }

  /** How a fixed run ends: completed, with the finish its own observations justify, after at most
      five calls of which all but the last contain at most one failure, the retried one. */
  ghost predicate Completes(trace: AgentTrace) {
    var terminal, observations := trace.terminal, ObservationsBefore(trace.events, |trace.events|);
    var n := |observations|;
    && terminal.state == Completed
    && 1 <= terminal.toolCallsUsed == n <= 5 && terminal.stepsUsed == n + 1
    && ExpectedDecision(observations) == Some(Finish(terminal.outcome, terminal.refs, terminal.reason))
    && Failures(observations[..n - 1]) <= 1 && Failures(observations) <= 2
    && (terminal.outcome == Inconclusive ==> !observations[n - 1].succeeded)
  }

  lemma EndCompletes(cfg: Config, task: Task, env: Environment, s: RunState)
    requires Setup(cfg, task, env) && Simulates(cfg, task, env, s) && AtEnd(s)
    ensures Completes(RunFrom(cfg, task, env, s))
    ensures var events := RunFrom(cfg, task, env, s).events; ObservationsBefore(events, |events|) == s.observations
  {
    hide *;
    SetupMeans(cfg, task, env);
    var d := EndDecision(s, task);
    AllowedFinishIsGrounded(task, s.observations, d);
    ConsultDriven(cfg, task, env, s, d);
    RunStops(cfg, task, env, s);
    CompleteFields(cfg, task, env, s, d);
    SimulatesObservations(cfg, task, env, s);
    var trace := Complete(cfg, task, env, s, s.steps + 1, d, None);
    CompletesIs(s, d, trace);
  }

  lemma CompletesIs(s: RunState, d: Decision, trace: AgentTrace)
    requires AtEnd(s) && ProgressOf(s.observations).decision == d && d.Finish?
    requires ObservationsBefore(trace.events, |trace.events|) == s.observations
    requires trace.terminal.state == Completed && trace.terminal.stepsUsed == s.steps + 1 && trace.terminal.toolCallsUsed == s.calls
    requires trace.terminal.outcome == d.outcome && trace.terminal.refs == d.refs && trace.terminal.reason == d.finishReason
    ensures Completes(trace)
  {
    hide ProgressOf, Failures, ObservationsBefore;
  }

  lemma EndDecision(s: RunState, task: Task) returns (d: Decision)
    requires AtEnd(s) && task.RetrievalTask? && task.policy == FixedSequence
    ensures ProgressOf(s.observations).Stopped? && d == ProgressOf(s.observations).decision && d.Finish?
    ensures ExpectedDecision(s.observations) == Some(d) && RetrievalFinishAllowed(task, d, s.observations)
    ensures |d.refs| <= MAX_REFS && s.steps <= 5
  {
    hide ProgressOf, Failures, RefsOf, Experimental;
    d := ProgressOf(s.observations).decision;
    PlannerProgress(s.observations);
    AllowedFinishIsGrounded(task, s.observations, d);
  }

  lemma CompleteFields(cfg: Config, task: Task, env: Environment, s: RunState, d: Decision)
    requires d.Finish?
    ensures var trace := Complete(cfg, task, env, s, s.steps + 1, d, None);
            && trace.terminal.state == Completed && trace.terminal.stepsUsed == s.steps + 1
            && trace.terminal.toolCallsUsed == s.calls && trace.terminal.outcome == d.outcome
            && trace.terminal.refs == d.refs && trace.terminal.reason == d.finishReason
            && ObservationsBefore(trace.events, |trace.events|) == ObservationsBefore(s.events, |s.events|)
  {
    var trace := Complete(cfg, task, env, s, s.steps + 1, d, None);
    ObservationsPrefix(s.events, trace.events, |s.events|);
  }

  /** One turn on the path: the request is performed and the run goes on from there. */
  lemma PathTurn(cfg: Config, task: Task, env: Environment, s: RunState, c: Cursor) returns (o: Observation, after: RunState)
    requires Setup(cfg, task, env) && Simulates(cfg, task, env, s) && OnPath(cfg, s, c)
    ensures ProgressOf(s.observations) == Running(c) && NextRequest(c).Some? && NextRequest(c).value.ToolAction?
    ensures var action := NextRequest(c).value;
            o == ExecuteTool(cfg, task, action, s.observations, env.tool(CurrentView(cfg, task, env, s), action)).0
    ensures RunFrom(cfg, task, env, s) == RunFrom(cfg, task, env, after) && Simulates(cfg, task, env, after)
    ensures after.observations == s.observations + [o] && after.steps == s.steps + 1 && s.steps < cfg.policy.maxSteps
    ensures var p := ProgressOf(after.observations);
            !p.Invalid? && (p.Running? ==> OnPath(cfg, after, p.cursor)) && (p.Stopped? ==> AtEnd(after))
  {
    hide *;
    SetupMeans(cfg, task, env);
    OnPathMeans(cfg, s, c);
    CursorRequests(s.observations, c);
    var action := NextRequest(c).value;
    ConsultDriven(cfg, task, env, s, action);
    NotDenied(cfg, s, c);
    RunActs(cfg, task, env, s, action, None);
    RequestAnswered(cfg, task, env, s, c);
    var reply := env.tool(CurrentView(cfg, task, env, s), action);
    o := ExecuteTool(cfg, task, action, s.observations, reply).0;
    after := Perform(cfg, task, env, s, action, None, o);
    PathStep(cfg, task, env, s, c, o);
    PerformSimulates(cfg, task, env, s, action, None, reply);
    PerformFields(cfg, task, env, s, action, None, o);
  }

  lemma {:induction false} PathCompletes(cfg: Config, task: Task, env: Environment, s: RunState, c: Cursor)
    requires Setup(cfg, task, env) && Simulates(cfg, task, env, s) && OnPath(cfg, s, c)
    ensures Completes(RunFrom(cfg, task, env, s))
    decreases cfg.policy.maxSteps - s.steps
  {
    hide *;
    var o, after := PathTurn(cfg, task, env, s, c);
    var p := ProgressOf(after.observations);
    if p.Running? {
      PathCompletes(cfg, task, env, after, p.cursor);
    } else {
      EndCompletes(cfg, task, env, after);
    }
  }

  lemma OnPathMeans(cfg: Config, s: RunState, c: Cursor)
    requires OnPath(cfg, s, c)
    ensures ProgressOf(s.observations) == Running(c) && s.steps <= 4
  {
    hide ProgressOf, Failures, RequestsCounted;
    CursorRequests(s.observations, c);
  }

  /** For every pattern of successes and of retryable or permanent failures, the run of the fixed
      planner completes within its budgets, replays, and uses at most one retry. */
  lemma FixedRunCompletes(cfg: Config, task: Task, env: Environment)
    requires Setup(cfg, task, env)
    ensures Completes(RunTrace(cfg, task, env))
    ensures Accepted(cfg.hashes, RunTrace(cfg, task, env))
  {
    hide *;
    SetupMeans(cfg, task, env);
    RunStarts(cfg, task, env);
    StartsOnPath(cfg, task, env);
    PathCompletes(cfg, task, env, Runtime.START, RetrievalPlanner.START);
    var binding := AuditBinding("", "", cfg.hashes.zero);
    SetupComplies(cfg, task, env, binding);
    CompliantRunReplays(cfg, task, env, binding);
  }

  lemma StartsOnPath(cfg: Config, task: Task, env: Environment)
    ensures Simulates(cfg, task, env, Runtime.START) && OnPath(cfg, Runtime.START, RetrievalPlanner.START)
  {
  }

  lemma SetupComplies(cfg: Config, task: Task, env: Environment, binding: AuditBinding)
    requires Setup(cfg, task, env)
    ensures Compliant(cfg, task, env, binding)
  {
    hide ExpectedDecision, MatchingTools, NoOverrun, DistinctActionDigests, RetrievalPolicy.DeriveOptions;
    forall view: View | view.task == task
      ensures HonestReply(task, view.observations, env.planner(view), binding)
    {
      assert env.planner(view).Raised? || env.planner(view).audit == AuditTaken(None);
    }
  }
}
