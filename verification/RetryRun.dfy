/** A run whose response is refused: a harness that computes another run when it is asked again. */
module RetryRun {
  import opened Contracts
  import opened FixedRun
  import opened Grounding
  import opened Replay
  import opened ReplayCompleteness
  import opened RetrievalAnalysis
  import opened RetrievalEvidence
  import opened RetrievalPlanner
  import opened RetrievalRuns
  import opened RetrievalSelection
  import opened Runtime
  import opened StageResponse
  import opened Trace
  import opened TraceLanguage
  import StageTools

  const TASK := RetrievalTask("", FixedSequence)

  const UNAVAILABLE := OtherCode("artifact_store_unavailable")

  function ConfigOf(h: Hashes): Config {
    Config(h, NamedPlanner(""), REGISTRY, FIXED_POLICY)
  }

  // ----- The environment -----

  /** A baseline, a candidate evidence that a failed call leaves behind, and the evidence of its retry. */
  ghost predicate Scenario(b: BaselineSummary, left: Experiment, e: Experiment) {
    && ValidBaseline(b) && ValidExperiment(e)
    && e.baselineRunId == b.runId && e.variant == Uniform && e.gatePassed && e.diagnosisId != b.diagnosisId
    && left.baselineRunId == b.runId && left.variant == Uniform
    && left.candidateRunId != b.runId && left.candidateRunId != e.candidateRunId
  }

  function First(h: Hashes, b: BaselineSummary): Observation {
    Observed(h, ObservationBody(DiagnoseBaseline, true, Some(RunRef(b.runId)), BaselinePayload(b), None, false))
  }

  function Second(h: Hashes): Observation {
    Failure(h, RunCandidate, UNAVAILABLE, true)
  }

  function Third(h: Hashes, e: Experiment): Observation {
    Observed(h, ObservationBody(RunCandidate, true, Some(ComparisonRef(e.comparisonId)), ExperimentPayload(e), None, false))
  }

  // The first candidate fails on storage, and its retry passes.
  function Tool(h: Hashes, b: BaselineSummary, e: Experiment, view: View, action: Decision): ToolReply {
    if action.ToolAction? && view.observations == [] && action.tool == DiagnoseBaseline then
      Output(RunRef(b.runId), BaselinePayload(b), 0)
    else if action.ToolAction? && view.observations == [First(h, b), Second(h)] && action.tool == RunCandidate
            && action.arguments == CandidateArguments(b.runId, Uniform) then
      Output(ComparisonRef(e.comparisonId), ExperimentPayload(e), 0)
    else ToolError(UNAVAILABLE, true)
  }

  function Planner(view: View): PlannerReply {
    match ExpectedDecision(view.observations)
    case None => Raised
    case Some(d) => Replied(AuditTaken(None), Proposed(d, 0))
  }

  function EnvironmentOf(h: Hashes, b: BaselineSummary, e: Experiment, traceId: Id): Environment {
    Environment(traceId, view => Planner(view), (view, action) => Tool(h, b, e, view, action),
                k => 0.0, k => 0.0, k => "")
  }

  lemma ScenarioSetup(h: Hashes, b: BaselineSummary, left: Experiment, e: Experiment, traceId: Id)
    requires Scenario(b, left, e) && DistinctActionDigests(h)
    ensures Setup(ConfigOf(h), TASK, EnvironmentOf(h, b, e, traceId))
  {
    hide ExpectedDecision, ValidGate, ValidBaseline, DistinctActionDigests;
    var env := EnvironmentOf(h, b, e, traceId);
    NothingObserved(h, b);
    forall view: View, action: Decision | action.ToolAction?
      ensures MatchingReply(action, view.observations, env.tool(view, action))
    {
      assert env.tool(view, action) == Tool(h, b, e, view, action);
    }
  }

  lemma NothingObserved(h: Hashes, b: BaselineSummary)
    ensures ObservedExperiments([First(h, b), Second(h)]) == []
  {
    assert [First(h, b), Second(h)][..1] == [First(h, b)] && [First(h, b)][..0] == [];
    assert ObservedExperiments([First(h, b)]) == [];
  }

  // ----- The run -----

  /** A request of the planner is dispatched to the tool. */
  lemma Dispatched(cfg: Config, observations: seq<Observation>, action: Decision, reply: ToolReply)
    requires cfg.registry == REGISTRY && cfg.policy == FIXED_POLICY && ExpectedDecision(observations) == Some(action)
    requires action.ToolAction? && action.tool in {DiagnoseBaseline, RunCandidate}
    ensures var o := ExecuteTool(cfg, TASK, action, observations, reply).0;
            && (reply.ToolError? ==> o == Failure(cfg.hashes, action.tool, reply.code, reply.canRetry))
            && (reply.Output? && !reply.ref.MalformedRef? && reply.bytes == 0 ==>
                  o == Observed(cfg.hashes, ObservationBody(action.tool, true, Some(reply.ref), reply.payload, None, false)))
  {
    hide ExpectedDecision;
  }

  lemma Turn(h: Hashes, b: BaselineSummary, e: Experiment, env: Environment, s: RunState, c: Cursor)
    returns (o: Observation, after: RunState)
    requires env == EnvironmentOf(h, b, e, env.traceId) && Setup(ConfigOf(h), TASK, env)
    requires Simulates(ConfigOf(h), TASK, env, s) && OnPath(ConfigOf(h), s, c)
    ensures NextRequest(c).Some? && NextRequest(c).value.ToolAction?
    ensures var reply := Tool(h, b, e, CurrentView(ConfigOf(h), TASK, env, s), NextRequest(c).value);
            && (reply.ToolError? ==> o == Failure(h, NextRequest(c).value.tool, reply.code, reply.canRetry))
            && (reply.Output? && !reply.ref.MalformedRef? && reply.bytes == 0 ==>
                  o == Observed(h, ObservationBody(NextRequest(c).value.tool, true, Some(reply.ref), reply.payload, None, false)))
    ensures RunFrom(ConfigOf(h), TASK, env, s) == RunFrom(ConfigOf(h), TASK, env, after)
    ensures Simulates(ConfigOf(h), TASK, env, after) && after.observations == s.observations + [o]
    ensures var p := ProgressOf(after.observations);
            (p.Running? ==> OnPath(ConfigOf(h), after, p.cursor)) && (p.Stopped? ==> AtEnd(after))
  {
    hide Setup, Simulates, OnPath, AtEnd, ProgressOf, ExecuteTool, RunFrom, CurrentView, Tool, NextRequest;
    o, after := PathTurn(ConfigOf(h), TASK, env, s, c);
    CursorRequests(s.observations, c);
    var action := NextRequest(c).value;
    var view := CurrentView(ConfigOf(h), TASK, env, s);
    assert env.tool(view, action) == Tool(h, b, e, view, action);
    Dispatched(ConfigOf(h), s.observations, action, env.tool(view, action));
  }

  lemma Viewed(cfg: Config, env: Environment, s: RunState)
    ensures CurrentView(cfg, TASK, env, s).observations == s.observations
  {
  }

  function CandidateCursor(b: BaselineSummary, retried: bool): Cursor {
    Cursor(RunCandidate, Some(Uniform), Some(b.runId), [], retried)
  }

  // What the planner makes of the three observations.
  lemma Progresses(h: Hashes, b: BaselineSummary, left: Experiment, e: Experiment)
    requires Scenario(b, left, e)
    ensures ProgressOf([]) == Running(RetrievalPlanner.START)
    ensures ProgressOf([First(h, b)]) == Running(CandidateCursor(b, false))
    ensures ProgressOf([First(h, b), Second(h)]) == Running(CandidateCursor(b, true))
    ensures var seen := [First(h, b), Second(h), Third(h, e)];
            ProgressOf(seen).Stopped? && ExpectedDecision(seen) == Some(Ready(seen, UniformCandidatePassed))
  {
    hide ValidGate, SuccessfulEvidence;
    var one, two, three := [First(h, b)], [First(h, b), Second(h)], [First(h, b), Second(h), Third(h, e)];
    assert one[..0] == [] && two[..1] == one && three[..2] == two && [] + [e] == [e];
    assert ProgressOf(one) == Advance(RetrievalPlanner.START, one);
    assert ProgressOf(two) == Advance(CandidateCursor(b, false), two);
    assert ProgressOf(three) == Advance(CandidateCursor(b, true), three);
  }

  /** The three turns of the run, whatever its id. */
  lemma ThreeTurns(h: Hashes, b: BaselineSummary, left: Experiment, e: Experiment, traceId: Id)
    requires Scenario(b, left, e) && DistinctActionDigests(h)
    ensures Seen(RunTrace(ConfigOf(h), TASK, EnvironmentOf(h, b, e, traceId))) == [First(h, b), Second(h), Third(h, e)]
  {
    hide *;
    var cfg, env := ConfigOf(h), EnvironmentOf(h, b, e, traceId);
    EnvironmentIs(h, b, e, traceId);
    ScenarioSetup(h, b, left, e, traceId);
    Progresses(h, b, left, e);
    RunStarts(cfg, TASK, env);
    StartsOnPath(cfg, TASK, env);
    var first, s1 := Turn(h, b, e, env, Runtime.START, RetrievalPlanner.START);
    Viewed(cfg, env, Runtime.START);
    FirstReply(h, b, e, CurrentView(cfg, TASK, env, Runtime.START));
    assert s1.observations == [First(h, b)];
    var second, s2 := Turn(h, b, e, env, s1, CandidateCursor(b, false));
    Viewed(cfg, env, s1);
    SecondReply(h, b, e, CurrentView(cfg, TASK, env, s1));
    assert s2.observations == [First(h, b), Second(h)];
    var third, s3 := Turn(h, b, e, env, s2, CandidateCursor(b, true));
    Viewed(cfg, env, s2);
    ThirdReply(h, b, e, CurrentView(cfg, TASK, env, s2));
    assert s3.observations == [First(h, b), Second(h), Third(h, e)];
    EndCompletes(cfg, TASK, env, s3);
    SeenIs(RunTrace(cfg, TASK, env));
  }

  lemma EnvironmentIs(h: Hashes, b: BaselineSummary, e: Experiment, traceId: Id)
    ensures EnvironmentOf(h, b, e, traceId).traceId == traceId
  {
  }

  lemma SeenIs(trace: AgentTrace)
    ensures Seen(trace) == ObservationsBefore(trace.events, |trace.events|)
  {
  }

  lemma FirstReply(h: Hashes, b: BaselineSummary, e: Experiment, view: View)
    requires view.observations == []
    ensures var request := NextRequest(RetrievalPlanner.START);
            && request.Some? && request.value.ToolAction? && request.value.tool == DiagnoseBaseline
            && Tool(h, b, e, view, request.value) == Output(RunRef(b.runId), BaselinePayload(b), 0)
            && First(h, b) == Observed(h, ObservationBody(DiagnoseBaseline, true, Some(RunRef(b.runId)), BaselinePayload(b), None, false))
  {
  }

  lemma SecondReply(h: Hashes, b: BaselineSummary, e: Experiment, view: View)
    requires view.observations == [First(h, b)]
    ensures var request := NextRequest(CandidateCursor(b, false));
            && request.Some? && request.value.ToolAction? && request.value.tool == RunCandidate
            && Tool(h, b, e, view, request.value) == ToolError(UNAVAILABLE, true)
            && Second(h) == Failure(h, RunCandidate, UNAVAILABLE, true)
  {
    assert |[First(h, b), Second(h)]| != |view.observations|;
  }

  lemma ThirdReply(h: Hashes, b: BaselineSummary, e: Experiment, view: View)
    requires view.observations == [First(h, b), Second(h)]
    ensures var request := NextRequest(CandidateCursor(b, true));
            && request.Some? && request.value.ToolAction? && request.value.tool == RunCandidate
            && Tool(h, b, e, view, request.value) == Output(ComparisonRef(e.comparisonId), ExperimentPayload(e), 0)
            && Third(h, e) == Observed(h, ObservationBody(RunCandidate, true, Some(ComparisonRef(e.comparisonId)), ExperimentPayload(e), None, false))
  {
  }

  // ----- The tools -----

  /** The calls behind the three observations: the first candidate dies once its run is stored. */
  function Steps(b: BaselineSummary, left: Experiment, e: Experiment): seq<Step> {
    [Step(Some(StageTools.BaselineCall(b)), 3), Step(Some(StageTools.CandidateCall(left)), 1), Step(Some(StageTools.CandidateCall(e)), 3)]
  }

  lemma MadeAll(c: StageTools.Caches, updates: seq<StageTools.Update>)
    requires |updates| == 3 && StageTools.Allowed(c, updates[0])
    ensures StageTools.Made(c, updates, 1) == 1 && StageTools.Folded(c, updates[..1]) == StageTools.Updated(c, updates[0])
    ensures var d := StageTools.Updated(c, updates[0]);
            StageTools.Allowed(d, updates[1]) && StageTools.Allowed(StageTools.Updated(d, updates[1]), updates[2]) ==>
              && StageTools.Made(c, updates, 3) == 3
              && StageTools.Folded(c, updates[..3]) == StageTools.Updated(StageTools.Updated(d, updates[1]), updates[2])
  {
    hide StageTools.Allowed, StageTools.Updated;
    var u := updates;
    assert u[1..][1..] == u[2..] && u[2..][1..] == [] && u[1..][0] == u[1] && u[2..][0] == u[2];
    assert u[..1][..0] == [] && u[..2][..1] == u[..1] && u[..3][..2] == u[..2];
    assert StageTools.Folded(c, u[..1]) == StageTools.Updated(c, u[0]);
    assert StageTools.Folded(c, u[..2]) == StageTools.Updated(StageTools.Updated(c, u[0]), u[1]);
    var d := StageTools.Updated(c, u[0]);
    assert StageTools.Made(d, u[1..], 0) == 0;
    if StageTools.Allowed(d, u[1]) && StageTools.Allowed(StageTools.Updated(d, u[1]), u[2]) {
      assert StageTools.Made(StageTools.Updated(d, u[1]), u[2..], 1) == 1;
      assert StageTools.Made(d, u[1..], 2) == 2;
    }
  }

  lemma CallsMake(b: BaselineSummary, left: Experiment, e: Experiment)
    requires Scenario(b, left, e)
    ensures AttemptsOf(Steps(b, left, e)) ==
            [Attempt(Some(StageTools.BaselineCall(b)), 3), Attempt(Some(StageTools.CandidateCall(left)), 1),
             Attempt(Some(StageTools.CandidateCall(e)), 3)]
  {
    hide ValidGate, StageTools.Made, StageTools.Folded;
    var all := Steps(b, left, e);
    assert all[..2][..1] == all[..1] && all[..1][..0] == [] && all[..1] == [all[0]];
    var c0 := StageTools.EMPTY;
    var bs, ls, es := StageTools.UpdatesOf(all[0].call.value), StageTools.UpdatesOf(all[1].call.value), StageTools.UpdatesOf(all[2].call.value);
    MadeAll(c0, bs);
    var c1 := StageTools.Handled(c0, all[0].call.value, 3);
    assert CachesOf(all[..1]) == c1;
    MadeAll(c1, ls);
    var c2 := StageTools.Handled(c1, all[1].call.value, 1);
    assert CachesOf(all[..2]) == c2;
    MadeAll(c2, es);
    assert AttemptsOf(all[..1]) == [Attempt(all[0].call, 3)];
    assert AttemptsOf(all[..2]) == [Attempt(all[0].call, 3), Attempt(all[1].call, 1)];
  }

  lemma CallsObserved(h: Hashes, b: BaselineSummary, left: Experiment, e: Experiment)
    requires Scenario(b, left, e)
    ensures Observes([First(h, b), Second(h), Third(h, e)], Steps(b, left, e))
  {
    hide StageTools.HandlerMade, CachesOf, Scenario;
    var seen, all := [First(h, b), Second(h), Third(h, e)], Steps(b, left, e);
    CallsMake(b, left, e);
    var attempts := AttemptsOf(all);
    assert all[..2][..1] == all[..1] && all[..1][..0] == [];
    assert seen[..2][..1] == seen[..1] && seen[..1][..0] == [];
    assert attempts[2] == AttemptOf(CachesOf(all[..2]), all[2]);
    assert attempts[..2] == AttemptsOf(all[..2]);
    assert attempts[1] == AttemptOf(CachesOf(all[..1]), all[1]);
    assert attempts[0] == AttemptOf(CachesOf(all[..0]), all[0]);
    assert Observes(seen[..1], all[..1]);
    assert Observes(seen[..2], all[..2]);
  }

  lemma CallsDisturb(h: Hashes, b: BaselineSummary, left: Experiment, e: Experiment)
    requires Scenario(b, left, e)
    ensures Disturbed([First(h, b), Second(h), Third(h, e)], AttemptsOf(Steps(b, left, e)))
  {
    hide ValidExperiment, AttemptsOf;
    var seen, attempts := [First(h, b), Second(h), Third(h, e)], AttemptsOf(Steps(b, left, e));
    CallsMake(b, left, e);
    var u := StageTools.UpdatesOf(StageTools.CandidateCall(left))[0];
    assert MadeUpdates(attempts[1])[0] == u;
    assert u in MadeUpdates(attempts[1]) && Conflicts(u, attempts[2].call.value);
    assert Disturbs(seen, attempts, 1, 2);
  }

  /** The run completes on a proposal, is stored and replays, and its analysis is refused: the failed
      candidate left a run behind, and the retry that passed computed another. */
  lemma RetrySpoilsResponse(h: Hashes, b: BaselineSummary, left: Experiment, e: Experiment, traceId: Id)
    requires Scenario(b, left, e) && DistinctActionDigests(h)
    ensures var trace := RunTrace(ConfigOf(h), TASK, EnvironmentOf(h, b, e, traceId));
            && trace.terminal.state == Completed && trace.terminal.outcome == ProposalReady && Accepted(h, trace)
            && Observes(Seen(trace), Steps(b, left, e))
            && AnalysisOf(h, trace, CachesOf(Steps(b, left, e))) == Err(ToolsIncomplete)
  {
    hide *;
    var cfg, env, steps := ConfigOf(h), EnvironmentOf(h, b, e, traceId), Steps(b, left, e);
    var trace := RunTrace(cfg, TASK, env);
    ScenarioSetup(h, b, left, e, traceId);
    ConfigIs(h);
    ThreeTurns(h, b, left, e, traceId);
    CallsObserved(h, b, left, e);
    CallsDisturb(h, b, left, e);
    FixedRunCompletes(cfg, TASK, env);
    FixedAnalysis(cfg, TASK, env, steps);
    Progresses(h, b, left, e);
    EndsReady(h, b, e, trace);
    DisturbedIsRefused(trace, AttemptsOf(steps));
  }

  lemma ConfigIs(h: Hashes)
    ensures ConfigOf(h).hashes == h
  {
  }

  lemma EndsReady(h: Hashes, b: BaselineSummary, e: Experiment, trace: AgentTrace)
    requires var seen := [First(h, b), Second(h), Third(h, e)];
             Seen(trace) == seen && Completes(trace) && ExpectedDecision(seen) == Some(Ready(seen, UniformCandidatePassed))
    ensures CompleteEvidence(trace.terminal) && trace.terminal.state == Completed && trace.terminal.outcome == ProposalReady
  {
    hide ExpectedDecision, RuntimeBudgets.Failures, First, Second, Third;
  }

  lemma DisturbedIsRefused(trace: AgentTrace, attempts: seq<Attempt>)
    requires CompleteEvidence(trace.terminal) && Disturbed(Seen(trace), attempts)
    ensures Expected(trace, attempts) == Err(ToolsIncomplete)
  {
    hide Disturbed, Seen;
  }
}
