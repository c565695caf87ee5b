/** The concrete retrieval runtimes (retrieval_runtime.py) and the tools behind them. */
module RetrievalRuns {
  import opened Contracts
  import opened Grounding
  import opened Replay
  import opened RetrievalEvidence
  import opened RetrievalPlanner
  import opened RetrievalSelection
  import opened Runtime
  import opened Trace

  const FIXED_POLICY := RuntimePolicy(8, 6, 5, 3, 2, 120000, 65536, 1048576, RETRIEVAL_CAPABILITIES)

  const ADAPTIVE_POLICY := RuntimePolicy(6, 4, 4, 1, 1, 120000, 65536, 1048576, RETRIEVAL_CAPABILITIES)

  const REGISTRY := Registry(
    RETRIEVAL_TOOLS, map[DiagnoseBaseline := DiagnoseRetrieval, RunCandidate := ExperimentRetrieval])

  function CandidateArguments(baseline: Id, v: Variant): Arguments {
    map[BaselineRunKey := Text(baseline), VariantKey := PipelineName(v)]
  }

  const DIAGNOSE_ARGUMENTS: Arguments := map[ProfileKey := ProfileName(Smoke)]

  /** An experiment on the requested baseline and variant, with ids no earlier experiment has. */
  predicate MatchesCandidate(observations: seq<Observation>, arguments: Arguments, e: Experiment) {
    && arguments == CandidateArguments(e.baselineRunId, e.variant)
    && FreshEvidence(e, ObservedExperiments(observations))
  }

  /** What a retrieval tool may do when asked: fail in any way except by a policy error, or give
      valid evidence for the request. */
  predicate MatchingReply(action: Decision, observations: seq<Observation>, reply: ToolReply)
    requires action.ToolAction?
  {
    match reply
    case ToolPolicyError(_) => false
    case Output(ref, payload, _) =>
      if action.tool == DiagnoseBaseline then ParseBaseline(Some(ref), payload).Some?
      else
        var e := ParseExperiment(Some(ref), payload);
        e.Some? && MatchesCandidate(observations, action.arguments, e.value)
    case _ => true
  }

  ghost predicate MatchingTools(env: Environment) {
    forall view: View, action: Decision {:trigger env.tool(view, action)} ::
      action.ToolAction? ==> MatchingReply(action, view.observations, env.tool(view, action))
  }

  ghost predicate NoOverrun(policy: RuntimePolicy, env: Environment) {
    forall k :: env.clockMs(k) <= policy.maxElapsedMs as real
  }

  ghost predicate DistinctActionDigests(h: Hashes) {
    forall t, a, u, b :: h.action(t, a) == h.action(u, b) ==> t == u && a == b
  }

  /** An observation that answers a retrieval request. */
  predicate Answered(action: Decision, observations: seq<Observation>, o: Observation)
    requires action.ToolAction?
  {
    && o.tool == action.tool
    && (if !o.succeeded then WellFormedFailure(o)
        else
          && WellFormedSuccess(o)
          && (if action.tool == DiagnoseBaseline then ParseBaseline(o.ref, o.payload).Some?
              else
                var e := ParseExperiment(o.ref, o.payload);
                e.Some? && MatchesCandidate(observations, action.arguments, e.value)))
  }

  /** A retrieval action in scope is dispatched, and its observation answers the request. */
  lemma DispatchAnswers(cfg: Config, task: Task, action: Decision, observations: seq<Observation>, reply: ToolReply)
    requires cfg.registry == REGISTRY && cfg.policy.capabilities == RETRIEVAL_CAPABILITIES
    requires action.ToolAction? && action.tool in {DiagnoseBaseline, RunCandidate}
    requires ActionScope(task, action, observations).InScope? && MatchingReply(action, observations, reply)
    ensures var (o, violation) := ExecuteTool(cfg, task, action, observations, reply);
            !violation && Answered(action, observations, o)
  {
    hide ActionScope, MatchesCandidate, ParseExperiment, ParseBaseline;
  }

  lemma CandidateArgumentsDiffer(a: Id, v: Variant, b: Id, w: Variant)
    ensures CandidateArguments(a, v) == CandidateArguments(b, w) ==> a == b && v == w
  {
    assert CandidateArguments(a, v)[VariantKey] == PipelineName(v);
    assert CandidateArguments(b, w)[VariantKey] == PipelineName(w);
    assert CandidateArguments(a, v)[BaselineRunKey] == Text(a);
    assert CandidateArguments(b, w)[BaselineRunKey] == Text(b);
  }
}
