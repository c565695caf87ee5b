/** The values exchanged by planner, tools, runtime, trace and replay.

    Closed vocabularies of the source (tool names, reason codes, error codes) are
    enumerated; every other string of the same field is carried by the `Other...`
    constructor.  A JSON object whose fields the program reads is a record; any
    other object is an `Opaque...` value. */
module Contracts {

  datatype Option<+T> = None | Some(value: T)

  datatype Result<+T, +E> = Ok(value: T) | Err(error: E) {
    predicate IsFailure() {
      Err?
    }

    function PropagateFailure<U>(): Result<U, E>
      requires IsFailure()
    {
      Err(error)
    }

    function Extract(): T
      requires !IsFailure()
    {
      value
    }
  }

  type Id = string

  /** A SHA-256 value.  Nothing is known about digests beyond equality. */
  type Digest(==, !new)

  datatype AgentState = Planning | Acting | Observing | Deciding | Completed | Failed

  datatype Outcome = Accept | Reject | Inconclusive | ProposalReady | NoSafeImprovement

  // The three pipeline variants, in the trusted order.
  datatype Variant = Uniform | Conservative | Aggressive

  datatype Profile = Smoke | OtherProfile(name: string)

  datatype DecisionPolicy = FixedSequence | AdaptiveLlm

  datatype Task =
    | CompareTask(taskId: Id, baselineRunId: Id, candidateRunId: Id, maxRegressions: nat)
    | RetrievalTask(taskId: Id, policy: DecisionPolicy)

  datatype ToolName =
    | CompareRuns | EvaluateRun | InspectQuery | RunRanker
    | DiagnoseBaseline | RunCandidate
    | OtherTool(name: string)

  datatype ArgKey =
    | ProfileKey | BaselineRunKey | CandidateRunKey | RunKey | QueryKey | VariantKey
    | OtherKey(name: string)

  // `Unhashable` stands for a JSON list or object.
  datatype ArgValue =
    | Text(text: string)
    | Whole(number: int)
    | ProfileName(profile: Profile)
    | PipelineName(variant: Variant)
    | Unhashable(json: string)
    | OtherValue(json: string)

  type Arguments = map<ArgKey, ArgValue>

  datatype Reason =
    // chosen by the runtime
    | ElapsedBudgetExhausted | PlannerFailed | PlannerInvalidAudit | PlannerInvalidOutput
    | UngroundedFinishRejected | ToolCallBudgetExhausted | RunCreationBudgetExhausted
    | RepeatedActionRejected | PolicyViolation | FailureBudgetExhausted | StepBudgetExhausted
    // chosen by the fixed retrieval planner
    | DiagnoseRetrievalBaseline | TestUniform | TestConservative | ProbeAggressive
    | UniformCandidatePassed | ConservativeCandidateSelected | AggressiveCandidateSelected
    | NoSafeCandidate | RetrievalToolRetryExhausted | RetrievalToolFailed
    // attached to the options of the adaptive policy
    | LlmDiagnoseBaseline | LlmTestUniform | LlmTestConservative | LlmTestAggressive
    | LlmUniformSelected | LlmConservativeSelected | LlmAggressiveSelected | LlmNoSafeCandidate
    // chosen by the branching planner
    | CompareRequestedRuns | ComparisonFailed | ComparisonEvidenceInvalid
    | InspectLargestRegression | PrimaryMetricRegressed | RegressionDiagnosisIncomplete
    | MixedEvidence | PrimaryMetricTied | MetricsImproved
    | OtherReason(text: string)

  datatype ErrorCode =
    | ToolNotAllowed | CapabilityNotAllowed | InvalidToolResult | ObservationTooLarge
    | InternalError | ComparisonOutsideTaskScope | RunOutsideTaskScope
    | RetrievalHistoryInvalid | RetrievalActionOutsideTaskScope
    | OtherCode(text: string)

  // `MalformedRef` is any string the evidence-reference pattern refuses.
  datatype EvidenceRef =
    | RunRef(runId: Id)
    | ComparisonRef(comparisonId: Id)
    | QueryRef(queryRunId: Id, queryId: int)
    | MalformedRef(text: string)

  datatype Decision =
    | ToolAction(tool: ToolName, arguments: Arguments, actionReason: Reason)
    | Finish(outcome: Outcome, refs: seq<EvidenceRef>, finishReason: Reason)

  datatype OptionId =
    | DiagnoseOption | RunUniformOption | RunConservativeOption | RunAggressiveOption
    | FinishBestOption | FinishNoSafeOption
    | OtherOption(name: string)

  // The part of an audit that must not change inside one trace.
  datatype AuditBinding = AuditBinding(providerId: Id, modelId: Id, plannerConfig: Digest)

  datatype Audit = Audit(
    binding: AuditBinding, selectedOption: OptionId, optionCount: nat, responseId: Digest, usage: string)

  datatype GateName =
    | UniqueContribution | UnionCoverage
    | FusionRecall | FusionNdcg | FusionMrr
    | CoarseRecall | CoarseNdcg | CoarseMrr
    | WorstCoarseNdcg | CoarseRegressedRate | WorstFusionNdcg | FusionRegressedRate

  datatype Comparator = Above | AtLeast | AtMost

  datatype GateCheck = GateCheck(
    name: GateName, comparator: Comparator, threshold: real, observed: real, passed: bool)

  datatype StageDeltas = StageDeltas(recall: real, mrr: real, ndcg: real)

  datatype NextAction = RequestOwnerReview | RunAblation | ReplaceChannel

  datatype BaselineSummary = BaselineSummary(
    profile: Profile, runId: Id, diagnosisId: Id,
    artifactRunId: Id, artifactDiagnosisId: Id, artifactComparisonId: Option<Id>)

  datatype Experiment = Experiment(
    profile: Profile, baselineRunId: Id, candidateRunId: Id, diagnosisId: Id, comparisonId: Id,
    variant: Variant,
    unionCoverage: real, fusion: StageDeltas, coarse: StageDeltas,
    uniqueContribution: nat, worstCoarseNdcg: real, coarseRegressedRate: real,
    worstFusionNdcg: real, fusionRegressedRate: real,
    gatePassed: bool, checks: seq<GateCheck>, failedGates: seq<GateName>,
    reviewRecommended: bool, nextAction: NextAction,
    artifactRunId: Id, artifactDiagnosisId: Id, artifactComparisonId: Option<Id>)

  datatype Metric = NdcgAt5 | NdcgAt10 | MrrAt10 | SuccessAt1 | SuccessAt5

  datatype Counts = Counts(improved: Option<int>, regressed: Option<int>)

  // A metric entry with a numeric delta; any other entry counts as absent.
  datatype MetricEntry = MetricEntry(delta: real, exactKeys: bool)

  datatype QueryDelta = QueryDelta(queryId: Option<int>, delta: Option<real>)

  // Fields of a `compare_runs` payload; None is a field that is absent or of the wrong type.
  datatype Comparison = Comparison(
    baselineRunId: Option<Id>, candidateRunId: Option<Id>, epsilon: Option<real>,
    metrics: Option<map<Metric, MetricEntry>>, outcomes: Option<map<Metric, Counts>>,
    regressions: Option<seq<QueryDelta>>)

  datatype Payload =
    | EmptyPayload
    | BaselinePayload(baseline: BaselineSummary)
    | ExperimentPayload(experiment: Experiment)
    | ComparisonPayload(comparison: Comparison)
    | RunPayload(runId: Id, queryId: Option<int>)
    | OpaquePayload(json: string)

  // The hashed part of an observation.
  datatype ObservationBody = ObservationBody(
    tool: ToolName, succeeded: bool, ref: Option<EvidenceRef>, payload: Payload,
    error: Option<ErrorCode>, retryable: bool)

  datatype Observation = Observation(
    tool: ToolName, succeeded: bool, ref: Option<EvidenceRef>, payload: Payload,
    error: Option<ErrorCode>, retryable: bool, sha256: Digest)
  {
    function Body(): ObservationBody {
      ObservationBody(tool, succeeded, ref, payload, error, retryable)
    }
  }

  /** The references of the successful observations, in order. */
  function SuccessfulEvidence(observations: seq<Observation>): seq<EvidenceRef> {
    if observations == [] then []
    else
      var last := observations[|observations| - 1];
      SuccessfulEvidence(observations[..|observations| - 1]) +
      if last.succeeded && last.ref.Some? then [last.ref.value] else []
  }

  lemma SuccessfulEvidenceAppend(observations: seq<Observation>, last: Observation)
    ensures SuccessfulEvidence(observations + [last]) ==
            SuccessfulEvidence(observations) +
            if last.succeeded && last.ref.Some? then [last.ref.value] else []
  {
  }

  /** A reference is successful evidence exactly when some successful observation carries it. */
  lemma {:induction false} SuccessfulEvidenceMembers(observations: seq<Observation>, ref: EvidenceRef)
    ensures ref in SuccessfulEvidence(observations) <==>
            exists i :: 0 <= i < |observations| && observations[i].succeeded && observations[i].ref == Some(ref)
  {
    if observations != [] {
      var front, last := observations[..|observations| - 1], observations[|observations| - 1];
      SuccessfulEvidenceMembers(front, ref);
      if i :| 0 <= i < |front| && front[i].succeeded && front[i].ref == Some(ref) {
        assert observations[i].succeeded && observations[i].ref == Some(ref);
      }
    }
  }
}
