/** The report of a finished run, as a function of the decision and the observations (reporting.py). */
module Reporting {
  import opened Contracts

  datatype FailedTool = FailedTool(error: Option<ErrorCode>, tool: ToolName)

  datatype InspectedQuery = InspectedQuery(ref: Option<EvidenceRef>, queryId: Option<int>, runId: Option<Id>)

  datatype ExperimentLine = ExperimentLine(
    candidateRunId: Option<Id>, comparisonId: Option<Id>, failedGates: seq<GateName>,
    gatePassed: Option<bool>, variant: Option<Variant>)

  datatype Diagnosis = Diagnosis(runId: Option<Id>, diagnosisId: Option<Id>)

  datatype Report =
    | RetrievalReport(
        task: Task, outcome: Outcome, reason: Reason, refs: seq<EvidenceRef>, failedTools: seq<FailedTool>,
        selectedVariant: Option<Variant>, selectedComparison: Option<Id>,
        diagnosis: Option<Diagnosis>, experiments: seq<ExperimentLine>)
    | CompareReport(
        task: Task, outcome: Outcome, reason: Reason, refs: seq<EvidenceRef>, failedTools: seq<FailedTool>,
        comparison: Option<Payload>, inspected: seq<InspectedQuery>)

  function FailedTools(observations: seq<Observation>): seq<FailedTool> {
    if observations == [] then []
    else
      var o := observations[0];
      (if o.succeeded then [] else [FailedTool(o.error, o.tool)]) + FailedTools(observations[1..])
  }

  function Inspected(observations: seq<Observation>): seq<InspectedQuery> {
    if observations == [] then []
    else
      var o := observations[0];
      (if o.tool == InspectQuery && o.succeeded then
         [InspectedQuery(o.ref,
                         if o.payload.RunPayload? then o.payload.queryId else None,
                         if o.payload.RunPayload? then Some(o.payload.runId)
                         else if o.payload.BaselinePayload? then Some(o.payload.baseline.runId) else None)]
       else []) + Inspected(observations[1..])
  }

  // The last successful comparison.
  function LatestComparison(observations: seq<Observation>): Option<Payload> {
    if observations == [] then None
    else
      var o := observations[|observations| - 1];
      if o.tool == CompareRuns && o.succeeded then Some(o.payload)
      else LatestComparison(observations[..|observations| - 1])
  }

  // The first successful diagnosis.
  function FirstDiagnosis(observations: seq<Observation>): Option<Diagnosis> {
    if observations == [] then None
    else
      var o := observations[0];
      if o.tool == DiagnoseBaseline && o.succeeded then
        Some(if o.payload.BaselinePayload? then Diagnosis(Some(o.payload.baseline.runId), Some(o.payload.baseline.diagnosisId))
             else if o.payload.ExperimentPayload? then Diagnosis(None, Some(o.payload.experiment.diagnosisId))
             else if o.payload.RunPayload? then Diagnosis(Some(o.payload.runId), None)
             else Diagnosis(None, None))
      else FirstDiagnosis(observations[1..])
  }

  function LineOf(p: Payload): ExperimentLine {
    match p
    case ExperimentPayload(e) =>
      ExperimentLine(Some(e.candidateRunId), Some(e.comparisonId), e.failedGates, Some(e.gatePassed), Some(e.variant))
    case ComparisonPayload(c) => ExperimentLine(c.candidateRunId, None, [], None, None)
    case _ => ExperimentLine(None, None, [], None, None)
  }

  function ExperimentLines(observations: seq<Observation>): seq<ExperimentLine> {
    if observations == [] then []
    else
      var o := observations[0];
      (if o.tool == RunCandidate && o.succeeded then [LineOf(o.payload)] else []) + ExperimentLines(observations[1..])
  }

  /** The variant a reason code stands for, under either policy. */
  function VariantOfReason(reason: Reason): Option<Variant> {
    match reason
    case UniformCandidatePassed | LlmUniformSelected => Some(Uniform)
    case ConservativeCandidateSelected | LlmConservativeSelected => Some(Conservative)
    case AggressiveCandidateSelected | LlmAggressiveSelected => Some(Aggressive)
    case _ => None
  }

  function FirstLine(lines: seq<ExperimentLine>, variant: Option<Variant>): Option<ExperimentLine> {
    if lines == [] then None
    else if lines[0].variant == variant then Some(lines[0])
    else FirstLine(lines[1..], variant)
  }

  function TerminalReport(
    task: Task, outcome: Outcome, reason: Reason, observations: seq<Observation>, refs: seq<EvidenceRef>): Report
  {
    if task.RetrievalTask? then
      var lines := ExperimentLines(observations);
      var selected := FirstLine(lines, VariantOfReason(reason));
      RetrievalReport(
        task, outcome, reason, refs, FailedTools(observations), VariantOfReason(reason),
        if selected.Some? then selected.value.comparisonId else None, FirstDiagnosis(observations), lines)
    else
      CompareReport(
        task, outcome, reason, refs, FailedTools(observations), LatestComparison(observations), Inspected(observations))
  }
}
