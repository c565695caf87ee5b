/** The fixed planner: the one decision the observed history justifies (retrieval_planner.py). */
module RetrievalPlanner {
  import opened Contracts
  import opened RetrievalEvidence

  // The local variables of the history loop.
  datatype Cursor = Cursor(
    expectedTool: ToolName, expectedVariant: Option<Variant>, baselineRunId: Option<Id>,
    experiments: seq<Experiment>, retryConsumed: bool)

  // What the loop has established about the observations read so far.
  datatype Progress =
    | Running(cursor: Cursor)
    | Stopped(decision: Decision, experiments: seq<Experiment>)
    | Invalid

  const START := Cursor(DiagnoseBaseline, None, None, [], false)

  predicate WellFormedSuccess(o: Observation) {
    o.ref.Some? && o.error.None? && !o.retryable
  }

  predicate WellFormedFailure(o: Observation) {
    o.ref.None? && o.payload == EmptyPayload && o.error.Some?
  }

  predicate FreshEvidence(e: Experiment, experiments: seq<Experiment>) {
    forall x :: x in experiments ==>
      x.candidateRunId != e.candidateRunId && x.diagnosisId != e.diagnosisId && x.comparisonId != e.comparisonId
  }

  predicate FreshVariant(e: Experiment, experiments: seq<Experiment>) {
    forall x :: x in experiments ==> x.variant != e.variant
  }

  function TestReason(v: Variant): Reason {
    match v
    case Uniform => TestUniform
    case Conservative => TestConservative
    case Aggressive => ProbeAggressive
  }

  function Ready(seen: seq<Observation>, reason: Reason): Decision {
    Finish(ProposalReady, SuccessfulEvidence(seen), reason)
  }

  // One loop iteration on the last of `seen`; a stop is an error if anything follows it.
  function Advance(c: Cursor, seen: seq<Observation>): Progress
    requires seen != []
  {
    var o := seen[|seen| - 1];
    if o.tool != c.expectedTool then Invalid
    else if !o.succeeded then
      if !WellFormedFailure(o) then Invalid
      else if o.retryable && !c.retryConsumed then Running(c.(retryConsumed := true))
      else
        Stopped(
          Finish(Inconclusive, SuccessfulEvidence(seen[..|seen| - 1]),
                 if o.retryable && c.retryConsumed then RetrievalToolRetryExhausted else RetrievalToolFailed),
          c.experiments)
    else if !WellFormedSuccess(o) then Invalid
    else if c.expectedTool == DiagnoseBaseline then
      match ParseBaseline(o.ref, o.payload)
      case None => Invalid
      case Some(b) =>
        Running(c.(expectedTool := RunCandidate, expectedVariant := Some(Uniform), baselineRunId := Some(b.runId)))
    else
      match ParseExperiment(o.ref, o.payload)
      case None => Invalid
      case Some(e) =>
        if c.baselineRunId != Some(e.baselineRunId) || c.expectedVariant != Some(e.variant) then Invalid
        else if !FreshVariant(e, c.experiments) || !FreshEvidence(e, c.experiments) then Invalid
        else AfterExperiment(c.(experiments := c.experiments + [e]), seen, e)
  }

  function AfterExperiment(c: Cursor, seen: seq<Observation>, e: Experiment): Progress {
    match e.variant
    case Uniform =>
      if e.gatePassed then Stopped(Ready(seen, UniformCandidatePassed), c.experiments)
      else Running(c.(expectedVariant := Some(Conservative)))
    case Conservative => Running(c.(expectedVariant := Some(Aggressive)))
    case Aggressive =>
      var passing := Passing(c.experiments);
      if passing == [] then
        Stopped(Finish(NoSafeImprovement, SuccessfulEvidence(seen), NoSafeCandidate), c.experiments)
      else
        match Best(passing).variant
        case Conservative => Stopped(Ready(seen, ConservativeCandidateSelected), c.experiments)
        case Aggressive => Stopped(Ready(seen, AggressiveCandidateSelected), c.experiments)
        case Uniform => Invalid
  }

  /** The state of the loop after reading all of `observations`. */
  function ProgressOf(observations: seq<Observation>): Progress {
    if observations == [] then Running(START)
    else
      match ProgressOf(observations[..|observations| - 1])
      case Running(c) => Advance(c, observations)
      case _ => Invalid
  }

  function NextRequest(c: Cursor): Option<Decision> {
    if c.expectedTool == DiagnoseBaseline then
      Some(ToolAction(DiagnoseBaseline, map[ProfileKey := ProfileName(Smoke)], DiagnoseRetrievalBaseline))
    else if c.baselineRunId.None? || c.expectedVariant.None? then None
    else
      Some(ToolAction(
        RunCandidate,
        map[BaselineRunKey := Text(c.baselineRunId.value), VariantKey := PipelineName(c.expectedVariant.value)],
        TestReason(c.expectedVariant.value)))
  }

  /** The only decision the history allows, or None when the history is not one the planner drives. */
  function ExpectedDecision(observations: seq<Observation>): Option<Decision> {
    match ProgressOf(observations)
    case Running(c) => NextRequest(c)
    case Stopped(decision, _) => Some(decision)
    case Invalid => None
  }

  lemma {:induction false} InvalidStaysInvalid(observations: seq<Observation>, k: nat)
    requires k < |observations| && !ProgressOf(observations[..k]).Running?
    ensures ProgressOf(observations) == Invalid
    decreases |observations|
  {
    var n := |observations| - 1;
    assert observations[..n][..k] == observations[..k];
    if k < n {
      InvalidStaysInvalid(observations[..n], k);
    }
  }

  /** The history loop as written: early exit at a stop, errors raised on the way. */
  method AnalyzeHistory(observations: seq<Observation>) returns (r: Option<Decision>)
    ensures r == ExpectedDecision(observations)
  {
    var cursor := START;
    for i := 0 to |observations|
      invariant ProgressOf(observations[..i]) == Running(cursor)
    {
      assert observations[..i + 1][..i] == observations[..i];
      var step := Advance(cursor, observations[..i + 1]);
      assert ProgressOf(observations[..i + 1]) == step;
      if step.Running? {
        cursor := step.cursor;
      } else {
        if i + 1 < |observations| {
          InvalidStaysInvalid(observations, i + 1);
          return None;
        }
        assert observations[..i + 1] == observations;
        return if step.Stopped? then Some(step.decision) else None;
      }
    }
    assert observations[..|observations|] == observations;
    return NextRequest(cursor);
  }
}
