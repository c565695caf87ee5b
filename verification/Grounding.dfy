/** What an action may touch and what a finish may cite, as both the loop and the checker judge it
    (grounding.py). */
module Grounding {
  import opened Contracts
  import opened RetrievalPolicy
  import RetrievalPlanner

  // `Crashed` is an error that is not a policy error.
  datatype ScopeVerdict = InScope | OutOfScope(code: ErrorCode) | Crashed

  datatype GroundingError =
    | DuplicateReference | InvalidReference | UnknownReference | RetrievalFinishNotGrounded
    | ComparisonEvidenceOutsideScope | RunEvidenceOutsideScope
    | EpsilonInvalid | SummaryInvalid | SummaryInconsistent | PrimaryMetricInvalid
    | RequiresComparisonEvidence | AcceptRequiresPositiveDelta | AcceptRequiresUnmixedEvidence
    | RejectRequiresNegativeDelta

  const EPSILON: real := 0.000000000001

  const METRICS: seq<Metric> := [NdcgAt5, NdcgAt10, MrrAt10, SuccessAt1, SuccessAt5]

  function Lookup<K, V>(m: map<K, V>, k: K): Option<V> {
    if k in m then Some(m[k]) else None
  }

  /** Keeps an action inside the task; membership of a run id in a set needs a hashable value. */
  function ActionScope(task: Task, action: Decision, observations: seq<Observation>): ScopeVerdict
    requires action.ToolAction?
  {
    match task
    case RetrievalTask(_, AdaptiveLlm) =>
      if OptionForDecision(task, observations, action).Some? then InScope
      else OutOfScope(RetrievalActionOutsideTaskScope)
    case RetrievalTask(_, FixedSequence) =>
      (match RetrievalPlanner.ExpectedDecision(observations)
       case None => OutOfScope(RetrievalHistoryInvalid)
       case Some(expected) =>
         if action == expected then InScope else OutOfScope(RetrievalActionOutsideTaskScope))
    case CompareTask(_, baseline, candidate, _) =>
      match action.tool
      case CompareRuns =>
        if && Lookup(action.arguments, BaselineRunKey) == Some(Text(baseline))
           && Lookup(action.arguments, CandidateRunKey) == Some(Text(candidate))
        then InScope else OutOfScope(ComparisonOutsideTaskScope)
      case EvaluateRun | InspectQuery =>
        (var value: Option<ArgValue> := Lookup(action.arguments, RunKey);
         match value
         case Some(Unhashable(_)) => Crashed
         case Some(Text(run)) =>
           if run == baseline || run == candidate then InScope else OutOfScope(RunOutsideTaskScope)
         case _ => OutOfScope(RunOutsideTaskScope))
      case _ => InScope
  }

  // ----- Fields of a payload object -----

  function ComparisonFields(p: Payload): Comparison {
    match p
    case ComparisonPayload(c) => c
    case ExperimentPayload(e) => Comparison(Some(e.baselineRunId), Some(e.candidateRunId), None, None, None, None)
    case _ => Comparison(None, None, None, None, None, None)
  }

  function RunIdField(p: Payload): Option<Id> {
    match p
    case RunPayload(run, _) => Some(run)
    case BaselinePayload(b) => Some(b.runId)
    case _ => None
  }

  function DeltaOf(c: Comparison, m: Metric): Option<real> {
    if c.metrics.Some? && m in c.metrics.value then Some(c.metrics.value[m].delta) else None
  }

  // ----- Comparison evidence -----

  predicate CountsPresent(c: Counts) {
    c.improved.Some? && c.improved.value >= 0 && c.regressed.Some? && c.regressed.value >= 0
  }

  function MetricConsistency(metrics: map<Metric, MetricEntry>, outcomes: map<Metric, Counts>, m: Metric)
    : Option<GroundingError>
  {
    if m !in metrics || m !in outcomes || !CountsPresent(outcomes[m]) then Some(SummaryInvalid)
    else
      var delta, improved, regressed := metrics[m].delta, outcomes[m].improved.value, outcomes[m].regressed.value;
      if delta > EPSILON && improved == 0 then Some(SummaryInconsistent)
      else if delta < -EPSILON && regressed == 0 then Some(SummaryInconsistent)
      else if improved == 0 && regressed == 0 && (delta > EPSILON || delta < -EPSILON) then Some(SummaryInconsistent)
      else None
  }

  // The error of the first metric, in order, that has one.
  function FirstInconsistency(metrics: map<Metric, MetricEntry>, outcomes: map<Metric, Counts>, names: seq<Metric>)
    : Option<GroundingError>
  {
    if names == [] then None
    else
      var first := MetricConsistency(metrics, outcomes, names[0]);
      if first.Some? then first else FirstInconsistency(metrics, outcomes, names[1..])
  }

  function ComparisonConsistency(c: Comparison): Option<GroundingError> {
    if c.epsilon != Some(EPSILON) then Some(EpsilonInvalid)
    else if c.metrics.None? || c.outcomes.None? then Some(SummaryInvalid)
    else FirstInconsistency(c.metrics.value, c.outcomes.value, METRICS)
  }

  function ObservationScope(task: Task, o: Observation): Option<GroundingError>
    requires task.CompareTask?
  {
    match o.tool
    case CompareRuns =>
      var c := ComparisonFields(o.payload);
      if c.baselineRunId != Some(task.baselineRunId) || c.candidateRunId != Some(task.candidateRunId)
      then Some(ComparisonEvidenceOutsideScope)
      else ComparisonConsistency(c)
    case RunRanker | EvaluateRun | InspectQuery =>
      var run := RunIdField(o.payload);
      if run == Some(task.baselineRunId) || run == Some(task.candidateRunId) then None
      else Some(RunEvidenceOutsideScope)
    case _ => None
  }

  // No regression listed and no metric below minus epsilon, on top of a positive primary delta.
  predicate SupportsAccept(c: Comparison) {
    && c.epsilon == Some(EPSILON)
    && DeltaOf(c, NdcgAt10).Some? && DeltaOf(c, NdcgAt10).value > EPSILON
    && c.regressions == Some([])
    && forall m :: m in METRICS ==> DeltaOf(c, m).Some? && DeltaOf(c, m).value >= -EPSILON
  }

  function FirstScopeError(task: Task, cited: seq<Observation>): Option<GroundingError>
    requires task.CompareTask?
  {
    if cited == [] then None
    else
      var first := ObservationScope(task, cited[0]);
      if first.Some? then first else FirstScopeError(task, cited[1..])
  }

  function CitedComparisons(cited: seq<Observation>): seq<Comparison> {
    if cited == [] then []
    else
      (if cited[0].tool == CompareRuns then [ComparisonFields(cited[0].payload)] else []) +
      CitedComparisons(cited[1..])
  }

  function DirectionError(outcome: Outcome, comparisons: seq<Comparison>): Option<GroundingError> {
    if outcome != Accept && outcome != Reject then None
    else if comparisons == [] then Some(RequiresComparisonEvidence)
    else if exists c :: c in comparisons && DeltaOf(c, NdcgAt10).None? then Some(PrimaryMetricInvalid)
    else if exists c :: c in comparisons && c.epsilon != Some(EPSILON) then Some(EpsilonInvalid)
    else if outcome == Accept then
      if exists c :: c in comparisons && DeltaOf(c, NdcgAt10).value <= EPSILON then Some(AcceptRequiresPositiveDelta)
      else if exists c :: c in comparisons && !SupportsAccept(c) then Some(AcceptRequiresUnmixedEvidence)
      else None
    else if exists c :: c in comparisons && DeltaOf(c, NdcgAt10).value >= -EPSILON then Some(RejectRequiresNegativeDelta)
    else None
  }

  // ----- Citations -----

  /** The last successful observation that carries the reference. */
  function Cited(observations: seq<Observation>, ref: EvidenceRef): Option<Observation> {
    if observations == [] then None
    else
      var last := observations[|observations| - 1];
      if last.succeeded && last.ref == Some(ref) then Some(last)
      else Cited(observations[..|observations| - 1], ref)
  }

  predicate Distinct<T(==)>(s: seq<T>) {
    forall i, j :: 0 <= i < j < |s| ==> s[i] != s[j]
  }

  function CitationError(observations: seq<Observation>, refs: seq<EvidenceRef>): Option<GroundingError> {
    if refs == [] then None
    else if refs[0].MalformedRef? then Some(InvalidReference)
    else if Cited(observations, refs[0]).None? then Some(UnknownReference)
    else CitationError(observations, refs[1..])
  }

  function CitedAll(observations: seq<Observation>, refs: seq<EvidenceRef>): seq<Observation> {
    if refs == [] then []
    else
      (match Cited(observations, refs[0]) case Some(o) => [o] case None => []) +
      CitedAll(observations, refs[1..])
  }

  predicate RetrievalFinishAllowed(task: Task, decision: Decision, observations: seq<Observation>)
    requires task.RetrievalTask?
  {
    match task.policy
    case AdaptiveLlm => OptionForDecision(task, observations, decision).Some?
    case FixedSequence => RetrievalPlanner.ExpectedDecision(observations) == Some(decision)
  }

  /** None when the finish is grounded, otherwise the first error found. */
  function FinishError(task: Task, decision: Decision, observations: seq<Observation>): Option<GroundingError>
    requires decision.Finish?
  {
    if !Distinct(decision.refs) then Some(DuplicateReference)
    else if CitationError(observations, decision.refs).Some? then CitationError(observations, decision.refs)
    else if task.RetrievalTask? then
      if RetrievalFinishAllowed(task, decision, observations) then None else Some(RetrievalFinishNotGrounded)
    else
      var cited := CitedAll(observations, decision.refs);
      if FirstScopeError(task, cited).Some? then FirstScopeError(task, cited)
      else DirectionError(decision.outcome, CitedComparisons(cited))
  }

  lemma {:induction false} CitedIsSuccessful(observations: seq<Observation>, ref: EvidenceRef)
    ensures Cited(observations, ref).Some? <==> ref in SuccessfulEvidence(observations)
    ensures var c := Cited(observations, ref);
            c.Some? ==> c.value in observations && c.value.succeeded && c.value.ref == Some(ref)
  {
    if observations != [] {
      CitedIsSuccessful(observations[..|observations| - 1], ref);
    }
  }

  lemma {:induction false} NoCitationError(observations: seq<Observation>, refs: seq<EvidenceRef>)
    ensures CitationError(observations, refs).None? <==>
            forall r :: r in refs ==> !r.MalformedRef? && r in SuccessfulEvidence(observations)
  {
    if refs != [] {
      CitedIsSuccessful(observations, refs[0]);
      NoCitationError(observations, refs[1..]);
      assert forall r :: r in refs <==> r == refs[0] || r in refs[1..];
    }
  }

  // What a cited comparison must show for the outcome it supports.
  ghost predicate SupportsOutcome(task: Task, outcome: Outcome, c: Comparison)
    requires task.CompareTask?
  {
    && c.baselineRunId == Some(task.baselineRunId) && c.candidateRunId == Some(task.candidateRunId)
    && ComparisonConsistency(c).None?
    && (outcome == Accept ==> SupportsAccept(c))
    && (outcome == Reject ==> DeltaOf(c, NdcgAt10).Some? && DeltaOf(c, NdcgAt10).value < -EPSILON)
  }

  lemma DirectionMeans(task: Task, outcome: Outcome, cited: seq<Observation>)
    requires task.CompareTask?
    requires FirstScopeError(task, cited).None? && DirectionError(outcome, CitedComparisons(cited)).None?
    ensures outcome in {Accept, Reject} ==> exists o :: o in cited && o.tool == CompareRuns
    ensures forall o :: o in cited && o.tool == CompareRuns ==>
              SupportsOutcome(task, outcome, ComparisonFields(o.payload))
  {
    NoScopeError(task, cited);
    ComparisonsAreCited(cited);
    forall o | o in cited && o.tool == CompareRuns
      ensures SupportsOutcome(task, outcome, ComparisonFields(o.payload))
    {
      var c := ComparisonFields(o.payload);
      assert ObservationScope(task, o).None?;
      assert c in CitedComparisons(cited);
    }
    if outcome in {Accept, Reject} {
      var c := CitedComparisons(cited)[0];
      assert c in CitedComparisons(cited);
    }
  }

  /** A grounded finish cites only distinct references of successful observations; on a retrieval
      task it is the decision the policy offers; on a comparison task an accept rests on cited,
      positive, unmixed comparisons of the task's own pair of runs and a reject on negative ones. */
  lemma GroundedFinishMeans(task: Task, decision: Decision, observations: seq<Observation>)
    requires decision.Finish? && FinishError(task, decision, observations).None?
    ensures Distinct(decision.refs)
    ensures forall r :: r in decision.refs ==> r in SuccessfulEvidence(observations)
    ensures task.RetrievalTask? ==> RetrievalFinishAllowed(task, decision, observations)
    ensures task.CompareTask? && decision.outcome in {Accept, Reject} ==>
              exists o :: o in CitedAll(observations, decision.refs) && o.tool == CompareRuns
    ensures task.CompareTask? ==>
              forall o :: o in CitedAll(observations, decision.refs) && o.tool == CompareRuns ==>
                SupportsOutcome(task, decision.outcome, ComparisonFields(o.payload))
    ensures forall o :: o in CitedAll(observations, decision.refs) ==>
              o in observations && o.succeeded && o.ref.Some? && o.ref.value in decision.refs
  {
    NoCitationError(observations, decision.refs);
    CitedAllMembers(observations, decision.refs);
    if task.CompareTask? {
      DirectionMeans(task, decision.outcome, CitedAll(observations, decision.refs));
    }
  }

  lemma {:induction false} CitedAllMembers(observations: seq<Observation>, refs: seq<EvidenceRef>)
    ensures forall o :: o in CitedAll(observations, refs) ==>
              o in observations && o.succeeded && o.ref.Some? && o.ref.value in refs
  {
    if refs != [] {
      CitedIsSuccessful(observations, refs[0]);
      CitedAllMembers(observations, refs[1..]);
    }
  }

  lemma {:induction false} NoScopeError(task: Task, cited: seq<Observation>)
    requires task.CompareTask?
    ensures FirstScopeError(task, cited).None? <==> forall o :: o in cited ==> ObservationScope(task, o).None?
  {
    if cited != [] {
      NoScopeError(task, cited[1..]);
      assert forall o :: o in cited <==> o == cited[0] || o in cited[1..];
    }
  }

  lemma {:induction false} ComparisonsAreCited(cited: seq<Observation>)
    ensures forall c :: c in CitedComparisons(cited) <==>
              exists o :: o in cited && o.tool == CompareRuns && c == ComparisonFields(o.payload)
  {
    if cited != [] {
      ComparisonsAreCited(cited[1..]);
      assert forall o :: o in cited <==> o == cited[0] || o in cited[1..];
    }
  }

  // ----- The loops as written -----

  method IndexSuccessful(observations: seq<Observation>) returns (byRef: map<EvidenceRef, Observation>)
    ensures forall ref :: Lookup(byRef, ref) == Cited(observations, ref)
  {
    byRef := map[];
    for i := 0 to |observations|
      invariant forall ref :: Lookup(byRef, ref) == Cited(observations[..i], ref)
    {
      assert observations[..i + 1][..i] == observations[..i];
      if observations[i].succeeded && observations[i].ref.Some? {
        byRef := byRef[observations[i].ref.value := observations[i]];
      }
    }
    assert observations[..|observations|] == observations;
  }

  method CollectCited(observations: seq<Observation>, refs: seq<EvidenceRef>)
    returns (error: Option<GroundingError>, cited: seq<Observation>)
    ensures error == CitationError(observations, refs)
    ensures error.None? ==> cited == CitedAll(observations, refs)
  {
    var byRef := IndexSuccessful(observations);
    cited := [];
    for i := 0 to |refs|
      invariant CitationError(observations, refs) == CitationError(observations, refs[i..])
      invariant CitedAll(observations, refs) == cited + CitedAll(observations, refs[i..])
    {
      assert refs[i..][1..] == refs[i + 1..];
      assert Lookup(byRef, refs[i]) == Cited(observations, refs[i]);
      if refs[i].MalformedRef? {
        return Some(InvalidReference), cited;
      }
      if refs[i] !in byRef {
        return Some(UnknownReference), cited;
      }
      cited := cited + [byRef[refs[i]]];
    }
    error := None;
  }

  method CheckCited(task: Task, outcome: Outcome, cited: seq<Observation>) returns (error: Option<GroundingError>)
    requires task.CompareTask?
    ensures error == if FirstScopeError(task, cited).Some? then FirstScopeError(task, cited)
                     else DirectionError(outcome, CitedComparisons(cited))
  {
    var comparisons := [];
    for i := 0 to |cited|
      invariant FirstScopeError(task, cited) == FirstScopeError(task, cited[i..])
      invariant CitedComparisons(cited) == comparisons + CitedComparisons(cited[i..])
    {
      assert cited[i..][1..] == cited[i + 1..];
      error := ObservationScope(task, cited[i]);
      if error.Some? {
        return;
      }
      if cited[i].tool == CompareRuns {
        comparisons := comparisons + [ComparisonFields(cited[i].payload)];
      }
    }
    error := DirectionError(outcome, comparisons);
  }

  method ValidateFinishGrounding(task: Task, decision: Decision, observations: seq<Observation>)
    returns (error: Option<GroundingError>)
    requires decision.Finish?
    ensures error == FinishError(task, decision, observations)
  {
    if !Distinct(decision.refs) {
      return Some(DuplicateReference);
    }
    var cited;
    error, cited := CollectCited(observations, decision.refs);
    if error.Some? {
      return;
    }
    if task.RetrievalTask? {
      return if RetrievalFinishAllowed(task, decision, observations) then None else Some(RetrievalFinishNotGrounded);
    }
    error := CheckCited(task, decision.outcome, cited);
  }
}
