/** The deterministic comparison planner (planner.py) and why its finishes are always grounded. */
module BranchingPlanner {
  import opened Contracts
  import opened Grounding

  /** The last observation of a tool, succeeded or not. */
  function Latest(observations: seq<Observation>, tool: ToolName): Option<Observation> {
    if observations == [] then None
    else
      var last := observations[|observations| - 1];
      if last.tool == tool then Some(last) else Latest(observations[..|observations| - 1], tool)
  }

  function Attempts(observations: seq<Observation>): seq<Observation> {
    if observations == [] then []
    else
      var last := observations[|observations| - 1];
      Attempts(observations[..|observations| - 1]) + if last.tool == InspectQuery then [last] else []
  }

  predicate ValidRegressions(regressions: seq<QueryDelta>) {
    && (forall i :: 0 <= i < |regressions| ==>
          && regressions[i].queryId.Some? && regressions[i].queryId.value >= 1
          && regressions[i].delta.Some? && regressions[i].delta.value < 0.0)
    && (forall i, j :: 0 <= i < j < |regressions| ==> regressions[i].queryId != regressions[j].queryId)
  }

  function Min(a: int, b: int): int {
    if a < b then a else b
  }

  predicate CountsMatch(c: Comparison) {
    && c.outcomes.Some? && c.regressions.Some?
    && NdcgAt10 in c.outcomes.value
    && var regressed := c.outcomes.value[NdcgAt10].regressed;
    && regressed.Some? && regressed.value >= 0 && |c.regressions.value| == Min(regressed.value, 5)
  }

  // Each metric entry has the keys baseline, candidate and delta, and no other.
  predicate ExactKeys(c: Comparison) {
    c.metrics.Some? && forall m :: m in METRICS ==> m in c.metrics.value && c.metrics.value[m].exactKeys
  }

  /** The comparison evidence the planner accepts. */
  predicate Validated(c: Comparison, baseline: Id, candidate: Id) {
    && c.baselineRunId == Some(baseline) && c.candidateRunId == Some(candidate)
    && CountsMatch(c) && ComparisonConsistency(c).None? && ExactKeys(c)
    && ValidRegressions(c.regressions.value)
  }

  predicate BelowEpsilon(c: Comparison) {
    exists m :: m in METRICS && DeltaOf(c, m).Some? && DeltaOf(c, m).value < -EPSILON
  }

  function Undecided(observations: seq<Observation>, reason: Reason): Decision {
    Finish(Inconclusive, SuccessfulEvidence(observations), reason)
  }

  function Decide(task: Task, observations: seq<Observation>): Decision
    requires task.CompareTask?
  {
    var latest := Latest(observations, CompareRuns);
    if latest.None? then
      ToolAction(CompareRuns,
                 map[BaselineRunKey := Text(task.baselineRunId), CandidateRunKey := Text(task.candidateRunId)],
                 CompareRequestedRuns)
    else if !latest.value.succeeded then Undecided(observations, ComparisonFailed)
    else
      var c := ComparisonFields(latest.value.payload);
      if !Validated(c, task.baselineRunId, task.candidateRunId) then Undecided(observations, ComparisonEvidenceInvalid)
      else DecideOn(task, observations, c)
  }

  function DecideOn(task: Task, observations: seq<Observation>, c: Comparison): Decision
    requires task.CompareTask? && Validated(c, task.baselineRunId, task.candidateRunId)
  {
    PrimaryPresent(c);
    var regressions, attempts := c.regressions.value, Attempts(observations);
    var primary := DeltaOf(c, NdcgAt10).value;
    if |attempts| < Min(task.maxRegressions, |regressions|) then
      ToolAction(InspectQuery,
                 map[RunKey := Text(task.candidateRunId), QueryKey := Whole(regressions[|attempts|].queryId.value)],
                 InspectLargestRegression)
    else if primary < -EPSILON then
      Finish(Reject, SuccessfulEvidence(observations), PrimaryMetricRegressed)
    else if regressions != [] || BelowEpsilon(c) then
      Undecided(observations,
                if exists o :: o in attempts && !o.succeeded then RegressionDiagnosisIncomplete else MixedEvidence)
    else if primary <= EPSILON then Undecided(observations, PrimaryMetricTied)
    else Finish(Accept, SuccessfulEvidence(observations), MetricsImproved)
  }

  lemma {:induction false} ConsistentMetrics(metrics: map<Metric, MetricEntry>, outcomes: map<Metric, Counts>, names: seq<Metric>)
    ensures FirstInconsistency(metrics, outcomes, names).None? <==>
              forall m :: m in names ==> MetricConsistency(metrics, outcomes, m).None?
  {
    if names != [] {
      ConsistentMetrics(metrics, outcomes, names[1..]);
      assert forall m :: m in names <==> m == names[0] || m in names[1..];
    }
  }

  lemma PrimaryPresent(c: Comparison)
    requires ComparisonConsistency(c).None?
    ensures forall m :: m in METRICS ==> DeltaOf(c, m).Some?
    ensures DeltaOf(c, NdcgAt10).Some?
  {
    ConsistentMetrics(c.metrics.value, c.outcomes.value, METRICS);
    assert NdcgAt10 in METRICS by { assert METRICS[1] == NdcgAt10; }
    forall m | m in METRICS ensures DeltaOf(c, m).Some? {
      assert MetricConsistency(c.metrics.value, c.outcomes.value, m).None?;
    }
  }

  // ----- The validation loops as written -----

  method CheckMetrics(c: Comparison) returns (ok: bool)
    requires c.metrics.Some? && c.outcomes.Some? && c.epsilon == Some(EPSILON)
    ensures ok <==> ComparisonConsistency(c).None? && ExactKeys(c)
  {
    for i := 0 to |METRICS|
      invariant FirstInconsistency(c.metrics.value, c.outcomes.value, METRICS) ==
                FirstInconsistency(c.metrics.value, c.outcomes.value, METRICS[i..])
      invariant forall j :: 0 <= j < i ==> METRICS[j] in c.metrics.value && c.metrics.value[METRICS[j]].exactKeys
    {
      assert METRICS[i..][1..] == METRICS[i + 1..];
      if METRICS[i] !in c.metrics.value || !c.metrics.value[METRICS[i]].exactKeys {
        assert METRICS[i] in METRICS;
        return false;
      }
      if MetricConsistency(c.metrics.value, c.outcomes.value, METRICS[i]).Some? {
        return false;
      }
    }
    return true;
  }

  method CheckRegressions(raw: seq<QueryDelta>) returns (ok: bool)
    ensures ok <==> ValidRegressions(raw)
  {
    var seen: set<int> := {};
    for i := 0 to |raw|
      invariant ValidRegressions(raw[..i])
      invariant forall q :: q in seen <==> exists j :: 0 <= j < i && raw[j].queryId == Some(q)
    {
      var item := raw[i];
      if item.queryId.None? || item.queryId.value < 1 || item.queryId.value in seen
         || item.delta.None? || item.delta.value >= 0.0 {
        return false;
      }
      seen := seen + {item.queryId.value};
    }
    assert raw[..|raw|] == raw;
    return true;
  }

  /** The evidence validator: every raised error is one refusal. */
  method ValidateComparison(c: Comparison, baseline: Id, candidate: Id) returns (ok: bool)
    ensures ok <==> Validated(c, baseline, candidate)
  {
    if c.baselineRunId != Some(baseline) || c.candidateRunId != Some(candidate) || c.metrics.None? {
      return false;
    }
    if c.epsilon != Some(EPSILON) || !CountsMatch(c) {
      return false;
    }
    var metricsOk := CheckMetrics(c);
    if !metricsOk {
      return false;
    }
    ok := CheckRegressions(c.regressions.value);
  }

  // ----- Histories the planner drives -----

  /** What a tool may answer: a failure; any payload under a comparison reference; or the requested
      query evaluation.  Nothing is said here about what a comparison contains. */
  predicate AnswersRequest(task: Task, action: Decision, o: Observation)
    requires task.CompareTask? && action.ToolAction?
  {
    && o.tool == action.tool
    && (o.succeeded ==>
          if o.tool == CompareRuns then o.ref.Some? && o.ref.value.ComparisonRef?
          else
            && o.payload.RunPayload? && o.payload.queryId.Some?
            && o.ref == Some(QueryRef(o.payload.runId, o.payload.queryId.value))
            && action.arguments == map[RunKey := Text(o.payload.runId), QueryKey := Whole(o.payload.queryId.value)])
  }

  predicate Driven(task: Task, observations: seq<Observation>)
    requires task.CompareTask?
  {
    observations == [] ||
    (var front, last := observations[..|observations| - 1], observations[|observations| - 1];
     var request := Decide(task, front);
     Driven(task, front) && request.ToolAction? && AnswersRequest(task, request, last))
  }

  /** The planner goes on from its first observation. */
  predicate Usable(task: Task, first: Observation)
    requires task.CompareTask?
  {
    first.succeeded && Validated(ComparisonFields(first.payload), task.baselineRunId, task.candidateRunId)
  }

  // A driven history: a comparison and, if it is usable, one inspection for each of the first regressions.
  ghost predicate Inspecting(task: Task, observations: seq<Observation>)
    requires task.CompareTask? && observations != []
  {
    var first, c := observations[0], ComparisonFields(observations[0].payload);
    && first.tool == CompareRuns
    && (first.succeeded ==> first.ref.Some? && first.ref.value.ComparisonRef?)
    && (!Usable(task, first) ==> |observations| == 1)
    && (Usable(task, first) ==>
          && |observations| - 1 <= Min(task.maxRegressions, |c.regressions.value|)
          && forall i :: 0 < i < |observations| ==> InspectedAt(task, c.regressions.value, observations, i))
  }

  predicate InspectedAt(task: Task, regressions: seq<QueryDelta>, observations: seq<Observation>, i: nat)
    requires task.CompareTask? && i < |observations|
  {
    var o := observations[i];
    && o.tool == InspectQuery && 0 < i <= |regressions|
    && (o.succeeded ==>
          && regressions[i - 1].queryId.Some?
          && o.payload == RunPayload(task.candidateRunId, regressions[i - 1].queryId)
          && o.ref == Some(QueryRef(task.candidateRunId, regressions[i - 1].queryId.value)))
  }

  lemma {:induction false} InspectingReads(task: Task, observations: seq<Observation>, k: nat)
    requires task.CompareTask? && observations != [] && Inspecting(task, observations) && 0 < k <= |observations|
    ensures Latest(observations[..k], CompareRuns) == Some(observations[0])
    ensures Attempts(observations[..k]) == observations[1..k]
  {
    hide Validated;
    var seen := observations[..k];
    if k > 1 {
      InspectingReads(task, observations, k - 1);
      assert seen[..k - 1] == observations[..k - 1];
      assert InspectedAt(task, ComparisonFields(observations[0].payload).regressions.value, observations, k - 1) by {
        ValidatedShape(ComparisonFields(observations[0].payload), task.baselineRunId, task.candidateRunId);
      }
      assert observations[1..k] == observations[1..k - 1] + [observations[k - 1]];
    } else {
      assert seen == [observations[0]] && seen[..0] == [] && observations[1..k] == [];
      assert Attempts(seen) == Attempts([]);
    }
  }

  lemma ValidatedShape(c: Comparison, baseline: Id, candidate: Id)
    requires Validated(c, baseline, candidate)
    ensures c.regressions.Some? && ValidRegressions(c.regressions.value) && |c.regressions.value| <= 5
  {
  }

  /** Every history the planner drives is a comparison followed by inspections of the first listed
      regressions, in order. */
  lemma {:induction false} DrivenInspects(task: Task, observations: seq<Observation>)
    requires task.CompareTask? && Driven(task, observations) && observations != []
    ensures Inspecting(task, observations)
  {
    hide Validated, Decide, Inspecting;
    var n := |observations| - 1;
    var front, last := observations[..n], observations[n];
    if front == [] {
      FirstRequest(task, last);
      assert observations == [last];
    } else {
      DrivenInspects(task, front);
      InspectingReads(task, front, n);
      assert front[..n] == front;
      NextInspects(task, front, last);
      assert front + [last] == observations;
    }
  }

  lemma FirstRequest(task: Task, o: Observation)
    requires task.CompareTask? && Decide(task, []).ToolAction? && AnswersRequest(task, Decide(task, []), o)
    ensures Inspecting(task, [o])
  {
  }

  lemma NextInspects(task: Task, front: seq<Observation>, o: Observation)
    requires task.CompareTask? && front != [] && Inspecting(task, front)
    requires Latest(front, CompareRuns) == Some(front[0]) && Attempts(front) == front[1..]
    requires Decide(task, front).ToolAction? && AnswersRequest(task, Decide(task, front), o)
    ensures Inspecting(task, front + [o])
  {
    hide Latest, Attempts, ComparisonConsistency, CountsMatch, BelowEpsilon, SuccessfulEvidence;
    var request := Decide(task, front);
    assert Usable(task, front[0]);
    var c := ComparisonFields(front[0].payload);
    ValidatedShape(c, task.baselineRunId, task.candidateRunId);
    var regressions := c.regressions.value;
    assert request.tool == InspectQuery;
    assert request.arguments == map[RunKey := Text(task.candidateRunId), QueryKey := Whole(regressions[|front| - 1].queryId.value)];
    if o.succeeded {
      assert request.arguments[RunKey] == Text(o.payload.runId) && request.arguments[QueryKey] == Whole(o.payload.queryId.value);
    }
    assert InspectedAt(task, regressions, front + [o], |front|);
    forall i | 0 < i < |front|
      ensures InspectedAt(task, regressions, front + [o], i)
    {
      assert InspectedAt(task, regressions, front, i);
    }
  }

  // ----- The finishes -----

  lemma {:induction false} EvidenceDistinct(task: Task, observations: seq<Observation>, k: nat)
    requires task.CompareTask? && observations != [] && Inspecting(task, observations) && k <= |observations|
    ensures Distinct(SuccessfulEvidence(observations[..k])) && |SuccessfulEvidence(observations[..k])| <= k
    ensures forall r :: r in SuccessfulEvidence(observations[..k]) ==> !r.MalformedRef?
  {
    hide Inspecting;
    if k > 0 {
      EvidenceDistinct(task, observations, k - 1);
      var front, o := observations[..k - 1], observations[k - 1];
      assert observations[..k] == front + [o];
      SuccessfulEvidenceAppend(front, o);
      if o.succeeded && o.ref.Some? {
        RefIsNew(task, observations, k - 1);
        SuccessfulEvidenceMembers(front, o.ref.value);
        assert o.ref.value !in SuccessfulEvidence(front);
      }
    }
  }

  lemma RefIsNew(task: Task, observations: seq<Observation>, k: nat)
    requires task.CompareTask? && observations != [] && Inspecting(task, observations) && k < |observations|
    requires observations[k].succeeded && observations[k].ref.Some?
    ensures !observations[k].ref.value.MalformedRef?
    ensures forall i :: 0 <= i < k && observations[i].succeeded ==> observations[i].ref != observations[k].ref
  {
    hide ComparisonConsistency;
    if k > 0 {
      var regressions := ComparisonFields(observations[0].payload).regressions.value;
      assert InspectedAt(task, regressions, observations, k);
      forall i | 0 < i < k && observations[i].succeeded
        ensures observations[i].ref != observations[k].ref
      {
        assert InspectedAt(task, regressions, observations, i);
      }
    }
  }

  // Everything after the comparison that a driven history lets a finish cite is in scope.
  lemma ObservedInScope(task: Task, observations: seq<Observation>, o: Observation)
    requires task.CompareTask? && observations != [] && Inspecting(task, observations)
    requires o in observations && o.succeeded
    ensures o == observations[0] || (o.tool != CompareRuns && ObservationScope(task, o).None?)
  {
    hide ComparisonConsistency, ValidRegressions, ExactKeys;
    var i :| 0 <= i < |observations| && observations[i] == o;
    if i > 0 {
      assert InspectedAt(task, ComparisonFields(observations[0].payload).regressions.value, observations, i);
    }
  }

  /** A finish that cites everything a driven history offers meets no grounding error before the
      scope of its comparison. */
  lemma CitesEverything(task: Task, observations: seq<Observation>)
    requires task.CompareTask? && observations != [] && Inspecting(task, observations)
    ensures var refs := SuccessfulEvidence(observations);
            && Distinct(refs) && |refs| <= 6
            && CitationError(observations, refs).None?
            && (FirstScopeError(task, CitedAll(observations, refs)).None? <==>
                  (observations[0].succeeded ==> ObservationScope(task, observations[0]).None?))
  {
    hide Inspecting, ObservationScope;
    var refs := SuccessfulEvidence(observations);
    assert observations[..|observations|] == observations;
    EvidenceDistinct(task, observations, |observations|);
    InspectingLength(task, observations);
    NoCitationError(observations, refs);
    CitedAllMembers(observations, refs);
    NoScopeError(task, CitedAll(observations, refs));
    forall o | o in CitedAll(observations, refs)
      ensures o == observations[0] || ObservationScope(task, o).None?
    {
      ObservedInScope(task, observations, o);
    }
    if observations[0].succeeded {
      FirstIsCited(task, observations);
    }
  }

  lemma InspectingLength(task: Task, observations: seq<Observation>)
    requires task.CompareTask? && observations != [] && Inspecting(task, observations)
    ensures |observations| <= 6
  {
  }

  /** A successful comparison is cited by every finish. */
  lemma FirstIsCited(task: Task, observations: seq<Observation>)
    requires task.CompareTask? && observations != [] && Inspecting(task, observations) && observations[0].succeeded
    ensures observations[0] in CitedAll(observations, SuccessfulEvidence(observations))
    ensures observations[0].tool == CompareRuns
  {
    hide Usable, InspectedAt;
    var refs, ref := SuccessfulEvidence(observations), observations[0].ref.value;
    SuccessfulEvidenceMembers(observations, ref);
    assert observations[0].succeeded && observations[0].ref == Some(ref);
    CitedIsSuccessful(observations, ref);
    CitedFound(observations, refs, ref);
    OnlyComparisonRef(task, observations, Cited(observations, ref).value, ref);
  }

  /** The cited comparisons of a driven history are its first observation. */
  lemma CitedComparisonIs(task: Task, observations: seq<Observation>)
    requires task.CompareTask? && observations != [] && Inspecting(task, observations) && observations[0].succeeded
    ensures var comparisons := CitedComparisons(CitedAll(observations, SuccessfulEvidence(observations)));
            && comparisons != []
            && forall c :: c in comparisons ==> c == ComparisonFields(observations[0].payload)
  {
    hide Inspecting;
    var refs := SuccessfulEvidence(observations);
    var cited := CitedAll(observations, refs);
    ComparisonsAreCited(cited);
    CitedAllMembers(observations, refs);
    forall o | o in cited && o.tool == CompareRuns
      ensures o == observations[0]
    {
      ObservedInScope(task, observations, o);
    }
    FirstIsCited(task, observations);
    assert ComparisonFields(observations[0].payload) in CitedComparisons(cited);
  }

  lemma {:induction false} CitedFound(observations: seq<Observation>, refs: seq<EvidenceRef>, ref: EvidenceRef)
    requires ref in refs && Cited(observations, ref).Some?
    ensures Cited(observations, ref).value in CitedAll(observations, refs)
  {
    if refs[0] != ref {
      CitedFound(observations, refs[1..], ref);
    }
  }

  lemma OnlyComparisonRef(task: Task, observations: seq<Observation>, o: Observation, ref: EvidenceRef)
    requires task.CompareTask? && observations != [] && Inspecting(task, observations)
    requires o in observations && o.succeeded && o.ref == Some(ref) && ref.ComparisonRef?
    ensures o == observations[0]
  {
    hide Inspecting;
    var i :| 0 <= i < |observations| && observations[i] == o;
    if i > 0 {
      LaterRefs(task, observations, i);
    }
  }

  lemma LaterRefs(task: Task, observations: seq<Observation>, i: nat)
    requires task.CompareTask? && observations != [] && Inspecting(task, observations)
    requires 0 < i < |observations| && observations[i].succeeded
    ensures observations[i].ref.Some? && observations[i].ref.value.QueryRef?
  {
    hide Validated;
    ValidatedShape(ComparisonFields(observations[0].payload), task.baselineRunId, task.candidateRunId);
    assert InspectedAt(task, ComparisonFields(observations[0].payload).regressions.value, observations, i);
  }

  /** What a finish on a validated comparison says about it. */
  lemma DecidedOnMeans(task: Task, observations: seq<Observation>, c: Comparison)
    requires task.CompareTask? && Validated(c, task.baselineRunId, task.candidateRunId)
    requires DecideOn(task, observations, c).Finish?
    ensures var d := DecideOn(task, observations, c);
            && d.refs == SuccessfulEvidence(observations) && d.outcome in {Accept, Reject, Inconclusive}
            && (d.outcome == Accept <==> SupportsAccept(c))
            && (d.outcome == Reject <==> DeltaOf(c, NdcgAt10).Some? && DeltaOf(c, NdcgAt10).value < -EPSILON)
            && d.finishReason != ComparisonEvidenceInvalid
  {
    hide FirstInconsistency, ValidRegressions, CountsMatch, Attempts, SuccessfulEvidence;
    PrimaryPresent(c);
    ValidatedShape(c, task.baselineRunId, task.candidateRunId);
    assert c.epsilon == Some(EPSILON);
    var d := DecideOn(task, observations, c);
    if SupportsAccept(c) {
      assert c.regressions.value == [] && !BelowEpsilon(c);
    }
    if d.outcome == Accept {
      assert c.regressions == Some([]);
      forall m | m in METRICS
        ensures DeltaOf(c, m).Some? && DeltaOf(c, m).value >= -EPSILON
      {
        assert !BelowEpsilon(c);
      }
    }
  }

  /** On every history the planner drives, whatever its comparison tool answered, a finish cites
      distinct references and is grounded exactly when that answer is in scope: the comparison failed,
      or it is of the task's pair of runs and consistent.  The finish reports invalid evidence exactly
      when it declined what a successful comparison contains, and accepts exactly on a usable comparison
      with a primary delta above epsilon, no listed regression and no metric below minus epsilon. */
  lemma BranchingIsGrounded(task: Task, observations: seq<Observation>)
    requires task.CompareTask? && Driven(task, observations) && Decide(task, observations).Finish?
    ensures observations != []
    ensures var d, first := Decide(task, observations), observations[0];
            && Distinct(d.refs) && |d.refs| <= 6
            && (FinishError(task, d, observations).None? <==> (first.succeeded ==> ObservationScope(task, first).None?))
            && (d.finishReason == ComparisonEvidenceInvalid <==> first.succeeded && !Usable(task, first))
            && (d.outcome == Accept <==> Usable(task, first) && SupportsAccept(ComparisonFields(first.payload)))
  {
    hide Inspecting, Driven, CitedAll, CitedComparisons, SuccessfulEvidence, DecideOn, SupportsAccept,
      DirectionError, Distinct, FirstScopeError, Validated, ObservationScope;
    DrivenInspects(task, observations);
    InspectingReads(task, observations, |observations|);
    assert observations[..|observations|] == observations;
    CitesEverything(task, observations);
    var c := ComparisonFields(observations[0].payload);
    if Usable(task, observations[0]) {
      FirstInScope(task, observations);
      DecidedOnMeans(task, observations, c);
      CitedComparisonIs(task, observations);
      DirectionHolds(task, Decide(task, observations).outcome, c,
                     CitedComparisons(CitedAll(observations, SuccessfulEvidence(observations))));
    } else {
      NoDirection();
    }
  }

  lemma FirstInScope(task: Task, observations: seq<Observation>)
    requires task.CompareTask? && observations != [] && Inspecting(task, observations) && Usable(task, observations[0])
    ensures ObservationScope(task, observations[0]).None?
  {
    hide ComparisonConsistency, CountsMatch, ExactKeys, ValidRegressions;
  }

  lemma NoDirection()
    ensures forall comparisons :: DirectionError(Inconclusive, comparisons).None?
  {
  }

  lemma DirectionHolds(task: Task, outcome: Outcome, c: Comparison, comparisons: seq<Comparison>)
    requires task.CompareTask? && Validated(c, task.baselineRunId, task.candidateRunId)
    requires comparisons != [] && forall x :: x in comparisons ==> x == c
    requires outcome == Accept ==> SupportsAccept(c)
    requires outcome == Reject ==> DeltaOf(c, NdcgAt10).Some? && DeltaOf(c, NdcgAt10).value < -EPSILON
    ensures DirectionError(outcome, comparisons).None?
  {
  }
}
