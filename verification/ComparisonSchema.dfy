/** The output schema of the comparison tool (tools.py), a validator written separately from the
    planner's, and why its evidence is always usable for the pair of runs it compares. */
module ComparisonSchema {
  import opened BranchingPlanner
  import opened Contracts
  import opened Grounding

  datatype PerMetric<T> = PerMetric(ndcg5: T, ndcg10: T, mrr10: T, success1: T, success5: T) {
    function At(m: Metric): T {
      match m
      case NdcgAt5 => ndcg5
      case NdcgAt10 => ndcg10
      case MrrAt10 => mrr10
      case SuccessAt1 => success1
      case SuccessAt5 => success5
    }
  }

  predicate Unit(x: real) {
    0.0 <= x <= 1.0
  }

  datatype MetricDelta = MetricDelta(baseline: real, candidate: real, delta: real) {
    // The delta may be off by rounding, within the tolerance of the comparison.
    predicate Valid() {
      && Unit(baseline) && Unit(candidate) && -1.0 <= delta <= 1.0
      && -EPSILON <= delta - (candidate - baseline) <= EPSILON
    }
  }

  datatype OutcomeCounts = OutcomeCounts(improved: int, regressed: int, tied: int) {
    predicate Valid() {
      improved >= 0 && regressed >= 0 && tied >= 0
    }

    function Total(): int {
      improved + regressed + tied
    }
  }

  datatype QueryChange = QueryChange(changedRanks: int, delta: real, queryId: int, topTenChanged: bool) {
    predicate Valid() {
      changedRanks >= 0 && -1.0 <= delta <= 1.0 && queryId >= 1
    }
  }

  datatype CompareRunsPayload = CompareRunsPayload(
    aggregate: PerMetric<MetricDelta>, baselineRunId: Id, candidateRunId: Id, comparisonId: Id, epsilon: real,
    improvements: seq<QueryChange>, outcomes: PerMetric<OutcomeCounts>, queryCount: int, regressions: seq<QueryChange>)

  predicate FieldsValid(p: CompareRunsPayload) {
    && (forall m: Metric :: p.aggregate.At(m).Valid())
    && (forall m: Metric :: p.outcomes.At(m).Valid())
    && 0.0 < p.epsilon <= 0.000001 && p.queryCount >= 1
    && |p.improvements| <= 5 && |p.regressions| <= 5
    && (forall q :: q in p.improvements ==> q.Valid())
    && (forall q :: q in p.regressions ==> q.Valid())
  }

  // A metric that moved has a query that moved with it.
  predicate Explained(metric: MetricDelta, counts: OutcomeCounts) {
    && (metric.delta > EPSILON ==> counts.improved != 0)
    && (metric.delta < -EPSILON ==> counts.regressed != 0)
    && (counts.improved == 0 && counts.regressed == 0 ==> -EPSILON <= metric.delta <= EPSILON)
  }

  predicate DistinctQueries(changes: seq<QueryChange>) {
    forall i, j :: 0 <= i < j < |changes| ==> changes[i].queryId != changes[j].queryId
  }

  predicate WorstFirst(changes: seq<QueryChange>) {
    forall i, j :: 0 <= i < j < |changes| ==>
      changes[i].delta < changes[j].delta || (changes[i].delta == changes[j].delta && changes[i].queryId <= changes[j].queryId)
  }

  predicate BestFirst(changes: seq<QueryChange>) {
    forall i, j :: 0 <= i < j < |changes| ==>
      changes[i].delta > changes[j].delta || (changes[i].delta == changes[j].delta && changes[i].queryId <= changes[j].queryId)
  }

  /** The summary validator of the payload model. */
  predicate SummaryValid(p: CompareRunsPayload) {
    && p.baselineRunId != p.candidateRunId
    && p.epsilon == EPSILON
    && (forall m: Metric :: p.outcomes.At(m).Total() == p.queryCount)
    && (forall m: Metric :: Explained(p.aggregate.At(m), p.outcomes.At(m)))
    && DistinctQueries(p.regressions) && DistinctQueries(p.improvements)
    && (forall r, i :: r in p.regressions && i in p.improvements ==> r.queryId != i.queryId)
    && (forall q :: q in p.regressions ==> q.delta < -EPSILON)
    && (forall q :: q in p.improvements ==> q.delta > EPSILON)
    && |p.regressions| == Min(p.outcomes.At(NdcgAt10).regressed, 5)
    && |p.improvements| == Min(p.outcomes.At(NdcgAt10).improved, 5)
    && WorstFirst(p.regressions) && BestFirst(p.improvements)
  }

  predicate SchemaValid(p: CompareRunsPayload) {
    FieldsValid(p) && SummaryValid(p)
  }

  // ----- The payload as the observation carries it -----

  function EntryOf(m: MetricDelta): MetricEntry {
    MetricEntry(m.delta, true)
  }

  function CountsOf(c: OutcomeCounts): Counts {
    Counts(Some(c.improved), Some(c.regressed))
  }

  function DeltasOf(changes: seq<QueryChange>): seq<QueryDelta> {
    seq(|changes|, i requires 0 <= i < |changes| => QueryDelta(Some(changes[i].queryId), Some(changes[i].delta)))
  }

  /** The object an observation carries: the fields of the payload that planner and grounding read. */
  function Dumped(p: CompareRunsPayload): Comparison {
    var a, o := p.aggregate, p.outcomes;
    Comparison(
      Some(p.baselineRunId), Some(p.candidateRunId), Some(p.epsilon),
      Some(map[NdcgAt5 := EntryOf(a.ndcg5), NdcgAt10 := EntryOf(a.ndcg10), MrrAt10 := EntryOf(a.mrr10),
               SuccessAt1 := EntryOf(a.success1), SuccessAt5 := EntryOf(a.success5)]),
      Some(map[NdcgAt5 := CountsOf(o.ndcg5), NdcgAt10 := CountsOf(o.ndcg10), MrrAt10 := CountsOf(o.mrr10),
               SuccessAt1 := CountsOf(o.success1), SuccessAt5 := CountsOf(o.success5)]),
      Some(DeltasOf(p.regressions)))
  }

  lemma DumpedConsistent(p: CompareRunsPayload)
    requires SchemaValid(p)
    ensures ComparisonConsistency(Dumped(p)).None? && ExactKeys(Dumped(p))
  {
    hide WorstFirst, BestFirst, DistinctQueries;
    var c := Dumped(p);
    ConsistentMetrics(c.metrics.value, c.outcomes.value, METRICS);
    forall m | m in METRICS
      ensures MetricConsistency(c.metrics.value, c.outcomes.value, m).None?
    {
      assert p.outcomes.At(m).Valid() && Explained(p.aggregate.At(m), p.outcomes.At(m));
      assert c.metrics.value[m] == EntryOf(p.aggregate.At(m)) && c.outcomes.value[m] == CountsOf(p.outcomes.At(m));
    }
  }

  lemma DumpedRegressions(p: CompareRunsPayload)
    requires SchemaValid(p)
    ensures ValidRegressions(DeltasOf(p.regressions)) && CountsMatch(Dumped(p))
  {
    hide WorstFirst, BestFirst;
    var d := DeltasOf(p.regressions);
    assert p.outcomes.At(NdcgAt10).Valid();
    forall i | 0 <= i < |d|
      ensures d[i].queryId.value >= 1 && d[i].delta.value < 0.0
    {
      assert p.regressions[i] in p.regressions;
    }
  }

  /** Schema-valid evidence is usable by the planner, and in the scope of the task, exactly when it
      compares the task's pair of runs: the two validators never disagree on what it contains. */
  lemma SchemaMeetsPlanner(p: CompareRunsPayload, baseline: Id, candidate: Id)
    requires SchemaValid(p)
    ensures Validated(Dumped(p), baseline, candidate) <==> p.baselineRunId == baseline && p.candidateRunId == candidate
    ensures ComparisonConsistency(Dumped(p)).None?
  {
    hide SchemaValid, ComparisonConsistency, ExactKeys, ValidRegressions, CountsMatch;
    DumpedConsistent(p);
    DumpedRegressions(p);
  }

  /** The comparison tool answered, if at all, within its output schema: a valid payload under its own reference. */
  ghost predicate WithinSchema(o: Observation, p: CompareRunsPayload) {
    && SchemaValid(p)
    && (o.succeeded ==> o.payload == ComparisonPayload(Dumped(p)) && o.ref == Some(ComparisonRef(p.comparisonId)))
  }

  /** With a comparison tool that keeps its schema, the finish of a driven history is grounded, and the
      evidence not declined, exactly when the comparison failed or is of the task's pair of runs. */
  lemma SchemaFinishIsGrounded(task: Task, observations: seq<Observation>, p: CompareRunsPayload)
    requires task.CompareTask? && Driven(task, observations) && Decide(task, observations).Finish?
    requires observations != [] ==> WithinSchema(observations[0], p)
    ensures observations != []
    ensures var d := Decide(task, observations);
            var inPair := observations[0].succeeded ==>
                            p.baselineRunId == task.baselineRunId && p.candidateRunId == task.candidateRunId;
            && (FinishError(task, d, observations).None? <==> inPair)
            && (d.finishReason == ComparisonEvidenceInvalid <==> !inPair)
  {
    hide SchemaValid, Validated, ComparisonConsistency, Dumped, Driven, Decide, FinishError, Inspecting;
    BranchingIsGrounded(task, observations);
    DrivenInspects(task, observations);
    SchemaMeetsPlanner(p, task.baselineRunId, task.candidateRunId);
    FirstTool(task, observations);
    DumpedPair(p);
  }

  lemma FirstTool(task: Task, observations: seq<Observation>)
    requires task.CompareTask? && observations != [] && Inspecting(task, observations)
    ensures observations[0].tool == CompareRuns
  {
  }

  lemma DumpedPair(p: CompareRunsPayload)
    ensures Dumped(p).baselineRunId == Some(p.baselineRunId) && Dumped(p).candidateRunId == Some(p.candidateRunId)
  {
  }
}
