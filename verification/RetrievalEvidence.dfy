/** The validators of the two retrieval tools' outputs (retrieval_tools.py). */
module RetrievalEvidence {
  import opened Contracts

  const GATE_ORDER: seq<GateName> := [
    UniqueContribution, UnionCoverage, FusionRecall, FusionNdcg, FusionMrr, CoarseRecall,
    CoarseNdcg, CoarseMrr, WorstCoarseNdcg, CoarseRegressedRate, WorstFusionNdcg, FusionRegressedRate]

  const GATE_TOLERANCE: real := 0.000000000001

  function GateComparator(name: GateName): Comparator {
    match name
    case UniqueContribution | UnionCoverage => Above
    case CoarseRegressedRate | FusionRegressedRate => AtMost
    case _ => AtLeast
  }

  function GateThreshold(name: GateName): real {
    match name
    case WorstCoarseNdcg | WorstFusionNdcg => -0.02
    case CoarseRegressedRate | FusionRegressedRate => 0.1
    case _ => 0.0
  }

  predicate Meets(comparator: Comparator, observed: real, threshold: real) {
    match comparator
    case Above => observed > threshold
    case AtLeast => observed >= threshold
    case AtMost => observed <= threshold
  }

  predicate ValidCheck(check: GateCheck) {
    && check.comparator == GateComparator(check.name)
    && check.threshold == GateThreshold(check.name)
    && check.passed == Meets(check.comparator, check.observed, check.threshold)
  }

  function FailedChecks(checks: seq<GateCheck>): seq<GateName> {
    if checks == [] then []
    else (if checks[0].passed then [] else [checks[0].name]) + FailedChecks(checks[1..])
  }

  predicate ValidGate(e: Experiment) {
    && |e.checks| == |GATE_ORDER|
    && (forall i :: 0 <= i < |e.checks| ==> ValidCheck(e.checks[i]) && e.checks[i].name == GATE_ORDER[i])
    && e.failedGates == FailedChecks(e.checks)
    && e.gatePassed == (forall i :: 0 <= i < |e.checks| ==> e.checks[i].passed)
  }

  // The summarized measurement each gate is about.
  function Measured(e: Experiment, name: GateName): real {
    match name
    case UniqueContribution => e.uniqueContribution as real
    case UnionCoverage => e.unionCoverage
    case FusionRecall => e.fusion.recall
    case FusionNdcg => e.fusion.ndcg
    case FusionMrr => e.fusion.mrr
    case CoarseRecall => e.coarse.recall
    case CoarseNdcg => e.coarse.ndcg
    case CoarseMrr => e.coarse.mrr
    case WorstCoarseNdcg => e.worstCoarseNdcg
    case CoarseRegressedRate => e.coarseRegressedRate
    case WorstFusionNdcg => e.worstFusionNdcg
    case FusionRegressedRate => e.fusionRegressedRate
  }

  predicate IsClose(a: real, b: real) {
    -GATE_TOLERANCE <= a - b <= GATE_TOLERANCE
  }

  predicate ValidExperiment(e: Experiment) {
    && e.profile == Smoke
    && ValidGate(e)
    && e.baselineRunId != e.candidateRunId
    && e.artifactRunId == e.candidateRunId
    && e.artifactDiagnosisId == e.diagnosisId
    && e.artifactComparisonId == Some(e.comparisonId)
    && (forall i :: 0 <= i < |e.checks| ==> IsClose(e.checks[i].observed, Measured(e, e.checks[i].name)))
    && e.reviewRecommended == e.gatePassed
    && (e.gatePassed <==> e.nextAction == RequestOwnerReview)
  }

  predicate ValidBaseline(b: BaselineSummary) {
    && b.profile == Smoke
    && b.artifactRunId == b.runId
    && b.artifactDiagnosisId == b.diagnosisId
    && b.artifactComparisonId == None
  }

  /** The envelope check of a diagnosis output: a valid summary cited by its own run. */
  function ParseBaseline(ref: Option<EvidenceRef>, payload: Payload): Option<BaselineSummary> {
    if payload.BaselinePayload? && ValidBaseline(payload.baseline) && ref == Some(RunRef(payload.baseline.runId))
    then Some(payload.baseline) else None
  }

  /** The envelope check of an experiment output: a valid summary cited by its own comparison. */
  function ParseExperiment(ref: Option<EvidenceRef>, payload: Payload): Option<Experiment> {
    if payload.ExperimentPayload? && ValidExperiment(payload.experiment)
       && ref == Some(ComparisonRef(payload.experiment.comparisonId))
    then Some(payload.experiment) else None
  }

  // One gate holds, up to the tolerance, of the measurement the experiment reports.
  predicate MeasurementPasses(e: Experiment, name: GateName) {
    match GateComparator(name)
    case Above => Measured(e, name) > GateThreshold(name) - GATE_TOLERANCE
    case AtLeast => Measured(e, name) >= GateThreshold(name) - GATE_TOLERANCE
    case AtMost => Measured(e, name) <= GateThreshold(name) + GATE_TOLERANCE
  }

  lemma EveryGateIsOrdered(name: GateName) returns (i: nat)
    ensures i < |GATE_ORDER| && GATE_ORDER[i] == name
  {
    i := match name
      case UniqueContribution => 0
      case UnionCoverage => 1
      case FusionRecall => 2
      case FusionNdcg => 3
      case FusionMrr => 4
      case CoarseRecall => 5
      case CoarseNdcg => 6
      case CoarseMrr => 7
      case WorstCoarseNdcg => 8
      case CoarseRegressedRate => 9
      case WorstFusionNdcg => 10
      case FusionRegressedRate => 11;
  }

  /** A validated experiment that claims to pass really has passing measurements: the flag, the
      check list and the reported numbers cannot disagree. */
  lemma PassedFlagIsEarned(e: Experiment)
    requires ValidExperiment(e) && e.gatePassed
    ensures forall name :: MeasurementPasses(e, name)
    ensures e.failedGates == [] && e.nextAction == RequestOwnerReview
  {
    forall name ensures MeasurementPasses(e, name) {
      var i := EveryGateIsOrdered(name);
      assert ValidCheck(e.checks[i]) && e.checks[i].passed;
    }
    NoFailedChecks(e.checks);
  }

  lemma {:induction false} NoFailedChecks(checks: seq<GateCheck>)
    ensures FailedChecks(checks) == [] <==> forall i :: 0 <= i < |checks| ==> checks[i].passed
  {
    if checks != [] {
      NoFailedChecks(checks[1..]);
      assert forall i :: 0 < i < |checks| ==> checks[i] == checks[1..][i - 1];
    }
  }

  /** The key `max` uses: worst fused query, then coarse nDCG, then variant name. */
  datatype SelectionKey = SelectionKey(worstFusion: real, coarseNdcg: real, name: nat)

  // Position of a variant's name in string order:
  // "...-v1" < "...-weighted-aggressive-v1" < "...-weighted-v1".
  function NameRank(v: Variant): nat {
    match v
    case Uniform => 0
    case Aggressive => 1
    case Conservative => 2
  }

  function KeyOf(e: Experiment): SelectionKey {
    SelectionKey(e.worstFusionNdcg, e.coarse.ndcg, NameRank(e.variant))
  }

  predicate KeyLess(a: SelectionKey, b: SelectionKey) {
    || a.worstFusion < b.worstFusion
    || (a.worstFusion == b.worstFusion && a.coarseNdcg < b.coarseNdcg)
    || (a.worstFusion == b.worstFusion && a.coarseNdcg == b.coarseNdcg && a.name < b.name)
  }

  function Passing(experiments: seq<Experiment>): seq<Experiment> {
    if experiments == [] then []
    else (if experiments[0].gatePassed then [experiments[0]] else []) + Passing(experiments[1..])
  }

  /** `max` of a non-empty list: the first element no other element beats. */
  function Best(experiments: seq<Experiment>): Experiment
    requires experiments != []
    decreases |experiments|
  {
    var last := experiments[|experiments| - 1];
    if |experiments| == 1 then last
    else
      var best := Best(experiments[..|experiments| - 1]);
      if KeyLess(KeyOf(best), KeyOf(last)) then last else best
  }

  lemma {:induction false} BestIsMaximal(experiments: seq<Experiment>)
    requires experiments != []
    ensures Best(experiments) in experiments
    ensures forall e :: e in experiments ==> !KeyLess(KeyOf(Best(experiments)), KeyOf(e))
    decreases |experiments|
  {
    if |experiments| > 1 {
      var front, last := experiments[..|experiments| - 1], experiments[|experiments| - 1];
      BestIsMaximal(front);
      assert forall e :: e in experiments ==> e in front || e == last;
    }
  }

  lemma {:induction false} PassingMembers(experiments: seq<Experiment>, e: Experiment)
    ensures e in Passing(experiments) <==> e in experiments && e.gatePassed
  {
    if experiments != [] {
      PassingMembers(experiments[1..], e);
    }
  }

  // No two experiments test the same variant.
  predicate DistinctVariants(experiments: seq<Experiment>) {
    forall i, j :: 0 <= i < j < |experiments| ==> experiments[i].variant != experiments[j].variant
  }

  function Members(experiments: seq<Experiment>): set<Experiment> {
    set e | e in experiments
  }

  /** The winner among distinct variants is the one passing experiment that beats all the others,
      so it depends on the set of experiments and not on their order. */
  lemma BestPassingIsCanonical(a: seq<Experiment>, b: seq<Experiment>)
    requires DistinctVariants(a) && Members(a) == Members(b)
    ensures Passing(a) == [] <==> Passing(b) == []
    ensures Passing(a) != [] ==> Best(Passing(a)) == Best(Passing(b))
  {
    forall e ensures e in Passing(a) <==> e in Passing(b) {
      PassingMembers(a, e);
      PassingMembers(b, e);
      assert e in a <==> e in Members(a);
      assert e in b <==> e in Members(b);
    }
    assert Passing(a) != [] ==> Passing(a)[0] in Passing(b);
    assert Passing(b) != [] ==> Passing(b)[0] in Passing(a);
    if Passing(a) != [] && Passing(b) != [] {
      BestIsMaximal(Passing(a));
      BestIsMaximal(Passing(b));
      var x, y := Best(Passing(a)), Best(Passing(b));
      PassingMembers(a, x);
      PassingMembers(a, y);
      assert x.variant == y.variant ==> x == y;
    }
  }
}
