/** What the two retrieval policies establish about any history they accept: which candidate they
    select, what the finish cites, and that the reason code leads back to that candidate. */
module RetrievalSelection {
  import opened Contracts
  import opened Grounding
  import opened Reporting
  import opened RetrievalEvidence
  import opened RetrievalPlanner
  import opened RetrievalPolicy

  // ----- The evidence of a history -----

  function ComparisonRefs(experiments: seq<Experiment>): seq<EvidenceRef> {
    if experiments == [] then []
    else
      ComparisonRefs(experiments[..|experiments| - 1]) + [ComparisonRef(experiments[|experiments| - 1].comparisonId)]
  }

  function RefsOf(baseline: Option<Id>, experiments: seq<Experiment>): seq<EvidenceRef> {
    (if baseline.Some? then [RunRef(baseline.value)] else []) + ComparisonRefs(experiments)
  }

  function LinesOf(experiments: seq<Experiment>): (lines: seq<ExperimentLine>)
    ensures |lines| == |experiments|
  {
    if experiments == [] then []
    else LinesOf(experiments[..|experiments| - 1]) + [LineOf(ExperimentPayload(experiments[|experiments| - 1]))]
  }

  /** The experiments a history reports, in order. */
  function ObservedExperiments(observations: seq<Observation>): seq<Experiment> {
    if observations == [] then []
    else
      var o := observations[|observations| - 1];
      ObservedExperiments(observations[..|observations| - 1]) +
      if o.tool == RunCandidate && o.succeeded && o.payload.ExperimentPayload? then [o.payload.experiment] else []
  }

  lemma ObservedExperimentsAppend(observations: seq<Observation>, o: Observation)
    ensures ObservedExperiments(observations + [o]) ==
            ObservedExperiments(observations) +
            if o.tool == RunCandidate && o.succeeded && o.payload.ExperimentPayload? then [o.payload.experiment] else []
  {
  }

  // Valid experiments on one baseline, no two of which share a variant or an id.
  ghost predicate Experimental(baseline: Option<Id>, experiments: seq<Experiment>) {
    && (forall e :: e in experiments ==> ValidExperiment(e) && baseline == Some(e.baselineRunId))
    && (forall i :: 0 <= i < |experiments| ==>
          FreshVariant(experiments[i], experiments[..i]) && FreshEvidence(experiments[i], experiments[..i]))
  }

  lemma ExperimentalAppend(baseline: Option<Id>, experiments: seq<Experiment>, e: Experiment)
    requires Experimental(baseline, experiments) && ValidExperiment(e) && baseline == Some(e.baselineRunId)
    requires FreshVariant(e, experiments) && FreshEvidence(e, experiments)
    ensures Experimental(baseline, experiments + [e])
  {
  }

  lemma ExperimentalDistinct(baseline: Option<Id>, experiments: seq<Experiment>)
    requires Experimental(baseline, experiments)
    ensures DistinctVariants(experiments)
    ensures forall i, j :: 0 <= i < j < |experiments| ==> experiments[i].comparisonId != experiments[j].comparisonId
    ensures |experiments| <= 3
  {
    hide ValidExperiment;
    forall i, j | 0 <= i < j < |experiments|
      ensures experiments[i].variant != experiments[j].variant && experiments[i].comparisonId != experiments[j].comparisonId
    {
      assert experiments[i] == experiments[..j][i];
      assert FreshVariant(experiments[j], experiments[..j]) && FreshEvidence(experiments[j], experiments[..j]);
    }
    if |experiments| > 3 {
      ThreeVariants(experiments[0].variant, experiments[1].variant, experiments[2].variant, experiments[3].variant);
    }
  }

  lemma ThreeVariants(a: Variant, b: Variant, c: Variant, d: Variant)
    ensures a == b || a == c || a == d || b == c || b == d || c == d
  {
  }

  lemma {:induction false} ComparisonRefsAt(experiments: seq<Experiment>)
    ensures |ComparisonRefs(experiments)| == |experiments|
    ensures forall i :: 0 <= i < |experiments| ==> ComparisonRefs(experiments)[i] == ComparisonRef(experiments[i].comparisonId)
  {
    if experiments != [] {
      ComparisonRefsAt(experiments[..|experiments| - 1]);
    }
  }

  lemma {:induction false} LinesAt(experiments: seq<Experiment>)
    ensures forall i :: 0 <= i < |experiments| ==> LinesOf(experiments)[i] == LineOf(ExperimentPayload(experiments[i]))
  {
    if experiments != [] {
      LinesAt(experiments[..|experiments| - 1]);
    }
  }

  /** The references of a history are distinct, well formed and few. */
  lemma RefsAreCitable(baseline: Option<Id>, experiments: seq<Experiment>)
    requires Experimental(baseline, experiments)
    ensures var refs := RefsOf(baseline, experiments);
            && Distinct(refs) && |refs| <= 4
            && (forall r :: r in refs ==> !r.MalformedRef?)
            && (forall e :: e in experiments ==> ComparisonRef(e.comparisonId) in refs)
  {
    hide Experimental;
    ExperimentalDistinct(baseline, experiments);
    ComparisonRefsAt(experiments);
    forall e | e in experiments
      ensures ComparisonRef(e.comparisonId) in RefsOf(baseline, experiments)
    {
      var i :| 0 <= i < |experiments| && experiments[i] == e;
      assert ComparisonRefs(experiments)[i] in ComparisonRefs(experiments);
    }
  }

  lemma {:induction false} LinesAppend(observations: seq<Observation>, o: Observation)
    ensures ExperimentLines(observations + [o]) ==
            ExperimentLines(observations) + if o.tool == RunCandidate && o.succeeded then [LineOf(o.payload)] else []
  {
    if observations != [] {
      LinesAppend(observations[1..], o);
      assert (observations + [o])[1..] == observations[1..] + [o];
    }
  }

  // ----- The fixed planner -----

  /** How far the planner is: the diagnosis, then one stage for each candidate in order. */
  ghost predicate CursorOk(c: Cursor) {
    && Experimental(c.baselineRunId, c.experiments)
    && (if c.expectedTool == DiagnoseBaseline then
          c.expectedVariant.None? && c.baselineRunId.None? && c.experiments == []
        else
          && c.expectedTool == RunCandidate && c.baselineRunId.Some? && c.expectedVariant.Some?
          && |c.experiments| == Position(c.expectedVariant.value)
          && (|c.experiments| >= 1 ==> c.experiments[0].variant == Uniform && !c.experiments[0].gatePassed)
          && (|c.experiments| >= 2 ==> c.experiments[1].variant == Conservative))
  }

  // Place of a variant in the trusted order.
  function Position(v: Variant): nat {
    match v
    case Uniform => 0
    case Conservative => 1
    case Aggressive => 2
  }

  ghost predicate Recounts(observations: seq<Observation>, baseline: Option<Id>, experiments: seq<Experiment>) {
    && SuccessfulEvidence(observations) == RefsOf(baseline, experiments)
    && ExperimentLines(observations) == LinesOf(experiments)
    && ObservedExperiments(observations) == experiments
  }

  /** What a finish of the fixed planner says about the experiments behind it. */
  ghost predicate FixedFinish(d: Decision, experiments: seq<Experiment>) {
    && d.Finish? && d.outcome in {ProposalReady, NoSafeImprovement, Inconclusive}
    && (d.outcome == ProposalReady ==>
          Passing(experiments) != [] && VariantOfReason(d.finishReason) == Some(Best(Passing(experiments)).variant))
    && (d.outcome == NoSafeImprovement ==> Passing(experiments) == [] && |experiments| == 3)
    && (d.outcome != ProposalReady ==> VariantOfReason(d.finishReason) == None)
  }

  ghost predicate RunningOk(observations: seq<Observation>, c: Cursor) {
    CursorOk(c) && Recounts(observations, c.baselineRunId, c.experiments)
  }

  ghost predicate StoppedOk(observations: seq<Observation>, d: Decision, baseline: Option<Id>, experiments: seq<Experiment>) {
    && FixedFinish(d, experiments) && d.refs == SuccessfulEvidence(observations)
    && Experimental(baseline, experiments) && Recounts(observations, baseline, experiments)
  }

  ghost predicate ProgressOk(observations: seq<Observation>, p: Progress) {
    && (p.Running? ==> RunningOk(observations, p.cursor))
    && (p.Stopped? ==> exists baseline :: StoppedOk(observations, p.decision, baseline, p.experiments))
  }

  // With uniform out, the winner is the conservative or the aggressive candidate.
  lemma WinnerIsNamed(experiments: seq<Experiment>)
    requires |experiments| == 3 && !experiments[0].gatePassed
    requires experiments[1].variant == Conservative && experiments[2].variant == Aggressive
    ensures Passing(experiments) != [] ==> Best(Passing(experiments)).variant in {Conservative, Aggressive}
  {
    if Passing(experiments) != [] {
      BestIsMaximal(Passing(experiments));
      PassingMembers(experiments, Best(Passing(experiments)));
    }
  }

  // What one experiment of the expected variant leads to.
  ghost predicate Follows(c: Cursor, seen: seq<Observation>, e: Experiment, p: Progress) {
    var more := c.experiments + [e];
    match p
    case Running(next) =>
      && CursorOk(next) && next.experiments == more && next.baselineRunId == c.baselineRunId
      && next.retryConsumed == c.retryConsumed && next.expectedTool == RunCandidate
    case Stopped(d, experiments) => FixedFinish(d, more) && experiments == more && d.refs == SuccessfulEvidence(seen)
    case Invalid => false
  }

  lemma AfterUniform(c: Cursor, seen: seq<Observation>, e: Experiment)
    requires CursorOk(c) && c.expectedTool == RunCandidate && c.expectedVariant == Some(Uniform) && e.variant == Uniform
    requires Experimental(c.baselineRunId, c.experiments + [e])
    ensures Follows(c, seen, e, AfterExperiment(c.(experiments := c.experiments + [e]), seen, e))
  {
    hide SuccessfulEvidence, Experimental, Best;
    assert c.experiments + [e] == [e];
    BestIsMaximal([e]);
    assert e.gatePassed ==> Passing([e]) == [e];
  }

  lemma AfterConservative(c: Cursor, seen: seq<Observation>, e: Experiment)
    requires CursorOk(c) && c.expectedTool == RunCandidate && c.expectedVariant == Some(Conservative) && e.variant == Conservative
    requires Experimental(c.baselineRunId, c.experiments + [e])
    ensures Follows(c, seen, e, AfterExperiment(c.(experiments := c.experiments + [e]), seen, e))
  {
    hide SuccessfulEvidence, Experimental, Best, Passing;
  }

  lemma AfterAggressive(c: Cursor, seen: seq<Observation>, e: Experiment)
    requires CursorOk(c) && c.expectedTool == RunCandidate && c.expectedVariant == Some(Aggressive) && e.variant == Aggressive
    requires Experimental(c.baselineRunId, c.experiments + [e])
    ensures Follows(c, seen, e, AfterExperiment(c.(experiments := c.experiments + [e]), seen, e))
  {
    hide SuccessfulEvidence, Experimental, Best, Passing;
    WinnerIsNamed(c.experiments + [e]);
  }

  /** The planner never reaches its error about a selected candidate that is inconsistent with the path. */
  lemma AfterExperimentOk(c: Cursor, seen: seq<Observation>, e: Experiment)
    requires CursorOk(c) && c.expectedTool == RunCandidate && c.expectedVariant == Some(e.variant)
    requires Experimental(c.baselineRunId, c.experiments + [e])
    ensures Follows(c, seen, e, AfterExperiment(c.(experiments := c.experiments + [e]), seen, e))
  {
    hide *;
    match e.variant
    case Uniform => AfterUniform(c, seen, e);
    case Conservative => AfterConservative(c, seen, e);
    case Aggressive => AfterAggressive(c, seen, e);
  }

  lemma {:induction false} PlannerProgress(observations: seq<Observation>)
    ensures ProgressOk(observations, ProgressOf(observations))
  {
    hide Advance, RunningOk, StoppedOk;
    if observations == [] {
      StartOk();
    } else {
      var front, o := observations[..|observations| - 1], observations[|observations| - 1];
      PlannerProgress(front);
      if ProgressOf(front).Running? {
        AdvanceOk(front, ProgressOf(front).cursor, o);
        assert front + [o] == observations;
      }
    }
  }

  lemma StartOk()
    ensures RunningOk([], RetrievalPlanner.START)
  {
  }

  lemma AdvanceOk(front: seq<Observation>, c: Cursor, o: Observation)
    requires RunningOk(front, c)
    ensures ProgressOk(front + [o], Advance(c, front + [o]))
  {
    hide Advance, RunningOk, StoppedOk;
    if !o.succeeded {
      FailureAdvance(front, c, o);
    } else if c.expectedTool == DiagnoseBaseline {
      BaselineAdvance(front, c, o);
    } else {
      ExperimentAdvance(front, c, o);
    }
  }

  lemma FailureAdvance(front: seq<Observation>, c: Cursor, o: Observation)
    requires RunningOk(front, c) && !o.succeeded
    ensures ProgressOk(front + [o], Advance(c, front + [o]))
  {
    hide Experimental, FixedFinish, ComparisonRefs;
    var seen := front + [o];
    SuccessfulEvidenceAppend(front, o);
    LinesAppend(front, o);
    ObservedExperimentsAppend(front, o);
    if Advance(c, seen).Stopped? {
      FailureFinish(c, front, o);
      assert StoppedOk(seen, Advance(c, seen).decision, c.baselineRunId, c.experiments);
    }
  }

  lemma BaselineAdvance(front: seq<Observation>, c: Cursor, o: Observation)
    requires RunningOk(front, c) && o.succeeded && c.expectedTool == DiagnoseBaseline
    ensures ProgressOk(front + [o], Advance(c, front + [o]))
    ensures Advance(c, front + [o]).Running? || Advance(c, front + [o]).Invalid?
  {
    hide Experimental;
    var seen := front + [o];
    SuccessfulEvidenceAppend(front, o);
    LinesAppend(front, o);
    ObservedExperimentsAppend(front, o);
    NoExperiments();
  }

  lemma ExperimentAdvance(front: seq<Observation>, c: Cursor, o: Observation)
    requires RunningOk(front, c) && o.succeeded && c.expectedTool != DiagnoseBaseline
    ensures ProgressOk(front + [o], Advance(c, front + [o]))
  {
    hide ValidExperiment, AfterExperiment, Experimental, FixedFinish, CursorOk;
    var seen := front + [o];
    ExpectsCandidate(c);
    if Advance(c, seen) != Invalid {
      var e := ParseExperiment(o.ref, o.payload).value;
      ParsedIsValid(o.ref, o.payload);
      ExperimentalAppend(c.baselineRunId, c.experiments, e);
      AfterExperimentOk(c, seen, e);
      RecountsExperiment(front, c.baselineRunId, c.experiments, o, e);
      var p := Advance(c, seen);
      assert p.Stopped? ==> StoppedOk(seen, p.decision, c.baselineRunId, c.experiments + [e]);
    }
  }

  lemma ExpectsCandidate(c: Cursor)
    requires CursorOk(c) && c.expectedTool != DiagnoseBaseline
    ensures c.expectedTool == RunCandidate && c.baselineRunId.Some? && Experimental(c.baselineRunId, c.experiments)
  {
  }

  lemma RecountsExperiment(front: seq<Observation>, baseline: Option<Id>, experiments: seq<Experiment>, o: Observation, e: Experiment)
    requires Recounts(front, baseline, experiments)
    requires o.tool == RunCandidate && o.succeeded && ParseExperiment(o.ref, o.payload) == Some(e)
    ensures Recounts(front + [o], baseline, experiments + [e])
  {
    hide ValidExperiment, RefsOf, LinesOf, SuccessfulEvidence, ExperimentLines, ObservedExperiments, LineOf;
    SuccessfulEvidenceAppend(front, o);
    LinesAppend(front, o);
    ObservedExperimentsAppend(front, o);
    ExperimentAppend(baseline, experiments, e);
  }

  lemma ExperimentAppend(baseline: Option<Id>, experiments: seq<Experiment>, e: Experiment)
    ensures RefsOf(baseline, experiments + [e]) == RefsOf(baseline, experiments) + [ComparisonRef(e.comparisonId)]
    ensures LinesOf(experiments + [e]) == LinesOf(experiments) + [LineOf(ExperimentPayload(e))]
  {
  }

  lemma NoExperiments()
    ensures forall b :: Experimental(b, [])
  {
  }

  lemma ParsedIsValid(ref: Option<EvidenceRef>, payload: Payload)
    ensures ParseExperiment(ref, payload).Some? ==> ValidExperiment(ParseExperiment(ref, payload).value)
  {
  }

  lemma FailureFinish(c: Cursor, front: seq<Observation>, o: Observation)
    requires !o.succeeded && Advance(c, front + [o]).Stopped?
    ensures var stop := Advance(c, front + [o]);
            && stop.experiments == c.experiments && FixedFinish(stop.decision, c.experiments)
            && stop.decision.refs == SuccessfulEvidence(front)
  {
  }

  // ----- The adaptive policy -----

  function BaselineId(h: History): Option<Id> {
    if h.baseline.Some? then Some(h.baseline.value.runId) else None
  }

  ghost predicate HistoryOk(observations: seq<Observation>, h: History) {
    && Experimental(BaselineId(h), h.experiments) && Recounts(observations, BaselineId(h), h.experiments)
    && (h.baseline.None? ==> h.experiments == [])
  }

  lemma {:induction false} AdaptiveHistory(observations: seq<Observation>)
    requires HistoryOf(observations).Some?
    ensures HistoryOk(observations, HistoryOf(observations).value)
  {
    hide Admit, HistoryOk;
    if observations == [] {
      EmptyHistoryOk();
    } else {
      var front, o := observations[..|observations| - 1], observations[|observations| - 1];
      AdaptiveHistory(front);
      AdmitOk(front, HistoryOf(front).value, o);
      assert front + [o] == observations;
    }
  }

  lemma EmptyHistoryOk()
    ensures HistoryOk([], History(None, [], false))
  {
  }

  lemma AdmitOk(front: seq<Observation>, h: History, o: Observation)
    requires HistoryOk(front, h) && Admit(h, o).Some?
    ensures HistoryOk(front + [o], Admit(h, o).value)
  {
    hide ValidExperiment, Experimental, FreshVariant, FreshEvidence, Recounts;
    NoExperiments();
    var next := Admit(h, o).value;
    if o.succeeded && o.tool == RunCandidate {
      var e := ParseExperiment(o.ref, o.payload).value;
      ParsedIsValid(o.ref, o.payload);
      ExperimentalAppend(BaselineId(h), h.experiments, e);
      RecountsExperiment(front, BaselineId(h), h.experiments, o, e);
    } else {
      RecountsOther(front, h, o);
    }
  }

  lemma RecountsOther(front: seq<Observation>, h: History, o: Observation)
    requires HistoryOk(front, h) && Admit(h, o).Some? && !(o.succeeded && o.tool == RunCandidate)
    ensures Recounts(front + [o], BaselineId(Admit(h, o).value), h.experiments)
  {
    hide ValidExperiment, Experimental, LineOf;
    SuccessfulEvidenceAppend(front, o);
    LinesAppend(front, o);
    ObservedExperimentsAppend(front, o);
  }

  // ----- The reason code leads back to the selected candidate -----

  function WithVariant(experiments: seq<Experiment>, v: Option<Variant>): seq<Experiment> {
    if experiments == [] then []
    else (if Some(experiments[0].variant) == v then [experiments[0]] else []) + WithVariant(experiments[1..], v)
  }

  /** The experiment the analysis response is built from; None is the error about an inconsistent
      or incomplete terminal. */
  function ResponseExperiment(outcome: Outcome, reason: Reason, refs: seq<EvidenceRef>, experiments: seq<Experiment>)
    : Option<Experiment>
  {
    if experiments == [] then None
    else if outcome == ProposalReady then
      var matches := WithVariant(experiments, VariantOfReason(reason));
      if |matches| != 1 || !matches[0].gatePassed || ComparisonRef(matches[0].comparisonId) !in refs then None
      else Some(matches[0])
    else if outcome == NoSafeImprovement then
      if Passing(experiments) != [] then None else Some(Best(experiments))
    else None
  }

  lemma {:induction false} WithVariantUnique(experiments: seq<Experiment>, e: Experiment)
    requires DistinctVariants(experiments)
    ensures e in experiments ==> WithVariant(experiments, Some(e.variant)) == [e]
    ensures (forall x :: x in experiments ==> x.variant != e.variant) ==> WithVariant(experiments, Some(e.variant)) == []
  {
    if experiments != [] {
      var rest := experiments[1..];
      assert DistinctVariants(rest) by {
        forall i, j | 0 <= i < j < |rest| ensures rest[i].variant != rest[j].variant {
          assert experiments[i + 1].variant != experiments[j + 1].variant;
        }
      }
      WithVariantUnique(rest, e);
      forall x | x in rest
        ensures x.variant != experiments[0].variant
      {
        var i :| 0 <= i < |rest| && rest[i] == x;
        assert experiments[i + 1] == x;
      }
    }
  }

  lemma {:induction false} FirstLineFinds(experiments: seq<Experiment>, e: Experiment, n: nat)
    requires DistinctVariants(experiments) && n <= |experiments| && e in experiments[n..]
    ensures FirstLine(LinesOf(experiments)[n..], Some(e.variant)) == Some(LineOf(ExperimentPayload(e)))
    decreases |experiments| - n
  {
    LinesAt(experiments);
    var lines := LinesOf(experiments)[n..];
    assert lines[0] == LineOf(ExperimentPayload(experiments[n]));
    if experiments[n] != e {
      assert e in experiments[n + 1..];
      FirstLineFinds(experiments, e, n + 1);
      assert lines[1..] == LinesOf(experiments)[n + 1..];
    }
  }
}
