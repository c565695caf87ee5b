/** What every allowed retrieval finish guarantees, and how the two policies relate. */
module RetrievalOutcomes {
  import opened Contracts
  import opened Grounding
  import opened Reporting
  import opened RetrievalEvidence
  import opened RetrievalPlanner
  import opened RetrievalPolicy
  import opened RetrievalSelection

  // ----- Options -----

  lemma {:induction false} MatchingMembers(options: seq<PolicyOption>, d: Decision)
    ensures forall o :: o in Matching(options, d) <==> o in options && o.decision == d
  {
    if options != [] {
      MatchingMembers(options[..|options| - 1], d);
      assert forall o :: o in options <==> o in options[..|options| - 1] || o == options[|options| - 1];
    }
  }

  ghost predicate DistinctDecisions(options: seq<PolicyOption>) {
    forall i, j :: 0 <= i < j < |options| ==> options[i].decision != options[j].decision
  }

  lemma {:induction false} MatchingNone(options: seq<PolicyOption>, d: Decision)
    requires forall i :: 0 <= i < |options| ==> options[i].decision != d
    ensures Matching(options, d) == []
  {
    if options != [] {
      MatchingNone(options[..|options| - 1], d);
    }
  }

  lemma {:induction false} MatchingUnique(options: seq<PolicyOption>, i: nat)
    requires DistinctDecisions(options) && i < |options|
    ensures Matching(options, options[i].decision) == [options[i]]
  {
    var n := |options| - 1;
    if i == n {
      MatchingNone(options[..n], options[i].decision);
    } else {
      MatchingUnique(options[..n], i);
    }
  }

  // The run options, written out.
  lemma RunOptionsAre(runId: Id, experiments: seq<Experiment>)
    ensures RunOptions(runId, experiments, VARIANTS) ==
            (if Tested(experiments, Uniform) then [] else [RunVariant(runId, Uniform)]) +
            (if Tested(experiments, Conservative) then [] else [RunVariant(runId, Conservative)]) +
            (if Tested(experiments, Aggressive) then [] else [RunVariant(runId, Aggressive)])
  {
    hide Tested, RunVariant;
    assert VARIANTS[..2] == [Uniform, Conservative] && VARIANTS[..2][..1] == [Uniform];
    assert RunOptions(runId, experiments, []) == [];
    assert RunOptions(runId, experiments, [Uniform]) == if Tested(experiments, Uniform) then [] else [RunVariant(runId, Uniform)];
  }

  lemma OptionsDiffer(h: History, refs: seq<EvidenceRef>)
    ensures DistinctDecisions(OptionsFor(h, refs))
  {
    hide Tested, Best, Passing;
    if h.baseline.Some? {
      RunOptionsAre(h.baseline.value.runId, h.experiments);
      ArgumentsDiffer(h.baseline.value.runId);
    }
  }

  lemma ArgumentsDiffer(runId: Id)
    ensures forall v, w :: RunVariant(runId, v).decision == RunVariant(runId, w).decision ==> v == w
  {
  }

  /** Every offered decision resolves back to exactly the option that offers it. */
  lemma OfferedResolves(task: Task, observations: seq<Observation>, i: nat)
    requires DeriveOptions(task, observations).Some? && i < |DeriveOptions(task, observations).value|
    ensures var options := DeriveOptions(task, observations).value;
            OptionForDecision(task, observations, options[i].decision) == Some(options[i])
  {
    hide HistoryOf, OptionsFor;
    var options := DeriveOptions(task, observations).value;
    OptionsDiffer(HistoryOf(observations).value, SuccessfulEvidence(observations));
    MatchingUnique(options, i);
  }

  // ----- Finishes -----

  lemma OfferedFinish(h: History, refs: seq<EvidenceRef>, option: PolicyOption)
    requires option in OptionsFor(h, refs) && option.decision.Finish?
    ensures FixedFinish(option.decision, h.experiments) && option.decision.refs == refs
    ensures option.decision.outcome != Inconclusive
  {
    hide Tested, Best, Passing;
    if h.baseline.Some? {
      RunOptionsAre(h.baseline.value.runId, h.experiments);
    }
  }

  /** Under either policy, an allowed finish cites exactly the observed evidence, selects a passing
      maximum or reports that all three candidates failed, and encodes the choice in its reason. */
  lemma AllowedFinish(task: Task, observations: seq<Observation>, d: Decision) returns (baseline: Option<Id>)
    requires task.RetrievalTask? && d.Finish? && RetrievalFinishAllowed(task, d, observations)
    ensures StoppedOk(observations, d, baseline, ObservedExperiments(observations))
  {
    hide StoppedOk, Experimental, FixedFinish, HistoryOf, OptionsFor, ProgressOf;
    if task.policy == FixedSequence {
      PlannerProgress(observations);
      var p := ProgressOf(observations);
      FinishIsStopped(observations, d);
      baseline :| StoppedOk(observations, p.decision, baseline, p.experiments);
      StoppedObserves(observations, d, baseline, p.experiments);
    } else {
      var h := HistoryOf(observations).value;
      AdaptiveHistory(observations);
      var options := DeriveOptions(task, observations).value;
      MatchingMembers(options, d);
      var option := OptionForDecision(task, observations, d).value;
      assert option in Matching(options, d);
      OfferedFinish(h, SuccessfulEvidence(observations), option);
      baseline := BaselineId(h);
      AssembleStopped(observations, d, h);
      StoppedObserves(observations, d, baseline, h.experiments);
    }
  }

  lemma FinishIsStopped(observations: seq<Observation>, d: Decision)
    requires ExpectedDecision(observations) == Some(d) && d.Finish?
    ensures ProgressOf(observations).Stopped? && ProgressOf(observations).decision == d
  {
  }

  lemma StoppedObserves(observations: seq<Observation>, d: Decision, baseline: Option<Id>, experiments: seq<Experiment>)
    requires StoppedOk(observations, d, baseline, experiments)
    ensures experiments == ObservedExperiments(observations)
  {
  }

  lemma AssembleStopped(observations: seq<Observation>, d: Decision, h: History)
    requires HistoryOk(observations, h) && FixedFinish(d, h.experiments) && d.refs == SuccessfulEvidence(observations)
    ensures StoppedOk(observations, d, BaselineId(h), h.experiments)
  {
  }

  /** The finish of either policy is always grounded: its references are distinct, well formed,
      within the limit, and all of them observed. */
  lemma AllowedFinishIsGrounded(task: Task, observations: seq<Observation>, d: Decision)
    requires task.RetrievalTask? && d.Finish? && RetrievalFinishAllowed(task, d, observations)
    ensures FinishError(task, d, observations).None? && |d.refs| <= 4
  {
    hide Experimental, RefsOf, FixedFinish, RetrievalFinishAllowed;
    var baseline := AllowedFinish(task, observations, d);
    RefsAreCitable(baseline, ObservedExperiments(observations));
    NoCitationError(observations, d.refs);
  }

  /** From the terminal alone, the report and the analysis response recover the candidate the policy
      chose: the maximum of the passing ones, cited, with all twelve gates earned. */
  lemma ReasonRoundTrip(task: Task, observations: seq<Observation>, d: Decision)
    requires task.RetrievalTask? && d.Finish? && RetrievalFinishAllowed(task, d, observations)
    requires d.outcome == ProposalReady
    ensures Passing(ObservedExperiments(observations)) != []
    ensures var chosen := Best(Passing(ObservedExperiments(observations)));
            var report := TerminalReport(task, d.outcome, d.finishReason, observations, d.refs);
            && chosen in ObservedExperiments(observations) && chosen.gatePassed
            && (forall name :: MeasurementPasses(chosen, name))
            && VariantOfReason(d.finishReason) == Some(chosen.variant)
            && ComparisonRef(chosen.comparisonId) in d.refs
            && report.selectedVariant == Some(chosen.variant)
            && report.selectedComparison == Some(chosen.comparisonId)
            && ResponseExperiment(d.outcome, d.finishReason, d.refs, ObservedExperiments(observations)) == Some(chosen)
  {
    hide Experimental, ValidExperiment, MeasurementPasses, RetrievalFinishAllowed, RefsOf, ExperimentLines, LinesOf,
      Best, Passing, WithVariant, FirstLine;
    var experiments := ObservedExperiments(observations);
    var baseline := AllowedFinish(task, observations, d);
    RefsAreCitable(baseline, experiments);
    ExperimentalDistinct(baseline, experiments);
    BestIsMaximal(Passing(experiments));
    var chosen := Best(Passing(experiments));
    PassingMembers(experiments, chosen);
    ExperimentalMember(baseline, experiments, chosen);
    PassedFlagIsEarned(chosen);
    WithVariantUnique(experiments, chosen);
    assert experiments[0..] == experiments && LinesOf(experiments)[0..] == LinesOf(experiments);
    FirstLineFinds(experiments, chosen, 0);
  }

  lemma ExperimentalMember(baseline: Option<Id>, experiments: seq<Experiment>, e: Experiment)
    requires Experimental(baseline, experiments) && e in experiments
    ensures ValidExperiment(e)
  {
  }

  /** A finish without a proposal means every one of the three candidates was observed and failed. */
  lemma NoSafeMeansAllFailed(task: Task, observations: seq<Observation>, d: Decision)
    requires task.RetrievalTask? && d.Finish? && RetrievalFinishAllowed(task, d, observations)
    requires d.outcome == NoSafeImprovement
    ensures |ObservedExperiments(observations)| == 3 && forall e :: e in ObservedExperiments(observations) ==> !e.gatePassed
    ensures forall v :: Tested(ObservedExperiments(observations), v)
    ensures ResponseExperiment(d.outcome, d.finishReason, d.refs, ObservedExperiments(observations)).Some?
  {
    hide Experimental, RetrievalFinishAllowed, Passing, Best;
    var experiments := ObservedExperiments(observations);
    var baseline := AllowedFinish(task, observations, d);
    ExperimentalDistinct(baseline, experiments);
    forall e | e in experiments ensures !e.gatePassed {
      PassingMembers(experiments, e);
    }
    var a, b, c := experiments[0].variant, experiments[1].variant, experiments[2].variant;
    assert a != b && a != c && b != c;
    forall v ensures Tested(experiments, v) {
      ThreeVariants(a, b, c, v);
      assert experiments[0].variant == v || experiments[1].variant == v || experiments[2].variant == v;
    }
  }

  // ----- Order independence and agreement -----

  function OptionIds(options: seq<PolicyOption>): seq<OptionId> {
    seq(|options|, i requires 0 <= i < |options| => options[i].id)
  }

  ghost predicate SameExperiments(a: seq<Experiment>, b: seq<Experiment>) {
    Members(a) == Members(b)
  }

  lemma SameTested(a: seq<Experiment>, b: seq<Experiment>, v: Variant)
    requires SameExperiments(a, b) && Tested(a, v)
    ensures Tested(b, v)
  {
    var i :| 0 <= i < |a| && a[i].variant == v;
    assert a[i] in Members(a);
    assert exists j :: 0 <= j < |b| && b[j] == a[i];
  }

  lemma {:induction false} DistinctCount(s: seq<Experiment>)
    requires DistinctVariants(s)
    ensures |Members(s)| == |s|
  {
    if s != [] {
      var front, last := s[..|s| - 1], s[|s| - 1];
      DistinctCount(front);
      assert last !in front;
      assert Members(s) == Members(front) + {last};
    }
  }

  /** The adaptive options depend on the set of experiments and not on the order they were run in:
      the same ids, and the same candidate behind the finish. */
  lemma OrderDoesNotMatter(g: History, h: History, refs: seq<EvidenceRef>, refs': seq<EvidenceRef>)
    requires g.baseline == h.baseline && g.failed == h.failed
    requires DistinctVariants(g.experiments) && DistinctVariants(h.experiments)
    requires SameExperiments(g.experiments, h.experiments)
    ensures OptionIds(OptionsFor(g, refs)) == OptionIds(OptionsFor(h, refs'))
    ensures |OptionsFor(g, refs)| == |OptionsFor(h, refs')|
    ensures forall i :: 0 <= i < |OptionsFor(g, refs)| ==>
              var x, y := OptionsFor(g, refs)[i].decision, OptionsFor(h, refs')[i].decision;
              if x.Finish? then y == x.(refs := refs') else x == y
  {
    hide DistinctVariants, Tested, Passing, Best, SameExperiments;
    BestPassingIsCanonical(g.experiments, h.experiments) by { SameSets(g.experiments, h.experiments); }
    DistinctCount(g.experiments);
    DistinctCount(h.experiments);
    SameSets(g.experiments, h.experiments);
    forall v ensures Tested(g.experiments, v) == Tested(h.experiments, v) {
      if Tested(g.experiments, v) { SameTested(g.experiments, h.experiments, v); }
      if Tested(h.experiments, v) { SameSets(g.experiments, h.experiments); SameTested(h.experiments, g.experiments, v); }
    }
    if g.baseline.Some? {
      RunOptionsAre(g.baseline.value.runId, g.experiments);
      RunOptionsAre(g.baseline.value.runId, h.experiments);
    }
    assert OptionIds(OptionsFor(g, refs)) == OptionIds(OptionsFor(h, refs'));
  }

  lemma SameSets(a: seq<Experiment>, b: seq<Experiment>)
    requires SameExperiments(a, b)
    ensures Members(a) == Members(b) && SameExperiments(b, a)
  {
  }

  /** Once the fixed planner has tried all three candidates, the adaptive policy on the same
      experiments, in any order, offers the finish with the same outcome and the same candidate. */
  lemma PoliciesAgree(task: Task, fixed: seq<Observation>, adaptive: seq<Observation>, d: Decision)
    requires ExpectedDecision(fixed) == Some(d) && d.Finish? && d.outcome != Inconclusive
    requires |ObservedExperiments(fixed)| == 3 && SameExperiments(ObservedExperiments(fixed), ObservedExperiments(adaptive))
    requires task.RetrievalTask? && task.policy == AdaptiveLlm
    requires HistoryOf(adaptive).Some? && !HistoryOf(adaptive).value.failed
    ensures DeriveOptions(task, adaptive).Some? && |DeriveOptions(task, adaptive).value| == 1
    ensures var finish := DeriveOptions(task, adaptive).value[0].decision;
            && finish.Finish? && finish.outcome == d.outcome
            && VariantOfReason(finish.finishReason) == VariantOfReason(d.finishReason)
  {
    hide Experimental, ValidExperiment, SameExperiments, Best, Passing, ProgressOf, HistoryOf, ObservedExperiments,
      FixedFinish, RefsOf, LinesOf, ExperimentLines, SuccessfulEvidence, Tested, RunVariant, Members;
    var f, a, h := ObservedExperiments(fixed), ObservedExperiments(adaptive), HistoryOf(adaptive).value;
    PlannerProgress(fixed);
    var p := ProgressOf(fixed);
    var baseline :| StoppedOk(fixed, d, baseline, p.experiments);
    ExperimentalDistinct(baseline, f);
    AdaptiveHistory(adaptive);
    ExperimentalDistinct(BaselineId(h), a);
    SameSets(f, a);
    DistinctCount(f);
    DistinctCount(a);
    BestPassingIsCanonical(f, a);
    FixedFinishSays(d, f);
    AllTested(a);
    RunOptionsAre(h.baseline.value.runId, a);
  }

  lemma AllTested(s: seq<Experiment>)
    requires DistinctVariants(s) && |s| == 3
    ensures forall v :: Tested(s, v)
  {
    assert s[0].variant != s[1].variant && s[0].variant != s[2].variant && s[1].variant != s[2].variant;
    forall v ensures Tested(s, v) {
      ThreeVariants(s[0].variant, s[1].variant, s[2].variant, v);
      assert s[0].variant == v || s[1].variant == v || s[2].variant == v;
    }
  }

  lemma FixedFinishSays(d: Decision, experiments: seq<Experiment>)
    requires FixedFinish(d, experiments)
    ensures d.outcome == ProposalReady ==>
              Passing(experiments) != [] && VariantOfReason(d.finishReason) == Some(Best(Passing(experiments)).variant)
    ensures d.outcome == NoSafeImprovement ==> Passing(experiments) == []
    ensures d.outcome in {ProposalReady, NoSafeImprovement, Inconclusive}
    ensures d.outcome != ProposalReady ==> VariantOfReason(d.finishReason) == None
  {
  }
}
