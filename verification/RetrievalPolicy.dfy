/** The adaptive policy: a finite option set any selector may choose from (retrieval_policy.py). */
module RetrievalPolicy {
  import opened Contracts
  import opened RetrievalEvidence
  import RetrievalPlanner

  datatype History = History(baseline: Option<BaselineSummary>, experiments: seq<Experiment>, failed: bool)

  datatype PolicyOption = PolicyOption(id: OptionId, decision: Decision)

  const VARIANTS: seq<Variant> := [Uniform, Conservative, Aggressive]

  // One loop iteration; None is a raised error.
  function Admit(h: History, o: Observation): Option<History> {
    if h.failed then None
    else if !o.succeeded then
      if RetrievalPlanner.WellFormedFailure(o) then Some(h.(failed := true)) else None
    else if !RetrievalPlanner.WellFormedSuccess(o) then None
    else if o.tool == DiagnoseBaseline then
      if h.baseline.Some? || h.experiments != [] then None
      else
        match ParseBaseline(o.ref, o.payload)
        case None => None
        case Some(b) => Some(h.(baseline := Some(b)))
    else if o.tool != RunCandidate || h.baseline.None? then None
    else
      match ParseExperiment(o.ref, o.payload)
      case None => None
      case Some(e) =>
        if e.baselineRunId != h.baseline.value.runId then None
        else if !RetrievalPlanner.FreshVariant(e, h.experiments) || !RetrievalPlanner.FreshEvidence(e, h.experiments)
        then None
        else Some(h.(experiments := h.experiments + [e]))
  }

  /** The validated history, in whatever order the candidates were run. */
  function HistoryOf(observations: seq<Observation>): Option<History> {
    if observations == [] then Some(History(None, [], false))
    else
      match HistoryOf(observations[..|observations| - 1])
      case None => None
      case Some(h) => Admit(h, observations[|observations| - 1])
  }

  function RunOption(v: Variant): OptionId {
    match v
    case Uniform => RunUniformOption
    case Conservative => RunConservativeOption
    case Aggressive => RunAggressiveOption
  }

  function RunReason(v: Variant): Reason {
    match v
    case Uniform => LlmTestUniform
    case Conservative => LlmTestConservative
    case Aggressive => LlmTestAggressive
  }

  function FinishReason(v: Variant): Reason {
    match v
    case Uniform => LlmUniformSelected
    case Conservative => LlmConservativeSelected
    case Aggressive => LlmAggressiveSelected
  }

  predicate Tested(experiments: seq<Experiment>, v: Variant) {
    exists i :: 0 <= i < |experiments| && experiments[i].variant == v
  }

  const DIAGNOSE := PolicyOption(
    DiagnoseOption,
    ToolAction(DiagnoseBaseline, map[ProfileKey := ProfileName(Smoke)], LlmDiagnoseBaseline))

  function RunVariant(runId: Id, v: Variant): PolicyOption {
    PolicyOption(
      RunOption(v),
      ToolAction(RunCandidate, map[BaselineRunKey := Text(runId), VariantKey := PipelineName(v)], RunReason(v)))
  }

  // The options of the untested variants among `variants`, in trusted order.
  function RunOptions(runId: Id, experiments: seq<Experiment>, variants: seq<Variant>): seq<PolicyOption> {
    if variants == [] then []
    else
      var rest := RunOptions(runId, experiments, variants[..|variants| - 1]);
      var v := variants[|variants| - 1];
      if Tested(experiments, v) then rest else rest + [RunVariant(runId, v)]
  }

  function FinishOptions(experiments: seq<Experiment>, refs: seq<EvidenceRef>): seq<PolicyOption> {
    var passing := Passing(experiments);
    if passing != [] then
      [PolicyOption(FinishBestOption, Finish(ProposalReady, refs, FinishReason(Best(passing).variant)))]
    else if |experiments| == |VARIANTS| then
      [PolicyOption(FinishNoSafeOption, Finish(NoSafeImprovement, refs, LlmNoSafeCandidate))]
    else []
  }

  function OptionsFor(h: History, refs: seq<EvidenceRef>): seq<PolicyOption> {
    if h.failed then []
    else if h.baseline.None? then [DIAGNOSE]
    else RunOptions(h.baseline.value.runId, h.experiments, VARIANTS) + FinishOptions(h.experiments, refs)
  }

  /** The complete option set of one turn; None is a raised error.  The set is empty only after a
      failed tool. */
  function DeriveOptions(task: Task, observations: seq<Observation>): Option<seq<PolicyOption>> {
    if !task.RetrievalTask? || task.policy != AdaptiveLlm then None
    else
      match HistoryOf(observations)
      case None => None
      case Some(h) =>
        var options := OptionsFor(h, SuccessfulEvidence(observations));
        if options == [] && !h.failed then None else Some(options)
  }

  // How many options carry this decision.
  function Matching(options: seq<PolicyOption>, decision: Decision): seq<PolicyOption> {
    if options == [] then []
    else
      Matching(options[..|options| - 1], decision) +
      if options[|options| - 1].decision == decision then [options[|options| - 1]] else []
  }

  /** Resolves a decision back to the one option that offers it. */
  function OptionForDecision(task: Task, observations: seq<Observation>, decision: Decision): Option<PolicyOption> {
    match DeriveOptions(task, observations)
    case None => None
    case Some(options) =>
      var matches := Matching(options, decision);
      if |matches| == 1 then Some(matches[0]) else None
  }

  // ----- The loops as written -----

  lemma {:induction false} RejectedStaysRejected(observations: seq<Observation>, k: nat)
    requires k <= |observations| && HistoryOf(observations[..k]).None?
    ensures HistoryOf(observations).None?
    decreases |observations|
  {
    var n := |observations| - 1;
    if k == |observations| {
      assert observations[..k] == observations;
    } else {
      assert observations[..n][..k] == observations[..k];
      RejectedStaysRejected(observations[..n], k);
    }
  }

  method AnalyzeAdaptiveHistory(observations: seq<Observation>) returns (r: Option<History>)
    ensures r == HistoryOf(observations)
  {
    var history := History(None, [], false);
    for i := 0 to |observations|
      invariant HistoryOf(observations[..i]) == Some(history)
    {
      assert observations[..i + 1][..i] == observations[..i];
      var admitted := Admit(history, observations[i]);
      if admitted.None? {
        RejectedStaysRejected(observations, i + 1);
        return None;
      }
      history := admitted.value;
    }
    assert observations[..|observations|] == observations;
    return Some(history);
  }

  method DeriveAdaptiveOptions(task: Task, observations: seq<Observation>)
    returns (r: Option<seq<PolicyOption>>)
    ensures r == DeriveOptions(task, observations)
  {
    if !task.RetrievalTask? || task.policy != AdaptiveLlm {
      return None;
    }
    var analyzed := AnalyzeAdaptiveHistory(observations);
    if analyzed.None? {
      return None;
    }
    var history := analyzed.value;
    if history.failed {
      return Some([]);
    }
    if history.baseline.None? {
      return Some([DIAGNOSE]);
    }
    var options := [];
    for i := 0 to |VARIANTS|
      invariant options == RunOptions(history.baseline.value.runId, history.experiments, VARIANTS[..i])
    {
      assert VARIANTS[..i + 1][..i] == VARIANTS[..i];
      if !Tested(history.experiments, VARIANTS[i]) {
        options := options + [RunVariant(history.baseline.value.runId, VARIANTS[i])];
      }
    }
    assert VARIANTS[..|VARIANTS|] == VARIANTS;
    options := options + FinishOptions(history.experiments, SuccessfulEvidence(observations));
    return if options == [] then None else Some(options);
  }
}
