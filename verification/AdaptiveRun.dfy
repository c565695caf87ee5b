/** The adaptive policy under its runtime policy, whatever option the selector picks each turn. */
module AdaptiveRun {
  import opened CompliantRuns
  import opened Contracts
  import opened Grounding
  import opened Replay
  import opened ReplayCompleteness
  import opened RetrievalEvidence
  import opened RetrievalOutcomes
  import opened RetrievalPolicy
  import opened RetrievalRuns
  import opened RetrievalSelection
  import opened Runtime
  import opened Trace
  import opened TraceLanguage
  import RetrievalPlanner

  /** A reply that picks option i and audits it. */
  predicate Picks(reply: PlannerReply, options: seq<PolicyOption>, i: int, binding: AuditBinding, policy: RuntimePolicy) {
    && 0 <= i < |options| && reply.Replied? && reply.decision.Proposed?
    && reply.decision.decision == options[i].decision && reply.decision.bytes <= policy.maxDecisionBytes
    && reply.audit.AuditTaken? && reply.audit.audit.Some?
    && var audit := reply.audit.audit.value;
    && audit.selectedOption == options[i].id && audit.optionCount == |options| && audit.binding == binding
  }

  /** Any selector: asked with options on the table, it picks one of them. */
  ghost predicate Selecting(task: Task, env: Environment, binding: AuditBinding, policy: RuntimePolicy) {
    forall view: View {:trigger env.planner(view)} :: view.task == task ==>
      match DeriveOptions(task, view.observations)
      case None => env.planner(view).Raised?
      case Some(options) =>
        if options == [] then env.planner(view).Raised?
        else exists i :: Picks(env.planner(view), options, i, binding, policy)
  }

  ghost predicate Setup(cfg: Config, task: Task, env: Environment, binding: AuditBinding) {
    && cfg.registry == REGISTRY && cfg.policy == ADAPTIVE_POLICY && cfg.plannerId == LlmPlanner
    && task.RetrievalTask? && task.policy == AdaptiveLlm
    && Selecting(task, env, binding, cfg.policy) && MatchingTools(env) && NoOverrun(cfg.policy, env)
    && DistinctActionDigests(cfg.hashes)
  }

  // ----- The option set -----

  lemma UntestedLeft(experiments: seq<Experiment>)
    requires DistinctVariants(experiments) && |experiments| <= 3 && forall v :: Tested(experiments, v)
    ensures |experiments| == 3
  {
    assert Tested(experiments, Uniform) && Tested(experiments, Conservative) && Tested(experiments, Aggressive);
  }

  /** Until a tool fails there is always something to choose: the error about a policy without a
      safe decision is never raised. */
  lemma OptionsRemain(task: Task, observations: seq<Observation>)
    requires task.RetrievalTask? && task.policy == AdaptiveLlm
    requires HistoryOf(observations).Some? && !HistoryOf(observations).value.failed
    ensures DeriveOptions(task, observations).Some? && DeriveOptions(task, observations).value != []
  {
    hide HistoryOf, OptionsFor, Experimental, DistinctVariants;
    var h := HistoryOf(observations).value;
    AdaptiveHistory(observations);
    ExperimentalDistinct(BaselineId(h), h.experiments);
    SomethingOffered(h, SuccessfulEvidence(observations));
  }

  lemma SomethingOffered(h: History, refs: seq<EvidenceRef>)
    requires !h.failed && DistinctVariants(h.experiments) && |h.experiments| <= 3
    ensures OptionsFor(h, refs) != []
  {
    hide Tested, Passing, Best, RunOptions, RunVariant, DistinctVariants, FinishReason;
    if h.baseline.Some? {
      RunOptionsAre(h.baseline.value.runId, h.experiments);
      if Tested(h.experiments, Uniform) && Tested(h.experiments, Conservative) && Tested(h.experiments, Aggressive) {
        forall v ensures Tested(h.experiments, v) {
          assert v == Uniform || v == Conservative || v == Aggressive;
        }
        UntestedLeft(h.experiments);
      }
    }
  }

  // What an offered tool option is.
  lemma OfferedTool(h: History, refs: seq<EvidenceRef>, option: PolicyOption)
    requires option in OptionsFor(h, refs) && option.decision.ToolAction?
    ensures h.baseline.None? ==> option == DIAGNOSE
    ensures h.baseline.Some? ==>
              exists v :: !Tested(h.experiments, v) && option == RunVariant(h.baseline.value.runId, v)
  {
    hide Tested, Passing, Best, RunOptions, RunVariant;
    if h.baseline.Some? {
      var b := h.baseline.value.runId;
      RunOptionsAre(b, h.experiments);
      assert option == RunVariant(b, Uniform) || option == RunVariant(b, Conservative) || option == RunVariant(b, Aggressive);
    }
  }

  // ----- The run -----

  // Nothing that can still be chosen was dispatched before.
  ghost predicate Unasked(cfg: Config, s: RunState, h: History) {
    && (h.baseline.None? ==> Attempts(s, cfg.hashes.action(DiagnoseBaseline, DIAGNOSE_ARGUMENTS)) == 0)
    && (forall b, v :: !Tested(h.experiments, v) ==>
          Attempts(s, cfg.hashes.action(RunCandidate, CandidateArguments(b, v))) == 0)
  }

  function Successes(h: History): nat {
    (if h.baseline.Some? then 1 else 0) + |h.experiments|
  }

  ghost predicate Choosing(cfg: Config, s: RunState, h: History) {
    && HistoryOf(s.observations) == Some(h) && !h.failed
    && s.steps == s.calls == s.creations == |s.observations| == Successes(h) && s.failures == 0
    && Unasked(cfg, s, h)
  }

  lemma SetupMeans(cfg: Config, task: Task, env: Environment, binding: AuditBinding)
    requires Setup(cfg, task, env, binding)
    ensures cfg.Valid() && cfg.policy == ADAPTIVE_POLICY && cfg.registry == REGISTRY
    ensures cfg.policy.maxFailures == 1 && cfg.policy.maxSteps == 6
    ensures task.RetrievalTask? && task.policy == AdaptiveLlm && DistinctActionDigests(cfg.hashes)
  {
    hide Selecting, MatchingTools, NoOverrun, DistinctActionDigests;
  }

  lemma HistoryMeans(observations: seq<Observation>, h: History)
    requires HistoryOf(observations) == Some(h)
    ensures h.baseline.None? ==> h.experiments == []
    ensures Successes(h) <= 4 && ObservedExperiments(observations) == h.experiments
    ensures Experimental(BaselineId(h), h.experiments)
  {
    hide Experimental, HistoryOf;
    AdaptiveHistory(observations);
    ExperimentalDistinct(BaselineId(h), h.experiments);
  }

  lemma FewerThanThree(h: History, observations: seq<Observation>, v: Variant)
    requires HistoryOf(observations) == Some(h) && !Tested(h.experiments, v)
    ensures |h.experiments| <= 2
  {
    hide Experimental, HistoryOf;
    HistoryMeans(observations, h);
    ExperimentalDistinct(BaselineId(h), h.experiments);
    var e := h.experiments;
    if |e| >= 3 {
      assert e[0].variant != e[1].variant && e[0].variant != e[2].variant && e[1].variant != e[2].variant;
      assert Tested(e, e[0].variant) && Tested(e, e[1].variant) && Tested(e, e[2].variant);
      ThreeVariants(e[0].variant, e[1].variant, e[2].variant, v);
    }
  }

  /** The selector's choice is taken as it is, and resolves to the option it was made from. */
  lemma ChoiceTaken(cfg: Config, task: Task, env: Environment, binding: AuditBinding, s: RunState, h: History)
    returns (option: PolicyOption, audit: Option<Audit>)
    requires Setup(cfg, task, env, binding) && Choosing(cfg, s, h)
    ensures option in OptionsFor(h, SuccessfulEvidence(s.observations))
    ensures Consult(cfg, env, CurrentView(cfg, task, env, s)) == Decided(option.decision, audit)
    ensures AuditBound(task, s.observations, option.decision, audit)
    ensures OptionForDecision(task, s.observations, option.decision) == Some(option)
  {
    hide MatchingTools, DistinctActionDigests, HistoryOf, Matching, OptionsFor, Unasked, OptionForDecision;
    var view := CurrentView(cfg, task, env, s);
    assert env.clockMs(2 * view.stepsUsed) <= cfg.policy.maxElapsedMs as real;
    OptionsRemain(task, s.observations);
    var options := DeriveOptions(task, s.observations).value;
    var reply := env.planner(view);
    var i :| Picks(reply, options, i, binding, cfg.policy);
    option, audit := options[i], reply.audit.audit;
    OfferedResolves(task, s.observations, i);
    if option.decision.Finish? {
      OfferedResolvesFinish(task, s.observations, option);
      AllowedFinishIsGrounded(task, s.observations, option.decision);
    }
  }

  lemma OfferedResolvesFinish(task: Task, observations: seq<Observation>, option: PolicyOption)
    requires task.RetrievalTask? && task.policy == AdaptiveLlm
    requires OptionForDecision(task, observations, option.decision) == Some(option)
    ensures RetrievalFinishAllowed(task, option.decision, observations)
  {
  }

  // An offered tool option asks one of the two retrieval tools for something not asked before.
  lemma ChoiceAllowed(cfg: Config, task: Task, s: RunState, h: History, option: PolicyOption)
    requires cfg.policy == ADAPTIVE_POLICY && Choosing(cfg, s, h)
    requires task.RetrievalTask? && task.policy == AdaptiveLlm
    requires option in OptionsFor(h, SuccessfulEvidence(s.observations)) && option.decision.ToolAction?
    requires OptionForDecision(task, s.observations, option.decision) == Some(option)
    ensures Denied(cfg, s, option.decision).None? && s.calls <= 3
    ensures option.decision.tool in {DiagnoseBaseline, RunCandidate} && CreatesRun(option.decision.tool)
    ensures ActionScope(task, option.decision, s.observations).InScope?
  {
    hide HistoryOf, OptionsFor, OptionForDecision, Tested;
    HistoryMeans(s.observations, h);
    OfferedTool(h, SuccessfulEvidence(s.observations), option);
    if h.baseline.Some? {
      var v :| !Tested(h.experiments, v) && option == RunVariant(h.baseline.value.runId, v);
      FewerThanThree(h, s.observations, v);
      assert option.decision.arguments == CandidateArguments(h.baseline.value.runId, v);
    }
  }

  lemma ChoiceAnswered(cfg: Config, task: Task, env: Environment, binding: AuditBinding, s: RunState, action: Decision)
    requires Setup(cfg, task, env, binding) && action.ToolAction? && action.tool in {DiagnoseBaseline, RunCandidate}
    requires ActionScope(task, action, s.observations).InScope?
    ensures var reply := env.tool(CurrentView(cfg, task, env, s), action);
            var (o, violation) := ExecuteTool(cfg, task, action, s.observations, reply);
            !violation && Answered(action, s.observations, o)
  {
    hide ActionScope, ExecuteTool, Answered, MatchingReply, Selecting, NoOverrun, DistinctActionDigests;
    var view := CurrentView(cfg, task, env, s);
    assert MatchingReply(action, view.observations, env.tool(view, action));
    DispatchAnswers(cfg, task, action, s.observations, env.tool(view, action));
  }

  /** A matching success is admitted whatever was chosen, and leaves the rest unasked. */
  lemma AdmitAnswer(s: RunState, h: History, option: PolicyOption, o: Observation)
    requires HistoryOf(s.observations) == Some(h) && !h.failed
    requires option in OptionsFor(h, SuccessfulEvidence(s.observations)) && option.decision.ToolAction?
    requires o.succeeded && Answered(option.decision, s.observations, o)
    ensures var next := HistoryOf(s.observations + [o]);
            && next.Some? && !next.value.failed && Successes(next.value) == Successes(h) + 1
            && (forall v :: Tested(h.experiments, v) ==> Tested(next.value.experiments, v))
            && next.value.baseline.Some?
            && (option.decision.tool == RunCandidate ==>
                  forall b, v :: option.decision.arguments == CandidateArguments(b, v) ==> Tested(next.value.experiments, v))
  {
    hide HistoryOf, OptionsFor, Experimental, ParseBaseline, ParseExperiment, Tested;
    HistoryMeans(s.observations, h);
    OfferedTool(h, SuccessfulEvidence(s.observations), option);
    HistoryAppend(s.observations, o, h);
    if h.baseline.Some? {
      var v :| !Tested(h.experiments, v) && option == RunVariant(h.baseline.value.runId, v);
      assert option.decision.arguments == CandidateArguments(h.baseline.value.runId, v);
      var e := ParseExperiment(o.ref, o.payload).value;
      CandidateArgumentsDiffer(h.baseline.value.runId, v, e.baselineRunId, e.variant);
      UntestedIsFresh(h.experiments, e);
      TestedAppend(h.experiments, e);
      forall b, w | option.decision.arguments == CandidateArguments(b, w)
        ensures w == e.variant
      {
        CandidateArgumentsDiffer(b, w, e.baselineRunId, e.variant);
      }
    }
  }

  lemma HistoryAppend(front: seq<Observation>, o: Observation, h: History)
    requires HistoryOf(front) == Some(h)
    ensures HistoryOf(front + [o]) == Admit(h, o)
  {
  }

  lemma UntestedIsFresh(experiments: seq<Experiment>, e: Experiment)
    requires !Tested(experiments, e.variant)
    ensures RetrievalPlanner.FreshVariant(e, experiments)
  {
  }

  lemma TestedAppend(experiments: seq<Experiment>, e: Experiment)
    ensures forall v :: Tested(experiments + [e], v) <==> Tested(experiments, v) || v == e.variant
  {
    forall v ensures Tested(experiments + [e], v) <==> Tested(experiments, v) || v == e.variant {
      assert (experiments + [e])[|experiments|] == e;
      if Tested(experiments, v) {
        var i :| 0 <= i < |experiments| && experiments[i].variant == v;
        assert (experiments + [e])[i].variant == v;
      }
    }
  }

  lemma ChoiceStep(
    cfg: Config, task: Task, env: Environment, s: RunState, h: History, option: PolicyOption, audit: Option<Audit>, o: Observation)
    requires DistinctActionDigests(cfg.hashes) && Choosing(cfg, s, h)
    requires option in OptionsFor(h, SuccessfulEvidence(s.observations)) && option.decision.ToolAction?
    requires CreatesRun(option.decision.tool)
    requires o.succeeded && Answered(option.decision, s.observations, o)
    ensures HistoryOf(s.observations + [o]).Some?
    ensures Choosing(cfg, Perform(cfg, task, env, s, option.decision, audit, o), HistoryOf(s.observations + [o]).value)
  {
    hide HistoryOf, OptionsFor, Answered, Tested, ActionEvents, CreatesRun;
    var action, next := option.decision, Perform(cfg, task, env, s, option.decision, audit, o);
    AdmitAnswer(s, h, option, o);
    OfferedTool(h, SuccessfulEvidence(s.observations), option);
    var h' := HistoryOf(s.observations + [o]).value;
    forall b, v | !Tested(h'.experiments, v)
      ensures Attempts(next, cfg.hashes.action(RunCandidate, CandidateArguments(b, v))) == 0
    {
      assert !Tested(h.experiments, v);
      assert Attempts(s, cfg.hashes.action(RunCandidate, CandidateArguments(b, v))) == 0;
      assert action.tool == RunCandidate ==> action.arguments != CandidateArguments(b, v);
    }
  }

  /** How an adaptive run ends: with a finish the policy offered on the run's own observations, or
      because a tool failed; never for want of options, steps, calls, runs or attempts. */
  ghost predicate Ends(task: Task, trace: AgentTrace) {
    var terminal, observations := trace.terminal, ObservationsBefore(trace.events, |trace.events|);
    var n := |observations|;
    && terminal.toolCallsUsed == n <= 4 && terminal.stepsUsed <= 5
    && (if terminal.state == Completed then
          var d := Finish(terminal.outcome, terminal.refs, terminal.reason);
          && task.RetrievalTask? && RetrievalFinishAllowed(task, d, observations)
          && terminal.outcome in {ProposalReady, NoSafeImprovement}
          && (forall i :: 0 <= i < n ==> observations[i].succeeded)
        else
          && terminal.state == Failed && terminal.reason == FailureBudgetExhausted
          && n > 0 && !observations[n - 1].succeeded && HistoryOf(observations).Some? && HistoryOf(observations).value.failed
          && forall i :: 0 <= i < n - 1 ==> observations[i].succeeded)
  }

  ghost predicate Unfailed(observations: seq<Observation>) {
    HistoryOf(observations).Some? && !HistoryOf(observations).value.failed
  }

  lemma {:induction false} UnfailedSucceeded(observations: seq<Observation>)
    requires Unfailed(observations)
    ensures forall i :: 0 <= i < |observations| ==> observations[i].succeeded
  {
    hide Admit;
    if observations != [] {
      var front, o := observations[..|observations| - 1], observations[|observations| - 1];
      AdmitUnfailed(HistoryOf(front).value, o);
      UnfailedSucceeded(front);
    }
  }

  lemma AdmitUnfailed(h: History, o: Observation)
    requires Admit(h, o).Some? && !Admit(h, o).value.failed
    ensures !h.failed && o.succeeded
  {
  }

  lemma FinishEnds(
    cfg: Config, task: Task, env: Environment, s: RunState, h: History, option: PolicyOption, audit: Option<Audit>)
    requires Simulates(cfg, task, env, s) && Choosing(cfg, s, h) && task.RetrievalTask? && task.policy == AdaptiveLlm
    requires option in OptionsFor(h, SuccessfulEvidence(s.observations)) && option.decision.Finish?
    requires OptionForDecision(task, s.observations, option.decision) == Some(option)
    ensures Ends(task, Complete(cfg, task, env, s, s.steps + 1, option.decision, audit))
  {
    hide HistoryOf, OptionsFor, OptionForDecision, Unasked, Written, Experimental, Recorded, Reporting.TerminalReport;
    SimulatesObservations(cfg, task, env, s);
    FinalObservations(cfg, task, env, s, option.decision, audit);
    OfferedFinish(h, SuccessfulEvidence(s.observations), option);
    HistoryMeans(s.observations, h);
    UnfailedSucceeded(s.observations);
    OfferedResolvesFinish(task, s.observations, option);
    FinishShape(option.decision, h.experiments);
  }

  lemma FinishShape(d: Decision, experiments: seq<Experiment>)
    requires FixedFinish(d, experiments) && d.outcome != Inconclusive
    ensures d.outcome in {ProposalReady, NoSafeImprovement}
  {
  }

  // The final event adds no observation.
  lemma FinalObservations(cfg: Config, task: Task, env: Environment, s: RunState, finish: Decision, audit: Option<Audit>)
    ensures finish.Finish? ==>
              var trace := Complete(cfg, task, env, s, s.steps + 1, finish, audit);
              ObservationsBefore(trace.events, |trace.events|) == ObservationsBefore(s.events, |s.events|)
    ensures forall steps, reason :: var trace := Fail(cfg, task, env, s, steps, reason);
              ObservationsBefore(trace.events, |trace.events|) == ObservationsBefore(s.events, |s.events|)
  {
    hide Reporting.TerminalReport, SuccessfulEvidence;
    if finish.Finish? {
      var trace := Complete(cfg, task, env, s, s.steps + 1, finish, audit);
      ObservationsPrefix(s.events, trace.events, |s.events|);
    }
    forall steps, reason
      ensures var trace := Fail(cfg, task, env, s, steps, reason);
              ObservationsBefore(trace.events, |trace.events|) == ObservationsBefore(s.events, |s.events|)
    {
      var trace := Fail(cfg, task, env, s, steps, reason);
      ObservationsPrefix(s.events, trace.events, |s.events|);
    }
  }

  lemma FailureEnds(
    cfg: Config, task: Task, env: Environment, s: RunState, h: History, action: Decision, audit: Option<Audit>, o: Observation)
    requires Choosing(cfg, s, h) && s.calls <= 3 && action.ToolAction? && !o.succeeded && Answered(action, s.observations, o)
    requires Simulates(cfg, task, env, Perform(cfg, task, env, s, action, audit, o))
    ensures var next := Perform(cfg, task, env, s, action, audit, o);
            next.failures == 1 && Ends(task, Fail(cfg, task, env, next, next.steps, FailureBudgetExhausted))
  {
    hide HistoryOf, Unasked, Simulates, Fail, Perform, ActionEvents, ObservationsBefore, RetrievalFinishAllowed, Admit,
      Answered;
    var next := Perform(cfg, task, env, s, action, audit, o);
    PerformFields(cfg, task, env, s, action, audit, o);
    SimulatesObservations(cfg, task, env, next);
    FinalObservations(cfg, task, env, next, action, audit);
    FailTerminal(cfg, task, env, next, next.steps, FailureBudgetExhausted);
    HistoryAppend(s.observations, o, h);
    FailureAdmitted(h, action, s.observations, o);
    UnfailedSucceeded(s.observations);
  }

  lemma FailTerminal(cfg: Config, task: Task, env: Environment, s: RunState, steps: nat, reason: Reason)
    ensures var terminal := Fail(cfg, task, env, s, steps, reason).terminal;
            && terminal.state == Failed && terminal.reason == reason
            && terminal.toolCallsUsed == s.calls && terminal.stepsUsed == steps
  {
    hide Recorded, Reporting.TerminalReport, SuccessfulEvidence;
  }

  lemma FailureAdmitted(h: History, action: Decision, observations: seq<Observation>, o: Observation)
    requires !h.failed && action.ToolAction? && !o.succeeded && Answered(action, observations, o)
    ensures Admit(h, o) == Some(h.(failed := true))
  {
  }

  lemma {:induction false} ChoosingEnds(cfg: Config, task: Task, env: Environment, binding: AuditBinding, s: RunState, h: History)
    requires Setup(cfg, task, env, binding) && Simulates(cfg, task, env, s) && Choosing(cfg, s, h)
    ensures Ends(task, RunFrom(cfg, task, env, s))
    decreases cfg.policy.maxSteps - s.steps
  {
    hide *;
    SetupMeans(cfg, task, env, binding);
    ChoosingMeans(cfg, s, h);
    var option, audit := ChoiceTaken(cfg, task, env, binding, s, h);
    var d := option.decision;
    RunStops(cfg, task, env, s);
    if d.Finish? {
      OfferedResolvesFinish(task, s.observations, option);
      AllowedFinishIsGrounded(task, s.observations, d);
      FinishEnds(cfg, task, env, s, h, option, audit);
    } else {
      ChoiceAllowed(cfg, task, s, h, option);
      RunActs(cfg, task, env, s, d, audit);
      ChoiceAnswered(cfg, task, env, binding, s, d);
      var reply := env.tool(CurrentView(cfg, task, env, s), d);
      var o := ExecuteTool(cfg, task, d, s.observations, reply).0;
      PerformSimulates(cfg, task, env, s, d, audit, reply);
      PerformFields(cfg, task, env, s, d, audit, o);
      if o.succeeded {
        ChoiceStep(cfg, task, env, s, h, option, audit, o);
        var next := HistoryOf(s.observations + [o]).value;
        ChoosingMeans(cfg, Perform(cfg, task, env, s, d, audit, o), next);
        ChoosingEnds(cfg, task, env, binding, Perform(cfg, task, env, s, d, audit, o), next);
      } else {
        FailureEnds(cfg, task, env, s, h, d, audit, o);
      }
    }
  }

  lemma ChoosingMeans(cfg: Config, s: RunState, h: History)
    requires Choosing(cfg, s, h)
    ensures HistoryOf(s.observations) == Some(h) && s.steps <= 4 && s.failures == 0
  {
    hide HistoryOf, Unasked;
    HistoryMeans(s.observations, h);
  }

  /** Whatever a selector picks, the run ends within four calls and five steps, replays, and stops
      short of a decision only because a tool failed. */
  lemma AnySelectorEnds(cfg: Config, task: Task, env: Environment, binding: AuditBinding)
    requires Setup(cfg, task, env, binding)
    ensures Ends(task, RunTrace(cfg, task, env))
    ensures Accepted(cfg.hashes, RunTrace(cfg, task, env))
  {
    hide *;
    SetupMeans(cfg, task, env, binding);
    RunStarts(cfg, task, env);
    StartsChoosing(cfg, task, env);
    ChoosingEnds(cfg, task, env, binding, Runtime.START, History(None, [], false));
    SetupComplies(cfg, task, env, binding);
    CompliantRunReplays(cfg, task, env, binding);
  }

  lemma StartsChoosing(cfg: Config, task: Task, env: Environment)
    ensures Simulates(cfg, task, env, Runtime.START) && Choosing(cfg, Runtime.START, History(None, [], false))
  {
  }

  lemma SetupComplies(cfg: Config, task: Task, env: Environment, binding: AuditBinding)
    requires Setup(cfg, task, env, binding)
    ensures Compliant(cfg, task, env, binding)
  {
    hide DeriveOptions, MatchingTools, NoOverrun, DistinctActionDigests;
    forall view: View | view.task == task
      ensures HonestReply(task, view.observations, env.planner(view), binding)
    {
      assert env.planner(view).Raised? || env.planner(view).Replied?;
    }
  }
}
