/** Completed retrieval runs: every action of theirs was in scope and truly answered, so that the
    public summary of the run can always be built. */
module AnsweredRuns {
  import opened CompliantRuns
  import opened Contracts
  import opened Grounding
  import opened Replay
  import opened ReplayCompleteness
  import opened RetrievalOutcomes
  import opened RetrievalPolicy
  import opened RetrievalRuns
  import opened RetrievalSelection
  import opened RunSummary
  import opened Runtime
  import opened Trace
  import opened TraceLanguage
  import RetrievalPlanner

  // ----- Actions in scope -----

  predicate RetrievalAction(action: Decision) {
    && action.ToolAction? && action.tool in {DiagnoseBaseline, RunCandidate}
    && (action.tool == RunCandidate ==> VariantKey in action.arguments && action.arguments[VariantKey].PipelineName?)
  }

  /** The scope of a retrieval task admits the two retrieval tools only, a candidate by its variant. */
  lemma ScopedIsRetrieval(task: Task, action: Decision, observations: seq<Observation>)
    requires task.RetrievalTask? && action.ToolAction? && ActionScope(task, action, observations).InScope?
    ensures RetrievalAction(action)
  {
    hide HistoryOf, RetrievalPlanner.ProgressOf, SuccessfulEvidence, Tested, Matching, Experimental, Recounts;
    if task.policy == FixedSequence {
      PlannerProgress(observations);
    } else {
      var options := DeriveOptions(task, observations).value;
      MatchingMembers(options, action);
      var option := OptionForDecision(task, observations, action).value;
      assert option in Matching(options, action);
      var h := HistoryOf(observations).value;
      if h.baseline.Some? {
        RunOptionsAre(h.baseline.value.runId, h.experiments);
      }
    }
  }

  /** Event i is not an observation, or it answers an action that was in scope. */
  predicate GoodAt(task: Task, events: seq<Event>, i: nat)
    requires i < |events|
  {
    i % 3 == 1 ==>
      && events[i - 1].decision.Known? && events[i - 1].decision.decision.ToolAction?
      && events[i].observation.ValidObservation?
      && RetrievalAction(events[i - 1].decision.decision)
      && RetrievalRuns.Answered(events[i - 1].decision.decision, ObservationsBefore(events, i - 1), events[i].observation.observation)
  }

  ghost predicate LogGood(task: Task, events: seq<Event>) {
    forall i :: 0 <= i < |events| ==> GoodAt(task, events, i)
  }

  lemma GoodSnoc(task: Task, events: seq<Event>, e: Event)
    requires LogGood(task, events) && GoodAt(task, events + [e], |events|)
    ensures LogGood(task, events + [e])
  {
    hide RetrievalRuns.Answered, RetrievalAction;
    forall i | 0 <= i < |events|
      ensures GoodAt(task, events + [e], i)
    {
      assert GoodAt(task, events, i);
      if i > 0 {
        ObservationsPrefix(events, events + [e], i - 1);
      }
    }
  }

  // An observation recorded right after its action.
  lemma ObservedGood(
    task: Task, events: seq<Event>, two: seq<Event>, action: Decision, o: Observation)
    requires |events| % 3 == 0 && |two| == |events| + 2 && events <= two
    requires two[|events|].decision == Known(action) && two[|events| + 1].observation == ValidObservation(o)
    requires action.ToolAction? && RetrievalAction(action)
    requires RetrievalRuns.Answered(action, ObservationsBefore(events, |events|), o)
    ensures GoodAt(task, two, |events| + 1)
  {
    hide RetrievalRuns.Answered, RetrievalAction;
    ObservationsPrefix(events, two, |events|);
  }

  lemma ActionGood(
    cfg: Config, task: Task, env: Environment, s: RunState, action: Decision, audit: Option<Audit>, o: Observation)
    requires LogGood(task, s.events) && |s.events| % 3 == 0 && s.observations == ObservationsBefore(s.events, |s.events|)
    requires action.ToolAction? && RetrievalAction(action) && RetrievalRuns.Answered(action, s.observations, o)
    ensures LogGood(task, ActionEvents(cfg, task, env, s, action, audit, o))
  {
    hide RetrievalRuns.Answered, RetrievalAction, LogGood, GoodAt, Recorded, ObservationsBefore;
    var h, context := cfg.hashes, ContextHash(cfg, task, env);
    var first := ActionEntry(env, s.events, s.state, action, audit);
    var one := Append(cfg, task, env, s.events, first);
    var second := ObservedEntry(env, one, o, s.steps);
    var two := Append(cfg, task, env, one, second);
    RecordedObservation(h, context, s.events, first);
    RecordedObservation(h, context, one, second);
    NotObserved(task, s.events, Recorded(h, context, s.events, first));
    GoodSnoc(task, s.events, Recorded(h, context, s.events, first));
    ObservedGood(task, s.events, two, action, o);
    GoodSnoc(task, one, Recorded(h, context, one, second));
    NotObserved(task, two, Recorded(h, context, two, ProcessedEntry(env, two)));
    GoodSnoc(task, two, Recorded(h, context, two, ProcessedEntry(env, two)));
  }

  lemma RecordedObservation(h: Hashes, contextHash: Digest, events: seq<Event>, entry: Entry)
    ensures var e := Recorded(h, contextHash, events, entry);
            && e.decision == (if entry.decision.Some? then Known(entry.decision.value) else NoDecision)
            && e.observation == (if entry.observation.Some? then ValidObservation(entry.observation.value) else NoObservation)
  {
  }

  lemma CompleteGood(
    cfg: Config, task: Task, env: Environment, s: RunState, steps: nat, finish: Decision, audit: Option<Audit>)
    requires LogGood(task, s.events) && |s.events| % 3 == 0 && finish.Finish?
    ensures LogGood(task, Complete(cfg, task, env, s, steps, finish, audit).events)
  {
    hide LogGood, GoodAt, Recorded;
    var result := CompletedResult(task, env, s.observations, steps, s.calls, finish);
    var e := Recorded(cfg.hashes, ContextHash(cfg, task, env), s.events, CompletedEntry(env, s.events, s.state, finish, audit, result));
    NotObserved(task, s.events, e);
    GoodSnoc(task, s.events, e);
  }

  lemma NotObserved(task: Task, events: seq<Event>, e: Event)
    requires |events| % 3 != 1
    ensures GoodAt(task, events + [e], |events|)
  {
  }

  lemma FailedState(cfg: Config, task: Task, env: Environment, s: RunState, steps: nat, reason: Reason)
    ensures Fail(cfg, task, env, s, steps, reason).terminal.state == Failed
  {
    hide Recorded, SuccessfulEvidence;
  }

  // What is dispatched without a policy violation was in scope.
  lemma UnviolatedInScope(cfg: Config, task: Task, action: Decision, observations: seq<Observation>, reply: ToolReply)
    requires task.RetrievalTask? && action.ToolAction? && !ExecuteTool(cfg, task, action, observations, reply).1
    ensures ActionScope(task, action, observations).InScope?
  {
    hide RetrievalPlanner.ExpectedDecision, OptionForDecision;
  }

  ghost predicate RetrievalSetup(cfg: Config, task: Task, env: Environment) {
    && cfg.Valid() && cfg.registry == REGISTRY && cfg.policy.capabilities == RETRIEVAL_CAPABILITIES
    && task.RetrievalTask? && MatchingTools(env)
  }

  /** A run that completes has dispatched nothing out of scope, and each of its observations answers
      the action before it. */
  lemma {:induction false} CompletedIsGood(cfg: Config, task: Task, env: Environment, s: RunState)
    requires RetrievalSetup(cfg, task, env) && Simulates(cfg, task, env, s) && LogGood(task, s.events)
    requires RunFrom(cfg, task, env, s).terminal.state == Completed
    ensures LogGood(task, RunFrom(cfg, task, env, s).events)
    decreases cfg.policy.maxSteps - s.steps
  {
    hide *;
    SimulatesObservations(cfg, task, env, s);
    SimulatesTriples(cfg, task, env, s);
    RunExhausts(cfg, task, env, s);
    FailedState(cfg, task, env, s, s.steps, StepBudgetExhausted);
    if s.steps < cfg.policy.maxSteps {
      var consulted := Consult(cfg, env, CurrentView(cfg, task, env, s));
      RunStops(cfg, task, env, s);
      if consulted.Refused? {
        FailedState(cfg, task, env, s, s.steps, consulted.reason);
      } else if consulted.decision.Finish? {
        FailedState(cfg, task, env, s, s.steps + 1, UngroundedFinishRejected);
        CompleteGood(cfg, task, env, s, s.steps + 1, consulted.decision, consulted.audit);
      } else {
        ActIsGood(cfg, task, env, s, consulted.decision, consulted.audit);
      }
    }
  }

  lemma SimulatesTriples(cfg: Config, task: Task, env: Environment, s: RunState)
    requires Simulates(cfg, task, env, s)
    ensures |s.events| % 3 == 0
  {
    hide Written;
  }

  lemma {:induction false} ActIsGood(
    cfg: Config, task: Task, env: Environment, s: RunState, action: Decision, audit: Option<Audit>)
    requires RetrievalSetup(cfg, task, env) && Simulates(cfg, task, env, s) && LogGood(task, s.events)
    requires RunFrom(cfg, task, env, s).terminal.state == Completed
    requires s.steps < cfg.policy.maxSteps && action.ToolAction?
    requires Consult(cfg, env, CurrentView(cfg, task, env, s)) == Decided(action, audit)
    ensures LogGood(task, RunFrom(cfg, task, env, s).events)
    decreases cfg.policy.maxSteps - s.steps, 0
  {
    hide *;
    SimulatesObservations(cfg, task, env, s);
    SimulatesTriples(cfg, task, env, s);
    ConsultMeans(cfg, env, CurrentView(cfg, task, env, s));
    ViewTask(cfg, task, env, s);
    RunStops(cfg, task, env, s);
    RunDenies(cfg, task, env, s, action, audit);
    if Denied(cfg, s, action).Some? {
      FailedState(cfg, task, env, s, s.steps + 1, Denied(cfg, s, action).value);
    } else {
      RunActs(cfg, task, env, s, action, audit);
      var reply := env.tool(CurrentView(cfg, task, env, s), action);
      var (o, violation) := ExecuteTool(cfg, task, action, s.observations, reply);
      var next := Perform(cfg, task, env, s, action, audit, o);
      SetupParts(cfg, task, env);
      PerformSimulates(cfg, task, env, s, action, audit, reply);
      PerformFields(cfg, task, env, s, action, audit, o);
      FailedState(cfg, task, env, next, next.steps, PolicyViolation);
      FailedState(cfg, task, env, next, next.steps, FailureBudgetExhausted);
      UnviolatedInScope(cfg, task, action, s.observations, reply);
      ScopedIsRetrieval(task, action, s.observations);
      ToolMatches(cfg, task, env, s, action);
      ActionOf(action);
      DispatchAnswers(cfg, task, action, s.observations, reply);
      ActionGood(cfg, task, env, s, action, audit, o);
      CompletedIsGood(cfg, task, env, next);
    }
  }

  lemma SetupParts(cfg: Config, task: Task, env: Environment)
    requires RetrievalSetup(cfg, task, env)
    ensures cfg.Valid() && cfg.registry == REGISTRY && cfg.policy.capabilities == RETRIEVAL_CAPABILITIES && task.RetrievalTask?
  {
  }

  lemma ToolMatches(cfg: Config, task: Task, env: Environment, s: RunState, action: Decision)
    requires RetrievalSetup(cfg, task, env) && action.ToolAction?
    ensures MatchingReply(action, s.observations, env.tool(CurrentView(cfg, task, env, s), action))
  {
    hide MatchingReply;
    assert CurrentView(cfg, task, env, s).observations == s.observations;
  }

  lemma ActionOf(action: Decision)
    requires RetrievalAction(action)
    ensures action.tool in {DiagnoseBaseline, RunCandidate}
  {
  }

  // ----- The summary -----

  /** An answered retrieval action can be summarized: a failure carries no evidence, and a candidate's
      evidence is of the variant that was asked for. */
  lemma AnsweredIsLined(action: Decision, before: seq<Observation>, o: Observation, sequence: nat, audit: Option<Audit>)
    requires RetrievalAction(action) && RetrievalRuns.Answered(action, before, o)
    ensures SummarizeAction(action, o, sequence, audit).Some?
  {
    hide RetrievalEvidence.ValidExperiment, RetrievalEvidence.ValidBaseline;
    if o.succeeded && action.tool == RunCandidate {
      var e := o.payload.experiment;
      assert action.arguments == CandidateArguments(e.baselineRunId, e.variant);
      assert action.arguments[VariantKey] == PipelineName(e.variant);
    }
  }

  /** Every completed run of the retrieval tools, under any planner that replays, has a summary, with
      one line for each of its calls. */
  lemma CompletedIsSummarized(cfg: Config, task: Task, env: Environment)
    requires RetrievalSetup(cfg, task, env) && RunTrace(cfg, task, env).terminal.state == Completed
    requires Accepted(cfg.hashes, RunTrace(cfg, task, env))
    ensures var trace := RunTrace(cfg, task, env);
            SummaryOf(trace).Some? && |SummaryOf(trace).value.actions| == trace.terminal.toolCallsUsed
  {
    hide *;
    var trace := RunTrace(cfg, task, env);
    RunStarts(cfg, task, env);
    StartsGood(cfg, task, env);
    CompletedIsGood(cfg, task, env, Runtime.START);
    AcceptedShape(cfg.hashes, trace);
    SummaryExactly(cfg.hashes, trace);
    forall j | 0 <= j < trace.terminal.toolCallsUsed
      ensures Lined(trace.events, j)
    {
      GoodIsLined(task, trace.events, j);
    }
  }

  lemma StartsGood(cfg: Config, task: Task, env: Environment)
    ensures Simulates(cfg, task, env, Runtime.START) && LogGood(task, Runtime.START.events)
  {
  }

  lemma GoodIsLined(task: Task, events: seq<Event>, j: nat)
    requires LogGood(task, events) && 3 * j + 1 < |events|
    ensures Lined(events, j)
  {
    hide RetrievalRuns.Answered, RetrievalAction, SummarizeAction;
    assert GoodAt(task, events, 3 * j + 1);
    AnsweredIsLined(events[3 * j].decision.decision, ObservationsBefore(events, 3 * j),
                    events[3 * j + 1].observation.observation, j + 1, AuditOf(events[3 * j]));
  }
}
