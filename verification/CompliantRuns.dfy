/** Which runs replay, said about the planner's answers instead of the log: conditions a planner can
    meet beforehand, and the answers after which a run is stored and never replays. */
module CompliantRuns {
  import opened Contracts
  import opened Grounding
  import opened Replay
  import opened ReplayCompleteness
  import opened RetrievalPolicy
  import opened Runtime
  import opened Trace
  import opened TraceLanguage

  // ----- Honest turns -----

  /** The configuration the planner's first answer is audited with. */
  function OpeningBinding(cfg: Config, task: Task, env: Environment): Option<AuditBinding> {
    var opening := Consult(cfg, env, CurrentView(cfg, task, env, START));
    if opening.Decided? && opening.audit.Some? then Some(opening.audit.value.binding) else None
  }

  /** The planner is the one the task calls for, a run id can be looked up, and an audit counts the
      options truly and keeps the opening configuration. */
  predicate HonestDecision(
    cfg: Config, task: Task, env: Environment, observations: seq<Observation>, decision: Decision, audit: Option<Audit>)
  {
    && (cfg.plannerId == LlmPlanner <==> Adaptive(task))
    && !UnhashableRun(task, decision)
    && (Adaptive(task) ==>
          var options := DeriveOptions(task, observations);
          && audit.Some? && options.Some?
          && audit.value.optionCount == |options.value|
          && Some(audit.value.binding) == OpeningBinding(cfg, task, env))
  }

  // A finish that is not grounded and an action over budget leave no decision in the log.
  predicate WritesDecision(cfg: Config, task: Task, s: RunState, decision: Decision) {
    if decision.Finish? then FinishError(task, decision, s.observations).None? else Denied(cfg, s, decision).None?
  }

  predicate HonestTurn(cfg: Config, task: Task, env: Environment, s: RunState) {
    var consulted := Consult(cfg, env, CurrentView(cfg, task, env, s));
    consulted.Decided? && WritesDecision(cfg, task, s, consulted.decision) ==>
      HonestDecision(cfg, task, env, s.observations, consulted.decision, consulted.audit)
  }

  /** Every turn the run takes from `s` on is honest. */
  predicate HonestFrom(cfg: Config, task: Task, env: Environment, s: RunState)
    decreases cfg.policy.maxSteps - s.steps
  {
    s.steps < cfg.policy.maxSteps ==>
      && HonestTurn(cfg, task, env, s)
      && var turn := Turn(cfg, task, env, s);
      (turn.Continued? ==> HonestFrom(cfg, task, env, turn.next))
  }

  // ----- The log of honest turns -----

  ghost predicate LogReplayable(header: Header, events: seq<Event>) {
    forall i :: 0 <= i < |events| ==> Replayable(header, events, i)
  }

  lemma SnocReplayable(header: Header, events: seq<Event>, e: Event)
    ensures LogReplayable(header, events + [e]) <==>
              LogReplayable(header, events) && Replayable(header, events + [e], |events|)
  {
    hide Replayable;
    forall i | 0 <= i < |events|
      ensures Replayable(header, events + [e], i) == Replayable(header, events, i)
    {
      PrefixReplayable(header, events, e, i);
    }
  }

  lemma PrefixReplayable(header: Header, events: seq<Event>, e: Event, i: nat)
    requires i < |events|
    ensures Replayable(header, events + [e], i) == Replayable(header, events, i)
  {
    hide DeriveOptions, UnhashableRun;
    ObservationsPrefix(events, events + [e], i);
  }

  lemma OtherReplayable(header: Header, events: seq<Event>, e: Event)
    requires !e.IsDecision()
    ensures LogReplayable(header, events + [e]) <==> LogReplayable(header, events)
  {
    SnocReplayable(header, events, e);
  }

  // The log of a reached state opens with the answer to the first consultation.
  ghost predicate Opened(cfg: Config, task: Task, env: Environment, s: RunState) {
    if s.events == [] then CurrentView(cfg, task, env, s) == CurrentView(cfg, task, env, START)
    else OpeningOf(s.events) == OpeningBinding(cfg, task, env)
  }

  function OpeningOf(events: seq<Event>): Option<AuditBinding> {
    if events != [] && AuditOf(events[0]).Some? then Some(AuditOf(events[0]).value.binding) else None
  }

  /** A recorded decision is replayable exactly when the planner was honest about it. */
  lemma DecisionReplayable(cfg: Config, task: Task, env: Environment, s: RunState, entry: Entry)
    requires s.observations == ObservationsBefore(s.events, |s.events|) && Opened(cfg, task, env, s)
    requires entry.eventType == ActionSelected || entry.eventType == RunCompleted
    requires entry.decision.Some?
    requires Consult(cfg, env, CurrentView(cfg, task, env, s)) == Decided(entry.decision.value, entry.audit)
    ensures var e := Recorded(cfg.hashes, ContextHash(cfg, task, env), s.events, entry);
            && (Replayable(cfg.HeaderFor(env.traceId, task), s.events + [e], |s.events|) <==>
                  HonestDecision(cfg, task, env, s.observations, entry.decision.value, entry.audit))
            && OpeningOf(s.events + [e]) == OpeningBinding(cfg, task, env)
  {
    hide Consult, CurrentView, DeriveOptions, UnhashableRun, ContextHash;
    var e := Recorded(cfg.hashes, ContextHash(cfg, task, env), s.events, entry);
    ObservationsPrefix(s.events, s.events + [e], |s.events|);
    RecordedFields(cfg.hashes, ContextHash(cfg, task, env), s.events, entry);
  }

  lemma FailReplayable(cfg: Config, task: Task, env: Environment, s: RunState, steps: nat, reason: Reason)
    ensures var trace := Fail(cfg, task, env, s, steps, reason);
            && trace.header == cfg.HeaderFor(env.traceId, task)
            && (AllReplayable(trace) <==> LogReplayable(cfg.HeaderFor(env.traceId, task), s.events))
  {
    hide Replayable, Recorded, FailedResult;
    var entry := FailedEntry(env, s.events, s.state, FailedResult(task, env, s.observations, steps, s.calls, reason));
    RecordedFields(cfg.hashes, ContextHash(cfg, task, env), s.events, entry);
    OtherReplayable(cfg.HeaderFor(env.traceId, task), s.events,
                    Recorded(cfg.hashes, ContextHash(cfg, task, env), s.events, entry));
  }

  lemma CompleteReplayable(cfg: Config, task: Task, env: Environment, s: RunState, finish: Decision, audit: Option<Audit>)
    requires s.observations == ObservationsBefore(s.events, |s.events|) && Opened(cfg, task, env, s)
    requires finish.Finish?
    requires Consult(cfg, env, CurrentView(cfg, task, env, s)) == Decided(finish, audit)
    ensures var trace, header := Complete(cfg, task, env, s, s.steps + 1, finish, audit), cfg.HeaderFor(env.traceId, task);
            && trace.header == header
            && (AllReplayable(trace) <==>
                  LogReplayable(header, s.events) && HonestDecision(cfg, task, env, s.observations, finish, audit))
  {
    hide Replayable, Recorded, CompletedResult, Consult, CurrentView, Opened, HonestDecision, ObservationsBefore;
    var result := CompletedResult(task, env, s.observations, s.steps + 1, s.calls, finish);
    var entry := CompletedEntry(env, s.events, s.state, finish, audit, result);
    DecisionReplayable(cfg, task, env, s, entry);
    SnocReplayable(cfg.HeaderFor(env.traceId, task), s.events,
                   Recorded(cfg.hashes, ContextHash(cfg, task, env), s.events, entry));
  }

  lemma ActReplayable(
    cfg: Config, task: Task, env: Environment, s: RunState, action: Decision, audit: Option<Audit>, o: Observation)
    requires s.observations == ObservationsBefore(s.events, |s.events|) && Opened(cfg, task, env, s)
    requires Consult(cfg, env, CurrentView(cfg, task, env, s)) == Decided(action, audit)
    ensures var events, header := ActionEvents(cfg, task, env, s, action, audit, o), cfg.HeaderFor(env.traceId, task);
            && (LogReplayable(header, events) <==>
                  LogReplayable(header, s.events) && HonestDecision(cfg, task, env, s.observations, action, audit))
            && events != [] && OpeningOf(events) == OpeningBinding(cfg, task, env)
  {
    hide Replayable, LogReplayable, Recorded, Consult, CurrentView, Opened, HonestDecision, ObservationsBefore, AuditOf;
    var h, context, header := cfg.hashes, ContextHash(cfg, task, env), cfg.HeaderFor(env.traceId, task);
    var entry := ActionEntry(env, s.events, s.state, action, audit);
    DecisionReplayable(cfg, task, env, s, entry);
    SnocReplayable(header, s.events, Recorded(h, context, s.events, entry));
    var one := Append(cfg, task, env, s.events, entry);
    var observed := ObservedEntry(env, one, o, s.steps);
    RecordedFields(h, context, one, observed);
    OtherReplayable(header, one, Recorded(h, context, one, observed));
    var two := Append(cfg, task, env, one, observed);
    RecordedFields(h, context, two, ProcessedEntry(env, two));
    OtherReplayable(header, two, Recorded(h, context, two, ProcessedEntry(env, two)));
    assert ActionEvents(cfg, task, env, s, action, audit, o)[0] == one[0];
  }

  // ----- The run -----

  lemma {:induction false} RunHonestExactly(cfg: Config, task: Task, env: Environment, s: RunState)
    requires cfg.Valid() && Simulates(cfg, task, env, s) && Opened(cfg, task, env, s)
    ensures RunFrom(cfg, task, env, s).header == cfg.HeaderFor(env.traceId, task)
    ensures AllReplayable(RunFrom(cfg, task, env, s)) <==>
              LogReplayable(cfg.HeaderFor(env.traceId, task), s.events) && HonestFrom(cfg, task, env, s)
    decreases cfg.policy.maxSteps - s.steps
  {
    hide *;
    SimulatesObservations(cfg, task, env, s);
    RunExhausts(cfg, task, env, s);
    HonestUnfolds(cfg, task, env, s);
    FailReplayable(cfg, task, env, s, s.steps, StepBudgetExhausted);
    if s.steps < cfg.policy.maxSteps {
      var consulted := Consult(cfg, env, CurrentView(cfg, task, env, s));
      RunStops(cfg, task, env, s);
      if consulted.Refused? {
        FailReplayable(cfg, task, env, s, s.steps, consulted.reason);
      } else if consulted.decision.Finish? {
        FailReplayable(cfg, task, env, s, s.steps + 1, UngroundedFinishRejected);
        CompleteReplayable(cfg, task, env, s, consulted.decision, consulted.audit);
      } else {
        ActHonestExactly(cfg, task, env, s, consulted.decision, consulted.audit);
      }
    }
  }

  lemma {:induction false} ActHonestExactly(
    cfg: Config, task: Task, env: Environment, s: RunState, action: Decision, audit: Option<Audit>)
    requires cfg.Valid() && Simulates(cfg, task, env, s) && Opened(cfg, task, env, s) && s.steps < cfg.policy.maxSteps
    requires Consult(cfg, env, CurrentView(cfg, task, env, s)) == Decided(action, audit) && action.ToolAction?
    ensures RunFrom(cfg, task, env, s).header == cfg.HeaderFor(env.traceId, task)
    ensures AllReplayable(RunFrom(cfg, task, env, s)) <==>
              LogReplayable(cfg.HeaderFor(env.traceId, task), s.events) && HonestFrom(cfg, task, env, s)
    decreases cfg.policy.maxSteps - s.steps, 0
  {
    hide *;
    SimulatesObservations(cfg, task, env, s);
    HonestUnfolds(cfg, task, env, s);
    ConsultMeans(cfg, env, CurrentView(cfg, task, env, s));
    ViewTask(cfg, task, env, s);
    RunStops(cfg, task, env, s);
    RunDenies(cfg, task, env, s, action, audit);
    if Denied(cfg, s, action).Some? {
      FailReplayable(cfg, task, env, s, s.steps + 1, Denied(cfg, s, action).value);
    } else {
      RunActs(cfg, task, env, s, action, audit);
      var reply := env.tool(CurrentView(cfg, task, env, s), action);
      var o := ExecuteTool(cfg, task, action, s.observations, reply).0;
      var next := Perform(cfg, task, env, s, action, audit, o);
      ActReplayable(cfg, task, env, s, action, audit, o);
      PerformSimulates(cfg, task, env, s, action, audit, reply);
      PerformFields(cfg, task, env, s, action, audit, o);
      StaysOpened(cfg, task, env, next);
      FailReplayable(cfg, task, env, next, next.steps, PolicyViolation);
      FailReplayable(cfg, task, env, next, next.steps, FailureBudgetExhausted);
      RunHonestExactly(cfg, task, env, next);
    }
  }

  // One unfolding of the condition, by the way the turn ends.
  lemma HonestUnfolds(cfg: Config, task: Task, env: Environment, s: RunState)
    ensures s.steps >= cfg.policy.maxSteps ==> HonestFrom(cfg, task, env, s)
    ensures var consulted := Consult(cfg, env, CurrentView(cfg, task, env, s));
            s.steps < cfg.policy.maxSteps ==>
              && (consulted.Refused? ==> HonestFrom(cfg, task, env, s))
              && (consulted.Decided? && consulted.decision.Finish? ==>
                    (HonestFrom(cfg, task, env, s) <==>
                       (FinishError(task, consulted.decision, s.observations).None? ==>
                          HonestDecision(cfg, task, env, s.observations, consulted.decision, consulted.audit))))
              && (consulted.Decided? && consulted.decision.ToolAction? ==>
                    var action, audit := consulted.decision, consulted.audit;
                    if Denied(cfg, s, action).Some? then HonestFrom(cfg, task, env, s)
                    else
                      var (o, violation) := ExecuteTool(cfg, task, action, s.observations, env.tool(CurrentView(cfg, task, env, s), action));
                      var next := Perform(cfg, task, env, s, action, audit, o);
                      HonestFrom(cfg, task, env, s) <==>
                        && HonestDecision(cfg, task, env, s.observations, action, audit)
                        && (violation || next.failures >= cfg.policy.maxFailures || HonestFrom(cfg, task, env, next)))
  {
    hide Consult, CurrentView, FinishError, Denied, ExecuteTool, HonestDecision, Fail, Complete;
  }

  lemma StaysOpened(cfg: Config, task: Task, env: Environment, s: RunState)
    requires s.events != [] && OpeningOf(s.events) == OpeningBinding(cfg, task, env)
    ensures Opened(cfg, task, env, s)
  {
    hide OpeningOf, OpeningBinding;
  }

  lemma StartOpened(cfg: Config, task: Task, env: Environment)
    ensures Opened(cfg, task, env, START) && LogReplayable(cfg.HeaderFor(env.traceId, task), START.events)
    ensures Simulates(cfg, task, env, START)
  {
  }

  /** The stored trace of any run replays exactly when its registry is minimal and the planner was
      honest at every turn the run took. */
  lemma HonestRunsReplay(cfg: Config, task: Task, env: Environment)
    requires cfg.Valid()
    ensures Accepted(cfg.hashes, RunTrace(cfg, task, env)) <==>
              MinimalRegistry(cfg.HeaderFor(env.traceId, task)) && HonestFrom(cfg, task, env, START)
  {
    hide *;
    RunReplaysExactly(cfg, task, env);
    RunStarts(cfg, task, env);
    StartOpened(cfg, task, env);
    RunHonestExactly(cfg, task, env, START);
    ReplaysMeans(RunTrace(cfg, task, env));
  }

  lemma ReplaysMeans(trace: AgentTrace)
    ensures Replays(trace) <==> MinimalRegistry(trace.header) && AllReplayable(trace)
  {
    hide MinimalRegistry, AllReplayable;
  }

  lemma SimulatesObservations(cfg: Config, task: Task, env: Environment, s: RunState)
    requires Simulates(cfg, task, env, s)
    ensures s.observations == ObservationsBefore(s.events, |s.events|)
  {
    hide Written;
  }

  lemma ActionEventsExtend(
    cfg: Config, task: Task, env: Environment, s: RunState, action: Decision, audit: Option<Audit>, o: Observation)
    ensures var events := ActionEvents(cfg, task, env, s, action, audit, o);
            && |events| == |s.events| + 3 && s.events <= events
            && events[|s.events|].eventType == ActionSelected && events[|s.events|].decision == Known(action)
  {
  }

  // ----- Planners that are always honest -----

  /** What a planner must say for its decision to be replayable: run ids that can be looked up, one
      configuration, and the true number of options. */
  predicate HonestReply(task: Task, observations: seq<Observation>, reply: PlannerReply, binding: AuditBinding) {
    reply.Replied? && reply.decision.Proposed? ==>
      && !UnhashableRun(task, reply.decision.decision)
      && (reply.audit.AuditTaken? && reply.audit.audit.Some? ==>
            var options := DeriveOptions(task, observations);
            && reply.audit.audit.value.binding == binding
            && (options.Some? ==> reply.audit.audit.value.optionCount == |options.value|))
  }

  /** The retrieval task runs on the two retrieval tools only, the LLM planner drives exactly the
      adaptive task, and the planner is honest wherever it may be asked. */
  ghost predicate Compliant(cfg: Config, task: Task, env: Environment, binding: AuditBinding) {
    && MinimalRegistry(cfg.HeaderFor(env.traceId, task))
    && (cfg.plannerId == LlmPlanner <==> Adaptive(task))
    && forall view: View {:trigger env.planner(view)} :: view.task == task ==>
         HonestReply(task, view.observations, env.planner(view), binding)
  }

  /** Every run of a compliant configuration replays, whatever the tools and the clock do. */
  lemma CompliantRunReplays(cfg: Config, task: Task, env: Environment, binding: AuditBinding)
    requires cfg.Valid() && Compliant(cfg, task, env, binding)
    ensures Accepted(cfg.hashes, RunTrace(cfg, task, env))
  {
    hide Accepted, RunTrace, MinimalRegistry, HonestReply, HonestFrom;
    HonestRunsReplay(cfg, task, env);
    OpensBound(cfg, task, env, binding);
    if OpeningBinding(cfg, task, env).Some? || !Adaptive(task) {
      CompliantIsHonest(cfg, task, env, binding, START);
    } else {
      NeverOpens(cfg, task, env);
    }
  }

  lemma OpensBound(cfg: Config, task: Task, env: Environment, binding: AuditBinding)
    requires Compliant(cfg, task, env, binding)
    ensures OpeningBinding(cfg, task, env) in {None, Some(binding)}
  {
    hide UnhashableRun, DeriveOptions, MinimalRegistry;
    var view := CurrentView(cfg, task, env, START);
    assert HonestReply(task, view.observations, env.planner(view), binding);
  }

  // An adaptive run without an opening audit ends before its first decision.
  lemma NeverOpens(cfg: Config, task: Task, env: Environment)
    requires Adaptive(task) && OpeningBinding(cfg, task, env).None?
    ensures HonestFrom(cfg, task, env, START)
  {
    hide FinishError, ActTurn, Denied;
    HonestUnfolds(cfg, task, env, START);
  }

  lemma {:induction false} CompliantIsHonest(
    cfg: Config, task: Task, env: Environment, binding: AuditBinding, s: RunState)
    requires Compliant(cfg, task, env, binding)
    requires Adaptive(task) ==> OpeningBinding(cfg, task, env) == Some(binding)
    ensures HonestFrom(cfg, task, env, s)
    decreases cfg.policy.maxSteps - s.steps
  {
    hide Turn, HonestTurn, OpeningBinding, Compliant;
    if s.steps < cfg.policy.maxSteps {
      CompliantTurn(cfg, task, env, binding, s);
      var turn := Turn(cfg, task, env, s);
      if turn.Continued? {
        TurnSteps(cfg, task, env, s);
        CompliantIsHonest(cfg, task, env, binding, turn.next);
      }
    }
  }

  lemma TurnSteps(cfg: Config, task: Task, env: Environment, s: RunState)
    requires Turn(cfg, task, env, s).Continued?
    ensures Turn(cfg, task, env, s).next.steps == s.steps + 1
  {
    hide Consult, ExecuteTool, FinishError, Denied, ActionEvents;
  }

  lemma CompliantTurn(cfg: Config, task: Task, env: Environment, binding: AuditBinding, s: RunState)
    requires Compliant(cfg, task, env, binding)
    requires Adaptive(task) ==> OpeningBinding(cfg, task, env) == Some(binding)
    ensures HonestTurn(cfg, task, env, s)
  {
    hide UnhashableRun, MinimalRegistry, HistoryOf, OptionsFor, Matching, FinishError, Denied, OpeningBinding;
    var view := CurrentView(cfg, task, env, s);
    assert HonestReply(task, view.observations, env.planner(view), binding);
  }

  // ----- Planners that are not -----

  /** The state after n turns, if the run takes that many. */
  function AfterTurns(cfg: Config, task: Task, env: Environment, n: nat): Option<RunState> {
    if n == 0 then Some(START)
    else
      var before := AfterTurns(cfg, task, env, n - 1);
      if before.None? || before.value.steps >= cfg.policy.maxSteps then None
      else
        var turn := Turn(cfg, task, env, before.value);
        if turn.Continued? then Some(turn.next) else None
  }

  lemma {:induction false} HonestAfter(cfg: Config, task: Task, env: Environment, n: nat)
    requires HonestFrom(cfg, task, env, START) && AfterTurns(cfg, task, env, n).Some?
    ensures HonestFrom(cfg, task, env, AfterTurns(cfg, task, env, n).value)
  {
    hide Turn, HonestTurn;
    if n > 0 {
      HonestAfter(cfg, task, env, n - 1);
    }
  }

  /** One dishonest turn, wherever in the run, and the stored trace is refused. */
  lemma DishonestTurnNeverReplays(cfg: Config, task: Task, env: Environment, n: nat)
    requires cfg.Valid() && AfterTurns(cfg, task, env, n).Some?
    requires var s := AfterTurns(cfg, task, env, n).value;
             s.steps < cfg.policy.maxSteps && !HonestTurn(cfg, task, env, s)
    ensures !Accepted(cfg.hashes, RunTrace(cfg, task, env))
  {
    hide Accepted, RunTrace, Turn, HonestTurn, AfterTurns, MinimalRegistry;
    HonestRunsReplay(cfg, task, env);
    if HonestFrom(cfg, task, env, START) {
      HonestAfter(cfg, task, env, n);
    }
  }

  /** A comparison whose planner first asks for a run by a list or an object is stored and refused. */
  lemma UnhashableRunNeverReplays(cfg: Config, task: Task, env: Environment, action: Decision)
    requires cfg.Valid() && UnhashableRun(task, action)
    requires Consult(cfg, env, CurrentView(cfg, task, env, START)) == Decided(action, None)
    ensures !Accepted(cfg.hashes, RunTrace(cfg, task, env))
  {
    hide Accepted, RunTrace, Turn, Consult, CurrentView;
    assert !HonestTurn(cfg, task, env, START);
    DishonestTurnNeverReplays(cfg, task, env, 0);
  }

  /** An adaptive run whose first audit claims any other number of options than the one there is. */
  lemma MiscountedOptionsNeverReplay(cfg: Config, task: Task, env: Environment, decision: Decision, audit: Audit)
    requires cfg.Valid() && Adaptive(task) && audit.optionCount != 1
    requires Consult(cfg, env, CurrentView(cfg, task, env, START)) == Decided(decision, Some(audit))
    ensures !Accepted(cfg.hashes, RunTrace(cfg, task, env))
  {
    hide Accepted, RunTrace, Turn;
    OnlyDiagnosis(cfg, task, env, decision, audit);
    assert !HonestTurn(cfg, task, env, START);
    DishonestTurnNeverReplays(cfg, task, env, 0);
  }

  lemma OnlyDiagnosis(cfg: Config, task: Task, env: Environment, decision: Decision, audit: Audit)
    requires Adaptive(task) && Consult(cfg, env, CurrentView(cfg, task, env, START)) == Decided(decision, Some(audit))
    ensures DeriveOptions(task, []) == Some([DIAGNOSE]) && decision.ToolAction?
  {
    hide UsableDecision;
    var view := CurrentView(cfg, task, env, START);
    assert AuditBound(task, [], decision, Some(audit));
    assert [DIAGNOSE][..0] == [];
    assert Matching([], decision) == [];
  }

  /** An adaptive run whose planner changes provider, model or configuration between its first answer
      and any later one that reaches the log. */
  lemma ChangedBindingNeverReplays(
    cfg: Config, task: Task, env: Environment, n: nat, s: RunState, decision: Decision, audit: Audit)
    requires cfg.Valid() && Adaptive(task) && AfterTurns(cfg, task, env, n) == Some(s) && s.steps < cfg.policy.maxSteps
    requires Consult(cfg, env, CurrentView(cfg, task, env, s)) == Decided(decision, Some(audit))
    requires WritesDecision(cfg, task, s, decision) && OpeningBinding(cfg, task, env) != Some(audit.binding)
    ensures !Accepted(cfg.hashes, RunTrace(cfg, task, env))
  {
    hide Accepted, RunTrace, AfterTurns, Consult, CurrentView, WritesDecision, OpeningBinding, DeriveOptions;
    assert !HonestTurn(cfg, task, env, s);
    DishonestTurnNeverReplays(cfg, task, env, n);
  }
}
