/** What every run keeps, whatever the planner, the tools and the clock do. */
module RuntimeBudgets {
  import opened CompliantRuns
  import opened Contracts
  import opened Grounding
  import opened Replay
  import opened ReplayCompleteness
  import opened Reporting
  import opened Runtime
  import opened Trace
  import opened TraceLanguage

  predicate Dispatches(e: Event, tool: ToolName, arguments: Arguments) {
    && e.eventType == ActionSelected && e.decision.Known? && e.decision.decision.ToolAction?
    && e.decision.decision.tool == tool && e.decision.decision.arguments == arguments
  }

  /** How often the log dispatches a tool with these arguments. */
  function Dispatched(events: seq<Event>, tool: ToolName, arguments: Arguments): nat {
    if events == [] then 0
    else
      Dispatched(events[..|events| - 1], tool, arguments) +
      if Dispatches(events[|events| - 1], tool, arguments) then 1 else 0
  }

  function Failures(observations: seq<Observation>): nat {
    if observations == [] then 0
    else Failures(observations[..|observations| - 1]) + if observations[|observations| - 1].succeeded then 0 else 1
  }

  /** The runtime itself forbids the action: task scope, registry or capability. */
  predicate Forbidden(cfg: Config, task: Task, action: Decision, observations: seq<Observation>)
    requires action.ToolAction?
  {
    var scope := ActionScope(task, action, observations);
    || scope.OutOfScope?
    || (scope.InScope? && action.tool !in cfg.registry.capabilityOf)
    || (scope.InScope? && action.tool in cfg.registry.capabilityOf
        && cfg.registry.capabilityOf[action.tool] !in cfg.policy.capabilities)
  }

  predicate ForbiddenAt(cfg: Config, task: Task, events: seq<Event>, i: nat)
    requires i < |events|
  {
    var e := events[i];
    && e.eventType == ActionSelected && e.decision.Known? && e.decision.decision.ToolAction?
    && Forbidden(cfg, task, e.decision.decision, ObservationsBefore(events, i))
  }

  /** The promise of the budgets, on the stored trace. */
  ghost predicate BudgetsKept(cfg: Config, task: Task, trace: AgentTrace) {
    var events := trace.events;
    && (forall tool, arguments :: Dispatched(events, tool, arguments) <= cfg.policy.maxSameActionAttempts)
    && Failures(ObservationsBefore(events, |events|)) <= cfg.policy.maxFailures
    && (Failures(ObservationsBefore(events, |events|)) == cfg.policy.maxFailures ==>
          trace.terminal.reason == FailureBudgetExhausted || trace.terminal.reason == PolicyViolation)
    && (forall i :: 0 <= i < |events| && ForbiddenAt(cfg, task, events, i) ==>
          i == |events| - 4 && trace.terminal.reason == PolicyViolation)
    && (forall i :: 0 <= i < |events| ==> (events[i].IsTerminal() <==> i == |events| - 1))
    && events != []
  }

  ghost predicate AttemptsCounted(cfg: Config, s: RunState) {
    && (forall tool, arguments :: Dispatched(s.events, tool, arguments) <= Attempts(s, cfg.hashes.action(tool, arguments)))
    && (forall key :: Attempts(s, key) <= cfg.policy.maxSameActionAttempts)
  }

  ghost predicate ForbiddenOnlyAt(cfg: Config, task: Task, events: seq<Event>, last: int) {
    forall i :: 0 <= i < |events| && ForbiddenAt(cfg, task, events, i) ==> i == last
  }

  ghost predicate NoTerminal(events: seq<Event>) {
    forall i :: 0 <= i < |events| ==> !events[i].IsTerminal()
  }

  /** The same while the run goes on; `last` is where a forbidden action may sit. */
  ghost predicate Budgeted(cfg: Config, task: Task, s: RunState, last: int) {
    && AttemptsCounted(cfg, s)
    && Failures(s.observations) == s.failures
    && s.observations == ObservationsBefore(s.events, |s.events|)
    && ForbiddenOnlyAt(cfg, task, s.events, last)
    && NoTerminal(s.events)
  }

  lemma DispatchedAppend(events: seq<Event>, e: Event)
    ensures forall tool, arguments ::
              Dispatched(events + [e], tool, arguments) ==
              Dispatched(events, tool, arguments) + if Dispatches(e, tool, arguments) then 1 else 0
  {
  }

  lemma FailuresAppend(observations: seq<Observation>, o: Observation)
    ensures Failures(observations + [o]) == Failures(observations) + if o.succeeded then 0 else 1
  {
  }

  lemma ForbiddenPrefix(cfg: Config, task: Task, events: seq<Event>, more: seq<Event>, i: nat)
    requires i < |events| && events <= more
    ensures ForbiddenAt(cfg, task, events, i) <==> ForbiddenAt(cfg, task, more, i)
  {
    hide Forbidden;
    ObservationsPrefix(events, more, i);
  }

  /** The final event breaks no budget. */
  lemma EndKeeps(cfg: Config, task: Task, s: RunState, trace: AgentTrace, e: Event, last: int)
    requires Budgeted(cfg, task, s, last) && s.failures <= cfg.policy.maxFailures
    requires trace.events == s.events + [e] && e.IsTerminal()
    requires last >= 0 ==> last == |s.events| - 3 && trace.terminal.reason == PolicyViolation
    requires s.failures == cfg.policy.maxFailures ==>
               trace.terminal.reason == FailureBudgetExhausted || trace.terminal.reason == PolicyViolation
    ensures BudgetsKept(cfg, task, trace)
  {
    hide Forbidden, Attempts, Failures, Dispatched;
    var n := |s.events|;
    DispatchedAppend(s.events, e);
    ObservationsPrefix(s.events, trace.events, n);
    assert trace.events[n] == e;
    assert ObservationsBefore(trace.events, n + 1) == s.observations;
    forall i | 0 <= i <= n && ForbiddenAt(cfg, task, trace.events, i)
      ensures i == |trace.events| - 4 && trace.terminal.reason == PolicyViolation
    {
      ForbiddenPrefix(cfg, task, s.events, trace.events, i);
    }
    forall tool, arguments
      ensures Dispatched(trace.events, tool, arguments) <= cfg.policy.maxSameActionAttempts
    {
      assert Dispatched(s.events, tool, arguments) <= Attempts(s, cfg.hashes.action(tool, arguments));
    }
  }

  lemma FailKeeps(cfg: Config, task: Task, env: Environment, s: RunState, steps: nat, reason: Reason, last: int)
    requires Budgeted(cfg, task, s, last) && s.failures <= cfg.policy.maxFailures
    requires last >= 0 ==> last == |s.events| - 3 && reason == PolicyViolation
    requires s.failures == cfg.policy.maxFailures ==> reason == FailureBudgetExhausted || reason == PolicyViolation
    ensures BudgetsKept(cfg, task, Fail(cfg, task, env, s, steps, reason))
  {
    hide Budgeted, BudgetsKept, TerminalReport, SuccessfulEvidence;
    var result := FailedResult(task, env, s.observations, steps, s.calls, reason);
    var e := Recorded(cfg.hashes, ContextHash(cfg, task, env), s.events, FailedEntry(env, s.events, s.state, result));
    EndKeeps(cfg, task, s, Fail(cfg, task, env, s, steps, reason), e, last);
  }

  lemma CompleteKeeps(cfg: Config, task: Task, env: Environment, s: RunState, steps: nat, finish: Decision, audit: Option<Audit>)
    requires Budgeted(cfg, task, s, -1) && s.failures < cfg.policy.maxFailures && finish.Finish?
    ensures BudgetsKept(cfg, task, Complete(cfg, task, env, s, steps, finish, audit))
  {
    hide Budgeted, BudgetsKept, TerminalReport, SuccessfulEvidence;
    var result := CompletedResult(task, env, s.observations, steps, s.calls, finish);
    var e := Recorded(cfg.hashes, ContextHash(cfg, task, env), s.events,
                      CompletedEntry(env, s.events, s.state, finish, audit, result));
    EndKeeps(cfg, task, s, Complete(cfg, task, env, s, steps, finish, audit), e, -1);
  }

  // An action, its observation and the processing step after a log.
  ghost predicate Triple(events: seq<Event>, more: seq<Event>, action: Decision, o: Observation) {
    && |more| == |events| + 3 && events <= more
    && more[|events|].decision == Known(action) && more[|events|].eventType == ActionSelected
    && more[|events| + 1].eventType == ToolObserved && more[|events| + 1].observation == ValidObservation(o)
    && more[|events| + 2].eventType == ObservationProcessed
  }

  // The three events of one action, as far as the budgets look at them.
  lemma ActionEventsBudget(
    cfg: Config, task: Task, env: Environment, s: RunState, action: Decision, audit: Option<Audit>, o: Observation)
    requires action.ToolAction?
    ensures var events := ActionEvents(cfg, task, env, s, action, audit, o);
            Triple(s.events, events, action, o)
    ensures forall tool, arguments ::
              Dispatched(ActionEvents(cfg, task, env, s, action, audit, o), tool, arguments) ==
              Dispatched(s.events, tool, arguments) + if action.tool == tool && action.arguments == arguments then 1 else 0
  {
    var one := Append(cfg, task, env, s.events, ActionEntry(env, s.events, s.state, action, audit));
    var two := Append(cfg, task, env, one, ObservedEntry(env, one, o, s.steps));
    var three := Append(cfg, task, env, two, ProcessedEntry(env, two));
    DispatchedAppend(s.events, one[|s.events|]);
    DispatchedAppend(one, two[|one|]);
    DispatchedAppend(two, three[|two|]);
  }

  lemma ObservationStep(events: seq<Event>, k: nat)
    requires k < |events|
    ensures ObservationsBefore(events, k + 1) ==
            ObservationsBefore(events, k) +
            if events[k].eventType == ToolObserved && events[k].observation.ValidObservation?
            then [events[k].observation.observation] else []
  {
  }

  lemma TripleObserves(events: seq<Event>, more: seq<Event>, action: Decision, o: Observation)
    requires Triple(events, more, action, o)
    ensures var n := |events|;
            && ObservationsBefore(more, n) == ObservationsBefore(events, n)
            && ObservationsBefore(more, n + 1) == ObservationsBefore(events, n)
            && ObservationsBefore(more, n + 2) == ObservationsBefore(events, n) + [o]
            && ObservationsBefore(more, n + 3) == ObservationsBefore(events, n) + [o]
  {
    hide ObservationsBefore;
    var n := |events|;
    ObservationsPrefix(events, more, n);
    ObservationStep(more, n);
    ObservationStep(more, n + 1);
    ObservationStep(more, n + 2);
  }

  lemma TripleOpen(events: seq<Event>, more: seq<Event>, action: Decision, o: Observation)
    requires Triple(events, more, action, o) && NoTerminal(events)
    ensures NoTerminal(more)
  {
    forall i | 0 <= i < |more|
      ensures !more[i].IsTerminal()
    {
      assert i < |events| ==> more[i] == events[i];
    }
  }

  lemma TripleForbids(cfg: Config, task: Task, events: seq<Event>, more: seq<Event>, action: Decision, o: Observation)
    requires Triple(events, more, action, o) && ForbiddenOnlyAt(cfg, task, events, -1) && action.ToolAction?
    ensures ForbiddenOnlyAt(
              cfg, task, more, if Forbidden(cfg, task, action, ObservationsBefore(events, |events|)) then |events| else -1)
  {
    hide Forbidden, ForbiddenAt, ObservationsBefore;
    var n := |events|;
    TripleObserves(events, more, action, o);
    forall i | 0 <= i < n + 3 && ForbiddenAt(cfg, task, more, i)
      ensures i == n && Forbidden(cfg, task, action, ObservationsBefore(events, n))
    {
      if i < n {
        ForbiddenPrefix(cfg, task, events, more, i);
      } else {
        ForbiddenIs(cfg, task, more, i);
      }
    }
  }

  lemma PerformKeeps(
    cfg: Config, task: Task, env: Environment, s: RunState, action: Decision, audit: Option<Audit>, o: Observation)
    requires Budgeted(cfg, task, s, -1) && action.ToolAction? && Denied(cfg, s, action).None?
    ensures Budgeted(cfg, task, Perform(cfg, task, env, s, action, audit, o),
                     if Forbidden(cfg, task, action, s.observations) then |s.events| else -1)
  {
    hide Forbidden, ActionEvents, AttemptsCounted, ForbiddenOnlyAt, NoTerminal, Failures, Denied, Dispatched,
      ObservationsBefore;
    var next := Perform(cfg, task, env, s, action, audit, o);
    ActionEventsBudget(cfg, task, env, s, action, audit, o);
    PerformCounts(cfg, task, env, s, action, audit, o);
    FailuresAppend(s.observations, o);
    TripleObserves(s.events, next.events, action, o);
    TripleOpen(s.events, next.events, action, o);
    TripleForbids(cfg, task, s.events, next.events, action, o);
  }

  lemma ForbiddenIs(cfg: Config, task: Task, events: seq<Event>, i: nat)
    requires i < |events| && ForbiddenAt(cfg, task, events, i)
    ensures events[i].eventType == ActionSelected && events[i].decision.Known? && events[i].decision.decision.ToolAction?
    ensures Forbidden(cfg, task, events[i].decision.decision, ObservationsBefore(events, i))
  {
  }

  lemma PerformCounts(
    cfg: Config, task: Task, env: Environment, s: RunState, action: Decision, audit: Option<Audit>, o: Observation)
    requires AttemptsCounted(cfg, s) && action.ToolAction? && Denied(cfg, s, action).None?
    ensures AttemptsCounted(cfg, Perform(cfg, task, env, s, action, audit, o))
  {
    hide ActionEvents, CreatesRun, Dispatched;
    ActionEventsBudget(cfg, task, env, s, action, audit, o);
    var next := Perform(cfg, task, env, s, action, audit, o);
    forall tool, arguments
      ensures Dispatched(next.events, tool, arguments) <= Attempts(next, cfg.hashes.action(tool, arguments))
    {
      assert Dispatched(s.events, tool, arguments) <= Attempts(s, cfg.hashes.action(tool, arguments));
    }
    forall key
      ensures Attempts(next, key) <= cfg.policy.maxSameActionAttempts
    {
      assert Attempts(s, key) <= cfg.policy.maxSameActionAttempts;
    }
  }

  lemma ForbiddenViolates(cfg: Config, task: Task, action: Decision, observations: seq<Observation>, reply: ToolReply)
    requires action.ToolAction? && Forbidden(cfg, task, action, observations)
    ensures ExecuteTool(cfg, task, action, observations, reply).1
    ensures !ExecuteTool(cfg, task, action, observations, reply).0.succeeded
  {
  }

  lemma {:induction false} RunKeeps(cfg: Config, task: Task, env: Environment, s: RunState)
    requires cfg.policy.Valid() && Budgeted(cfg, task, s, -1) && s.failures < cfg.policy.maxFailures
    ensures BudgetsKept(cfg, task, RunFrom(cfg, task, env, s))
    decreases cfg.policy.maxSteps - s.steps
  {
    hide *;
    RunExhausts(cfg, task, env, s);
    if s.steps >= cfg.policy.maxSteps {
      FailKeeps(cfg, task, env, s, s.steps, StepBudgetExhausted, -1);
    } else {
      var consulted := Consult(cfg, env, CurrentView(cfg, task, env, s));
      RunStops(cfg, task, env, s);
      if consulted.Refused? {
        FailKeeps(cfg, task, env, s, s.steps, consulted.reason, -1);
      } else if consulted.decision.Finish? {
        FailKeeps(cfg, task, env, s, s.steps + 1, UngroundedFinishRejected, -1);
        CompleteKeeps(cfg, task, env, s, s.steps + 1, consulted.decision, consulted.audit);
      } else {
        ActKeeps(cfg, task, env, s, consulted.decision, consulted.audit);
      }
    }
  }

  lemma {:induction false} ActKeeps(
    cfg: Config, task: Task, env: Environment, s: RunState, action: Decision, audit: Option<Audit>)
    requires cfg.policy.Valid() && Budgeted(cfg, task, s, -1) && s.failures < cfg.policy.maxFailures
    requires s.steps < cfg.policy.maxSteps && action.ToolAction?
    requires Consult(cfg, env, CurrentView(cfg, task, env, s)) == Decided(action, audit)
    ensures BudgetsKept(cfg, task, RunFrom(cfg, task, env, s))
    decreases cfg.policy.maxSteps - s.steps, 0
  {
    hide *;
    RunDenies(cfg, task, env, s, action, audit);
    if Denied(cfg, s, action).Some? {
      FailKeeps(cfg, task, env, s, s.steps + 1, Denied(cfg, s, action).value, -1);
    } else {
      RunActs(cfg, task, env, s, action, audit);
      var reply := env.tool(CurrentView(cfg, task, env, s), action);
      var (o, violation) := ExecuteTool(cfg, task, action, s.observations, reply);
      var next := Perform(cfg, task, env, s, action, audit, o);
      PerformFields(cfg, task, env, s, action, audit, o);
      PerformKeeps(cfg, task, env, s, action, audit, o);
      ActionEventsExtend(cfg, task, env, s, action, audit, o);
      if Forbidden(cfg, task, action, s.observations) {
        ForbiddenViolates(cfg, task, action, s.observations, reply);
      }
      var last := if Forbidden(cfg, task, action, s.observations) then |s.events| else -1;
      if violation {
        FailKeeps(cfg, task, env, next, next.steps, PolicyViolation, last);
      } else if next.failures >= cfg.policy.maxFailures {
        FailKeeps(cfg, task, env, next, next.steps, FailureBudgetExhausted, last);
      } else {
        RunKeeps(cfg, task, env, next);
      }
    }
  }

  /** Against any planner, tools and clock: one terminal event, at the end; no tool is dispatched
      with the same arguments more often than allowed; failures stay within their budget; and a
      forbidden action is the last one of the run, which then fails with a policy violation. */
  lemma RunKeepsBudgets(cfg: Config, task: Task, env: Environment)
    requires cfg.policy.Valid()
    ensures BudgetsKept(cfg, task, RunTrace(cfg, task, env))
  {
    hide BudgetsKept;
    RunStarts(cfg, task, env);
    RunKeeps(cfg, task, env, START);
  }
}
