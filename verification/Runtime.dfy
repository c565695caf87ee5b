/** The budgeted agent loop (runtime.py) over an arbitrary planner, arbitrary tools and clock. */
module Runtime {
  import opened Contracts
  import opened Grounding
  import opened Reporting
  import opened RetrievalPolicy
  import opened Trace

  datatype RuntimePolicy = RuntimePolicy(
    maxSteps: nat, maxToolCalls: nat, maxRunCreations: nat, maxFailures: nat, maxSameActionAttempts: nat,
    maxElapsedMs: nat, maxDecisionBytes: nat, maxObservationBytes: nat, capabilities: seq<Capability>)
  {
    predicate Valid() {
      && maxSteps >= 1 && maxToolCalls >= 1 && maxRunCreations >= 1 && maxFailures >= 1
      && maxSameActionAttempts >= 1 && maxElapsedMs >= 1 && maxDecisionBytes >= 1 && maxObservationBytes >= 1
      && capabilities != []
    }

    function Stored(): StoredPolicy {
      StoredPolicy(
        Some(maxSteps), Some(maxToolCalls), Some(maxRunCreations), Some(maxFailures), Some(maxSameActionAttempts),
        Some(maxElapsedMs), Some(maxDecisionBytes), Some(maxObservationBytes), capabilities)
    }
  }

  // Tool names are listed in sorted order.
  datatype Registry = Registry(names: seq<ToolName>, capabilityOf: map<ToolName, Capability>) {
    ghost predicate Valid() {
      names != [] && forall t :: t in names <==> t in capabilityOf
    }
  }

  datatype Config = Config(hashes: Hashes, plannerId: PlannerId, registry: Registry, policy: RuntimePolicy) {
    ghost predicate Valid() {
      registry.Valid() && policy.Valid()
    }

    function HeaderFor(traceId: Id, task: Task): Header {
      Header(traceId, plannerId, task, policy.Stored(), registry.names)
    }
  }

  // ----- The environment -----

  datatype View = View(
    task: Task, state: AgentState, observations: seq<Observation>, stepsUsed: nat, toolCallsUsed: nat,
    remainingMs: int)

  datatype AuditReply = AuditInvalid | AuditTaken(audit: Option<Audit>)
  datatype DecisionReply = NotADecision | Proposed(decision: Decision, bytes: nat)
  datatype PlannerReply = Raised | Replied(audit: AuditReply, decision: DecisionReply)

  datatype ToolReply =
    | ToolError(code: ErrorCode, canRetry: bool)
    | ToolPolicyError(code: ErrorCode)
    | ToolCrash
    | NotAnOutput
    | Output(ref: EvidenceRef, payload: Payload, bytes: nat)

  /** Everything the runtime does not control.  A view carries the step number, so these functions
      leave the planner and the tools free to behave differently at every step of a run. */
  datatype Environment = Environment(
    traceId: Id,
    planner: View -> PlannerReply,
    tool: (View, Decision) -> ToolReply,
    clockMs: nat -> real,
    durationMs: nat -> real,
    timestamp: nat -> string)

  // ----- The state of the loop -----

  datatype RunState = RunState(
    events: seq<Event>, observations: seq<Observation>, state: AgentState, steps: nat, calls: nat,
    creations: nat, failures: nat, attempts: map<Digest, nat>)

  const START := RunState([], [], Planning, 0, 0, 0, 0, map[])

  const MAX_REFS: nat := 16

  predicate CreatesRun(tool: ToolName) {
    tool == RunRanker || tool == DiagnoseBaseline || tool == RunCandidate
  }

  function ViewOf(
    cfg: Config, task: Task, env: Environment, observations: seq<Observation>, state: AgentState, steps: nat, calls: nat)
    : View
  {
    var remaining := ((cfg.policy.maxElapsedMs as real) - env.clockMs(2 * steps + 1)).Floor;
    View(task, state, observations, steps, calls, if remaining > 1 then remaining else 1)
  }

  function CurrentView(cfg: Config, task: Task, env: Environment, s: RunState): View {
    ViewOf(cfg, task, env, s.observations, s.state, s.steps, s.calls)
  }

  /** An adaptive retrieval decision must be audited as exactly the option it is; any other
      decision must carry no audit. */
  predicate AuditBound(task: Task, observations: seq<Observation>, decision: Decision, audit: Option<Audit>) {
    if task.RetrievalTask? && task.policy == AdaptiveLlm then
      var option := OptionForDecision(task, observations, decision);
      audit.Some? && option.Some? && option.value.id == audit.value.selectedOption
    else audit.None?
  }

  datatype Consulted = Refused(reason: Reason) | Decided(decision: Decision, audit: Option<Audit>)

  predicate UsableDecision(cfg: Config, decision: Decision, bytes: nat) {
    && bytes <= cfg.policy.maxDecisionBytes
    && (decision.Finish? ==> |decision.refs| <= MAX_REFS)
  }

  /** The clock check and the planner's turn. */
  function Consult(cfg: Config, env: Environment, view: View): Consulted {
    if env.clockMs(2 * view.stepsUsed) > cfg.policy.maxElapsedMs as real then Refused(ElapsedBudgetExhausted)
    else
      match env.planner(view)
      case Raised => Refused(PlannerFailed)
      case Replied(AuditInvalid, _) => Refused(PlannerInvalidAudit)
      case Replied(AuditTaken(_), NotADecision) => Refused(PlannerInvalidOutput)
      case Replied(AuditTaken(audit), Proposed(decision, bytes)) =>
        if UsableDecision(cfg, decision, bytes) && AuditBound(view.task, view.observations, decision, audit)
        then Decided(decision, audit)
        else Refused(PlannerInvalidOutput)
  }

  function Attempts(s: RunState, key: Digest): nat {
    if key in s.attempts then s.attempts[key] else 0
  }

  /** The budget an action would exceed, in the order the budgets are checked. */
  function Denied(cfg: Config, s: RunState, action: Decision): Option<Reason>
    requires action.ToolAction?
  {
    if s.calls >= cfg.policy.maxToolCalls then Some(ToolCallBudgetExhausted)
    else if CreatesRun(action.tool) && s.creations >= cfg.policy.maxRunCreations then Some(RunCreationBudgetExhausted)
    else if Attempts(s, cfg.hashes.action(action.tool, action.arguments)) + 1 > cfg.policy.maxSameActionAttempts
    then Some(RepeatedActionRejected)
    else None
  }

  function Observed(h: Hashes, body: ObservationBody): Observation {
    Observation(body.tool, body.succeeded, body.ref, body.payload, body.error, body.retryable, h.observation(body))
  }

  function Failure(h: Hashes, tool: ToolName, code: ErrorCode, retryable: bool): Observation {
    Observed(h, ObservationBody(tool, false, None, EmptyPayload, Some(code), retryable))
  }

  /** Scope, then registry, then the handler; the flag is a policy violation. */
  function ExecuteTool(cfg: Config, task: Task, action: Decision, observations: seq<Observation>, reply: ToolReply)
    : (Observation, bool)
    requires action.ToolAction?
  {
    var h, tool := cfg.hashes, action.tool;
    match ActionScope(task, action, observations)
    case OutOfScope(code) => (Failure(h, tool, code, false), true)
    case Crashed => (Failure(h, tool, InternalError, false), false)
    case InScope =>
      if tool !in cfg.registry.capabilityOf then (Failure(h, tool, ToolNotAllowed, false), true)
      else if cfg.registry.capabilityOf[tool] !in cfg.policy.capabilities then
        (Failure(h, tool, CapabilityNotAllowed, false), true)
      else
        match reply
        case ToolError(code, canRetry) => (Failure(h, tool, code, canRetry), false)
        case ToolPolicyError(code) => (Failure(h, tool, code, false), true)
        case ToolCrash => (Failure(h, tool, InternalError, false), false)
        case NotAnOutput => (Failure(h, tool, InvalidToolResult, false), false)
        case Output(ref, payload, bytes) =>
          if ref.MalformedRef? then (Failure(h, tool, InvalidToolResult, false), false)
          else if bytes > cfg.policy.maxObservationBytes then (Failure(h, tool, ObservationTooLarge, false), false)
          else (Observed(h, ObservationBody(tool, true, Some(ref), payload, None, false)), false)
  }

  function ContextHash(cfg: Config, task: Task, env: Environment): Digest {
    cfg.hashes.context(cfg.HeaderFor(env.traceId, task))
  }

  function Append(cfg: Config, task: Task, env: Environment, events: seq<Event>, entry: Entry): seq<Event> {
    events + [Recorded(cfg.hashes, ContextHash(cfg, task, env), events, entry)]
  }

  function ActionEntry(env: Environment, events: seq<Event>, state: AgentState, action: Decision, audit: Option<Audit>)
    : Entry
  {
    Entry(state, ActionSelected, Acting, Some(action), audit, None, None, 0.0, env.timestamp(|events|))
  }

  function ObservedEntry(env: Environment, events: seq<Event>, o: Observation, step: nat): Entry {
    Entry(Acting, ToolObserved, Observing, None, None, Some(o), None, env.durationMs(step), env.timestamp(|events|))
  }

  function ProcessedEntry(env: Environment, events: seq<Event>): Entry {
    Entry(Observing, ObservationProcessed, Deciding, None, None, None, None, 0.0, env.timestamp(|events|))
  }

  /** The three events of one performed action. */
  function ActionEvents(
    cfg: Config, task: Task, env: Environment, s: RunState, action: Decision, audit: Option<Audit>, o: Observation)
    : seq<Event>
  {
    var one := Append(cfg, task, env, s.events, ActionEntry(env, s.events, s.state, action, audit));
    var two := Append(cfg, task, env, one, ObservedEntry(env, one, o, s.steps));
    Append(cfg, task, env, two, ProcessedEntry(env, two))
  }

  /** The loop state after an action that no budget denied. */
  function Perform(
    cfg: Config, task: Task, env: Environment, s: RunState, action: Decision, audit: Option<Audit>, o: Observation)
    : RunState
    requires action.ToolAction?
  {
    var key := cfg.hashes.action(action.tool, action.arguments);
    RunState(
      ActionEvents(cfg, task, env, s, action, audit, o), s.observations + [o], Deciding, s.steps + 1, s.calls + 1,
      s.creations + (if CreatesRun(action.tool) then 1 else 0),
      s.failures + (if o.succeeded then 0 else 1),
      s.attempts[key := Attempts(s, key) + 1])
  }

  // ----- Endings -----

  function FailedResult(
    task: Task, env: Environment, observations: seq<Observation>, steps: nat, calls: nat, reason: Reason): TerminalResult
  {
    var refs := SuccessfulEvidence(observations);
    TerminalResult(env.traceId, Failed, Inconclusive, refs, reason,
                   TerminalReport(task, Inconclusive, reason, observations, refs), steps, calls)
  }

  function CompletedResult(
    task: Task, env: Environment, observations: seq<Observation>, steps: nat, calls: nat, finish: Decision): TerminalResult
    requires finish.Finish?
  {
    TerminalResult(env.traceId, Completed, finish.outcome, finish.refs, finish.finishReason,
                   TerminalReport(task, finish.outcome, finish.finishReason, observations, finish.refs), steps, calls)
  }

  function FailedEntry(env: Environment, events: seq<Event>, state: AgentState, result: TerminalResult): Entry {
    Entry(state, RunFailed, Failed, None, None, None, Some(result), 0.0, env.timestamp(|events|))
  }

  function CompletedEntry(
    env: Environment, events: seq<Event>, state: AgentState, finish: Decision, audit: Option<Audit>, result: TerminalResult)
    : Entry
  {
    Entry(state, RunCompleted, Completed, Some(finish), audit, None, Some(result), 0.0, env.timestamp(|events|))
  }

  function Finished(cfg: Config, task: Task, env: Environment, events: seq<Event>, entry: Entry): AgentTrace
    requires entry.terminal.Some?
  {
    AgentTrace(cfg.HeaderFor(env.traceId, task), Append(cfg, task, env, events, entry), entry.terminal.value)
  }

  function Fail(cfg: Config, task: Task, env: Environment, s: RunState, steps: nat, reason: Reason): AgentTrace {
    var result := FailedResult(task, env, s.observations, steps, s.calls, reason);
    Finished(cfg, task, env, s.events, FailedEntry(env, s.events, s.state, result))
  }

  function Complete(cfg: Config, task: Task, env: Environment, s: RunState, steps: nat, finish: Decision, audit: Option<Audit>)
    : AgentTrace
    requires finish.Finish?
  {
    var result := CompletedResult(task, env, s.observations, steps, s.calls, finish);
    Finished(cfg, task, env, s.events, CompletedEntry(env, s.events, s.state, finish, audit, result))
  }

  // ----- One turn, and the whole run -----

  datatype TurnResult = Continued(next: RunState) | Ended(trace: AgentTrace)

  function ActTurn(cfg: Config, task: Task, env: Environment, s: RunState, action: Decision, audit: Option<Audit>): TurnResult
    requires action.ToolAction?
  {
    var denied := Denied(cfg, s, action);
    if denied.Some? then Ended(Fail(cfg, task, env, s, s.steps + 1, denied.value))
    else
      var (o, violation) := ExecuteTool(cfg, task, action, s.observations, env.tool(CurrentView(cfg, task, env, s), action));
      var next := Perform(cfg, task, env, s, action, audit, o);
      if violation then Ended(Fail(cfg, task, env, next, next.steps, PolicyViolation))
      else if next.failures >= cfg.policy.maxFailures then Ended(Fail(cfg, task, env, next, next.steps, FailureBudgetExhausted))
      else Continued(next)
  }

  function Turn(cfg: Config, task: Task, env: Environment, s: RunState): TurnResult {
    match Consult(cfg, env, CurrentView(cfg, task, env, s))
    case Refused(reason) => Ended(Fail(cfg, task, env, s, s.steps, reason))
    case Decided(decision, audit) =>
      if decision.Finish? then
        if FinishError(task, decision, s.observations).Some?
        then Ended(Fail(cfg, task, env, s, s.steps + 1, UngroundedFinishRejected))
        else Ended(Complete(cfg, task, env, s, s.steps + 1, decision, audit))
      else ActTurn(cfg, task, env, s, decision, audit)
  }

  /** The trace a run stores when it continues from `s`. */
  function RunFrom(cfg: Config, task: Task, env: Environment, s: RunState): AgentTrace
    decreases cfg.policy.maxSteps - s.steps
  {
    if s.steps >= cfg.policy.maxSteps then Fail(cfg, task, env, s, s.steps, StepBudgetExhausted)
    else
      match Turn(cfg, task, env, s)
      case Ended(trace) => trace
      case Continued(next) => RunFrom(cfg, task, env, next)
  }

  function RunTrace(cfg: Config, task: Task, env: Environment): AgentTrace {
    RunFrom(cfg, task, env, START)
  }

  // ----- The equations of a run -----

  lemma RunStarts(cfg: Config, task: Task, env: Environment)
    ensures RunTrace(cfg, task, env) == RunFrom(cfg, task, env, START)
    ensures START == RunState([], [], Planning, 0, 0, 0, 0, map[])
  {
  }

  // The run ends for want of steps.
  lemma RunExhausts(cfg: Config, task: Task, env: Environment, s: RunState)
    ensures s.steps >= cfg.policy.maxSteps ==> RunFrom(cfg, task, env, s) == Fail(cfg, task, env, s, s.steps, StepBudgetExhausted)
  {
  }

  // The run ends at a refused consultation or at a finish.
  lemma RunStops(cfg: Config, task: Task, env: Environment, s: RunState)
    requires s.steps < cfg.policy.maxSteps
    ensures CurrentView(cfg, task, env, s) == ViewOf(cfg, task, env, s.observations, s.state, s.steps, s.calls)
    ensures var view := CurrentView(cfg, task, env, s);
            view.observations == s.observations && view.state == s.state && view.stepsUsed == s.steps
    ensures var consulted := Consult(cfg, env, CurrentView(cfg, task, env, s));
            && (consulted.Refused? ==> RunFrom(cfg, task, env, s) == Fail(cfg, task, env, s, s.steps, consulted.reason))
            && (consulted.Decided? && consulted.decision.Finish? ==>
                  RunFrom(cfg, task, env, s) ==
                  if FinishError(task, consulted.decision, s.observations).Some?
                  then Fail(cfg, task, env, s, s.steps + 1, UngroundedFinishRejected)
                  else Complete(cfg, task, env, s, s.steps + 1, consulted.decision, consulted.audit))
  {
  }

  // The run ends at the first budget, in order, that the action exceeds.
  lemma RunDenies(cfg: Config, task: Task, env: Environment, s: RunState, action: Decision, audit: Option<Audit>)
    requires s.steps < cfg.policy.maxSteps
    requires Consult(cfg, env, CurrentView(cfg, task, env, s)) == Decided(action, audit) && action.ToolAction?
    ensures Denied(cfg, s, action).Some? ==>
              RunFrom(cfg, task, env, s) == Fail(cfg, task, env, s, s.steps + 1, Denied(cfg, s, action).value)
    ensures var key := cfg.hashes.action(action.tool, action.arguments);
            Denied(cfg, s, action) ==
            if s.calls >= cfg.policy.maxToolCalls then Some(ToolCallBudgetExhausted)
            else if CreatesRun(action.tool) && s.creations >= cfg.policy.maxRunCreations then Some(RunCreationBudgetExhausted)
            else if (if key in s.attempts then s.attempts[key] else 0) + 1 > cfg.policy.maxSameActionAttempts
            then Some(RepeatedActionRejected)
            else None
  {
    hide Consult, CurrentView, Fail;
  }

  /** A run from `s` that performs an action goes on from the state after it, unless the action
      broke a policy or used up the failure budget. */
  lemma RunActs(cfg: Config, task: Task, env: Environment, s: RunState, action: Decision, audit: Option<Audit>)
    requires s.steps < cfg.policy.maxSteps
    requires Consult(cfg, env, CurrentView(cfg, task, env, s)) == Decided(action, audit) && action.ToolAction?
    requires Denied(cfg, s, action).None?
    ensures var (o, violation) := ExecuteTool(cfg, task, action, s.observations, env.tool(CurrentView(cfg, task, env, s), action));
            var next := Perform(cfg, task, env, s, action, audit, o);
            RunFrom(cfg, task, env, s) ==
            if violation then Fail(cfg, task, env, next, next.steps, PolicyViolation)
            else if next.failures >= cfg.policy.maxFailures then Fail(cfg, task, env, next, next.steps, FailureBudgetExhausted)
            else RunFrom(cfg, task, env, next)
  {
    hide Consult, CurrentView, Fail, Perform, ExecuteTool, Denied;
  }

  lemma PerformFields(cfg: Config, task: Task, env: Environment, s: RunState, action: Decision, audit: Option<Audit>, o: Observation)
    requires action.ToolAction?
    ensures var key := cfg.hashes.action(action.tool, action.arguments);
            Perform(cfg, task, env, s, action, audit, o) == RunState(
              ActionEvents(cfg, task, env, s, action, audit, o), s.observations + [o], Deciding, s.steps + 1, s.calls + 1,
              s.creations + (if CreatesRun(action.tool) then 1 else 0),
              s.failures + (if o.succeeded then 0 else 1),
              s.attempts[key := (if key in s.attempts then s.attempts[key] else 0) + 1])
  {
  }

  // ----- The runtime object -----

  /** The outcome of handing a trace to the write-once store. */
  ghost predicate StoredAs(
    before: map<Id, AgentTrace>, after: map<Id, AgentTrace>, trace: AgentTrace, r: Option<TerminalResult>)
  {
    var id := trace.header.traceId;
    var accepted := id in before ==> before[id] == trace;
    && r == (if accepted then Some(trace.terminal) else None)
    && after == if accepted then before[id := trace] else before
  }

  class AgentRuntime {
    const cfg: Config
    const store: TraceStore

    constructor (cfg: Config, store: TraceStore)
      ensures this.cfg == cfg && this.store == store
    {
      this.cfg := cfg;
      this.store := store;
    }

    /** Appends the final event and stores the trace. */
    method Finalize(task: Task, env: Environment, recorder: TraceRecorder, entry: Entry)
      returns (r: Option<TerminalResult>)
      requires recorder.hashes == cfg.hashes && recorder.contextHash == ContextHash(cfg, task, env)
      requires entry.terminal.Some? && (entry.eventType == RunCompleted || entry.eventType == RunFailed)
      modifies recorder, store
      ensures StoredAs(old(store.traces), store.traces, Finished(cfg, task, env, old(recorder.events), entry), r)
    {
      var _ := recorder.Append(entry);
      var stored := store.Store(AgentTrace(cfg.HeaderFor(env.traceId, task), recorder.events, entry.terminal.value));
      r := if stored then entry.terminal else None;
    }

    method Reject(
      task: Task, env: Environment, recorder: TraceRecorder, observations: seq<Observation>, state: AgentState,
      steps: nat, calls: nat, reason: Reason)
      returns (r: Option<TerminalResult>)
      requires recorder.hashes == cfg.hashes && recorder.contextHash == ContextHash(cfg, task, env)
      modifies recorder, store
      ensures forall s: RunState ::
                s.events == old(recorder.events) && s.observations == observations && s.state == state && s.calls == calls ==>
                  StoredAs(old(store.traces), store.traces, Fail(cfg, task, env, s, steps, reason), r)
    {
      var result := FailedResult(task, env, observations, steps, calls, reason);
      r := Finalize(task, env, recorder, FailedEntry(env, recorder.events, state, result));
    }

    method Accept(
      task: Task, env: Environment, recorder: TraceRecorder, observations: seq<Observation>, state: AgentState,
      steps: nat, calls: nat, finish: Decision, audit: Option<Audit>)
      returns (r: Option<TerminalResult>)
      requires finish.Finish?
      requires recorder.hashes == cfg.hashes && recorder.contextHash == ContextHash(cfg, task, env)
      modifies recorder, store
      ensures forall s: RunState ::
                s.events == old(recorder.events) && s.observations == observations && s.state == state && s.calls == calls ==>
                  StoredAs(old(store.traces), store.traces, Complete(cfg, task, env, s, steps, finish, audit), r)
    {
      var result := CompletedResult(task, env, observations, steps, calls, finish);
      r := Finalize(task, env, recorder, CompletedEntry(env, recorder.events, state, finish, audit, result));
    }

    /** Dispatches an action and records it, its observation and the processing of that observation. */
    method Dispatch(
      task: Task, env: Environment, recorder: TraceRecorder, view: View, action: Decision, audit: Option<Audit>)
      returns (observation: Observation, violation: bool)
      requires action.ToolAction?
      requires recorder.hashes == cfg.hashes && recorder.contextHash == ContextHash(cfg, task, env)
      modifies recorder
      ensures (observation, violation) == ExecuteTool(cfg, task, action, view.observations, env.tool(view, action))
      ensures forall s: RunState ::
                s.events == old(recorder.events) && s.state == view.state && s.steps == view.stepsUsed ==>
                  recorder.events == ActionEvents(cfg, task, env, s, action, audit, observation)
    {
      var _ := recorder.Append(ActionEntry(env, recorder.events, view.state, action, audit));
      var (o, v) := ExecuteTool(cfg, task, action, view.observations, env.tool(view, action));
      observation, violation := o, v;
      var _ := recorder.Append(ObservedEntry(env, recorder.events, observation, view.stepsUsed));
      var _ := recorder.Append(ProcessedEntry(env, recorder.events));
    }

    /** Runs the loop and stores `RunTrace`.  None when its id already names another trace. */
    method Run(task: Task, env: Environment) returns (r: Option<TerminalResult>)
      modifies store
      ensures StoredAs(old(store.traces), store.traces, RunTrace(cfg, task, env), r)
    {
      hide *;
      var recorder := new TraceRecorder(cfg.hashes, ContextHash(cfg, task, env));
      var observations, state, steps, calls, creations, failures := [], Planning, 0, 0, 0, 0;
      var attempts: map<Digest, nat> := map[];
      var reason := StepBudgetExhausted;
      ghost var s := START;
      RunStarts(cfg, task, env);
      while steps < cfg.policy.maxSteps
        invariant fresh(recorder) && recorder.hashes == cfg.hashes && recorder.contextHash == ContextHash(cfg, task, env)
        invariant store.traces == old(store.traces) && reason == StepBudgetExhausted
        invariant s == RunState(recorder.events, observations, state, steps, calls, creations, failures, attempts)
        invariant RunFrom(cfg, task, env, s) == RunTrace(cfg, task, env)
        decreases cfg.policy.maxSteps - steps
      {
        var view := ViewOf(cfg, task, env, observations, state, steps, calls);
        var consulted := Consult(cfg, env, view);
        RunStops(cfg, task, env, s);
        if consulted.Refused? {
          reason := consulted.reason;
          break;
        }
        var decision, audit := consulted.decision, consulted.audit;
        steps := steps + 1;
        if decision.Finish? {
          var error := ValidateFinishGrounding(task, decision, observations);
          if error.Some? {
            reason := UngroundedFinishRejected;
            break;
          }
          r := Accept(task, env, recorder, observations, state, steps, calls, decision, audit);
          return;
        }
        RunDenies(cfg, task, env, s, decision, audit);
        if calls >= cfg.policy.maxToolCalls {
          reason := ToolCallBudgetExhausted;
          break;
        }
        if CreatesRun(decision.tool) {
          if creations >= cfg.policy.maxRunCreations {
            reason := RunCreationBudgetExhausted;
            break;
          }
          creations := creations + 1;
        }
        var key := cfg.hashes.action(decision.tool, decision.arguments);
        attempts := attempts[key := (if key in attempts then attempts[key] else 0) + 1];
        if attempts[key] > cfg.policy.maxSameActionAttempts {
          reason := RepeatedActionRejected;
          break;
        }
        RunActs(cfg, task, env, s, decision, audit);
        var observation, violation := Dispatch(task, env, recorder, view, decision, audit);
        PerformFields(cfg, task, env, s, decision, audit, observation);
        s := Perform(cfg, task, env, s, decision, audit, observation);
        calls := calls + 1;
        observations := observations + [observation];
        state := Deciding;
        if !observation.succeeded {
          failures := failures + 1;
        }
        if violation {
          reason := PolicyViolation;
          break;
        }
        if failures >= cfg.policy.maxFailures {
          reason := FailureBudgetExhausted;
          break;
        }
      }
      RunExhausts(cfg, task, env, s);
      assert RunTrace(cfg, task, env) == Fail(cfg, task, env, s, steps, reason);
      r := Reject(task, env, recorder, observations, state, steps, calls, reason);
    }
  }
}
