/** The checker: everything a trace claims is derived again from its log (replay.py). */
module Replay {
  import opened Contracts
  import opened Grounding
  import opened Reporting
  import opened RetrievalPolicy
  import opened Trace
  import Runtime

  datatype ReplayError = HashMismatch | ReplayFailed

  predicate AllowedTransition(before: AgentState, eventType: EventType, after: AgentState) {
    match eventType
    case ActionSelected => (before == Planning || before == Deciding) && after == Acting
    case ToolObserved => before == Acting && after == Observing
    case ObservationProcessed => before == Observing && after == Deciding
    case RunCompleted => (before == Planning || before == Deciding) && after == Completed
    case RunFailed => before != Completed && before != Failed && after == Failed
  }

  // The local variables of the event loop.
  datatype ReplayState = ReplayState(
    observations: seq<Observation>, state: AgentState, previousHash: Digest,
    pendingTool: Option<ToolName>, pendingScope: Option<ErrorCode>, pendingRegistry: Option<ErrorCode>,
    binding: Option<AuditBinding>, actions: nat, final: Option<Event>)

  function Initial(h: Hashes): ReplayState {
    ReplayState([], Planning, h.zero, None, None, None, None, 0, None)
  }

  /** A missing audit may have been hashed as null or left out. */
  predicate HashMatches(h: Hashes, e: Event) {
    if e.audit.Some? then e.eventHash == h.event(e.Body(Present(e.audit.value)))
    else e.eventHash == h.event(e.Body(Null)) || e.eventHash == h.event(e.Body(Omitted))
  }

  function ChainError(h: Hashes, s: ReplayState, e: Event, sequence: nat): Option<ReplayError> {
    if e.sequence != sequence then Some(ReplayFailed)
    else if e.previousHash != s.previousHash then Some(HashMismatch)
    else if !HashMatches(h, e) then Some(HashMismatch)
    else if e.before != s.state || !AllowedTransition(e.before, e.eventType, e.after) then Some(ReplayFailed)
    else None
  }

  /** Audits sit on decisions only, and every decision of the LLM planner has one. */
  predicate AuditPlaced(plannerId: PlannerId, e: Event) {
    && (e.audit.Some? ==> e.IsDecision() && e.audit.value.ValidAudit?)
    && (plannerId == LlmPlanner && e.IsDecision() ==> e.audit.Some?)
  }

  /** Only the last event is terminal, and only it binds the terminal result and the context. */
  predicate FinalDataPlaced(s: ReplayState, e: Event, sequence: nat, total: nat) {
    if e.IsTerminal() then sequence == total && e.terminalHash.Some? && e.contextHash.Some? && s.pendingTool.None?
    else e.terminalHash.None? && e.contextHash.None?
  }

  function AuditOf(e: Event): Option<Audit> {
    if e.audit.Some? && e.audit.value.ValidAudit? then Some(e.audit.value.audit) else None
  }

  /** The option a decision was audited as must be the one the policy derives, out of the same
      number of options, under an unchanged planner configuration.  None is a raised error. */
  function BindOption(
    header: Header, observations: seq<Observation>, decision: Decision, audit: Option<Audit>,
    expected: Option<AuditBinding>)
    : Option<Option<AuditBinding>>
  {
    if header.plannerId != LlmPlanner then
      if audit.Some? then None else Some(None)
    else if audit.None? || !header.task.RetrievalTask? then None
    else
      match DeriveOptions(header.task, observations)
      case None => None
      case Some(options) =>
        var matches := Matching(options, decision);
        if audit.value.optionCount != |options| || |matches| != 1 || matches[0].id != audit.value.selectedOption then None
        else if expected.Some? && expected.value != audit.value.binding then None
        else Some(Some(audit.value.binding))
  }

  function ReplayAction(header: Header, s: ReplayState, e: Event): Result<ReplayState, ReplayError> {
    if !e.decision.Known? || !e.decision.decision.ToolAction? || s.pendingTool.Some? then Err(ReplayFailed)
    else
      var action := e.decision.decision;
      match BindOption(header, s.observations, action, AuditOf(e), s.binding)
      case None => Err(ReplayFailed)
      case Some(binding) =>
        var scope := ActionScope(header.task, action, s.observations);
        if scope.Crashed? then Err(ReplayFailed)
        else
          Ok(s.(pendingTool := Some(action.tool),
                pendingRegistry := if action.tool !in header.toolNames then Some(ToolNotAllowed) else s.pendingRegistry,
                pendingScope := if scope.OutOfScope? then Some(scope.code) else s.pendingScope,
                binding := binding,
                actions := s.actions + 1))
  }

  function ReplayObservation(h: Hashes, s: ReplayState, e: Event): Result<ReplayState, ReplayError> {
    if !e.observation.ValidObservation? then Err(ReplayFailed)
    else
      var o := e.observation.observation;
      var expected := if s.pendingScope.Some? then s.pendingScope else s.pendingRegistry;
      if s.pendingTool != Some(o.tool) then Err(ReplayFailed)
      else if expected.Some? && (o.succeeded || o.error != expected) then Err(ReplayFailed)
      else if h.observation(o.Body()) != o.sha256 then Err(HashMismatch)
      else Ok(s.(observations := s.observations + [o], pendingTool := None, pendingScope := None, pendingRegistry := None))
  }

  predicate ClaimsFinish(d: StoredDecision) {
    (d.Known? && d.decision.Finish?) || (d.Unknown? && d.kind == FinishKind)
  }

  /** One iteration of the event loop. */
  function ReplayEvent(h: Hashes, header: Header, total: nat, s: ReplayState, e: Event, sequence: nat)
    : Result<ReplayState, ReplayError>
  {
    var chain := ChainError(h, s, e, sequence);
    if chain.Some? then Err(chain.value)
    else if !AuditPlaced(header.plannerId, e) || !FinalDataPlaced(s, e, sequence, total) then Err(ReplayFailed)
    else
      var step := match e.eventType
        case ActionSelected => ReplayAction(header, s, e)
        case ToolObserved => ReplayObservation(h, s, e)
        case RunCompleted => if ClaimsFinish(e.decision) then Ok(s) else Err(ReplayFailed)
        case _ => Ok(s);
      match step
      case Err(error) => Err(error)
      case Ok(next) =>
        Ok(next.(state := e.after, previousHash := e.eventHash, final := if e.IsTerminal() then Some(e) else s.final))
  }

  /** The loop after the first k of `events`, in a log of `total` events. */
  function ReplayPrefix(h: Hashes, header: Header, total: nat, events: seq<Event>, k: nat)
    : Result<ReplayState, ReplayError>
    requires k <= |events|
  {
    if k == 0 then Ok(Initial(h))
    else
      match ReplayPrefix(h, header, total, events, k - 1)
      case Err(error) => Err(error)
      case Ok(s) => ReplayEvent(h, header, total, s, events[k - 1], k)
  }

  predicate CreatesRunEvent(e: Event) {
    e.eventType == ActionSelected && e.decision.Known? && e.decision.decision.ToolAction?
    && Runtime.CreatesRun(e.decision.decision.tool)
  }

  function CountCreations(events: seq<Event>): nat {
    if events == [] then 0
    else CountCreations(events[..|events| - 1]) + if CreatesRunEvent(events[|events| - 1]) then 1 else 0
  }

  predicate UnrecordedDecision(reason: Reason) {
    || reason == RepeatedActionRejected || reason == RunCreationBudgetExhausted
    || reason == ToolCallBudgetExhausted || reason == UngroundedFinishRejected
  }

  predicate WithinLimit(n: nat, limit: Option<int>) {
    limit.Some? && limit.value >= 1 && n <= limit.value
  }

  const RETRIEVAL_TOOLS: seq<ToolName> := [DiagnoseBaseline, RunCandidate]
  const RETRIEVAL_CAPABILITIES: seq<Capability> := [DiagnoseRetrieval, ExperimentRetrieval]

  predicate CompletionReplays(header: Header, s: ReplayState, e: Event, terminal: TerminalResult) {
    && terminal.state == Completed
    && e.decision.Known? && e.decision.decision.Finish?
    && var finish := e.decision.decision;
    && |finish.refs| <= Runtime.MAX_REFS
    && BindOption(header, s.observations, finish, AuditOf(e), s.binding).Some?
    && finish.outcome == terminal.outcome && finish.finishReason == terminal.reason && finish.refs == terminal.refs
    && FinishError(header.task, finish, s.observations).None?
  }

  predicate FailureReplays(e: Event, terminal: TerminalResult) {
    e.decision.NoDecision? && terminal.state == Failed && terminal.outcome == Inconclusive
  }

  predicate CountsReplay(trace: AgentTrace, s: ReplayState, e: Event) {
    var terminal, policy := trace.terminal, trace.header.policy;
    && terminal.toolCallsUsed == s.actions
    && terminal.stepsUsed == s.actions + (if e.eventType == RunCompleted || UnrecordedDecision(terminal.reason) then 1 else 0)
    && WithinLimit(terminal.stepsUsed, policy.maxSteps)
    && WithinLimit(terminal.toolCallsUsed, policy.maxToolCalls)
    && WithinLimit(CountCreations(trace.events), policy.maxRunCreations)
  }

  predicate MinimalRegistry(header: Header) {
    header.task.RetrievalTask? ==>
      header.toolNames == RETRIEVAL_TOOLS && header.policy.capabilities == RETRIEVAL_CAPABILITIES
  }

  /** Every check made after the last event. */
  predicate FinalReplays(h: Hashes, trace: AgentTrace, s: ReplayState) {
    var terminal, header := trace.terminal, trace.header;
    && s.final.Some?
    && var e := s.final.value;
    && terminal.traceId == header.traceId
    && e.contextHash == Some(h.context(header))
    && e.terminalHash == Some(h.terminal(terminal))
    && s.state == terminal.state && (s.state == Completed || s.state == Failed)
    && (if e.eventType == RunCompleted then CompletionReplays(header, s, e, terminal) else FailureReplays(e, terminal))
    && CountsReplay(trace, s, e)
    && MinimalRegistry(header)
    && (forall r :: r in terminal.refs ==> r in SuccessfulEvidence(s.observations))
    && terminal.report == TerminalReport(header.task, terminal.outcome, terminal.reason, s.observations, terminal.refs)
  }

  /** The verdict on a stored trace: None when it replays. */
  function ReplayVerdict(h: Hashes, trace: AgentTrace): Option<ReplayError> {
    match ReplayPrefix(h, trace.header, |trace.events|, trace.events, |trace.events|)
    case Err(error) => Some(error)
    case Ok(s) => if FinalReplays(h, trace, s) then None else Some(ReplayFailed)
  }

  predicate Accepted(h: Hashes, trace: AgentTrace) {
    ReplayVerdict(h, trace).None?
  }

  // ----- The replayer object -----

  lemma {:induction false} ErrorsPersist(h: Hashes, header: Header, total: nat, events: seq<Event>, k: nat)
    requires k <= |events|
    ensures ReplayPrefix(h, header, total, events, k).Err? ==>
              ReplayPrefix(h, header, total, events, |events|) == ReplayPrefix(h, header, total, events, k)
    decreases |events| - k
  {
    hide ReplayEvent, Initial;
    if k < |events| {
      ErrorsPersist(h, header, total, events, k + 1);
    }
  }

  class TraceReplayer {
    const hashes: Hashes
    const store: TraceStore

    constructor (hashes: Hashes, store: TraceStore)
      ensures this.hashes == hashes && this.store == store
    {
      this.hashes := hashes;
      this.store := store;
    }

    /** Loads a trace and returns it when, and only when, it replays. */
    method ReplayTrace(traceId: Id) returns (r: Result<AgentTrace, ReplayError>)
      ensures var traces := store.traces;
              r == if traceId !in traces || traces[traceId].header.traceId != traceId then Err(ReplayFailed)
                   else
                     var verdict := ReplayVerdict(hashes, traces[traceId]);
                     if verdict.Some? then Err(verdict.value) else Ok(traces[traceId])
    {
      hide ReplayEvent, FinalReplays, Initial;
      var loaded := store.Load(traceId);
      if loaded.None? {
        return Err(ReplayFailed);
      }
      var trace := loaded.value;
      var header, total := trace.header, |trace.events|;
      var s := Initial(hashes);
      for i := 0 to total
        invariant ReplayPrefix(hashes, header, total, trace.events, i) == Ok(s)
      {
        var step := ReplayEvent(hashes, header, total, s, trace.events[i], i + 1);
        if step.Err? {
          ErrorsPersist(hashes, header, total, trace.events, i + 1);
          return Err(step.error);
        }
        s := step.value;
      }
      return if FinalReplays(hashes, trace, s) then Ok(trace) else Err(ReplayFailed);
    }
  }
}
