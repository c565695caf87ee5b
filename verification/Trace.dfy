/** The recorder of an event log and the store of finished traces (trace.py). */
module Trace {
  import opened Contracts
  import opened Reporting

  datatype EventType = ActionSelected | ToolObserved | ObservationProcessed | RunCompleted | RunFailed

  datatype Kind = ToolKind | FinishKind | OtherKind

  // A stored object that does not parse as what its place requires is kept as text.
  datatype StoredDecision = NoDecision | Known(decision: Decision) | Unknown(kind: Kind, json: string)
  datatype StoredAudit = ValidAudit(audit: Audit) | BrokenAudit(json: string)
  datatype StoredObservation = NoObservation | ValidObservation(observation: Observation) | BrokenObservation(json: string)

  // The audit key of a hashed payload: left out, null, or present.
  datatype AuditField = Omitted | Null | Present(audit: StoredAudit)

  datatype EventBody = EventBody(
    sequence: int, timestamp: string, before: AgentState, eventType: EventType, after: AgentState,
    decision: StoredDecision, audit: AuditField, observation: StoredObservation, durationMs: real,
    contextHash: Option<Digest>, terminalHash: Option<Digest>, previousHash: Digest)

  datatype Event = Event(
    sequence: int, timestamp: string, before: AgentState, eventType: EventType, after: AgentState,
    decision: StoredDecision, audit: Option<StoredAudit>, observation: StoredObservation, durationMs: real,
    contextHash: Option<Digest>, terminalHash: Option<Digest>, previousHash: Digest, eventHash: Digest)
  {
    function Body(field: AuditField): EventBody {
      EventBody(sequence, timestamp, before, eventType, after, decision, field, observation, durationMs,
                contextHash, terminalHash, previousHash)
    }

    predicate IsTerminal() {
      eventType == RunCompleted || eventType == RunFailed
    }

    // Action selections and completions record a planner decision.
    predicate IsDecision() {
      eventType == ActionSelected || eventType == RunCompleted
    }
  }

  datatype PlannerId = LlmPlanner | NamedPlanner(name: string)

  datatype Capability = DiagnoseRetrieval | ExperimentRetrieval | OtherCapability(name: string)

  // A stored limit is None when it is absent or not an integer.
  datatype StoredPolicy = StoredPolicy(
    maxSteps: Option<int>, maxToolCalls: Option<int>, maxRunCreations: Option<int>, maxFailures: Option<int>,
    maxSameActionAttempts: Option<int>, maxElapsedMs: Option<int>, maxDecisionBytes: Option<int>,
    maxObservationBytes: Option<int>, capabilities: seq<Capability>)

  // What the context hash binds.
  datatype Header = Header(
    traceId: Id, plannerId: PlannerId, task: Task, policy: StoredPolicy, toolNames: seq<ToolName>)

  datatype TerminalResult = TerminalResult(
    traceId: Id, state: AgentState, outcome: Outcome, refs: seq<EvidenceRef>, reason: Reason, report: Report,
    stepsUsed: nat, toolCallsUsed: nat)

  datatype AgentTrace = AgentTrace(header: Header, events: seq<Event>, terminal: TerminalResult)

  /** The five digests of the program, as arbitrary functions of what they hash. */
  datatype Hashes = Hashes(
    zero: Digest,
    event: EventBody -> Digest,
    terminal: TerminalResult -> Digest,
    context: Header -> Digest,
    observation: ObservationBody -> Digest,
    action: (ToolName, Arguments) -> Digest)

  function LastHash(h: Hashes, events: seq<Event>): Digest {
    if events == [] then h.zero else events[|events| - 1].eventHash
  }

  /** What the recorder is asked to append. */
  datatype Entry = Entry(
    before: AgentState, eventType: EventType, after: AgentState, decision: Option<Decision>, audit: Option<Audit>,
    observation: Option<Observation>, terminal: Option<TerminalResult>, durationMs: real, timestamp: string)

  /** The event appended after `events`: numbered, chained, and hashed without an absent audit. */
  function Recorded(h: Hashes, contextHash: Digest, events: seq<Event>, entry: Entry): Event {
    var final := entry.eventType == RunCompleted || entry.eventType == RunFailed;
    var unhashed := Event(
      |events| + 1, entry.timestamp, entry.before, entry.eventType, entry.after,
      if entry.decision.Some? then Known(entry.decision.value) else NoDecision,
      if entry.audit.Some? then Some(ValidAudit(entry.audit.value)) else None,
      if entry.observation.Some? then ValidObservation(entry.observation.value) else NoObservation,
      entry.durationMs,
      if final then Some(contextHash) else None,
      if entry.terminal.Some? then Some(h.terminal(entry.terminal.value)) else None,
      LastHash(h, events), h.zero);
    var field := if entry.audit.Some? then Present(ValidAudit(entry.audit.value)) else Omitted;
    unhashed.(eventHash := h.event(unhashed.Body(field)))
  }

  class TraceRecorder {
    const hashes: Hashes
    const contextHash: Digest
    var events: seq<Event>

    constructor (hashes: Hashes, contextHash: Digest)
      ensures this.hashes == hashes && this.contextHash == contextHash && events == []
    {
      this.hashes := hashes;
      this.contextHash := contextHash;
      events := [];
    }

    /** Refuses a terminal result on a non-final event and a final event without one. */
    method Append(entry: Entry) returns (ok: bool)
      modifies this
      ensures ok == ((entry.eventType == RunCompleted || entry.eventType == RunFailed) == entry.terminal.Some?)
      ensures events == if ok then old(events) + [Recorded(hashes, contextHash, old(events), entry)] else old(events)
    {
      var final := entry.eventType == RunCompleted || entry.eventType == RunFailed;
      if final != entry.terminal.Some? {
        return false;
      }
      events := events + [Recorded(hashes, contextHash, events, entry)];
      return true;
    }
  }

  // ----- Trace files -----

  /** A trace file is written once: the same content is accepted again, other content is refused. */
  predicate Storable(traces: map<Id, AgentTrace>, trace: AgentTrace) {
    trace.header.traceId in traces ==> traces[trace.header.traceId] == trace
  }

  function Stored(traces: map<Id, AgentTrace>, trace: AgentTrace): map<Id, AgentTrace> {
    if Storable(traces, trace) then traces[trace.header.traceId := trace] else traces
  }

  /** A file whose content names another trace is refused. */
  function Loaded(traces: map<Id, AgentTrace>, traceId: Id): Option<AgentTrace> {
    if traceId in traces && traces[traceId].header.traceId == traceId then Some(traces[traceId]) else None
  }

  function StoredAll(traces: map<Id, AgentTrace>, more: seq<AgentTrace>): map<Id, AgentTrace> {
    if more == [] then traces else Stored(StoredAll(traces, more[..|more| - 1]), more[|more| - 1])
  }

  /** A trace that was accepted is loaded whole under its own id after any later stores, and no other
      trace is ever loaded under that id. */
  lemma {:induction false} AcceptedIsLoaded(traces: map<Id, AgentTrace>, trace: AgentTrace, more: seq<AgentTrace>)
    requires Storable(traces, trace)
    ensures var after := StoredAll(Stored(traces, trace), more);
            && Loaded(after, trace.header.traceId) == Some(trace)
            && forall other: AgentTrace :: other.header.traceId == trace.header.traceId ==>
                 (Storable(after, other) <==> other == trace)
  {
    if more != [] {
      AcceptedIsLoaded(traces, trace, more[..|more| - 1]);
    }
  }

  class TraceStore {
    var traces: map<Id, AgentTrace>

    constructor ()
      ensures traces == map[]
    {
      traces := map[];
    }

    method Store(trace: AgentTrace) returns (ok: bool)
      modifies this
      ensures ok == Storable(old(traces), trace) && traces == Stored(old(traces), trace)
    {
      if trace.header.traceId in traces {
        ok := traces[trace.header.traceId] == trace;
      } else {
        traces := traces[trace.header.traceId := trace];
        ok := true;
      }
    }

    method Load(traceId: Id) returns (trace: Option<AgentTrace>)
      ensures trace == Loaded(traces, traceId)
    {
      if traceId !in traces || traces[traceId].header.traceId != traceId {
        return None;
      }
      return Some(traces[traceId]);
    }
  }
}
