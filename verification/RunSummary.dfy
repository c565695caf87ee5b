/** The public summary of a run (retrieval_runtime.py), rebuilt from its trace by a second reading of
    the log, and exactly when that reading succeeds. */
module RunSummary {
  import opened Contracts
  import opened Replay
  import opened ReplayCompleteness
  import opened Trace
  import opened TraceLanguage

  datatype ActionLine = ActionLine(
    sequence: nat, tool: ToolName, variant: Option<Variant>, succeeded: bool, ref: Option<EvidenceRef>,
    gatePassed: Option<bool>, failedGates: seq<GateName>, reason: Reason, retryable: bool, audit: Option<Audit>)

  /** One action and its observation; None is a raised error. */
  function SummarizeAction(d: Decision, o: Observation, sequence: nat, audit: Option<Audit>): Option<ActionLine> {
    if !d.ToolAction? || (d.tool != DiagnoseBaseline && d.tool != RunCandidate) then None
    else if d.tool == RunCandidate && (VariantKey !in d.arguments || !d.arguments[VariantKey].PipelineName?) then None
    else
      var variant := if d.tool == RunCandidate then Some(d.arguments[VariantKey].variant) else None;
      if !o.succeeded then
        if o.ref.Some? || o.payload != EmptyPayload then None
        else Some(ActionLine(sequence, d.tool, variant, false, None, None, [], d.actionReason, o.retryable, audit))
      else if d.tool == DiagnoseBaseline then
        Some(ActionLine(sequence, d.tool, None, true, o.ref, None, [], d.actionReason, o.retryable, audit))
      else if !o.payload.ExperimentPayload? || Some(o.payload.experiment.variant) != variant then None
      else
        var e := o.payload.experiment;
        Some(ActionLine(sequence, d.tool, variant, true, o.ref, Some(e.gatePassed), e.failedGates, d.actionReason, o.retryable, audit))
  }

  // The local variables of the loop.
  datatype SummaryState = SummaryState(
    pending: Option<StoredDecision>, pendingAudit: Option<Audit>, actions: seq<ActionLine>, audits: seq<Audit>)

  const START := SummaryState(None, None, [], [])

  function Audited(audits: seq<Audit>, audit: Option<Audit>): seq<Audit> {
    if audit.Some? then audits + [audit.value] else audits
  }

  function Read(s: SummaryState, e: Event): Option<SummaryState> {
    var broken := e.audit.Some? && e.audit.value.BrokenAudit?;
    match e.eventType
    case ActionSelected =>
      if s.pending.Some? || e.decision.NoDecision? || broken then None
      else Some(SummaryState(Some(e.decision), AuditOf(e), s.actions, Audited(s.audits, AuditOf(e))))
    case RunCompleted => if broken then None else Some(s.(audits := Audited(s.audits, AuditOf(e))))
    case ToolObserved =>
      if s.pending.None? || !s.pending.value.Known? || !e.observation.ValidObservation? then None
      else
        var line := SummarizeAction(s.pending.value.decision, e.observation.observation, |s.actions| + 1, s.pendingAudit);
        if line.None? then None else Some(SummaryState(None, None, s.actions + [line.value], s.audits))
    case _ => Some(s)
  }

  function ReadAll(events: seq<Event>, k: nat): Option<SummaryState>
    requires k <= |events|
  {
    if k == 0 then Some(START)
    else
      match ReadAll(events, k - 1)
      case None => None
      case Some(s) => Read(s, events[k - 1])
  }

  /** One provider, model and configuration over all audits, of which there is at least one. */
  predicate OneConfiguration(audits: seq<Audit>) {
    audits != [] && forall i :: 0 <= i < |audits| ==> audits[i].binding == audits[0].binding
  }

  datatype Summary = Summary(actions: seq<ActionLine>, audits: seq<Audit>, terminal: TerminalResult)

  predicate Countable(trace: AgentTrace, s: SummaryState) {
    && s.pending.None? && |s.actions| == trace.terminal.toolCallsUsed
    && (trace.header.plannerId == LlmPlanner ==> |s.audits| == trace.terminal.stepsUsed && OneConfiguration(s.audits))
    && (trace.header.plannerId != LlmPlanner ==> s.audits == [])
  }

  function SummaryOf(trace: AgentTrace): Option<Summary> {
    var s := ReadAll(trace.events, |trace.events|);
    if s.None? || !Countable(trace, s.value) then None
    else Some(Summary(s.value.actions, s.value.audits, trace.terminal))
  }

  method AgentRunSummary(trace: AgentTrace) returns (r: Option<Summary>)
    ensures r == SummaryOf(trace)
  {
    hide SummarizeAction;
    var pending, pendingAudit, actions, audits := None, None, [], [];
    for i := 0 to |trace.events|
      invariant ReadAll(trace.events, i) == Some(SummaryState(pending, pendingAudit, actions, audits))
    {
      var e := trace.events[i];
      assert ReadAll(trace.events, i + 1) == Read(SummaryState(pending, pendingAudit, actions, audits), e);
      if e.eventType == ActionSelected || e.eventType == RunCompleted {
        if e.eventType == ActionSelected && (pending.Some? || e.decision.NoDecision?) {
          ReadFails(trace.events, i + 1);
          return None;
        }
        if e.audit.Some? && e.audit.value.BrokenAudit? {
          ReadFails(trace.events, i + 1);
          return None;
        }
        if e.audit.Some? {
          audits := audits + [e.audit.value.audit];
        }
        if e.eventType == ActionSelected {
          pending, pendingAudit := Some(e.decision), AuditOf(e);
        }
      } else if e.eventType == ToolObserved {
        if pending.None? || !pending.value.Known? || !e.observation.ValidObservation? {
          ReadFails(trace.events, i + 1);
          return None;
        }
        var line := SummarizeAction(pending.value.decision, e.observation.observation, |actions| + 1, pendingAudit);
        if line.None? {
          ReadFails(trace.events, i + 1);
          return None;
        }
        actions, pending, pendingAudit := actions + [line.value], None, None;
      }
    }
    var s := SummaryState(pending, pendingAudit, actions, audits);
    return if Countable(trace, s) then Some(Summary(actions, audits, trace.terminal)) else None;
  }

  lemma {:induction false} ReadFails(events: seq<Event>, k: nat)
    requires k <= |events| && ReadAll(events, k).None?
    ensures ReadAll(events, |events|).None?
    decreases |events| - k
  {
    if k < |events| {
      ReadFails(events, k + 1);
    }
  }

  // ----- Accepted traces -----

  /** The line of call j in a log of triples. */
  function LineAt(events: seq<Event>, j: nat): Option<ActionLine>
    requires 3 * j + 1 < |events| && events[3 * j].decision.Known? && events[3 * j + 1].observation.ValidObservation?
  {
    SummarizeAction(events[3 * j].decision.decision, events[3 * j + 1].observation.observation, j + 1, AuditOf(events[3 * j]))
  }

  predicate Lined(events: seq<Event>, j: nat) {
    && 3 * j + 1 < |events| && events[3 * j].decision.Known? && events[3 * j + 1].observation.ValidObservation?
    && LineAt(events, j).Some?
  }

  // The audits of the first m decisions.
  ghost predicate AuditsOf(header: Header, events: seq<Event>, audits: seq<Audit>, m: nat) {
    if header.plannerId == LlmPlanner then
      && |audits| == m && 3 * m <= |events| + 2
      && forall j :: 0 <= j < m ==> Some(audits[j]) == AuditOf(events[3 * j])
    else audits == []
  }

  // What the loop has read after k events of the pattern.
  ghost predicate ReadTriples(header: Header, events: seq<Event>, k: nat, s: SummaryState)
    requires k <= |events|
  {
    && (if k % 3 == 1 then s.pending == Some(events[k - 1].decision) && s.pendingAudit == AuditOf(events[k - 1])
        else s.pending.None? && s.pendingAudit.None?)
    && |s.actions| == (k + 1) / 3
    && (forall j :: 0 <= j < |s.actions| ==> Lined(events, j) && LineAt(events, j) == Some(s.actions[j]))
    && AuditsOf(header, events, s.audits, (k + 2) / 3)
  }

  // What each event of a triple shows to the reader.
  lemma ActionShape(h: Hashes, header: Header, events: seq<Event>, k: nat)
    requires k < |events| && ActionAt(h, header, events, k)
    ensures events[k].eventType == ActionSelected && events[k].decision.Known?
    ensures header.plannerId == LlmPlanner ==> AuditOf(events[k]).Some? && events[k].audit.value.ValidAudit?
    ensures header.plannerId != LlmPlanner ==> events[k].audit.None? && AuditOf(events[k]).None?
  {
  }

  lemma ObservationShape(h: Hashes, header: Header, events: seq<Event>, k: nat)
    requires 0 < k < |events| && ObservationAt(h, header, events, k)
    ensures events[k].eventType == ToolObserved && events[k].observation.ValidObservation?
  {
  }

  lemma ReadAction(h: Hashes, header: Header, events: seq<Event>, k: nat, s: SummaryState)
    requires k < |events| && k % 3 == 0 && ActionAt(h, header, events, k) && ReadTriples(header, events, k, s)
    ensures var next := Read(s, events[k]);
            next.Some? && ReadTriples(header, events, k + 1, next.value)
  {
    hide ActionAt, SummarizeAction, AuditOf, Lined, LineAt, AuditsOf;
    ActionShape(h, header, events, k);
    AuditsSnoc(header, events, s.audits, k / 3);
  }

  // One more decision, audited or not.
  lemma AuditsSnoc(header: Header, events: seq<Event>, audits: seq<Audit>, m: nat)
    requires AuditsOf(header, events, audits, m) && 3 * m < |events|
    requires AuditOf(events[3 * m]).Some? <==> header.plannerId == LlmPlanner
    ensures AuditsOf(header, events, Audited(audits, AuditOf(events[3 * m])), m + 1)
  {
    hide AuditOf;
  }

  lemma ReadObservation(h: Hashes, header: Header, events: seq<Event>, k: nat, s: SummaryState)
    requires k < |events| && k % 3 == 1 && ActionAt(h, header, events, k - 1) && ObservationAt(h, header, events, k)
    requires ReadTriples(header, events, k, s)
    ensures var next := Read(s, events[k]);
            && (next.Some? <==> Lined(events, k / 3))
            && (next.Some? ==> ReadTriples(header, events, k + 1, next.value))
  {
    hide ActionAt, ObservationAt, SummarizeAction, AuditOf, AuditsOf;
    ActionShape(h, header, events, k - 1);
    ObservationShape(h, header, events, k);
    assert 3 * (k / 3) == k - 1;
  }

  lemma ReadProcessed(h: Hashes, header: Header, events: seq<Event>, k: nat, s: SummaryState)
    requires k < |events| && k % 3 == 2 && ProcessedAt(h, events, k) && ReadTriples(header, events, k, s)
    ensures Read(s, events[k]) == Some(s) && ReadTriples(header, events, k + 1, s)
  {
    hide Linked, SummarizeAction, AuditOf, Lined, LineAt, AuditsOf;
  }

  // One event of a triple: only an observation can fail, and it fails when its call has no line.
  lemma ReadTriple(h: Hashes, header: Header, events: seq<Event>, k: nat, s: SummaryState)
    requires k < |events| && TripleAt(h, header, events, k) && (k % 3 == 1 ==> TripleAt(h, header, events, k - 1))
    requires ReadTriples(header, events, k, s)
    ensures var next := Read(s, events[k]);
            && (next.Some? <==> (k % 3 == 1 ==> Lined(events, k / 3)))
            && (next.Some? ==> ReadTriples(header, events, k + 1, next.value))
  {
    hide Read, ActionAt, ObservationAt, ProcessedAt, Lined, ReadTriples;
    if k % 3 == 0 {
      ReadAction(h, header, events, k, s);
    } else if k % 3 == 1 {
      ReadObservation(h, header, events, k, s);
    } else {
      ReadProcessed(h, header, events, k, s);
    }
  }

  /** Reading triples succeeds exactly when each of its calls can be summarized. */
  lemma {:induction false} TriplesRead(h: Hashes, header: Header, events: seq<Event>, k: nat)
    requires k <= |events| && TriplesUpTo(h, header, events, k)
    ensures ReadAll(events, k).Some? <==> forall j :: 0 <= j < (k + 1) / 3 ==> Lined(events, j)
    ensures ReadAll(events, k).Some? ==> ReadTriples(header, events, k, ReadAll(events, k).value)
  {
    hide Read, TripleAt, Lined, ReadTriples;
    if k == 0 {
      NothingRead(header, events);
    } else {
      var i := k - 1;
      TriplesRead(h, header, events, i);
      assert TripleAt(h, header, events, i) && (i > 0 ==> TripleAt(h, header, events, i - 1));
      assert (k + 1) / 3 == (i + 1) / 3 + (if i % 3 == 1 then 1 else 0) && (i % 3 == 1 ==> (i + 1) / 3 == i / 3);
      if ReadAll(events, i).Some? {
        ReadTriple(h, header, events, i, ReadAll(events, i).value);
      }
    }
  }

  lemma NothingRead(header: Header, events: seq<Event>)
    ensures ReadAll(events, 0) == Some(START) && ReadTriples(header, events, 0, START)
  {
  }

  /** The summary of an accepted, completed trace exists exactly when each of its calls can be
      summarized: every count and the planner configuration are vouched for by replay.  It then has
      one line for each call, in order, and an LLM run one audit for each step. */
  lemma SummaryExactly(h: Hashes, trace: AgentTrace)
    requires Accepted(h, trace) && trace.terminal.state == Completed
    ensures SummaryOf(trace).Some? <==> forall j :: 0 <= j < trace.terminal.toolCallsUsed ==> Lined(trace.events, j)
    ensures SummaryOf(trace).Some? ==>
              var s := SummaryOf(trace).value;
              && |s.actions| == trace.terminal.toolCallsUsed && s.terminal == trace.terminal
              && (forall j :: 0 <= j < |s.actions| ==> Lined(trace.events, j) && LineAt(trace.events, j) == Some(s.actions[j]))
              && |s.audits| == if trace.header.plannerId == LlmPlanner then trace.terminal.stepsUsed else 0
  {
    hide Accepted, Read, Lined, ReadTriples, TriplesUpTo, EndsAt, LineAt;
    var events, n := trace.events, |trace.events| - 1;
    ReplayExact(h, trace);
    CompletedEnd(h, trace, n);
    TriplesRead(h, trace.header, events, n);
    var before := ReadAll(events, n);
    if before.Some? {
      ReadEnd(h, trace, n, before.value);
    }
  }

  // The end of an accepted, completed log.
  lemma CompletedEnd(h: Hashes, trace: AgentTrace, n: nat)
    requires n + 1 == |trace.events| && EndsAt(h, trace, n) && trace.terminal.state == Completed
    ensures n % 3 == 0 && CompletedAt(h, trace.header, trace.events, n, trace.terminal)
    ensures trace.terminal.toolCallsUsed == n / 3 == (n + 1) / 3 && trace.terminal.stepsUsed == n / 3 + 1
  {
    hide Linked, AuditedAs, MinimalRegistry;
  }

  lemma EndIs(h: Hashes, header: Header, events: seq<Event>, n: nat, terminal: TerminalResult)
    requires n < |events| && CompletedAt(h, header, events, n, terminal)
    ensures n % 3 == 0 && events[n].eventType == RunCompleted && events[n].decision.Known?
    ensures header.plannerId == LlmPlanner ==> AuditOf(events[n]).Some? && events[n].audit.value.ValidAudit?
    ensures header.plannerId == LlmPlanner ==>
              AuditOf(events[0]).Some? && AuditOf(events[n]).value.binding == AuditOf(events[0]).value.binding
    ensures header.plannerId != LlmPlanner ==> events[n].audit.None?
  {
  }

  lemma ReadEnd(h: Hashes, trace: AgentTrace, n: nat, s: SummaryState)
    requires n + 1 == |trace.events| && n % 3 == 0 && TriplesUpTo(h, trace.header, trace.events, n)
    requires CompletedAt(h, trace.header, trace.events, n, trace.terminal) && ReadTriples(trace.header, trace.events, n, s)
    requires trace.terminal.toolCallsUsed == n / 3 && trace.terminal.stepsUsed == n / 3 + 1
    ensures var next := Read(s, trace.events[n]);
            && next.Some? && Countable(trace, next.value) && next.value.actions == s.actions
            && (forall j :: 0 <= j < |s.actions| ==> Lined(trace.events, j) && LineAt(trace.events, j) == Some(s.actions[j]))
            && |next.value.audits| == if trace.header.plannerId == LlmPlanner then n / 3 + 1 else 0
  {
    hide SummarizeAction, TripleAt, Lined, LineAt, CompletedAt, AuditOf;
    var header, events := trace.header, trace.events;
    EndIs(h, header, events, n, trace.terminal);
    AuditIs(events[n]);
    var audits := Read(s, events[n]).value.audits;
    if header.plannerId == LlmPlanner {
      forall j | 0 <= j < |audits|
        ensures Some(audits[j]) == AuditOf(events[3 * j]) && audits[j].binding == AuditOf(events[0]).value.binding
      {
        if j < n / 3 {
          assert TripleAt(h, header, events, 3 * j);
          TripleBinding(h, header, events, 3 * j);
        }
      }
    }
  }

  lemma AuditIs(e: Event)
    ensures e.audit.None? ==> AuditOf(e).None?
  {
  }

  lemma TripleBinding(h: Hashes, header: Header, events: seq<Event>, k: nat)
    requires k < |events| && k % 3 == 0 && TripleAt(h, header, events, k) && header.plannerId == LlmPlanner
    ensures AuditOf(events[k]).Some? && AuditOf(events[0]).Some?
    ensures AuditOf(events[k]).value.binding == AuditOf(events[0]).value.binding
  {
    hide Linked;
  }
}
