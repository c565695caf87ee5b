/** What a replayable trace is, said without a loop: a chain of (action, observation, processed)
    triples and one final event.  The replayer accepts exactly this language. */
module TraceLanguage {
  import opened Contracts
  import opened Grounding
  import opened Replay
  import opened Reporting
  import opened RetrievalPolicy
  import opened Trace

  /** The observations recorded in the first k events. */
  function ObservationsBefore(events: seq<Event>, k: nat): seq<Observation>
    requires k <= |events|
  {
    if k == 0 then []
    else
      ObservationsBefore(events, k - 1) +
      if events[k - 1].eventType == ToolObserved && events[k - 1].observation.ValidObservation?
      then [events[k - 1].observation.observation] else []
  }

  // The state before event i when every earlier event follows the triple pattern.
  function StateAt(i: nat): AgentState {
    if i == 0 then Planning
    else if i % 3 == 0 then Deciding
    else if i % 3 == 1 then Acting
    else Observing
  }

  predicate Linked(h: Hashes, events: seq<Event>, i: nat)
    requires i < |events|
  {
    && events[i].sequence == i + 1
    && events[i].previousHash == LastHash(h, events[..i])
    && HashMatches(h, events[i])
    && events[i].before == StateAt(i)
  }

  /** An LLM decision is audited as the one option that offers it, out of the true number of
      options, under the configuration of the first decision.  Other planners leave no audit. */
  predicate AuditedAs(header: Header, events: seq<Event>, i: nat, decision: Decision)
    requires i < |events|
  {
    if header.plannerId != LlmPlanner then events[i].audit.None?
    else
      var audit, first := AuditOf(events[i]), AuditOf(events[0]);
      var options := DeriveOptions(header.task, ObservationsBefore(events, i));
      && audit.Some? && first.Some? && options.Some?
      && audit.value.optionCount == |options.value|
      && audit.value.binding == first.value.binding
      && var matches := Matching(options.value, decision);
      |matches| == 1 && matches[0].id == audit.value.selectedOption
  }

  predicate Unbound(e: Event) {
    e.contextHash.None? && e.terminalHash.None?
  }

  predicate ActionAt(h: Hashes, header: Header, events: seq<Event>, i: nat)
    requires i < |events|
  {
    var e := events[i];
    && Linked(h, events, i) && Unbound(e)
    && e.eventType == ActionSelected && e.after == Acting
    && e.decision.Known? && e.decision.decision.ToolAction?
    && AuditedAs(header, events, i, e.decision.decision)
    && !ActionScope(header.task, e.decision.decision, ObservationsBefore(events, i)).Crashed?
  }

  /** The policy error an action must have met: the task scope first, then the registry. */
  function PolicyError(header: Header, action: Decision, observations: seq<Observation>): Option<ErrorCode>
    requires action.ToolAction?
  {
    var scope := ActionScope(header.task, action, observations);
    if scope.OutOfScope? then Some(scope.code)
    else if action.tool !in header.toolNames then Some(ToolNotAllowed)
    else None
  }

  predicate Answers(h: Hashes, header: Header, action: Decision, before: seq<Observation>, o: Observation)
    requires action.ToolAction?
  {
    && o.tool == action.tool
    && h.observation(o.Body()) == o.sha256
    && (PolicyError(header, action, before).Some? ==> !o.succeeded && o.error == PolicyError(header, action, before))
  }

  predicate ObservationAt(h: Hashes, header: Header, events: seq<Event>, i: nat)
    requires 0 < i < |events|
  {
    var e, action := events[i], events[i - 1].decision;
    && Linked(h, events, i) && Unbound(e) && e.audit.None?
    && e.eventType == ToolObserved && e.after == Observing
    && e.observation.ValidObservation?
    && action.Known? && action.decision.ToolAction?
    && Answers(h, header, action.decision, ObservationsBefore(events, i - 1), e.observation.observation)
  }

  predicate ProcessedAt(h: Hashes, events: seq<Event>, i: nat)
    requires i < |events|
  {
    var e := events[i];
    && Linked(h, events, i) && Unbound(e) && e.audit.None?
    && e.eventType == ObservationProcessed && e.after == Deciding
  }

  /** Event i continues the triple pattern. */
  predicate TripleAt(h: Hashes, header: Header, events: seq<Event>, i: nat)
    requires i < |events|
  {
    if i % 3 == 0 then ActionAt(h, header, events, i)
    else if i % 3 == 1 then ObservationAt(h, header, events, i)
    else ProcessedAt(h, events, i)
  }

  ghost predicate TriplesUpTo(h: Hashes, header: Header, events: seq<Event>, k: nat)
    requires k <= |events|
  {
    forall i :: 0 <= i < k ==> TripleAt(h, header, events, i)
  }

  // Completions end a whole triple; failures may also cut one after its observation.
  predicate CompletedAt(h: Hashes, header: Header, events: seq<Event>, n: nat, terminal: TerminalResult)
    requires n < |events|
  {
    var e := events[n];
    && n % 3 == 0
    && e.eventType == RunCompleted && e.after == Completed
    && e.decision.Known? && e.decision.decision.Finish?
    && var finish := e.decision.decision;
    && AuditedAs(header, events, n, finish)
    && |finish.refs| <= Runtime.MAX_REFS
    && FinishError(header.task, finish, ObservationsBefore(events, n)).None?
    && terminal.state == Completed
    && terminal.outcome == finish.outcome && terminal.reason == finish.finishReason && terminal.refs == finish.refs
  }

  predicate FailedAt(events: seq<Event>, n: nat, terminal: TerminalResult)
    requires n < |events|
  {
    var e := events[n];
    && n % 3 != 1
    && e.eventType == RunFailed && e.after == Failed && e.audit.None? && e.decision.NoDecision?
    && terminal.state == Failed && terminal.outcome == Inconclusive
  }

  /** The counts, limits, citations and report that the triples before the final event determine. */
  predicate ResultReplays(trace: AgentTrace, n: nat, observations: seq<Observation>) {
    var header, terminal := trace.header, trace.terminal;
    && terminal.toolCallsUsed == (n + 2) / 3
    && terminal.stepsUsed == (n + 2) / 3 + (if terminal.state == Completed || UnrecordedDecision(terminal.reason) then 1 else 0)
    && WithinLimit(terminal.stepsUsed, header.policy.maxSteps)
    && WithinLimit(terminal.toolCallsUsed, header.policy.maxToolCalls)
    && WithinLimit(CountCreations(trace.events), header.policy.maxRunCreations)
    && MinimalRegistry(header)
    && (forall r :: r in terminal.refs ==> r in SuccessfulEvidence(observations))
    && terminal.report == TerminalReport(header.task, terminal.outcome, terminal.reason, observations, terminal.refs)
  }

  /** Event n ends the log: it is chained, binds the context and the result, and says how the run ended. */
  predicate EndsAt(h: Hashes, trace: AgentTrace, n: nat)
    requires n < |trace.events|
  {
    var header, events, terminal := trace.header, trace.events, trace.terminal;
    && Linked(h, events, n)
    && terminal.traceId == header.traceId
    && events[n].contextHash == Some(h.context(header)) && events[n].terminalHash == Some(h.terminal(terminal))
    && (CompletedAt(h, header, events, n, terminal) || FailedAt(events, n, terminal))
    && ResultReplays(trace, n, ObservationsBefore(events, n))
  }

  /** The declarative counterpart of `Replay.Accepted`. */
  ghost predicate WellFormed(h: Hashes, trace: AgentTrace) {
    && trace.events != []
    && var n := |trace.events| - 1;
    && TriplesUpTo(h, trace.header, trace.events, n)
    && EndsAt(h, trace, n)
  }

  // ----- The replay loop tracks the pattern -----

  /** The loop variables after k events of the pattern. */
  ghost function StateAfter(h: Hashes, header: Header, events: seq<Event>, k: nat): ReplayState
    requires k <= |events| && TriplesUpTo(h, header, events, k)
  {
    var pending := k % 3 == 1;
    assert pending ==> TripleAt(h, header, events, k - 1);
    var scope := if pending then ActionScope(header.task, events[k - 1].decision.decision, ObservationsBefore(events, k - 1)) else InScope;
    var firstAudit := if k > 0 then AuditOf(events[0]) else None;
    ReplayState(
      ObservationsBefore(events, k), StateAt(k), LastHash(h, events[..k]),
      if pending then Some(events[k - 1].decision.decision.tool) else None,
      if scope.OutOfScope? then Some(scope.code) else None,
      if pending && events[k - 1].decision.decision.tool !in header.toolNames then Some(ToolNotAllowed) else None,
      if header.plannerId == LlmPlanner && firstAudit.Some? then Some(firstAudit.value.binding) else None,
      (k + 2) / 3, None)
  }

  // The binding check of a decision says the same as `AuditedAs`.
  lemma BindingTracks(h: Hashes, header: Header, events: seq<Event>, k: nat, decision: Decision)
    requires k < |events| && TriplesUpTo(h, header, events, k)
    requires AuditPlaced(header.plannerId, events[k]) && events[k].IsDecision() && k % 3 == 0
    ensures var s := StateAfter(h, header, events, k);
            var bound := BindOption(header, s.observations, decision, AuditOf(events[k]), s.binding);
            && (bound.Some? <==> AuditedAs(header, events, k, decision))
            && (bound.Some? && header.plannerId == LlmPlanner ==> AuditOf(events[0]).Some?)
            && (bound.Some? ==>
                  bound.value == if header.plannerId == LlmPlanner then Some(AuditOf(events[0]).value.binding) else None)
  {
    assert k > 0 ==> TripleAt(h, header, events, 0);
    assert header.plannerId == LlmPlanner && k > 0 ==> AuditOf(events[0]).Some?;
  }

  // The chain checks of one event.
  lemma ChainStep(h: Hashes, header: Header, events: seq<Event>, k: nat)
    requires k < |events| && TriplesUpTo(h, header, events, k)
    ensures ChainError(h, StateAfter(h, header, events, k), events[k], k + 1).None? <==>
              Linked(h, events, k) && AllowedTransition(events[k].before, events[k].eventType, events[k].after)
  {
    hide HashMatches, AllowedTransition, ActionScope;
  }

  lemma ActionStep(h: Hashes, header: Header, total: nat, events: seq<Event>, k: nat)
    requires k < |events| && k + 1 < total && k % 3 == 0 && TriplesUpTo(h, header, events, k)
    ensures var step := ReplayEvent(h, header, total, StateAfter(h, header, events, k), events[k], k + 1);
            && (step.Ok? <==> ActionAt(h, header, events, k))
            && (step.Ok? ==> TriplesUpTo(h, header, events, k + 1) && step.value == StateAfter(h, header, events, k + 1))
  {
    hide BindOption, AuditedAs, ActionScope, ChainError, Linked;
    var e, s := events[k], StateAfter(h, header, events, k);
    ChainStep(h, header, events, k);
    if Linked(h, events, k) {
      LinkedBefore(h, events, k);
    }
    if e.eventType == ActionSelected && e.decision.Known? && AuditPlaced(header.plannerId, e) {
      BindingTracks(h, header, events, k, e.decision.decision);
    }
    var step := ReplayEvent(h, header, total, s, e, k + 1);
    if step.Ok? {
      assert e.eventType == ActionSelected;
      assert ActionAt(h, header, events, k);
    }
    if ActionAt(h, header, events, k) {
      assert ChainError(h, s, e, k + 1).None?;
      AuditedPlaced(h, header, events, k, e.decision.decision);
      assert step.Ok?;
      assert events[..k + 1][k] == e;
    }
  }

  lemma LinkedBefore(h: Hashes, events: seq<Event>, k: nat)
    requires k < |events| && Linked(h, events, k)
    ensures events[k].before == StateAt(k)
  {
  }

  // An audited decision has its audit where the replayer wants it.
  lemma AuditedPlaced(h: Hashes, header: Header, events: seq<Event>, k: nat, decision: Decision)
    requires k < |events| && events[k].IsDecision() && AuditedAs(header, events, k, decision)
    ensures AuditPlaced(header.plannerId, events[k])
  {
  }

  lemma ObservationStep(h: Hashes, header: Header, total: nat, events: seq<Event>, k: nat)
    requires k < |events| && k + 1 < total && k % 3 == 1 && TriplesUpTo(h, header, events, k)
    ensures var step := ReplayEvent(h, header, total, StateAfter(h, header, events, k), events[k], k + 1);
            && (step.Ok? <==> ObservationAt(h, header, events, k))
            && (step.Ok? ==> TriplesUpTo(h, header, events, k + 1) && step.value == StateAfter(h, header, events, k + 1))
  {
    hide BindOption, AuditedAs, ActionScope, ChainError, Linked;
    var e, s := events[k], StateAfter(h, header, events, k);
    ChainStep(h, header, events, k);
    if Linked(h, events, k) {
      LinkedBefore(h, events, k);
    }
    assert TripleAt(h, header, events, k - 1);
    var step := ReplayEvent(h, header, total, s, e, k + 1);
    if step.Ok? {
      assert ObservationAt(h, header, events, k);
    }
    if ObservationAt(h, header, events, k) {
      assert ChainError(h, s, e, k + 1).None?;
      assert step.Ok?;
      assert events[..k + 1][k] == e;
    }
  }

  lemma ProcessedStep(h: Hashes, header: Header, total: nat, events: seq<Event>, k: nat)
    requires k < |events| && k + 1 < total && k % 3 == 2 && TriplesUpTo(h, header, events, k)
    ensures var step := ReplayEvent(h, header, total, StateAfter(h, header, events, k), events[k], k + 1);
            && (step.Ok? <==> ProcessedAt(h, events, k))
            && (step.Ok? ==> TriplesUpTo(h, header, events, k + 1) && step.value == StateAfter(h, header, events, k + 1))
  {
    hide BindOption, AuditedAs, ActionScope, ChainError, Linked;
    var e, s := events[k], StateAfter(h, header, events, k);
    ChainStep(h, header, events, k);
    if Linked(h, events, k) {
      LinkedBefore(h, events, k);
    }
    var step := ReplayEvent(h, header, total, s, e, k + 1);
    if step.Ok? {
      assert ProcessedAt(h, events, k);
    }
    if ProcessedAt(h, events, k) {
      assert ChainError(h, s, e, k + 1).None?;
      assert step.Ok?;
      assert events[..k + 1][k] == e;
    }
  }

  /** The replay loop survives the first k events of a longer log exactly when they follow the
      triple pattern, and its variables are then a function of those events. */
  lemma {:induction false} PrefixExact(h: Hashes, header: Header, total: nat, events: seq<Event>, k: nat)
    requires k <= |events| && k < total
    ensures var prefix := ReplayPrefix(h, header, total, events, k);
            && (prefix.Ok? <==> TriplesUpTo(h, header, events, k))
            && (prefix.Ok? ==> prefix.value == StateAfter(h, header, events, k))
  {
    hide ReplayEvent, TripleAt, StateAfter;
    if k == 0 {
      StartState(h, header, events);
    } else {
      PrefixExact(h, header, total, events, k - 1);
      if TriplesUpTo(h, header, events, k - 1) {
        TripleCases(h, header, events, k - 1);
        if (k - 1) % 3 == 0 {
          ActionStep(h, header, total, events, k - 1);
        } else if (k - 1) % 3 == 1 {
          ObservationStep(h, header, total, events, k - 1);
        } else {
          ProcessedStep(h, header, total, events, k - 1);
        }
      }
    }
  }

  lemma StartState(h: Hashes, header: Header, events: seq<Event>)
    ensures StateAfter(h, header, events, 0) == Initial(h)
  {
  }

  lemma TripleCases(h: Hashes, header: Header, events: seq<Event>, i: nat)
    requires i < |events|
    ensures i % 3 == 0 ==> TripleAt(h, header, events, i) == ActionAt(h, header, events, i)
    ensures i % 3 == 1 ==> TripleAt(h, header, events, i) == ObservationAt(h, header, events, i)
    ensures i % 3 == 2 ==> TripleAt(h, header, events, i) == ProcessedAt(h, events, i)
  {
  }

  // ----- The final event -----

  lemma CompletionStep(h: Hashes, trace: AgentTrace, n: nat)
    requires n + 1 == |trace.events| && TriplesUpTo(h, trace.header, trace.events, n)
    requires trace.events[n].eventType == RunCompleted
    ensures var step := ReplayEvent(h, trace.header, n + 1, StateAfter(h, trace.header, trace.events, n), trace.events[n], n + 1);
            step.Ok? && FinalReplays(h, trace, step.value) <==> EndsAt(h, trace, n)
  {
    hide BindOption, AuditedAs, ActionScope, ChainError, Linked, FinishError, MinimalRegistry, TerminalReport,
      WithinLimit, CountCreations;
    var header, events := trace.header, trace.events;
    var e, s := events[n], StateAfter(h, header, events, n);
    ChainStep(h, header, events, n);
    if Linked(h, events, n) {
      LinkedBefore(h, events, n);
    }
    var step := ReplayEvent(h, header, n + 1, s, e, n + 1);
    if n % 3 == 0 && e.decision.Known? {
      if AuditPlaced(header.plannerId, e) {
        BindingTracks(h, header, events, n, e.decision.decision);
      }
      if AuditedAs(header, events, n, e.decision.decision) {
        AuditedPlaced(h, header, events, n, e.decision.decision);
      }
    }
    if EndsAt(h, trace, n) {
      assert ChainError(h, s, e, n + 1).None?;
      assert step.Ok?;
    }
  }

  lemma FailureStep(h: Hashes, trace: AgentTrace, n: nat)
    requires n + 1 == |trace.events| && TriplesUpTo(h, trace.header, trace.events, n)
    requires trace.events[n].eventType == RunFailed
    ensures var step := ReplayEvent(h, trace.header, n + 1, StateAfter(h, trace.header, trace.events, n), trace.events[n], n + 1);
            step.Ok? && FinalReplays(h, trace, step.value) <==> EndsAt(h, trace, n)
  {
    hide BindOption, AuditedAs, ActionScope, ChainError, Linked, FinishError, MinimalRegistry, TerminalReport,
      WithinLimit, CountCreations;
    var header, events := trace.header, trace.events;
    var e, s := events[n], StateAfter(h, header, events, n);
    ChainStep(h, header, events, n);
    if Linked(h, events, n) {
      LinkedBefore(h, events, n);
    }
    if EndsAt(h, trace, n) {
      assert ChainError(h, s, e, n + 1).None?;
    }
  }

  // A log that does not end in a terminal event is refused.
  lemma OpenEnd(h: Hashes, trace: AgentTrace, n: nat)
    requires n + 1 == |trace.events| && TriplesUpTo(h, trace.header, trace.events, n) && !trace.events[n].IsTerminal()
    ensures var step := ReplayEvent(h, trace.header, n + 1, StateAfter(h, trace.header, trace.events, n), trace.events[n], n + 1);
            step.Ok? ==> step.value.final.None?
    ensures !EndsAt(h, trace, n)
  {
    hide BindOption, AuditedAs, ActionScope, ChainError, Linked;
  }

  /** The replayer accepts exactly the well-formed traces. */
  lemma ReplayExact(h: Hashes, trace: AgentTrace)
    ensures Accepted(h, trace) <==> WellFormed(h, trace)
  {
    hide ReplayEvent, TriplesUpTo, StateAfter, EndsAt;
    var total := |trace.events|;
    if total > 0 {
      var n := total - 1;
      PrefixExact(h, trace.header, total, trace.events, n);
      if TriplesUpTo(h, trace.header, trace.events, n) {
        if trace.events[n].eventType == RunCompleted {
          CompletionStep(h, trace, n);
        } else if trace.events[n].eventType == RunFailed {
          FailureStep(h, trace, n);
        } else {
          OpenEnd(h, trace, n);
        }
      }
    }
  }

  // ----- What acceptance implies -----

  // Call j of the log: an action, the observation that answers it, and the step after it.
  predicate CallAt(header: Header, events: seq<Event>, j: nat)
    requires 3 * j + 1 < |events|
  {
    var action, observed := events[3 * j], events[3 * j + 1];
    && action.eventType == ActionSelected && action.decision.Known? && action.decision.decision.ToolAction?
    && observed.eventType == ToolObserved && observed.observation.ValidObservation?
    && var o := observed.observation.observation;
    && o.tool == action.decision.decision.tool
    && (3 * j + 2 < |events| - 1 ==> events[3 * j + 2].eventType == ObservationProcessed)
    && var error := PolicyError(header, action.decision.decision, ObservationsBefore(events, 3 * j));
    && (error.Some? ==> !o.succeeded && o.error == error)
  }

  /** An accepted log is its k calls, whole or with the last one cut after its observation by a
      failure, and one final event; k is the reported number of tool calls.  Actions outside the
      task scope or the registry were answered by failures with exactly the recomputed code. */
  lemma AcceptedShape(h: Hashes, trace: AgentTrace)
    requires Accepted(h, trace)
    ensures var k, n := trace.terminal.toolCallsUsed, |trace.events|;
            && (n == 3 * k + 1 || (n == 3 * k && k > 0 && trace.terminal.state == Failed))
            && (forall j :: 0 <= j < k ==> CallAt(trace.header, trace.events, j))
            && (forall i :: 0 <= i < n ==> (trace.events[i].IsTerminal() <==> i == n - 1))
            && (forall i :: 0 <= i < n ==> trace.events[i].sequence == i + 1)
    ensures trace.terminal.stepsUsed - trace.terminal.toolCallsUsed in {0, 1}
    ensures WithinLimit(trace.terminal.stepsUsed, trace.header.policy.maxSteps)
    ensures WithinLimit(trace.terminal.toolCallsUsed, trace.header.policy.maxToolCalls)
    ensures WithinLimit(CountCreations(trace.events), trace.header.policy.maxRunCreations)
  {
    hide Accepted, TripleAt, CallAt, HashMatches, AuditedAs, WithinLimit, CountCreations, FinishError, TerminalReport;
    ReplayExact(h, trace);
    var k, events, n := trace.terminal.toolCallsUsed, trace.events, |trace.events| - 1;
    forall j | 0 <= j < k
      ensures CallAt(trace.header, events, j)
    {
      CallAnswered(h, trace.header, events, n, j);
    }
    forall i | 0 <= i < n
      ensures !events[i].IsTerminal() && events[i].sequence == i + 1
    {
      TripleOpen(h, trace.header, events, i);
    }
  }

  lemma TripleOpen(h: Hashes, header: Header, events: seq<Event>, i: nat)
    requires i < |events| && TripleAt(h, header, events, i)
    ensures !events[i].IsTerminal() && events[i].sequence == i + 1
  {
    hide HashMatches, ActionScope, AuditedAs, PolicyError;
  }

  lemma CallAnswered(h: Hashes, header: Header, events: seq<Event>, n: nat, j: nat)
    requires n == |events| - 1 && 3 * j + 1 < n
    requires TriplesUpTo(h, header, events, n)
    ensures CallAt(header, events, j)
  {
    hide HashMatches, ActionScope, AuditedAs, PolicyError, Linked;
    assert TripleAt(h, header, events, 3 * j);
    assert TripleAt(h, header, events, 3 * j + 1);
    assert 3 * j + 2 < n ==> TripleAt(h, header, events, 3 * j + 2);
  }
}
