/** Every trace the runtime can write replays, unless the log breaks one of the conditions that
    only the replayer checks. */
module ReplayCompleteness {
  import opened Contracts
  import opened Grounding
  import opened Replay
  import opened Reporting
  import opened RetrievalPolicy
  import opened Runtime
  import opened Trace
  import opened TraceLanguage

  predicate Adaptive(task: Task) {
    task.RetrievalTask? && task.policy == AdaptiveLlm
  }

  /** Looking a run id up in a set raises in the replayer and is caught in the runtime. */
  predicate UnhashableRun(task: Task, action: Decision) {
    && task.CompareTask? && action.ToolAction? && action.tool in {EvaluateRun, InspectQuery}
    && RunKey in action.arguments && action.arguments[RunKey].Unhashable?
  }

  lemma ScopeCrashes(task: Task, action: Decision, observations: seq<Observation>)
    requires action.ToolAction?
    ensures ActionScope(task, action, observations).Crashed? <==> UnhashableRun(task, action)
  {
  }

  /** What replay checks about a recorded decision and the runtime does not: the planner's name
      matches the task, the audit counts the options truly and keeps the first configuration, and
      a run id can be looked up. */
  predicate Replayable(header: Header, events: seq<Event>, i: nat)
    requires i < |events|
  {
    events[i].IsDecision() && events[i].decision.Known? ==>
      && (header.plannerId == LlmPlanner <==> Adaptive(header.task))
      && !UnhashableRun(header.task, events[i].decision.decision)
      && (Adaptive(header.task) ==>
            var audit, first := AuditOf(events[i]), AuditOf(events[0]);
            var options := DeriveOptions(header.task, ObservationsBefore(events, i));
            && audit.Some? && first.Some? && options.Some?
            && audit.value.optionCount == |options.value|
            && audit.value.binding == first.value.binding)
  }

  ghost predicate AllReplayable(trace: AgentTrace) {
    forall i :: 0 <= i < |trace.events| ==> Replayable(trace.header, trace.events, i)
  }

  // ----- What the runtime does guarantee about its log -----

  predicate OptionAudited(task: Task, events: seq<Event>, i: nat, decision: Decision)
    requires i < |events|
  {
    if Adaptive(task) then
      var audit, option := AuditOf(events[i]), OptionForDecision(task, ObservationsBefore(events, i), decision);
      audit.Some? && option.Some? && option.value.id == audit.value.selectedOption
    else events[i].audit.None?
  }

  predicate WrittenAction(h: Hashes, header: Header, events: seq<Event>, i: nat)
    requires i < |events|
  {
    var e := events[i];
    && Linked(h, events, i) && Unbound(e)
    && e.eventType == ActionSelected && e.after == Acting
    && e.decision.Known? && e.decision.decision.ToolAction?
    && OptionAudited(header.task, events, i, e.decision.decision)
  }

  predicate WrittenAt(h: Hashes, header: Header, events: seq<Event>, i: nat)
    requires i < |events|
  {
    if i % 3 == 0 then WrittenAction(h, header, events, i)
    else if i % 3 == 1 then
      events[i - 1].decision.Known? && !UnhashableRun(header.task, events[i - 1].decision.decision) ==>
        ObservationAt(h, header, events, i)
    else ProcessedAt(h, events, i)
  }

  ghost predicate Written(h: Hashes, header: Header, events: seq<Event>) {
    forall i :: 0 <= i < |events| ==> WrittenAt(h, header, events, i)
  }

  lemma AuditedExactly(header: Header, events: seq<Event>, i: nat, decision: Decision)
    requires i < |events| && OptionAudited(header.task, events, i, decision)
    requires events[i].IsDecision() && events[i].decision == Known(decision) && !UnhashableRun(header.task, decision)
    ensures AuditedAs(header, events, i, decision) <==> Replayable(header, events, i)
  {
  }

  /** A written log follows the pattern exactly when its decisions are replayable. */
  lemma WrittenExactly(h: Hashes, header: Header, events: seq<Event>, n: nat)
    requires n <= |events| && forall i :: 0 <= i < n ==> WrittenAt(h, header, events, i)
    ensures TriplesUpTo(h, header, events, n) <==> forall i :: 0 <= i < n ==> Replayable(header, events, i)
  {
    hide WrittenAt, TripleAt, Replayable;
    if TriplesUpTo(h, header, events, n) {
      forall i | 0 <= i < n
        ensures Replayable(header, events, i)
      {
        TripleReplays(h, header, events, i);
      }
    }
    if forall i :: 0 <= i < n ==> Replayable(header, events, i) {
      forall i | 0 <= i < n
        ensures TripleAt(h, header, events, i)
      {
        ReplaysTriple(h, header, events, i);
      }
    }
  }

  lemma TripleReplays(h: Hashes, header: Header, events: seq<Event>, i: nat)
    requires i < |events| && WrittenAt(h, header, events, i) && TripleAt(h, header, events, i)
    ensures Replayable(header, events, i)
  {
    hide Linked, AuditedAs, OptionAudited, UnhashableRun, Answers;
    if i % 3 == 0 {
      var action := events[i].decision.decision;
      ScopeCrashes(header.task, action, ObservationsBefore(events, i));
      AuditedExactly(header, events, i, action);
    }
  }

  lemma ReplaysTriple(h: Hashes, header: Header, events: seq<Event>, i: nat)
    requires i < |events| && WrittenAt(h, header, events, i) && Replayable(header, events, i)
    requires i > 0 ==> WrittenAt(h, header, events, i - 1) && Replayable(header, events, i - 1)
    ensures TripleAt(h, header, events, i)
  {
    hide Linked, AuditedAs, OptionAudited, UnhashableRun, Answers;
    if i % 3 == 0 {
      var action := events[i].decision.decision;
      ScopeCrashes(header.task, action, ObservationsBefore(events, i));
      AuditedExactly(header, events, i, action);
    }
  }

  // ----- Appending keeps what is written -----

  lemma {:induction false} ObservationsPrefix(events: seq<Event>, more: seq<Event>, k: nat)
    requires k <= |events| && events <= more
    ensures ObservationsBefore(events, k) == ObservationsBefore(more, k)
  {
    if k > 0 {
      ObservationsPrefix(events, more, k - 1);
    }
  }

  lemma WrittenPrefix(h: Hashes, header: Header, events: seq<Event>, more: seq<Event>, i: nat)
    requires i < |events| && events <= more
    ensures WrittenAt(h, header, events, i) == WrittenAt(h, header, more, i)
  {
    hide HashMatches, Answers, OptionForDecision, StateAt, UnhashableRun;
    ObservationsPrefix(events, more, i);
    if i > 0 {
      ObservationsPrefix(events, more, i - 1);
    }
    assert events[..i] == more[..i];
  }

  lemma WrittenAppend(h: Hashes, header: Header, events: seq<Event>, e: Event)
    requires Written(h, header, events) && WrittenAt(h, header, events + [e], |events|)
    ensures Written(h, header, events + [e])
  {
    hide WrittenAt;
    forall i | 0 <= i < |events|
      ensures WrittenAt(h, header, events + [e], i)
    {
      WrittenPrefix(h, header, events, events + [e], i);
    }
  }

  /** What the recorder appends is numbered, chained and hashed the way replay wants it. */
  lemma RecordedIsLinked(h: Hashes, contextHash: Digest, events: seq<Event>, entry: Entry)
    requires entry.before == StateAt(|events|)
    ensures var more := events + [Recorded(h, contextHash, events, entry)];
            && Linked(h, more, |events|)
            && ObservationsBefore(more, |events|) == ObservationsBefore(events, |events|)
  {
    var e := Recorded(h, contextHash, events, entry);
    assert (events + [e])[..|events|] == events;
    ObservationsPrefix(events, events + [e], |events|);
  }

  /** The invariant that ties the variables of the run loop to the log. */
  ghost predicate Simulates(cfg: Config, task: Task, env: Environment, s: RunState) {
    && |s.events| == 3 * s.calls && s.steps == s.calls
    && s.state == StateAt(|s.events|)
    && s.observations == ObservationsBefore(s.events, |s.events|)
    && Written(cfg.hashes, cfg.HeaderFor(env.traceId, task), s.events)
    && CountCreations(s.events) == s.creations
    && s.creations <= cfg.policy.maxRunCreations && s.calls <= cfg.policy.maxToolCalls && s.steps <= cfg.policy.maxSteps
  }

  lemma CountAppend(events: seq<Event>, e: Event)
    ensures CountCreations(events + [e]) == CountCreations(events) + if CreatesRunEvent(e) then 1 else 0
  {
  }

  // The log after appending one event, as far as the invariant looks at it.
  ghost predicate Extends(h: Hashes, header: Header, events: seq<Event>, observations: seq<Observation>, creations: nat) {
    && Written(h, header, events)
    && ObservationsBefore(events, |events|) == observations
    && CountCreations(events) == creations
  }

  lemma AppendAction(cfg: Config, task: Task, env: Environment, s: RunState, action: Decision, audit: Option<Audit>)
    requires Simulates(cfg, task, env, s) && action.ToolAction? && AuditBound(task, s.observations, action, audit)
    ensures var more := Append(cfg, task, env, s.events, ActionEntry(env, s.events, s.state, action, audit));
            && |more| == |s.events| + 1 && more[..|s.events|] == s.events
            && more[|s.events|].decision == Known(action)
            && Extends(cfg.hashes, cfg.HeaderFor(env.traceId, task), more, s.observations,
                       s.creations + if CreatesRun(action.tool) then 1 else 0)
  {
    hide WrittenAt, Linked, OptionForDecision, CreatesRun;
    var h, header, entry := cfg.hashes, cfg.HeaderFor(env.traceId, task), ActionEntry(env, s.events, s.state, action, audit);
    var e := Recorded(h, ContextHash(cfg, task, env), s.events, entry);
    RecordedIsLinked(h, ContextHash(cfg, task, env), s.events, entry);
    CountAppend(s.events, e);
    assert WrittenAction(h, header, s.events + [e], |s.events|);
    ActionWritten(h, header, s.events + [e], |s.events|);
    WrittenAppend(h, header, s.events, e);
  }

  lemma ActionWritten(h: Hashes, header: Header, events: seq<Event>, i: nat)
    requires i < |events| && i % 3 == 0
    ensures WrittenAt(h, header, events, i) == WrittenAction(h, header, events, i)
  {
    hide WrittenAction;
  }

  lemma AppendObservation(
    cfg: Config, task: Task, env: Environment, events: seq<Event>, observations: seq<Observation>, creations: nat,
    action: Decision, o: Observation, step: nat)
    requires |events| % 3 == 1 && events[|events| - 1].decision == Known(action) && action.ToolAction?
    requires Extends(cfg.hashes, cfg.HeaderFor(env.traceId, task), events, observations, creations)
    requires ObservationsBefore(events, |events| - 1) == observations
    requires !UnhashableRun(task, action) ==>
               Answers(cfg.hashes, cfg.HeaderFor(env.traceId, task), action, observations, o)
    ensures var more := Append(cfg, task, env, events, ObservedEntry(env, events, o, step));
            && |more| == |events| + 1
            && Extends(cfg.hashes, cfg.HeaderFor(env.traceId, task), more, observations + [o], creations)
  {
    hide Linked, Answers, UnhashableRun, WrittenAt, Recorded, CreatesRunEvent;
    var h, header, entry := cfg.hashes, cfg.HeaderFor(env.traceId, task), ObservedEntry(env, events, o, step);
    var e := Recorded(h, ContextHash(cfg, task, env), events, entry);
    RecordedIsLinked(h, ContextHash(cfg, task, env), events, entry);
    RecordedFields(h, ContextHash(cfg, task, env), events, entry);
    ObservationsPrefix(events, events + [e], |events| - 1);
    CountAppend(events, e);
    CreatesNothing(e);
    if !UnhashableRun(task, action) {
      assert ObservationAt(h, header, events + [e], |events|);
    }
    ObservationWritten(h, header, events + [e], |events|, action);
    WrittenAppend(h, header, events, e);
  }

  lemma CreatesNothing(e: Event)
    requires e.eventType != ActionSelected
    ensures !CreatesRunEvent(e)
  {
  }

  lemma ObservationWritten(h: Hashes, header: Header, events: seq<Event>, i: nat, action: Decision)
    requires 0 < i < |events| && i % 3 == 1 && events[i - 1].decision == Known(action)
    requires !UnhashableRun(header.task, action) ==> ObservationAt(h, header, events, i)
    ensures WrittenAt(h, header, events, i)
  {
    hide ObservationAt, UnhashableRun;
  }

  lemma AppendProcessed(
    cfg: Config, task: Task, env: Environment, events: seq<Event>, observations: seq<Observation>, creations: nat)
    requires |events| % 3 == 2
    requires Extends(cfg.hashes, cfg.HeaderFor(env.traceId, task), events, observations, creations)
    ensures var more := Append(cfg, task, env, events, ProcessedEntry(env, events));
            && |more| == |events| + 1
            && Extends(cfg.hashes, cfg.HeaderFor(env.traceId, task), more, observations, creations)
  {
    hide Linked;
    var h, header, entry := cfg.hashes, cfg.HeaderFor(env.traceId, task), ProcessedEntry(env, events);
    var e := Recorded(h, ContextHash(cfg, task, env), events, entry);
    RecordedIsLinked(h, ContextHash(cfg, task, env), events, entry);
    CountAppend(events, e);
    assert WrittenAt(h, header, events + [e], |events|);
    WrittenAppend(h, header, events, e);
  }

  /** The dispatcher answers an out-of-scope or unregistered action with the error replay recomputes. */
  lemma ExecuteAnswers(cfg: Config, task: Task, traceId: Id, action: Decision, observations: seq<Observation>, reply: ToolReply)
    requires cfg.Valid() && action.ToolAction? && !UnhashableRun(task, action)
    ensures Answers(cfg.hashes, cfg.HeaderFor(traceId, task), action, observations,
                    ExecuteTool(cfg, task, action, observations, reply).0)
  {
    hide ActionScope;
    ScopeCrashes(task, action, observations);
  }

  lemma PerformSimulates(
    cfg: Config, task: Task, env: Environment, s: RunState, action: Decision, audit: Option<Audit>, reply: ToolReply)
    requires cfg.Valid() && Simulates(cfg, task, env, s) && s.steps < cfg.policy.maxSteps
    requires action.ToolAction? && AuditBound(task, s.observations, action, audit) && Denied(cfg, s, action).None?
    ensures var o := ExecuteTool(cfg, task, action, s.observations, reply).0;
            Simulates(cfg, task, env, Perform(cfg, task, env, s, action, audit, o))
  {
    hide Append, Written, ExecuteTool, AuditBound, Answers, ObservationsBefore, CountCreations, Attempts;
    var o := ExecuteTool(cfg, task, action, s.observations, reply).0;
    var one := Append(cfg, task, env, s.events, ActionEntry(env, s.events, s.state, action, audit));
    var two := Append(cfg, task, env, one, ObservedEntry(env, one, o, s.steps));
    var creations := s.creations + if CreatesRun(action.tool) then 1 else 0;
    AppendAction(cfg, task, env, s, action, audit);
    if !UnhashableRun(task, action) {
      ExecuteAnswers(cfg, task, env.traceId, action, s.observations, reply);
    }
    ObservationsPrefix(s.events, one, |s.events|);
    AppendObservation(cfg, task, env, one, s.observations, creations, action, o, s.steps);
    AppendProcessed(cfg, task, env, two, s.observations + [o], creations);
  }

  // ----- The two endings -----

  // The conditions that are left for a log which the runtime wrote.
  ghost predicate Replays(trace: AgentTrace) {
    MinimalRegistry(trace.header) && AllReplayable(trace)
  }

  lemma BodyExactly(h: Hashes, header: Header, events: seq<Event>, e: Event)
    requires Written(h, header, events)
    ensures TriplesUpTo(h, header, events + [e], |events|) <==>
              forall i :: 0 <= i < |events| ==> Replayable(header, events + [e], i)
  {
    hide WrittenAt, TripleAt, Replayable;
    forall i | 0 <= i < |events|
      ensures WrittenAt(h, header, events + [e], i)
    {
      WrittenPrefix(h, header, events, events + [e], i);
    }
    WrittenExactly(h, header, events + [e], |events|);
  }

  // The result of a failed run, and of a completed one, has the counts, citations and report replay recomputes.
  lemma FailedResultReplays(cfg: Config, task: Task, env: Environment, s: RunState, steps: nat, reason: Reason)
    requires cfg.Valid() && Simulates(cfg, task, env, s)
    requires steps == s.calls + (if UnrecordedDecision(reason) then 1 else 0) && steps <= cfg.policy.maxSteps
    ensures var trace := Fail(cfg, task, env, s, steps, reason);
            ResultReplays(trace, |s.events|, s.observations) <==> MinimalRegistry(trace.header)
  {
    hide Written, MinimalRegistry, TerminalReport, UnrecordedDecision, SuccessfulEvidence, Recorded;
    var result := FailedResult(task, env, s.observations, steps, s.calls, reason);
    var e := Recorded(cfg.hashes, ContextHash(cfg, task, env), s.events, FailedEntry(env, s.events, s.state, result));
    CountAppend(s.events, e);
    RecordedFields(cfg.hashes, ContextHash(cfg, task, env), s.events, FailedEntry(env, s.events, s.state, result));
  }

  lemma CompletedResultReplays(
    cfg: Config, task: Task, env: Environment, s: RunState, finish: Decision, audit: Option<Audit>)
    requires cfg.Valid() && Simulates(cfg, task, env, s) && s.steps < cfg.policy.maxSteps
    requires finish.Finish? && FinishError(task, finish, s.observations).None?
    ensures var trace := Complete(cfg, task, env, s, s.steps + 1, finish, audit);
            ResultReplays(trace, |s.events|, s.observations) <==> MinimalRegistry(trace.header)
  {
    hide Simulates, MinimalRegistry, TerminalReport, SuccessfulEvidence, Recorded, FinishError, CountCreations, CreatesRunEvent;
    var result := CompletedResult(task, env, s.observations, s.steps + 1, s.calls, finish);
    var entry := CompletedEntry(env, s.events, s.state, finish, audit, result);
    var e := Recorded(cfg.hashes, ContextHash(cfg, task, env), s.events, entry);
    CountAppend(s.events, e);
    RecordedFields(cfg.hashes, ContextHash(cfg, task, env), s.events, entry);
    CreatesNothing(e);
    CitedAreObserved(task, finish, s.observations);
    SimulatesCounts(cfg, task, env, s);
  }

  lemma SimulatesCounts(cfg: Config, task: Task, env: Environment, s: RunState)
    requires Simulates(cfg, task, env, s)
    ensures |s.events| == 3 * s.calls && s.steps == s.calls <= cfg.policy.maxToolCalls
    ensures CountCreations(s.events) == s.creations <= cfg.policy.maxRunCreations
  {
    hide Written;
  }

  lemma CitedAreObserved(task: Task, finish: Decision, observations: seq<Observation>)
    requires finish.Finish? && FinishError(task, finish, observations).None?
    ensures forall r :: r in finish.refs ==> r in SuccessfulEvidence(observations)
  {
    hide FinishError, SuccessfulEvidence;
    GroundedFinishMeans(task, finish, observations);
  }

  lemma RecordedFields(h: Hashes, contextHash: Digest, events: seq<Event>, entry: Entry)
    ensures var e := Recorded(h, contextHash, events, entry);
            && e.eventType == entry.eventType && e.after == entry.after
            && e.decision == (if entry.decision.Some? then Known(entry.decision.value) else NoDecision)
            && e.audit == (if entry.audit.Some? then Some(ValidAudit(entry.audit.value)) else None)
            && e.contextHash == (if e.IsTerminal() then Some(contextHash) else None)
            && e.terminalHash == (if entry.terminal.Some? then Some(h.terminal(entry.terminal.value)) else None)
            && e.observation == (if entry.observation.Some? then ValidObservation(entry.observation.value) else NoObservation)
  {
  }

  lemma FailExactly(cfg: Config, task: Task, env: Environment, s: RunState, steps: nat, reason: Reason)
    requires cfg.Valid() && Simulates(cfg, task, env, s)
    requires steps == s.calls + (if UnrecordedDecision(reason) then 1 else 0) && steps <= cfg.policy.maxSteps
    ensures var trace := Fail(cfg, task, env, s, steps, reason);
            WellFormed(cfg.hashes, trace) <==> Replays(trace)
  {
    hide Linked, Written, TriplesUpTo, MinimalRegistry, TerminalReport, UnrecordedDecision, SuccessfulEvidence,
      Recorded,
      ResultReplays, CompletedAt, ObservationsBefore, CountCreations;
    var h, header := cfg.hashes, cfg.HeaderFor(env.traceId, task);
    var result := FailedResult(task, env, s.observations, steps, s.calls, reason);
    var entry := FailedEntry(env, s.events, s.state, result);
    var trace, n := Fail(cfg, task, env, s, steps, reason), |s.events|;
    var e := Recorded(h, ContextHash(cfg, task, env), s.events, entry);
    assert trace.events == s.events + [e];
    RecordedIsLinked(h, ContextHash(cfg, task, env), s.events, entry);
    RecordedFields(h, ContextHash(cfg, task, env), s.events, entry);
    BodyExactly(h, header, s.events, e);
    FailedResultReplays(cfg, task, env, s, steps, reason);
    assert FailedAt(trace.events, n, result);
    assert Replayable(header, trace.events, n);
  }

  lemma CompleteExactly(
    cfg: Config, task: Task, env: Environment, s: RunState, finish: Decision, audit: Option<Audit>)
    requires cfg.Valid() && Simulates(cfg, task, env, s) && s.steps < cfg.policy.maxSteps
    requires finish.Finish? && |finish.refs| <= MAX_REFS && AuditBound(task, s.observations, finish, audit)
    requires FinishError(task, finish, s.observations).None?
    ensures var trace := Complete(cfg, task, env, s, s.steps + 1, finish, audit);
            WellFormed(cfg.hashes, trace) <==> Replays(trace)
  {
    hide Linked, Written, TriplesUpTo, MinimalRegistry, TerminalReport, SuccessfulEvidence, Recorded, ResultReplays,
      FailedAt, ObservationsBefore, CountCreations, OptionForDecision, FinishError, AuditedAs, Replayable;
    var h, header := cfg.hashes, cfg.HeaderFor(env.traceId, task);
    var result := CompletedResult(task, env, s.observations, s.steps + 1, s.calls, finish);
    var entry := CompletedEntry(env, s.events, s.state, finish, audit, result);
    var trace, n := Complete(cfg, task, env, s, s.steps + 1, finish, audit), |s.events|;
    var e := Recorded(h, ContextHash(cfg, task, env), s.events, entry);
    assert trace.events == s.events + [e];
    RecordedIsLinked(h, ContextHash(cfg, task, env), s.events, entry);
    RecordedFields(h, ContextHash(cfg, task, env), s.events, entry);
    BodyExactly(h, header, s.events, e);
    CompletedResultReplays(cfg, task, env, s, finish, audit);
    AuditedExactly(header, trace.events, n, finish);
    assert CompletedAt(h, header, trace.events, n, result) <==> Replayable(header, trace.events, n);
    NotFailed(trace.events, n, result);
  }

  lemma NotFailed(events: seq<Event>, n: nat, terminal: TerminalResult)
    requires n < |events| && events[n].eventType == RunCompleted
    ensures !FailedAt(events, n, terminal)
  {
  }

  // ----- Every run -----

  lemma ConsultMeans(cfg: Config, env: Environment, view: View)
    ensures var consulted := Consult(cfg, env, view);
            && (consulted.Refused? ==> !UnrecordedDecision(consulted.reason))
            && (consulted.Decided? ==>
                  && AuditBound(view.task, view.observations, consulted.decision, consulted.audit)
                  && (consulted.decision.Finish? ==> |consulted.decision.refs| <= MAX_REFS))
  {
  }

  /** By induction along the loop: from a state the invariant describes, the stored trace is
      well formed exactly when the conditions only replay checks hold of it. */
  lemma {:induction false} RunExactly(cfg: Config, task: Task, env: Environment, s: RunState)
    requires cfg.Valid() && Simulates(cfg, task, env, s)
    ensures WellFormed(cfg.hashes, RunFrom(cfg, task, env, s)) <==> Replays(RunFrom(cfg, task, env, s))
    decreases cfg.policy.maxSteps - s.steps
  {
    hide *;
    SimulatesSteps(cfg, task, env, s);
    RunExhausts(cfg, task, env, s);
    Reasons();
    if s.steps >= cfg.policy.maxSteps {
      FailExactly(cfg, task, env, s, s.steps, StepBudgetExhausted);
    } else {
      var view := CurrentView(cfg, task, env, s);
      var consulted := Consult(cfg, env, view);
      RunStops(cfg, task, env, s);
      ConsultMeans(cfg, env, view);
      ViewTask(cfg, task, env, s);
      if consulted.Refused? {
        FailExactly(cfg, task, env, s, s.steps, consulted.reason);
      } else if consulted.decision.Finish? {
        if FinishError(task, consulted.decision, s.observations).Some? {
          FailExactly(cfg, task, env, s, s.steps + 1, UngroundedFinishRejected);
        } else {
          CompleteExactly(cfg, task, env, s, consulted.decision, consulted.audit);
        }
      } else {
        ActExactly(cfg, task, env, s, consulted.decision, consulted.audit);
      }
    }
  }

  lemma {:induction false} ActExactly(
    cfg: Config, task: Task, env: Environment, s: RunState, action: Decision, audit: Option<Audit>)
    requires cfg.Valid() && Simulates(cfg, task, env, s) && s.steps < cfg.policy.maxSteps
    requires Consult(cfg, env, CurrentView(cfg, task, env, s)) == Decided(action, audit)
    requires action.ToolAction? && AuditBound(task, s.observations, action, audit)
    ensures WellFormed(cfg.hashes, RunFrom(cfg, task, env, s)) <==> Replays(RunFrom(cfg, task, env, s))
    decreases cfg.policy.maxSteps - s.steps, 0
  {
    hide *;
    SimulatesSteps(cfg, task, env, s);
    Reasons();
    RunDenies(cfg, task, env, s, action, audit);
    if Denied(cfg, s, action).Some? {
      FailExactly(cfg, task, env, s, s.steps + 1, Denied(cfg, s, action).value);
    } else {
      RunActs(cfg, task, env, s, action, audit);
      var reply := env.tool(CurrentView(cfg, task, env, s), action);
      var o := ExecuteTool(cfg, task, action, s.observations, reply).0;
      var next := Perform(cfg, task, env, s, action, audit, o);
      PerformSimulates(cfg, task, env, s, action, audit, reply);
      PerformFields(cfg, task, env, s, action, audit, o);
      SimulatesSteps(cfg, task, env, next);
      FailExactly(cfg, task, env, next, next.steps, PolicyViolation);
      FailExactly(cfg, task, env, next, next.steps, FailureBudgetExhausted);
      RunExactly(cfg, task, env, next);
    }
  }

  lemma SimulatesSteps(cfg: Config, task: Task, env: Environment, s: RunState)
    requires Simulates(cfg, task, env, s)
    ensures s.steps == s.calls <= cfg.policy.maxSteps
  {
    hide Written;
  }

  lemma ViewTask(cfg: Config, task: Task, env: Environment, s: RunState)
    ensures CurrentView(cfg, task, env, s).task == task
  {
  }

  lemma Reasons()
    ensures forall r :: UnrecordedDecision(r) <==>
              r in {RepeatedActionRejected, RunCreationBudgetExhausted, ToolCallBudgetExhausted, UngroundedFinishRejected}
  {
  }

  /** The stored trace of any run, whatever the planner, the tools and the clock do, replays exactly
      when its registry is minimal and every recorded decision is replayable. */
  lemma RunReplaysExactly(cfg: Config, task: Task, env: Environment)
    requires cfg.Valid()
    ensures Accepted(cfg.hashes, RunTrace(cfg, task, env)) <==> Replays(RunTrace(cfg, task, env))
  {
    hide Accepted, WellFormed, Replays;
    ReplayExact(cfg.hashes, RunTrace(cfg, task, env));
    RunStarts(cfg, task, env);
    RunExactly(cfg, task, env, START);
  }
}
