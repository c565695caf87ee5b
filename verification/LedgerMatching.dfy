/** Matching the calls that reached a handler with the actions of a trace (judge.py, scenarios.py). */
module LedgerMatching {
  import opened Contracts
  import opened Grounding
  import opened Runtime
  import Reporting
  import opened Trace

  // What the ledger and the judge compare: the tool and the requested variant.
  datatype Call = Call(tool: Option<ToolName>, variant: Option<ArgValue>)

  function CallOf(d: StoredDecision): Call {
    if d.Known? && d.decision.ToolAction? then Call(Some(d.decision.tool), Lookup(d.decision.arguments, VariantKey))
    else Call(None, None)
  }

  datatype JudgedAction = JudgedAction(call: Call, succeeded: bool, error: Option<ErrorCode>, retryable: bool, handlerInvoked: bool)

  // The local variables of the judge's loop.
  datatype Judging = Judging(pending: Option<StoredDecision>, actions: seq<JudgedAction>, matched: nat)

  /** One event; None is a malformed trace. */
  function Judge(j: Judging, ledger: seq<Call>, e: Event): Option<Judging> {
    match e.eventType
    case ActionSelected =>
      if j.pending.Some? || e.decision.NoDecision? then None else Some(j.(pending := Some(e.decision)))
    case ToolObserved =>
      if j.pending.None? || !e.observation.ValidObservation? then None
      else
        var call, o := CallOf(j.pending.value), e.observation.observation;
        var invoked := j.matched < |ledger| && ledger[j.matched] == call;
        Some(Judging(None, j.actions + [JudgedAction(call, o.succeeded, o.error, o.retryable, invoked)],
                     if invoked then j.matched + 1 else j.matched))
    case _ => Some(j)
  }

  function JudgeAll(ledger: seq<Call>, events: seq<Event>): Option<Judging> {
    if events == [] then Some(Judging(None, [], 0))
    else
      match JudgeAll(ledger, events[..|events| - 1])
      case None => None
      case Some(j) => Judge(j, ledger, events[|events| - 1])
  }

  /** The judged actions, and whether the whole ledger was matched; None for a malformed trace. */
  function ActualActions(trace: AgentTrace, ledger: seq<Call>): Option<(seq<JudgedAction>, bool)> {
    match JudgeAll(ledger, trace.events)
    case None => None
    case Some(j) => if j.pending.Some? then None else Some((j.actions, j.matched == |ledger|))
  }

  lemma {:induction false} MalformedStays(ledger: seq<Call>, events: seq<Event>, k: nat)
    requires k <= |events| && JudgeAll(ledger, events[..k]).None?
    ensures JudgeAll(ledger, events).None?
    decreases |events|
  {
    if k == |events| {
      assert events[..k] == events;
    } else {
      assert events[..|events| - 1][..k] == events[..k];
      MalformedStays(ledger, events[..|events| - 1], k);
    }
  }

  method JudgeTrace(trace: AgentTrace, ledger: seq<Call>) returns (r: Option<(seq<JudgedAction>, bool)>)
    ensures r == ActualActions(trace, ledger)
  {
    var pending: Option<StoredDecision> := None;
    var actions, matched := [], 0;
    for i := 0 to |trace.events|
      invariant JudgeAll(ledger, trace.events[..i]) == Some(Judging(pending, actions, matched))
    {
      var e := trace.events[i];
      assert trace.events[..i + 1][..i] == trace.events[..i];
      if e.eventType == ActionSelected {
        if pending.Some? || e.decision.NoDecision? {
          MalformedStays(ledger, trace.events, i + 1);
          return None;
        }
        pending := Some(e.decision);
      } else if e.eventType == ToolObserved {
        if pending.None? || !e.observation.ValidObservation? {
          MalformedStays(ledger, trace.events, i + 1);
          return None;
        }
        var call, o := CallOf(pending.value), e.observation.observation;
        var invoked := false;
        if matched < |ledger| {
          if ledger[matched] == call {
            invoked := true;
            matched := matched + 1;
          }
        }
        actions := actions + [JudgedAction(call, o.succeeded, o.error, o.retryable, invoked)];
        pending := None;
      }
    }
    assert trace.events[..|trace.events|] == trace.events;
    return if pending.Some? then None else Some((actions, matched == |ledger|));
  }

  // ----- Greedy matching is exact -----

  /** The calls of `part` occur in `whole` in the same order, at the positions `at`. */
  predicate EmbedsAt(part: seq<Call>, whole: seq<Call>, at: seq<nat>) {
    && |at| == |part|
    && (forall i :: 0 <= i < |at| ==> at[i] < |whole| && whole[at[i]] == part[i])
    && (forall i, j :: 0 <= i < j < |at| ==> at[i] < at[j])
  }

  ghost predicate Subsequence(part: seq<Call>, whole: seq<Call>) {
    exists at :: EmbedsAt(part, whole, at)
  }

  function CallsOf(actions: seq<JudgedAction>): seq<Call> {
    seq(|actions|, i requires 0 <= i < |actions| => actions[i].call)
  }

  /** How many ledger entries a greedy scan of the calls matches. */
  function Greedy(ledger: seq<Call>, calls: seq<Call>): (n: nat)
    ensures n <= |ledger|
  {
    if calls == [] then 0
    else
      var n := Greedy(ledger, calls[..|calls| - 1]);
      if n < |ledger| && ledger[n] == calls[|calls| - 1] then n + 1 else n
  }

  // What the scan matched really is embedded.
  lemma {:induction false} GreedyEmbeds(ledger: seq<Call>, calls: seq<Call>) returns (at: seq<nat>)
    ensures EmbedsAt(ledger[..Greedy(ledger, calls)], calls, at)
  {
    if calls == [] {
      at := [];
    } else {
      var last := |calls| - 1;
      at := GreedyEmbeds(ledger, calls[..last]);
      var n := Greedy(ledger, calls[..last]);
      if n < |ledger| && ledger[n] == calls[last] {
        at := at + [last];
      }
    }
  }

  // No embedding of a prefix of the ledger is longer than what the scan matched.
  lemma {:induction false} GreedyIsLongest(ledger: seq<Call>, calls: seq<Call>, m: nat, at: seq<nat>)
    requires m <= |ledger| && EmbedsAt(ledger[..m], calls, at)
    ensures m <= Greedy(ledger, calls)
    decreases |calls|
  {
    if m > 0 {
      assert at[m - 1] < |calls|;
      var last := |calls| - 1;
      var front := calls[..last];
      if at[m - 1] == last {
        assert EmbedsAt(ledger[..m - 1], front, at[..m - 1]);
        GreedyIsLongest(ledger, front, m - 1, at[..m - 1]);
      } else {
        assert at[m - 1] < last && forall i :: 0 <= i < m - 1 ==> at[i] < at[m - 1];
        assert EmbedsAt(ledger[..m], front, at);
        GreedyIsLongest(ledger, front, m, at);
      }
    }
  }

  lemma {:induction false} JudgedGreedily(ledger: seq<Call>, events: seq<Event>)
    requires JudgeAll(ledger, events).Some?
    ensures var j := JudgeAll(ledger, events).value; j.matched == Greedy(ledger, CallsOf(j.actions))
  {
    if events != [] {
      var front := events[..|events| - 1];
      JudgedGreedily(ledger, front);
      var i, j := JudgeAll(ledger, front).value, JudgeAll(ledger, events).value;
      if j.actions != i.actions {
        var n := |i.actions|;
        assert CallsOf(j.actions)[..n] == CallsOf(i.actions);
      }
    }
  }

  /** The judge reports the ledger as exhausted exactly when the ledger is a subsequence of the calls
      the trace shows. */
  lemma ExhaustedExactly(trace: AgentTrace, ledger: seq<Call>)
    requires ActualActions(trace, ledger).Some?
    ensures var (actions, exhausted) := ActualActions(trace, ledger).value;
            exhausted <==> Subsequence(ledger, CallsOf(actions))
  {
    hide JudgeAll, EmbedsAt;
    JudgedGreedily(ledger, trace.events);
    var calls := CallsOf(JudgeAll(ledger, trace.events).value.actions);
    assert ledger[..|ledger|] == ledger;
    if Greedy(ledger, calls) == |ledger| {
      var at := GreedyEmbeds(ledger, calls);
    }
    if Subsequence(ledger, calls) {
      var at: seq<nat> :| EmbedsAt(ledger, calls, at);
      GreedyIsLongest(ledger, calls, |ledger|, at);
    }
  }

  // ----- The ledger of a run -----

  class HandlerRecordingRegistry {
    const delegate: Registry
    const capabilities: seq<Capability>
    var ledger: seq<Call>

    constructor (delegate: Registry, capabilities: seq<Capability>)
      ensures this.delegate == delegate && this.capabilities == capabilities && ledger == []
    {
      this.delegate, this.capabilities, this.ledger := delegate, capabilities, [];
    }

    /** Records a call when its handler answered or failed; a policy rejection or a crash leaves no entry. */
    method Execute(tool: ToolName, arguments: Arguments, reply: ToolReply) returns (r: ToolReply)
      modifies this
      ensures r == Dispatch(delegate, capabilities, tool, reply)
      ensures ledger == old(ledger) + LedgerEntry(delegate, capabilities, tool, arguments, reply)
    {
      r := Dispatch(delegate, capabilities, tool, reply);
      if r.ToolError? {
        ledger := ledger + [Call(Some(tool), Lookup(arguments, VariantKey))];
      } else if !r.ToolPolicyError? && !r.ToolCrash? {
        ledger := ledger + [Call(Some(tool), Lookup(arguments, VariantKey))];
      }
    }
  }

  /** The registry's own rejections come before the handler. */
  function Dispatch(registry: Registry, capabilities: seq<Capability>, tool: ToolName, reply: ToolReply): ToolReply {
    if tool !in registry.capabilityOf then ToolPolicyError(ToolNotAllowed)
    else if registry.capabilityOf[tool] !in capabilities then ToolPolicyError(CapabilityNotAllowed)
    else reply
  }

  function LedgerEntry(registry: Registry, capabilities: seq<Capability>, tool: ToolName, arguments: Arguments, reply: ToolReply)
    : seq<Call>
  {
    var r := Dispatch(registry, capabilities, tool, reply);
    if r.ToolPolicyError? || r.ToolCrash? then [] else [Call(Some(tool), Lookup(arguments, VariantKey))]
  }

  // What one performed action adds: nothing when the task scope keeps it from the registry.
  function RecordedCalls(cfg: Config, task: Task, action: Decision, observations: seq<Observation>, reply: ToolReply): seq<Call>
    requires action.ToolAction?
  {
    if ActionScope(task, action, observations).InScope?
    then LedgerEntry(cfg.registry, cfg.policy.capabilities, action.tool, action.arguments, reply) else []
  }

  /** The ledger a run leaves when it continues from `s`. */
  function LedgerFrom(cfg: Config, task: Task, env: Environment, s: RunState): seq<Call>
    decreases cfg.policy.maxSteps - s.steps
  {
    if s.steps >= cfg.policy.maxSteps then []
    else
      var view := CurrentView(cfg, task, env, s);
      var consulted := Consult(cfg, env, view);
      if consulted.Refused? || consulted.decision.Finish? || Denied(cfg, s, consulted.decision).Some? then []
      else
        var action := consulted.decision;
        var reply := env.tool(view, action);
        var (o, violation) := ExecuteTool(cfg, task, action, s.observations, reply);
        var next := Perform(cfg, task, env, s, action, consulted.audit, o);
        RecordedCalls(cfg, task, action, s.observations, reply) +
        if violation || next.failures >= cfg.policy.maxFailures then [] else LedgerFrom(cfg, task, env, next)
  }

  // ----- Every run leaves a ledger the judge exhausts -----

  ghost predicate Judged(ledger: seq<Call>, events: seq<Event>, calls: seq<Call>) {
    var j := JudgeAll(ledger, events);
    j.Some? && j.value.pending.None? && CallsOf(j.value.actions) == calls
  }

  lemma JudgeAppend(ledger: seq<Call>, events: seq<Event>, e: Event)
    requires JudgeAll(ledger, events).Some?
    ensures JudgeAll(ledger, events + [e]) == Judge(JudgeAll(ledger, events).value, ledger, e)
  {
  }

  lemma ActionJudged(
    ledger: seq<Call>, cfg: Config, task: Task, env: Environment, s: RunState, action: Decision, audit: Option<Audit>,
    o: Observation, calls: seq<Call>)
    requires Judged(ledger, s.events, calls) && action.ToolAction?
    ensures Judged(ledger, ActionEvents(cfg, task, env, s, action, audit, o), calls + [CallOf(Known(action))])
  {
    hide CallOf;
    var one := Append(cfg, task, env, s.events, ActionEntry(env, s.events, s.state, action, audit));
    var two := Append(cfg, task, env, one, ObservedEntry(env, one, o, s.steps));
    var three := Append(cfg, task, env, two, ProcessedEntry(env, two));
    JudgeAppend(ledger, s.events, one[|s.events|]);
    JudgeAppend(ledger, one, two[|one|]);
    JudgeAppend(ledger, two, three[|two|]);
    var j, k := JudgeAll(ledger, s.events).value, JudgeAll(ledger, two).value;
    assert CallsOf(k.actions) == CallsOf(j.actions) + [CallOf(Known(action))];
  }

  lemma FailJudged(
    ledger: seq<Call>, cfg: Config, task: Task, env: Environment, s: RunState, calls: seq<Call>, steps: nat, reason: Reason)
    requires Judged(ledger, s.events, calls)
    ensures Judged(ledger, Fail(cfg, task, env, s, steps, reason).events, calls)
  {
    hide Reporting.TerminalReport, SuccessfulEvidence, CallsOf;
    var events := Fail(cfg, task, env, s, steps, reason).events;
    JudgeAppend(ledger, s.events, events[|s.events|]);
  }

  lemma CompleteJudged(
    ledger: seq<Call>, cfg: Config, task: Task, env: Environment, s: RunState, calls: seq<Call>, steps: nat,
    finish: Decision, audit: Option<Audit>)
    requires Judged(ledger, s.events, calls) && finish.Finish?
    ensures Judged(ledger, Complete(cfg, task, env, s, steps, finish, audit).events, calls)
  {
    hide Reporting.TerminalReport, SuccessfulEvidence, CallsOf;
    var events := Complete(cfg, task, env, s, steps, finish, audit).events;
    JudgeAppend(ledger, s.events, events[|s.events|]);
  }

  lemma EndJudged(ledger: seq<Call>, cfg: Config, task: Task, env: Environment, s: RunState, calls: seq<Call>)
    requires Judged(ledger, s.events, calls)
    ensures forall steps, reason :: Judged(ledger, Fail(cfg, task, env, s, steps, reason).events, calls)
    ensures forall steps, finish: Decision, audit {:trigger Complete(cfg, task, env, s, steps, finish, audit)} ::
              finish.Finish? ==> Judged(ledger, Complete(cfg, task, env, s, steps, finish, audit).events, calls)
  {
    hide *;
    forall steps, reason ensures Judged(ledger, Fail(cfg, task, env, s, steps, reason).events, calls) {
      FailJudged(ledger, cfg, task, env, s, calls, steps, reason);
    }
    forall steps, finish: Decision, audit {:trigger Complete(cfg, task, env, s, steps, finish, audit)} | finish.Finish?
      ensures Judged(ledger, Complete(cfg, task, env, s, steps, finish, audit).events, calls)
    {
      CompleteJudged(ledger, cfg, task, env, s, calls, steps, finish, audit);
    }
  }

  lemma SubsequenceStep(part: seq<Call>, whole: seq<Call>, x: Call)
    requires Subsequence(part, whole)
    ensures Subsequence(part, whole + [x]) && Subsequence(part + [x], whole + [x])
  {
    var at: seq<nat> :| EmbedsAt(part, whole, at);
    assert EmbedsAt(part, whole + [x], at);
    assert EmbedsAt(part + [x], whole + [x], at + [|whole|]);
  }

  lemma RecordedIsCall(cfg: Config, task: Task, action: Decision, observations: seq<Observation>, reply: ToolReply)
    requires action.ToolAction?
    ensures RecordedCalls(cfg, task, action, observations, reply) in {[], [CallOf(Known(action))]}
  {
  }

  lemma LedgerSteps(cfg: Config, task: Task, env: Environment, s: RunState)
    ensures s.steps >= cfg.policy.maxSteps ==> LedgerFrom(cfg, task, env, s) == []
    ensures s.steps < cfg.policy.maxSteps ==>
              var view := CurrentView(cfg, task, env, s);
              var consulted := Consult(cfg, env, view);
              LedgerFrom(cfg, task, env, s) ==
              if consulted.Refused? || consulted.decision.Finish? || Denied(cfg, s, consulted.decision).Some? then []
              else
                var action := consulted.decision;
                var (o, violation) := ExecuteTool(cfg, task, action, s.observations, env.tool(view, action));
                var next := Perform(cfg, task, env, s, action, consulted.audit, o);
                RecordedCalls(cfg, task, action, s.observations, env.tool(view, action)) +
                if violation || next.failures >= cfg.policy.maxFailures then [] else LedgerFrom(cfg, task, env, next)
  {
    hide CurrentView, Consult, Denied, ExecuteTool, Perform, RecordedCalls;
  }

  lemma {:induction false} RunEmbeds(
    ledger: seq<Call>, cfg: Config, task: Task, env: Environment, s: RunState, past: seq<Call>, calls: seq<Call>)
    returns (all: seq<Call>)
    requires Judged(ledger, s.events, calls) && Subsequence(past, calls)
    ensures Judged(ledger, RunFrom(cfg, task, env, s).events, all)
    ensures Subsequence(past + LedgerFrom(cfg, task, env, s), all)
    decreases cfg.policy.maxSteps - s.steps
  {
    hide *;
    RunExhausts(cfg, task, env, s);
    LedgerSteps(cfg, task, env, s);
    EndJudged(ledger, cfg, task, env, s, calls);
    assert past + [] == past;
    all := calls;
    if s.steps < cfg.policy.maxSteps {
      var view := CurrentView(cfg, task, env, s);
      var consulted := Consult(cfg, env, view);
      RunStops(cfg, task, env, s);
      if consulted.Decided? && consulted.decision.ToolAction? {
        var action, audit := consulted.decision, consulted.audit;
        RunDenies(cfg, task, env, s, action, audit);
        if Denied(cfg, s, action).None? {
          RunActs(cfg, task, env, s, action, audit);
          var reply := env.tool(view, action);
          var o := ExecuteTool(cfg, task, action, s.observations, reply).0;
          var next := Perform(cfg, task, env, s, action, audit, o);
          PerformFields(cfg, task, env, s, action, audit, o);
          ActionJudged(ledger, cfg, task, env, s, action, audit, o, calls);
          SubsequenceStep(past, calls, CallOf(Known(action)));
          RecordedIsCall(cfg, task, action, s.observations, reply);
          var recorded := RecordedCalls(cfg, task, action, s.observations, reply);
          all := calls + [CallOf(Known(action))];
          EndJudged(ledger, cfg, task, env, next, all);
          assert recorded + [] == recorded;
          var rest := RunEmbeds(ledger, cfg, task, env, next, past + recorded, all);
          assert past + recorded + LedgerFrom(cfg, task, env, next) == past + (recorded + LedgerFrom(cfg, task, env, next));
          if !ExecuteTool(cfg, task, action, s.observations, reply).1 && next.failures < cfg.policy.maxFailures {
            all := rest;
          }
        }
      }
    }
  }

  /** Whatever the planner and the tools do, the ledger of a run is exhausted by its own trace. */
  lemma RunLedgerExhausted(cfg: Config, task: Task, env: Environment)
    ensures var ledger := LedgerFrom(cfg, task, env, START);
            var judged := ActualActions(RunTrace(cfg, task, env), ledger);
            judged.Some? && judged.value.1
  {
    hide *;
    var ledger := LedgerFrom(cfg, task, env, START);
    RunStarts(cfg, task, env);
    NothingJudged(ledger);
    var all := RunEmbeds(ledger, cfg, task, env, START, [], []);
    assert [] + ledger == ledger;
    JudgedExhausts(RunTrace(cfg, task, env), ledger, all);
  }

  lemma NothingJudged(ledger: seq<Call>)
    ensures Judged(ledger, [], []) && Subsequence([], [])
  {
    assert EmbedsAt([], [], []);
  }

  lemma JudgedExhausts(trace: AgentTrace, ledger: seq<Call>, calls: seq<Call>)
    requires Judged(ledger, trace.events, calls) && Subsequence(ledger, calls)
    ensures ActualActions(trace, ledger).Some? && ActualActions(trace, ledger).value.1
  {
    hide Subsequence, JudgeAll;
    ExhaustedExactly(trace, ledger);
  }
}
