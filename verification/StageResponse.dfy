/** Why the response built from the tools' caches is about the experiments in the trace, and exactly
    when a failed call has left something behind that spoils it. */
module StageResponse {
  import opened Contracts
  import opened Grounding
  import opened RetrievalEvidence
  import opened RetrievalOutcomes
  import opened RetrievalPlanner
  import opened RetrievalPolicy
  import opened RetrievalSelection
  import opened StageTools
  import opened Trace

  // ----- A run of the tools -----

  /** What the handler behind one observation computed, if it was reached, and how many updates it made. */
  datatype Attempt = Attempt(call: Option<Call>, made: nat)

  function MadeUpdates(a: Attempt): seq<Update> {
    if a.call.None? then [] else UpdatesOf(a.call.value)[..if a.made < 3 then a.made else 3]
  }

  function LogOf(attempts: seq<Attempt>): seq<Update> {
    if attempts == [] then [] else LogOf(attempts[..|attempts| - 1]) + MadeUpdates(attempts[|attempts| - 1])
  }

  /** Every update was allowed when it was made. */
  predicate AllowedLog(log: seq<Update>) {
    log == [] ||
    (AllowedLog(log[..|log| - 1]) && Allowed(Folded(EMPTY, log[..|log| - 1]), log[|log| - 1]))
  }

  /** A success reports what its handler computed and stored completely.  A retryable failure comes
      from storage, before the last update; any other failure may come at any point or later. */
  predicate Fits(o: Observation, a: Attempt) {
    if o.succeeded then
      && a.call.Some? && a.made == 3
      && (o.tool == DiagnoseBaseline ==> a.call.value.BaselineCall? && o.payload == BaselinePayload(a.call.value.baseline))
      && (o.tool == RunCandidate ==> a.call.value.CandidateCall? && o.payload == ExperimentPayload(a.call.value.experiment))
    else o.retryable ==> a.made < 3
  }

  ghost predicate Ran(observations: seq<Observation>, attempts: seq<Attempt>) {
    && |attempts| == |observations| && AllowedLog(LogOf(attempts))
    && forall k :: 0 <= k < |observations| ==> Fits(observations[k], attempts[k])
  }

  /** The caches after a run. */
  function CachesAfter(attempts: seq<Attempt>): Caches {
    Folded(EMPTY, LogOf(attempts))
  }

  /** What a handler's method makes of the caches is an attempt: its log stays allowed. */
  lemma {:induction false} MadeIsAllowed(log: seq<Update>, updates: seq<Update>, power: nat)
    requires AllowedLog(log)
    ensures var n := Made(Folded(EMPTY, log), updates, power);
            AllowedLog(log + updates[..n]) && Folded(EMPTY, log + updates[..n]) == Folded(Folded(EMPTY, log), updates[..n])
    decreases |updates|
  {
    hide Updated, Allowed;
    var c := Folded(EMPTY, log);
    var n := Made(c, updates, power);
    FoldedAppend(EMPTY, log, updates[..n]);
    if n == 0 {
      assert log + updates[..0] == log;
    } else {
      var next := log + [updates[0]];
      assert next[..|next| - 1] == log;
      MadeIsAllowed(next, updates[1..], power - 1);
      assert log + updates[..n] == next + updates[1..][..n - 1];
    }
  }

  // ----- The handlers make a run -----

  /** Before any call. */
  lemma NothingRan()
    ensures Ran([], []) && CachesAfter([]) == EMPTY
  {
  }

  /** One call of a handler, failing wherever it does, takes the caches of a run to those of the run
      with one more attempt; what the attempt made is what the handler made. */
  lemma HandlerRan(observations: seq<Observation>, attempts: seq<Attempt>, call: Call, power: nat, o: Observation)
    requires Ran(observations, attempts)
    requires Fits(o, Attempt(Some(call), HandlerMade(CachesAfter(attempts), call, power)))
    ensures var more := attempts + [Attempt(Some(call), HandlerMade(CachesAfter(attempts), call, power))];
            Ran(observations + [o], more) && CachesAfter(more) == Handled(CachesAfter(attempts), call, power)
  {
    hide Made, UpdatesOf, AllowedLog, Fits;
    var c, log := CachesAfter(attempts), LogOf(attempts);
    var n := HandlerMade(c, call, power);
    var a := Attempt(Some(call), n);
    var updates := UpdatesOf(call);
    LogSnoc(attempts, a);
    MadeIsAllowed(log, updates, power);
    MadeIsAllowed(log, updates, 0);
    MadeNothing(c, updates);
    FoldedAppend(EMPTY, log, updates[..n]);
    assert updates[..0] == [];
  }

  /** So does an action that never reaches a handler. */
  lemma UnreachedRan(observations: seq<Observation>, attempts: seq<Attempt>, o: Observation)
    requires Ran(observations, attempts) && !o.succeeded
    ensures var more := attempts + [Attempt(None, 0)];
            Ran(observations + [o], more) && CachesAfter(more) == CachesAfter(attempts)
  {
    hide AllowedLog;
    LogSnoc(attempts, Attempt(None, 0));
    assert LogOf(attempts) + [] == LogOf(attempts);
  }

  /** What happens in the tools for one action: nothing, or a call that fails after `power` updates. */
  datatype Step = Step(call: Option<Call>, power: nat)

  function CachesOf(steps: seq<Step>): Caches {
    if steps == [] then EMPTY
    else
      var before, last := CachesOf(steps[..|steps| - 1]), steps[|steps| - 1];
      if last.call.None? then before else Handled(before, last.call.value, last.power)
  }

  function AttemptOf(c: Caches, step: Step): Attempt {
    if step.call.None? then Attempt(None, 0) else Attempt(step.call, HandlerMade(c, step.call.value, step.power))
  }

  function AttemptsOf(steps: seq<Step>): seq<Attempt> {
    if steps == [] then []
    else AttemptsOf(steps[..|steps| - 1]) + [AttemptOf(CachesOf(steps[..|steps| - 1]), steps[|steps| - 1])]
  }

  /** Each observation reports what its step made of the caches it found. */
  predicate Observes(observations: seq<Observation>, steps: seq<Step>) {
    && |observations| == |steps|
    && (steps == [] ||
        (var n := |steps| - 1;
         Observes(observations[..n], steps[..n]) && Fits(observations[n], AttemptOf(CachesOf(steps[..n]), steps[n]))))
  }

  /** A whole sequence of handler calls, failing wherever they do, is a run of the tools, and the caches
      it leaves are those of its attempts. */
  lemma {:induction false} HandlersRan(observations: seq<Observation>, steps: seq<Step>)
    requires Observes(observations, steps)
    ensures Ran(observations, AttemptsOf(steps)) && CachesAfter(AttemptsOf(steps)) == CachesOf(steps)
  {
    hide Ran, Fits, Handled, HandlerMade, CachesAfter;
    if steps == [] {
      NothingRan();
      assert observations == [];
    } else {
      var n := |steps| - 1;
      var front, o, last := observations[..n], observations[n], steps[n];
      HandlersRan(front, steps[..n]);
      assert front + [o] == observations;
      if last.call.None? {
        NoCallFails(o);
        UnreachedRan(front, AttemptsOf(steps[..n]), o);
      } else {
        HandlerRan(front, AttemptsOf(steps[..n]), last.call.value, last.power, o);
      }
    }
  }

  lemma NoCallFails(o: Observation)
    ensures Fits(o, Attempt(None, 0)) ==> !o.succeeded
  {
  }

  lemma LogSnoc(attempts: seq<Attempt>, a: Attempt)
    ensures LogOf(attempts + [a]) == LogOf(attempts) + MadeUpdates(a)
  {
  }

  lemma MadeNothing(c: Caches, updates: seq<Update>)
    ensures Made(c, updates, 0) == 0
  {
  }

  // ----- What the caches hold -----

  ghost predicate Holds(log: seq<Update>, c: Caches) {
    && (forall r: RunArtifact :: (r.id in c.runs && c.runs[r.id] == r) <==> StoreRun(r) in log)
    && (forall d: DiagnosisArtifact :: (d.id in c.diagnoses && c.diagnoses[d.id] == d) <==> StoreDiagnosis(d) in log)
    && (forall e: Experiment :: (e.comparisonId in c.comparisons && c.comparisons[e.comparisonId] == e) <==> StoreComparison(e) in log)
    && (forall id :: id in c.runs ==> c.runs[id].id == id)
    && (forall id :: id in c.diagnoses ==> c.diagnoses[id].id == id)
    && (forall id :: id in c.comparisons ==> c.comparisons[id].comparisonId == id)
    && (forall id :: id in c.pins <==> PinBaseline(id) in log)
  }

  lemma HoldsStep(log: seq<Update>, c: Caches, u: Update)
    requires Holds(log, c) && Allowed(c, u)
    ensures Holds(log + [u], Updated(c, u))
  {
    assert forall x :: x in log + [u] <==> x in log || x == u;
  }

  /** The caches hold exactly what the log stored. */
  lemma {:induction false} CachesHold(log: seq<Update>)
    requires AllowedLog(log)
    ensures Holds(log, Folded(EMPTY, log))
  {
    hide Holds, Updated, Allowed;
    if log == [] {
      EmptyHolds();
    } else {
      var front, last := log[..|log| - 1], log[|log| - 1];
      CachesHold(front);
      HoldsStep(front, Folded(EMPTY, front), last);
      assert front + [last] == log;
    }
  }

  lemma EmptyHolds()
    ensures Holds([], EMPTY)
  {
  }

  lemma {:induction false} LogMembers(attempts: seq<Attempt>, u: Update)
    ensures u in LogOf(attempts) <==> exists k :: 0 <= k < |attempts| && u in MadeUpdates(attempts[k])
  {
    hide MadeUpdates;
    if attempts != [] {
      var n := |attempts| - 1;
      LogMembers(attempts[..n], u);
      if k :| 0 <= k < n && u in MadeUpdates(attempts[..n][k]) {
        assert u in MadeUpdates(attempts[k]);
      }
      if k :| 0 <= k < n && u in MadeUpdates(attempts[k]) {
        assert u in MadeUpdates(attempts[..n][k]);
      }
    }
  }

  // ----- Histories with a verdict -----

  /** Every failure was retried, and every success reports the one baseline or an experiment. */
  ghost predicate Clean(observations: seq<Observation>, baseline: Option<BaselineSummary>) {
    && (forall k :: 0 <= k < |observations| ==> CleanAt(observations[k], baseline))
    && (baseline.Some? ==> exists k :: 0 <= k < |observations| && Diagnoses(observations[k], baseline.value))
  }

  predicate Diagnoses(o: Observation, b: BaselineSummary) {
    o.succeeded && o.tool == DiagnoseBaseline && o.payload == BaselinePayload(b)
  }

  predicate CleanAt(o: Observation, baseline: Option<BaselineSummary>) {
    if !o.succeeded then o.retryable
    else
      || (baseline.Some? && Diagnoses(o, baseline.value))
      || (o.tool == RunCandidate && o.payload.ExperimentPayload?)
  }

  lemma CleanSnoc(front: seq<Observation>, o: Observation, before: Option<BaselineSummary>, after: Option<BaselineSummary>)
    requires Clean(front, before) && CleanAt(o, after)
    requires after == before || (before.None? && after.Some? && Diagnoses(o, after.value))
    ensures Clean(front + [o], after)
  {
    var all := front + [o];
    forall k | 0 <= k < |front|
      ensures CleanAt(all[k], after)
    {
      assert all[k] == front[k];
      assert CleanAt(front[k], before);
    }
    if after.Some? && after == before {
      var k :| 0 <= k < |front| && Diagnoses(front[k], before.value);
      assert Diagnoses(all[k], after.value);
    } else if after.Some? {
      assert Diagnoses(all[|front|], after.value);
    }
  }

  // A fixed history that goes on, or ends on a verdict.
  predicate Decisive(p: Progress) {
    p.Running? || (p.Stopped? && p.decision.Finish? && p.decision.outcome != Inconclusive)
  }

  lemma {:induction false} FixedClean(observations: seq<Observation>) returns (b: Option<BaselineSummary>)
    requires Decisive(ProgressOf(observations))
    ensures Clean(observations, b)
    ensures var p := ProgressOf(observations);
            p.Running? ==>
              && (p.cursor.expectedTool == DiagnoseBaseline ==> b.None?)
              && p.cursor.baselineRunId == if b.Some? then Some(b.value.runId) else None
    ensures var p := ProgressOf(observations);
            p.Stopped? && p.experiments != [] ==> b.Some? && Some(b.value.runId) == Some(p.experiments[0].baselineRunId)
  {
    hide Clean, AfterExperiment, ParseExperiment;
    if observations == [] {
      b := None;
      EmptyClean();
    } else {
      var front, o := observations[..|observations| - 1], observations[|observations| - 1];
      assert front + [o] == observations;
      var before := FixedClean(front);
      var c := ProgressOf(front).cursor;
      ParsedPayload(o);
      PlannerProgress(front);
      b := if o.succeeded && o.tool == DiagnoseBaseline && ParseBaseline(o.ref, o.payload).Some?
           then ParseBaseline(o.ref, o.payload) else before;
      AdvanceShape(c, front, o);
      CleanSnoc(front, o, before, b);
      if Advance(c, front + [o]).Stopped? {
        StopsOnBaseline(c, front, o);
      }
    }
  }

  lemma EmptyClean()
    ensures Clean([], None)
  {
  }

  lemma ParsedPayload(o: Observation)
    ensures ParseExperiment(o.ref, o.payload).Some? ==> o.payload.ExperimentPayload?
  {
  }

  lemma AdvanceShape(c: Cursor, front: seq<Observation>, o: Observation)
    requires Decisive(Advance(c, front + [o])) && RunningOk(front, c)
    ensures !o.succeeded ==> o.retryable && Advance(c, front + [o]).Running?
    ensures o.tool == c.expectedTool && (o.tool == DiagnoseBaseline || o.tool == RunCandidate)
    ensures o.succeeded && o.tool == RunCandidate ==> ParseExperiment(o.ref, o.payload).Some?
    ensures var p := Advance(c, front + [o]);
            p.Running? ==>
              && (!o.succeeded ==> p.cursor.expectedTool == c.expectedTool && p.cursor.baselineRunId == c.baselineRunId)
              && (o.succeeded ==> p.cursor.expectedTool == RunCandidate)
              && (o.succeeded && o.tool == RunCandidate ==> p.cursor.baselineRunId == c.baselineRunId)
  {
    hide Experimental, Recounts, ParseBaseline, ParseExperiment, SuccessfulEvidence, Best, Passing;
  }

  lemma StopsOnBaseline(c: Cursor, front: seq<Observation>, o: Observation)
    requires RunningOk(front, c) && Decisive(Advance(c, front + [o])) && Advance(c, front + [o]).Stopped?
    ensures var es := Advance(c, front + [o]).experiments;
            es != [] ==> o.tool == RunCandidate && c.baselineRunId == Some(es[0].baselineRunId)
  {
    hide Recounts, ValidExperiment, FreshVariant, FreshEvidence;
    if c.experiments != [] {
      assert c.experiments[0] in c.experiments;
    }
  }

  lemma {:induction false} AdaptiveClean(observations: seq<Observation>)
    requires HistoryOf(observations).Some? && !HistoryOf(observations).value.failed
    ensures Clean(observations, HistoryOf(observations).value.baseline)
    ensures forall k :: 0 <= k < |observations| ==> observations[k].succeeded
  {
    hide Clean, Admit;
    if observations == [] {
      EmptyClean();
    } else {
      var front, o := observations[..|observations| - 1], observations[|observations| - 1];
      AdmitShape(HistoryOf(front).value, o);
      AdaptiveClean(front);
      CleanSnoc(front, o, HistoryOf(front).value.baseline, HistoryOf(observations).value.baseline);
      assert front + [o] == observations;
    }
  }

  lemma AdmitShape(h: History, o: Observation)
    requires Admit(h, o).Some? && !Admit(h, o).value.failed
    ensures var next := Admit(h, o).value;
            && !h.failed && o.succeeded && CleanAt(o, next.baseline)
            && (next.baseline == h.baseline || (h.baseline.None? && next.baseline.Some? && Diagnoses(o, next.baseline.value)))
  {
    hide RetrievalEvidence.ValidExperiment, RetrievalEvidence.ValidBaseline;
  }

  lemma {:induction false} ObservedMembers(observations: seq<Observation>, e: Experiment)
    ensures e in ObservedExperiments(observations) <==>
            exists k :: 0 <= k < |observations| && Reports(observations[k], e)
  {
    if observations != [] {
      var front := observations[..|observations| - 1];
      ObservedMembers(front, e);
      if k :| 0 <= k < |front| && Reports(front[k], e) {
        assert Reports(observations[k], e);
      }
      if k :| 0 <= k < |observations| && Reports(observations[k], e) && k < |front| {
        assert Reports(front[k], e);
      }
    }
  }

  predicate Reports(o: Observation, e: Experiment) {
    o.succeeded && o.tool == RunCandidate && o.payload == ExperimentPayload(e)
  }

  // ----- Leftovers -----

  function RunOf(call: Call): Id {
    match call case BaselineCall(b) => b.runId case CandidateCall(e) => e.candidateRunId
  }

  function DiagnosisOf(call: Call): Id {
    match call case BaselineCall(b) => b.diagnosisId case CandidateCall(e) => e.diagnosisId
  }

  /** A stored artifact that makes a lookup for this call ambiguous: another run of its variant, or
      another diagnosis of its run. */
  predicate Conflicts(u: Update, call: Call) {
    match u
    case StoreRun(r) => call.CandidateCall? && r.variant == Some(call.experiment.variant) && r.id != RunOf(call)
    case StoreDiagnosis(d) => d.runId == RunOf(call) && d.id != DiagnosisOf(call)
    case _ => false
  }

  predicate Spoils(a: Attempt, call: Call) {
    exists u :: u in MadeUpdates(a) && Conflicts(u, call)
  }

  /** Some failed call left an artifact behind that conflicts with what a successful call stored. */
  ghost predicate Disturbed(observations: seq<Observation>, attempts: seq<Attempt>) {
    exists f: nat, s: nat :: Disturbs(observations, attempts, f, s)
  }

  predicate Disturbs(observations: seq<Observation>, attempts: seq<Attempt>, f: nat, s: nat) {
    && |attempts| == |observations| && f < |observations| && s < |observations|
    && !observations[f].succeeded && observations[s].succeeded
    && attempts[s].call.Some? && Spoils(attempts[f], attempts[s].call.value)
  }

  ghost predicate Verdict(
    observations: seq<Observation>, attempts: seq<Attempt>, b: BaselineSummary, experiments: seq<Experiment>)
  {
    && Clean(observations, Some(b)) && Ran(observations, attempts)
    && experiments == ObservedExperiments(observations) && Experimental(Some(b.runId), experiments)
  }

  predicate CallOf(b: BaselineSummary, experiments: seq<Experiment>, call: Call) {
    match call case BaselineCall(x) => x == b case CandidateCall(e) => e in experiments
  }

  // What a successful attempt computed is the baseline or one of the experiments.
  lemma SuccessCalls(observations: seq<Observation>, attempts: seq<Attempt>, b: BaselineSummary,
                     experiments: seq<Experiment>, k: nat)
    requires Verdict(observations, attempts, b, experiments) && k < |observations| && observations[k].succeeded
    ensures attempts[k].call.Some? && attempts[k].made == 3 && CallOf(b, experiments, attempts[k].call.value)
  {
    hide Experimental, AllowedLog, LogOf, ObservedExperiments;
    assert CleanAt(observations[k], Some(b)) && Fits(observations[k], attempts[k]);
    if attempts[k].call.value.CandidateCall? {
      assert Reports(observations[k], attempts[k].call.value.experiment);
      ObservedMembers(observations, attempts[k].call.value.experiment);
    }
  }

  // And each of them is what some successful attempt computed.
  lemma CallsSucceeded(observations: seq<Observation>, attempts: seq<Attempt>, b: BaselineSummary,
                       experiments: seq<Experiment>, call: Call) returns (k: nat)
    requires Verdict(observations, attempts, b, experiments) && CallOf(b, experiments, call)
    ensures k < |observations| && observations[k].succeeded
    ensures attempts[k].call == Some(call) && attempts[k].made == 3
  {
    hide Experimental, AllowedLog, LogOf, ObservedExperiments;
    if call.BaselineCall? {
      k :| 0 <= k < |observations| && Diagnoses(observations[k], b);
    } else {
      ObservedMembers(observations, call.experiment);
      k :| 0 <= k < |observations| && Reports(observations[k], call.experiment);
    }
    assert Fits(observations[k], attempts[k]);
  }

  lemma DistinctPair(baseline: Option<Id>, experiments: seq<Experiment>, x: Experiment, y: Experiment)
    requires Experimental(baseline, experiments) && x in experiments && y in experiments && x != y
    ensures x.variant != y.variant && x.candidateRunId != y.candidateRunId && x.comparisonId != y.comparisonId
  {
    hide ValidExperiment;
    var i :| 0 <= i < |experiments| && experiments[i] == x;
    var j :| 0 <= j < |experiments| && experiments[j] == y;
    if i < j {
      assert experiments[..j][i] == x && FreshVariant(experiments[j], experiments[..j]);
      assert FreshEvidence(experiments[j], experiments[..j]);
    } else {
      assert experiments[..i][j] == y && FreshVariant(experiments[i], experiments[..i]);
      assert FreshEvidence(experiments[i], experiments[..i]);
    }
  }

  // Successful calls never conflict with one another.
  lemma SuccessesAgree(b: BaselineSummary, experiments: seq<Experiment>, one: Call, other: Call, u: Update)
    requires Experimental(Some(b.runId), experiments) && CallOf(b, experiments, one) && CallOf(b, experiments, other)
    requires u in UpdatesOf(one)
    ensures !Conflicts(u, other)
  {
    if one.CandidateCall? && other.CandidateCall? && one != other {
      DistinctPair(Some(b.runId), experiments, one.experiment, other.experiment);
    }
  }

  /** A call meets a conflict in the log exactly when a failed attempt left it. */
  lemma ConflictsAreLeft(observations: seq<Observation>, attempts: seq<Attempt>, b: BaselineSummary,
                         experiments: seq<Experiment>, call: Call)
    requires Verdict(observations, attempts, b, experiments) && CallOf(b, experiments, call)
    ensures (exists u :: u in LogOf(attempts) && Conflicts(u, call)) <==>
              exists f :: 0 <= f < |observations| && !observations[f].succeeded && Spoils(attempts[f], call)
  {
    hide Experimental, AllowedLog, LogOf, ObservedExperiments, Clean, Conflicts, CallOf, UpdatesOf;
    if u :| u in LogOf(attempts) && Conflicts(u, call) {
      LogMembers(attempts, u);
      var k :| 0 <= k < |attempts| && u in MadeUpdates(attempts[k]);
      if observations[k].succeeded {
        SuccessCalls(observations, attempts, b, experiments, k);
        SuccessesAgree(b, experiments, attempts[k].call.value, call, u);
      }
      assert Spoils(attempts[k], call);
    }
    if f :| 0 <= f < |observations| && !observations[f].succeeded && Spoils(attempts[f], call) {
      var u :| u in MadeUpdates(attempts[f]) && Conflicts(u, call);
      LogMembers(attempts, u);
    }
  }

  // ----- The lookups -----

  lemma OnlyMeans<T>(s: set<T>, x: T)
    requires x in s
    ensures TheOnly(s) == if s == {x} then Some(x) else None
  {
    if TheOnly(s).Some? {
      var y :| y in s && s == {y};
    }
  }

  lemma DiagnosisFound(log: seq<Update>, c: Caches, call: Call)
    requires Holds(log, c) && UpdatesOf(call)[1] in log
    ensures DiagnosisFor(c, RunOf(call)) ==
            if exists u :: u in log && u.StoreDiagnosis? && Conflicts(u, call) then None else Some(DiagnosisOf(call))
  {
    hide TheOnly;
    var s := set id | id in c.diagnoses && c.diagnoses[id].runId == RunOf(call);
    var mine := DiagnosisArtifact(DiagnosisOf(call), RunOf(call));
    assert StoreDiagnosis(mine) in log;
    OnlyMeans(s, DiagnosisOf(call));
    if u :| u in log && u.StoreDiagnosis? && Conflicts(u, call) {
      assert u.diagnosis.id in s;
    }
    if y :| y in s && y != DiagnosisOf(call) {
      assert StoreDiagnosis(c.diagnoses[y]) in log;
    }
  }

  lemma RunFound(log: seq<Update>, c: Caches, call: Call)
    requires Holds(log, c) && UpdatesOf(call)[0] in log && call.CandidateCall?
    ensures RunFor(c, call.experiment.variant) ==
            if exists u :: u in log && u.StoreRun? && Conflicts(u, call) then None else Some(RunOf(call))
  {
    hide TheOnly;
    var s := set id | id in c.runs && c.runs[id].variant == Some(call.experiment.variant);
    assert StoreRun(RunArtifact(RunOf(call), Some(call.experiment.variant))) in log;
    OnlyMeans(s, RunOf(call));
    if u :| u in log && u.StoreRun? && Conflicts(u, call) {
      assert u.run.id in s;
    }
    if y :| y in s && y != RunOf(call) {
      assert StoreRun(c.runs[y]) in log;
    }
  }

  lemma ComparisonFound(log: seq<Update>, c: Caches, baseline: Option<Id>, experiments: seq<Experiment>, e: Experiment)
    requires Holds(log, c) && Experimental(baseline, experiments) && e in experiments
    requires forall x :: StoreComparison(x) in log <==> x in experiments
    ensures ComparisonFor(c, e.candidateRunId) == Some(e.comparisonId)
    ensures e.comparisonId in c.comparisons && c.comparisons[e.comparisonId] == e
  {
    hide TheOnly, Experimental;
    var s := set id | id in c.comparisons && c.comparisons[id].candidateRunId == e.candidateRunId;
    assert StoreComparison(e) in log;
    OnlyMeans(s, e.comparisonId);
    forall y | y in s ensures y == e.comparisonId {
      var x := c.comparisons[y];
      assert StoreComparison(x) in log;
      if x != e {
        DistinctPair(baseline, experiments, x, e);
      }
    }
    assert s == {e.comparisonId};
  }

  // What the log of a verdict holds.
  lemma VerdictLog(observations: seq<Observation>, attempts: seq<Attempt>, b: BaselineSummary, experiments: seq<Experiment>)
    requires Verdict(observations, attempts, b, experiments)
    ensures var log := LogOf(attempts);
            && (forall x :: StoreComparison(x) in log <==> x in experiments)
            && (forall id :: PinBaseline(id) in log <==> id == b.runId)
            && (forall call :: CallOf(b, experiments, call) ==> UpdatesOf(call)[0] in log && UpdatesOf(call)[1] in log)
  {
    hide Experimental, AllowedLog, LogOf, ObservedExperiments, Verdict;
    forall call | CallOf(b, experiments, call)
      ensures forall u :: u in UpdatesOf(call) ==> u in LogOf(attempts)
    {
      CallLogged(observations, attempts, b, experiments, call);
    }
    forall x ensures StoreComparison(x) in LogOf(attempts) <==> x in experiments {
      if x in experiments {
        assert CallOf(b, experiments, CandidateCall(x));
        assert UpdatesOf(CandidateCall(x))[2] == StoreComparison(x);
      }
      if StoreComparison(x) in LogOf(attempts) {
        var call := LastCalls(observations, attempts, b, experiments, StoreComparison(x));
      }
    }
    forall id ensures PinBaseline(id) in LogOf(attempts) <==> id == b.runId {
      assert CallOf(b, experiments, BaselineCall(b));
      assert UpdatesOf(BaselineCall(b))[2] == PinBaseline(b.runId);
      if PinBaseline(id) in LogOf(attempts) {
        var call := LastCalls(observations, attempts, b, experiments, PinBaseline(id));
      }
    }
  }

  lemma CallLogged(observations: seq<Observation>, attempts: seq<Attempt>, b: BaselineSummary,
                   experiments: seq<Experiment>, call: Call)
    requires Verdict(observations, attempts, b, experiments) && CallOf(b, experiments, call)
    ensures forall u :: u in UpdatesOf(call) ==> u in LogOf(attempts)
  {
    hide Experimental, AllowedLog, LogOf, ObservedExperiments, Clean, CallOf, UpdatesOf;
    var k := CallsSucceeded(observations, attempts, b, experiments, call);
    assert UpdatesOf(call)[..3] == UpdatesOf(call);
    forall u | u in UpdatesOf(call) ensures u in LogOf(attempts) {
      assert u in MadeUpdates(attempts[k]);
      LogMembers(attempts, u);
    }
  }

  // The last update of a call is made by a success only.
  lemma LastCalls(observations: seq<Observation>, attempts: seq<Attempt>, b: BaselineSummary,
                  experiments: seq<Experiment>, u: Update) returns (call: Call)
    requires Verdict(observations, attempts, b, experiments) && u in LogOf(attempts)
    requires u.StoreComparison? || u.PinBaseline?
    ensures CallOf(b, experiments, call) && u == UpdatesOf(call)[2]
  {
    hide Experimental, AllowedLog, LogOf, ObservedExperiments, CallOf;
    LogMembers(attempts, u);
    var k :| 0 <= k < |attempts| && u in MadeUpdates(attempts[k]);
    assert CleanAt(observations[k], Some(b)) && Fits(observations[k], attempts[k]);
    SuccessCalls(observations, attempts, b, experiments, k) by {
      assert attempts[k].made >= 3;
    }
    call := attempts[k].call.value;
  }

  // ----- The experiments of the response -----

  function VariantsOf(experiments: seq<Experiment>): (variants: seq<Variant>)
    ensures |variants| == |experiments|
    ensures forall i :: 0 <= i < |experiments| ==> variants[i] == experiments[i].variant
  {
    seq(|experiments|, i requires 0 <= i < |experiments| => experiments[i].variant)
  }

  // Only a complete candidate call records a variant.
  lemma AttemptVariants(c: Caches, a: Attempt)
    ensures var v, e := Folded(c, MadeUpdates(a)).variants, if a.call.Some? && a.call.value.CandidateCall? then Some(a.call.value.experiment) else None;
            v == if e.None? || a.made < 3 || e.value.variant in c.variants then c.variants else c.variants + [e.value.variant]
  {
    hide Allowed;
    if a.call.Some? {
      var u := UpdatesOf(a.call.value);
      assert u[..0] == [] && u[..1][..0] == [] && u[..2][..1] == u[..1] && u[..3][..2] == u[..2];
      assert Folded(c, u[..1]) == Updated(c, u[0]);
      assert Folded(c, u[..2]) == Updated(Updated(c, u[0]), u[1]);
      assert Folded(c, u[..3]) == Updated(Updated(Updated(c, u[0]), u[1]), u[2]);
    }
  }

  lemma {:induction false} VariantsInOrder(observations: seq<Observation>, attempts: seq<Attempt>, baseline: Option<BaselineSummary>)
    requires |attempts| == |observations| && DistinctVariants(ObservedExperiments(observations))
    requires forall k :: 0 <= k < |observations| ==> Fits(observations[k], attempts[k]) && CleanAt(observations[k], baseline)
    ensures CachesAfter(attempts).variants == VariantsOf(ObservedExperiments(observations))
  {
    hide Folded, MadeUpdates;
    if observations == [] {
      NothingRecorded();
    } else {
      var n := |observations| - 1;
      var front, o, a := observations[..n], observations[n], attempts[n];
      var before := ObservedExperiments(front);
      PrefixDistinct(before, ObservedExperiments(observations));
      VariantsInOrder(front, attempts[..n], baseline);
      FoldedAppend(EMPTY, LogOf(attempts[..n]), MadeUpdates(a));
      AttemptVariants(CachesAfter(attempts[..n]), a);
      assert CleanAt(o, baseline) && Fits(o, a);
      if o.succeeded && o.tool == RunCandidate {
        assert ObservedExperiments(observations) == before + [o.payload.experiment];
        NewVariant(before, o.payload.experiment);
      }
    }
  }

  lemma NothingRecorded()
    ensures CachesAfter([]).variants == VariantsOf(ObservedExperiments([]))
  {
  }

  lemma PrefixDistinct(a: seq<Experiment>, b: seq<Experiment>)
    requires a <= b && DistinctVariants(b)
    ensures DistinctVariants(a)
  {
  }

  lemma NewVariant(before: seq<Experiment>, e: Experiment)
    requires DistinctVariants(before + [e])
    ensures e.variant !in VariantsOf(before) && VariantsOf(before + [e]) == VariantsOf(before) + [e.variant]
  {
    var all := before + [e];
    forall i | 0 <= i < |before| ensures before[i].variant != e.variant {
      assert all[i] == before[i] && all[|before|] == e;
    }
  }

  /** A lookup returns the experiment in the trace, unless something conflicts with it. */
  lemma ExperimentFound(log: seq<Update>, c: Caches, baseline: Option<Id>, experiments: seq<Experiment>, e: Experiment)
    requires Holds(log, c) && Experimental(baseline, experiments) && e in experiments
    requires forall x :: StoreComparison(x) in log <==> x in experiments
    requires UpdatesOf(CandidateCall(e))[0] in log && UpdatesOf(CandidateCall(e))[1] in log
    ensures CachedExperiment(c, e.variant) ==
            if exists u :: u in log && Conflicts(u, CandidateCall(e)) then None else Some(e)
  {
    hide RunFor, DiagnosisFor, ComparisonFor, Holds, Experimental;
    var call := CandidateCall(e);
    RunFound(log, c, call);
    DiagnosisFound(log, c, call);
    ComparisonFound(log, c, baseline, experiments, e);
    assert e.(variant := e.variant) == e;
    if u :| u in log && Conflicts(u, call) {
      assert u.StoreRun? || u.StoreDiagnosis?;
    }
  }

  lemma {:induction false} AllFound(c: Caches, experiments: seq<Experiment>, bad: set<Experiment>)
    requires forall e :: e in experiments ==> CachedExperiment(c, e.variant) == if e in bad then None else Some(e)
    ensures CachedExperiments(c, VariantsOf(experiments)) ==
            if exists e :: e in experiments && e in bad then None else Some(experiments)
  {
    hide CachedExperiment;
    var variants := VariantsOf(experiments);
    if experiments != [] {
      var front, last := experiments[..|experiments| - 1], experiments[|experiments| - 1];
      AllFound(c, front, bad);
      assert variants[..|variants| - 1] == VariantsOf(front);
      assert front + [last] == experiments;
    }
  }

  /** From the caches of any history with a verdict, the response is about exactly the experiment the
      terminal chose in the trace, unless a failed call left a conflicting artifact; then, and only
      then, it is refused as incomplete although the run completed and its trace replays. */
  lemma ResponseExactly(
    observations: seq<Observation>, attempts: seq<Attempt>, b: BaselineSummary, experiments: seq<Experiment>,
    terminal: TerminalResult)
    requires Verdict(observations, attempts, b, experiments)
    requires terminal.state == Completed && terminal.outcome in {ProposalReady, NoSafeImprovement}
    requires ResponseExperiment(terminal.outcome, terminal.reason, terminal.refs, experiments).Some?
    ensures Respond(CachesAfter(attempts), terminal) ==
            if Disturbed(observations, attempts) then Err(Incomplete)
            else Ok(ResponseExperiment(terminal.outcome, terminal.reason, terminal.refs, experiments).value)
  {
    hide Experimental, ResponseExperiment, CachedExperiment, CachedExperiments, DiagnosisFor, Holds, Clean, Ran, LogOf,
      Conflicts, Spoils, TheOnly, UpdatesOf, ObservedExperiments;
    var log, c := LogOf(attempts), CachesAfter(attempts);
    VerdictHolds(observations, attempts, b, experiments, terminal);
    PinFound(log, c, b);
    DiagnosisFound(log, c, BaselineCall(b));
    ConflictFree(observations, attempts, b, experiments);
    var bad := set e | e in experiments && exists u :: u in log && Conflicts(u, CandidateCall(e));
    forall e | e in experiments
      ensures CachedExperiment(c, e.variant) == if e in bad then None else Some(e)
    {
      assert CallOf(b, experiments, CandidateCall(e));
      ExperimentFound(log, c, Some(b.runId), experiments, e);
    }
    AllFound(c, experiments, bad);
    BaselineConflict(log, b);
    if call :| CallOf(b, experiments, call) && exists u :: u in log && Conflicts(u, call) {
      if call.CandidateCall? {
        assert call.experiment in bad;
      }
    } else {
      assert CallOf(b, experiments, BaselineCall(b));
      forall e | e in experiments ensures e !in bad {
        assert CallOf(b, experiments, CandidateCall(e));
      }
    }
  }

  lemma BaselineConflict(log: seq<Update>, b: BaselineSummary)
    ensures (exists u :: u in log && Conflicts(u, BaselineCall(b))) <==>
              exists u :: u in log && u.StoreDiagnosis? && Conflicts(u, BaselineCall(b))
  {
  }

  lemma VerdictHolds(
    observations: seq<Observation>, attempts: seq<Attempt>, b: BaselineSummary, experiments: seq<Experiment>,
    terminal: TerminalResult)
    requires Verdict(observations, attempts, b, experiments)
    requires ResponseExperiment(terminal.outcome, terminal.reason, terminal.refs, experiments).Some?
    ensures Holds(LogOf(attempts), CachesAfter(attempts)) && Experimental(Some(b.runId), experiments)
    ensures CachesAfter(attempts).variants == VariantsOf(experiments) && experiments != []
    ensures forall x :: StoreComparison(x) in LogOf(attempts) <==> x in experiments
    ensures forall id :: PinBaseline(id) in LogOf(attempts) <==> id == b.runId
    ensures forall call :: CallOf(b, experiments, call) ==>
              UpdatesOf(call)[0] in LogOf(attempts) && UpdatesOf(call)[1] in LogOf(attempts)
    ensures UpdatesOf(BaselineCall(b))[0] == StoreRun(RunArtifact(b.runId, None)) && CallOf(b, experiments, BaselineCall(b))
  {
    hide Experimental, Holds, LogOf, ObservedExperiments, CachesAfter, AllowedLog;
    CachesHold(LogOf(attempts));
    CachesAfterIs(attempts);
    ExperimentalDistinct(Some(b.runId), experiments);
    VariantsInOrder(observations, attempts, Some(b));
    VerdictLog(observations, attempts, b, experiments);
  }

  lemma CachesAfterIs(attempts: seq<Attempt>)
    ensures CachesAfter(attempts) == Folded(EMPTY, LogOf(attempts))
  {
  }

  lemma PinFound(log: seq<Update>, c: Caches, b: BaselineSummary)
    requires Holds(log, c) && StoreRun(RunArtifact(b.runId, None)) in log
    requires forall id :: PinBaseline(id) in log <==> id == b.runId
    ensures TheOnly(c.pins) == Some(b.runId) && b.runId in c.runs
  {
    hide TheOnly;
    OnlyMeans(c.pins, b.runId);
    assert c.pins == {b.runId};
    assert RunArtifact(b.runId, None).id in c.runs;
  }

  // Undisturbed means that no call meets a conflict.
  lemma ConflictFree(observations: seq<Observation>, attempts: seq<Attempt>, b: BaselineSummary, experiments: seq<Experiment>)
    requires Verdict(observations, attempts, b, experiments)
    ensures Disturbed(observations, attempts) <==>
              exists call :: CallOf(b, experiments, call) && exists u :: u in LogOf(attempts) && Conflicts(u, call)
  {
    hide Experimental, LogOf, Conflicts, Spoils, CallOf, Verdict;
    VerdictLength(observations, attempts, b, experiments);
    if Disturbed(observations, attempts) {
      var f: nat, s: nat :| Disturbs(observations, attempts, f, s);
      SuccessCalls(observations, attempts, b, experiments, s);
      ConflictsAreLeft(observations, attempts, b, experiments, attempts[s].call.value);
    }
    if call :| CallOf(b, experiments, call) && exists u :: u in LogOf(attempts) && Conflicts(u, call) {
      ConflictsAreLeft(observations, attempts, b, experiments, call);
      var f :| 0 <= f < |observations| && !observations[f].succeeded && Spoils(attempts[f], call);
      var s := CallsSucceeded(observations, attempts, b, experiments, call);
      assert Disturbs(observations, attempts, f, s);
    }
  }

  lemma VerdictLength(observations: seq<Observation>, attempts: seq<Attempt>, b: BaselineSummary, experiments: seq<Experiment>)
    requires Verdict(observations, attempts, b, experiments)
    ensures |attempts| == |observations|
  {
  }

  // ----- Either policy -----

  predicate TerminalOf(terminal: TerminalResult, d: Decision) {
    && d.Finish? && terminal.state == Completed
    && terminal.outcome == d.outcome && terminal.reason == d.finishReason && terminal.refs == d.refs
  }

  /** A finish that offers an option of the adaptive policy ends a history without failures. */
  lemma OfferedUnfailed(task: Task, observations: seq<Observation>, d: Decision)
    requires OptionForDecision(task, observations, d).Some?
    ensures HistoryOf(observations).Some? && !HistoryOf(observations).value.failed
  {
    hide HistoryOf, Matching, RunOptions, FinishOptions, SuccessfulEvidence;
    NothingMatches(d);
  }

  lemma NothingMatches(d: Decision)
    ensures Matching([], d) == []
  {
  }

  // The evidence behind an allowed verdict.
  lemma AllowedVerdict(task: Task, observations: seq<Observation>, attempts: seq<Attempt>, d: Decision)
    returns (b: BaselineSummary)
    requires task.RetrievalTask? && d.Finish? && RetrievalFinishAllowed(task, d, observations)
    requires d.outcome in {ProposalReady, NoSafeImprovement} && Ran(observations, attempts)
    ensures Verdict(observations, attempts, b, ObservedExperiments(observations))
    ensures ResponseExperiment(d.outcome, d.finishReason, d.refs, ObservedExperiments(observations)).Some?
    ensures task.policy == AdaptiveLlm ==> forall k :: 0 <= k < |observations| ==> observations[k].succeeded
  {
    hide Experimental, Clean, Ran, ProgressOf, HistoryOf, OptionForDecision, ObservedExperiments, ResponseExperiment;
    var experiments := ObservedExperiments(observations);
    if d.outcome == ProposalReady {
      ReasonRoundTrip(task, observations, d);
    } else {
      NoSafeMeansAllFailed(task, observations, d);
    }
    SelectedNonempty(d, experiments);
    var baseline := AllowedFinish(task, observations, d);
    BaselineIs(baseline, experiments);
    if task.policy == FixedSequence {
      FinishIsStopped(observations, d);
      PlannerProgress(observations);
      var clean := FixedClean(observations);
      StoppedExperiments(observations);
      b := clean.value;
    } else {
      OfferedUnfailed(task, observations, d);
      AdaptiveClean(observations);
      AdaptiveHistory(observations);
      AdaptiveBaseline(observations);
      b := HistoryOf(observations).value.baseline.value;
    }
  }

  lemma SelectedNonempty(d: Decision, experiments: seq<Experiment>)
    requires d.Finish? && ResponseExperiment(d.outcome, d.finishReason, d.refs, experiments).Some?
    ensures experiments != []
  {
  }

  lemma BaselineIs(baseline: Option<Id>, experiments: seq<Experiment>)
    requires Experimental(baseline, experiments) && experiments != []
    ensures baseline == Some(experiments[0].baselineRunId)
  {
    hide ValidExperiment;
    assert experiments[0] in experiments;
  }

  lemma StoppedExperiments(observations: seq<Observation>)
    requires ProgressOf(observations).Stopped? && ProgressOk(observations, ProgressOf(observations))
    ensures ProgressOf(observations).experiments == ObservedExperiments(observations)
  {
    hide ProgressOf, Experimental, FixedFinish;
  }

  lemma AdaptiveBaseline(observations: seq<Observation>)
    requires HistoryOf(observations).Some? && HistoryOk(observations, HistoryOf(observations).value)
    requires ObservedExperiments(observations) != []
    ensures var h := HistoryOf(observations).value;
            h.baseline.Some? && h.baseline.value.runId == ObservedExperiments(observations)[0].baselineRunId
  {
    hide HistoryOf, ValidExperiment;
    var h := HistoryOf(observations).value;
    assert h.experiments[0] in h.experiments;
  }

  /** Under either policy: a completed verdict is answered with the experiment its reason code names,
      or refused exactly when a failed call has left a conflict; the adaptive policy knows no such case. */
  lemma AllowedIsAnswered(task: Task, observations: seq<Observation>, attempts: seq<Attempt>, d: Decision, terminal: TerminalResult)
    requires task.RetrievalTask? && d.Finish? && RetrievalFinishAllowed(task, d, observations)
    requires d.outcome in {ProposalReady, NoSafeImprovement} && Ran(observations, attempts) && TerminalOf(terminal, d)
    ensures var chosen := ResponseExperiment(d.outcome, d.finishReason, d.refs, ObservedExperiments(observations));
            && chosen.Some?
            && Respond(CachesAfter(attempts), terminal) ==
               if Disturbed(observations, attempts) then Err(Incomplete) else Ok(chosen.value)
    ensures task.policy == AdaptiveLlm ==> !Disturbed(observations, attempts)
  {
    hide Verdict, Ran, RetrievalFinishAllowed, ResponseExperiment, Respond, ObservedExperiments, CachesAfter;
    RanLength(observations, attempts);
    var b := AllowedVerdict(task, observations, attempts, d);
    ResponseExactly(observations, attempts, b, ObservedExperiments(observations), terminal);
  }

  lemma RanLength(observations: seq<Observation>, attempts: seq<Attempt>)
    requires Ran(observations, attempts)
    ensures |attempts| == |observations|
  {
  }

  // ----- When nothing is disturbed -----

  /** Asked again for the same candidate the harness computes the same evidence, and diagnosing the same
      run again gives the same diagnosis.  Repeating the baseline may well give another run. */
  ghost predicate Repeatable(attempts: seq<Attempt>) {
    forall f, s :: 0 <= f < |attempts| && 0 <= s < |attempts| && attempts[f].call.Some? && attempts[s].call.Some? ==>
      SameRequest(attempts[f].call.value, attempts[s].call.value) ==> attempts[f].call == attempts[s].call
  }

  predicate SameRequest(a: Call, b: Call) {
    match a
    case BaselineCall(x) => b.BaselineCall? && b.baseline.runId == x.runId
    case CandidateCall(e) => b.CandidateCall? && b.experiment.variant == e.variant
  }

  /** With a repeatable harness no pattern of failures and retries spoils the response. */
  lemma RepeatableIsUndisturbed(observations: seq<Observation>, attempts: seq<Attempt>)
    requires Ran(observations, attempts) && Repeatable(attempts)
    ensures !Disturbed(observations, attempts)
  {
    hide LogOf, Holds, AllowedLog;
    if Disturbed(observations, attempts) {
      var f: nat, s: nat :| Disturbs(observations, attempts, f, s);
      var u :| u in MadeUpdates(attempts[f]) && Conflicts(u, attempts[s].call.value);
      assert Fits(observations[s], attempts[s]);
      CachesHold(LogOf(attempts));
      StoredRun(attempts, f);
      StoredRun(attempts, s);
      SameRunSameRequest(LogOf(attempts), Folded(EMPTY, LogOf(attempts)), attempts[f].call.value, attempts[s].call.value, u);
      assert false;
    }
  }

  // An attempt that made any update stored its run first.
  lemma StoredRun(attempts: seq<Attempt>, k: nat)
    requires k < |attempts| && attempts[k].call.Some? && attempts[k].made >= 1
    ensures UpdatesOf(attempts[k].call.value)[0] in LogOf(attempts)
  {
    hide LogOf;
    var a := attempts[k];
    assert MadeUpdates(a)[0] == UpdatesOf(a.call.value)[0];
    LogMembers(attempts, UpdatesOf(a.call.value)[0]);
  }

  // A conflict is between two different computations of the same request.
  lemma SameRunSameRequest(log: seq<Update>, c: Caches, a: Call, b: Call, u: Update)
    requires Holds(log, c) && UpdatesOf(a)[0] in log && UpdatesOf(b)[0] in log
    requires u in UpdatesOf(a) && Conflicts(u, b)
    ensures SameRequest(a, b) && a != b
  {
    if u.StoreDiagnosis? {
      assert UpdatesOf(a)[0].run.id == UpdatesOf(b)[0].run.id;
    }
  }
}
