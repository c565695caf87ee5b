/** The retrieval tools' own memory (retrieval_tools.py): what their handlers store, step by step, and
    the analysis response rebuilt from it. */
module StageTools {
  import opened Contracts
  import opened RetrievalSelection
  import opened Trace

  // A run of the baseline pipeline has no candidate variant.
  datatype RunArtifact = RunArtifact(id: Id, variant: Option<Variant>)

  datatype DiagnosisArtifact = DiagnosisArtifact(id: Id, runId: Id)

  /** Pinned baselines, cached artifacts and experiment variants.  A comparison artifact is kept as the
      experiment its figures summarize to. */
  datatype Caches = Caches(
    pins: set<Id>, runs: map<Id, RunArtifact>, diagnoses: map<Id, DiagnosisArtifact>,
    comparisons: map<Id, Experiment>, variants: seq<Variant>)

  const EMPTY := Caches({}, map[], map[], map[], [])

  // The comparison and the variant are recorded together: nothing can fail in between.
  datatype Update =
    | StoreRun(run: RunArtifact)
    | StoreDiagnosis(diagnosis: DiagnosisArtifact)
    | StoreComparison(experiment: Experiment)
    | PinBaseline(runId: Id)

  /** An artifact is written once; the same content again is no collision. */
  predicate Allowed(c: Caches, u: Update) {
    match u
    case StoreRun(r) => r.id in c.runs ==> c.runs[r.id] == r
    case StoreDiagnosis(d) => d.id in c.diagnoses ==> c.diagnoses[d.id] == d
    case StoreComparison(e) => e.comparisonId in c.comparisons ==> c.comparisons[e.comparisonId] == e
    case PinBaseline(_) => true
  }

  function Updated(c: Caches, u: Update): Caches {
    match u
    case StoreRun(r) => c.(runs := c.runs[r.id := r])
    case StoreDiagnosis(d) => c.(diagnoses := c.diagnoses[d.id := d])
    case StoreComparison(e) =>
      c.(comparisons := c.comparisons[e.comparisonId := e],
         variants := if e.variant in c.variants then c.variants else c.variants + [e.variant])
    case PinBaseline(id) => c.(pins := c.pins + {id})
  }

  function Folded(c: Caches, log: seq<Update>): Caches {
    if log == [] then c else Updated(Folded(c, log[..|log| - 1]), log[|log| - 1])
  }

  /** What one call of a handler computes. */
  datatype Call = BaselineCall(baseline: BaselineSummary) | CandidateCall(experiment: Experiment)

  function UpdatesOf(call: Call): (updates: seq<Update>)
    ensures |updates| == 3
  {
    match call
    case BaselineCall(b) =>
      [StoreRun(RunArtifact(b.runId, None)), StoreDiagnosis(DiagnosisArtifact(b.diagnosisId, b.runId)), PinBaseline(b.runId)]
    case CandidateCall(e) =>
      [StoreRun(RunArtifact(e.candidateRunId, Some(e.variant))),
       StoreDiagnosis(DiagnosisArtifact(e.diagnosisId, e.candidateRunId)), StoreComparison(e)]
  }

  /** How many updates are made before a collision or, after `power` of them, another failure. */
  function Made(c: Caches, updates: seq<Update>, power: nat): (n: nat)
    ensures n <= |updates|
    decreases |updates|
  {
    if updates == [] || power == 0 || !Allowed(c, updates[0]) then 0
    else 1 + Made(Updated(c, updates[0]), updates[1..], power - 1)
  }

  predicate Trusted(c: Caches, runId: Id) {
    runId in c.pins && runId in c.runs && c.runs[runId].variant.None?
  }

  /** How many updates a call makes: a candidate none at all without a pinned baseline run. */
  function HandlerMade(c: Caches, call: Call, power: nat): (n: nat)
    ensures n <= 3
  {
    if call.CandidateCall? && !Trusted(c, call.experiment.baselineRunId) then 0 else Made(c, UpdatesOf(call), power)
  }

  /** The caches after a call. */
  function Handled(c: Caches, call: Call, power: nat): Caches {
    Folded(c, UpdatesOf(call)[..HandlerMade(c, call, power)])
  }

  // ----- The response -----

  datatype ResponseError = Incomplete | Inconsistent

  function TheOnly<T(==)>(s: set<T>): Option<T> {
    if exists x :: x in s && s == {x} then (var x :| x in s && s == {x}; Some(x)) else None
  }

  /** The one cached diagnosis of a run. */
  function DiagnosisFor(c: Caches, runId: Id): Option<Id> {
    TheOnly(set id | id in c.diagnoses && c.diagnoses[id].runId == runId)
  }

  function RunFor(c: Caches, v: Variant): Option<Id> {
    TheOnly(set id | id in c.runs && c.runs[id].variant == Some(v))
  }

  function ComparisonFor(c: Caches, runId: Id): Option<Id> {
    TheOnly(set id | id in c.comparisons && c.comparisons[id].candidateRunId == runId)
  }

  /** The one cached run of a variant with its one diagnosis and its one comparison. */
  function CachedExperiment(c: Caches, v: Variant): Option<Experiment> {
    var run := RunFor(c, v);
    if run.None? || DiagnosisFor(c, run.value).None? then None
    else
      var comparison := ComparisonFor(c, run.value);
      if comparison.None? || comparison.value !in c.comparisons then None
      else Some(c.comparisons[comparison.value].(variant := v))
  }

  function CachedExperiments(c: Caches, variants: seq<Variant>): Option<seq<Experiment>> {
    if variants == [] then Some([])
    else
      var front, last := CachedExperiments(c, variants[..|variants| - 1]), CachedExperiment(c, variants[|variants| - 1]);
      if front.None? || last.None? then None else Some(front.value + [last.value])
  }

  function Respond(c: Caches, terminal: TerminalResult): Result<Experiment, ResponseError> {
    var baseline := TheOnly(c.pins);
    if terminal.state != Completed || (terminal.outcome != ProposalReady && terminal.outcome != NoSafeImprovement)
    then Err(Incomplete)
    else if baseline.None? || c.variants == [] then Err(Incomplete)
    else if baseline.value !in c.runs || DiagnosisFor(c, baseline.value).None? then Err(Incomplete)
    else
      var experiments := CachedExperiments(c, c.variants);
      if experiments.None? then Err(Incomplete)
      else
        var selected := ResponseExperiment(terminal.outcome, terminal.reason, terminal.refs, experiments.value);
        if selected.None? then Err(Inconsistent) else Ok(selected.value)
  }

  // ----- The tools as written -----

  lemma {:induction false} FoldedAppend(c: Caches, a: seq<Update>, b: seq<Update>)
    ensures Folded(c, a + b) == Folded(Folded(c, a), b)
    decreases |b|
  {
    hide Updated;
    if b == [] {
      assert a + b == a;
    } else {
      var front := b[..|b| - 1];
      assert (a + b)[..|a + b| - 1] == a + front;
      FoldedAppend(c, a, front);
    }
  }

  lemma MadeFirst(c: Caches, updates: seq<Update>, power: nat)
    requires updates != [] && power > 0 && Allowed(c, updates[0])
    ensures var n := Made(c, updates, power);
            && n == 1 + Made(Updated(c, updates[0]), updates[1..], power - 1)
            && Folded(c, updates[..n]) == Folded(Updated(c, updates[0]), updates[1..][..n - 1])
  {
    hide Updated, Allowed;
    var n := Made(c, updates, power);
    assert updates[..n] == [updates[0]] + updates[1..][..n - 1];
    assert Folded(c, [updates[0]]) == Updated(Folded(c, []), updates[0]);
    FoldedAppend(c, [updates[0]], updates[1..][..n - 1]);
  }

  class StageRetrievalTools {
    var caches: Caches
    var power: nat

    constructor (power: nat)
      ensures caches == EMPTY && this.power == power
    {
      caches, this.power := EMPTY, power;
    }

    /** One artifact or pin, unless its file has other content or the storage fails. */
    method Store(u: Update) returns (ok: bool)
      modifies this
      ensures ok == (old(power) > 0 && Allowed(old(caches), u))
      ensures if ok then caches == Updated(old(caches), u) && power == old(power) - 1
              else caches == old(caches) && power == old(power)
    {
      if power == 0 || !Allowed(caches, u) {
        return false;
      }
      caches, power := Updated(caches, u), power - 1;
      return true;
    }

    /** The stores of a handler, in order; it answers when all of them succeeded. */
    method StoreAll(updates: seq<Update>) returns (ok: bool)
      modifies this
      ensures var n := Made(old(caches), updates, old(power));
              ok == (n == |updates|) && caches == Folded(old(caches), updates[..n])
    {
      hide Updated, Allowed;
      ghost var start, total := caches, Made(caches, updates, power);
      var i := 0;
      while i < |updates|
        invariant i <= |updates| && total == i + Made(caches, updates[i..], power)
        invariant Folded(start, updates[..total]) == Folded(caches, updates[i..][..total - i])
      {
        if power > 0 && Allowed(caches, updates[i]) {
          MadeFirst(caches, updates[i..], power);
        }
        assert updates[i..][1..] == updates[i + 1..];
        ok := Store(updates[i]);
        if !ok {
          return;
        }
        i := i + 1;
      }
      return true;
    }

    method DiagnoseBaselineRetrieval(b: BaselineSummary) returns (ok: bool)
      modifies this
      ensures ok == (HandlerMade(old(caches), BaselineCall(b), old(power)) == 3)
      ensures caches == Handled(old(caches), BaselineCall(b), old(power))
    {
      ok := StoreAll(UpdatesOf(BaselineCall(b)));
    }

    /** A candidate is run only over a pinned run of the baseline pipeline. */
    method RunRetrievalCandidate(e: Experiment) returns (ok: bool)
      modifies this
      ensures ok == (HandlerMade(old(caches), CandidateCall(e), old(power)) == 3)
      ensures caches == Handled(old(caches), CandidateCall(e), old(power))
    {
      if e.baselineRunId !in caches.pins || e.baselineRunId !in caches.runs
         || caches.runs[e.baselineRunId].variant.Some? {
        return false;
      }
      ok := StoreAll(UpdatesOf(CandidateCall(e)));
    }

    method BuildAnalysisResponse(terminal: TerminalResult) returns (r: Result<Experiment, ResponseError>)
      ensures r == Respond(caches, terminal)
    {
      hide ResponseExperiment, CachedExperiment, TheOnly, DiagnosisFor;
      if terminal.state != Completed || (terminal.outcome != ProposalReady && terminal.outcome != NoSafeImprovement) {
        return Err(Incomplete);
      }
      var baseline := TheOnly(caches.pins);
      if baseline.None? || caches.variants == [] {
        return Err(Incomplete);
      }
      if baseline.value !in caches.runs || DiagnosisFor(caches, baseline.value).None? {
        return Err(Incomplete);
      }
      var experiments := [];
      for i := 0 to |caches.variants|
        invariant CachedExperiments(caches, caches.variants[..i]) == Some(experiments)
      {
        assert caches.variants[..i + 1][..i] == caches.variants[..i];
        var experiment := CachedExperiment(caches, caches.variants[i]);
        if experiment.None? {
          CachedFails(caches, caches.variants, i + 1);
          return Err(Incomplete);
        }
        experiments := experiments + [experiment.value];
      }
      assert caches.variants[..|caches.variants|] == caches.variants;
      var selected := ResponseExperiment(terminal.outcome, terminal.reason, terminal.refs, experiments);
      return if selected.None? then Err(Inconsistent) else Ok(selected.value);
    }
  }

  // One missing experiment and the response is incomplete.
  lemma {:induction false} CachedFails(c: Caches, variants: seq<Variant>, k: nat)
    requires k <= |variants| && CachedExperiments(c, variants[..k]).None?
    ensures CachedExperiments(c, variants).None?
    decreases |variants|
  {
    hide CachedExperiment;
    if k < |variants| {
      assert variants[..|variants| - 1][..k] == variants[..k];
      CachedFails(c, variants[..|variants| - 1], k);
    } else {
      assert variants[..k] == variants;
    }
  }
}
