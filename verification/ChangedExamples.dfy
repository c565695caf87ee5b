/** The bounded, direction-preserving selection of changed query examples (retrieval_examples.py). */
module ChangedExamples {
  import opened Contracts
  import opened Sorting

  datatype Direction = Improvement | Regression

  datatype QueryRow = QueryRow(locale: string, queryId: int, delta: real, evidence: string)

  datatype RunRecord = RunRecord(runId: string, variant: string, comparisonId: string, gatePassed: bool, rows: seq<QueryRow>)

  datatype Example = Example(
    runId: string, variant: string, comparisonId: string, gatePassed: bool, selected: bool,
    locale: string, queryId: int, delta: real, direction: Direction, evidence: string)

  datatype Key = Key(locale: string, queryId: int, direction: Direction)

  const CHANGE_EPSILON: real := 0.000000000001

  const EXAMPLE_LIMIT: nat := 10

  function Abs(x: real): real {
    if x < 0.0 then -x else x
  }

  function DirectionOf(delta: real): Option<Direction> {
    if delta > CHANGE_EPSILON then Some(Improvement)
    else if delta < -CHANGE_EPSILON then Some(Regression)
    else None
  }

  function KeyOf(x: Example): Key {
    Key(x.locale, x.queryId, x.direction)
  }

  function ExampleOf(run: RunRecord, chosen: string, row: QueryRow, direction: Direction): Example {
    Example(run.runId, run.variant, run.comparisonId, run.gatePassed, run.runId == chosen, row.locale, row.queryId,
            row.delta, direction, row.evidence)
  }

  /** The changed rows of one run, in order. */
  function ExamplesOf(run: RunRecord, chosen: string, rows: seq<QueryRow>): seq<Example> {
    if rows == [] then []
    else
      var last := rows[|rows| - 1];
      ExamplesOf(run, chosen, rows[..|rows| - 1]) +
      match DirectionOf(last.delta)
      case Some(d) => [ExampleOf(run, chosen, last, d)]
      case None => []
  }

  function AllExamples(runs: seq<RunRecord>, chosen: string): seq<Example> {
    if runs == [] then []
    else
      var last := runs[|runs| - 1];
      AllExamples(runs[..|runs| - 1], chosen) + ExamplesOf(last, chosen, last.rows)
  }

  // ----- One example for each query and direction -----

  /** Selected comparison first, then passed gate, larger change, variant, comparison and run. */
  predicate Prefers(a: Example, b: Example) {
    if a.selected != b.selected then a.selected
    else if a.gatePassed != b.gatePassed then a.gatePassed
    else if Abs(a.delta) != Abs(b.delta) then Abs(a.delta) > Abs(b.delta)
    else if a.variant != b.variant then TextLess(a.variant, b.variant)
    else if a.comparisonId != b.comparisonId then TextLess(a.comparisonId, b.comparisonId)
    else TextLess(a.runId, b.runId)
  }

  function Place(best: seq<Example>, key: Key): (i: nat)
    ensures i <= |best| && (i < |best| ==> KeyOf(best[i]) == key)
    ensures forall j :: 0 <= j < i ==> KeyOf(best[j]) != key
  {
    if best == [] || KeyOf(best[0]) == key then 0 else 1 + Place(best[1..], key)
  }

  /** The dictionary update: a new key is appended, a preferred example replaces the current one. */
  function Put(best: seq<Example>, x: Example): seq<Example> {
    var i := Place(best, KeyOf(x));
    if i == |best| then best + [x]
    else if Prefers(x, best[i]) then best[i := x]
    else best
  }

  function BestOf(examples: seq<Example>): seq<Example> {
    if examples == [] then []
    else Put(BestOf(examples[..|examples| - 1]), examples[|examples| - 1])
  }

  // ----- Display -----

  function DirectionRank(d: Direction): nat {
    if d == Improvement then 0 else 1
  }

  predicate DisplayLess(a: Example, b: Example) {
    if Abs(a.delta) != Abs(b.delta) then Abs(a.delta) > Abs(b.delta)
    else if a.direction != b.direction then DirectionRank(a.direction) < DirectionRank(b.direction)
    else if a.locale != b.locale then TextLess(a.locale, b.locale)
    else if a.queryId != b.queryId then a.queryId < b.queryId
    else TextLess(a.variant, b.variant)
  }

  function Changed(runs: seq<RunRecord>, chosen: string): seq<Example> {
    SortBy(DisplayLess, BestOf(AllExamples(runs, chosen)))
  }

  function Directions(examples: seq<Example>): set<Direction> {
    set x | x in examples :: x.direction
  }

  function First(examples: seq<Example>, d: Direction): Example
    requires d in Directions(examples)
  {
    if examples[0].direction == d then examples[0] else
      assert examples == [examples[0]] + examples[1..];
      First(examples[1..], d)
  }

  function SafeLimit(limit: int): nat {
    if limit < 0 then 0 else if limit < EXAMPLE_LIMIT then limit else EXAMPLE_LIMIT
  }

  predicate Missing(changed: seq<Example>, kept: seq<Example>, d: Direction) {
    d in Directions(changed) && d !in Directions(kept)
  }

  /** The top of the list, whose last place goes to a direction that would otherwise be lost. */
  function Kept(changed: seq<Example>, n: nat): seq<Example> {
    var top := if |changed| < n then changed else changed[..n];
    if n < 2 || top == [] then top
    else if Missing(changed, top, Improvement) then top[|top| - 1 := First(changed, Improvement)]
    else if Missing(changed, top, Regression) then top[|top| - 1 := First(changed, Regression)]
    else top
  }

  function SelectExamples(runs: seq<RunRecord>, chosen: string, limit: int): seq<Example> {
    SortBy(DisplayLess, Kept(Changed(runs, chosen), SafeLimit(limit)))
  }

  // ----- The selector as written -----

  // The effect of one more row, and of one more run.
  lemma RowStep(before: seq<Example>, run: RunRecord, chosen: string, j: nat)
    requires j < |run.rows|
    ensures var row := run.rows[j];
            var best, direction := BestOf(before + ExamplesOf(run, chosen, run.rows[..j])), DirectionOf(row.delta);
            BestOf(before + ExamplesOf(run, chosen, run.rows[..j + 1])) ==
            if direction.Some? then Put(best, ExampleOf(run, chosen, row, direction.value)) else best
  {
    hide Put, DirectionOf, ExampleOf;
    var row, sofar := run.rows[j], before + ExamplesOf(run, chosen, run.rows[..j]);
    assert run.rows[..j + 1][..j] == run.rows[..j];
    if DirectionOf(row.delta).Some? {
      var x := ExampleOf(run, chosen, row, DirectionOf(row.delta).value);
      assert before + ExamplesOf(run, chosen, run.rows[..j + 1]) == sofar + [x];
      assert (sofar + [x])[..|sofar|] == sofar;
    } else {
      assert before + ExamplesOf(run, chosen, run.rows[..j + 1]) == sofar;
    }
  }

  lemma RunStep(runs: seq<RunRecord>, chosen: string, i: nat)
    requires i < |runs|
    ensures AllExamples(runs[..i + 1], chosen) == AllExamples(runs[..i], chosen) + ExamplesOf(runs[i], chosen, runs[i].rows)
    ensures AllExamples(runs[..i], chosen) + ExamplesOf(runs[i], chosen, runs[i].rows[..0]) == AllExamples(runs[..i], chosen)
  {
    assert runs[..i + 1][..i] == runs[..i];
  }

  method CollectBest(runs: seq<RunRecord>, chosen: string) returns (best: seq<Example>)
    ensures best == BestOf(AllExamples(runs, chosen))
  {
    hide BestOf, AllExamples, ExamplesOf, Put, DirectionOf, ExampleOf;
    best := [];
    EmptyBest(chosen);
    assert runs[..0] == [];
    for i := 0 to |runs|
      invariant best == BestOf(AllExamples(runs[..i], chosen))
    {
      var run := runs[i];
      RunStep(runs, chosen, i);
      ghost var before := AllExamples(runs[..i], chosen);
      for j := 0 to |run.rows|
        invariant best == BestOf(before + ExamplesOf(run, chosen, run.rows[..j]))
      {
        RowStep(before, run, chosen, j);
        var direction := DirectionOf(run.rows[j].delta);
        if direction.Some? {
          best := Put(best, ExampleOf(run, chosen, run.rows[j], direction.value));
        }
      }
      assert run.rows[..|run.rows|] == run.rows;
    }
    assert runs[..|runs|] == runs;
  }

  lemma EmptyBest(chosen: string)
    ensures BestOf(AllExamples([], chosen)) == []
  {
  }

  method SelectChangedExamples(runs: seq<RunRecord>, chosen: string, limit: int) returns (r: seq<Example>)
    ensures r == SelectExamples(runs, chosen, limit)
  {
    hide First, Directions, SortBy, BestOf, AllExamples;
    var n := SafeLimit(limit);
    if n == 0 {
      NothingKept(Changed(runs, chosen));
      return [];
    }
    var best := CollectBest(runs, chosen);
    var changed := SortBy(DisplayLess, best);
    var kept := if |changed| < n then changed else changed[..n];
    if n >= 2 && kept != [] {
      var available, present := Directions(changed), Directions(kept);
      OneDirection(kept);
      if Improvement in available && Improvement !in present {
        kept := kept[|kept| - 1 := First(changed, Improvement)];
        present := present + {Improvement};
      }
      if Regression in available && Regression !in present {
        kept := kept[|kept| - 1 := First(changed, Regression)];
        present := present + {Regression};
      }
    }
    assert kept == Kept(changed, n);
    return SortBy(DisplayLess, kept);
  }

  lemma NothingKept(changed: seq<Example>)
    ensures SortBy(DisplayLess, Kept(changed, 0)) == []
  {
  }

  // With one direction missing the other is there, so at most one place is given away.
  lemma OneDirection(examples: seq<Example>)
    requires examples != []
    ensures Improvement in Directions(examples) || Regression in Directions(examples)
  {
    var d := examples[0].direction;
    assert examples[0] in examples && d in Directions(examples);
    assert d.Improvement? || d.Regression?;
  }

  // ----- The two orders -----

  lemma PrefersTransitive(a: Example, b: Example, c: Example)
    requires Prefers(a, b) && Prefers(b, c)
    ensures Prefers(a, c)
  {
    hide TextLess;
    if TextLess(a.variant, b.variant) && TextLess(b.variant, c.variant) { TextTransitive(a.variant, b.variant, c.variant); }
    if TextLess(a.comparisonId, b.comparisonId) && TextLess(b.comparisonId, c.comparisonId) {
      TextTransitive(a.comparisonId, b.comparisonId, c.comparisonId);
    }
    if TextLess(a.runId, b.runId) && TextLess(b.runId, c.runId) { TextTransitive(a.runId, b.runId, c.runId); }
    TextOrdered(a.variant, c.variant);
    TextOrdered(a.comparisonId, c.comparisonId);
    TextOrdered(a.variant, b.variant);
    TextOrdered(a.comparisonId, b.comparisonId);
  }

  /** Examples of different runs are never tied. */
  lemma PrefersDecides(a: Example, b: Example)
    ensures Prefers(a, b) ==> !Prefers(b, a)
    ensures a.runId != b.runId ==> Prefers(a, b) || Prefers(b, a)
  {
    hide TextLess;
    TextOrdered(a.variant, b.variant);
    TextOrdered(a.comparisonId, b.comparisonId);
    TextOrdered(a.runId, b.runId);
  }

  // Ties are all alike, so "not preferred" is transitive as well.
  lemma NotPreferred(a: Example, b: Example, c: Example)
    requires !Prefers(b, a) && !Prefers(c, b)
    ensures !Prefers(c, a)
  {
    hide TextLess;
    TextOrdered(a.variant, b.variant);
    TextOrdered(b.variant, c.variant);
    TextOrdered(a.variant, c.variant);
    TextOrdered(a.comparisonId, b.comparisonId);
    TextOrdered(b.comparisonId, c.comparisonId);
    TextOrdered(a.comparisonId, c.comparisonId);
    TextOrdered(a.runId, b.runId);
    TextOrdered(b.runId, c.runId);
    TextOrdered(a.runId, c.runId);
    if TextLess(a.variant, b.variant) && TextLess(b.variant, c.variant) { TextTransitive(a.variant, b.variant, c.variant); }
    if TextLess(a.comparisonId, b.comparisonId) && TextLess(b.comparisonId, c.comparisonId) {
      TextTransitive(a.comparisonId, b.comparisonId, c.comparisonId);
    }
    if TextLess(a.runId, b.runId) && TextLess(b.runId, c.runId) { TextTransitive(a.runId, b.runId, c.runId); }
  }

  lemma DisplayOrder()
    ensures StrictOrder(DisplayLess)
  {
    hide TextLess;
    forall a, b | DisplayLess(a, b) ensures !DisplayLess(b, a) {
      TextOrdered(a.locale, b.locale);
      TextOrdered(a.variant, b.variant);
    }
    forall a, b, c | DisplayLess(a, b) && DisplayLess(b, c) ensures DisplayLess(a, c) {
      DisplayTransitive(a, b, c);
    }
  }

  lemma DisplayTransitive(a: Example, b: Example, c: Example)
    requires DisplayLess(a, b) && DisplayLess(b, c)
    ensures DisplayLess(a, c)
  {
    hide TextLess;
    TextOrdered(a.locale, b.locale);
    TextOrdered(a.locale, c.locale);
    if TextLess(a.locale, b.locale) && TextLess(b.locale, c.locale) { TextTransitive(a.locale, b.locale, c.locale); }
    if TextLess(a.variant, b.variant) && TextLess(b.variant, c.variant) { TextTransitive(a.variant, b.variant, c.variant); }
  }

  lemma DisplayDecides(a: Example, b: Example)
    requires KeyOf(a) != KeyOf(b)
    ensures DisplayLess(a, b) || DisplayLess(b, a)
  {
    hide TextLess;
    TextOrdered(a.locale, b.locale);
  }

  // ----- The champion of a key -----

  function Combine(a: Option<Example>, b: Option<Example>): Option<Example> {
    if a.None? then b else if b.None? || !Prefers(b.value, a.value) then a else b
  }

  /** The first example of a key that no later one is preferred to. */
  function Champion(examples: seq<Example>, key: Key): Option<Example> {
    if examples == [] then None
    else
      var last := examples[|examples| - 1];
      Combine(Champion(examples[..|examples| - 1], key), if KeyOf(last) == key then Some(last) else None)
  }

  predicate DistinctKeys(best: seq<Example>) {
    forall i, j :: 0 <= i < j < |best| ==> KeyOf(best[i]) != KeyOf(best[j])
  }

  ghost predicate Champions(best: seq<Example>, examples: seq<Example>) {
    DistinctKeys(best) && forall x :: x in best <==> Champion(examples, KeyOf(x)) == Some(x)
  }

  lemma {:induction false} ChampionKey(examples: seq<Example>, key: Key)
    ensures Champion(examples, key).Some? ==> KeyOf(Champion(examples, key).value) == key
  {
    hide Prefers, KeyOf;
    if examples != [] {
      ChampionKey(examples[..|examples| - 1], key);
    }
  }

  /** The dictionary holds exactly the champion of every key that occurs. */
  lemma {:induction false} BestAreChampions(examples: seq<Example>)
    ensures Champions(BestOf(examples), examples)
  {
    hide Put, Champion, KeyOf;
    if examples == [] {
      NoChampions();
    } else {
      var front, last := examples[..|examples| - 1], examples[|examples| - 1];
      BestAreChampions(front);
      ChampionKey(front, KeyOf(last));
      PutKeeps(BestOf(front), front, last);
      assert front + [last] == examples;
    }
  }

  lemma NoChampions()
    ensures forall key :: Champion([], key).None?
  {
  }

  lemma ChampionAppend(front: seq<Example>, last: Example, key: Key)
    ensures Champion(front + [last], key) == Combine(Champion(front, key), if KeyOf(last) == key then Some(last) else None)
  {
  }

  lemma PutKeeps(best: seq<Example>, front: seq<Example>, last: Example)
    requires Champions(best, front)
    ensures Champions(Put(best, last), front + [last])
  {
    hide Champion, Prefers, KeyOf;
    var key := KeyOf(last);
    var i := Place(best, key);
    var after := Put(best, last);
    ChampionKey(front, key);
    if Champion(front, key).Some? {
      assert Champion(front, key).value in best;
    }
    if i < |best| {
      assert best[i] in best;
    }
    forall x
      ensures x in after <==> Champion(front + [last], KeyOf(x)) == Some(x)
    {
      ChampionAppend(front, last, KeyOf(x));
      PutMembers(best, last, x);
    }
  }

  lemma PutMembers(best: seq<Example>, last: Example, x: Example)
    requires DistinctKeys(best)
    ensures var i := Place(best, KeyOf(last));
            x in Put(best, last) <==>
              if i == |best| then x in best || x == last
              else if Prefers(last, best[i]) then (x in best && x != best[i]) || x == last
              else x in best
  {
    hide Prefers, KeyOf;
    var i := Place(best, KeyOf(last));
    if i < |best| && Prefers(last, best[i]) {
      var after := best[i := last];
      assert forall j :: 0 <= j < |best| && j != i ==> after[j] == best[j] && best[j] != best[i];
      if x in best && x != best[i] {
        var j :| 0 <= j < |best| && best[j] == x;
        assert after[j] == x;
      }
      assert after[i] == last;
    }
  }

  // ----- The champion does not depend on the order of the runs -----

  lemma {:induction false} ChampionSplit(a: seq<Example>, b: seq<Example>, key: Key)
    ensures Champion(a + b, key) == Combine(Champion(a, key), Champion(b, key))
  {
    hide Prefers, KeyOf, Combine;
    if b == [] {
      assert a + b == a;
      CombineNothing(Champion(a, key));
    } else {
      var front, last := b[..|b| - 1], b[|b| - 1];
      ChampionSplit(a, front, key);
      assert a + b == (a + front) + [last] && front + [last] == b;
      ChampionAppend(a + front, last, key);
      ChampionAppend(front, last, key);
      CombineAssociates(Champion(a, key), Champion(front, key), if KeyOf(last) == key then Some(last) else None);
    }
  }

  lemma CombineNothing(a: Option<Example>)
    ensures Combine(a, None) == a == Combine(None, a)
  {
  }

  lemma CombineAssociates(a: Option<Example>, b: Option<Example>, c: Option<Example>)
    ensures Combine(Combine(a, b), c) == Combine(a, Combine(b, c))
  {
    hide Prefers;
    if a.Some? && b.Some? && c.Some? {
      if Prefers(c.value, b.value) && Prefers(b.value, a.value) {
        PrefersTransitive(c.value, b.value, a.value);
      }
      if !Prefers(c.value, b.value) && !Prefers(b.value, a.value) {
        NotPreferred(a.value, b.value, c.value);
      }
    }
  }

  // The champion of one run for a key.
  function RunChampion(run: RunRecord, chosen: string, key: Key): Option<Example> {
    Champion(ExamplesOf(run, chosen, run.rows), key)
  }

  /** Some run offers x, and no run offers anything preferred to it. */
  ghost predicate Unbeaten(runs: seq<RunRecord>, chosen: string, key: Key, x: Example) {
    && (exists run :: run in runs && RunChampion(run, chosen, key) == Some(x))
    && (forall run :: run in runs && RunChampion(run, chosen, key).Some? ==> !Prefers(RunChampion(run, chosen, key).value, x))
  }

  lemma {:induction false} ChampionUnbeaten(runs: seq<RunRecord>, chosen: string, key: Key)
    ensures var c := Champion(AllExamples(runs, chosen), key);
            && (c.Some? ==> Unbeaten(runs, chosen, key, c.value))
            && (c.None? ==> forall run :: run in runs ==> RunChampion(run, chosen, key).None?)
  {
    hide Champion, ExamplesOf, Prefers;
    if runs == [] {
      NoChampions();
    } else {
      var front, last := runs[..|runs| - 1], runs[|runs| - 1];
      ChampionUnbeaten(front, chosen, key);
      ChampionSplit(AllExamples(front, chosen), ExamplesOf(last, chosen, last.rows), key);
      assert forall run :: run in runs <==> run in front || run == last;
      var before, mine := Champion(AllExamples(front, chosen), key), RunChampion(last, chosen, key);
      assert Champion(AllExamples(runs, chosen), key) == Combine(before, mine);
      if mine.Some? {
        PrefersDecides(mine.value, mine.value);
      }
      if before.Some? && mine.Some? {
        PrefersDecides(before.value, mine.value);
        forall run | run in front && RunChampion(run, chosen, key).Some? && Prefers(mine.value, before.value)
          ensures !Prefers(RunChampion(run, chosen, key).value, mine.value)
        {
          NotPreferred(mine.value, before.value, RunChampion(run, chosen, key).value);
        }
      }
    }
  }

  predicate DistinctRuns(runs: seq<RunRecord>) {
    forall i, j :: 0 <= i < j < |runs| ==> runs[i].runId != runs[j].runId
  }

  lemma {:induction false} ExamplesNameRun(run: RunRecord, chosen: string, rows: seq<QueryRow>)
    ensures forall x :: x in ExamplesOf(run, chosen, rows) ==> x.runId == run.runId
  {
    if rows != [] {
      ExamplesNameRun(run, chosen, rows[..|rows| - 1]);
    }
  }

  lemma {:induction false} ChampionMember(examples: seq<Example>, key: Key)
    ensures Champion(examples, key).Some? ==> Champion(examples, key).value in examples
  {
    hide Prefers, KeyOf;
    if examples != [] {
      ChampionMember(examples[..|examples| - 1], key);
    }
  }

  /** With distinct run ids an unbeaten example is unique. */
  lemma UnbeatenUnique(runs: seq<RunRecord>, chosen: string, key: Key, x: Example, y: Example)
    requires DistinctRuns(runs) && Unbeaten(runs, chosen, key, x) && Unbeaten(runs, chosen, key, y)
    ensures x == y
  {
    hide Champion, ExamplesOf, Prefers;
    var r: RunRecord :| r in runs && RunChampion(r, chosen, key) == Some(x);
    var q: RunRecord :| q in runs && RunChampion(q, chosen, key) == Some(y);
    ExamplesNameRun(r, chosen, r.rows);
    ExamplesNameRun(q, chosen, q.rows);
    ChampionMember(ExamplesOf(r, chosen, r.rows), key);
    ChampionMember(ExamplesOf(q, chosen, q.rows), key);
    PrefersDecides(x, y);
    assert !Prefers(x, y) && !Prefers(y, x);
  }

  lemma SameChampions(a: seq<RunRecord>, b: seq<RunRecord>, chosen: string, key: Key)
    requires DistinctRuns(a) && multiset(a) == multiset(b)
    ensures Champion(AllExamples(a, chosen), key) == Champion(AllExamples(b, chosen), key)
  {
    hide Champion, RunChampion, AllExamples, DistinctRuns, Prefers;
    forall run ensures run in a <==> run in b {
      assert run in a <==> run in multiset(a);
      assert run in b <==> run in multiset(b);
    }
    ChampionUnbeaten(a, chosen, key);
    ChampionUnbeaten(b, chosen, key);
    var c, d := Champion(AllExamples(a, chosen), key), Champion(AllExamples(b, chosen), key);
    if d.Some? {
      assert Unbeaten(a, chosen, key, d.value);
      if c.Some? {
        UnbeatenUnique(a, chosen, key, c.value, d.value);
      }
    }
  }

  // ----- The selection is canonical -----

  lemma {:induction false} DistinctCounts(s: seq<Example>, x: Example)
    requires DistinctKeys(s)
    ensures multiset(s)[x] == if x in s then 1 else 0
  {
    hide KeyOf;
    if s != [] {
      var rest := s[1..];
      assert s == [s[0]] + rest;
      assert forall i :: 0 <= i < |rest| ==> rest[i] == s[i + 1];
      DistinctCounts(rest, x);
    }
  }

  lemma BestComparable(best: seq<Example>)
    requires DistinctKeys(best)
    ensures Comparable(DisplayLess, best)
  {
    hide DisplayLess, KeyOf;
    forall i, j | 0 <= i < j < |best|
      ensures DisplayLess(best[i], best[j]) || DisplayLess(best[j], best[i])
    {
      DisplayDecides(best[i], best[j]);
    }
    ComparableIfDistinct(DisplayLess, best);
  }

  /** The shown examples depend on the set of runs and not on their order. */
  lemma SelectionCanonical(a: seq<RunRecord>, b: seq<RunRecord>, chosen: string, limit: int)
    requires DistinctRuns(a) && multiset(a) == multiset(b)
    ensures SelectExamples(a, chosen, limit) == SelectExamples(b, chosen, limit)
  {
    hide DisplayLess, KeyOf, Champion, BestOf, AllExamples, DistinctKeys, DistinctRuns, StrictOrder, Comparable, Kept;
    var x, y := BestOf(AllExamples(a, chosen)), BestOf(AllExamples(b, chosen));
    BestAreChampions(AllExamples(a, chosen));
    BestAreChampions(AllExamples(b, chosen));
    forall e ensures multiset(x)[e] == multiset(y)[e] {
      SameChampions(a, b, chosen, KeyOf(e));
      DistinctCounts(x, e);
      DistinctCounts(y, e);
    }
    assert multiset(x) == multiset(y);
    BestComparable(x);
    BestComparable(y);
    DisplayOrder();
    SortIsCanonical(DisplayLess, x, y);
  }

  // ----- What a selection shows -----

  lemma ChangedDistinct(runs: seq<RunRecord>, chosen: string)
    ensures var changed := Changed(runs, chosen);
            && Ascending(DisplayLess, changed) && DistinctKeys(changed)
            && forall x :: x in changed <==> Champion(AllExamples(runs, chosen), KeyOf(x)) == Some(x)
  {
    hide DisplayLess, KeyOf, Champion, BestOf, AllExamples, StrictOrder, Comparable, Ascending;
    var best := BestOf(AllExamples(runs, chosen));
    BestAreChampions(AllExamples(runs, chosen));
    BestComparable(best);
    DisplayOrder();
    SortAscends(DisplayLess, best);
    SortKeeps(DisplayLess, best);
    KeysStayDistinct(best, SortBy(DisplayLess, best));
  }

  lemma KeysStayDistinct(a: seq<Example>, b: seq<Example>)
    requires DistinctKeys(a) && multiset(a) == multiset(b)
    ensures DistinctKeys(b)
  {
    hide KeyOf;
    forall i, j | 0 <= i < j < |b|
      ensures KeyOf(b[i]) != KeyOf(b[j])
    {
      assert b[i] in multiset(a) && b[j] in multiset(a);
      DistinctCounts(a, b[i]);
      if b[i] == b[j] {
        TwicePresent(b, i, j);
      }
      assert b[i] in a && b[j] in a;
    }
  }

  lemma TwicePresent(s: seq<Example>, i: nat, j: nat)
    requires i < j < |s| && s[i] == s[j]
    ensures multiset(s)[s[i]] >= 2
  {
    assert s == s[..i] + [s[i]] + s[i + 1..];
    assert s[j] == s[i + 1..][j - i - 1];
    assert s[j] in multiset(s[i + 1..]);
    assert multiset(s) == multiset(s[..i]) + multiset{s[i]} + multiset(s[i + 1..]);
  }

  lemma {:induction false} FirstIs(examples: seq<Example>, d: Direction)
    requires d in Directions(examples)
    ensures First(examples, d) in examples && First(examples, d).direction == d
  {
    if examples[0].direction != d {
      assert examples == [examples[0]] + examples[1..];
      FirstIs(examples[1..], d);
    }
  }

  /** What is kept: as many as the limit allows, the top but one always, and no direction lost. */
  ghost predicate Fair(changed: seq<Example>, n: nat, kept: seq<Example>) {
    var m := if |changed| < n then |changed| else n;
    && |kept| == m && DistinctKeys(kept) && (forall x :: x in kept ==> x in changed)
    && (m > 0 ==> kept[..m - 1] == changed[..m - 1])
    && (n >= 2 ==> Directions(kept) == Directions(changed))
  }

  // Replacing the last of the top n by a later example.
  lemma ReplaceLast(changed: seq<Example>, n: nat, j: nat)
    requires DistinctKeys(changed) && 1 <= n <= j < |changed|
    ensures var kept := changed[..n][n - 1 := changed[j]];
            && DistinctKeys(kept) && (forall x :: x in kept ==> x in changed)
            && kept[..n - 1] == changed[..n - 1] && kept[n - 1] == changed[j]
  {
  }

  // Two different directions are all there are.
  lemma BothDirections(s: seq<Example>, x: Example, y: Example)
    requires x in s && y in s && x.direction != y.direction
    ensures Directions(s) == {Improvement, Regression}
  {
    assert x.direction in Directions(s) && y.direction in Directions(s);
    forall d: Direction ensures d in Directions(s) && d in {Improvement, Regression} {
      assert d == x.direction || d == y.direction;
    }
  }

  lemma ReplacedIsFair(changed: seq<Example>, n: nat, d: Direction)
    requires DistinctKeys(changed) && 2 <= n
    requires var top := if |changed| < n then changed else changed[..n]; top != [] && Missing(changed, top, d)
    ensures var top := if |changed| < n then changed else changed[..n];
            Fair(changed, n, top[|top| - 1 := First(changed, d)])
  {
    hide DistinctKeys, First, Directions;
    var top := if |changed| < n then changed else changed[..n];
    var x := First(changed, d);
    FirstIs(changed, d);
    var j :| 0 <= j < |changed| && changed[j] == x;
    if j < |top| {
      assert top[j] == x;
      DirectionIn(top, x);
    }
    ReplaceLast(changed, n, j);
    var kept := top[n - 1 := x];
    assert kept[0] == top[0] && top[0] in top && kept[0] in kept && kept[n - 1] in kept;
    DirectionIn(top, top[0]);
    BothDirections(kept, top[0], x);
    BothDirections(changed, top[0], x);
  }

  lemma DirectionIn(s: seq<Example>, x: Example)
    requires x in s
    ensures x.direction in Directions(s)
  {
  }

  lemma TopIsFair(changed: seq<Example>, n: nat)
    requires DistinctKeys(changed)
    ensures Fair(changed, n, Kept(changed, n))
  {
    hide KeyOf, First;
    var top := if |changed| < n then changed else changed[..n];
    if n >= 2 && top != [] && Missing(changed, top, Improvement) {
      ReplacedIsFair(changed, n, Improvement);
    } else if n >= 2 && top != [] && Missing(changed, top, Regression) {
      ReplacedIsFair(changed, n, Regression);
    } else {
      forall d | n >= 2 && d in Directions(changed) ensures d in Directions(top) {
        assert d == Improvement || d == Regression;
      }
    }
  }

  /** The shown examples are in display order, one for each query and direction, as many as the limit
      (at most ten) and the changes allow; all but the last of them are the top of the full list; and
      with room for two, both directions appear whenever both occurred. */
  lemma SelectionIsFair(runs: seq<RunRecord>, chosen: string, limit: int) returns (kept: seq<Example>)
    ensures var shown := SelectExamples(runs, chosen, limit);
            && Fair(Changed(runs, chosen), SafeLimit(limit), kept)
            && multiset(shown) == multiset(kept) && |shown| == |kept|
            && Ascending(DisplayLess, shown) && DistinctKeys(shown)
            && Directions(shown) == Directions(kept)
  {
    hide DisplayLess, KeyOf, Champion, Changed, StrictOrder, Comparable, Ascending, Kept, Fair;
    var changed := Changed(runs, chosen);
    kept := Kept(changed, SafeLimit(limit));
    ChangedDistinct(runs, chosen);
    TopIsFair(changed, SafeLimit(limit));
    FairDistinct(changed, SafeLimit(limit), kept);
    BestComparable(kept);
    DisplayOrder();
    SortAscends(DisplayLess, kept);
    SortKeeps(DisplayLess, kept);
    KeysStayDistinct(kept, SortBy(DisplayLess, kept));
  }

  lemma FairDistinct(changed: seq<Example>, n: nat, kept: seq<Example>)
    requires Fair(changed, n, kept)
    ensures DistinctKeys(kept)
  {
  }
}
