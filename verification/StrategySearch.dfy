/** Candidate selection, the hard gates and the choice of a winner (strategy_search.py). */
module StrategySearch {
  import opened Contracts
  import opened Sorting

  datatype Cause = NumericToken | CoverageGap | ExactPhraseDisplaced | MissingTitleSignal

  datatype CandidateId = ConservativeBoost | NumericBoost | CoverageBoost | PhraseBoost

  datatype Diagnosis = Diagnosis(id: Id, queryId: Id, causes: seq<Cause>)

  datatype Candidate = Candidate(
    id: CandidateId, trigger: Cause, diagnosisIds: set<Id>, queryIds: set<Id>, supportCount: nat)

  datatype CandidateSelection = CandidateSelection(selectionId: Id, diagnosisCount: nat, candidates: seq<Candidate>)

  datatype SearchError = InvalidMaximum | DuplicateDiagnoses | DuplicateCandidates | SeveralBaselines

  const LIBRARY: seq<Cause> := [NumericToken, CoverageGap, ExactPhraseDisplaced]

  // The library has no candidate for a missing title signal.
  function LibraryCandidate(c: Cause): CandidateId
    requires c in LIBRARY
  {
    match c
    case NumericToken => NumericBoost
    case CoverageGap => CoverageBoost
    case _ => PhraseBoost
  }

  function CauseRank(c: Cause): nat {
    match c
    case NumericToken => 0
    case CoverageGap => 1
    case ExactPhraseDisplaced => 2
    case MissingTitleSignal => 3
  }

  // ----- Support -----

  function Supporters(diagnoses: seq<Diagnosis>, c: Cause): set<Diagnosis> {
    set d | d in diagnoses && c in d.causes
  }

  function Addressable(diagnoses: seq<Diagnosis>): set<Diagnosis> {
    set d | d in diagnoses && exists c :: c in LIBRARY && c in d.causes
  }

  function QueriesOf(supporters: set<Diagnosis>): set<Id> {
    set d | d in supporters :: d.queryId
  }

  function DiagnosesOf(supporters: set<Diagnosis>): set<Id> {
    set d | d in supporters :: d.id
  }

  function CauseCount(diagnoses: seq<Diagnosis>, c: Cause): nat {
    |QueriesOf(Supporters(diagnoses, c))|
  }

  predicate CauseLess(diagnoses: seq<Diagnosis>, a: Cause, b: Cause) {
    || CauseCount(diagnoses, a) > CauseCount(diagnoses, b)
    || (CauseCount(diagnoses, a) == CauseCount(diagnoses, b) && CauseRank(a) < CauseRank(b))
  }

  function MostSupported(diagnoses: seq<Diagnosis>): (Cause, Cause) -> bool {
    (a, b) => CauseLess(diagnoses, a, b)
  }

  function SupportedCauses(diagnoses: seq<Diagnosis>, causes: seq<Cause>): seq<Cause> {
    if causes == [] then []
    else (if Supporters(diagnoses, causes[0]) != {} then [causes[0]] else []) + SupportedCauses(diagnoses, causes[1..])
  }

  function OrderedCauses(diagnoses: seq<Diagnosis>): seq<Cause> {
    SortBy(MostSupported(diagnoses), SupportedCauses(diagnoses, LIBRARY))
  }

  function CandidateFor(id: CandidateId, trigger: Cause, supporters: set<Diagnosis>): Candidate {
    Candidate(id, trigger, DiagnosesOf(supporters), QueriesOf(supporters), |QueriesOf(supporters)|)
  }

  function LibraryCandidates(diagnoses: seq<Diagnosis>, causes: seq<Cause>): seq<Candidate>
    requires forall c :: c in causes ==> c in LIBRARY
  {
    if causes == [] then []
    else
      [CandidateFor(LibraryCandidate(causes[0]), causes[0], Supporters(diagnoses, causes[0]))] +
      LibraryCandidates(diagnoses, causes[1..])
  }

  function IdsOf(diagnoses: seq<Diagnosis>): set<Id> {
    set d | d in diagnoses :: d.id
  }

  function Candidates(diagnoses: seq<Diagnosis>, max: nat): seq<Candidate>
    requires max >= 1
  {
    var ordered := OrderedCauses(diagnoses);
    OrderedInLibrary(diagnoses);
    AddressableIsOrdered(diagnoses);
    var selected := if |ordered| < max - 1 then ordered else ordered[..max - 1];
    (if Addressable(diagnoses) == {} then []
     else [CandidateFor(ConservativeBoost, ordered[0], Addressable(diagnoses))]) +
    LibraryCandidates(diagnoses, selected)
  }

  /** The selection; its id is derived from the diagnosis ids, the candidate ids and the maximum. */
  function SelectCandidates(
    selectionId: (set<Id>, seq<Candidate>, int) -> Id, diagnoses: seq<Diagnosis>, max: int)
    : Result<CandidateSelection, SearchError>
  {
    if !(1 <= max <= 4) then Err(InvalidMaximum)
    else if |diagnoses| != |IdsOf(diagnoses)| then Err(DuplicateDiagnoses)
    else
      var candidates := Candidates(diagnoses, max);
      Ok(CandidateSelection(selectionId(IdsOf(diagnoses), candidates, max), |diagnoses|, candidates))
  }

  lemma {:induction false} SupportedMembers(diagnoses: seq<Diagnosis>, causes: seq<Cause>)
    ensures forall c :: c in SupportedCauses(diagnoses, causes) <==> c in causes && Supporters(diagnoses, c) != {}
  {
    if causes != [] {
      SupportedMembers(diagnoses, causes[1..]);
    }
  }

  lemma OrderedInLibrary(diagnoses: seq<Diagnosis>)
    ensures forall c :: c in OrderedCauses(diagnoses) <==> c in LIBRARY && Supporters(diagnoses, c) != {}
    ensures |OrderedCauses(diagnoses)| == |SupportedCauses(diagnoses, LIBRARY)|
  {
    hide CauseLess, Supporters;
    SupportedMembers(diagnoses, LIBRARY);
    SortKeeps(MostSupported(diagnoses), SupportedCauses(diagnoses, LIBRARY));
  }

  // Something is addressable exactly when some library cause is supported.
  lemma AddressableIsOrdered(diagnoses: seq<Diagnosis>)
    ensures Addressable(diagnoses) == {} <==> OrderedCauses(diagnoses) == []
  {
    hide OrderedCauses;
    OrderedInLibrary(diagnoses);
    if Addressable(diagnoses) != {} {
      var d :| d in Addressable(diagnoses);
      var c :| c in LIBRARY && c in d.causes;
      assert d in Supporters(diagnoses, c);
      assert c in OrderedCauses(diagnoses);
    }
    if OrderedCauses(diagnoses) != [] {
      var c := OrderedCauses(diagnoses)[0];
      assert c in OrderedCauses(diagnoses) && Supporters(diagnoses, c) != {};
      var d :| d in Supporters(diagnoses, c);
      assert d in Addressable(diagnoses);
    }
  }

  /** The support lists as the loop fills them; each cause collects the diagnoses that found it. */
  method CollectSupport(diagnoses: seq<Diagnosis>) returns (support: map<Cause, seq<Diagnosis>>)
    ensures forall c :: c in support && (set d | d in support[c]) == Supporters(diagnoses, c)
  {
    support := map[NumericToken := [], CoverageGap := [], ExactPhraseDisplaced := [], MissingTitleSignal := []];
    forall c: Cause
      ensures c in support && support[c] == []
    {
      match c
      case NumericToken =>
      case CoverageGap =>
      case ExactPhraseDisplaced =>
      case MissingTitleSignal =>
    }
    for i := 0 to |diagnoses|
      invariant forall c :: c in support && forall d :: d in support[c] <==> d in diagnoses[..i] && c in d.causes
    {
      var diagnosis := diagnoses[i];
      ghost var before := support;
      for j := 0 to |diagnosis.causes|
        invariant forall c :: c in support && forall d ::
                    d in support[c] <==> d in before[c] || (d == diagnosis && c in diagnosis.causes[..j])
      {
        var cause := diagnosis.causes[j];
        assert diagnosis.causes[..j + 1] == diagnosis.causes[..j] + [cause];
        support := support[cause := support[cause] + [diagnosis]];
      }
      assert diagnosis.causes[..|diagnosis.causes|] == diagnosis.causes;
      assert diagnoses[..i + 1] == diagnoses[..i] + [diagnosis];
    }
    assert diagnoses[..|diagnoses|] == diagnoses;
  }

  // ----- The selection is canonical -----

  lemma SameSupporters(a: seq<Diagnosis>, b: seq<Diagnosis>)
    requires multiset(a) == multiset(b)
    ensures forall d :: d in a <==> d in b
    ensures forall c :: Supporters(a, c) == Supporters(b, c)
    ensures Addressable(a) == Addressable(b)
  {
    forall d ensures d in a <==> d in b {
      assert d in a <==> d in multiset(a);
      assert d in b <==> d in multiset(b);
    }
    forall c ensures Supporters(a, c) == Supporters(b, c) {
      assert forall d :: d in Supporters(a, c) <==> d in Supporters(b, c);
    }
    assert forall d :: d in Addressable(a) <==> d in Addressable(b);
  }

  lemma {:induction false} SameSupportedCauses(a: seq<Diagnosis>, b: seq<Diagnosis>, causes: seq<Cause>)
    requires forall c :: Supporters(a, c) == Supporters(b, c)
    ensures SupportedCauses(a, causes) == SupportedCauses(b, causes)
  {
    hide Supporters;
    if causes != [] {
      SameSupportedCauses(a, b, causes[1..]);
    }
  }

  lemma {:induction false} SameLibraryCandidates(a: seq<Diagnosis>, b: seq<Diagnosis>, causes: seq<Cause>)
    requires forall c :: Supporters(a, c) == Supporters(b, c)
    requires forall c :: c in causes ==> c in LIBRARY
    ensures LibraryCandidates(a, causes) == LibraryCandidates(b, causes)
  {
    hide Supporters, QueriesOf, DiagnosesOf;
    if causes != [] {
      SameLibraryCandidates(a, b, causes[1..]);
    }
  }

  lemma SameCauseOrder(a: seq<Diagnosis>, b: seq<Diagnosis>)
    requires forall c :: Supporters(a, c) == Supporters(b, c)
    ensures OrderedCauses(a) == OrderedCauses(b)
  {
    hide Supporters, QueriesOf;
    SameSupportedCauses(a, b, LIBRARY);
    SortSame(MostSupported(a), MostSupported(b), SupportedCauses(a, LIBRARY));
  }

  lemma SameSize(a: seq<Diagnosis>, b: seq<Diagnosis>)
    requires multiset(a) == multiset(b)
    ensures |a| == |b|
  {
    assert |multiset(a)| == |a| && |multiset(b)| == |b|;
  }

  /** Candidate selection gives the same result for every arrangement of the diagnoses. */
  lemma CandidatesCanonical(
    selectionId: (set<Id>, seq<Candidate>, int) -> Id, a: seq<Diagnosis>, b: seq<Diagnosis>, max: int)
    requires multiset(a) == multiset(b)
    ensures SelectCandidates(selectionId, a, max) == SelectCandidates(selectionId, b, max)
  {
    hide Supporters, Addressable, OrderedCauses, LibraryCandidates, CandidateFor;
    SameSupporters(a, b);
    SameSize(a, b);
    assert IdsOf(a) == IdsOf(b);
    SameCauseOrder(a, b);
    if 1 <= max <= 4 {
      var ordered := OrderedCauses(a);
      OrderedInLibrary(a);
      SameLibraryCandidates(a, b, if |ordered| < max - 1 then ordered else ordered[..max - 1]);
    }
  }

  // ----- What a selection guarantees -----

  predicate ValidCandidate(c: Candidate) {
    c.diagnosisIds != {} && c.queryIds != {} && c.supportCount == |c.queryIds|
  }

  lemma CandidateSupported(id: CandidateId, trigger: Cause, supporters: set<Diagnosis>)
    requires supporters != {}
    ensures ValidCandidate(CandidateFor(id, trigger, supporters))
  {
    var d :| d in supporters;
    assert d.id in DiagnosesOf(supporters) && d.queryId in QueriesOf(supporters);
  }

  lemma {:induction false} LibraryCandidatesAt(diagnoses: seq<Diagnosis>, causes: seq<Cause>)
    requires forall c :: c in causes ==> c in LIBRARY && Supporters(diagnoses, c) != {}
    ensures |LibraryCandidates(diagnoses, causes)| == |causes|
    ensures forall i :: 0 <= i < |causes| ==>
              && LibraryCandidates(diagnoses, causes)[i] ==
                 CandidateFor(LibraryCandidate(causes[i]), causes[i], Supporters(diagnoses, causes[i]))
              && ValidCandidate(LibraryCandidates(diagnoses, causes)[i])
  {
    hide Supporters, CandidateFor, ValidCandidate;
    if causes != [] {
      LibraryCandidatesAt(diagnoses, causes[1..]);
      CandidateSupported(LibraryCandidate(causes[0]), causes[0], Supporters(diagnoses, causes[0]));
    }
  }

  lemma {:induction false} SupportedAscend(diagnoses: seq<Diagnosis>, causes: seq<Cause>)
    requires forall i, j :: 0 <= i < j < |causes| ==> causes[i] != causes[j]
    ensures Comparable(MostSupported(diagnoses), SupportedCauses(diagnoses, causes))
  {
    hide CauseCount, Supporters, CauseRank, StrictOrder;
    if causes != [] {
      var rest := causes[1..];
      assert forall i, j :: 0 <= i < j < |rest| ==> rest[i] == causes[i + 1] && rest[j] == causes[j + 1];
      SupportedAscend(diagnoses, rest);
      SupportedMembers(diagnoses, rest);
      forall x | x in SupportedCauses(diagnoses, rest)
        ensures CauseLess(diagnoses, causes[0], x) || CauseLess(diagnoses, x, causes[0])
      {
        var i :| 0 <= i < |rest| && rest[i] == x;
        assert causes[i + 1] == x;
        RanksDiffer(causes[0], x);
      }
      var all := SupportedCauses(diagnoses, causes);
      if Supporters(diagnoses, causes[0]) != {} {
        assert all[0] == causes[0] && all[1..] == SupportedCauses(diagnoses, rest);
      } else {
        assert all == SupportedCauses(diagnoses, rest);
      }
    }
  }

  lemma RanksDiffer(a: Cause, b: Cause)
    ensures CauseRank(a) == CauseRank(b) ==> a == b
  {
  }

  lemma CauseOrder(diagnoses: seq<Diagnosis>)
    ensures StrictOrder(MostSupported(diagnoses))
  {
  }

  // The causes come most supported first.
  lemma CausesAscend(diagnoses: seq<Diagnosis>)
    ensures Ascending(MostSupported(diagnoses), OrderedCauses(diagnoses))
  {
    hide CauseLess, Supporters, Comparable, Ascending, StrictOrder;
    CauseOrder(diagnoses);
    SupportedAscend(diagnoses, LIBRARY);
    SortAscends(MostSupported(diagnoses), SupportedCauses(diagnoses, LIBRARY));
  }

  // The library candidates of the first n causes.
  lemma LibraryPart(diagnoses: seq<Diagnosis>, n: nat)
    requires n <= |OrderedCauses(diagnoses)|
    ensures forall c :: c in OrderedCauses(diagnoses)[..n] ==> c in LIBRARY
    ensures var part := LibraryCandidates(diagnoses, OrderedCauses(diagnoses)[..n]);
            && |part| == n
            && (forall i :: 0 <= i < n ==> ValidCandidate(part[i]) && part[i].id != ConservativeBoost)
            && (forall i, j :: 0 <= i < j < n ==>
                  part[i].id != part[j].id && CauseLess(diagnoses, part[i].trigger, part[j].trigger))
  {
    hide Supporters, OrderedCauses, CauseLess, ValidCandidate, Ascending, StrictOrder;
    var ordered := OrderedCauses(diagnoses);
    OrderedInLibrary(diagnoses);
    CausesAscend(diagnoses);
    CauseOrder(diagnoses);
    LibraryCandidatesAt(diagnoses, ordered[..n]);
    forall i: nat, j: nat | i < j < n
      ensures CauseLess(diagnoses, ordered[i], ordered[j]) && LibraryCandidate(ordered[i]) != LibraryCandidate(ordered[j])
    {
      AscendingAt(MostSupported(diagnoses), ordered, i, j);
      LessDiffers(diagnoses, ordered[i], ordered[j]);
    }
  }

  /** A selection never exceeds the maximum, its candidate ids are unique, every candidate has support
      and counts it truly, and the library candidates follow their causes, most supported first. */
  lemma SelectionIsValid(
    selectionId: (set<Id>, seq<Candidate>, int) -> Id, diagnoses: seq<Diagnosis>, max: int)
    requires SelectCandidates(selectionId, diagnoses, max).Ok?
    ensures var candidates := SelectCandidates(selectionId, diagnoses, max).value.candidates;
            && |candidates| <= max
            && (forall i :: 0 <= i < |candidates| ==> ValidCandidate(candidates[i]))
            && (forall i, j :: 0 <= i < j < |candidates| ==> candidates[i].id != candidates[j].id)
            && (candidates == [] <==> forall c :: c in LIBRARY ==> Supporters(diagnoses, c) == {})
            && (forall i, j :: 0 < i < j < |candidates| ==> CauseLess(diagnoses, candidates[i].trigger, candidates[j].trigger))
  {
    hide Supporters, OrderedCauses, CauseLess, ValidCandidate, LibraryCandidates, Addressable, CauseCount;
    var ordered := OrderedCauses(diagnoses);
    OrderedInLibrary(diagnoses);
    AddressableIsOrdered(diagnoses);
    var n := if |ordered| < max - 1 then |ordered| else max - 1;
    assert ordered[..|ordered|] == ordered;
    LibraryPart(diagnoses, n);
    assert ordered == [] <==> forall c :: c in LIBRARY ==> Supporters(diagnoses, c) == {} by {
      if ordered != [] {
        assert ordered[0] in ordered;
      }
    }
    if ordered != [] {
      CandidateSupported(ConservativeBoost, ordered[0], Addressable(diagnoses));
    }
  }

  lemma LessDiffers(diagnoses: seq<Diagnosis>, a: Cause, b: Cause)
    requires CauseLess(diagnoses, a, b) && a in LIBRARY && b in LIBRARY
    ensures LibraryCandidate(a) != LibraryCandidate(b)
  {
  }

  // ----- The winner -----

  datatype Comparator = Above | AtLeast | AtMost

  datatype StrategyCheck = StrategyCheck(comparator: Comparator, observed: real, threshold: real, passed: bool)

  datatype Evaluation = Evaluation(
    id: Id, candidateId: CandidateId, baselineRunId: Id, total: real, ndcgDelta: real, complexity: real,
    checks: seq<StrategyCheck>, eligible: bool)

  datatype WinnerSelection = WinnerSelection(
    selectionId: Id, selected: bool, baselineRunId: Option<Id>, evaluated: nat, eligibleCount: nat,
    ranked: seq<CandidateId>, winner: Option<CandidateId>, winnerEvaluation: Option<Id>)

  predicate CheckHolds(c: StrategyCheck) {
    match c.comparator
    case Above => c.observed > c.threshold
    case AtLeast => c.observed >= c.threshold
    case AtMost => c.observed <= c.threshold
  }

  /** The validators of an evaluation: eligibility is all gates, each gate its comparison. */
  predicate ValidEvaluation(e: Evaluation) {
    && (forall i :: 0 <= i < |e.checks| ==> e.checks[i].passed == CheckHolds(e.checks[i]))
    && e.eligible == (forall i :: 0 <= i < |e.checks| ==> e.checks[i].passed)
  }

  // Position of a candidate id in string order.
  function IdRank(id: CandidateId): nat {
    match id
    case ConservativeBoost => 0
    case CoverageBoost => 1
    case NumericBoost => 2
    case PhraseBoost => 3
  }

  predicate RankLess(a: Evaluation, b: Evaluation) {
    || a.total > b.total
    || (a.total == b.total && a.ndcgDelta > b.ndcgDelta)
    || (a.total == b.total && a.ndcgDelta == b.ndcgDelta && a.complexity < b.complexity)
    || (a.total == b.total && a.ndcgDelta == b.ndcgDelta && a.complexity == b.complexity
        && IdRank(a.candidateId) < IdRank(b.candidateId))
  }

  function Eligible(evaluations: seq<Evaluation>): seq<Evaluation> {
    if evaluations == [] then []
    else (if evaluations[0].eligible then [evaluations[0]] else []) + Eligible(evaluations[1..])
  }

  function CandidateIds(evaluations: seq<Evaluation>): set<CandidateId> {
    set e | e in evaluations :: e.candidateId
  }

  function Baselines(evaluations: seq<Evaluation>): set<Id> {
    set e | e in evaluations :: e.baselineRunId
  }

  // The evaluation ids, whose sorted list is hashed.
  function IdBag(evaluations: seq<Evaluation>): multiset<Id> {
    if evaluations == [] then multiset{} else multiset{evaluations[0].id} + IdBag(evaluations[1..])
  }

  function RankedIds(evaluations: seq<Evaluation>): seq<CandidateId> {
    seq(|evaluations|, i requires 0 <= i < |evaluations| => evaluations[i].candidateId)
  }

  function Ranked(evaluations: seq<Evaluation>): seq<Evaluation> {
    SortBy(RankLess, Eligible(evaluations))
  }

  function SelectWinner(selectionId: (multiset<Id>, seq<CandidateId>) -> Id, evaluations: seq<Evaluation>)
    : Result<WinnerSelection, SearchError>
  {
    if |evaluations| != |CandidateIds(evaluations)| then Err(DuplicateCandidates)
    else if |Baselines(evaluations)| > 1 then Err(SeveralBaselines)
    else
      var ranked := Ranked(evaluations);
      Ok(WinnerSelection(
        selectionId(IdBag(evaluations), RankedIds(ranked)), ranked != [],
        if evaluations == [] then None else Some(evaluations[0].baselineRunId),
        |evaluations|, |ranked|, RankedIds(ranked),
        if ranked == [] then None else Some(ranked[0].candidateId),
        if ranked == [] then None else Some(ranked[0].id)))
  }

  lemma {:induction false} IdsBounded(s: seq<Evaluation>)
    ensures |CandidateIds(s)| <= |s|
    ensures |CandidateIds(s)| == |s| ==>
              forall i, j :: 0 <= i < j < |s| ==> s[i].candidateId != s[j].candidateId
  {
    if s != [] {
      var front, last := s[..|s| - 1], s[|s| - 1];
      IdsBounded(front);
      assert s == front + [last];
      assert CandidateIds(s) == CandidateIds(front) + {last.candidateId};
      if last.candidateId in CandidateIds(front) {
        assert CandidateIds(s) == CandidateIds(front);
      } else {
        forall i | 0 <= i < |front| ensures s[i].candidateId != last.candidateId {
          assert front[i] in front && front[i].candidateId in CandidateIds(front);
        }
      }
    }
  }

  lemma {:induction false} EligibleCounts(s: seq<Evaluation>, e: Evaluation)
    ensures multiset(Eligible(s))[e] == if e.eligible then multiset(s)[e] else 0
    ensures e in Eligible(s) <==> e in s && e.eligible
  {
    if s != [] {
      assert s == [s[0]] + s[1..];
      EligibleCounts(s[1..], e);
    }
  }

  lemma {:induction false} EligibleComparable(s: seq<Evaluation>)
    requires forall i, j :: 0 <= i < j < |s| ==> s[i].candidateId != s[j].candidateId
    ensures Comparable(RankLess, Eligible(s))
  {
    hide RankLess;
    if s != [] {
      var rest := s[1..];
      assert forall i, j :: 0 <= i < j < |rest| ==> rest[i] == s[i + 1] && rest[j] == s[j + 1];
      EligibleComparable(rest);
      forall x | x in Eligible(rest)
        ensures RankLess(s[0], x) || RankLess(x, s[0])
      {
        EligibleCounts(rest, x);
        var i :| 0 <= i < |rest| && rest[i] == x;
        assert s[i + 1] == x;
        DistinctRanks(s[0], x);
      }
      var all := Eligible(s);
      if s[0].eligible {
        assert all[0] == s[0] && all[1..] == Eligible(rest);
      } else {
        assert all == Eligible(rest);
      }
    }
  }

  lemma DistinctRanks(a: Evaluation, b: Evaluation)
    requires a.candidateId != b.candidateId
    ensures RankLess(a, b) || RankLess(b, a)
  {
  }

  lemma RankOrder()
    ensures StrictOrder(RankLess)
  {
  }

  // The ranking is the ascending list of exactly the eligible evaluations.
  lemma RankingIs(evaluations: seq<Evaluation>)
    requires |evaluations| == |CandidateIds(evaluations)|
    ensures Comparable(RankLess, Eligible(evaluations)) && Ascending(RankLess, Ranked(evaluations))
    ensures forall e :: e in Ranked(evaluations) <==> e in evaluations && e.eligible
    ensures |Ranked(evaluations)| == |Eligible(evaluations)|
  {
    hide RankLess, StrictOrder, Comparable, Ascending;
    RankOrder();
    IdsBounded(evaluations);
    EligibleComparable(evaluations);
    SortAscends(RankLess, Eligible(evaluations));
    SortKeeps(RankLess, Eligible(evaluations));
    forall e ensures e in Eligible(evaluations) <==> e in evaluations && e.eligible {
      EligibleCounts(evaluations, e);
    }
  }

  lemma {:induction false} IdBagSplit(a: seq<Evaluation>, b: seq<Evaluation>)
    ensures IdBag(a + b) == IdBag(a) + IdBag(b)
  {
    if a == [] {
      assert a + b == b;
    } else {
      assert (a + b)[1..] == a[1..] + b;
      IdBagSplit(a[1..], b);
    }
  }

  lemma {:induction false} IdMultiset(a: seq<Evaluation>, b: seq<Evaluation>)
    requires multiset(a) == multiset(b)
    ensures IdBag(a) == IdBag(b)
  {
    hide IdBag;
    assert |a| == |multiset(a)| == |multiset(b)| == |b|;
    if a == [] {
      assert b == a;
    } else {
      assert a[0] in multiset(b);
      var i :| 0 <= i < |b| && b[i] == a[0];
      var before, after := b[..i], b[i + 1..];
      WithoutOne(a, b, i);
      IdMultiset(a[1..], before + after);
      IdBagSplit([a[0]], a[1..]);
      IdBagSplit(before, after);
      IdBagSplit(before, [b[i]]);
      IdBagSplit(before + [b[i]], after);
      assert a == [a[0]] + a[1..] && b == before + [b[i]] + after;
    }
  }

  lemma WithoutOne(a: seq<Evaluation>, b: seq<Evaluation>, i: nat)
    requires multiset(a) == multiset(b) && a != [] && i < |b| && b[i] == a[0]
    ensures multiset(a[1..]) == multiset(b[..i] + b[i + 1..])
  {
    assert a == [a[0]] + a[1..];
    assert b == b[..i] + [b[i]] + b[i + 1..];
    assert multiset(b) == multiset(b[..i]) + multiset{b[i]} + multiset(b[i + 1..]);
    assert multiset(a) == multiset{a[0]} + multiset(a[1..]);
    assert multiset(b[..i] + b[i + 1..]) == multiset(b[..i]) + multiset(b[i + 1..]);
    assert multiset(a[1..]) == multiset(a) - multiset{a[0]};
  }

  /** The winner does not depend on the order of the evaluations, nor does any field of the selection. */
  lemma WinnerCanonical(
    selectionId: (multiset<Id>, seq<CandidateId>) -> Id, a: seq<Evaluation>, b: seq<Evaluation>)
    requires multiset(a) == multiset(b)
    ensures SelectWinner(selectionId, a) == SelectWinner(selectionId, b)
  {
    hide RankLess, StrictOrder, Comparable, RankedIds, IdBag;
    SameEvaluations(a, b);
    if |a| == |CandidateIds(a)| && |Baselines(a)| <= 1 {
      RankingIs(a);
      RankingIs(b);
      RankOrder();
      forall e ensures multiset(Eligible(a))[e] == multiset(Eligible(b))[e] {
        EligibleCounts(a, e);
        EligibleCounts(b, e);
      }
      assert multiset(Eligible(a)) == multiset(Eligible(b));
      SortIsCanonical(RankLess, Eligible(a), Eligible(b));
      IdMultiset(a, b);
      if a != [] {
        OneBaseline(a, a[0], b[0]);
      }
    }
  }

  lemma SameEvaluations(a: seq<Evaluation>, b: seq<Evaluation>)
    requires multiset(a) == multiset(b)
    ensures |a| == |b| && CandidateIds(a) == CandidateIds(b) && Baselines(a) == Baselines(b)
    ensures forall e :: e in a <==> e in b
  {
    assert |a| == |multiset(a)| == |multiset(b)| == |b|;
    forall e ensures e in a <==> e in b {
      assert e in a <==> e in multiset(a);
      assert e in b <==> e in multiset(b);
    }
  }

  lemma OneBaseline(s: seq<Evaluation>, d: Evaluation, e: Evaluation)
    requires |Baselines(s)| <= 1 && d in s && e in s
    ensures d.baselineRunId == e.baselineRunId
  {
    assert d.baselineRunId in Baselines(s) && e.baselineRunId in Baselines(s);
    if d.baselineRunId != e.baselineRunId {
      assert {d.baselineRunId, e.baselineRunId} <= Baselines(s);
      SubsetSize({d.baselineRunId, e.baselineRunId}, Baselines(s));
    }
  }

  lemma {:induction false} SubsetSize(a: set<Id>, b: set<Id>)
    requires a <= b
    ensures |a| <= |b|
  {
    if a != {} {
      var x :| x in a;
      SubsetSize(a - {x}, b - {x});
    }
  }

  /** There is a winner exactly when some evaluation passed every gate; it is one of those, first in
      the total order, and the validators of the selection hold. */
  lemma WinnerIsFirst(selectionId: (multiset<Id>, seq<CandidateId>) -> Id, evaluations: seq<Evaluation>)
    returns (winner: Option<Evaluation>)
    requires SelectWinner(selectionId, evaluations).Ok?
    requires forall e :: e in evaluations ==> ValidEvaluation(e)
    ensures var s := SelectWinner(selectionId, evaluations).value;
            && (winner.Some? <==> s.selected) && (s.selected <==> exists e :: e in evaluations && e.eligible)
            && (winner.Some? ==>
                  && s.winner == Some(winner.value.candidateId) && s.winnerEvaluation == Some(winner.value.id)
                  && s.ranked[0..1] == [winner.value.candidateId]
                  && winner.value in evaluations
                  && (forall i :: 0 <= i < |winner.value.checks| ==> CheckHolds(winner.value.checks[i]))
                  && (forall e :: e in evaluations && e.eligible && e != winner.value ==> RankLess(winner.value, e)))
            && |s.ranked| == s.eligibleCount <= s.evaluated
            && (forall i, j :: 0 <= i < j < |s.ranked| ==> s.ranked[i] != s.ranked[j])
  {
    hide RankLess, StrictOrder, Comparable, CheckHolds, Ranked, Eligible, CandidateIds, Baselines, IdBag;
    var ranked := Ranked(evaluations);
    RankingIs(evaluations);
    EligibleLength(evaluations);
    RankingDistinct(evaluations);
    winner := if ranked == [] then None else Some(ranked[0]);
    if ranked != [] {
      assert ranked[0] in ranked && ValidEvaluation(ranked[0]);
      assert forall e :: e in ranked && e != ranked[0] ==> e in ranked[1..];
    }
    if e :| e in evaluations && e.eligible {
      assert e in ranked;
    }
  }

  lemma RankingDistinct(evaluations: seq<Evaluation>)
    requires |evaluations| == |CandidateIds(evaluations)|
    ensures var ranked := Ranked(evaluations);
            forall i, j :: 0 <= i < j < |ranked| ==> ranked[i].candidateId != ranked[j].candidateId
  {
    hide RankLess, StrictOrder, Comparable, Ascending, Ranked, Eligible, CandidateIds;
    var ranked := Ranked(evaluations);
    RankingIs(evaluations);
    IdsBounded(evaluations);
    RankOrder();
    forall i: nat, j: nat | i < j < |ranked|
      ensures ranked[i].candidateId != ranked[j].candidateId
    {
      AscendingAt(RankLess, ranked, i, j);
      Asymmetric(RankLess, ranked[i], ranked[j]);
      assert ranked[i] in ranked && ranked[j] in ranked;
      if ranked[i].candidateId == ranked[j].candidateId {
        SameIdSame(evaluations, ranked[i], ranked[j]);
      }
    }
  }

  lemma SameIdSame(s: seq<Evaluation>, d: Evaluation, e: Evaluation)
    requires forall i, j :: 0 <= i < j < |s| ==> s[i].candidateId != s[j].candidateId
    requires d in s && e in s && d.candidateId == e.candidateId
    ensures d == e
  {
  }

  lemma {:induction false} EligibleLength(s: seq<Evaluation>)
    ensures |Eligible(s)| <= |s|
  {
    if s != [] {
      EligibleLength(s[1..]);
    }
  }
}
