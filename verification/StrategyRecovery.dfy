/** Repeating a decision that died. */
module StrategyRecovery {
  import opened Contracts
  import opened StrategyDecisions
  import opened StrategySafety

  // ----- Up to the timestamp -----

  predicate SameHistory(a: seq<HistoryItem>, b: seq<HistoryItem>) {
    |a| == |b| && forall i :: 0 <= i < |a| ==> a[i].(adoptedAt := None) == b[i].(adoptedAt := None)
  }

  /** Equal files except for the times at which strategies were adopted. */
  predicate SameUpToTime(a: Files, b: Files) {
    && a.intents == b.intents && a.records == b.records && a.active == b.active && a.pointers == b.pointers
    && a.catalog.strategies == b.catalog.strategies && SameHistory(a.catalog.history, b.catalog.history)
  }

  lemma WithoutAppend(front: seq<CatalogItem>, last: CatalogItem, id: Id)
    ensures Without(front + [last], id) == Without(front, id) + if last.strategyId != id then [last] else []
  {
  }

  lemma {:induction false} WithoutTwice(strategies: seq<CatalogItem>, id: Id)
    ensures Without(Without(strategies, id), id) == Without(strategies, id)
  {
    if strategies != [] {
      var front, last := strategies[..|strategies| - 1], strategies[|strategies| - 1];
      WithoutTwice(front, id);
      if last.strategyId != id {
        WithoutAppend(Without(front, id), last, id);
      } else {
        assert Without(strategies, id) == Without(front, id);
      }
    }
  }

  /** Adopting the same decision again changes nothing, not even the time of the first adoption. */
  lemma AdoptedTwice(c: Catalog, p: StrategyProposal, d: DecisionPayload, now: string, later: string)
    requires CatalogOk(c)
    ensures Adopted(Adopted(c, p, d, now), p, d, later) == Adopted(c, p, d, now)
  {
    hide Without, Inherited, Records, CatalogOk;
    var once, rest := Adopted(c, p, d, now), Without(c.strategies, p.strategy.id);
    AdoptedKeeps(c, p, d, now);
    WithoutTwice(c.strategies, p.strategy.id);
    WithoutAppend(rest, ItemOf(p), p.strategy.id);
    RecordsSome(once.history, d.id);
  }

  lemma RecordsSome(history: seq<HistoryItem>, id: Id)
    requires Records(history, id)
    ensures history != []
  {
  }

  lemma AdoptedAnyTime(c: Catalog, p: StrategyProposal, d: DecisionPayload, now: string, later: string)
    ensures Adopted(c, p, d, now).strategies == Adopted(c, p, d, later).strategies
    ensures SameHistory(Adopted(c, p, d, now).history, Adopted(c, p, d, later).history)
  {
  }

  // ----- Resuming -----

  /** The state after every write of a decision. */
  function Final(s: Files, p: StrategyProposal, d: DecisionPayload, now: string): Files {
    Files(
      s.intents[p.id := IntentOf(p, d.choice)], s.records[d.id := d],
      if d.choice == Adopt then Adopted(s.catalog, p, d, now) else s.catalog,
      if d.choice == Adopt then Some(EntryOf(p)) else s.active,
      s.pointers[p.id := d])
  }

  /** A state some writes into a decision, before its pointer. */
  predicate Between(s: Files, t: Files, p: StrategyProposal, d: DecisionPayload, now: string) {
    && (t.intents == s.intents || t.intents == s.intents[p.id := IntentOf(p, d.choice)])
    && (t.records == s.records || t.records == s.records[d.id := d])
    && (t.catalog == s.catalog || (d.choice == Adopt && t.catalog == Adopted(s.catalog, p, d, now)))
    && (t.active == s.active
        || (d.choice == Adopt && t.active == Some(EntryOf(p)) && t.catalog == Adopted(s.catalog, p, d, now)))
    && t.pointers == s.pointers
  }

  // The request starts on a proposal that has no published decision and goes through to the end.
  predicate Starts(w: World, s: Files, q: Request, p: StrategyProposal, d: DecisionPayload) {
    && q.proposalId in w.proposals && p == w.proposals[q.proposalId] && p.id == q.proposalId && p.pending
    && p.id !in s.pointers && d == PayloadOf(w, p, q.choice)
    && (q.choice == Adopt ==> ApprovalError(w, s, p, q).None?)
    && (p.id in s.intents ==> s.intents[p.id] == IntentOf(p, q.choice))
    && (d.id in s.records ==> s.records[d.id] == d)
  }

  lemma PublicationStates(s: Files, p: StrategyProposal, d: DecisionPayload, now: string, i: nat)
    requires i < |Publication(s, p, d, now)| && d.proposalId == p.id && p.id !in s.pointers
    requires p.id in s.intents && s.intents[p.id] == IntentOf(p, d.choice)
    ensures |Publication(s, p, d, now)| == if d.choice == Adopt then 4 else 2
    ensures if i == |Publication(s, p, d, now)| - 1 then Publication(s, p, d, now)[i] == Final(s, p, d, now)
            else Between(s, Publication(s, p, d, now)[i], p, d, now)
  {
    hide Adopted;
    assert s.intents[p.id := IntentOf(p, d.choice)] == s.intents;
  }

  /** A started request passes only through states before its pointer, and ends in its final state. */
  lemma CourseStates(w: World, s: Files, q: Request, p: StrategyProposal, d: DecisionPayload)
    requires Starts(w, s, q, p, d)
    ensures var course := CourseOf(w, s, q);
            && course.Through? && course.reply == Ok(d) && 3 <= |course.states| <= 6
            && (forall i :: 0 <= i < |course.states| - 1 ==> Between(s, course.states[i], p, d, q.now))
            && course.states[|course.states| - 1] == Final(s, p, d, q.now)
  {
    hide Adopted, Publication, ApprovalError, Final, Between;
    var course := CourseOf(w, s, q);
    var start := if p.id in s.intents then [s] else [s, Intended(s, p, q.choice)];
    var intended := start[|start| - 1];
    var n := |start|;
    NothingBetween(s, p, d, q.now);
    IntentBetween(s, p, d, q.now);
    var last := |Publication(intended, p, d, q.now)| - 1;
    PublicationLength(intended, p, d, q.now);
    assert course.states == start + Publication(intended, p, d, q.now);
    forall i | n <= i < |course.states|
      ensures if i == |course.states| - 1 then course.states[i] == Final(s, p, d, q.now)
              else Between(s, course.states[i], p, d, q.now)
    {
      PublicationStates(intended, p, d, q.now, i - n);
      FinalIgnoresIntent(s, p, d, q.now, course.states[i]);
    }
  }

  lemma PublicationLength(s: Files, p: StrategyProposal, d: DecisionPayload, now: string)
    ensures |Publication(s, p, d, now)| == if d.choice == Adopt then 4 else 2
  {
  }

  lemma NothingBetween(s: Files, p: StrategyProposal, d: DecisionPayload, now: string)
    ensures Between(s, s, p, d, now)
  {
  }

  lemma IntentBetween(s: Files, p: StrategyProposal, d: DecisionPayload, now: string)
    ensures Between(s, Intended(s, p, d.choice), p, d, now)
  {
  }

  lemma FinalIgnoresIntent(s: Files, p: StrategyProposal, d: DecisionPayload, now: string, t: Files)
    ensures Final(Intended(s, p, d.choice), p, d, now) == Final(s, p, d, now)
    ensures Between(Intended(s, p, d.choice), t, p, d, now) ==> Between(s, t, p, d, now)
  {
  }

  /** From any state in between, at any later time, the same request starts again and ends alike. */
  lemma BetweenResumes(w: World, s: Files, t: Files, q: Request, p: StrategyProposal, d: DecisionPayload, later: string)
    requires Inv(w, s) && Starts(w, s, q, p, d) && Between(s, t, p, d, q.now)
    ensures Starts(w, t, q.(now := later), p, d)
    ensures SameUpToTime(Final(t, p, d, later), Final(s, p, d, q.now))
  {
    hide Adopted, SameHistory, CatalogOk, IntentsOk, PointersOk, ActiveListed;
    var i := IntentOf(p, d.choice);
    assert s.intents[p.id := i][p.id := i] == s.intents[p.id := i];
    assert s.records[d.id := d][d.id := d] == s.records[d.id := d];
    AdoptedTwice(s.catalog, p, d, q.now, later);
    AdoptedAnyTime(s.catalog, p, d, later, q.now);
    SameHistoryReflexive(Adopted(s.catalog, p, d, q.now).history);
    SameHistoryReflexive(s.catalog.history);
  }

  lemma SameHistoryReflexive(h: seq<HistoryItem>)
    ensures SameHistory(h, h)
  {
  }

  /** After a crash anywhere in a decision, repeating it with nothing in between, at whatever time,
      gives the reply and the files of the undisturbed decision, up to the time of adoption. */
  lemma RetryConverges(
    w: World, init: Files, steps: seq<Step>, q: Request, power: nat, enough: nat, later: string)
    requires w.Valid() && Inv(w, init) && Serve(w, Run(w, init, steps), q, enough).reply.Ok? && enough >= 5
    ensures var s := Run(w, init, steps);
            var whole := Serve(w, s, q, enough);
            var retried := Serve(w, Serve(w, s, q, power).files, q.(now := later), enough);
            retried.reply == whole.reply && SameUpToTime(retried.files, whole.files)
  {
    hide Run, Inv, Starts, Between, Final, CourseOf, SameUpToTime, SameHistory;
    var s := Run(w, init, steps);
    RunKeeps(w, init, steps);
    OkKnown(w, s, q, enough);
    var p := w.proposals[q.proposalId];
    var d := PayloadOf(w, p, q.choice);
    if q.proposalId in s.pointers {
      PublishedAlready(w, s, q, power, enough, later);
    } else {
      OkStarts(w, s, q, enough);
      CourseStates(w, s, q, p, d);
      var states := CourseOf(w, s, q).states;
      var t := Serve(w, s, q, power).files;
      if power < |states| - 1 {
        BetweenResumes(w, s, t, q, p, d, later);
        CourseStates(w, t, q.(now := later), p, d);
      } else {
        FinalPublished(w, s, q, p, d, enough, later);
      }
    }
  }

  lemma OkKnown(w: World, s: Files, q: Request, power: nat)
    requires Serve(w, s, q, power).reply.Ok?
    ensures q.proposalId in w.proposals
  {
  }

  lemma OkStarts(w: World, s: Files, q: Request, power: nat)
    requires w.Valid() && Serve(w, s, q, power).reply.Ok? && q.proposalId !in s.pointers
    ensures q.proposalId in w.proposals
    ensures var p := w.proposals[q.proposalId]; Starts(w, s, q, p, PayloadOf(w, p, q.choice))
  {
  }

  lemma PublishedAlready(w: World, s: Files, q: Request, power: nat, enough: nat, later: string)
    requires w.Valid() && Serve(w, s, q, enough).reply.Ok? && q.proposalId in s.pointers
    ensures Serve(w, s, q, power) == Serve(w, s, q, enough) == Serve(w, s, q.(now := later), enough)
    ensures Serve(w, s, q, power).files == s && SameUpToTime(s, s)
  {
  }

  lemma FinalPublished(w: World, s: Files, q: Request, p: StrategyProposal, d: DecisionPayload, enough: nat, later: string)
    requires Starts(w, s, q, p, d)
    ensures var t := Final(s, p, d, q.now);
            Serve(w, t, q.(now := later), enough) == Served(t, Ok(d)) && SameUpToTime(t, t)
  {
  }
}
