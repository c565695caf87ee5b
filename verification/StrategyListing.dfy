/** What a crash can leave behind: approvals that are listed without having been active, and approval
    intents that are stuck; and exactly when either happens. */
module StrategyListing {
  import opened Contracts
  import opened StrategyDecisions
  import opened StrategySafety
  import opened StrategyRecovery

  ghost predicate DistinctDecisions(w: World) {
    forall a, p, b, q :: w.decisionId(a, p) == w.decisionId(b, q) ==> a == b && p == q
  }

  // ----- Listed and active -----

  /** The history lists the approval of a proposal. */
  predicate Lists(w: World, s: Files, id: Id)
    requires id in w.proposals
  {
    Records(s.catalog.history, PayloadOf(w, w.proposals[id], Adopt).id)
  }

  ghost predicate WasActive(w: World, init: Files, steps: seq<Step>, id: Id)
    requires id in w.proposals
  {
    exists j :: 0 <= j <= |steps| && Run(w, init, steps[..j]).active == Some(EntryOf(w.proposals[id]))
  }

  /** The step dies between the catalog write and the activation of an approval. */
  predicate DiesListing(w: World, s: Files, step: Step) {
    var q := step.request;
    && q.choice == Adopt && q.proposalId in w.proposals
    && var p := w.proposals[q.proposalId];
    && Starts(w, s, q, p, PayloadOf(w, p, Adopt)) && step.power == if p.id in s.intents then 2 else 3
  }

  lemma {:induction false} InheritedRecords(strategies: seq<CatalogItem>, id: Id)
    ensures !Records(Inherited(strategies), id)
  {
    InheritedUndecided(strategies);
  }

  lemma AdoptedLists(c: Catalog, p: StrategyProposal, d: DecisionPayload, now: string, id: Id)
    ensures Records(Adopted(c, p, d, now).history, id) <==> Records(c.history, id) || id == d.id
  {
    var history := if c.history == [] then Inherited(c.strategies) else c.history;
    InheritedRecords(c.strategies, id);
    InheritedRecords(c.strategies, d.id);
    if !Records(history, d.id) {
      SnocRecords(history, SnapshotOf(p, d, now), id);
    }
  }

  lemma SnocRecords(history: seq<HistoryItem>, last: HistoryItem, id: Id)
    ensures Records(history + [last], id) <==> Records(history, id) || last.decisionId == Some(id)
  {
    var longer := history + [last];
    if Records(history, id) {
      var i :| 0 <= i < |history| && history[i].decisionId == Some(id);
      assert longer[i].decisionId == Some(id);
    }
    assert longer[|history|] == last;
  }

  // What the states of a publication list and activate.
  lemma PublicationLists(s: Files, p: StrategyProposal, d: DecisionPayload, now: string, i: nat, id: Id)
    requires i < |Publication(s, p, d, now)|
    ensures var t := Publication(s, p, d, now)[i];
            && (Records(t.catalog.history, id) <==>
                  Records(s.catalog.history, id) || (d.choice == Adopt && i >= 1 && id == d.id))
            && t.active == if d.choice == Adopt && i >= 2 then Some(EntryOf(p)) else s.active
  {
    hide Adopted, Records;
    AdoptedLists(s.catalog, p, d, now, id);
  }

  // Where a request that is not refused stops: before its publication, or in one of its states.
  lemma ServeState(w: World, s: Files, q: Request, power: nat, id: Id)
    requires w.Valid()
    ensures var t := Serve(w, s, q, power).files;
            || (t.catalog == s.catalog && t.active == s.active)
            || (&& q.proposalId in w.proposals
                && var p := w.proposals[q.proposalId];
                var d, first := PayloadOf(w, p, q.choice), if p.id in s.intents then 1 else 2;
                && Starts(w, s, q, p, d) && power >= first
                && (Records(t.catalog.history, id) <==>
                      Records(s.catalog.history, id) || (q.choice == Adopt && power > first && id == d.id))
                && t.active == if q.choice == Adopt && power > first + 1 then Some(EntryOf(p)) else s.active)
  {
    hide Records, Publication, ApprovalError;
    var course := CourseOf(w, s, q);
    if course.Through? && q.proposalId !in s.pointers {
      var p := w.proposals[q.proposalId];
      var d := PayloadOf(w, p, q.choice);
      var start := if p.id in s.intents then [s] else [s, Intended(s, p, q.choice)];
      var intended := start[|start| - 1];
      var i := if power < |course.states| - 1 then power else |course.states| - 1;
      PublicationLength(intended, p, d, q.now);
      if i >= |start| {
        PublicationLists(intended, p, d, q.now, i - |start|, id);
      }
    }
  }

  /** A request newly lists only its own approval, and leaves it inactive only by dying right there. */
  lemma ServeLists(w: World, s: Files, step: Step, id: Id)
    requires w.Valid() && DistinctDecisions(w) && id in w.proposals
    ensures var t := Serve(w, s, step.request, step.power).files;
            Lists(w, t, id) && !Lists(w, s, id) ==>
              && step.request.proposalId == id
              && (t.active == Some(EntryOf(w.proposals[id])) || DiesListing(w, s, step))
  {
    hide Records, Serve, Starts;
    ServeState(w, s, step.request, step.power, PayloadOf(w, w.proposals[id], Adopt).id);
  }

  lemma DiesLists(w: World, s: Files, step: Step)
    requires w.Valid() && DiesListing(w, s, step)
    ensures var t := Serve(w, s, step.request, step.power).files;
            Lists(w, t, step.request.proposalId) && t.active == s.active
  {
    hide Records, Publication, Final, Between, ApprovalError;
    var q, p := step.request, w.proposals[step.request.proposalId];
    var d := PayloadOf(w, p, Adopt);
    var start := if p.id in s.intents then [s] else [s, Intended(s, p, Adopt)];
    PublicationLength(start[|start| - 1], p, d, q.now);
    PublicationLists(start[|start| - 1], p, d, q.now, 1, d.id);
  }

  ghost predicate Strands(w: World, init: Files, front: seq<Step>, step: Step) {
    && DiesListing(w, Run(w, init, front), step)
    && !Lists(w, init, step.request.proposalId) && !WasActive(w, init, front, step.request.proposalId)
  }

  ghost predicate EndAdopted(w: World, init: Files, steps: seq<Step>) {
    forall id :: id in w.proposals && Lists(w, Run(w, init, steps), id) && !Lists(w, init, id) ==>
      WasActive(w, init, steps, id)
  }

  /** At every point the history lists, beyond what it started with, only approvals whose strategy was
      active by then. */
  ghost predicate ListsOnlyAdopted(w: World, init: Files, steps: seq<Step>) {
    forall k :: 0 <= k <= |steps| ==> EndAdopted(w, init, steps[..k])
  }

  ghost predicate NeverStrands(w: World, init: Files, steps: seq<Step>) {
    forall i :: 0 <= i < |steps| ==> !Strands(w, init, steps[..i], steps[i])
  }

  lemma WasActiveSnoc(w: World, init: Files, front: seq<Step>, last: Step, id: Id)
    requires id in w.proposals
    ensures WasActive(w, init, front + [last], id) <==>
              WasActive(w, init, front, id) || Run(w, init, front + [last]).active == Some(EntryOf(w.proposals[id]))
  {
    hide Run;
    var steps, n := front + [last], |front|;
    assert forall j :: 0 <= j <= n ==> front[..j] == steps[..j];
    assert steps[..n + 1] == steps;
    if WasActive(w, init, front, id) {
      var j :| 0 <= j <= n && Run(w, init, front[..j]).active == Some(EntryOf(w.proposals[id]));
      assert Run(w, init, steps[..j]).active == Some(EntryOf(w.proposals[id]));
    }
    if j :| 0 <= j <= n + 1 && Run(w, init, steps[..j]).active == Some(EntryOf(w.proposals[id])) {
      if j <= n {
        assert Run(w, init, front[..j]).active == Some(EntryOf(w.proposals[id]));
      }
    }
    if Run(w, init, steps).active == Some(EntryOf(w.proposals[id])) {
      assert Run(w, init, steps[..n + 1]).active == Some(EntryOf(w.proposals[id]));
    }
  }

  // Active at the end is active at some point.
  lemma EndActive(w: World, init: Files, steps: seq<Step>, id: Id)
    requires id in w.proposals && Run(w, init, steps).active == Some(EntryOf(w.proposals[id]))
    ensures WasActive(w, init, steps, id)
  {
    hide Run;
    assert steps[..|steps|] == steps;
  }

  lemma DiesKnown(w: World, s: Files, step: Step)
    requires DiesListing(w, s, step)
    ensures step.request.proposalId in w.proposals
  {
  }

  /** Such a step lists a strategy that was not active at any point. */
  lemma StrandLists(w: World, init: Files, front: seq<Step>, last: Step)
    requires w.Valid() && Strands(w, init, front, last)
    ensures var id := last.request.proposalId;
            && id in w.proposals && Lists(w, Run(w, init, front + [last]), id) && !Lists(w, init, id)
            && !WasActive(w, init, front + [last], id)
  {
    hide Run, Serve, Lists, DiesListing, WasActive;
    var s, id := Run(w, init, front), last.request.proposalId;
    DiesKnown(w, s, last);
    RunAppend(w, init, front, last);
    DiesLists(w, s, last);
    WasActiveSnoc(w, init, front, last, id);
    if s.active == Some(EntryOf(w.proposals[id])) {
      EndActive(w, init, front, id);
    }
  }

  lemma StepAdopted(w: World, init: Files, front: seq<Step>, last: Step)
    requires w.Valid() && DistinctDecisions(w) && EndAdopted(w, init, front)
    ensures EndAdopted(w, init, front + [last]) <==> !Strands(w, init, front, last)
  {
    hide Run, Serve, Lists, DiesListing, WasActive, DistinctDecisions;
    var s, t := Run(w, init, front), Run(w, init, front + [last]);
    RunAppend(w, init, front, last);
    forall id | id in w.proposals && Lists(w, t, id) && !Lists(w, init, id)
      ensures WasActive(w, init, front + [last], id) || (Strands(w, init, front, last) && id == last.request.proposalId)
    {
      ServeLists(w, s, last, id);
      WasActiveSnoc(w, init, front, last, id);
    }
    if Strands(w, init, front, last) {
      StrandLists(w, init, front, last);
    }
  }

  lemma ListsOnlyAdoptedSnoc(w: World, init: Files, front: seq<Step>, last: Step)
    ensures ListsOnlyAdopted(w, init, front + [last]) <==> ListsOnlyAdopted(w, init, front) && EndAdopted(w, init, front + [last])
    ensures ListsOnlyAdopted(w, init, front) ==> EndAdopted(w, init, front)
  {
    hide EndAdopted;
    var steps, n := front + [last], |front|;
    assert forall k :: 0 <= k <= n ==> front[..k] == steps[..k];
    assert steps[..n + 1] == steps && front[..n] == front;
  }

  lemma NeverStrandsSnoc(w: World, init: Files, front: seq<Step>, last: Step)
    ensures NeverStrands(w, init, front + [last]) <==> NeverStrands(w, init, front) && !Strands(w, init, front, last)
  {
    hide Strands;
    var steps, n := front + [last], |front|;
    assert forall k :: 0 <= k <= n ==> front[..k] == steps[..k];
    assert front[..n] == front && steps[n] == last;
    assert forall i :: 0 <= i < n ==> steps[i] == front[i];
  }

  /** From any files, only strategies that were active come to be listed, exactly when no unlisted
      approval dies between its catalog write and its activation without its strategy having been
      active before. */
  lemma {:induction false} ListedExactly(w: World, init: Files, steps: seq<Step>)
    requires w.Valid() && DistinctDecisions(w)
    ensures ListsOnlyAdopted(w, init, steps) <==> NeverStrands(w, init, steps)
  {
    hide *;
    if steps == [] {
      EmptyListed(w, init);
    } else {
      var n := |steps| - 1;
      var front, last := steps[..n], steps[n];
      assert front + [last] == steps;
      ListedExactly(w, init, front);
      ListsOnlyAdoptedSnoc(w, init, front, last);
      NeverStrandsSnoc(w, init, front, last);
      if ListsOnlyAdopted(w, init, front) {
        StepAdopted(w, init, front, last);
      }
    }
  }

  lemma EmptyListed(w: World, init: Files)
    ensures ListsOnlyAdopted(w, init, []) && NeverStrands(w, init, [])
  {
  }

  /** It does happen: the very first approval of any eligible proposal, dying after three of its five
      writes, is listed although nothing was ever active. */
  lemma CrashListsUnadopted(w: World, q: Request)
    requires w.Valid() && FirstApproval(w, q)
    ensures var steps := [Step(q, 3)];
            && q.proposalId in w.proposals && Lists(w, Run(w, EMPTY, steps), q.proposalId)
            && forall j :: 0 <= j <= |steps| ==> Run(w, EMPTY, steps[..j]).active == None
  {
    hide Serve, Lists, Run, DiesListing, FirstApproval;
    var steps := [Step(q, 3)];
    FirstDies(w, q);
    DiesLists(w, EMPTY, steps[0]);
    EmptyRun(w);
    RunAppend(w, EMPTY, [], steps[0]);
    assert [] + steps == steps && steps[..0] == [] && steps[..1] == steps;
  }

  lemma FirstDies(w: World, q: Request)
    requires w.Valid() && FirstApproval(w, q)
    ensures q.proposalId in w.proposals && DiesListing(w, EMPTY, Step(q, 3))
  {
  }

  lemma EmptyRun(w: World)
    ensures Run(w, EMPTY, []) == EMPTY && EMPTY.active == None
  {
  }

  /** The request approves, with valid evidence, a proposal evaluated against no active strategy. */
  predicate FirstApproval(w: World, q: Request) {
    && q.choice == Adopt && q.codeRevisionValid && q.evidenceValid && q.proposalId in w.proposals
    && var p := w.proposals[q.proposalId];
    && p.pending && p.gatePassed && p.parentId.None? && p.parentRevision.None?
  }

  lemma FirstStates(w: World, q: Request)
    requires w.Valid() && FirstApproval(w, q)
    ensures var p := w.proposals[q.proposalId];
            var intended := Intended(EMPTY, p, Adopt);
            CourseOf(w, EMPTY, q) == Through(
              [EMPTY, intended] + Publication(intended, p, PayloadOf(w, p, Adopt), q.now), Ok(PayloadOf(w, p, Adopt)))
            && |Publication(intended, p, PayloadOf(w, p, Adopt), q.now)| == 4
  {
    PublicationLength(Intended(EMPTY, w.proposals[q.proposalId], Adopt), w.proposals[q.proposalId],
                      PayloadOf(w, w.proposals[q.proposalId], Adopt), q.now);
  }

  // ----- Stuck intents -----

  /** The approval intent of a proposal that has no published decision. */
  predicate Intends(w: World, s: Files, id: Id) {
    && id in w.proposals && id !in s.pointers
    && id in s.intents && s.intents[id] == IntentOf(w.proposals[id], Adopt)
  }

  ghost predicate Answerable(w: World, s: Files, id: Id) {
    exists q: Request, power: nat :: q.proposalId == id && Serve(w, s, q, power).reply.Ok?
  }

  /** An open approval intent can still be decided exactly when its proposal may be approved over what
      is active now; otherwise no request for it does anything. */
  lemma StuckIntent(w: World, s: Files, id: Id)
    requires w.Valid() && Intends(w, s, id)
    ensures var p := w.proposals[id];
            var d := PayloadOf(w, p, Adopt);
            Answerable(w, s, id) <==>
              && p.pending && p.gatePassed && Replaceable(w, s.active, p)
              && (d.id in s.records ==> s.records[d.id] == d)
    ensures !Replaceable(w, s.active, w.proposals[id]) ==>
              forall q: Request, power: nat :: q.proposalId == id ==>
                Serve(w, s, q, power).files == s && Serve(w, s, q, power).reply.Err?
  {
    hide Publication;
    var p := w.proposals[id];
    var d := PayloadOf(w, p, Adopt);
    if p.pending && p.gatePassed && Replaceable(w, s.active, p) && (d.id in s.records ==> s.records[d.id] == d) {
      var q := Request(id, Adopt, true, true, "");
      CourseStates(w, s, q, p, d);
      assert Serve(w, s, q, 5).reply.Ok?;
    }
  }

  /** After any history of decisions and crashes an open approval intent is stuck exactly when the
      active strategy is neither the parent its proposal names nor its target. */
  lemma StuckExactly(w: World, init: Files, steps: seq<Step>, id: Id)
    requires w.Valid() && DistinctDecisions(w) && Inv(w, init) && id !in Run(w, init, steps).pointers
    requires id in Run(w, init, steps).intents && Run(w, init, steps).intents[id].choice == Adopt
    ensures id in w.proposals
    ensures Answerable(w, Run(w, init, steps), id) <==> Replaceable(w, Run(w, init, steps).active, w.proposals[id])
  {
    hide Run, Serve, CatalogOk, ActiveListed, Records, Replaceable;
    var s := Run(w, init, steps);
    RunKeeps(w, init, steps);
    StuckIntent(w, s, id);
  }

  /** Another strategy is active, and the proposal was evaluated against none. */
  predicate Overtaken(w: World, s: Files, id: Id) {
    && Intends(w, s, id)
    && w.proposals[id].parentId.None? && s.active.Some? && s.active.value.proposalId != id
  }

  // What a request on one proposal leaves of the others.
  lemma OthersStay(w: World, s: Files, q: Request, power: nat, id: Id)
    requires w.Valid() && q.proposalId != id
    ensures var t := Serve(w, s, q, power).files;
            && (id in t.pointers <==> id in s.pointers)
            && (id in s.intents ==> id in t.intents && t.intents[id] == s.intents[id])
            && (t.active == s.active || (t.active.Some? && t.active.value.proposalId == q.proposalId))
  {
    hide Publication, ApprovalError;
    var course := CourseOf(w, s, q);
    if course.Through? && q.proposalId !in s.pointers {
      var p := w.proposals[q.proposalId];
      var d := PayloadOf(w, p, q.choice);
      var start := if p.id in s.intents then [s] else [s, Intended(s, p, q.choice)];
      var intended := start[|start| - 1];
      var i := if power < |course.states| - 1 then power else |course.states| - 1;
      if i >= |start| {
        PublicationActive(intended, p, d, q.now, i - |start|);
        PublicationIntents(intended, p, d, q.now, i - |start|);
      }
    }
  }

  lemma PublicationIntents(s: Files, p: StrategyProposal, d: DecisionPayload, now: string, i: nat)
    requires i < |Publication(s, p, d, now)|
    ensures Publication(s, p, d, now)[i].intents == s.intents
  {
    hide Adopted;
  }

  lemma OvertakenStays(w: World, s: Files, q: Request, power: nat, id: Id)
    requires w.Valid() && Overtaken(w, s, id)
    ensures Overtaken(w, Serve(w, s, q, power).files, id)
    ensures q.proposalId == id ==> Serve(w, s, q, power).files == s && Serve(w, s, q, power).reply.Err?
  {
    hide Serve;
    if q.proposalId == id {
      StuckIntent(w, s, id);
    } else {
      OthersStay(w, s, q, power, id);
    }
  }

  lemma {:induction false} OvertakenForGood(w: World, init: Files, steps: seq<Step>, id: Id)
    requires w.Valid() && Overtaken(w, init, id)
    ensures Overtaken(w, Run(w, init, steps), id)
  {
    hide Serve, Overtaken;
    if steps != [] {
      var front, last := steps[..|steps| - 1], steps[|steps| - 1];
      OvertakenForGood(w, init, front, id);
      OvertakenStays(w, Run(w, init, front), last.request, last.power, id);
    }
  }

  /** It does happen, and for good: when an approval dies after its intent and another proposal is
      approved, no later history of any length lets the first one be decided. */
  lemma OvertakenApproval(w: World, a: Request, b: Request, more: seq<Step>)
    requires w.Valid() && FirstApproval(w, a) && FirstApproval(w, b) && a.proposalId != b.proposalId
    ensures Serve(w, Run(w, EMPTY, [Step(a, 1)]), b, 5).reply.Ok?
    ensures !Answerable(w, Run(w, Run(w, EMPTY, [Step(a, 1), Step(b, 5)]), more), a.proposalId)
  {
    hide Run, Serve, Overtaken;
    var s := Run(w, EMPTY, [Step(a, 1), Step(b, 5)]);
    OvertakenStarts(w, a, b);
    OvertakenForGood(w, s, more, a.proposalId);
    var t := Run(w, s, more);
    forall q: Request, power: nat | q.proposalId == a.proposalId
      ensures Serve(w, t, q, power).reply.Err?
    {
      OvertakenStays(w, t, q, power, a.proposalId);
    }
  }

  lemma OvertakenStarts(w: World, a: Request, b: Request)
    requires w.Valid() && FirstApproval(w, a) && FirstApproval(w, b) && a.proposalId != b.proposalId
    ensures Serve(w, Run(w, EMPTY, [Step(a, 1)]), b, 5).reply.Ok?
    ensures Overtaken(w, Run(w, EMPTY, [Step(a, 1), Step(b, 5)]), a.proposalId)
  {
    hide Adopted, Publication;
    var p, o := w.proposals[a.proposalId], w.proposals[b.proposalId];
    var d, s := PayloadOf(w, o, Adopt), Intended(EMPTY, p, Adopt);
    FirstStates(w, a);
    RunAppend(w, EMPTY, [], Step(a, 1));
    RunAppend(w, EMPTY, [Step(a, 1)], Step(b, 5));
    assert [] + [Step(a, 1)] == [Step(a, 1)] && [Step(a, 1)] + [Step(b, 5)] == [Step(a, 1), Step(b, 5)];
    assert Run(w, EMPTY, [Step(a, 1)]) == s;
    CourseStates(w, s, b, o, d);
    assert Run(w, EMPTY, [Step(a, 1), Step(b, 5)]) == Final(s, o, d, b.now);
  }
}
