/** What the strategy decision workflow keeps over every history of decisions and crashes. */
module StrategySafety {
  import opened Contracts
  import opened StrategyDecisions

  // ----- The catalog -----

  predicate UniqueStrategies(strategies: seq<CatalogItem>) {
    forall i, j :: 0 <= i < j < |strategies| ==> strategies[i].strategyId != strategies[j].strategyId
  }

  predicate UniqueDecisions(history: seq<HistoryItem>) {
    forall i, j :: 0 <= i < j < |history| && history[i].decisionId.Some? ==> history[i].decisionId != history[j].decisionId
  }

  lemma {:induction false} WithoutKeeps(strategies: seq<CatalogItem>, id: Id)
    requires UniqueStrategies(strategies)
    ensures UniqueStrategies(Without(strategies, id))
    ensures forall x :: x in Without(strategies, id) <==> x in strategies && x.strategyId != id
  {
    if strategies != [] {
      var front, last := strategies[..|strategies| - 1], strategies[|strategies| - 1];
      WithoutKeeps(front, id);
      assert forall x :: x in strategies <==> x in front || x == last;
      var rest := Without(front, id);
      forall i | 0 <= i < |rest|
        ensures rest[i].strategyId != last.strategyId
      {
        assert rest[i] in rest;
        var j :| 0 <= j < |front| && front[j] == rest[i];
        assert strategies[j] == front[j];
      }
    }
  }

  lemma {:induction false} InheritedUndecided(strategies: seq<CatalogItem>)
    ensures |Inherited(strategies)| == |strategies|
    ensures forall i :: 0 <= i < |strategies| ==> Inherited(strategies)[i].decisionId.None?
  {
    if strategies != [] {
      InheritedUndecided(strategies[..|strategies| - 1]);
    }
  }

  ghost predicate CatalogOk(c: Catalog) {
    UniqueStrategies(c.strategies) && UniqueDecisions(c.history)
  }

  /** Adopting leaves one entry of each strategy id, the adopted one last, and one history entry of
      each decision, this one included; no earlier history is lost. */
  lemma AdoptedKeeps(c: Catalog, p: StrategyProposal, d: DecisionPayload, now: string)
    requires CatalogOk(c)
    ensures var after := Adopted(c, p, d, now);
            && CatalogOk(after) && Records(after.history, d.id)
            && after.strategies != [] && after.strategies[|after.strategies| - 1] == ItemOf(p)
            && c.history <= after.history
            && forall id :: Records(c.history, id) ==> Records(after.history, id)
  {
    WithoutKeeps(c.strategies, p.strategy.id);
    InheritedUndecided(c.strategies);
    var after := Adopted(c, p, d, now);
    var history := if c.history == [] then Inherited(c.strategies) else c.history;
    var rest := Without(c.strategies, p.strategy.id);
    assert forall i :: 0 <= i < |rest| ==> rest[i] in rest;
    if !Records(history, d.id) {
      assert after.history[|history|] == SnapshotOf(p, d, now);
      assert forall i :: 0 <= i < |history| ==> history[i].decisionId != Some(d.id);
    }
    forall id | Records(c.history, id)
      ensures Records(after.history, id)
    {
      var i :| 0 <= i < |c.history| && c.history[i].decisionId == Some(id);
      assert after.history[i].decisionId == Some(id);
    }
  }

  // ----- The invariant -----

  ghost predicate IntentsOk(w: World, s: Files) {
    forall p :: p in s.intents ==>
      && p in w.proposals && w.proposals[p].pending
      && s.intents[p] == IntentOf(w.proposals[p], s.intents[p].choice)
      && (s.intents[p].choice == Adopt ==> w.proposals[p].gatePassed)
  }

  ghost predicate PointersOk(w: World, s: Files) {
    && (forall p :: p in s.pointers ==>
          var d := s.pointers[p];
          && p in w.proposals && d == PayloadOf(w, w.proposals[p], d.choice)
          && p in s.intents && s.intents[p].choice == d.choice
          && d.id in s.records && s.records[d.id] == d
          && (d.choice == Adopt ==> Records(s.catalog.history, d.id)))
    && (forall i :: i in s.records ==>
          var d := s.records[i];
          d.id == i && d.proposalId in w.proposals && d == PayloadOf(w, w.proposals[d.proposalId], d.choice))
  }

  /** Whatever is active was put there by an approval that the history already lists. */
  ghost predicate ActiveListed(w: World, s: Files) {
    s.active.Some? ==>
      && s.active.value.proposalId in w.proposals
      && var p := w.proposals[s.active.value.proposalId];
      && s.active.value == EntryOf(p) && Records(s.catalog.history, PayloadOf(w, p, Adopt).id)
  }

  ghost predicate Inv(w: World, s: Files) {
    IntentsOk(w, s) && PointersOk(w, s) && ActiveListed(w, s) && CatalogOk(s.catalog)
  }

  lemma CatalogedKeeps(w: World, s: Files, p: StrategyProposal, d: DecisionPayload, now: string)
    requires Inv(w, s)
    ensures Inv(w, Cataloged(s, p, d, now)) && Records(Cataloged(s, p, d, now).catalog.history, d.id)
  {
    hide Adopted, CatalogOk, Records;
    AdoptedKeeps(s.catalog, p, d, now);
  }

  lemma IntendedKeeps(w: World, s: Files, p: StrategyProposal, choice: Choice)
    requires Inv(w, s) && p.id in w.proposals && w.proposals[p.id] == p && p.id !in s.intents
    requires p.pending && (choice == Adopt ==> p.gatePassed)
    ensures Inv(w, Intended(s, p, choice))
  {
    hide CatalogOk, Records;
  }

  lemma RecordedKeeps(w: World, s: Files, d: DecisionPayload)
    requires Inv(w, s) && (d.id in s.records ==> s.records[d.id] == d)
    requires d.proposalId in w.proposals && d == PayloadOf(w, w.proposals[d.proposalId], d.choice)
    ensures Inv(w, Recorded(s, d))
  {
    hide CatalogOk, Records;
  }

  lemma ActivatedKeeps(w: World, s: Files, p: StrategyProposal)
    requires Inv(w, s) && p.id in w.proposals && w.proposals[p.id] == p
    requires Records(s.catalog.history, PayloadOf(w, p, Adopt).id)
    ensures Inv(w, Activated(s, p))
  {
  }

  lemma PointedKeeps(w: World, s: Files, p: StrategyProposal, d: DecisionPayload)
    requires Inv(w, s) && p.id in w.proposals && w.proposals[p.id] == p && d == PayloadOf(w, p, d.choice)
    requires p.id in s.intents && s.intents[p.id].choice == d.choice && d.id in s.records && s.records[d.id] == d
    requires d.choice == Adopt ==> Records(s.catalog.history, d.id)
    ensures Inv(w, Pointed(s, d))
  {
    hide CatalogOk, Records;
  }

  // The states of one request, each one write after the previous.
  lemma PublicationKeeps(w: World, s: Files, p: StrategyProposal, d: DecisionPayload, now: string)
    requires Inv(w, s) && p.id in w.proposals && w.proposals[p.id] == p
    requires d == PayloadOf(w, p, d.choice) && (d.id in s.records ==> s.records[d.id] == d)
    requires p.id in s.intents && s.intents[p.id].choice == d.choice
    ensures forall i :: 0 <= i < |Publication(s, p, d, now)| ==> Inv(w, Publication(s, p, d, now)[i])
  {
    hide Inv, Cataloged, Records;
    var recorded := Recorded(s, d);
    RecordedKeeps(w, s, d);
    if d.choice == Decline {
      PointedKeeps(w, recorded, p, d);
    } else {
      var cataloged := Cataloged(recorded, p, d, now);
      CatalogedKeeps(w, recorded, p, d, now);
      CatalogedFrame(recorded, p, d, now);
      ActivatedKeeps(w, cataloged, p);
      PointedKeeps(w, Activated(cataloged, p), p, d);
    }
  }

  lemma CatalogedFrame(s: Files, p: StrategyProposal, d: DecisionPayload, now: string)
    ensures var t := Cataloged(s, p, d, now);
            t.intents == s.intents && t.records == s.records && t.active == s.active && t.pointers == s.pointers
  {
  }

  lemma CourseKeeps(w: World, s: Files, q: Request)
    requires Inv(w, s) && w.Valid()
    ensures var course := CourseOf(w, s, q);
            course.Through? ==> forall i :: 0 <= i < |course.states| ==> Inv(w, course.states[i])
  {
    hide Publication, Inv;
    var course := CourseOf(w, s, q);
    if course.Through? && q.proposalId !in s.pointers {
      var p := w.proposals[q.proposalId];
      var d := PayloadOf(w, p, q.choice);
      var intended := Intended(s, p, q.choice);
      if p.id !in s.intents {
        IntendedKeeps(w, s, p, q.choice);
      }
      if d.id !in s.records || s.records[d.id] == d {
        PublicationKeeps(w, if p.id in s.intents then s else intended, p, d, q.now);
      }
    }
  }

  lemma ServeKeeps(w: World, s: Files, q: Request, power: nat)
    requires Inv(w, s) && w.Valid()
    ensures Inv(w, Serve(w, s, q, power).files)
  {
    hide Inv, CourseOf;
    CourseKeeps(w, s, q);
  }

  // ----- Histories of requests -----

  datatype Step = Step(request: Request, power: nat)

  function Run(w: World, init: Files, steps: seq<Step>): Files {
    if steps == [] then init
    else
      var last := steps[|steps| - 1];
      Serve(w, Run(w, init, steps[..|steps| - 1]), last.request, last.power).files
  }

  lemma {:induction false} RunKeeps(w: World, init: Files, steps: seq<Step>)
    requires Inv(w, init) && w.Valid()
    ensures Inv(w, Run(w, init, steps))
  {
    hide Inv, Serve;
    if steps != [] {
      RunKeeps(w, init, steps[..|steps| - 1]);
      ServeKeeps(w, Run(w, init, steps[..|steps| - 1]), steps[|steps| - 1].request, steps[|steps| - 1].power);
    }
  }

  // Histories may start from nothing.
  lemma EmptyInv(w: World)
    ensures Inv(w, EMPTY)
  {
  }

  /** One entry in the history for each decision and one in the catalog for each strategy id, always. */
  lemma OneEntryEach(w: World, init: Files, steps: seq<Step>)
    requires w.Valid() && Inv(w, init)
    ensures var c := Run(w, init, steps).catalog;
            UniqueStrategies(c.strategies) && UniqueDecisions(c.history)
  {
    hide Run;
    RunKeeps(w, init, steps);
  }

  // ----- Linear activation -----

  /** One request replaces the active strategy only by the target of its approval, over the exact
      parent the proposal names or over the target itself. */
  ghost predicate Linear(w: World, before: Files, after: Files, q: Request) {
    after.active != before.active ==>
      && q.proposalId in w.proposals && q.choice == Adopt
      && var p := w.proposals[q.proposalId];
      && after.active == Some(EntryOf(p))
      && IdentityOf(w, before.active) == (p.parentId, p.parentRevision)
  }

  lemma PublicationActive(s: Files, p: StrategyProposal, d: DecisionPayload, now: string, i: nat)
    requires i < |Publication(s, p, d, now)|
    ensures var t := Publication(s, p, d, now)[i];
            && (t.active == s.active || (d.choice == Adopt && t.active == Some(EntryOf(p))))
            && (p.id == d.proposalId && d.choice == Adopt && p.id !in s.pointers && p.id in t.pointers ==>
                  t.active == Some(EntryOf(p)))
            && (forall x :: x in t.pointers && x !in s.pointers ==> x == d.proposalId && t.pointers[x] == d)
            && (forall x :: x in s.pointers && x != d.proposalId ==> x in t.pointers && t.pointers[x] == s.pointers[x])
  {
    hide Adopted;
  }

  lemma ServeLinear(w: World, s: Files, q: Request, power: nat)
    requires w.Valid()
    ensures Linear(w, s, Serve(w, s, q, power).files, q)
  {
    hide Publication, Adopted;
    var course := CourseOf(w, s, q);
    if course.Through? && q.proposalId !in s.pointers {
      var p := w.proposals[q.proposalId];
      var d := PayloadOf(w, p, q.choice);
      var start := if p.id in s.intents then [s] else [s, Intended(s, p, q.choice)];
      var intended := start[|start| - 1];
      forall i | 0 <= i < |course.states|
        ensures course.states[i].active == s.active || (q.choice == Adopt && course.states[i].active == Some(EntryOf(p)))
      {
        if i >= |start| {
          PublicationActive(intended, p, d, q.now, i - |start|);
        }
      }
    }
  }

  /** Activation is linear in every history, whatever is active at its start: each change replaces
      exactly the parent its proposal was evaluated against, so no approval ever overwrites another one
      unseen; and whatever becomes active is already listed in the history under its decision. */
  lemma ActivationIsLinear(w: World, init: Files, steps: seq<Step>, k: nat)
    requires w.Valid() && Inv(w, init) && k < |steps|
    ensures Linear(w, Run(w, init, steps[..k]), Run(w, init, steps[..k + 1]), steps[k].request)
    ensures ActiveListed(w, Run(w, init, steps[..k + 1]))
  {
    hide Run, Linear, ActiveListed, Serve;
    assert steps[..k + 1] == steps[..k] + [steps[k]];
    RunAppend(w, init, steps[..k], steps[k]);
    ServeLinear(w, Run(w, init, steps[..k]), steps[k].request, steps[k].power);
    RunKeeps(w, init, steps[..k + 1]);
  }

  lemma RunAppend(w: World, init: Files, steps: seq<Step>, step: Step)
    ensures Run(w, init, steps + [step]) == Serve(w, Run(w, init, steps), step.request, step.power).files
  {
  }

  lemma ServePublishes(w: World, s: Files, q: Request, power: nat, id: Id)
    requires w.Valid() && id !in s.pointers && id in Serve(w, s, q, power).files.pointers
    ensures id in w.proposals && id == q.proposalId
    ensures var t := Serve(w, s, q, power).files;
            t.pointers[id].choice == q.choice && (q.choice == Adopt ==> t.active == Some(EntryOf(w.proposals[id])))
  {
    hide Publication, Adopted, ApprovalError;
    var course := CourseOf(w, s, q);
    var p := w.proposals[q.proposalId];
    var d := PayloadOf(w, p, q.choice);
    var start := if p.id in s.intents then [s] else [s, Intended(s, p, q.choice)];
    var intended := start[|start| - 1];
    var i := if power < |course.states| - 1 then power else |course.states| - 1;
    if i >= |start| {
      PublicationActive(intended, p, d, q.now, i - |start|);
    }
  }

  /** No approval is lost: a published approval was the active strategy when it was published. */
  lemma {:induction false} ApprovalWasActive(w: World, init: Files, steps: seq<Step>, id: Id) returns (k: nat)
    requires w.Valid() && id !in init.pointers
    requires id in Run(w, init, steps).pointers && Run(w, init, steps).pointers[id].choice == Adopt
    ensures k <= |steps| && id in w.proposals && Run(w, init, steps[..k]).active == Some(EntryOf(w.proposals[id]))
  {
    hide Serve;
    if steps == [] {
      assert false;
    } else {
      var front, last := steps[..|steps| - 1], steps[|steps| - 1];
      var s := Run(w, init, front);
      if id in s.pointers {
        PointerStays(w, s, last.request, last.power, id);
        k := ApprovalWasActive(w, init, front, id);
        assert front[..k] == steps[..k];
      } else {
        ServePublishes(w, s, last.request, last.power, id);
        k := |steps|;
        assert steps[..k] == steps;
      }
    }
  }

  lemma PointerStays(w: World, s: Files, q: Request, power: nat, id: Id)
    requires w.Valid() && id in s.pointers
    ensures var t := Serve(w, s, q, power).files; id in t.pointers && t.pointers[id] == s.pointers[id]
  {
    hide Publication, Adopted, ApprovalError;
    var course := CourseOf(w, s, q);
    if course.Through? && q.proposalId !in s.pointers {
      var p := w.proposals[q.proposalId];
      var d := PayloadOf(w, p, q.choice);
      var start := if p.id in s.intents then [s] else [s, Intended(s, p, q.choice)];
      var i := if power < |course.states| - 1 then power else |course.states| - 1;
      if i >= |start| {
        PublicationActive(start[|start| - 1], p, d, q.now, i - |start|);
      }
    }
  }
}
