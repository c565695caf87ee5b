/** Guarantees over whole histories of the release control plane. */
module ReleaseHistory {
  import opened Contracts
  import opened ReleaseControl
  import opened ReleaseSafety

  // ----- Uniqueness and permanence -----

  /** A proposal has at most one decision ever visible, with its immutable record, and it is the one
      the first recorded intent names, built from the proposal. */
  lemma OneDecision(naming: Naming, steps: seq<Step>, k: nat, id: Id)
    requires k <= |steps|
    ensures var before, after := Run(naming, steps[..k]), Run(naming, steps);
            && (id in before.decisionPointers ==>
                  id in after.decisionPointers && after.decisionPointers[id] == before.decisionPointers[id])
            && (id in after.decisionPointers ==>
                  var d := after.decisionPointers[id];
                  && d.id in after.decisions && after.decisions[d.id] == d
                  && id in after.proposals
                  && (id in before.decisionIntents ==>
                        var i := before.decisionIntents[id];
                        DecisionIntentOf(d) == i
                        && d == BuildDecision(naming, after.proposals[id], i.choice, i.clientActionId, i.actorId)))
  {
    hide ProposalsOk, OutcomesOk, RollbacksOk, Run, BuildDecision;
    RunKeeps(naming, steps);
    RunGrows(naming, steps, k);
  }

  /** At most one outcome, on the approval of the same proposal, as the first intent names it. */
  lemma OneOutcome(naming: Naming, steps: seq<Step>, k: nat, id: Id)
    requires k <= |steps|
    ensures var before, after := Run(naming, steps[..k]), Run(naming, steps);
            && (id in before.outcomePointers ==>
                  id in after.outcomePointers && after.outcomePointers[id] == before.outcomePointers[id])
            && (id in after.outcomePointers ==>
                  var o := after.outcomePointers[id];
                  && o.id in after.outcomes && after.outcomes[o.id] == o
                  && id in after.decisionPointers && after.decisionPointers[id].body.choice == ApproveRelease
                  && o.body.decisionId == after.decisionPointers[id].id
                  && (id in before.outcomeIntents ==> OutcomeIntentOf(naming, o) == before.outcomeIntents[id]))
  {
    hide ProposalsOk, DecisionsOk, RollbacksOk, Run;
    RunKeeps(naming, steps);
    RunGrows(naming, steps, k);
  }

  /** At most one rollback, of the active outcome of the same proposal, as the first intent names it. */
  lemma OneRollback(naming: Naming, steps: seq<Step>, k: nat, id: Id)
    requires k <= |steps|
    ensures var before, after := Run(naming, steps[..k]), Run(naming, steps);
            && (id in before.rollbackPointers ==>
                  id in after.rollbackPointers && after.rollbackPointers[id] == before.rollbackPointers[id])
            && (id in after.rollbackPointers ==>
                  var r := after.rollbackPointers[id];
                  && r.id in after.rollbacks && after.rollbacks[r.id] == r && r.body.receipt.RollbackReceipt?
                  && id in after.outcomePointers && after.outcomePointers[id].body.verdict == Activated
                  && r.body.outcomeId == after.outcomePointers[id].id
                  && after.outcomePointers[id].body.activeRevision == Some(r.body.receipt.source)
                  && (id in before.rollbackIntents ==> RollbackIntentOf(naming, r) == before.rollbackIntents[id]))
  {
    hide ProposalsOk, DecisionsOk, OutcomesOk, Run;
    RunKeeps(naming, steps);
    RunGrows(naming, steps, k);
  }

  // ----- Lifecycle -----

  /** In every reachable store and under every serving pointer, deriving a lifecycle never raises, and
      it is active exactly for an active outcome whose revision is serving and which no rollback record undoes. */
  lemma LifecycleCoherent(naming: Naming, steps: seq<Step>, id: Id, active: Option<Revision>)
    requires id in Run(naming, steps).proposals
    ensures var s := Run(naming, steps);
            var lifecycle := LoadLifecycle(s, id, active);
            && lifecycle.Ok?
            && (lifecycle.value == ActiveRelease <==>
                  id in s.outcomePointers && s.outcomePointers[id].body.verdict == Activated
                  && s.outcomePointers[id].body.activeRevision == active && id !in s.rollbackPointers)
            && (lifecycle.value == PendingReview <==> id !in s.decisionPointers)
            && (lifecycle.value in {ActiveRelease, FailedValidation, RolledBack} <==> id in s.outcomePointers)
            && (id in s.rollbackPointers ==> lifecycle.value == RolledBack)
  {
    hide Run, Inv, LoadDecision, LoadOutcome, LoadRollback;
    var s := Run(naming, steps);
    RunKeeps(naming, steps);
    LoadsSucceed(naming, s, id);
    VisibleChain(naming, s, id);
  }

  // A rollback rests on an active outcome and an outcome on an approval.
  ghost predicate Chained(s: Store, id: Id) {
    && (id in s.proposals ==> s.proposals[id].id == id)
    && (id in s.outcomePointers ==>
          && id in s.decisionPointers && s.decisionPointers[id].body.choice == ApproveRelease
          && (s.outcomePointers[id].body.verdict == Activated <==> s.outcomePointers[id].body.activeRevision.Some?))
    && (id in s.rollbackPointers ==>
          && id in s.outcomePointers
          && var r, o := s.rollbackPointers[id], s.outcomePointers[id];
          && o.body.verdict == Activated && r.body.outcomeId == o.id
          && r.body.proposalRevision == o.body.proposalRevision && r.body.receipt.RollbackReceipt?
          && o.body.activeRevision == Some(r.body.receipt.source))
  }

  lemma VisibleChain(naming: Naming, s: Store, id: Id)
    requires Inv(naming, s)
    ensures Chained(s, id)
  {
    hide DecisionEntry, ProposalEntry;
  }

  /** Once recorded, a rollback stays: no later history and no move of the serving pointer undoes it. */
  lemma RollbackIsPermanent(naming: Naming, steps: seq<Step>, k: nat, id: Id, active: Option<Revision>)
    requires k <= |steps| && id in Run(naming, steps[..k]).rollbackPointers
    ensures LoadLifecycle(Run(naming, steps), id, active) == Ok(RolledBack)
  {
    hide Run, Inv, LoadLifecycle;
    OneRollback(naming, steps, k, id);
    RunKeeps(naming, steps);
    RollbackHasProposal(naming, Run(naming, steps), id);
    LifecycleCoherent(naming, steps, id, active);
  }

  lemma RollbackHasProposal(naming: Naming, s: Store, id: Id)
    requires Inv(naming, s) && id in s.rollbackPointers
    ensures id in s.proposals
  {
    hide ProposalsOk, DecisionsOk, OutcomesOk;
  }

  /** Without a record the derived rollback follows the pointer: rolled back under every other pointer
      value, active again when the pointer returns. */
  lemma DerivedRollbackFollowsPointer(naming: Naming, steps: seq<Step>, id: Id, active: Option<Revision>)
    requires var s := Run(naming, steps);
             && id in s.proposals && id in s.outcomePointers && s.outcomePointers[id].body.verdict == Activated
             && id !in s.rollbackPointers
    ensures LoadLifecycle(Run(naming, steps), id, active) ==
            Ok(if active == Run(naming, steps).outcomePointers[id].body.activeRevision then ActiveRelease else RolledBack)
  {
    hide Run, Inv, LoadDecision, LoadOutcome, LoadRollback;
    var s := Run(naming, steps);
    RunKeeps(naming, steps);
    LoadsSucceed(naming, s, id);
    VisibleChain(naming, s, id);
  }

  /** A retry of a recorded active outcome is answered exactly while the serving pointer still names
      the revision it activated: the receipt is checked before the record is looked up. */
  lemma ActiveRetry(naming: Naming, steps: seq<Step>, q: Request, power: nat)
    requires q.RecordOutcome? && q.verdict == Activated
    requires var s := Run(naming, steps);
             && q.proposalId in s.proposals && s.proposals[q.proposalId].revision == q.proposalRevision
             && q.proposalId in s.outcomePointers
             && var o := s.outcomePointers[q.proposalId];
             && o.body.verdict == Activated && o.body.receipt == q.receipt && o.body.activeRevision == q.activeRevision
             && ValidReceipt(s.proposals[q.proposalId], Activated, q.receipt, q.activeRevision, q.activeRevision)
    ensures var s := Run(naming, steps);
            var served := Serve(naming, s, q, power);
            && served.store == s
            && served.reply == if q.active == q.activeRevision then Ok(OutcomeAnswer(s.outcomePointers[q.proposalId]))
                               else Err(ValidationReceiptInvalid)
  {
    hide Run, Inv, LoadDecision, LoadOutcome, LoadRollback, ReceiptFits, BuildOutcome;
    var s := Run(naming, steps);
    RunKeeps(naming, steps);
    LoadsSucceed(naming, s, q.proposalId);
    VisibleChain(naming, s, q.proposalId);
    OutcomeIsBuilt(naming, s, q.proposalId);
    PerformNothing(s, power);
  }

  lemma OutcomeIsBuilt(naming: Naming, s: Store, id: Id)
    requires Inv(naming, s) && id in s.outcomePointers && id in s.proposals && id in s.decisionPointers
    ensures var o := s.outcomePointers[id];
            o == BuildOutcome(naming, s.proposals[id], s.decisionPointers[id], o.body.verdict, o.body.receipt, o.body.activeRevision)
  {
    hide ProposalsOk, DecisionsOk, RollbacksOk;
  }

  // ----- Client actions -----

  /** Every visible decision also has its client action's pointer. */
  ghost predicate ActionsBound(s: Store) {
    forall p :: p in s.decisionPointers ==>
      var d := s.decisionPointers[p];
      d.body.clientActionId in s.clientActions && s.clientActions[d.body.clientActionId] == d
  }

  /** A first decision on its proposal that will die right before its last write, the one that binds
      the client action, nothing else being in its way. */
  predicate Unbinds(naming: Naming, s: Store, step: Step) {
    var q := step.request;
    && q.Decide? && q.proposalId !in s.decisionPointers
    && var plan := PlanDecision(naming, s, q);
    && plan.Proceed? && step.power == |plan.writes| - 1
    && var d := plan.answer.decision;
    Free(s.decisions, d.id, d)
  }

  lemma {:induction false} OtherWrites(s: Store, writes: seq<Write>, power: nat)
    requires forall w :: w in writes ==> !w.PutDecisionPointer? && !w.PutClientAction?
    ensures var t := Perform(s, writes, power).store;
            t.decisionPointers == s.decisionPointers && t.clientActions == s.clientActions
    decreases |writes|
  {
    hide Writable, Written;
    if writes != [] && power > 0 && Writable(s, writes[0]) {
      assert writes[0] in writes && forall w :: w in writes[1..] ==> w in writes;
      OtherWrite(s, writes[0]);
      OtherWrites(Written(s, writes[0]), writes[1..], power - 1);
    }
  }

  lemma OtherWrite(s: Store, w: Write)
    requires !w.PutDecisionPointer? && !w.PutClientAction?
    ensures Written(s, w).decisionPointers == s.decisionPointers && Written(s, w).clientActions == s.clientActions
  {
  }

  // What the three writes of a publication leave, wherever they stop.
  lemma PublicationLeaves(s: Store, d: ReleaseDecision, power: nat)
    requires Free(s.decisionPointers, d.body.proposalId, d) && Free(s.clientActions, d.body.clientActionId, d)
    ensures var done := Perform(s, Publication(d), power);
            var free := Free(s.decisions, d.id, d);
            && done.store.decisionPointers ==
               (if free && power >= 2 then s.decisionPointers[d.body.proposalId := d] else s.decisionPointers)
            && done.store.clientActions ==
               (if free && power >= 3 then s.clientActions[d.body.clientActionId := d] else s.clientActions)
  {
    var one := Written(s, PutDecision(d));
    var two := Written(one, PutDecisionPointer(d));
    assert Publication(d)[1..] == [PutDecisionPointer(d), PutClientAction(d)];
    assert Publication(d)[1..][1..] == [PutClientAction(d)];
    assert [PutClientAction(d)][1..] == [];
    if power > 0 && Writable(s, PutDecision(d)) {
      assert Perform(s, Publication(d), power) == Perform(one, [PutDecisionPointer(d), PutClientAction(d)], power - 1);
      if power > 1 {
        assert Perform(one, [PutDecisionPointer(d), PutClientAction(d)], power - 1) == Perform(two, [PutClientAction(d)], power - 2);
        if power > 2 {
          PerformNothing(Written(two, PutClientAction(d)), power - 3);
        }
      }
    }
  }

  /** One decision request leaves a visible decision without its client action exactly under that condition. */
  lemma DecideBinds(naming: Naming, s: Store, q: Request, power: nat)
    requires Inv(naming, s) && ActionsBound(s) && q.Decide?
    ensures ActionsBound(Serve(naming, s, q, power).store) <==> !Unbinds(naming, s, Step(q, power))
  {
    hide Inv, Perform, Publication, LoadProposal, LoadDecision, ApprovalError, BuildDecision;
    var plan := PlanDecision(naming, s, q);
    LoadsSucceed(naming, s, q.proposalId);
    if plan.Proceed? {
      var p := LoadProposal(s, q.proposalId, q.proposalRevision).value;
      DecisionNames(naming, s, q, p);
      PerformNothing(s, power);
      if q.proposalId !in s.decisionPointers {
        UnintendedIsPublished(naming, s, q, p);
        FirstPublication(naming, s, q, p, power);
      }
    }
  }

  lemma FirstPublication(naming: Naming, s: Store, q: Request, p: Proposal, power: nat)
    requires ActionsBound(s) && q.Decide? && LoadProposal(s, q.proposalId, q.proposalRevision) == Ok(p)
    requires PlanDecision(naming, s, q).Proceed?
    requires q.proposalId !in s.decisionPointers && q.clientActionId !in s.clientActions
    ensures ActionsBound(Serve(naming, s, q, power).store) <==> !Unbinds(naming, s, Step(q, power))
  {
    hide Perform, Publication, PlanDecision, BuildDecision, ActionsBound;
    var writes, t := PlanDecision(naming, s, q).writes, Serve(naming, s, q, power).store;
    var d := BuildDecision(naming, p, q.choice, q.clientActionId, q.actorId);
    DecisionNames(naming, s, q, p);
    FirstPlan(naming, s, q, p);
    if writes == Publication(d) {
      PublicationLeaves(s, d, power);
      BoundAfter(s, d, t, Free(s.decisions, d.id, d) && power >= 2, Free(s.decisions, d.id, d) && power >= 3);
    } else {
      var w := PutDecisionIntent(DecisionIntentOf(d));
      PerformAppend(s, [w], Publication(d), power);
      IntentLeaves(s, d, power);
      if power > 0 {
        PublicationLeaves(Written(s, w), d, power - 1);
      }
      BoundAfter(s, d, t, Free(s.decisions, d.id, d) && power >= 3, Free(s.decisions, d.id, d) && power >= 4);
    }
  }

  // A first decision writes its publication, with its intent before it unless that exists.
  lemma FirstPlan(naming: Naming, s: Store, q: Request, p: Proposal)
    requires q.Decide? && LoadProposal(s, q.proposalId, q.proposalRevision) == Ok(p)
    requires PlanDecision(naming, s, q).Proceed?
    requires q.proposalId !in s.decisionPointers && q.clientActionId !in s.clientActions
    ensures var plan := PlanDecision(naming, s, q);
            var d := BuildDecision(naming, p, q.choice, q.clientActionId, q.actorId);
            && plan.answer == DecisionAnswer(d)
            && plan.writes == if q.proposalId in s.decisionIntents then Publication(d)
                              else [PutDecisionIntent(DecisionIntentOf(d))] + Publication(d)
  {
    hide Publication, LoadProposal, ApprovalError, BuildDecision;
  }

  lemma BoundAfter(s: Store, d: ReleaseDecision, t: Store, published: bool, bound: bool)
    requires ActionsBound(s) && (bound ==> published)
    requires d.body.proposalId !in s.decisionPointers && d.body.clientActionId !in s.clientActions
    requires t.decisionPointers == if published then s.decisionPointers[d.body.proposalId := d] else s.decisionPointers
    requires t.clientActions == if bound then s.clientActions[d.body.clientActionId := d] else s.clientActions
    ensures ActionsBound(t) <==> published == bound
  {
    if published && !bound {
      assert t.decisionPointers[d.body.proposalId] == d;
    }
  }

  lemma IntentLeaves(s: Store, d: ReleaseDecision, power: nat)
    requires d.body.proposalId !in s.decisionIntents
    ensures var w := PutDecisionIntent(DecisionIntentOf(d));
            && Perform(s, [w], power) ==
               (if power == 0 then Performed(s, 0, Some(Crashed)) else Performed(Written(s, w), power - 1, None))
            && var t := Written(s, w);
            t.decisionPointers == s.decisionPointers && t.clientActions == s.clientActions && t.decisions == s.decisions
  {
    hide Writable, Written, DecisionIntentOf;
    var w := PutDecisionIntent(DecisionIntentOf(d));
    assert [w][1..] == [];
    IntentWrite(s, d);
    if power > 0 {
      PerformNothing(Written(s, w), power - 1);
    }
  }

  lemma IntentWrite(s: Store, d: ReleaseDecision)
    requires d.body.proposalId !in s.decisionIntents
    ensures var w := PutDecisionIntent(DecisionIntentOf(d));
            && Writable(s, w)
            && var t := Written(s, w);
            t.decisionPointers == s.decisionPointers && t.clientActions == s.clientActions && t.decisions == s.decisions
  {
  }

  lemma DecisionNames(naming: Naming, s: Store, q: Request, p: Proposal)
    requires q.Decide? && LoadProposal(s, q.proposalId, q.proposalRevision) == Ok(p)
    ensures var d := BuildDecision(naming, p, q.choice, q.clientActionId, q.actorId);
            d.body.proposalId == q.proposalId && d.body.clientActionId == q.clientActionId && |Publication(d)| == 3
  {
  }

  // Requests of the other kinds leave decisions alone.
  lemma OtherRequests(naming: Naming, s: Store, q: Request, power: nat)
    requires !q.Decide?
    ensures var t := Serve(naming, s, q, power).store;
            t.decisionPointers == s.decisionPointers && t.clientActions == s.clientActions
  {
    hide Perform, LoadProposal, LoadDecision, LoadOutcome, LoadRollback, ValidReceipt, BuildProposal, BuildOutcome,
      BuildRollback;
    var plan := PlanOf(naming, s, q);
    if plan.Proceed? {
      OtherWrites(s, plan.writes, power);
    }
  }

  lemma StepBinds(naming: Naming, s: Store, step: Step)
    requires Inv(naming, s) && ActionsBound(s)
    ensures ActionsBound(Serve(naming, s, step.request, step.power).store) <==> !Unbinds(naming, s, step)
  {
    hide Inv, Serve;
    if step.request.Decide? {
      DecideBinds(naming, s, step.request, step.power);
      assert Step(step.request, step.power) == step;
    } else {
      OtherRequests(naming, s, step.request, step.power);
    }
  }

  ghost predicate AlwaysBound(naming: Naming, steps: seq<Step>) {
    forall k :: 0 <= k <= |steps| ==> ActionsBound(Run(naming, steps[..k]))
  }

  ghost predicate NeverUnbinds(naming: Naming, steps: seq<Step>) {
    forall i :: 0 <= i < |steps| ==> !Unbinds(naming, Run(naming, steps[..i]), steps[i])
  }

  lemma AlwaysBoundSnoc(naming: Naming, front: seq<Step>, last: Step)
    ensures AlwaysBound(naming, front + [last]) <==> AlwaysBound(naming, front) && ActionsBound(Run(naming, front + [last]))
  {
    hide Run, ActionsBound;
    var steps, n := front + [last], |front|;
    assert forall k :: 0 <= k <= n ==> front[..k] == steps[..k];
    assert steps[..n + 1] == steps;
  }

  lemma NeverUnbindsSnoc(naming: Naming, front: seq<Step>, last: Step)
    ensures NeverUnbinds(naming, front + [last]) <==>
              NeverUnbinds(naming, front) && !Unbinds(naming, Run(naming, front), last)
  {
    hide Run, Unbinds;
    var steps, n := front + [last], |front|;
    assert forall k :: 0 <= k <= n ==> front[..k] == steps[..k];
    assert front[..n] == front && steps[n] == last;
    assert forall i :: 0 <= i < n ==> steps[i] == front[i];
  }

  /** Client actions stay bound throughout a history exactly when no first decision in it is made by a
      request that lives for all of its writes but the last. */
  lemma {:induction false} ActionsBoundExactly(naming: Naming, steps: seq<Step>)
    ensures AlwaysBound(naming, steps) <==> NeverUnbinds(naming, steps)
  {
    hide *;
    if steps == [] {
      EmptyBound(naming);
    } else {
      var n := |steps| - 1;
      var front, last := steps[..n], steps[n];
      assert front + [last] == steps;
      ActionsBoundExactly(naming, front);
      AlwaysBoundSnoc(naming, front, last);
      NeverUnbindsSnoc(naming, front, last);
      RunKeeps(naming, front);
      RunAppend(naming, front, last);
      EndBound(naming, front);
      if AlwaysBound(naming, front) {
        StepBinds(naming, Run(naming, front), last);
      }
    }
  }

  lemma EndBound(naming: Naming, steps: seq<Step>)
    ensures AlwaysBound(naming, steps) ==> ActionsBound(Run(naming, steps))
  {
    hide Run, ActionsBound;
    assert steps[..|steps|] == steps;
  }

  lemma EmptyBound(naming: Naming)
    ensures AlwaysBound(naming, []) && NeverUnbinds(naming, [])
  {
  }

  /** In such histories one client action decides at most one proposal. */
  lemma OneActionOneDecision(naming: Naming, steps: seq<Step>, p: Id, q: Id)
    requires NeverUnbinds(naming, steps)
    requires var pointers := Run(naming, steps).decisionPointers;
             p in pointers && q in pointers && pointers[p].body.clientActionId == pointers[q].body.clientActionId
    ensures p == q
  {
    hide Run, NeverUnbinds, AlwaysBound, DecisionEntry, ProposalsOk, OutcomesOk, RollbacksOk;
    ActionsBoundExactly(naming, steps);
    EndBound(naming, steps);
    RunKeeps(naming, steps);
  }

  // Two rejections of different proposals under one client action, of which nothing is stored yet.
  predicate Sharing(naming: Naming, s: Store, a: Request, b: Request) {
    && a.Decide? && b.Decide? && a.choice == RejectRelease && b.choice == RejectRelease
    && a.proposalId != b.proposalId && a.clientActionId == b.clientActionId
    && LoadProposal(s, a.proposalId, a.proposalRevision).Ok? && LoadProposal(s, b.proposalId, b.proposalRevision).Ok?
    && a.proposalId !in s.decisionIntents && b.proposalId !in s.decisionIntents
    && a.proposalId !in s.decisionPointers && b.proposalId !in s.decisionPointers
    && a.clientActionId !in s.clientActions
    && var d := BuildDecision(naming, s.proposals[a.proposalId], RejectRelease, a.clientActionId, a.actorId);
    var e := BuildDecision(naming, s.proposals[b.proposalId], RejectRelease, b.clientActionId, b.actorId);
    d.id != e.id && d.id !in s.decisions && e.id !in s.decisions
  }

  /** Otherwise it can decide two: after a rejection of one proposal dies with three of its four writes
      done, the same client action decides another proposal, and from then on, in every later store,
      the first request is a conflict. */
  lemma CrashSharesAction(
    naming: Naming, steps: seq<Step>, a: Request, b: Request, power: nat, more: seq<Step>, again: nat)
    requires Sharing(naming, Run(naming, steps), a, b) && power >= 4
    ensures var s := Run(naming, steps + [Step(a, 3)] + [Step(b, power)] + more);
            && a.proposalId in s.decisionPointers && b.proposalId in s.decisionPointers
            && s.decisionPointers[a.proposalId].body.clientActionId == s.decisionPointers[b.proposalId].body.clientActionId
            && Serve(naming, s, a, again).reply == Err(DecisionIdempotencyConflict)
  {
    hide Run, Inv, Serve, LoadDecision, BuildDecision;
    var s, shared := Run(naming, steps), steps + [Step(a, 3)] + [Step(b, power)];
    var d := BuildDecision(naming, s.proposals[a.proposalId], RejectRelease, a.clientActionId, a.actorId);
    var e := BuildDecision(naming, s.proposals[b.proposalId], RejectRelease, b.clientActionId, b.actorId);
    SharedStore(naming, steps, a, b, d, e, power);
    var u := Run(naming, shared + more);
    assert (shared + more)[..|shared|] == shared;
    RunGrows(naming, shared + more, |shared|);
    RunKeeps(naming, shared + more);
    LoadsSucceed(naming, u, a.proposalId);
    Conflicts(naming, u, a, d, e, again);
    BuiltFor(naming, s.proposals[a.proposalId], a);
    BuiltFor(naming, s.proposals[b.proposalId], b);
  }

  lemma BuiltFor(naming: Naming, p: Proposal, q: Request)
    requires q.Decide?
    ensures BuildDecision(naming, p, q.choice, q.clientActionId, q.actorId).body.clientActionId == q.clientActionId
  {
  }

  lemma SharedStore(
    naming: Naming, steps: seq<Step>, a: Request, b: Request, d: ReleaseDecision, e: ReleaseDecision, power: nat)
    requires Sharing(naming, Run(naming, steps), a, b) && power >= 4
    requires var s := Run(naming, steps);
             && d == BuildDecision(naming, s.proposals[a.proposalId], RejectRelease, a.clientActionId, a.actorId)
             && e == BuildDecision(naming, s.proposals[b.proposalId], RejectRelease, b.clientActionId, b.actorId)
    ensures var s, t := Run(naming, steps), Run(naming, steps + [Step(a, 3)] + [Step(b, power)]);
            && t.proposals == s.proposals
            && a.proposalId in t.decisionPointers && t.decisionPointers[a.proposalId] == d
            && b.proposalId in t.decisionPointers && t.decisionPointers[b.proposalId] == e
            && a.clientActionId in t.clientActions && t.clientActions[a.clientActionId] == e
  {
    hide Run, Serve, BuildDecision;
    FirstRejection(naming, Run(naming, steps), a, d, 4);
    RunAppend(naming, steps, Step(a, 3));
    FirstRejection(naming, Run(naming, steps + [Step(a, 3)]), b, e, power);
    RunAppend(naming, steps + [Step(a, 3)], Step(b, power));
  }

  lemma RunAppend(naming: Naming, steps: seq<Step>, step: Step)
    ensures Run(naming, steps + [step]) == Serve(naming, Run(naming, steps), step.request, step.power).store
  {
  }

  // A first rejection performs all four writes.
  lemma FreshPlan(naming: Naming, s: Store, q: Request, d: ReleaseDecision)
    requires q.Decide? && q.choice == RejectRelease && LoadProposal(s, q.proposalId, q.proposalRevision).Ok?
    requires d == BuildDecision(naming, s.proposals[q.proposalId], RejectRelease, q.clientActionId, q.actorId)
    requires q.proposalId !in s.decisionIntents && q.proposalId !in s.decisionPointers && q.clientActionId !in s.clientActions
    ensures PlanOf(naming, s, q) == Proceed([PutDecisionIntent(DecisionIntentOf(d))] + Publication(d), DecisionAnswer(d))
    ensures d.body.proposalId == q.proposalId && d.body.clientActionId == q.clientActionId
  {
  }

  /** Writes that can all be made are made, one after the other, while the process lives. */
  lemma {:induction false} PerformAll(s: Store, writes: seq<Write>, power: nat)
    requires AllWritable(s, writes) && power >= |writes|
    ensures Perform(s, writes, power) == Performed(Chain(s, writes), power - |writes|, None)
    decreases |writes|
  {
    hide Writable, Written;
    if writes != [] {
      PerformAll(Written(s, writes[0]), writes[1..], power - 1);
    }
  }

  function Chain(s: Store, writes: seq<Write>): Store
    decreases |writes|
  {
    if writes == [] then s else Chain(Written(s, writes[0]), writes[1..])
  }

  predicate AllWritable(s: Store, writes: seq<Write>)
    decreases |writes|
  {
    writes == [] || (Writable(s, writes[0]) && AllWritable(Written(s, writes[0]), writes[1..]))
  }

  // A process that dies has performed exactly the writes it lived for.
  lemma {:induction false} PerformDies(s: Store, writes: seq<Write>, power: nat)
    requires AllWritable(s, writes) && power < |writes|
    ensures Perform(s, writes, power) == Performed(Chain(s, writes[..power]), 0, Some(Crashed))
    ensures AllWritable(s, writes[..power])
    decreases |writes|
  {
    hide Writable, Written;
    if power > 0 {
      PerformDies(Written(s, writes[0]), writes[1..], power - 1);
      assert writes[..power][1..] == writes[1..][..power - 1];
    }
  }

  lemma ChainFour(s: Store, a: Write, b: Write, c: Write, d: Write)
    ensures Chain(s, [a, b, c]) == Written(Written(Written(s, a), b), c)
    ensures Chain(s, [a, b, c, d]) == Written(Written(Written(Written(s, a), b), c), d)
    ensures AllWritable(s, [a, b, c, d]) <==>
              && Writable(s, a) && Writable(Written(s, a), b) && Writable(Written(Written(s, a), b), c)
              && Writable(Written(Written(Written(s, a), b), c), d)
  {
    hide Written, Writable;
    assert [a, b, c, d][1..] == [b, c, d] && [b, c, d][1..] == [c, d] && [c, d][1..] == [d] && [d][1..] == [];
    assert [a, b, c][1..] == [b, c] && [b, c][1..] == [c] && [c][1..] == [];
    assert Chain(s, [a, b, c]) == Chain(Written(s, a), [b, c]) == Chain(Written(Written(s, a), b), [c]);
    assert Chain(s, [a, b, c, d]) == Chain(Written(s, a), [b, c, d]) == Chain(Written(Written(s, a), b), [c, d]);
    assert Chain(Written(Written(s, a), b), [c, d]) == Chain(Written(Written(Written(s, a), b), c), [d]);
    assert AllWritable(s, [a, b, c, d]) <==> Writable(s, a) && AllWritable(Written(s, a), [b, c, d]);
    assert AllWritable(Written(s, a), [b, c, d]) <==> Writable(Written(s, a), b) && AllWritable(Written(Written(s, a), b), [c, d]);
    assert AllWritable(Written(Written(s, a), b), [c, d]) <==>
             Writable(Written(Written(s, a), b), c) && AllWritable(Written(Written(Written(s, a), b), c), [d]);
  }

  // A first rejection on fresh ids: what three and what all four writes leave.
  lemma FirstRejection(naming: Naming, s: Store, q: Request, d: ReleaseDecision, power: nat)
    requires q.Decide? && q.choice == RejectRelease && LoadProposal(s, q.proposalId, q.proposalRevision).Ok?
    requires d == BuildDecision(naming, s.proposals[q.proposalId], RejectRelease, q.clientActionId, q.actorId)
    requires q.proposalId !in s.decisionIntents && q.proposalId !in s.decisionPointers
    requires q.clientActionId !in s.clientActions && d.id !in s.decisions && power >= 4
    ensures var three := s.(decisionIntents := s.decisionIntents[q.proposalId := DecisionIntentOf(d)],
                            decisions := s.decisions[d.id := d], decisionPointers := s.decisionPointers[q.proposalId := d]);
            && Serve(naming, s, q, 3).store == three
            && Serve(naming, s, q, power).store == three.(clientActions := s.clientActions[q.clientActionId := d])
  {
    hide Perform, PlanOf, AllWritable, Chain, BuildDecision, LoadProposal;
    FreshPlan(naming, s, q, d);
    var a, b, c, e := PutDecisionIntent(DecisionIntentOf(d)), PutDecision(d), PutDecisionPointer(d), PutClientAction(d);
    var writes := [a, b, c, e];
    assert [a] + Publication(d) == writes;
    ChainFour(s, a, b, c, e);
    PerformDies(s, writes, 3);
    assert writes[..3] == [a, b, c];
    PerformAll(s, writes, power);
  }

  lemma Conflicts(naming: Naming, s: Store, q: Request, d: ReleaseDecision, e: ReleaseDecision, power: nat)
    requires q.Decide? && LoadProposal(s, q.proposalId, q.proposalRevision).Ok?
    requires LoadDecision(s, q.proposalId).Ok? && d != e
    requires d == BuildDecision(naming, s.proposals[q.proposalId], q.choice, q.clientActionId, q.actorId)
    requires q.clientActionId in s.clientActions && s.clientActions[q.clientActionId] == e
    ensures Serve(naming, s, q, power).reply == Err(DecisionIdempotencyConflict)
  {
  }
}
