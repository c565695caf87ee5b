/** Retries: a proposal is anchored by its first intent, and every request that died can be
    repeated to reach the state and the answer of an undisturbed one. */
module ReleaseRecovery {
  import opened Contracts
  import opened ReleaseControl
  import opened ReleaseSafety
  import opened ReleaseHistory

  // ----- Proposals -----

  ghost predicate DistinctRevisions(naming: Naming) {
    forall a, b :: naming.revision(a) == naming.revision(b) ==> a == b
  }

  lemma FirstIntent(naming: Naming, s: Store, analysis: Analysis, active: Option<Revision>, power: nat)
    requires analysis.traceId !in s.proposalIntents
    ensures var t := Serve(naming, s, Propose(analysis, active), power).store;
            analysis.traceId in t.proposalIntents ==>
              t.proposalIntents[analysis.traceId] == ProposalIntentOf(BuildProposal(naming, analysis, active))
  {
    var p := BuildProposal(naming, analysis, active);
    var first := PutProposalIntent(ProposalIntentOf(p));
    if power > 0 {
      var writes := [first, PutProposal(p)];
      assert writes[1..] == [PutProposal(p)];
      assert Perform(s, writes, power) == Perform(Written(s, first), writes[1..], power - 1);
      PerformGrows(Written(s, first), writes[1..], power - 1);
    }
  }

  /** Every answered call for a trace returns the proposal of the call that first recorded its intent,
      with the serving revision that call saw, however often either died and wherever serving moved. */
  lemma ProposalIsStable(naming: Naming, steps: seq<Step>, m: nat, j: nat)
    requires DistinctRevisions(naming) && m <= j < |steps|
    requires steps[m].request.Propose? && steps[j].request.Propose?
    requires steps[m].request.analysis.traceId == steps[j].request.analysis.traceId
    requires steps[m].request.analysis.traceId !in Run(naming, steps[..m]).proposalIntents
    requires steps[m].request.analysis.traceId in Run(naming, steps[..m + 1]).proposalIntents
    ensures var served := Serve(naming, Run(naming, steps[..j]), steps[j].request, steps[j].power);
            served.reply.Ok? ==>
              served.reply.value ==
              ProposalAnswer(BuildProposal(naming, steps[m].request.analysis, steps[m].request.active))
  {
    hide Run, Serve, BuildProposal, Inv;
    var first, later := steps[m].request, steps[j].request;
    var s := Run(naming, steps[..j]);
    assert steps[..m + 1] == steps[..m] + [steps[m]];
    RunAppend(naming, steps[..m], steps[m]);
    FirstIntent(naming, Run(naming, steps[..m]), first.analysis, first.active, steps[m].power);
    if m < j {
      assert steps[..j][..m + 1] == steps[..m + 1];
      RunGrows(naming, steps[..j], m + 1);
      SameRevision(naming, first, later);
    }
    ProposalAnswered(naming, s, later, steps[j].power);
  }

  lemma ProposalAnswered(naming: Naming, s: Store, q: Request, power: nat)
    requires q.Propose?
    ensures var served := Serve(naming, s, q, power);
            served.reply.Ok? ==>
              if q.analysis.traceId in s.proposalIntents then
                var i := s.proposalIntents[q.analysis.traceId];
                var p := BuildProposal(naming, q.analysis, i.parent);
                served.reply.value == ProposalAnswer(p) && p.revision == i.proposalRevision
              else served.reply.value == ProposalAnswer(BuildProposal(naming, q.analysis, q.active))
  {
  }

  // The revision hashes the whole body, so the intent pins the analysis.
  lemma SameRevision(naming: Naming, first: Request, later: Request)
    requires DistinctRevisions(naming) && first.Propose? && later.Propose?
    ensures var p := BuildProposal(naming, first.analysis, first.active);
            var i := ProposalIntentOf(p);
            var q := BuildProposal(naming, later.analysis, i.parent);
            i.proposalRevision == p.revision && (q.revision == p.revision ==> q == p)
  {
  }

  ghost predicate DistinctProposals(naming: Naming) {
    DistinctRevisions(naming) && forall a, b :: naming.proposal(a) == naming.proposal(b) ==> a == b
  }

  /** Once a trace has its intent, in every later store and wherever serving is, the same analysis is
      always answered with that proposal and a different one for the trace is always refused. */
  lemma ProposalIsAnswered(naming: Naming, steps: seq<Step>, m: nat, q: Request, power: nat)
    requires DistinctProposals(naming) && m < |steps|
    requires steps[m].request.Propose? && q.Propose? && steps[m].request.analysis.traceId == q.analysis.traceId
    requires q.analysis.traceId !in Run(naming, steps[..m]).proposalIntents
    requires q.analysis.traceId in Run(naming, steps[..m + 1]).proposalIntents
    ensures var first := steps[m].request;
            Serve(naming, Run(naming, steps), q, power).reply ==
            if q.analysis != first.analysis then Err(ProposalIntentMismatch)
            else if power == 0 then Err(Crashed)
            else Ok(ProposalAnswer(BuildProposal(naming, first.analysis, first.active)))
  {
    hide Run, Serve, Inv, BuildProposal;
    var first, s := steps[m].request, Run(naming, steps);
    assert steps[..m + 1] == steps[..m] + [steps[m]];
    RunAppend(naming, steps[..m], steps[m]);
    FirstIntent(naming, Run(naming, steps[..m]), first.analysis, first.active, steps[m].power);
    RunGrows(naming, steps, m + 1);
    RunKeeps(naming, steps);
    IntentAnswers(naming, s, q, first, power);
  }

  lemma IntentAnswers(naming: Naming, s: Store, q: Request, first: Request, power: nat)
    requires DistinctProposals(naming) && Inv(naming, s) && q.Propose? && first.Propose?
    requires q.analysis.traceId in s.proposalIntents
    requires s.proposalIntents[q.analysis.traceId] == ProposalIntentOf(BuildProposal(naming, first.analysis, first.active))
    ensures Serve(naming, s, q, power).reply ==
            if q.analysis != first.analysis then Err(ProposalIntentMismatch)
            else if power == 0 then Err(Crashed)
            else Ok(ProposalAnswer(BuildProposal(naming, first.analysis, first.active)))
  {
    hide DecisionsOk, OutcomesOk, RollbacksOk;
    var p := BuildProposal(naming, first.analysis, first.active);
    if q.analysis == first.analysis {
      assert Writable(s, PutProposal(p));
      assert [PutProposal(p)][1..] == [];
      if power > 0 {
        PerformNothing(Written(s, PutProposal(p)), power - 1);
      }
    }
  }

  // ----- Writing again -----

  /** The file already has this content. */
  predicate Present(s: Store, w: Write) {
    match w
    case PutProposalIntent(i) => i.traceId in s.proposalIntents && s.proposalIntents[i.traceId] == i
    case PutProposal(p) => p.id in s.proposals && s.proposals[p.id] == p
    case PutDecisionIntent(i) => i.proposalId in s.decisionIntents && s.decisionIntents[i.proposalId] == i
    case PutDecision(d) => d.id in s.decisions && s.decisions[d.id] == d
    case PutDecisionPointer(d) => d.body.proposalId in s.decisionPointers && s.decisionPointers[d.body.proposalId] == d
    case PutClientAction(d) => d.body.clientActionId in s.clientActions && s.clientActions[d.body.clientActionId] == d
    case PutOutcomeIntent(i) => i.proposalId in s.outcomeIntents && s.outcomeIntents[i.proposalId] == i
    case PutOutcome(o) => o.id in s.outcomes && s.outcomes[o.id] == o
    case PutOutcomePointer(o) => o.body.proposalId in s.outcomePointers && s.outcomePointers[o.body.proposalId] == o
    case PutRollbackIntent(i) => i.proposalId in s.rollbackIntents && s.rollbackIntents[i.proposalId] == i
    case PutRollback(r) => r.id in s.rollbacks && s.rollbacks[r.id] == r
    case PutRollbackPointer(r) => r.body.proposalId in s.rollbackPointers && s.rollbackPointers[r.body.proposalId] == r
  }

  lemma PresentAgain(s: Store, w: Write)
    requires Present(s, w)
    ensures Writable(s, w) && Written(s, w) == s
  {
    match w {
      case PutProposalIntent(i) => assert s.proposalIntents[i.traceId := i] == s.proposalIntents;
      case PutProposal(p) => assert s.proposals[p.id := p] == s.proposals;
      case PutDecisionIntent(i) => assert s.decisionIntents[i.proposalId := i] == s.decisionIntents;
      case PutDecision(d) => assert s.decisions[d.id := d] == s.decisions;
      case PutDecisionPointer(d) => assert s.decisionPointers[d.body.proposalId := d] == s.decisionPointers;
      case PutClientAction(d) => assert s.clientActions[d.body.clientActionId := d] == s.clientActions;
      case PutOutcomeIntent(i) => assert s.outcomeIntents[i.proposalId := i] == s.outcomeIntents;
      case PutOutcome(o) => assert s.outcomes[o.id := o] == s.outcomes;
      case PutOutcomePointer(o) => assert s.outcomePointers[o.body.proposalId := o] == s.outcomePointers;
      case PutRollbackIntent(i) => assert s.rollbackIntents[i.proposalId := i] == s.rollbackIntents;
      case PutRollback(r) => assert s.rollbacks[r.id := r] == s.rollbacks;
      case PutRollbackPointer(r) => assert s.rollbackPointers[r.body.proposalId := r] == s.rollbackPointers;
    }
  }

  lemma WrittenPresent(s: Store, w: Write)
    ensures Present(Written(s, w), w)
  {
  }

  lemma PresentStays(s: Store, t: Store, w: Write)
    requires Grows(s, t) && Present(s, w)
    ensures Present(t, w)
  {
  }

  lemma {:induction false} ChainGrows(s: Store, writes: seq<Write>)
    requires AllWritable(s, writes)
    ensures Grows(s, Chain(s, writes))
    ensures forall w :: w in writes ==> Present(Chain(s, writes), w)
    decreases |writes|
  {
    hide Grows, Present, Writable, Written;
    GrowsReflexive(s);
    if writes != [] {
      var w, t := writes[0], Written(s, writes[0]);
      ChainGrows(t, writes[1..]);
      WriteGrows(s, w);
      GrowsTransitive(s, t, Chain(s, writes));
      WrittenPresent(s, w);
      PresentStays(t, Chain(s, writes), w);
      assert forall x :: x in writes <==> x == w || x in writes[1..];
    }
  }

  lemma {:induction false} ChainSplit(s: Store, a: seq<Write>, b: seq<Write>)
    ensures Chain(s, a + b) == Chain(Chain(s, a), b)
    ensures AllWritable(s, a + b) <==> AllWritable(s, a) && AllWritable(Chain(s, a), b)
    decreases |a|
  {
    hide Writable, Written;
    if a == [] {
      assert a + b == b;
    } else {
      assert (a + b)[1..] == a[1..] + b;
      ChainSplit(Written(s, a[0]), a[1..], b);
    }
  }

  lemma {:induction false} ChainSkips(s: Store, a: seq<Write>, b: seq<Write>)
    requires forall w :: w in a ==> Present(s, w)
    ensures Chain(s, a + b) == Chain(s, b) && (AllWritable(s, a + b) <==> AllWritable(s, b))
    decreases |a|
  {
    hide Writable, Written, Present;
    if a == [] {
      assert a + b == b;
    } else {
      assert (a + b)[1..] == a[1..] + b && a[0] in a && forall w :: w in a[1..] ==> w in a;
      PresentAgain(s, a[0]);
      ChainSkips(s, a[1..], b);
    }
  }

  lemma {:induction false} CompletedWrites(s: Store, writes: seq<Write>, power: nat)
    requires Perform(s, writes, power).stop.None?
    ensures AllWritable(s, writes) && |writes| <= power && Perform(s, writes, power).store == Chain(s, writes)
    decreases |writes|
  {
    hide Writable, Written;
    if writes != [] {
      CompletedWrites(Written(s, writes[0]), writes[1..], power - 1);
    }
  }

  /** From anywhere inside a list of writes, the whole list, or all of it but its first write once
      that one is done, leads to the same store. */
  lemma ResumeConverges(s: Store, writes: seq<Write>, k: nat, again: seq<Write>)
    requires AllWritable(s, writes) && k <= |writes|
    requires again == writes || (k >= 1 && again == writes[1..]) || (k == |writes| && again == [])
    ensures var t := Chain(s, writes[..k]);
            AllWritable(t, again) && Chain(t, again) == Chain(s, writes)
  {
    hide Writable, Written, Present, Chain, AllWritable;
    var t, done, rest := Chain(s, writes[..k]), writes[..k], writes[k..];
    assert writes == done + rest;
    ChainSplit(s, done, rest);
    ChainGrows(s, done);
    ChainSkips(t, done, rest);
    if k >= 1 {
      assert writes[1..] == done[1..] + rest && forall w :: w in done[1..] ==> w in done;
      ChainSkips(t, done[1..], rest);
    }
    if k == |writes| {
      assert rest == [];
    }
  }

  // ----- Planning again -----

  // What the second plan may be, k writes into the first.
  ghost predicate Resumes(first: Plan, k: nat, again: Plan)
    requires first.Proceed?
  {
    && again.Proceed? && again.answer == first.answer
    && (again.writes == first.writes || (1 <= k <= |first.writes| && again.writes == first.writes[1..])
        || (k == |first.writes| && again.writes == []))
  }

  // What planning a proposal reads, after each write of one.
  lemma ProposalWrites(s: Store, p: Proposal)
    ensures Written(s, PutProposalIntent(ProposalIntentOf(p))).proposalIntents ==
            s.proposalIntents[p.body.analysis.traceId := ProposalIntentOf(p)]
    ensures Written(s, PutProposal(p)).proposalIntents == s.proposalIntents
  {
  }

  lemma ProposalFields(s: Store, p: Proposal, k: nat)
    requires k <= 2
    ensures Chain(s, [PutProposal(p)]).proposalIntents == s.proposalIntents
    ensures k >= 1 ==> Chain(s, [PutProposalIntent(ProposalIntentOf(p)), PutProposal(p)][..k]).proposalIntents ==
                       s.proposalIntents[p.body.analysis.traceId := ProposalIntentOf(p)]
  {
    hide Chain, Written, ProposalIntentOf;
    ChainUpToFour(s, [PutProposal(p)], 1);
    assert [PutProposal(p)][..1] == [PutProposal(p)];
    ChainUpToFour(s, [PutProposalIntent(ProposalIntentOf(p)), PutProposal(p)], k);
    ProposalWrites(s, p);
    ProposalWrites(Written(s, PutProposalIntent(ProposalIntentOf(p))), p);
  }

  lemma ProposalReplanned(naming: Naming, s: Store, q: Request, k: nat)
    requires q.Propose? && PlanOf(naming, s, q).Proceed? && k <= |PlanOf(naming, s, q).writes|
    ensures var plan := PlanOf(naming, s, q);
            Resumes(plan, k, PlanOf(naming, Chain(s, plan.writes[..k]), q))
  {
    hide Chain, Written, Writable, ProposalIntentOf, BuildProposal, IntentMatches;
    var plan := PlanOf(naming, s, q);
    ChainFirst(s, plan.writes[..0]);
    if k > 0 {
      var known := q.analysis.traceId in s.proposalIntents;
      var parent := if known then s.proposalIntents[q.analysis.traceId].parent else q.active;
      var p := BuildProposal(naming, q.analysis, parent);
      BuiltFor(naming, q.analysis, parent);
      if known {
        ProposalFields(s, p, 0);
        assert plan.writes[..k] == [PutProposal(p)];
      } else {
        ProposalFields(s, p, k);
        assert plan.writes[1..] == [PutProposal(p)];
      }
    }
  }

  lemma BuiltFor(naming: Naming, analysis: Analysis, parent: Option<Revision>)
    ensures var p := BuildProposal(naming, analysis, parent);
            var i := ProposalIntentOf(p);
            && p.body.analysis == analysis && p.body.parent == parent && i.parent == parent
            && i.proposalId == p.id && i.proposalRevision == p.revision && IntentMatches(i, analysis)
  {
  }

  lemma ChainUpToFour(s: Store, writes: seq<Write>, k: nat)
    requires k <= |writes| <= 4
    ensures Chain(s, writes[..k]) ==
            if k <= 2 then Chain(s, writes[..k])
            else if k == 3 then Written(Written(Written(s, writes[0]), writes[1]), writes[2])
            else Written(Written(Written(Written(s, writes[0]), writes[1]), writes[2]), writes[3])
    ensures k == 0 ==> Chain(s, writes[..k]) == s
    ensures k == 1 ==> Chain(s, writes[..k]) == Written(s, writes[0])
    ensures k == 2 ==> Chain(s, writes[..k]) == Written(Written(s, writes[0]), writes[1])
  {
    hide Written, Chain;
    ChainFirst(s, writes[..k]);
    if k >= 1 {
      var t := Written(s, writes[0]);
      assert writes[..k][1..] == writes[1..k];
      ChainFirst(t, writes[1..k]);
      if k >= 2 {
        assert writes[1..k][1..] == writes[2..k];
        ChainFirst(Written(t, writes[1]), writes[2..k]);
        if k >= 3 {
          assert writes[2..k][1..] == writes[3..k];
          ChainFirst(Written(Written(t, writes[1]), writes[2]), writes[3..k]);
          if k == 4 {
            assert writes[3..k][1..] == [];
            ChainFirst(Written(Written(Written(t, writes[1]), writes[2]), writes[3]), []);
          }
        }
      }
    }
  }

  lemma ChainFirst(s: Store, writes: seq<Write>)
    ensures Chain(s, writes) == if writes == [] then s else Chain(Written(s, writes[0]), writes[1..])
  {
  }

  // What planning a decision reads, after each write of one.
  lemma DecisionWrites(s: Store, d: ReleaseDecision)
    ensures var t := Written(s, PutDecisionIntent(DecisionIntentOf(d)));
            && t.decisionIntents == s.decisionIntents[d.body.proposalId := DecisionIntentOf(d)]
            && t.decisionPointers == s.decisionPointers && t.clientActions == s.clientActions
    ensures var t := Written(s, PutDecision(d));
            && t.decisionIntents == s.decisionIntents
            && t.decisionPointers == s.decisionPointers && t.clientActions == s.clientActions
    ensures var t := Written(s, PutDecisionPointer(d));
            && t.decisionIntents == s.decisionIntents
            && t.decisionPointers == s.decisionPointers[d.body.proposalId := d] && t.clientActions == s.clientActions
    ensures var t := Written(s, PutClientAction(d));
            && t.decisionIntents == s.decisionIntents
            && t.decisionPointers == s.decisionPointers && t.clientActions == s.clientActions[d.body.clientActionId := d]
  {
  }

  lemma PublicationFields(s: Store, d: ReleaseDecision, k: nat)
    requires k <= 3
    ensures |Publication(d)| == 3
    ensures var t := Chain(s, Publication(d)[..k]);
            && t.decisionIntents == s.decisionIntents
            && t.decisionPointers == (if k >= 2 then s.decisionPointers[d.body.proposalId := d] else s.decisionPointers)
            && t.clientActions == (if k >= 3 then s.clientActions[d.body.clientActionId := d] else s.clientActions)
  {
    hide Chain, Written;
    ChainUpToFour(s, Publication(d), k);
    DecisionWrites(s, d);
    var one := Written(s, PutDecision(d));
    DecisionWrites(one, d);
    DecisionWrites(Written(one, PutDecisionPointer(d)), d);
  }

  lemma IntendedFields(s: Store, d: ReleaseDecision, k: nat)
    requires 1 <= k <= 4
    ensures var t := Chain(s, ([PutDecisionIntent(DecisionIntentOf(d))] + Publication(d))[..k]);
            && t.decisionIntents == s.decisionIntents[d.body.proposalId := DecisionIntentOf(d)]
            && t.decisionPointers == (if k >= 3 then s.decisionPointers[d.body.proposalId := d] else s.decisionPointers)
            && t.clientActions == (if k >= 4 then s.clientActions[d.body.clientActionId := d] else s.clientActions)
  {
    hide Chain, Written, Publication;
    var w := PutDecisionIntent(DecisionIntentOf(d));
    PublicationFields(Written(s, w), d, k - 1);
    DecisionWrites(s, d);
    ChainFirst(s, ([w] + Publication(d))[..k]);
    assert ([w] + Publication(d))[..k][1..] == Publication(d)[..k - 1];
  }

  lemma NoWritesReplanned(naming: Naming, s: Store, q: Request)
    requires PlanOf(naming, s, q).Proceed? && PlanOf(naming, s, q).writes == []
    ensures var plan := PlanOf(naming, s, q);
            Resumes(plan, 0, PlanOf(naming, Chain(s, plan.writes[..0]), q))
  {
  }

  lemma DecisionReplanned(naming: Naming, s: Store, q: Request, k: nat)
    requires q.Decide? && Inv(naming, s) && PlanOf(naming, s, q).Proceed? && k <= |PlanOf(naming, s, q).writes|
    requires Inv(naming, Chain(s, PlanOf(naming, s, q).writes[..k]))
    ensures var plan := PlanOf(naming, s, q);
            Resumes(plan, k, PlanOf(naming, Chain(s, plan.writes[..k]), q))
  {
    hide Inv, LoadDecision, ApprovalError, BuildDecision, LoadProposal, Chain, DecisionIntentOf, Publication;
    var plan := PlanOf(naming, s, q);
    var t := Chain(s, plan.writes[..k]);
    var p := LoadProposal(s, q.proposalId, q.proposalRevision).value;
    var d := BuildDecision(naming, p, q.choice, q.clientActionId, q.actorId);
    DecisionNames(naming, s, q, p);
    UnintendedIsPublished(naming, s, q, p);
    LoadsSucceed(naming, s, q.proposalId);
    LoadsSucceed(naming, t, q.proposalId);
    SameProposals(naming, s, q, k);
    if plan.writes == [] {
      NoWritesReplanned(naming, s, q);
    } else if plan.writes == Publication(d) {
      PublicationFields(s, d, 0);
      PublicationFields(s, d, k);
    } else {
      PublicationFields(s, d, 0);
      if k == 0 {
        ChainFirst(s, plan.writes[..k]);
      } else {
        IntendedFields(s, d, k);
      }
      assert plan.writes[1..] == Publication(d);
    }
  }

  lemma SameProposals(naming: Naming, s: Store, q: Request, k: nat)
    requires !q.Propose? && PlanOf(naming, s, q).Proceed? && k <= |PlanOf(naming, s, q).writes|
    ensures var t := Chain(s, PlanOf(naming, s, q).writes[..k]);
            t.proposals == s.proposals
            && LoadProposal(t, q.proposalId, q.proposalRevision) == LoadProposal(s, q.proposalId, q.proposalRevision)
  {
    hide LoadProposal, LoadDecision, LoadOutcome, LoadRollback, BuildDecision, BuildOutcome, BuildRollback,
      ValidReceipt, ApprovalError, Chain;
    var writes := PlanOf(naming, s, q).writes;
    assert forall w :: w in writes ==> !w.PutProposal?;
    NoProposalWrites(s, writes[..k]);
    LoadProposalReads(s, Chain(s, writes[..k]), q.proposalId, q.proposalRevision);
  }

  lemma {:induction false} NoProposalWrites(s: Store, writes: seq<Write>)
    requires forall w :: w in writes ==> !w.PutProposal?
    ensures Chain(s, writes).proposals == s.proposals
    decreases |writes|
  {
    hide Written;
    if writes != [] {
      assert writes[0] in writes && forall w :: w in writes[1..] ==> w in writes;
      KeepsTheProposals(s, writes[0]);
      NoProposalWrites(Written(s, writes[0]), writes[1..]);
    }
  }

  lemma KeepsTheProposals(s: Store, w: Write)
    requires !w.PutProposal?
    ensures Written(s, w).proposals == s.proposals
  {
  }

  lemma LoadProposalReads(s: Store, t: Store, id: Id, revision: string)
    requires s.proposals == t.proposals
    ensures LoadProposal(s, id, revision) == LoadProposal(t, id, revision)
  {
  }

  // What planning an outcome reads, after each write of one.
  lemma OutcomeWrites(naming: Naming, s: Store, o: ReleaseOutcome)
    ensures var t := Written(s, PutOutcomeIntent(OutcomeIntentOf(naming, o)));
            && t.outcomeIntents == s.outcomeIntents[o.body.proposalId := OutcomeIntentOf(naming, o)]
            && t.outcomePointers == s.outcomePointers && t.decisionPointers == s.decisionPointers
    ensures var t := Written(s, PutOutcome(o));
            && t.outcomeIntents == s.outcomeIntents
            && t.outcomePointers == s.outcomePointers && t.decisionPointers == s.decisionPointers
    ensures var t := Written(s, PutOutcomePointer(o));
            && t.outcomeIntents == s.outcomeIntents
            && t.outcomePointers == s.outcomePointers[o.body.proposalId := o] && t.decisionPointers == s.decisionPointers
  {
  }

  lemma OutcomeFields(naming: Naming, s: Store, o: ReleaseOutcome, k: nat)
    requires k <= 3
    ensures |OutcomePublication(o)| == 2
    ensures k <= 2 ==>
              var t := Chain(s, OutcomePublication(o)[..k]);
              && t.outcomeIntents == s.outcomeIntents && t.decisionPointers == s.decisionPointers
              && t.outcomePointers == (if k >= 2 then s.outcomePointers[o.body.proposalId := o] else s.outcomePointers)
    ensures k >= 1 ==>
              var t := Chain(s, ([PutOutcomeIntent(OutcomeIntentOf(naming, o))] + OutcomePublication(o))[..k]);
              && t.outcomeIntents == s.outcomeIntents[o.body.proposalId := OutcomeIntentOf(naming, o)]
              && t.decisionPointers == s.decisionPointers
              && t.outcomePointers == (if k >= 3 then s.outcomePointers[o.body.proposalId := o] else s.outcomePointers)
  {
    hide Chain, Written, OutcomeIntentOf;
    var w := PutOutcomeIntent(OutcomeIntentOf(naming, o));
    if k <= 2 {
      ChainUpToFour(s, OutcomePublication(o), k);
    }
    ChainUpToFour(s, [w] + OutcomePublication(o), k);
    OutcomeWrites(naming, s, o);
    OutcomeWrites(naming, Written(s, w), o);
    OutcomeWrites(naming, Written(s, PutOutcome(o)), o);
    OutcomeWrites(naming, Written(Written(s, w), PutOutcome(o)), o);
  }

  lemma OutcomeNames(naming: Naming, p: Proposal, d: ReleaseDecision, q: Request)
    requires q.RecordOutcome? && p.id == q.proposalId
    ensures var o := BuildOutcome(naming, p, d, q.verdict, q.receipt, q.activeRevision);
            o.body.proposalId == q.proposalId && OutcomeIntentOf(naming, o).proposalId == q.proposalId
  {
  }

  lemma OutcomeReplanned(naming: Naming, s: Store, q: Request, k: nat)
    requires q.RecordOutcome? && Inv(naming, s) && PlanOf(naming, s, q).Proceed? && k <= |PlanOf(naming, s, q).writes|
    requires Inv(naming, Chain(s, PlanOf(naming, s, q).writes[..k]))
    ensures var plan := PlanOf(naming, s, q);
            Resumes(plan, k, PlanOf(naming, Chain(s, plan.writes[..k]), q))
  {
    hide Inv, LoadDecision, LoadOutcome, ValidReceipt, BuildOutcome, Chain, OutcomeIntentOf, OutcomePublication;
    var plan := PlanOf(naming, s, q);
    var t := Chain(s, plan.writes[..k]);
    SameProposals(naming, s, q, k);
    LoadsSucceed(naming, s, q.proposalId);
    LoadsSucceed(naming, t, q.proposalId);
    if plan.writes == [] {
      NoWritesReplanned(naming, s, q);
    } else {
      var p, d := s.proposals[q.proposalId], s.decisionPointers[q.proposalId];
      var o := BuildOutcome(naming, p, d, q.verdict, q.receipt, q.activeRevision);
      OutcomeNames(naming, p, d, q);
      OutcomeFields(naming, s, o, 0);
      OutcomeFields(naming, s, o, k);
      if k == 0 {
        ChainFirst(s, plan.writes[..k]);
      }
      assert plan.writes != OutcomePublication(o) ==> plan.writes[1..] == OutcomePublication(o);
    }
  }

  // What planning a rollback reads, after each write of one.
  lemma RollbackWrites(naming: Naming, s: Store, r: ReleaseRollback)
    requires r.body.receipt.RollbackReceipt?
    ensures var t := Written(s, PutRollbackIntent(RollbackIntentOf(naming, r)));
            && t.rollbackIntents == s.rollbackIntents[r.body.proposalId := RollbackIntentOf(naming, r)]
            && t.rollbackPointers == s.rollbackPointers
            && t.outcomePointers == s.outcomePointers && t.decisionPointers == s.decisionPointers
    ensures var t := Written(s, PutRollback(r));
            && t.rollbackIntents == s.rollbackIntents && t.rollbackPointers == s.rollbackPointers
            && t.outcomePointers == s.outcomePointers && t.decisionPointers == s.decisionPointers
    ensures var t := Written(s, PutRollbackPointer(r));
            && t.rollbackIntents == s.rollbackIntents
            && t.rollbackPointers == s.rollbackPointers[r.body.proposalId := r]
            && t.outcomePointers == s.outcomePointers && t.decisionPointers == s.decisionPointers
  {
  }

  lemma RollbackFields(naming: Naming, s: Store, r: ReleaseRollback, k: nat)
    requires k <= 3 && r.body.receipt.RollbackReceipt?
    ensures |RollbackPublication(r)| == 2
    ensures k <= 2 ==>
              var t := Chain(s, RollbackPublication(r)[..k]);
              && t.rollbackIntents == s.rollbackIntents
              && t.outcomePointers == s.outcomePointers && t.decisionPointers == s.decisionPointers
              && t.rollbackPointers == (if k >= 2 then s.rollbackPointers[r.body.proposalId := r] else s.rollbackPointers)
    ensures k >= 1 ==>
              var t := Chain(s, ([PutRollbackIntent(RollbackIntentOf(naming, r))] + RollbackPublication(r))[..k]);
              && t.rollbackIntents == s.rollbackIntents[r.body.proposalId := RollbackIntentOf(naming, r)]
              && t.outcomePointers == s.outcomePointers && t.decisionPointers == s.decisionPointers
              && t.rollbackPointers == (if k >= 3 then s.rollbackPointers[r.body.proposalId := r] else s.rollbackPointers)
  {
    hide Chain, Written, RollbackIntentOf;
    var w := PutRollbackIntent(RollbackIntentOf(naming, r));
    if k <= 2 {
      ChainUpToFour(s, RollbackPublication(r), k);
    }
    ChainUpToFour(s, [w] + RollbackPublication(r), k);
    RollbackWrites(naming, s, r);
    RollbackWrites(naming, Written(s, w), r);
    RollbackWrites(naming, Written(s, PutRollback(r)), r);
    RollbackWrites(naming, Written(Written(s, w), PutRollback(r)), r);
  }

  lemma RollbackNames(naming: Naming, p: Proposal, o: ReleaseOutcome, q: Request)
    requires q.RecordRollback? && p.id == q.proposalId && q.rollbackReceipt.RollbackReceipt?
    ensures var r := BuildRollback(naming, p, o, q.rollbackReceipt);
            && r.body.proposalId == q.proposalId && r.body.receipt == q.rollbackReceipt
            && RollbackIntentOf(naming, r).proposalId == q.proposalId
  {
  }

  lemma RollbackReplanned(naming: Naming, s: Store, q: Request, k: nat)
    requires q.RecordRollback? && Inv(naming, s) && PlanOf(naming, s, q).Proceed? && k <= |PlanOf(naming, s, q).writes|
    requires Inv(naming, Chain(s, PlanOf(naming, s, q).writes[..k]))
    ensures var plan := PlanOf(naming, s, q);
            Resumes(plan, k, PlanOf(naming, Chain(s, plan.writes[..k]), q))
  {
    hide Inv, LoadDecision, LoadOutcome, LoadRollback, BuildRollback, Chain, RollbackIntentOf, RollbackPublication;
    var plan := PlanOf(naming, s, q);
    var t := Chain(s, plan.writes[..k]);
    SameProposals(naming, s, q, k);
    LoadsSucceed(naming, s, q.proposalId);
    LoadsSucceed(naming, t, q.proposalId);
    if plan.writes == [] {
      NoWritesReplanned(naming, s, q);
    } else {
      var p, o := s.proposals[q.proposalId], s.outcomePointers[q.proposalId];
      var r := BuildRollback(naming, p, o, q.rollbackReceipt);
      RollbackNames(naming, p, o, q);
      RollbackFields(naming, s, r, 0);
      RollbackFields(naming, s, r, k);
      if k == 0 {
        ChainFirst(s, plan.writes[..k]);
      }
      assert plan.writes != RollbackPublication(r) ==> plan.writes[1..] == RollbackPublication(r);
    }
  }

  lemma Replanned(naming: Naming, s: Store, q: Request, k: nat)
    requires Inv(naming, s) && PlanOf(naming, s, q).Proceed? && k <= |PlanOf(naming, s, q).writes|
    requires Inv(naming, Chain(s, PlanOf(naming, s, q).writes[..k]))
    ensures var plan := PlanOf(naming, s, q);
            Resumes(plan, k, PlanOf(naming, Chain(s, plan.writes[..k]), q))
  {
    hide *;
    match q {
      case Propose(_, _) => ProposalReplanned(naming, s, q, k);
      case Decide(_, _, _, _, _, _) => DecisionReplanned(naming, s, q, k);
      case RecordOutcome(_, _, _, _, _, _) => OutcomeReplanned(naming, s, q, k);
      case RecordRollback(_, _, _, _) => RollbackReplanned(naming, s, q, k);
    }
  }

  // ----- Convergence -----

  /** Wherever a request dies, repeating it with nothing in between reaches the store and the answer
      of the same request served without interruption. */
  lemma RetryConverges(naming: Naming, steps: seq<Step>, q: Request, power: nat, enough: nat)
    requires Serve(naming, Run(naming, steps), q, enough).reply.Ok?
    ensures var s := Run(naming, steps);
            var whole, retried := Serve(naming, s, q, enough), Serve(naming, Serve(naming, s, q, power).store, q, enough);
            retried.store == whole.store && retried.reply == whole.reply
  {
    hide Run, Inv, PlanOf, Perform, Chain, AllWritable;
    var s := Run(naming, steps);
    var plan := PlanOf(naming, s, q);
    var writes := plan.writes;
    RunKeeps(naming, steps);
    CompletedWrites(s, writes, enough);
    var k := if power < |writes| then power else |writes|;
    var t := Serve(naming, s, q, power).store;
    if power < |writes| {
      PerformDies(s, writes, power);
    } else {
      PerformAll(s, writes, power);
      assert writes[..k] == writes;
    }
    assert t == Chain(s, writes[..k]);
    ServeKeeps(naming, s, q, power);
    Replanned(naming, s, q, k);
    var again := PlanOf(naming, t, q).writes;
    ResumeConverges(s, writes, k, again);
    PerformAll(t, again, enough);
  }
}
