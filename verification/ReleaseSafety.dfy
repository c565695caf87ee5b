/** What the release control plane keeps over every sequence of requests, crashes and retries. */
module ReleaseSafety {
  import opened Contracts
  import opened ReleaseControl

  // ----- The invariant, entry by entry -----

  ghost predicate ProposalEntry(naming: Naming, s: Store, p: Proposal) {
    && p == BuildProposal(naming, p.body.analysis, p.body.parent)
    && p.body.analysis.traceId in s.proposalIntents
    && s.proposalIntents[p.body.analysis.traceId] == ProposalIntentOf(p)
  }

  ghost predicate DecisionEntry(naming: Naming, s: Store, d: ReleaseDecision) {
    && d.body.proposalId in s.proposals
    && d == BuildDecision(naming, s.proposals[d.body.proposalId], d.body.choice, d.body.clientActionId, d.body.actorId)
    && d.body.proposalId in s.decisionIntents && s.decisionIntents[d.body.proposalId] == DecisionIntentOf(d)
  }

  ghost predicate OutcomeEntry(naming: Naming, s: Store, o: ReleaseOutcome) {
    var id := o.body.proposalId;
    && id in s.proposals && id in s.decisionPointers && s.decisionPointers[id].body.choice == ApproveRelease
    && o == BuildOutcome(naming, s.proposals[id], s.decisionPointers[id], o.body.verdict, o.body.receipt, o.body.activeRevision)
    && (o.body.verdict == Activated <==> o.body.activeRevision.Some?)
    && id in s.outcomeIntents && s.outcomeIntents[id] == OutcomeIntentOf(naming, o)
  }

  ghost predicate RollbackEntry(naming: Naming, s: Store, r: ReleaseRollback) {
    var id := r.body.proposalId;
    && id in s.proposals && id in s.outcomePointers && s.outcomePointers[id].body.verdict == Activated
    && r == BuildRollback(naming, s.proposals[id], s.outcomePointers[id], r.body.receipt)
    && r.body.receipt.RollbackReceipt? && s.outcomePointers[id].body.activeRevision == Some(r.body.receipt.source)
    && id in s.rollbackIntents && s.rollbackIntents[id] == RollbackIntentOf(naming, r)
  }

  ghost predicate ProposalsOk(naming: Naming, s: Store) {
    && (forall t :: t in s.proposalIntents ==> s.proposalIntents[t].traceId == t)
    && (forall p :: p in s.proposals ==> s.proposals[p].id == p && ProposalEntry(naming, s, s.proposals[p]))
  }

  ghost predicate DecisionRecordsOk(naming: Naming, s: Store) {
    forall i :: i in s.decisions ==> s.decisions[i].id == i && DecisionEntry(naming, s, s.decisions[i])
  }

  ghost predicate DecisionPointersOk(s: Store) {
    forall p :: p in s.decisionPointers ==>
      var d := s.decisionPointers[p];
      d.body.proposalId == p && d.id in s.decisions && s.decisions[d.id] == d
  }

  ghost predicate ClientActionsOk(s: Store) {
    forall a :: a in s.clientActions ==>
      var d := s.clientActions[a];
      d.body.clientActionId == a && d.body.proposalId in s.decisionPointers && s.decisionPointers[d.body.proposalId] == d
  }

  /** A visible decision has its immutable record, and a client action's pointer follows it. */
  ghost predicate DecisionsOk(naming: Naming, s: Store) {
    DecisionRecordsOk(naming, s) && DecisionPointersOk(s) && ClientActionsOk(s)
  }

  ghost predicate OutcomesOk(naming: Naming, s: Store) {
    && (forall i :: i in s.outcomes ==> s.outcomes[i].id == i && OutcomeEntry(naming, s, s.outcomes[i]))
    && (forall p :: p in s.outcomePointers ==>
          var o := s.outcomePointers[p];
          o.body.proposalId == p && o.id in s.outcomes && s.outcomes[o.id] == o)
  }

  ghost predicate RollbacksOk(naming: Naming, s: Store) {
    && (forall i :: i in s.rollbacks ==> s.rollbacks[i].id == i && RollbackEntry(naming, s, s.rollbacks[i]))
    && (forall p :: p in s.rollbackPointers ==>
          var r := s.rollbackPointers[p];
          r.body.proposalId == p && r.id in s.rollbacks && s.rollbacks[r.id] == r)
  }

  ghost predicate Inv(naming: Naming, s: Store) {
    ProposalsOk(naming, s) && DecisionsOk(naming, s) && OutcomesOk(naming, s) && RollbacksOk(naming, s)
  }

  ghost predicate Within<K, V>(a: map<K, V>, b: map<K, V>) {
    forall k :: k in a ==> k in b && b[k] == a[k]
  }

  /** Nothing that is in the store ever changes or goes. */
  ghost predicate Grows(s: Store, t: Store) {
    && Within(s.proposalIntents, t.proposalIntents) && Within(s.proposals, t.proposals)
    && Within(s.decisionIntents, t.decisionIntents) && Within(s.decisions, t.decisions)
    && Within(s.decisionPointers, t.decisionPointers) && Within(s.clientActions, t.clientActions)
    && Within(s.outcomeIntents, t.outcomeIntents) && Within(s.outcomes, t.outcomes)
    && Within(s.outcomePointers, t.outcomePointers)
    && Within(s.rollbackIntents, t.rollbackIntents) && Within(s.rollbacks, t.rollbacks)
    && Within(s.rollbackPointers, t.rollbackPointers)
  }

  /** When a write may come: after what it depends on is in the store. */
  ghost predicate Ordered(naming: Naming, s: Store, w: Write) {
    match w
    case PutProposalIntent(_) => true
    case PutProposal(p) => ProposalEntry(naming, s, p)
    case PutDecisionIntent(_) => true
    case PutDecision(d) => DecisionEntry(naming, s, d)
    case PutDecisionPointer(d) => d.id in s.decisions && s.decisions[d.id] == d
    case PutClientAction(d) => d.body.proposalId in s.decisionPointers && s.decisionPointers[d.body.proposalId] == d
    case PutOutcomeIntent(_) => true
    case PutOutcome(o) => OutcomeEntry(naming, s, o)
    case PutOutcomePointer(o) => o.id in s.outcomes && s.outcomes[o.id] == o
    case PutRollbackIntent(_) => true
    case PutRollback(r) => RollbackEntry(naming, s, r)
    case PutRollbackPointer(r) => r.id in s.rollbacks && s.rollbacks[r.id] == r
  }

  lemma WriteGrows(s: Store, w: Write)
    requires Writable(s, w)
    ensures Grows(s, Written(s, w))
  {
  }

  lemma GrowsTransitive(a: Store, b: Store, c: Store)
    requires Grows(a, b) && Grows(b, c)
    ensures Grows(a, c)
  {
    hide Within;
    WithinTransitive(a.proposalIntents, b.proposalIntents, c.proposalIntents);
    WithinTransitive(a.proposals, b.proposals, c.proposals);
    WithinTransitive(a.decisionIntents, b.decisionIntents, c.decisionIntents);
    WithinTransitive(a.decisions, b.decisions, c.decisions);
    WithinTransitive(a.decisionPointers, b.decisionPointers, c.decisionPointers);
    WithinTransitive(a.clientActions, b.clientActions, c.clientActions);
    WithinTransitive(a.outcomeIntents, b.outcomeIntents, c.outcomeIntents);
    WithinTransitive(a.outcomes, b.outcomes, c.outcomes);
    WithinTransitive(a.outcomePointers, b.outcomePointers, c.outcomePointers);
    WithinTransitive(a.rollbackIntents, b.rollbackIntents, c.rollbackIntents);
    WithinTransitive(a.rollbacks, b.rollbacks, c.rollbacks);
    WithinTransitive(a.rollbackPointers, b.rollbackPointers, c.rollbackPointers);
  }

  lemma WithinTransitive<K, V>(a: map<K, V>, b: map<K, V>, c: map<K, V>)
    requires Within(a, b) && Within(b, c)
    ensures Within(a, c)
  {
  }

  lemma EntriesStay(naming: Naming, s: Store, t: Store)
    requires Grows(s, t)
    ensures forall p :: ProposalEntry(naming, s, p) ==> ProposalEntry(naming, t, p)
    ensures forall d :: DecisionEntry(naming, s, d) ==> DecisionEntry(naming, t, d)
    ensures forall o :: OutcomeEntry(naming, s, o) ==> OutcomeEntry(naming, t, o)
    ensures forall r :: RollbackEntry(naming, s, r) ==> RollbackEntry(naming, t, r)
  {
  }

  lemma KeepsProposals(naming: Naming, s: Store, w: Write)
    requires ProposalsOk(naming, s) && Writable(s, w) && Ordered(naming, s, w)
    ensures ProposalsOk(naming, Written(s, w))
  {
    hide ProposalEntry, DecisionEntry, OutcomeEntry, RollbackEntry, Grows;
    WriteGrows(s, w);
    EntriesStay(naming, s, Written(s, w));
  }

  lemma KeepsDecisionRecords(naming: Naming, s: Store, w: Write)
    requires DecisionRecordsOk(naming, s) && Writable(s, w) && Ordered(naming, s, w)
    ensures DecisionRecordsOk(naming, Written(s, w))
  {
    hide ProposalEntry, DecisionEntry, OutcomeEntry, RollbackEntry, Grows;
    WriteGrows(s, w);
    EntriesStay(naming, s, Written(s, w));
  }

  lemma KeepsDecisionPointers(naming: Naming, s: Store, w: Write)
    requires DecisionPointersOk(s) && Writable(s, w) && Ordered(naming, s, w)
    ensures DecisionPointersOk(Written(s, w))
  {
    hide ProposalEntry, DecisionEntry, OutcomeEntry, RollbackEntry;
  }

  lemma KeepsClientActions(naming: Naming, s: Store, w: Write)
    requires ClientActionsOk(s) && Writable(s, w) && Ordered(naming, s, w)
    ensures ClientActionsOk(Written(s, w))
  {
    hide ProposalEntry, DecisionEntry, OutcomeEntry, RollbackEntry;
  }

  lemma KeepsDecisions(naming: Naming, s: Store, w: Write)
    requires DecisionsOk(naming, s) && Writable(s, w) && Ordered(naming, s, w)
    ensures DecisionsOk(naming, Written(s, w))
  {
    hide DecisionRecordsOk, DecisionPointersOk, ClientActionsOk, Writable, Ordered, Written;
    KeepsDecisionRecords(naming, s, w);
    KeepsDecisionPointers(naming, s, w);
    KeepsClientActions(naming, s, w);
  }

  lemma KeepsOutcomes(naming: Naming, s: Store, w: Write)
    requires OutcomesOk(naming, s) && Writable(s, w) && Ordered(naming, s, w)
    ensures OutcomesOk(naming, Written(s, w))
  {
    hide ProposalEntry, DecisionEntry, OutcomeEntry, RollbackEntry, Grows;
    WriteGrows(s, w);
    EntriesStay(naming, s, Written(s, w));
  }

  lemma KeepsRollbacks(naming: Naming, s: Store, w: Write)
    requires RollbacksOk(naming, s) && Writable(s, w) && Ordered(naming, s, w)
    ensures RollbacksOk(naming, Written(s, w))
  {
    hide ProposalEntry, DecisionEntry, OutcomeEntry, RollbackEntry, Grows;
    WriteGrows(s, w);
    EntriesStay(naming, s, Written(s, w));
  }

  /** One ordered write keeps the invariant. */
  lemma WriteKeeps(naming: Naming, s: Store, w: Write)
    requires Inv(naming, s) && Writable(s, w) && Ordered(naming, s, w)
    ensures Inv(naming, Written(s, w))
  {
    hide *;
    InvParts(naming, s);
    KeepsProposals(naming, s, w);
    KeepsDecisions(naming, s, w);
    KeepsOutcomes(naming, s, w);
    KeepsRollbacks(naming, s, w);
    InvParts(naming, Written(s, w));
  }

  lemma InvParts(naming: Naming, s: Store)
    ensures Inv(naming, s) <==>
              ProposalsOk(naming, s) && DecisionsOk(naming, s) && OutcomesOk(naming, s) && RollbacksOk(naming, s)
  {
  }

  /** Every write of a list comes when it may, as far as the list is performed. */
  ghost predicate AllOrdered(naming: Naming, s: Store, writes: seq<Write>)
    decreases |writes|
  {
    writes == [] ||
    (Writable(s, writes[0]) ==>
       Ordered(naming, s, writes[0]) && AllOrdered(naming, Written(s, writes[0]), writes[1..]))
  }

  lemma {:induction false} PerformKeeps(naming: Naming, s: Store, writes: seq<Write>, power: nat)
    requires Inv(naming, s) && AllOrdered(naming, s, writes)
    ensures Inv(naming, Perform(s, writes, power).store)
    decreases |writes|
  {
    hide Inv, Ordered, Writable, Written;
    if writes != [] && power > 0 && Writable(s, writes[0]) {
      WriteKeeps(naming, s, writes[0]);
      PerformKeeps(naming, Written(s, writes[0]), writes[1..], power - 1);
    }
  }

  lemma {:induction false} PerformGrows(s: Store, writes: seq<Write>, power: nat)
    ensures Grows(s, Perform(s, writes, power).store)
    decreases |writes|
  {
    hide Grows, Writable, Written;
    GrowsReflexive(s);
    if writes != [] && power > 0 && Writable(s, writes[0]) {
      WriteGrows(s, writes[0]);
      PerformGrows(Written(s, writes[0]), writes[1..], power - 1);
      GrowsTransitive(s, Written(s, writes[0]), Perform(s, writes, power).store);
    }
  }

  lemma GrowsReflexive(s: Store)
    ensures Grows(s, s)
  {
  }

  // ----- The plans are ordered -----

  lemma ProposalOrdered(naming: Naming, s: Store, analysis: Analysis, active: Option<Revision>)
    requires Inv(naming, s)
    ensures var plan := PlanProposal(naming, s, analysis, active);
            plan.Proceed? ==> AllOrdered(naming, s, plan.writes)
  {
    hide DecisionsOk, OutcomesOk, RollbacksOk, AllOrdered, Writable;
    if analysis.traceId in s.proposalIntents {
      var p := BuildProposal(naming, analysis, s.proposalIntents[analysis.traceId].parent);
      EmptyOrdered(naming, Written(s, PutProposal(p)));
      if PlanProposal(naming, s, analysis, active).Proceed? {
        OrderedFirst(naming, s, PutProposal(p), []);
        assert [PutProposal(p)] + [] == [PutProposal(p)];
      }
    } else {
      var p := BuildProposal(naming, analysis, active);
      var first := PutProposalIntent(ProposalIntentOf(p));
      EmptyOrdered(naming, Written(Written(s, first), PutProposal(p)));
      OrderedFirst(naming, Written(s, first), PutProposal(p), []);
      assert [PutProposal(p)] + [] == [PutProposal(p)];
      OrderedFirst(naming, s, first, [PutProposal(p)]);
      assert [first] + [PutProposal(p)] == [first, PutProposal(p)];
    }
  }

  lemma PublicationOrdered(naming: Naming, s: Store, d: ReleaseDecision)
    requires DecisionEntry(naming, s, d)
    ensures AllOrdered(naming, s, Publication(d))
  {
    hide DecisionEntry;
    var one := Written(s, PutDecision(d));
    var two := Written(one, PutDecisionPointer(d));
    assert Publication(d)[1..] == [PutDecisionPointer(d), PutClientAction(d)];
    assert Publication(d)[1..][1..] == [PutClientAction(d)];
    assert AllOrdered(naming, two, [PutClientAction(d)]);
    assert AllOrdered(naming, one, [PutDecisionPointer(d), PutClientAction(d)]);
  }

  lemma OutcomePublicationOrdered(naming: Naming, s: Store, o: ReleaseOutcome)
    requires OutcomeEntry(naming, s, o)
    ensures AllOrdered(naming, s, OutcomePublication(o))
  {
  }

  lemma RollbackPublicationOrdered(naming: Naming, s: Store, r: ReleaseRollback)
    requires RollbackEntry(naming, s, r)
    ensures AllOrdered(naming, s, RollbackPublication(r))
  {
    hide RollbackEntry;
    var one := Written(s, PutRollback(r));
    assert RollbackPublication(r)[1..] == [PutRollbackPointer(r)];
    assert AllOrdered(naming, one, [PutRollbackPointer(r)]);
  }

  // In a store of the invariant no artifact is ever found invalid.
  lemma LoadsSucceed(naming: Naming, s: Store, id: Id)
    requires Inv(naming, s)
    ensures LoadDecision(s, id) == Ok(if id in s.decisionPointers then Some(s.decisionPointers[id]) else None)
    ensures LoadOutcome(s, id) == Ok(if id in s.outcomePointers then Some(s.outcomePointers[id]) else None)
    ensures LoadRollback(s, id) == Ok(if id in s.rollbackPointers then Some(s.rollbackPointers[id]) else None)
  {
    hide DecisionEntry, OutcomeEntry, RollbackEntry, ProposalsOk;
  }

  /** The path that publishes without an intent of its own is reached only for a decision that is
      already visible. */
  lemma UnintendedIsPublished(naming: Naming, s: Store, q: Request, p: Proposal)
    requires Inv(naming, s) && q.Decide? && LoadProposal(s, q.proposalId, q.proposalRevision) == Ok(p)
    ensures var d := BuildDecision(naming, p, q.choice, q.clientActionId, q.actorId);
            PlanDecision(naming, s, q).Proceed? && q.clientActionId in s.clientActions ==>
              q.proposalId in s.decisionPointers && s.decisionPointers[q.proposalId] == d
  {
    hide ProposalsOk, OutcomesOk, RollbacksOk, DecisionEntry, Publication, ApprovalError;
    LoadsSucceed(naming, s, q.proposalId);
  }

  lemma DecisionOrdered(naming: Naming, s: Store, q: Request)
    requires Inv(naming, s) && q.Decide?
    ensures var plan := PlanDecision(naming, s, q);
            plan.Proceed? ==> AllOrdered(naming, s, plan.writes)
  {
    hide Inv, AllOrdered, Publication, DecisionEntry, ApprovalError, BuildDecision, LoadProposal, DecisionIntentOf,
      Writable;
    var plan := PlanDecision(naming, s, q);
    if plan.Proceed? {
      var p := LoadProposal(s, q.proposalId, q.proposalRevision).value;
      var d := BuildDecision(naming, p, q.choice, q.clientActionId, q.actorId);
      LoadsSucceed(naming, s, q.proposalId);
      UnintendedIsPublished(naming, s, q, p);
      EmptyOrdered(naming, s);
      if q.proposalId in s.decisionPointers {
        PublishedEntry(naming, s, q.proposalId);
        PublicationOrdered(naming, s, d);
      } else if q.proposalId in s.decisionIntents {
        IntendedEntry(naming, s, q, p, d);
        PublicationOrdered(naming, s, d);
      } else {
        IntentFirst(naming, s, q, p, d);
      }
    }
  }

  lemma EmptyOrdered(naming: Naming, s: Store)
    ensures AllOrdered(naming, s, [])
  {
  }

  lemma PublishedEntry(naming: Naming, s: Store, id: Id)
    requires Inv(naming, s) && id in s.decisionPointers
    ensures DecisionEntry(naming, s, s.decisionPointers[id])
  {
  }

  lemma IntendedEntry(naming: Naming, s: Store, q: Request, p: Proposal, d: ReleaseDecision)
    requires q.Decide? && LoadProposal(s, q.proposalId, q.proposalRevision) == Ok(p)
    requires d == BuildDecision(naming, p, q.choice, q.clientActionId, q.actorId)
    requires q.proposalId in s.decisionIntents && s.decisionIntents[q.proposalId] == DecisionIntentOf(d)
    ensures DecisionEntry(naming, s, d)
  {
  }

  lemma IntentFirst(naming: Naming, s: Store, q: Request, p: Proposal, d: ReleaseDecision)
    requires q.Decide? && LoadProposal(s, q.proposalId, q.proposalRevision) == Ok(p)
    requires d == BuildDecision(naming, p, q.choice, q.clientActionId, q.actorId)
    ensures AllOrdered(naming, s, [PutDecisionIntent(DecisionIntentOf(d))] + Publication(d))
  {
    hide AllOrdered, Publication, Writable;
    var w := PutDecisionIntent(DecisionIntentOf(d));
    var t := Written(s, w);
    assert LoadProposal(t, q.proposalId, q.proposalRevision) == Ok(p) && d.body.proposalId == q.proposalId;
    IntendedEntry(naming, t, q, p, d);
    PublicationOrdered(naming, t, d);
    OrderedFirst(naming, s, w, Publication(d));
  }

  lemma OrderedFirst(naming: Naming, s: Store, w: Write, rest: seq<Write>)
    requires Ordered(naming, s, w) && AllOrdered(naming, Written(s, w), rest)
    ensures AllOrdered(naming, s, [w] + rest)
  {
  }

  lemma OutcomeOrdered(naming: Naming, s: Store, q: Request)
    requires Inv(naming, s) && q.RecordOutcome?
    ensures var plan := PlanOutcome(naming, s, q);
            plan.Proceed? ==> AllOrdered(naming, s, plan.writes)
  {
    hide Inv, AllOrdered, OutcomePublication, OutcomeEntry, Writable;
    var plan := PlanOutcome(naming, s, q);
    if plan.Proceed? {
      LoadsSucceed(naming, s, q.proposalId);
      EmptyOrdered(naming, s);
      var p, d := s.proposals[q.proposalId], s.decisionPointers[q.proposalId];
      var o := BuildOutcome(naming, p, d, q.verdict, q.receipt, q.activeRevision);
      if q.proposalId in s.outcomePointers {
      } else if q.proposalId in s.outcomeIntents {
        OutcomeFits(naming, s, q, p, d, o);
        OutcomePublicationOrdered(naming, s, o);
      } else {
        var w := PutOutcomeIntent(OutcomeIntentOf(naming, o));
        OutcomeFits(naming, Written(s, w), q, p, d, o);
        OutcomePublicationOrdered(naming, Written(s, w), o);
        OrderedFirst(naming, s, w, OutcomePublication(o));
      }
    }
  }

  lemma OutcomeFits(naming: Naming, s: Store, q: Request, p: Proposal, d: ReleaseDecision, o: ReleaseOutcome)
    requires q.RecordOutcome? && q.proposalId in s.proposals && p == s.proposals[q.proposalId] && p.id == q.proposalId
    requires q.proposalId in s.decisionPointers && d == s.decisionPointers[q.proposalId] && d.body.choice == ApproveRelease
    requires ValidReceipt(p, q.verdict, q.receipt, q.activeRevision, q.active)
    requires o == BuildOutcome(naming, p, d, q.verdict, q.receipt, q.activeRevision)
    requires q.proposalId in s.outcomeIntents && s.outcomeIntents[q.proposalId] == OutcomeIntentOf(naming, o)
    ensures OutcomeEntry(naming, s, o)
  {
  }

  lemma RollbackOrdered(naming: Naming, s: Store, q: Request)
    requires Inv(naming, s) && q.RecordRollback?
    ensures var plan := PlanRollback(naming, s, q);
            plan.Proceed? ==> AllOrdered(naming, s, plan.writes)
  {
    hide Inv, AllOrdered, RollbackPublication, RollbackEntry, Writable;
    var plan := PlanRollback(naming, s, q);
    if plan.Proceed? {
      LoadsSucceed(naming, s, q.proposalId);
      EmptyOrdered(naming, s);
      var p, o := s.proposals[q.proposalId], s.outcomePointers[q.proposalId];
      var r := BuildRollback(naming, p, o, q.rollbackReceipt);
      if q.proposalId in s.rollbackPointers {
      } else if q.proposalId in s.rollbackIntents {
        RollbackFits(naming, s, q, p, o, r);
        RollbackPublicationOrdered(naming, s, r);
      } else {
        var w := PutRollbackIntent(RollbackIntentOf(naming, r));
        RollbackFits(naming, Written(s, w), q, p, o, r);
        RollbackPublicationOrdered(naming, Written(s, w), r);
        OrderedFirst(naming, s, w, RollbackPublication(r));
      }
    }
  }

  lemma RollbackFits(naming: Naming, s: Store, q: Request, p: Proposal, o: ReleaseOutcome, r: ReleaseRollback)
    requires q.RecordRollback? && q.proposalId in s.proposals && p == s.proposals[q.proposalId] && p.id == q.proposalId
    requires q.proposalId in s.outcomePointers && o == s.outcomePointers[q.proposalId] && o.body.verdict == Activated
    requires ValidRollbackReceipt(p, o, q.rollbackReceipt) && r == BuildRollback(naming, p, o, q.rollbackReceipt)
    requires q.proposalId in s.rollbackIntents && s.rollbackIntents[q.proposalId] == RollbackIntentOf(naming, r)
    ensures RollbackEntry(naming, s, r)
  {
  }

  /** One request, dying anywhere, keeps the invariant and only adds to the store. */
  lemma ServeKeeps(naming: Naming, s: Store, q: Request, power: nat)
    requires Inv(naming, s)
    ensures Inv(naming, Serve(naming, s, q, power).store) && Grows(s, Serve(naming, s, q, power).store)
  {
    hide Inv, Grows, AllOrdered, Perform, PlanProposal, PlanDecision, PlanOutcome, PlanRollback;
    GrowsReflexive(s);
    match q {
      case Propose(analysis, active) => ProposalOrdered(naming, s, analysis, active);
      case Decide(_, _, _, _, _, _) => DecisionOrdered(naming, s, q);
      case RecordOutcome(_, _, _, _, _, _) => OutcomeOrdered(naming, s, q);
      case RecordRollback(_, _, _, _) => RollbackOrdered(naming, s, q);
    }
    var plan := PlanOf(naming, s, q);
    if plan.Proceed? {
      PerformKeeps(naming, s, plan.writes, power);
      PerformGrows(s, plan.writes, power);
    }
  }

  // ----- Every run -----

  /** A request and how many writes it lives for. */
  datatype Step = Step(request: Request, power: nat)

  function Run(naming: Naming, steps: seq<Step>): Store {
    if steps == [] then EMPTY
    else
      var last := steps[|steps| - 1];
      Serve(naming, Run(naming, steps[..|steps| - 1]), last.request, last.power).store
  }

  lemma {:induction false} RunKeeps(naming: Naming, steps: seq<Step>)
    ensures Inv(naming, Run(naming, steps))
  {
    hide Inv, Serve;
    if steps == [] {
      EmptyInv(naming);
    } else {
      var last := steps[|steps| - 1];
      RunKeeps(naming, steps[..|steps| - 1]);
      ServeKeeps(naming, Run(naming, steps[..|steps| - 1]), last.request, last.power);
    }
  }

  lemma EmptyInv(naming: Naming)
    ensures Inv(naming, EMPTY)
  {
  }

  lemma {:induction false} RunGrows(naming: Naming, steps: seq<Step>, k: nat)
    requires k <= |steps|
    ensures Grows(Run(naming, steps[..k]), Run(naming, steps))
    decreases |steps|
  {
    hide Inv, Serve, Grows;
    var n := |steps|;
    if k == n {
      assert steps[..k] == steps;
      GrowsReflexive(Run(naming, steps));
    } else {
      var front, last := steps[..n - 1], steps[n - 1];
      assert front[..k] == steps[..k];
      RunGrows(naming, front, k);
      RunKeeps(naming, front);
      ServeKeeps(naming, Run(naming, front), last.request, last.power);
      GrowsTransitive(Run(naming, steps[..k]), Run(naming, front), Run(naming, steps));
    }
  }
}
