/** The intent-first release control plane (retrieval_release_control.py): proposal, decision,
    outcome and rollback over a write-once store that a crash may leave between any two writes. */
module ReleaseControl {
  import opened Contracts

  type Revision = string

  // ----- Records -----

  /** What a validated analysis contributes to a proposal. */
  datatype Analysis = Analysis(
    traceId: Id, codeRevision: string, configSha: string, baselineRunId: Id, candidateRunId: Id, comparisonId: Id,
    pipelineId: Id, rest: string)

  datatype ProposalBody = ProposalBody(analysis: Analysis, parent: Option<Revision>)

  datatype Proposal = Proposal(id: Id, revision: string, body: ProposalBody)

  datatype ProposalIntent = ProposalIntent(
    traceId: Id, proposalId: Id, proposalRevision: string, parent: Option<Revision>, codeRevision: string,
    configSha: string, baselineRunId: Id, candidateRunId: Id, comparisonId: Id)

  datatype Choice = ApproveRelease | RejectRelease

  datatype DecisionBody = DecisionBody(
    proposalId: Id, proposalRevision: string, choice: Choice, clientActionId: Id, actorId: Id, configSha: string,
    pipelineId: Id, parent: Option<Revision>)

  datatype ReleaseDecision = ReleaseDecision(id: Id, body: DecisionBody)

  datatype DecisionIntent = DecisionIntent(
    proposalId: Id, proposalRevision: string, choice: Choice, clientActionId: Id, actorId: Id, decisionId: Id)

  datatype Receipt =
    | ActivationReceipt(binding: ReceiptBinding, strategyRevision: Revision, rest: string)
    | FailureReceipt(binding: ReceiptBinding, errorCode: string)
    | MalformedReceipt(json: string)

  datatype ReceiptBinding = ReceiptBinding(
    proposalId: Id, proposalRevision: string, pipelineId: Id, configSha: string, codeRevision: string,
    parent: Option<Revision>)

  datatype Verdict = Activated | ValidationFailed

  datatype OutcomeBody = OutcomeBody(
    proposalId: Id, proposalRevision: string, decisionId: Id, verdict: Verdict, receipt: Receipt,
    activeRevision: Option<Revision>, configSha: string, pipelineId: Id)

  datatype ReleaseOutcome = ReleaseOutcome(id: Id, body: OutcomeBody)

  datatype OutcomeIntent = OutcomeIntent(
    proposalId: Id, proposalRevision: string, outcomeId: Id, verdict: Verdict, receiptSha: string,
    activeRevision: Option<Revision>)

  datatype RollbackReceipt =
    | RollbackReceipt(source: Revision, target: Revision, rest: string)
    | MalformedRollback(json: string)

  datatype RollbackBody = RollbackBody(
    proposalId: Id, proposalRevision: string, outcomeId: Id, receipt: RollbackReceipt)

  datatype ReleaseRollback = ReleaseRollback(id: Id, body: RollbackBody)

  datatype RollbackIntent = RollbackIntent(
    proposalId: Id, proposalRevision: string, rollbackId: Id, source: Revision, target: Revision, receiptSha: string)

  /** Content ids and hashes, as arbitrary functions of the content. */
  datatype Naming = Naming(
    revision: ProposalBody -> string, proposal: string -> Id, decision: DecisionBody -> Id,
    outcome: OutcomeBody -> Id, rollback: RollbackBody -> Id, receiptSha: Receipt -> string,
    rollbackSha: RollbackReceipt -> string)

  function BuildProposal(naming: Naming, analysis: Analysis, parent: Option<Revision>): Proposal {
    var body := ProposalBody(analysis, parent);
    Proposal(naming.proposal(naming.revision(body)), naming.revision(body), body)
  }

  function ProposalIntentOf(p: Proposal): ProposalIntent {
    var a := p.body.analysis;
    ProposalIntent(a.traceId, p.id, p.revision, p.body.parent, a.codeRevision, a.configSha, a.baselineRunId,
                   a.candidateRunId, a.comparisonId)
  }

  function BuildDecision(naming: Naming, p: Proposal, choice: Choice, clientActionId: Id, actorId: Id): ReleaseDecision {
    var body := DecisionBody(p.id, p.revision, choice, clientActionId, actorId, p.body.analysis.configSha,
                             p.body.analysis.pipelineId, p.body.parent);
    ReleaseDecision(naming.decision(body), body)
  }

  function DecisionIntentOf(d: ReleaseDecision): DecisionIntent {
    DecisionIntent(d.body.proposalId, d.body.proposalRevision, d.body.choice, d.body.clientActionId, d.body.actorId, d.id)
  }

  function BuildOutcome(
    naming: Naming, p: Proposal, d: ReleaseDecision, verdict: Verdict, receipt: Receipt, activeRevision: Option<Revision>)
    : ReleaseOutcome
  {
    var body := OutcomeBody(p.id, p.revision, d.id, verdict, receipt, activeRevision, p.body.analysis.configSha,
                            p.body.analysis.pipelineId);
    ReleaseOutcome(naming.outcome(body), body)
  }

  function OutcomeIntentOf(naming: Naming, o: ReleaseOutcome): OutcomeIntent {
    OutcomeIntent(o.body.proposalId, o.body.proposalRevision, o.id, o.body.verdict, naming.receiptSha(o.body.receipt),
                  o.body.activeRevision)
  }

  function BuildRollback(naming: Naming, p: Proposal, o: ReleaseOutcome, receipt: RollbackReceipt): ReleaseRollback {
    var body := RollbackBody(p.id, p.revision, o.id, receipt);
    ReleaseRollback(naming.rollback(body), body)
  }

  function RollbackIntentOf(naming: Naming, r: ReleaseRollback): RollbackIntent
    requires r.body.receipt.RollbackReceipt?
  {
    RollbackIntent(r.body.proposalId, r.body.proposalRevision, r.id, r.body.receipt.source, r.body.receipt.target,
                   naming.rollbackSha(r.body.receipt))
  }

  // ----- The store -----

  // One map for each artifact directory, keyed by file name.
  datatype Store = Store(
    proposalIntents: map<Id, ProposalIntent>, proposals: map<Id, Proposal>,
    decisionIntents: map<Id, DecisionIntent>, decisions: map<Id, ReleaseDecision>,
    decisionPointers: map<Id, ReleaseDecision>, clientActions: map<Id, ReleaseDecision>,
    outcomeIntents: map<Id, OutcomeIntent>, outcomes: map<Id, ReleaseOutcome>, outcomePointers: map<Id, ReleaseOutcome>,
    rollbackIntents: map<Id, RollbackIntent>, rollbacks: map<Id, ReleaseRollback>,
    rollbackPointers: map<Id, ReleaseRollback>)

  const EMPTY := Store(map[], map[], map[], map[], map[], map[], map[], map[], map[], map[], map[], map[])

  datatype Write =
    | PutProposalIntent(proposalIntent: ProposalIntent)
    | PutProposal(proposal: Proposal)
    | PutDecisionIntent(decisionIntent: DecisionIntent)
    | PutDecision(decision: ReleaseDecision)
    | PutDecisionPointer(decision: ReleaseDecision)
    | PutClientAction(decision: ReleaseDecision)
    | PutOutcomeIntent(outcomeIntent: OutcomeIntent)
    | PutOutcome(outcome: ReleaseOutcome)
    | PutOutcomePointer(outcome: ReleaseOutcome)
    | PutRollbackIntent(rollbackIntent: RollbackIntent)
    | PutRollback(rollback: ReleaseRollback)
    | PutRollbackPointer(rollback: ReleaseRollback)

  /** A file is written once; writing the same content again succeeds. */
  predicate Free<K, V(==)>(m: map<K, V>, k: K, v: V) {
    k in m ==> m[k] == v
  }

  predicate Writable(s: Store, w: Write) {
    match w
    case PutProposalIntent(i) => Free(s.proposalIntents, i.traceId, i)
    case PutProposal(p) => Free(s.proposals, p.id, p)
    case PutDecisionIntent(i) => Free(s.decisionIntents, i.proposalId, i)
    case PutDecision(d) => Free(s.decisions, d.id, d)
    case PutDecisionPointer(d) => Free(s.decisionPointers, d.body.proposalId, d)
    case PutClientAction(d) => Free(s.clientActions, d.body.clientActionId, d)
    case PutOutcomeIntent(i) => Free(s.outcomeIntents, i.proposalId, i)
    case PutOutcome(o) => Free(s.outcomes, o.id, o)
    case PutOutcomePointer(o) => Free(s.outcomePointers, o.body.proposalId, o)
    case PutRollbackIntent(i) => Free(s.rollbackIntents, i.proposalId, i)
    case PutRollback(r) => Free(s.rollbacks, r.id, r)
    case PutRollbackPointer(r) => Free(s.rollbackPointers, r.body.proposalId, r)
  }

  function Written(s: Store, w: Write): Store {
    match w
    case PutProposalIntent(i) => s.(proposalIntents := s.proposalIntents[i.traceId := i])
    case PutProposal(p) => s.(proposals := s.proposals[p.id := p])
    case PutDecisionIntent(i) => s.(decisionIntents := s.decisionIntents[i.proposalId := i])
    case PutDecision(d) => s.(decisions := s.decisions[d.id := d])
    case PutDecisionPointer(d) => s.(decisionPointers := s.decisionPointers[d.body.proposalId := d])
    case PutClientAction(d) => s.(clientActions := s.clientActions[d.body.clientActionId := d])
    case PutOutcomeIntent(i) => s.(outcomeIntents := s.outcomeIntents[i.proposalId := i])
    case PutOutcome(o) => s.(outcomes := s.outcomes[o.id := o])
    case PutOutcomePointer(o) => s.(outcomePointers := s.outcomePointers[o.body.proposalId := o])
    case PutRollbackIntent(i) => s.(rollbackIntents := s.rollbackIntents[i.proposalId := i])
    case PutRollback(r) => s.(rollbacks := s.rollbacks[r.id := r])
    case PutRollbackPointer(r) => s.(rollbackPointers := s.rollbackPointers[r.body.proposalId := r])
  }

  datatype ReleaseError =
    | Crashed | ArtifactCollision | ProposalMissing | ProposalRevisionConflict | ProposalIntentMismatch
    | DecisionArtifactInvalid | DecisionIdempotencyConflict
    | ParentActiveRevisionConflict | CodeRevisionMismatch | RetrievalEvidenceInvalid
    | ReleaseNotApproved | ValidationReceiptInvalid | OutcomeArtifactInvalid | OutcomeIdempotencyConflict
    | ReleaseNotActive | RollbackReceiptInvalid | RollbackArtifactInvalid | RollbackIdempotencyConflict
    | RollbackPointerConflict | ReleaseLifecycleInvalid

  datatype Performed = Performed(store: Store, power: nat, stop: Option<ReleaseError>)

  /** Performs writes in order, until the process dies (no power left) or a file has other content. */
  function Perform(s: Store, writes: seq<Write>, power: nat): Performed
    decreases |writes|
  {
    if writes == [] then Performed(s, power, None)
    else if power == 0 then Performed(s, 0, Some(Crashed))
    else if !Writable(s, writes[0]) then Performed(s, power, Some(ArtifactCollision))
    else Perform(Written(s, writes[0]), writes[1..], power - 1)
  }

  // ----- Loads -----

  function LoadProposal(s: Store, id: Id, revision: string): Result<Proposal, ReleaseError> {
    if id !in s.proposals || s.proposals[id].id != id then Err(ProposalMissing)
    else if s.proposals[id].revision != revision then Err(ProposalRevisionConflict)
    else Ok(s.proposals[id])
  }

  function LoadDecision(s: Store, proposalId: Id): Result<Option<ReleaseDecision>, ReleaseError> {
    if proposalId !in s.decisionPointers then Ok(None)
    else
      var d := s.decisionPointers[proposalId];
      if d.body.proposalId != proposalId || d.id !in s.decisions || s.decisions[d.id] != d then Err(DecisionArtifactInvalid)
      else Ok(Some(d))
  }

  function LoadClientAction(s: Store, clientActionId: Id): Option<ReleaseDecision> {
    if clientActionId in s.clientActions then Some(s.clientActions[clientActionId]) else None
  }

  function LoadOutcome(s: Store, proposalId: Id): Result<Option<ReleaseOutcome>, ReleaseError> {
    if proposalId !in s.outcomePointers then Ok(None)
    else
      var o := s.outcomePointers[proposalId];
      if o.body.proposalId != proposalId || o.id !in s.outcomes || s.outcomes[o.id] != o then Err(OutcomeArtifactInvalid)
      else Ok(Some(o))
  }

  function LoadRollback(s: Store, proposalId: Id): Result<Option<ReleaseRollback>, ReleaseError> {
    if proposalId !in s.rollbackPointers then Ok(None)
    else
      var r := s.rollbackPointers[proposalId];
      if r.body.proposalId != proposalId || r.id !in s.rollbacks || s.rollbacks[r.id] != r then Err(RollbackArtifactInvalid)
      else Ok(Some(r))
  }

  // ----- Requests -----

  /** What an approval reads outside the store; the two pointer reads may differ. */
  datatype Deployment = Deployment(
    activeBefore: Option<Revision>, codeRevision: string, evidenceValid: bool, activeAfter: Option<Revision>)

  datatype Request =
    | Propose(analysis: Analysis, active: Option<Revision>)
    | Decide(proposalId: Id, proposalRevision: string, choice: Choice, clientActionId: Id, actorId: Id, deployment: Deployment)
    | RecordOutcome(proposalId: Id, proposalRevision: string, verdict: Verdict, receipt: Receipt,
                    activeRevision: Option<Revision>, active: Option<Revision>)
    | RecordRollback(proposalId: Id, proposalRevision: string, rollbackReceipt: RollbackReceipt, active: Option<Revision>)

  datatype Answer =
    | ProposalAnswer(proposal: Proposal)
    | DecisionAnswer(decision: ReleaseDecision)
    | OutcomeAnswer(outcome: ReleaseOutcome)
    | RollbackAnswer(rollback: ReleaseRollback)

  /** What a request does under the lock: refuse, or perform writes and answer. */
  datatype Plan = Refuse(error: ReleaseError) | Proceed(writes: seq<Write>, answer: Answer)

  predicate IntentMatches(i: ProposalIntent, a: Analysis) {
    && i.traceId == a.traceId && i.codeRevision == a.codeRevision && i.configSha == a.configSha
    && i.baselineRunId == a.baselineRunId && i.candidateRunId == a.candidateRunId && i.comparisonId == a.comparisonId
  }

  function PlanProposal(naming: Naming, s: Store, analysis: Analysis, active: Option<Revision>): Plan {
    if analysis.traceId in s.proposalIntents then
      var intent := s.proposalIntents[analysis.traceId];
      var p := BuildProposal(naming, analysis, intent.parent);
      if !IntentMatches(intent, analysis) || p.id != intent.proposalId || p.revision != intent.proposalRevision
      then Refuse(ProposalIntentMismatch)
      else Proceed([PutProposal(p)], ProposalAnswer(p))
    else
      var p := BuildProposal(naming, analysis, active);
      Proceed([PutProposalIntent(ProposalIntentOf(p)), PutProposal(p)], ProposalAnswer(p))
  }

  function Publication(d: ReleaseDecision): seq<Write> {
    [PutDecision(d), PutDecisionPointer(d), PutClientAction(d)]
  }

  function ApprovalError(p: Proposal, deployment: Deployment): Option<ReleaseError> {
    if deployment.activeBefore != p.body.parent then Some(ParentActiveRevisionConflict)
    else if deployment.codeRevision != p.body.analysis.codeRevision then Some(CodeRevisionMismatch)
    else if !deployment.evidenceValid then Some(RetrievalEvidenceInvalid)
    else if deployment.activeAfter != p.body.parent then Some(ParentActiveRevisionConflict)
    else None
  }

  function PlanDecision(naming: Naming, s: Store, q: Request): Plan
    requires q.Decide?
  {
    var proposal := LoadProposal(s, q.proposalId, q.proposalRevision);
    if proposal.Err? then Refuse(proposal.error)
    else
      var d := BuildDecision(naming, proposal.value, q.choice, q.clientActionId, q.actorId);
      var existing, byAction := LoadDecision(s, q.proposalId), LoadClientAction(s, q.clientActionId);
      if existing.Err? then Refuse(existing.error)
      else if (existing.value.Some? && existing.value.value != d) || (byAction.Some? && byAction.value != d)
      then Refuse(DecisionIdempotencyConflict)
      else if existing.value.Some? || byAction.Some? then
        Proceed(if existing.value.None? || byAction.None? then Publication(d) else [], DecisionAnswer(d))
      else if q.choice == ApproveRelease && ApprovalError(proposal.value, q.deployment).Some? then
        Refuse(ApprovalError(proposal.value, q.deployment).value)
      else if q.proposalId in s.decisionIntents then
        if s.decisionIntents[q.proposalId] != DecisionIntentOf(d) then Refuse(DecisionIdempotencyConflict)
        else Proceed(Publication(d), DecisionAnswer(d))
      else Proceed([PutDecisionIntent(DecisionIntentOf(d))] + Publication(d), DecisionAnswer(d))
  }

  predicate ReceiptFits(p: Proposal, b: ReceiptBinding) {
    b == ReceiptBinding(p.id, p.revision, p.body.analysis.pipelineId, p.body.analysis.configSha,
                        p.body.analysis.codeRevision, p.body.parent)
  }

  predicate ValidReceipt(
    p: Proposal, verdict: Verdict, receipt: Receipt, activeRevision: Option<Revision>, active: Option<Revision>)
  {
    match verdict
    case Activated =>
      && receipt.ActivationReceipt? && activeRevision == Some(receipt.strategyRevision)
      && active == Some(receipt.strategyRevision) && ReceiptFits(p, receipt.binding)
    case ValidationFailed =>
      receipt.FailureReceipt? && activeRevision.None? && ReceiptFits(p, receipt.binding)
  }

  function OutcomePublication(o: ReleaseOutcome): seq<Write> {
    [PutOutcome(o), PutOutcomePointer(o)]
  }

  function PlanOutcome(naming: Naming, s: Store, q: Request): Plan
    requires q.RecordOutcome?
  {
    var proposal := LoadProposal(s, q.proposalId, q.proposalRevision);
    if proposal.Err? then Refuse(proposal.error)
    else
      var decision := LoadDecision(s, q.proposalId);
      if decision.Err? then Refuse(decision.error)
      else if decision.value.None? || decision.value.value.body.choice != ApproveRelease then Refuse(ReleaseNotApproved)
      else if !ValidReceipt(proposal.value, q.verdict, q.receipt, q.activeRevision, q.active) then
        Refuse(ValidationReceiptInvalid)
      else
        var o := BuildOutcome(naming, proposal.value, decision.value.value, q.verdict, q.receipt, q.activeRevision);
        var existing := LoadOutcome(s, q.proposalId);
        if existing.Err? then Refuse(existing.error)
        else if existing.value.Some? then
          if existing.value.value != o then Refuse(OutcomeIdempotencyConflict) else Proceed([], OutcomeAnswer(o))
        else if q.proposalId in s.outcomeIntents then
          if s.outcomeIntents[q.proposalId] != OutcomeIntentOf(naming, o) then Refuse(OutcomeIdempotencyConflict)
          else Proceed(OutcomePublication(o), OutcomeAnswer(o))
        else Proceed([PutOutcomeIntent(OutcomeIntentOf(naming, o))] + OutcomePublication(o), OutcomeAnswer(o))
  }

  predicate ValidRollbackReceipt(p: Proposal, o: ReleaseOutcome, receipt: RollbackReceipt) {
    && receipt.RollbackReceipt? && receipt.source != receipt.target
    && o.body.activeRevision == Some(receipt.source)
    && o.body.proposalId == p.id && o.body.proposalRevision == p.revision
    && o.body.configSha == p.body.analysis.configSha && o.body.pipelineId == p.body.analysis.pipelineId
  }

  function RollbackPublication(r: ReleaseRollback): seq<Write> {
    [PutRollback(r), PutRollbackPointer(r)]
  }

  function PlanRollback(naming: Naming, s: Store, q: Request): Plan
    requires q.RecordRollback?
  {
    var proposal := LoadProposal(s, q.proposalId, q.proposalRevision);
    if proposal.Err? then Refuse(proposal.error)
    else
      var decision, outcome := LoadDecision(s, q.proposalId), LoadOutcome(s, q.proposalId);
      if decision.Err? then Refuse(decision.error)
      else if outcome.Err? then Refuse(outcome.error)
      else if decision.value.None? || decision.value.value.body.choice != ApproveRelease then Refuse(ReleaseNotApproved)
      else if outcome.value.None? || outcome.value.value.body.verdict != Activated then Refuse(ReleaseNotActive)
      else if !ValidRollbackReceipt(proposal.value, outcome.value.value, q.rollbackReceipt) then
        Refuse(RollbackReceiptInvalid)
      else
        var r := BuildRollback(naming, proposal.value, outcome.value.value, q.rollbackReceipt);
        var existing := LoadRollback(s, q.proposalId);
        if existing.Err? then Refuse(existing.error)
        else if existing.value.Some? then
          if existing.value.value != r then Refuse(RollbackIdempotencyConflict) else Proceed([], RollbackAnswer(r))
        else if q.active != Some(q.rollbackReceipt.target) then Refuse(RollbackPointerConflict)
        else if q.proposalId in s.rollbackIntents then
          if s.rollbackIntents[q.proposalId] != RollbackIntentOf(naming, r) then Refuse(RollbackIdempotencyConflict)
          else Proceed(RollbackPublication(r), RollbackAnswer(r))
        else Proceed([PutRollbackIntent(RollbackIntentOf(naming, r))] + RollbackPublication(r), RollbackAnswer(r))
  }

  function PlanOf(naming: Naming, s: Store, q: Request): Plan {
    match q
    case Propose(analysis, active) => PlanProposal(naming, s, analysis, active)
    case Decide(_, _, _, _, _, _) => PlanDecision(naming, s, q)
    case RecordOutcome(_, _, _, _, _, _) => PlanOutcome(naming, s, q)
    case RecordRollback(_, _, _, _) => PlanRollback(naming, s, q)
  }

  datatype Served = Served(store: Store, power: nat, reply: Result<Answer, ReleaseError>)

  /** The effect and the reply of one request that dies after `power` writes. */
  function Serve(naming: Naming, s: Store, q: Request, power: nat): Served {
    match PlanOf(naming, s, q)
    case Refuse(error) => Served(s, power, Err(error))
    case Proceed(writes, answer) =>
      var done := Perform(s, writes, power);
      Served(done.store, done.power, if done.stop.Some? then Err(done.stop.value) else Ok(answer))
  }

  // ----- Lifecycle -----

  datatype Lifecycle = PendingReview | ApprovedForValidation | Rejected | ActiveRelease | FailedValidation | RolledBack

  function DecisionLifecycle(d: ReleaseDecision): Lifecycle {
    if d.body.choice == ApproveRelease then ApprovedForValidation else Rejected
  }

  /** The derived lifecycle of a release under a serving pointer. */
  function ReleaseLifecycle(
    decision: Option<ReleaseDecision>, outcome: Option<ReleaseOutcome>, rollback: Option<ReleaseRollback>,
    active: Option<Revision>): Result<Lifecycle, ReleaseError>
  {
    var approved := decision.Some? && decision.value.body.choice == ApproveRelease;
    if rollback.Some? then
      if !approved || outcome.None? || outcome.value.body.verdict != Activated
         || rollback.value.body.outcomeId != outcome.value.id
         || rollback.value.body.proposalRevision != outcome.value.body.proposalRevision
         || !rollback.value.body.receipt.RollbackReceipt?
         || Some(rollback.value.body.receipt.source) != outcome.value.body.activeRevision
      then Err(ReleaseLifecycleInvalid)
      else Ok(RolledBack)
    else if outcome.Some? then
      if !approved then Err(ReleaseLifecycleInvalid)
      else if outcome.value.body.verdict == ValidationFailed then Ok(FailedValidation)
      else if outcome.value.body.activeRevision != active then Ok(RolledBack)
      else Ok(ActiveRelease)
    else if decision.Some? then Ok(DecisionLifecycle(decision.value))
    else Ok(PendingReview)
  }

  /** Loads one release and derives its lifecycle. */
  function LoadLifecycle(s: Store, proposalId: Id, active: Option<Revision>): Result<Lifecycle, ReleaseError> {
    if proposalId !in s.proposals || s.proposals[proposalId].id != proposalId then Err(ProposalMissing)
    else
      var d, o, r := LoadDecision(s, proposalId), LoadOutcome(s, proposalId), LoadRollback(s, proposalId);
      if d.Err? then Err(d.error)
      else if o.Err? then Err(o.error)
      else if r.Err? then Err(r.error)
      else ReleaseLifecycle(d.value, o.value, r.value, active)
  }

  // ----- The control plane as written -----

  /** Performing two lists in turn is performing the second from where the first stopped. */
  lemma {:induction false} PerformAppend(s: Store, a: seq<Write>, b: seq<Write>, power: nat)
    ensures var first := Perform(s, a, power);
            Perform(s, a + b, power) == if first.stop.Some? then first else Perform(first.store, b, first.power)
    decreases |a|
  {
    hide Writable, Written;
    if a == [] {
      assert a + b == b;
    } else {
      assert (a + b)[1..] == a[1..] + b;
      if power > 0 && Writable(s, a[0]) {
        PerformAppend(Written(s, a[0]), a[1..], b, power - 1);
      }
    }
  }

  /** The state and the reply after performing `writes` and then answering. */
  ghost predicate Performs<T>(
    before: Store, powerBefore: nat, after: Store, powerAfter: nat, writes: seq<Write>, r: Result<T, ReleaseError>)
  {
    var done := Perform(before, writes, powerBefore);
    && after == done.store && powerAfter == done.power
    && (if done.stop.Some? then r.Err? && r.error == done.stop.value else r.Ok?)
  }

  class ReleaseControlPlane {
    const naming: Naming
    var files: Store
    var power: nat

    constructor (naming: Naming, power: nat)
      ensures this.naming == naming && this.power == power && files == EMPTY
    {
      this.naming, this.power, this.files := naming, power, EMPTY;
    }

    /** Publishes one file without clobbering another writer's content. */
    method WriteImmutable(w: Write) returns (r: Result<(), ReleaseError>)
      modifies this
      ensures Performs(old(files), old(power), files, power, [w], r)
    {
      hide Writable, Written;
      assert [w][1..] == [];
      if power == 0 {
        return Err(Crashed);
      }
      if !Writable(files, w) {
        return Err(ArtifactCollision);
      }
      files, power := Written(files, w), power - 1;
      PerformNothing(files, power);
      return Ok(());
    }

    method CreateOrLoadProposal(analysis: Analysis, active: Option<Revision>) returns (r: Result<Answer, ReleaseError>)
      modifies this
      ensures Served(files, power, r) == Serve(naming, old(files), Propose(analysis, active), old(power))
    {
      hide Perform, BuildProposal;
      var p;
      if analysis.traceId in files.proposalIntents {
        var intent := files.proposalIntents[analysis.traceId];
        p := BuildProposal(naming, analysis, intent.parent);
        if !IntentMatches(intent, analysis) || p.id != intent.proposalId || p.revision != intent.proposalRevision {
          return Err(ProposalIntentMismatch);
        }
      } else {
        p := BuildProposal(naming, analysis, active);
        PerformAppend(files, [PutProposalIntent(ProposalIntentOf(p))], [PutProposal(p)], power);
        assert [PutProposalIntent(ProposalIntentOf(p))] + [PutProposal(p)] == [PutProposalIntent(ProposalIntentOf(p)), PutProposal(p)];
        var _ :- WriteImmutable(PutProposalIntent(ProposalIntentOf(p)));
      }
      var _ :- WriteImmutable(PutProposal(p));
      return Ok(ProposalAnswer(p));
    }

    method PrepareDecisionIntent(intent: DecisionIntent) returns (r: Result<(), ReleaseError>)
      modifies this
      ensures if intent.proposalId in old(files).decisionIntents then
                && files == old(files) && power == old(power)
                && r == if old(files).decisionIntents[intent.proposalId] != intent then Err(DecisionIdempotencyConflict) else Ok(())
              else Performs(old(files), old(power), files, power, [PutDecisionIntent(intent)], r)
    {
      hide Perform;
      if intent.proposalId in files.decisionIntents {
        return if files.decisionIntents[intent.proposalId] != intent then Err(DecisionIdempotencyConflict) else Ok(());
      }
      r := WriteImmutable(PutDecisionIntent(intent));
    }

    /** The record, then the proposal's pointer, then the client action's pointer. */
    method CompleteDecisionPublication(d: ReleaseDecision) returns (r: Result<(), ReleaseError>)
      modifies this
      ensures Performs(old(files), old(power), files, power, Publication(d), r)
    {
      hide Perform;
      PerformAppend(files, [PutDecision(d)], [PutDecisionPointer(d), PutClientAction(d)], power);
      assert Publication(d) == [PutDecision(d)] + [PutDecisionPointer(d), PutClientAction(d)];
      var _ :- WriteImmutable(PutDecision(d));
      PerformAppend(files, [PutDecisionPointer(d)], [PutClientAction(d)], power);
      assert [PutDecisionPointer(d), PutClientAction(d)] == [PutDecisionPointer(d)] + [PutClientAction(d)];
      var _ :- WriteImmutable(PutDecisionPointer(d));
      r := WriteImmutable(PutClientAction(d));
    }

    method ApplyDecision(q: Request) returns (r: Result<Answer, ReleaseError>)
      requires q.Decide?
      modifies this
      ensures Served(files, power, r) == Serve(naming, old(files), q, old(power))
    {
      hide Perform, BuildDecision, LoadProposal, LoadDecision, LoadClientAction, ApprovalError, Publication;
      var proposal :- LoadProposal(files, q.proposalId, q.proposalRevision);
      var candidate := BuildDecision(naming, proposal, q.choice, q.clientActionId, q.actorId);
      var existing :- LoadDecision(files, q.proposalId);
      var byAction := LoadClientAction(files, q.clientActionId);
      if (existing.Some? && existing.value != candidate) || (byAction.Some? && byAction.value != candidate) {
        return Err(DecisionIdempotencyConflict);
      }
      CandidateIs(naming, files, q, proposal);
      if existing.Some? || byAction.Some? {
        if existing.None? || byAction.None? {
          var _ :- CompleteDecisionPublication(candidate);
        } else {
          PerformNothing(files, power);
        }
        return Ok(DecisionAnswer(candidate));
      }
      if q.choice == ApproveRelease {
        var error := ApprovalError(proposal, q.deployment);
        if error.Some? {
          return Err(error.value);
        }
      }
      PerformAppend(files, [PutDecisionIntent(DecisionIntentOf(candidate))], Publication(candidate), power);
      var _ :- PrepareDecisionIntent(DecisionIntentOf(candidate));
      var _ :- CompleteDecisionPublication(candidate);
      return Ok(DecisionAnswer(candidate));
    }

    method PrepareOutcomeIntent(intent: OutcomeIntent) returns (r: Result<(), ReleaseError>)
      modifies this
      ensures if intent.proposalId in old(files).outcomeIntents then
                && files == old(files) && power == old(power)
                && r == if old(files).outcomeIntents[intent.proposalId] != intent then Err(OutcomeIdempotencyConflict) else Ok(())
              else Performs(old(files), old(power), files, power, [PutOutcomeIntent(intent)], r)
    {
      hide Perform;
      if intent.proposalId in files.outcomeIntents {
        return if files.outcomeIntents[intent.proposalId] != intent then Err(OutcomeIdempotencyConflict) else Ok(());
      }
      r := WriteImmutable(PutOutcomeIntent(intent));
    }

    method CompleteOutcomePublication(o: ReleaseOutcome) returns (r: Result<(), ReleaseError>)
      modifies this
      ensures Performs(old(files), old(power), files, power, OutcomePublication(o), r)
    {
      hide Perform;
      PerformAppend(files, [PutOutcome(o)], [PutOutcomePointer(o)], power);
      assert OutcomePublication(o) == [PutOutcome(o)] + [PutOutcomePointer(o)];
      var _ :- WriteImmutable(PutOutcome(o));
      r := WriteImmutable(PutOutcomePointer(o));
    }

    method RecordReleaseOutcome(q: Request) returns (r: Result<Answer, ReleaseError>)
      requires q.RecordOutcome?
      modifies this
      ensures Served(files, power, r) == Serve(naming, old(files), q, old(power))
    {
      hide Perform, BuildOutcome, LoadProposal, LoadDecision, LoadOutcome, ValidReceipt, OutcomePublication;
      var proposal :- LoadProposal(files, q.proposalId, q.proposalRevision);
      var decision :- LoadDecision(files, q.proposalId);
      if decision.None? || decision.value.body.choice != ApproveRelease {
        return Err(ReleaseNotApproved);
      }
      if !ValidReceipt(proposal, q.verdict, q.receipt, q.activeRevision, q.active) {
        return Err(ValidationReceiptInvalid);
      }
      var outcome := BuildOutcome(naming, proposal, decision.value, q.verdict, q.receipt, q.activeRevision);
      OutcomeIs(naming, files, q, proposal, decision.value);
      var existing :- LoadOutcome(files, q.proposalId);
      if existing.Some? {
        PerformNothing(files, power);
        return if existing.value != outcome then Err(OutcomeIdempotencyConflict) else Ok(OutcomeAnswer(outcome));
      }
      PerformAppend(files, [PutOutcomeIntent(OutcomeIntentOf(naming, outcome))], OutcomePublication(outcome), power);
      var _ :- PrepareOutcomeIntent(OutcomeIntentOf(naming, outcome));
      var _ :- CompleteOutcomePublication(outcome);
      return Ok(OutcomeAnswer(outcome));
    }

    method PrepareRollbackIntent(intent: RollbackIntent) returns (r: Result<(), ReleaseError>)
      modifies this
      ensures if intent.proposalId in old(files).rollbackIntents then
                && files == old(files) && power == old(power)
                && r == if old(files).rollbackIntents[intent.proposalId] != intent then Err(RollbackIdempotencyConflict) else Ok(())
              else Performs(old(files), old(power), files, power, [PutRollbackIntent(intent)], r)
    {
      hide Perform;
      if intent.proposalId in files.rollbackIntents {
        return if files.rollbackIntents[intent.proposalId] != intent then Err(RollbackIdempotencyConflict) else Ok(());
      }
      r := WriteImmutable(PutRollbackIntent(intent));
    }

    method CompleteRollbackPublication(rollback: ReleaseRollback) returns (r: Result<(), ReleaseError>)
      modifies this
      ensures Performs(old(files), old(power), files, power, RollbackPublication(rollback), r)
    {
      hide Perform;
      PerformAppend(files, [PutRollback(rollback)], [PutRollbackPointer(rollback)], power);
      assert RollbackPublication(rollback) == [PutRollback(rollback)] + [PutRollbackPointer(rollback)];
      var _ :- WriteImmutable(PutRollback(rollback));
      r := WriteImmutable(PutRollbackPointer(rollback));
    }

    method RecordReleaseRollback(q: Request) returns (r: Result<Answer, ReleaseError>)
      requires q.RecordRollback?
      modifies this
      ensures Served(files, power, r) == Serve(naming, old(files), q, old(power))
    {
      hide Perform, BuildRollback, LoadProposal, LoadDecision, LoadOutcome, LoadRollback, RollbackPublication;
      var proposal :- LoadProposal(files, q.proposalId, q.proposalRevision);
      var decision :- LoadDecision(files, q.proposalId);
      var outcome :- LoadOutcome(files, q.proposalId);
      if decision.None? || decision.value.body.choice != ApproveRelease {
        return Err(ReleaseNotApproved);
      }
      if outcome.None? || outcome.value.body.verdict != Activated {
        return Err(ReleaseNotActive);
      }
      if !ValidRollbackReceipt(proposal, outcome.value, q.rollbackReceipt) {
        return Err(RollbackReceiptInvalid);
      }
      var rollback := BuildRollback(naming, proposal, outcome.value, q.rollbackReceipt);
      RollbackIs(naming, files, q, proposal, outcome.value);
      var existing :- LoadRollback(files, q.proposalId);
      if existing.Some? {
        PerformNothing(files, power);
        return if existing.value != rollback then Err(RollbackIdempotencyConflict) else Ok(RollbackAnswer(rollback));
      }
      if q.active != Some(q.rollbackReceipt.target) {
        return Err(RollbackPointerConflict);
      }
      PerformAppend(files, [PutRollbackIntent(RollbackIntentOf(naming, rollback))], RollbackPublication(rollback), power);
      var _ :- PrepareRollbackIntent(RollbackIntentOf(naming, rollback));
      var _ :- CompleteRollbackPublication(rollback);
      return Ok(RollbackAnswer(rollback));
    }
  }

  lemma PerformNothing(s: Store, power: nat)
    ensures Perform(s, [], power) == Performed(s, power, None)
  {
  }

  // What a built record says about the request it was built for.
  lemma CandidateIs(naming: Naming, s: Store, q: Request, p: Proposal)
    requires q.Decide? && LoadProposal(s, q.proposalId, q.proposalRevision) == Ok(p)
    ensures BuildDecision(naming, p, q.choice, q.clientActionId, q.actorId).body.proposalId == q.proposalId
  {
  }

  lemma OutcomeIs(naming: Naming, s: Store, q: Request, p: Proposal, d: ReleaseDecision)
    requires q.RecordOutcome? && LoadProposal(s, q.proposalId, q.proposalRevision) == Ok(p)
    ensures BuildOutcome(naming, p, d, q.verdict, q.receipt, q.activeRevision).body.proposalId == q.proposalId
  {
  }

  lemma RollbackIs(naming: Naming, s: Store, q: Request, p: Proposal, o: ReleaseOutcome)
    requires q.RecordRollback? && LoadProposal(s, q.proposalId, q.proposalRevision) == Ok(p)
    ensures var r := BuildRollback(naming, p, o, q.rollbackReceipt);
            r.body.proposalId == q.proposalId && r.body.receipt == q.rollbackReceipt
  {
  }
}
