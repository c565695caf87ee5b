/** The strategy decision workflow (optimization.py): an approval is five writes, a rejection three,
    any of which may be the last one before a crash. */
module StrategyDecisions {
  import opened Contracts

  datatype Choice = Adopt | Decline

  datatype Strategy = Strategy(id: Id, configSha: string, display: string, config: string)

  datatype StrategyProposal = StrategyProposal(
    id: Id, pending: bool, parentId: Option<Id>, parentRevision: Option<string>, strategy: Strategy,
    baselineRunId: Id, candidateRunId: Id, comparisonId: Id, gatePassed: bool, metrics: string)

  datatype DecisionPayload = DecisionPayload(id: Id, choice: Choice, proposalId: Id, strategyId: Id, configSha: string)

  datatype DecisionIntent = DecisionIntent(
    choice: Choice, parentId: Option<Id>, parentRevision: Option<string>, proposalId: Id, strategyId: Id, configSha: string)

  datatype ActiveEntry = ActiveEntry(
    proposalId: Id, baselineRunId: Id, candidateRunId: Id, comparisonId: Id, strategy: Strategy)

  datatype CatalogItem = CatalogItem(strategyId: Id, display: string, comparisonId: Id, proposalId: Id)

  // An entry carried over from a catalog without history has no decision and no time.
  datatype HistoryItem = HistoryItem(item: CatalogItem, decisionId: Option<Id>, adoptedAt: Option<string>, evidence: string)

  datatype Catalog = Catalog(strategies: seq<CatalogItem>, history: seq<HistoryItem>)

  // Intents and records are written once; the catalog, the active strategy and pointers are replaced.
  datatype Files = Files(
    intents: map<Id, DecisionIntent>, records: map<Id, DecisionPayload>, catalog: Catalog,
    active: Option<ActiveEntry>, pointers: map<Id, DecisionPayload>)

  const EMPTY := Files(map[], map[], Catalog([], []), None, map[])

  /** Content ids and hashes, and the proposals, which never change. */
  datatype World = World(
    decisionId: (Choice, StrategyProposal) -> Id, revision: ActiveEntry -> string, proposals: map<Id, StrategyProposal>)
  {
    predicate Valid() {
      forall p :: p in proposals ==> proposals[p].id == p
    }
  }

  function PayloadOf(w: World, p: StrategyProposal, choice: Choice): DecisionPayload {
    DecisionPayload(w.decisionId(choice, p), choice, p.id, p.strategy.id, p.strategy.configSha)
  }

  function IntentOf(p: StrategyProposal, choice: Choice): DecisionIntent {
    DecisionIntent(choice, p.parentId, p.parentRevision, p.id, p.strategy.id, p.strategy.configSha)
  }

  function EntryOf(p: StrategyProposal): ActiveEntry {
    ActiveEntry(p.id, p.baselineRunId, p.candidateRunId, p.comparisonId, p.strategy)
  }

  function ItemOf(p: StrategyProposal): CatalogItem {
    CatalogItem(p.strategy.id, p.strategy.display, p.comparisonId, p.id)
  }

  function IdentityOf(w: World, active: Option<ActiveEntry>): (Option<Id>, Option<string>) {
    if active.None? then (None, None) else (Some(active.value.strategy.id), Some(w.revision(active.value)))
  }

  /** What an approval may overwrite: the exact parent of the proposal, or the target itself. */
  predicate Replaceable(w: World, active: Option<ActiveEntry>, p: StrategyProposal) {
    active == Some(EntryOf(p)) || IdentityOf(w, active) == (p.parentId, p.parentRevision)
  }

  // ----- The catalog -----

  function Without(strategies: seq<CatalogItem>, id: Id): seq<CatalogItem> {
    if strategies == [] then []
    else
      Without(strategies[..|strategies| - 1], id) +
      if strategies[|strategies| - 1].strategyId != id then [strategies[|strategies| - 1]] else []
  }

  function Inherited(strategies: seq<CatalogItem>): seq<HistoryItem> {
    if strategies == [] then []
    else Inherited(strategies[..|strategies| - 1]) + [HistoryItem(strategies[|strategies| - 1], None, None, "")]
  }

  predicate Records(history: seq<HistoryItem>, decisionId: Id) {
    exists i :: 0 <= i < |history| && history[i].decisionId == Some(decisionId)
  }

  function SnapshotOf(p: StrategyProposal, d: DecisionPayload, now: string): HistoryItem {
    HistoryItem(ItemOf(p), Some(d.id), Some(now), p.metrics)
  }

  function Adopted(c: Catalog, p: StrategyProposal, d: DecisionPayload, now: string): Catalog {
    var history := if c.history == [] then Inherited(c.strategies) else c.history;
    Catalog(Without(c.strategies, p.strategy.id) + [ItemOf(p)],
            if Records(history, d.id) then history else history + [SnapshotOf(p, d, now)])
  }

  // ----- One request -----

  datatype DecisionError =
    | Crashed | ProposalMissing | DifferentDecision | NotPending | CodeRevisionInvalid | Stale | GateNotPassed
    | EvidenceInvalid | ArtifactCollision

  datatype Request = Request(proposalId: Id, choice: Choice, codeRevisionValid: bool, evidenceValid: bool, now: string)

  type Reply = Result<DecisionPayload, DecisionError>

  /** Under the lock a request is refused, or leads through a list of states, one write apart, to a reply. */
  datatype Course = Refused(error: DecisionError) | Through(states: seq<Files>, reply: Reply)

  function ApprovalError(w: World, s: Files, p: StrategyProposal, q: Request): Option<DecisionError> {
    if !q.codeRevisionValid then Some(CodeRevisionInvalid)
    else if !Replaceable(w, s.active, p) then Some(Stale)
    else if !p.gatePassed then Some(GateNotPassed)
    else if !q.evidenceValid then Some(EvidenceInvalid)
    else None
  }

  function Intended(s: Files, p: StrategyProposal, choice: Choice): Files {
    s.(intents := s.intents[p.id := IntentOf(p, choice)])
  }

  function Recorded(s: Files, d: DecisionPayload): Files {
    s.(records := s.records[d.id := d])
  }

  function Cataloged(s: Files, p: StrategyProposal, d: DecisionPayload, now: string): Files {
    s.(catalog := Adopted(s.catalog, p, d, now))
  }

  function Activated(s: Files, p: StrategyProposal): Files {
    s.(active := Some(EntryOf(p)))
  }

  function Pointed(s: Files, d: DecisionPayload): Files {
    s.(pointers := s.pointers[d.proposalId := d])
  }

  // The states after the record, the catalog, the active strategy and the pointer.
  function Publication(s: Files, p: StrategyProposal, d: DecisionPayload, now: string): seq<Files> {
    var recorded := Recorded(s, d);
    if d.choice == Decline then [recorded, Pointed(recorded, d)]
    else
      var cataloged := Cataloged(recorded, p, d, now);
      var activated := Activated(cataloged, p);
      [recorded, cataloged, activated, Pointed(activated, d)]
  }

  function CourseOf(w: World, s: Files, q: Request): Course {
    if q.proposalId !in w.proposals then Refused(ProposalMissing)
    else
      var p := w.proposals[q.proposalId];
      if p.id in s.pointers then
        if s.pointers[p.id].choice != q.choice then Refused(DifferentDecision)
        else Through([s], Ok(s.pointers[p.id]))
      else if !p.pending then Refused(NotPending)
      else if q.choice == Adopt && ApprovalError(w, s, p, q).Some? then Refused(ApprovalError(w, s, p, q).value)
      else if p.id in s.intents && s.intents[p.id] != IntentOf(p, q.choice) then Refused(DifferentDecision)
      else
        var d := PayloadOf(w, p, q.choice);
        var start := if p.id in s.intents then [s] else [s, Intended(s, p, q.choice)];
        var intended := start[|start| - 1];
        if d.id in s.records && s.records[d.id] != d then Through(start, Err(ArtifactCollision))
        else Through(start + Publication(intended, p, d, q.now), Ok(d))
  }

  datatype Served = Served(files: Files, reply: Reply)

  /** The effect of a request that dies after `power` writes. */
  function Serve(w: World, s: Files, q: Request, power: nat): Served {
    match CourseOf(w, s, q)
    case Refused(error) => Served(s, Err(error))
    case Through(states, reply) =>
      if states == [] then Served(s, reply)
      else if power < |states| - 1 then Served(states[power], Err(Crashed))
      else Served(states[|states| - 1], reply)
  }

  // ----- The workflow as written -----

  class StrategyControl {
    const world: World
    var files: Files
    var power: nat

    constructor (world: World, power: nat)
      ensures this.world == world && this.power == power && files == EMPTY
    {
      this.world, this.power, this.files := world, power, EMPTY;
    }

    /** One atomic write, or death. */
    method Write(next: Files) returns (r: Result<(), DecisionError>)
      modifies this
      ensures old(power) == 0 ==> r == Err(Crashed) && files == old(files) && power == 0
      ensures old(power) > 0 ==> r == Ok(()) && files == next && power == old(power) - 1
    {
      if power == 0 {
        return Err(Crashed);
      }
      files, power := next, power - 1;
      return Ok(());
    }

    method PrepareIntent(p: StrategyProposal, choice: Choice) returns (r: Result<(), DecisionError>)
      modifies this
      ensures p.id in old(files).intents ==>
                files == old(files) && power == old(power)
                && r == if old(files).intents[p.id] != IntentOf(p, choice) then Err(DifferentDecision) else Ok(())
      ensures p.id !in old(files).intents && old(power) == 0 ==> r == Err(Crashed) && files == old(files) && power == 0
      ensures p.id !in old(files).intents && old(power) > 0 ==>
                r == Ok(()) && files == Intended(old(files), p, choice) && power == old(power) - 1
    {
      if p.id in files.intents {
        return if files.intents[p.id] != IntentOf(p, choice) then Err(DifferentDecision) else Ok(());
      }
      r := Write(Intended(files, p, choice));
    }

    /** The filter, the inherited history and the appended snapshot, as loops. */
    method AdoptedCatalog(p: StrategyProposal, d: DecisionPayload, now: string) returns (c: Catalog)
      ensures c == Adopted(files.catalog, p, d, now)
    {
      var old' := files.catalog.strategies;
      var strategies, inherited := [], [];
      for i := 0 to |old'|
        invariant strategies == Without(old'[..i], p.strategy.id) && inherited == Inherited(old'[..i])
      {
        assert old'[..i + 1][..i] == old'[..i];
        if old'[i].strategyId != p.strategy.id {
          strategies := strategies + [old'[i]];
        }
        inherited := inherited + [HistoryItem(old'[i], None, None, "")];
      }
      assert old'[..|old'|] == old';
      strategies := strategies + [ItemOf(p)];
      var history := if files.catalog.history == [] then inherited else files.catalog.history;
      var known := false;
      for i := 0 to |history|
        invariant known <==> exists j :: 0 <= j < i && history[j].decisionId == Some(d.id)
      {
        known := known || history[i].decisionId == Some(d.id);
      }
      if !known {
        history := history + [SnapshotOf(p, d, now)];
      }
      return Catalog(strategies, history);
    }

    /** Replaces the catalog and then the active strategy. */
    method WriteCatalog(p: StrategyProposal, d: DecisionPayload, now: string) returns (r: Result<(), DecisionError>)
      modifies this
      ensures var cataloged := Cataloged(old(files), p, d, now);
              if old(power) == 0 then r == Err(Crashed) && files == old(files) && power == 0
              else if old(power) == 1 then r == Err(Crashed) && files == cataloged && power == 0
              else r == Ok(()) && files == Activated(cataloged, p) && power == old(power) - 2
    {
      var catalog := AdoptedCatalog(p, d, now);
      var _ :- Write(files.(catalog := catalog));
      r := Write(Activated(files, p));
    }

    /** The record, the catalog and active strategy of an approval, and the pointer, until a write fails. */
    method Publish(p: StrategyProposal, d: DecisionPayload, now: string) returns (r: Reply)
      modifies this
      ensures var states := Publication(old(files), p, d, now);
              && states != []
              && if old(power) < |states| then r == Err(Crashed) && files == ([old(files)] + states)[old(power)]
                 else r == Ok(d) && files == states[|states| - 1]
    {
      hide Adopted;
      var _ :- Write(Recorded(files, d));
      if d.choice == Adopt {
        var _ :- WriteCatalog(p, d, now);
      }
      var _ :- Write(Pointed(files, d));
      return Ok(d);
    }

    method ApplyDecision(q: Request) returns (r: Reply)
      modifies this
      ensures Served(files, r) == Serve(world, old(files), q, old(power))
    {
      hide Publication, ApprovalError, IntentOf;
      if q.proposalId !in world.proposals {
        return Err(ProposalMissing);
      }
      var p := world.proposals[q.proposalId];
      if p.id in files.pointers {
        return if files.pointers[p.id].choice != q.choice then Err(DifferentDecision) else Ok(files.pointers[p.id]);
      }
      if !p.pending {
        return Err(NotPending);
      }
      if q.choice == Adopt {
        var error := ApprovalError(world, files, p, q);
        if error.Some? {
          return Err(error.value);
        }
      }
      var d := PayloadOf(world, p, q.choice);
      var _ :- PrepareIntent(p, q.choice);
      if d.id in files.records && files.records[d.id] != d {
        return Err(ArtifactCollision);
      }
      r := Publish(p, d, q.now);
    }
  }
}
