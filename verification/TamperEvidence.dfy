/** The last event hash of an accepted trace pins the whole trace (trace.py, replay.py). */
module TamperEvidence {
  import opened Contracts
  import opened Replay
  import opened Trace
  import opened TraceLanguage

  /** No two different events, results or headers hash alike. */
  ghost predicate CollisionFree(h: Hashes) {
    && (forall a, b :: h.event(a) == h.event(b) ==> a == b)
    && (forall a, b :: h.terminal(a) == h.terminal(b) ==> a == b)
    && (forall a, b :: h.context(a) == h.context(b) ==> a == b)
  }

  /** Equal hashes, equal events: a missing audit has two encodings, but neither is a present one. */
  lemma HashPinsEvent(h: Hashes, d: Event, e: Event)
    requires CollisionFree(h) && HashMatches(h, d) && HashMatches(h, e) && d.eventHash == e.eventHash
    ensures d == e
  {
  }

  ghost predicate Chained(h: Hashes, events: seq<Event>) {
    forall i :: 0 <= i < |events| ==> Linked(h, events, i)
  }

  /** Backward along the chain: the hash of event k pins the first k + 1 events. */
  lemma {:induction false} HashPinsPrefix(h: Hashes, a: seq<Event>, b: seq<Event>, k: nat)
    requires CollisionFree(h) && Chained(h, a) && Chained(h, b)
    requires k < |a| && k < |b| && a[k].eventHash == b[k].eventHash
    ensures a[..k + 1] == b[..k + 1]
  {
    assert Linked(h, a, k) && Linked(h, b, k);
    HashPinsEvent(h, a[k], b[k]);
    if k > 0 {
      assert a[k].previousHash == a[..k][k - 1].eventHash;
      assert b[k].previousHash == b[..k][k - 1].eventHash;
      HashPinsPrefix(h, a, b, k - 1);
    }
    assert a[..k + 1] == a[..k] + [a[k]];
    assert b[..k + 1] == b[..k] + [b[k]];
  }

  lemma AcceptedIsChained(h: Hashes, trace: AgentTrace)
    requires Accepted(h, trace)
    ensures trace.events != [] && Chained(h, trace.events)
    ensures var e := trace.events[|trace.events| - 1];
            && e.sequence == |trace.events|
            && e.contextHash == Some(h.context(trace.header)) && e.terminalHash == Some(h.terminal(trace.terminal))
  {
    hide Accepted, HashMatches, ResultReplays, CompletedAt, FailedAt, AuditedAs, PolicyError;
    ReplayExact(h, trace);
    var n := |trace.events| - 1;
    forall i | 0 <= i <= n
      ensures Linked(h, trace.events, i)
    {
      if i < n {
        assert TripleAt(h, trace.header, trace.events, i);
      }
    }
  }

  /** Two accepted traces with the same last event hash are the same trace: same length, events,
      task, policy, tools and terminal result. */
  lemma LastHashPinsTrace(h: Hashes, s: AgentTrace, t: AgentTrace)
    requires CollisionFree(h) && Accepted(h, s) && Accepted(h, t)
    requires LastHash(h, s.events) == LastHash(h, t.events)
    ensures s == t
  {
    hide Accepted, HashMatches, Linked;
    AcceptedIsChained(h, s);
    AcceptedIsChained(h, t);
    var m, n := |s.events| - 1, |t.events| - 1;
    LinkedHashes(h, s.events, m);
    LinkedHashes(h, t.events, n);
    HashPinsEvent(h, s.events[m], t.events[n]);
    HashPinsPrefix(h, s.events, t.events, n);
    assert s.events[..n + 1] == s.events && t.events[..n + 1] == t.events;
  }

  lemma LinkedHashes(h: Hashes, events: seq<Event>, i: nat)
    requires Chained(h, events) && i < |events|
    ensures HashMatches(h, events[i])
  {
    assert Linked(h, events, i);
  }
}
