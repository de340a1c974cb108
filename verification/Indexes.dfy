/**
 The store's local indexes on runs that only ingest: the edge indexes are
 exactly the edges of the held bodies, and arrivals count each log densely.
 */
module Indexes {
  import opened Rows
  import opened Ingest
  import opened Converge

  // ── Edge indexes ─────────────────────────────────────────────────────

  predicate RowRefs(s: State, key: nat, id: ClaimHash) { id in s.claims && key in s.claims[id].refs }

  predicate RowBlobs(s: State, key: nat, id: ClaimHash) { id in s.claims && key in s.claims[id].blobs }

  /** Rows carry the edges of their body, and the index carries those of the rows. */
  ghost predicate Indexed(s: State) {
    && (forall id | id in s.claims ::
          s.claims[id].refs == RefsOf(s.claims[id].art.body) && s.claims[id].blobs == BlobsOf(s.claims[id].art.body))
    && (forall k, id :: Linked(s.backlinks, k, id) <==> RowRefs(s, k, id))
    && (forall k, id :: Linked(s.referrers, k, id) <==> RowBlobs(s, k, id))
  }

  lemma RedactionKeepsIndexes(s: State, s1: State, target: ClaimHash, redactor: ClaimHash)
    requires Redacted(s1, s, target, redactor) && Indexed(s)
    ensures Indexed(s1)
  {
    hide WellKept, NoEmptySets, Linked;
    forall k, id
      ensures Linked(s1.backlinks, k, id) <==> RowRefs(s1, k, id)
      ensures Linked(s1.referrers, k, id) <==> RowBlobs(s1, k, id)
    {
      assert Linked(s.backlinks, k, id) <==> RowRefs(s, k, id);
      assert Linked(s.referrers, k, id) <==> RowBlobs(s, k, id);
    }
  }

  lemma StoreKeepsIndexes(s: State, s2: State, a: Artifact, now: int)
    requires Stored(s2, s, a, now) && Indexed(s) && !Duplicate(s, a)
    ensures Indexed(s2)
  {
    hide WellKept, NoEmptySets, Linked, KeptBody, Suppressed;
    forall k, id
      ensures Linked(s2.backlinks, k, id) <==> RowRefs(s2, k, id)
      ensures Linked(s2.referrers, k, id) <==> RowBlobs(s2, k, id)
    {
      assert Linked(s.backlinks, k, id) <==> RowRefs(s, k, id);
      assert Linked(s.referrers, k, id) <==> RowBlobs(s, k, id);
      if id == a.id && id in s.claims {
        assert s.claims[id].refs == [] && s.claims[id].blobs == [];
      }
    }
  }

  lemma IngestKeepsIndexes(s: State, a: Artifact, now: int)
    requires WellKept(s) && Indexed(s)
    ensures Indexed(Ingested(s, a, now))
  {
    hide Redacted, Stored, StoreWrites, Indexed, Duplicate, Ingested, AfterRedaction;
    var s1 := AfterRedaction(s, a);
    RedactionEffect(s, a);
    if Redacts(a).Some? {
      RedactionKeepsIndexes(s, s1, Redacts(a).value, a.id);
      RedactedIsWellKept(s, s1, Redacts(a).value, a.id);
    }
    IngestedInTwoSteps(s, a, now);
    StoreEffect(s1, a, now);
    if !Duplicate(s1, a) {
      StoreKeepsIndexes(s1, Ingested(s, a, now), a, now);
    }
  }

  lemma RedactedIsWellKept(s: State, s1: State, target: ClaimHash, redactor: ClaimHash)
    requires Redacted(s1, s, target, redactor)
    ensures WellKept(s1)
  {
  }

  // ── Arrivals ─────────────────────────────────────────────────────────

  predicate InLog(s: State, log: LogId, id: ClaimHash) { id in s.claims && s.claims[id].art.log == log }

  /** `order` lists a log's claims, each at its arrival position. */
  ghost predicate Arrived(s: State, log: LogId, order: seq<ClaimHash>) {
    && |order| == LogLen(s, log)
    && (forall p | 0 <= p < |order| :: InLog(s, log, order[p]) && s.claims[order[p]].arrival == p)
    && (forall id | InLog(s, log, id) :: s.claims[id].arrival < |order| && order[s.claims[id].arrival] == id)
  }

  ghost predicate Listed(s: State, log: LogId) {
    exists order :: Arrived(s, log, order)
  }

  /** Arrivals of every log are exactly 0, 1, ..., n - 1. */
  ghost predicate Dense(s: State) {
    forall log :: Listed(s, log)
  }

  ghost function Order(s: State, log: LogId): (order: seq<ClaimHash>)
    requires Dense(s)
    ensures Arrived(s, log, order)
  {
    assert Listed(s, log);
    var order :| Arrived(s, log, order);
    order
  }

  lemma OrderIsUnique(s: State, log: LogId, order: seq<ClaimHash>)
    requires Dense(s) && Arrived(s, log, order)
    ensures order == Order(s, log)
  {
    hide InLog, Dense;
    var other := Order(s, log);
    forall p | 0 <= p < |order|
      ensures order[p] == other[p]
    {
      assert InLog(s, log, order[p]);
    }
  }

  /** Same claims and positions, log by log. */
  ghost predicate SamePlaces(s: State, s': State) {
    && s'.claims.Keys == s.claims.Keys
    && forall id | id in s.claims ::
         s'.claims[id].art.log == s.claims[id].art.log && s'.claims[id].arrival == s.claims[id].arrival
  }

  lemma SamePlacesSameOrder(s: State, s': State, log: LogId, order: seq<ClaimHash>)
    requires SamePlaces(s, s') && Arrived(s, log, order)
    ensures Arrived(s', log, order)
  {
    assert LogIds(s', log) == LogIds(s, log);
    assert forall id :: InLog(s', log, id) <==> InLog(s, log, id);
  }

  /** What one ingest appends to the arrival order of a log. */
  function Appended(s: State, a: Artifact, log: LogId): seq<ClaimHash> {
    if a.id !in s.claims && a.log == log then [a.id] else []
  }

  lemma NewRowArrivesLast(s: State, a: Artifact, now: int)
    requires a.id !in s.claims
    ensures NewRow(s, a, now).art.log == a.log && NewRow(s, a, now).arrival == LogLen(s, a.log)
  {
  }

  lemma OldRowStaysPut(s: State, a: Artifact, now: int)
    requires a.id in s.claims
    ensures NewRow(s, a, now).art.log == s.claims[a.id].art.log && NewRow(s, a, now).arrival == s.claims[a.id].arrival
  {
  }

  lemma PutElsewhere(s: State, s2: State, id: ClaimHash, row: Row, log: LogId, order: seq<ClaimHash>)
    requires Arrived(s, log, order) && id !in s.claims && s2.claims == s.claims[id := row] && row.art.log != log
    ensures Arrived(s2, log, order)
  {
    forall x
      ensures InLog(s2, log, x) <==> InLog(s, log, x)
    {
    }
    assert LogIds(s2, log) == LogIds(s, log);
  }

  /** A row at the count of its log extends that log's order. */
  lemma PutAppends(s: State, s2: State, id: ClaimHash, row: Row, log: LogId, order: seq<ClaimHash>)
    requires Arrived(s, log, order) && id !in s.claims && s2.claims == s.claims[id := row]
    requires row.art.log == log && row.arrival == |order|
    ensures Arrived(s2, log, order + [id])
  {
    var o := order + [id];
    assert LogIds(s2, log) == LogIds(s, log) + {id};
    forall x | InLog(s2, log, x)
      ensures s2.claims[x].arrival < |o| && o[s2.claims[x].arrival] == x
    {
      if x != id {
        assert InLog(s, log, x);
        assert s2.claims[x] == s.claims[x];
        assert o[s.claims[x].arrival] == order[s.claims[x].arrival];
      }
    }
    forall p | 0 <= p < |o|
      ensures InLog(s2, log, o[p]) && s2.claims[o[p]].arrival == p
    {
      if p < |order| {
        assert o[p] == order[p] && InLog(s, log, order[p]);
      }
    }
  }

  lemma StoreAppends(s: State, s2: State, a: Artifact, now: int, log: LogId, order: seq<ClaimHash>)
    requires Arrived(s, log, order)
    requires if Duplicate(s, a) then s2 == s else s2.claims == s.claims[a.id := NewRow(s, a, now)]
    ensures Arrived(s2, log, order + Appended(s, a, log))
  {
    if Duplicate(s, a) || a.id in s.claims {
      hide NewRow, Arrived, KeptBody;
      if a.id in s.claims {
        OldRowStaysPut(s, a, now);
      }
      assert SamePlaces(s, s2);
      SamePlacesSameOrder(s, s2, log, order);
      assert order + [] == order;
    } else {
      assert |order| == LogLen(s, log);
      hide NewRow, KeptBody, InLog, Arrived;
      NewRowArrivesLast(s, a, now);
      if a.log == log {
        PutAppends(s, s2, a.id, NewRow(s, a, now), log, order);
      } else {
        PutElsewhere(s, s2, a.id, NewRow(s, a, now), log, order);
        assert order + [] == order;
      }
    }
  }

  lemma RedactionKeepsPlaces(s: State, a: Artifact)
    requires WellKept(s)
    ensures SamePlaces(s, AfterRedaction(s, a))
  {
    RedactionEffect(s, a);
    hide Without, WellKept;
  }

  lemma IngestAppends(s: State, a: Artifact, now: int, log: LogId, order: seq<ClaimHash>)
    requires WellKept(s) && Arrived(s, log, order)
    ensures Arrived(Ingested(s, a, now), log, order + Appended(s, a, log))
  {
    var s1 := AfterRedaction(s, a);
    RedactionKeepsPlaces(s, a);
    RedactionEffect(s, a);
    IngestedInTwoSteps(s, a, now);
    StoreEffect(s1, a, now);
    hide AfterRedaction, StoreWrites, Duplicate, NewRow, Arrived, Ingested, With, Without;
    SamePlacesSameOrder(s, s1, log, order);
    StoreAppends(s1, Ingested(s, a, now), a, now, log, order);
  }

  lemma IngestKeepsDense(s: State, a: Artifact, now: int)
    requires WellKept(s) && Dense(s)
    ensures Dense(Ingested(s, a, now))
    ensures forall log :: Order(Ingested(s, a, now), log) == Order(s, log) + Appended(s, a, log)
  {
    hide Arrived, Ingested, WellKept;
    var s' := Ingested(s, a, now);
    forall log
      ensures Arrived(s', log, Order(s, log) + Appended(s, a, log))
    {
      IngestAppends(s, a, now, log, Order(s, log));
    }
    assert Dense(s') by {
      forall log
        ensures Listed(s', log)
      {
        assert Arrived(s', log, Order(s, log) + Appended(s, a, log));
      }
    }
    forall log
      ensures Order(s', log) == Order(s, log) + Appended(s, a, log)
    {
      OrderIsUnique(s', log, Order(s, log) + Appended(s, a, log));
    }
  }

  // ── Everything an ingest-only run keeps ──────────────────────────────

  ghost predicate Sound(w: World, seen: set<Artifact>, s: State) {
    WellKept(s) && Converged(w, seen, s) && Indexed(s) && Dense(s)
  }

  lemma EmptyIsSound(w: World)
    ensures Sound(w, {}, EMPTY)
  {
    forall log
      ensures Arrived(EMPTY, log, [])
    {
      assert LogIds(EMPTY, log) == {};
    }
    forall log
      ensures Listed(EMPTY, log)
    {
      assert Arrived(EMPTY, log, []);
    }
  }

  lemma IngestKeepsSound(w: World, seen: set<Artifact>, s: State, a: Artifact, now: int)
    requires Sound(w, seen, s) && Genuine(w, a)
    ensures Sound(w, seen + {a}, Ingested(s, a, now))
  {
    hide WellKept, Converged, Indexed, Dense, Genuine, Ingested, Arrived;
    IngestConverges(w, seen, s, a, now);
    IngestKeepsIndexes(s, a, now);
    IngestKeepsDense(s, a, now);
  }

  /** Every ingest-only run is sound after every delivery. */
  lemma {:induction false} ReplayIsSound(w: World, ds: seq<Delivery>)
    requires Deliverable(w, ds)
    ensures Sound(w, Seen(ds), Replay(ds))
  {
    hide Sound, Ingested, Genuine;
    if ds == [] {
      EmptyIsSound(w);
      assert Seen(ds) == {};
    } else {
      var n := |ds| - 1;
      ReplayIsSound(w, ds[..n]);
      SeenSnoc(ds);
      IngestKeepsSound(w, Seen(ds[..n]), Replay(ds[..n]), ds[n].art, ds[n].now);
    }
  }
}
