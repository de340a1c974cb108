/**
 Ingest is order-independent and idempotent: the convergent part of a store is
 a function of the set of artifacts it has seen.

 Content addressing enters as a `World`: the hash is injective, so an id
 determines the header it was computed from and the body that header pins.
 */
module Converge {
  import opened Bytes
  import opened Rows
  import opened Ingest

  datatype Content = Content(log: LogId, header: Bytes, body: Body)

  /** What each id is the hash of. */
  type World = ClaimHash -> Content

  predicate Genuine(w: World, a: Artifact) {
    && a.log == w(a.id).log
    && a.header == w(a.id).header
    && (a.body.Some? ==> a.body.value == w(a.id).body)
  }

  predicate RedactClaim(w: World, id: ClaimHash) {
    RedactTarget(w(id).log, Some(w(id).body)).Some?
  }

  function Redacts(a: Artifact): Option<ClaimHash> { RedactTarget(a.log, a.body) }

  // ── The closed form ──────────────────────────────────────────────────

  ghost function Ids(seen: set<Artifact>): set<ClaimHash> { set a | a in seen :: a.id }

  ghost predicate BodySeen(seen: set<Artifact>, id: ClaimHash) {
    exists a :: a in seen && a.id == id && a.body.Some?
  }

  /** Each target's redactor is the least id among the redact bodies seen for it. */
  ghost predicate RedactorsOf(seen: set<Artifact>, redactions: map<ClaimHash, ClaimHash>) {
    && (forall a | a in seen && Redacts(a).Some? ::
          Redacts(a).value in redactions && redactions[Redacts(a).value] <= a.id)
    && (forall t | t in redactions :: exists a :: a in seen && a.id == redactions[t] && Redacts(a) == Some(t))
  }

  predicate Held(s: State, id: ClaimHash) { id in s.claims && s.claims[id].art.body.Some? }

  /** A body is held iff it was seen and is a redact claim's or not redacted. */
  ghost predicate BodiesOf(w: World, seen: set<Artifact>, s: State) {
    forall id | id in s.claims ::
      Held(s, id) <==> BodySeen(seen, id) && (RedactClaim(w, id) || id !in s.redactions)
  }

  ghost predicate AllGenuine(w: World, s: State) {
    forall id | id in s.claims :: s.claims[id].art.id == id && Genuine(w, s.claims[id].art)
  }

  ghost predicate Converged(w: World, seen: set<Artifact>, s: State) {
    && s.claims.Keys == Ids(seen)
    && AllGenuine(w, s)
    && RedactorsOf(seen, s.redactions)
    && BodiesOf(w, seen, s)
  }

  // ── Replicated state ─────────────────────────────────────────────────

  datatype Snapshot = Snapshot(header: Bytes, body: Option<Bytes>)

  datatype StateVector = StateVector(claims: map<ClaimHash, Snapshot>, redactions: map<ClaimHash, ClaimHash>)

  function Vector(s: State): StateVector {
    StateVector(
      map id | id in s.claims ::
        Snapshot(s.claims[id].art.header, if s.claims[id].art.body.Some? then Some(s.claims[id].art.body.value.bytes)
          else None),
      s.redactions)
  }

  lemma SameRedactors(seen: set<Artifact>, m: map<ClaimHash, ClaimHash>, m': map<ClaimHash, ClaimHash>)
    requires RedactorsOf(seen, m) && RedactorsOf(seen, m')
    ensures m == m'
  {
    forall t
      ensures t in m <==> t in m'
    {
      if t in m { var a :| a in seen && a.id == m[t] && Redacts(a) == Some(t); }
      if t in m' { var a :| a in seen && a.id == m'[t] && Redacts(a) == Some(t); }
    }
    forall t | t in m
      ensures m[t] == m'[t]
    {
      var a :| a in seen && a.id == m[t] && Redacts(a) == Some(t);
      var b :| b in seen && b.id == m'[t] && Redacts(b) == Some(t);
    }
  }

  /** The closed form leaves no choice. */
  lemma SeenDeterminesVector(w: World, seen: set<Artifact>, s: State, s': State)
    requires Converged(w, seen, s) && Converged(w, seen, s')
    ensures Vector(s) == Vector(s')
  {
    hide RedactorsOf, RedactClaim;
    SameRedactors(seen, s.redactions, s'.redactions);
    forall id | id in s.claims
      ensures Vector(s).claims[id] == Vector(s').claims[id]
    {
      assert Held(s, id) <==> Held(s', id);
    }
  }

  // ── One ingest keeps the closed form ─────────────────────────────────

  lemma RecordKeepsLeast(seen: set<Artifact>, a: Artifact, m: map<ClaimHash, ClaimHash>, m': map<ClaimHash, ClaimHash>)
    requires RedactorsOf(seen, m)
    requires match Redacts(a)
             case None => m' == m
             case Some(t) => m' == if t !in m || a.id < m[t] then m[t := a.id] else m
    ensures RedactorsOf(seen + {a}, m')
  {
    var seen' := seen + {a};
    forall b | b in seen' && Redacts(b).Some?
      ensures Redacts(b).value in m' && m'[Redacts(b).value] <= b.id
    {
    }
    forall t | t in m'
      ensures exists b :: b in seen' && b.id == m'[t] && Redacts(b) == Some(t)
    {
      if Redacts(a) == Some(t) && m'[t] == a.id {
        assert a in seen';
      } else {
        var b :| b in seen && b.id == m[t] && Redacts(b) == Some(t);
        assert b in seen';
      }
    }
  }

  /** A held genuine body may be dropped iff it is not a redact claim's. */
  lemma DroppableIffContent(w: World, s: State, id: ClaimHash)
    requires AllGenuine(w, s)
    ensures Droppable(s, id) <==> Held(s, id) && !RedactClaim(w, id)
  {
  }

  lemma RedactionKeepsBodies(w: World, seen: set<Artifact>, s: State, a: Artifact)
    requires WellKept(s) && Converged(w, seen, s) && Genuine(w, a)
    ensures var s1 := AfterRedaction(s, a);
            && WellKept(s1) && s1.claims.Keys == s.claims.Keys && AllGenuine(w, s1)
            && RedactorsOf(seen + {a}, s1.redactions) && BodiesOf(w, seen, s1)
  {
    var s1 := AfterRedaction(s, a);
    RedactionEffect(s, a);
    RecordKeepsLeast(seen, a, s.redactions, s1.redactions);
    if Redacts(a).Some? {
      BodiesAfterRedaction(w, seen, s, s1, Redacts(a).value, a.id);
    }
  }

  lemma BodiesAfterRedaction(w: World, seen: set<Artifact>, s: State, s1: State, target: ClaimHash, redactor: ClaimHash)
    requires Redacted(s1, s, target, redactor) && AllGenuine(w, s) && BodiesOf(w, seen, s)
    ensures s1.claims.Keys == s.claims.Keys && AllGenuine(w, s1) && BodiesOf(w, seen, s1)
  {
    hide WellKept, Without, BodySeen, RedactClaim;
    DroppableIffContent(w, s, target);
    forall id | id in s1.claims
      ensures Held(s1, id) <==> BodySeen(seen, id) && (RedactClaim(w, id) || id !in s1.redactions)
    {
      assert Held(s, id) <==> BodySeen(seen, id) && (RedactClaim(w, id) || id !in s.redactions);
    }
  }

  lemma SuppressedIffRedacted(w: World, s: State, a: Artifact)
    requires Genuine(w, a) && a.body.Some?
    ensures Suppressed(s, a) <==> !RedactClaim(w, a.id) && a.id in s.redactions
  {
  }

  lemma BodySeenMore(seen: set<Artifact>, a: Artifact, id: ClaimHash)
    ensures BodySeen(seen + {a}, id) <==> BodySeen(seen, id) || (id == a.id && a.body.Some?)
  {
    var seen' := seen + {a};
    assert a in seen';
    if BodySeen(seen, id) {
      var b :| b in seen && b.id == id && b.body.Some?;
      assert b in seen';
    }
  }

  /** What storing changes about who is held: only the stored claim. */
  lemma StoredBody(s: State, s2: State, a: Artifact, now: int, id: ClaimHash)
    requires if Duplicate(s, a) then s2 == s else Stored(s2, s, a, now)
    ensures s2.redactions == s.redactions && s2.claims.Keys == s.claims.Keys + {a.id}
    ensures Held(s2, id) <==> Held(s, id) || (id == a.id && KeptBody(s, a).Some?)
  {
    hide WellKept, With;
  }

  lemma StoredGenuine(w: World, s: State, s2: State, a: Artifact, now: int)
    requires if Duplicate(s, a) then s2 == s else Stored(s2, s, a, now)
    requires AllGenuine(w, s) && Genuine(w, a)
    ensures AllGenuine(w, s2)
  {
    hide WellKept, With;
  }

  lemma IngestConverges(w: World, seen: set<Artifact>, s: State, a: Artifact, now: int)
    requires WellKept(s) && Converged(w, seen, s) && Genuine(w, a)
    ensures WellKept(Ingested(s, a, now)) && Converged(w, seen + {a}, Ingested(s, a, now))
  {
    hide AfterRedaction, Ingested, StoreWrites, RedactorsOf, AllGenuine, Duplicate, Stored, WellKept, Suppressed,
         Genuine,
         RedactClaim, BodySeen, Held, RedactTarget;
    var s1, s2 := AfterRedaction(s, a), Ingested(s, a, now);
    RedactionKeepsBodies(w, seen, s, a);
    IngestedInTwoSteps(s, a, now);
    StoreEffect(s1, a, now);
    StoredGenuine(w, s1, s2, a, now);
    StoredBody(s1, s2, a, now, a.id);
    assert Ids(seen + {a}) == Ids(seen) + {a.id};
    forall id | id in s2.claims
      ensures Held(s2, id) <==> BodySeen(seen + {a}, id) && (RedactClaim(w, id) || id !in s2.redactions)
    {
      StoredBody(s1, s2, a, now, id);
      BodySeenMore(seen, a, id);
      if a.body.Some? {
        SuppressedIffRedacted(w, s1, a);
      }
      if id !in s1.claims {
        UnseenBody(s, seen, id);
        UnheldBody(s1, id);
      }
    }
    WellKeptStays(s1, s2, a, now);
  }

  lemma UnseenBody(s: State, seen: set<Artifact>, id: ClaimHash)
    requires s.claims.Keys == Ids(seen) && id !in s.claims
    ensures !BodySeen(seen, id)
  {
  }

  lemma UnheldBody(s: State, id: ClaimHash)
    requires id !in s.claims
    ensures !Held(s, id)
  {
  }

  lemma WellKeptStays(s: State, s2: State, a: Artifact, now: int)
    requires WellKept(s) && if Duplicate(s, a) then s2 == s else Stored(s2, s, a, now)
    ensures WellKept(s2)
  {
  }

  // ── Whole histories ──────────────────────────────────────────────────

  datatype Delivery = Delivery(art: Artifact, now: int)

  function Replay(ds: seq<Delivery>): State {
    if ds == [] then EMPTY
    else Ingested(Replay(ds[..|ds| - 1]), ds[|ds| - 1].art, ds[|ds| - 1].now)
  }

  ghost function Seen(ds: seq<Delivery>): set<Artifact> { set d | d in ds :: d.art }

  ghost predicate Deliverable(w: World, ds: seq<Delivery>) {
    forall i | 0 <= i < |ds| :: Genuine(w, ds[i].art)
  }

  lemma SeenSnoc(ds: seq<Delivery>)
    requires ds != []
    ensures Seen(ds) == Seen(ds[..|ds| - 1]) + {ds[|ds| - 1].art}
  {
    var n := |ds| - 1;
    assert ds == ds[..n] + [ds[n]];
  }

  /** After any history the store is in the closed form of what it saw. */
  lemma {:induction false} ReplayConverges(w: World, ds: seq<Delivery>)
    requires Deliverable(w, ds)
    ensures WellKept(Replay(ds)) && Converged(w, Seen(ds), Replay(ds))
  {
    if ds == [] {
      assert Converged(w, {}, EMPTY);
    } else {
      var n := |ds| - 1;
      var front, last := ds[..n], ds[n];
      assert Replay(ds) == Ingested(Replay(front), last.art, last.now);
      hide Ingested, Converged, WellKept;
      ReplayConverges(w, front);
      IngestConverges(w, Seen(front), Replay(front), last.art, last.now);
      SeenSnoc(ds);
      assert Seen(ds) == Seen(front) + {last.art};
    }
  }

  /** Histories that saw the same artifacts, in any order and multiplicity, agree. */
  lemma OrderIndependent(w: World, ds: seq<Delivery>, ds': seq<Delivery>)
    requires Deliverable(w, ds) && Deliverable(w, ds') && Seen(ds) == Seen(ds')
    ensures Vector(Replay(ds)) == Vector(Replay(ds'))
  {
    ReplayConverges(w, ds);
    ReplayConverges(w, ds');
    SeenDeterminesVector(w, Seen(ds), Replay(ds), Replay(ds'));
  }

  /** A redaction already seen is on record, and what it would drop is dropped. */
  lemma RedactionIsDone(w: World, seen: set<Artifact>, s: State, a: Artifact)
    requires Converged(w, seen, s) && a in seen
    ensures RedactionWrites(s, a) == []
  {
    hide RedactClaim, BodySeen;
    if Redacts(a).Some? {
      DroppableIffContent(w, s, Redacts(a).value);
    }
  }

  /** A claim already seen is stored, with its body unless that is suppressed. */
  lemma ClaimIsStored(w: World, seen: set<Artifact>, s: State, a: Artifact)
    requires Converged(w, seen, s) && a in seen && Genuine(w, a)
    ensures Duplicate(s, a)
  {
    hide RedactClaim, RedactorsOf, AllGenuine, RedactTarget, Suppressed;
    assert a.id in Ids(seen);
    if a.body.Some? {
      SuppressedIffRedacted(w, s, a);
      assert BodySeen(seen, a.id);
      assert Held(s, a.id) <==> BodySeen(seen, a.id) && (RedactClaim(w, a.id) || a.id !in s.redactions);
    }
  }

  /** Redelivering what was already seen performs no write at all. */
  lemma Idempotent(w: World, ds: seq<Delivery>, again: Delivery)
    requires Deliverable(w, ds) && again.art in Seen(ds)
    ensures IngestWrites(Replay(ds), again.art, again.now) == []
    ensures Ingested(Replay(ds), again.art, again.now) == Replay(ds)
  {
    hide Converged, Genuine, Duplicate, RedactionWrites, WellKept, Replay;
    var d :| d in ds && d.art == again.art;
    ReplayConverges(w, ds);
    RedactionIsDone(w, Seen(ds), Replay(ds), again.art);
    ClaimIsStored(w, Seen(ds), Replay(ds), again.art);
  }
}
