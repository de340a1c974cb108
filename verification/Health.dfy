/**
 The state of an ingest-only store described by its rows alone, and what one
 more artifact does to it. This is the interface the sync proofs use.
 */
module Health {
  import opened Bytes
  import opened Rows
  import opened Ingest
  import opened Converge
  import opened Indexes

  /** What a redact claim names. */
  function Target(w: World, id: ClaimHash): ClaimHash
    requires RedactClaim(w, id)
  {
    RedactTarget(w(id).log, Some(w(id).body)).value
  }

  /** Redactions and bodies explained by the rows that are held. */
  ghost predicate Explained(w: World, s: State) {
    && (forall t | t in s.redactions ::
          Held(s, s.redactions[t]) && RedactClaim(w, s.redactions[t]) && Target(w, s.redactions[t]) == t)
    && (forall r | Held(s, r) && RedactClaim(w, r) :: Target(w, r) in s.redactions && s.redactions[Target(w, r)] <= r)
    && (forall id | Held(s, id) :: RedactClaim(w, id) || id !in s.redactions)
  }

  ghost predicate Healthy(w: World, s: State) {
    WellKept(s) && AllGenuine(w, s) && Explained(w, s) && Indexed(s) && Dense(s)
  }

  ghost function RowArts(s: State): set<Artifact> {
    set id | id in s.claims :: s.claims[id].art
  }

  lemma HeldInRows(w: World, s: State, id: ClaimHash)
    requires AllGenuine(w, s)
    ensures BodySeen(RowArts(s), id) <==> Held(s, id)
  {
    if Held(s, id) {
      assert s.claims[id].art in RowArts(s);
    }
  }

  lemma GenuineRedacts(w: World, a: Artifact)
    requires Genuine(w, a)
    ensures Redacts(a).Some? <==> a.body.Some? && RedactClaim(w, a.id)
    ensures Redacts(a).Some? ==> Redacts(a).value == Target(w, a.id)
  {
  }

  lemma ExplainedConverges(w: World, s: State)
    requires AllGenuine(w, s) && Explained(w, s)
    ensures Converged(w, RowArts(s), s)
  {
    hide Genuine, RedactClaim, Target;
    var rows := RowArts(s);
    forall id | id in s.claims
      ensures id in Ids(rows)
    {
      assert s.claims[id].art in rows;
    }
    assert s.claims.Keys == Ids(rows);
    forall a | a in rows && Redacts(a).Some?
      ensures Redacts(a).value in s.redactions && s.redactions[Redacts(a).value] <= a.id
    {
      GenuineRedacts(w, a);
      assert Held(s, a.id);
    }
    forall t | t in s.redactions
      ensures exists a :: a in rows && a.id == s.redactions[t] && Redacts(a) == Some(t)
    {
      var r := s.redactions[t];
      assert Held(s, r);
      GenuineRedacts(w, s.claims[r].art);
      assert s.claims[r].art in rows;
    }
    forall id | id in s.claims
      ensures Held(s, id) <==> BodySeen(rows, id) && (RedactClaim(w, id) || id !in s.redactions)
    {
      HeldInRows(w, s, id);
    }
  }

  lemma ConvergedExplains(w: World, seen: set<Artifact>, s: State)
    requires Converged(w, seen, s) && forall a | a in seen :: Genuine(w, a)
    ensures Explained(w, s)
  {
    hide RedactClaim, Target;
    forall t | t in s.redactions
      ensures Held(s, s.redactions[t]) && RedactClaim(w, s.redactions[t]) && Target(w, s.redactions[t]) == t
    {
      var a :| a in seen && a.id == s.redactions[t] && Redacts(a) == Some(t);
      GenuineRedacts(w, a);
      assert BodySeen(seen, a.id);
      assert Held(s, a.id) <==> BodySeen(seen, a.id) && (RedactClaim(w, a.id) || a.id !in s.redactions);
    }
    forall r | Held(s, r) && RedactClaim(w, r)
      ensures Target(w, r) in s.redactions && s.redactions[Target(w, r)] <= r
    {
      assert BodySeen(seen, r);
      var a :| a in seen && a.id == r && a.body.Some?;
      GenuineRedacts(w, a);
    }
    forall id | Held(s, id)
      ensures RedactClaim(w, id) || id !in s.redactions
    {
      assert id in s.claims;
    }
  }

  lemma SoundIsHealthy(w: World, seen: set<Artifact>, s: State)
    requires Sound(w, seen, s) && forall a | a in seen :: Genuine(w, a)
    ensures Healthy(w, s)
  {
    hide WellKept, Indexed, Dense, RedactorsOf, BodiesOf, Explained;
    ConvergedExplains(w, seen, s);
  }

  /** Every ingest-only run reaches only healthy states. */
  lemma ReplayIsHealthy(w: World, ds: seq<Delivery>)
    requires Deliverable(w, ds)
    ensures Healthy(w, Replay(ds))
  {
    hide Sound, Healthy, Genuine, Replay;
    ReplayIsSound(w, ds);
    forall a | a in Seen(ds)
      ensures Genuine(w, a)
    {
      var d :| d in ds && d.art == a;
      var i :| 0 <= i < |ds| && ds[i] == d;
    }
    SoundIsHealthy(w, Seen(ds), Replay(ds));
  }

  /** All that one artifact does to a healthy store. */
  ghost predicate Absorbed(w: World, s: State, s': State, a: Artifact)
    requires Dense(s) && Dense(s')
  {
    && s'.claims.Keys == s.claims.Keys + {a.id}
    && (forall t :: t in s'.redactions <==> t in s.redactions || Redacts(a) == Some(t))
    && (forall id :: Held(s', id) <==>
          (Held(s, id) || (id == a.id && a.body.Some?)) && (RedactClaim(w, id) || id !in s'.redactions))
    && (forall log :: Order(s', log) == Order(s, log) + Appended(s, a, log))
  }

  lemma AbsorbedBodies(w: World, s: State, s': State, a: Artifact, id: ClaimHash)
    requires Converged(w, RowArts(s), s) && Converged(w, RowArts(s) + {a}, s') && AllGenuine(w, s)
    ensures Held(s', id) <==>
            (Held(s, id) || (id == a.id && a.body.Some?)) && (RedactClaim(w, id) || id !in s'.redactions)
  {
    hide RedactorsOf, RedactClaim, BodySeen, AllGenuine, Held, Ids, RowArts;
    HeldInRows(w, s, id);
    BodySeenMore(RowArts(s), a, id);
    KeysOfRows(s, a);
    if id in s'.claims {
      assert Held(s', id) <==> BodySeen(RowArts(s) + {a}, id) && (RedactClaim(w, id) || id !in s'.redactions);
    } else {
      UnheldBody(s', id);
      UnheldBody(s, id);
    }
  }

  lemma KeysOfRows(s: State, a: Artifact)
    requires s.claims.Keys == Ids(RowArts(s))
    ensures Ids(RowArts(s) + {a}) == s.claims.Keys + {a.id}
  {
  }

  lemma AbsorbedRedactions(w: World, s: State, s': State, a: Artifact, t: ClaimHash)
    requires RedactorsOf(RowArts(s), s.redactions) && RedactorsOf(RowArts(s) + {a}, s'.redactions)
    ensures t in s'.redactions <==> t in s.redactions || Redacts(a) == Some(t)
  {
    assert a in RowArts(s) + {a};
    if t in s.redactions {
      var b :| b in RowArts(s) && b.id == s.redactions[t] && Redacts(b) == Some(t);
      assert b in RowArts(s) + {a};
    }
    if t in s'.redactions {
      var b :| b in RowArts(s) + {a} && b.id == s'.redactions[t] && Redacts(b) == Some(t);
    }
  }

  lemma Absorb(w: World, s: State, a: Artifact, now: int)
    requires Healthy(w, s) && Genuine(w, a)
    ensures Healthy(w, Ingested(s, a, now)) && Absorbed(w, s, Ingested(s, a, now), a)
  {
    hide WellKept, Indexed, Dense, AllGenuine, Explained, Genuine, Ingested, Held, RedactClaim, RedactorsOf, BodiesOf,
         Order, Appended,
         Ids, RowArts;
    var s' := Ingested(s, a, now);
    ExplainedConverges(w, s);
    IngestConverges(w, RowArts(s), s, a, now);
    IngestKeepsIndexes(s, a, now);
    IngestKeepsDense(s, a, now);
    assert forall b | b in RowArts(s) + {a} :: Genuine(w, b) by { RowArtsGenuine(w, s); }
    ConvergedExplains(w, RowArts(s) + {a}, s');
    KeysOfRows(s, a);
    forall id
      ensures Held(s', id) <==>
              (Held(s, id) || (id == a.id && a.body.Some?)) && (RedactClaim(w, id) || id !in s'.redactions)
    {
      AbsorbedBodies(w, s, s', a, id);
    }
    forall t
      ensures t in s'.redactions <==> t in s.redactions || Redacts(a) == Some(t)
    {
      AbsorbedRedactions(w, s, s', a, t);
    }
  }

  lemma RowArtsGenuine(w: World, s: State)
    requires AllGenuine(w, s)
    ensures forall b | b in RowArts(s) :: Genuine(w, b)
  {
  }
}
