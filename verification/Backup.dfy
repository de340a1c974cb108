/**
 Backup and restore: dumping every held event as one CBOR sequence and ingesting
 what is read back rebuilds the replicated state, tombstones and redactions of
 redactions included.
 */
module Backup {
  import opened Bytes
  import opened Values
  import opened Frames
  import opened Rows
  import opened Ingest
  import opened Converge
  import opened Indexes
  import opened Health
  import opened Queries
  import opened Sorted
  import opened Wire

  type WireEvent = Values.Event

  /** Ingesting wire events one after the other into an empty store. */
  ghost function Load(h: Digest, events: seq<WireEvent>, now: int): State {
    if events == [] then EMPTY
    else Accepted(Load(h, events[..|events| - 1], now), Classify(h, events[|events| - 1]), now)
  }

  /** The artifacts a sequence of events checks into. */
  ghost function Passing(h: Digest, events: seq<WireEvent>): set<Artifact> {
    set e | e in events && Classify(h, e).Checked? :: Classify(h, e).art
  }

  ghost predicate GenuineEvents(h: Digest, w: World, events: seq<WireEvent>) {
    forall e | e in events && Classify(h, e).Checked? :: Genuine(w, Classify(h, e).art)
  }

  ghost predicate TypedAll(events: seq<WireEvent>) {
    forall e | e in events :: TypedEvent(e)
  }

  /** Every row could be sent as it is and would check into itself again. */
  ghost predicate Sendable(h: Digest, s: State) {
    forall id | id in s.claims :: Wellformed(h, s.claims[id].art)
  }

  // ── Rows stay sendable ───────────────────────────────────────────────

  lemma BodiesMix(h: Digest, a: Artifact, b: Artifact)
    requires Wellformed(h, a) && Wellformed(h, b) && a.header == b.header
    ensures Wellformed(h, a.(body := b.body)) && Wellformed(h, a.(body := None))
  {
    hide Collect, Cbor.FromBytes, DecHeader, FromBigEndian;
  }

  lemma StripStaysSendable(h: Digest, s: State, a: Artifact)
    requires WellKept(s) && Sendable(h, s)
    ensures Sendable(h, AfterRedaction(s, a))
  {
    hide Wellformed, Without, WellKept, AfterRedaction;
    RedactionEffect(s, a);
    forall id | id in s.claims
      ensures Wellformed(h, s.claims[id].art.(body := None))
    {
      BodiesMix(h, s.claims[id].art, s.claims[id].art);
    }
  }

  lemma StoreStaysSendable(h: Digest, w: World, s: State, s2: State, a: Artifact, now: int)
    requires if Duplicate(s, a) then s2 == s else Stored(s2, s, a, now)
    requires Sendable(h, s) && AllGenuine(w, s) && Genuine(w, a) && Wellformed(h, a)
    ensures Sendable(h, s2)
  {
    hide Wellformed, With, WellKept;
    BodiesMix(h, a, a);
    if a.id in s.claims {
      BodiesMix(h, s.claims[a.id].art, a);
    }
  }

  lemma IngestStaysSendable(h: Digest, w: World, seen: set<Artifact>, s: State, a: Artifact, now: int)
    requires WellKept(s) && Converged(w, seen, s) && Sendable(h, s) && Genuine(w, a) && Wellformed(h, a)
    ensures Sendable(h, Ingested(s, a, now))
  {
    hide Wellformed, Duplicate, Stored, StoreWrites, AfterRedaction, Ingested, Sendable, Genuine;
    var s1 := AfterRedaction(s, a);
    RedactionKeepsBodies(w, seen, s, a);
    StripStaysSendable(h, s, a);
    IngestedInTwoSteps(s, a, now);
    StoreEffect(s1, a, now);
    StoreStaysSendable(h, w, s1, Ingested(s, a, now), a, now);
  }

  lemma PassingSnoc(h: Digest, events: seq<WireEvent>)
    requires events != []
    ensures var n := |events| - 1;
            var e := Classify(h, events[n]);
            Passing(h, events) == Passing(h, events[..n]) + if e.Checked? then {e.art} else {}
  {
    hide Classify;
    var n := |events| - 1;
    assert events == events[..n] + [events[n]];
  }

  lemma {:induction false} LoadConverges(h: Digest, w: World, events: seq<WireEvent>, now: int)
    requires TypedAll(events) && GenuineEvents(h, w, events)
    ensures var s := Load(h, events, now);
            WellKept(s) && Converged(w, Passing(h, events), s) && Sendable(h, s)
  {
    hide Classify, Ingested, WellKept, TypedEvent, Genuine, Wellformed;
    if events == [] {
      EmptyConverges(w);
      assert Passing(h, events) == {};
    } else {
      var n := |events| - 1;
      var front, e := events[..n], Classify(h, events[n]);
      assert forall x | x in front :: x in events;
      LoadConverges(h, w, front, now);
      PassingSnoc(h, events);
      if e.Checked? {
        hide Converged, Sendable, Passing;
        assert events[n] in events;
        ClassifiedIsWellformed(h, events[n]);
        IngestConverges(w, Passing(h, front), Load(h, front, now), e.art, now);
        IngestStaysSendable(h, w, Passing(h, front), Load(h, front, now), e.art, now);
      } else {
        assert Passing(h, events) == Passing(h, front);
      }
    }
  }

  lemma EmptyConverges(w: World)
    ensures WellKept(EMPTY) && Converged(w, {}, EMPTY)
  {
  }

  /** What a store holds is as good as everything it ever saw. */
  lemma RowsSuffice(w: World, seen: set<Artifact>, s: State)
    requires Converged(w, seen, s) && forall a | a in seen :: Genuine(w, a)
    ensures Converged(w, RowArts(s), s)
  {
    hide RedactorsOf, BodiesOf, Explained, Genuine;
    ConvergedExplains(w, seen, s);
    ExplainedConverges(w, s);
  }

  // ── The round trip ───────────────────────────────────────────────────

  function Wires(arts: seq<Artifact>): (events: seq<WireEvent>)
    ensures |events| == |arts| && forall i | 0 <= i < |arts| :: events[i] == WireOf(arts[i])
  {
    seq(|arts|, i requires 0 <= i < |arts| => WireOf(arts[i]))
  }

  /** The whole store as one stream of frames. */
  ghost function Dump(s: State): Bytes { Concat(Wires(Events(s))) }

  /** The dump lists the rows, each once. */
  lemma EventsListRows(s: State) returns (ids: seq<ClaimHash>)
    ensures |Events(s)| == |ids| && forall i | 0 <= i < |ids| ::
            ids[i] in s.claims && Events(s)[i] == s.claims[ids[i]].art
    ensures forall id :: id in s.claims ==> id in ids
  {
    hide Ascending;
    ids := SortIds(ByLog(s), s.claims.Keys);
    SortIdsLists(ByLog(s), s.claims.Keys);
    forall i | 0 <= i < |ids|
      ensures ids[i] in s.claims
    {
      assert ids[i] in ids;
    }
  }

  ghost predicate ChecksInto(h: Digest, e: WireEvent, arts: set<Artifact>) {
    TypedEvent(e) && Classify(h, e).Checked? && Classify(h, e).art in arts
  }

  lemma DumpedEvents(h: Digest, s: State)
    requires Sendable(h, s)
    ensures forall e | e in Wires(Events(s)) :: ChecksInto(h, e, RowArts(s))
    ensures Passing(h, Wires(Events(s))) == RowArts(s)
  {
    hide Classify, Events, TypedEvent, Wellformed, WireOf;
    var ids := EventsListRows(s);
    var arts, events := Events(s), Wires(Events(s));
    forall i | 0 <= i < |events|
      ensures ChecksInto(h, events[i], RowArts(s)) && Classify(h, events[i]) == Checked(arts[i])
    {
      assert Wellformed(h, arts[i]);
      WellformedIsTyped(h, arts[i]);
      WellformedChecks(h, arts[i]);
    }
    forall e | e in events
      ensures ChecksInto(h, e, RowArts(s))
    {
      var i :| 0 <= i < |events| && events[i] == e;
    }
    forall a | a in RowArts(s)
      ensures a in Passing(h, events)
    {
      var id :| id in s.claims && s.claims[id].art == a;
      assert id in ids;
      var i :| 0 <= i < |ids| && ids[i] == id;
      assert events[i] in events;
    }
  }

  lemma WellformedChecks(h: Digest, a: Artifact)
    requires Wellformed(h, a)
    ensures Classify(h, WireOf(a)) == Checked(a)
  {
  }

  lemma WellformedIsTyped(h: Digest, a: Artifact)
    requires Wellformed(h, a)
    ensures TypedEvent(WireOf(a))
  {
    hide Collect, Cbor.FromBytes, FromBigEndian, DecHeader;
    HeaderIsCanonical(a.header);
    HeaderLength(a.header);
  }

  lemma HeaderLength(b: Bytes)
    requires DecHeader(b).Ok?
    ensures |b| <= 100
  {
    HeaderIsCanonical(b);
    var h := DecHeader(b).item;
    assert EncHeader(h) == b;
    hide DecHeader;
    assert |Cbor.EncHead(2, 32)| <= 9;
  }

  /**
   Whatever a store was built from, its dump reads back whole, and ingesting
   what was read into an empty store reproduces its replicated state.
   */
  lemma BackupRoundTrip(h: Digest, events: seq<WireEvent>, now: int, later: int)
    requires TypedAll(events) && CollisionFree(h, (set e | e in events))
    requires |Dump(Load(h, events, now))| <= MAX_LEN
    ensures var s := Load(h, events, now);
            var reading := ReadFrames(Dump(s));
            !reading.torn && Vector(Load(h, reading.events, later)) == Vector(s)
  {
    hide Classify, CollisionFree, Genuine, Load, WorldOf, ReadFrames, TypedEvent, TypedEvents, Vector, Sendable, Concat,
         Converged;
    var w := WorldOf(h, (set e | e in events));
    forall e | e in events && Classify(h, e).Checked?
      ensures Genuine(w, Classify(h, e).art)
    {
      EventsAreGenuine(h, (set x | x in events), e);
    }
    var s := Load(h, events, now);
    LoadConverges(h, w, events, now);
    assert forall a | a in Passing(h, events) :: Genuine(w, a);
    RowsSuffice(w, Passing(h, events), s);
    DumpedEvents(h, s);
    var dumped := Wires(Events(s));
    assert TypedEvents(dumped) by { IndexedTyped(dumped); }
    ReadBack(dumped);
    RowsAreGenuine(w, Passing(h, events), s);
    LoadConverges(h, w, dumped, later);
    SeenDeterminesVector(w, RowArts(s), Load(h, dumped, later), s);
  }

  lemma IndexedTyped(events: seq<WireEvent>)
    requires TypedAll(events)
    ensures TypedEvents(events)
  {
    forall i | 0 <= i < |events|
      ensures TypedEvent(events[i])
    {
      assert events[i] in events;
    }
  }

  lemma RowsAreGenuine(w: World, seen: set<Artifact>, s: State)
    requires Converged(w, seen, s)
    ensures forall a | a in RowArts(s) :: Genuine(w, a)
  {
  }

  // ── The fsck of a loaded store ───────────────────────────────────────

  /** A row's event goes back to its bytes: the id is the header's hash, and header and body check. */
  function Intact(h: Digest): RowCheck {
    (a: Artifact) => Name(h(a.header)) == a.id && Check(h, WireOf(a)).Some?
  }

  lemma WellformedIsIntact(h: Digest, a: Artifact)
    requires Wellformed(h, a)
    ensures Intact(h)(a)
  {
    hide Collect, Cbor.FromBytes, DecHeader, FromBigEndian;
  }

  lemma {:induction false} LoadIsSound(h: Digest, w: World, events: seq<WireEvent>, now: int)
    requires GenuineEvents(h, w, events)
    ensures Sound(w, Passing(h, events), Load(h, events, now))
  {
    hide Classify, Ingested, Sound, Genuine;
    if events == [] {
      EmptyIsSound(w);
      assert Passing(h, events) == {};
    } else {
      var n := |events| - 1;
      var front, e := events[..n], Classify(h, events[n]);
      assert forall x | x in front :: x in events;
      LoadIsSound(h, w, front, now);
      PassingSnoc(h, events);
      if e.Checked? {
        assert events[n] in events;
        IngestKeepsSound(w, Passing(h, front), Load(h, front, now), e.art, now);
      } else {
        assert Passing(h, events) == Passing(h, front);
      }
    }
  }

  /**
   Whatever events a store was built from, re-checking every row from its bytes and
   every index against every body finds nothing but redacted redact claims.
   */
  lemma LoadedFsckIsExact(h: Digest, events: seq<WireEvent>, now: int)
    requires TypedAll(events) && CollisionFree(h, (set e | e in events))
    ensures var s := Load(h, events, now);
            Problems(Intact(h), s) == set id | id in RedactedRedactors(s) :: RedactedButHeld(id)
  {
    hide Classify, CollisionFree, Genuine, Load, WorldOf, TypedEvent, Converged, Sound, Problems, RedactedRedactors,
         Intact, WellKept;
    var w := WorldOf(h, (set e | e in events));
    forall e | e in events && Classify(h, e).Checked?
      ensures Genuine(w, Classify(h, e).art)
    {
      EventsAreGenuine(h, (set x | x in events), e);
    }
    var s := Load(h, events, now);
    LoadConverges(h, w, events, now);
    LoadIsSound(h, w, events, now);
    forall id | id in s.claims
      ensures Intact(h)(s.claims[id].art)
    {
      WellformedIsIntact(h, s.claims[id].art);
    }
    FsckIsExact(w, Passing(h, events), s, Intact(h));
  }
}
