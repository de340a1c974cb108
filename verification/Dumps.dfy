/**
 When two stores with the same replicated state dump the same bytes: the state says
 nothing of tags, and of an event that arrived under two tags the first stays.
 */
module Dumps {
  import opened Bytes
  import opened Values
  import Cbor
  import opened Frames
  import opened Rows
  import opened Ingest
  import opened Converge
  import opened Health
  import opened Queries
  import opened Sorted
  import opened Wire
  import opened Backup

  // ── Equal states ─────────────────────────────────────────────────────

  ghost predicate SameTags(s: State, s': State) {
    forall id | id in s.claims && id in s'.claims :: s.claims[id].art.tag == s'.claims[id].art.tag
  }

  lemma RowsInOrder(s: State)
    ensures var ids := SortIds(ByLog(s), s.claims.Keys);
            && |Events(s)| == |ids| && (forall id :: id in ids <==> id in s.claims)
            && forall i | 0 <= i < |ids| :: ids[i] in s.claims && Events(s)[i] == s.claims[ids[i]].art
  {
    hide Ascending;
    var ids := SortIds(ByLog(s), s.claims.Keys);
    SortIdsLists(ByLog(s), s.claims.Keys);
    forall i | 0 <= i < |ids|
      ensures ids[i] in s.claims
    {
      assert ids[i] in ids;
    }
  }

  /** A dump goes log by log, by id within a log. */
  lemma DumpIsInOrder(s: State)
    requires forall id | id in s.claims :: s.claims[id].art.id == id
    ensures forall i, j | 0 <= i < j < |Events(s)| ::
              var x, y := Events(s)[i], Events(s)[j]; x.log < y.log || (x.log == y.log && x.id < y.id)
  {
    RowsInOrder(s);
    var ids := SortIds(ByLog(s), s.claims.Keys);
    SortIdsLists(ByLog(s), s.claims.Keys);
    hide SortIds, Events, Ascending;
    forall i, j | 0 <= i < j < |Events(s)|
      ensures var x, y := Events(s)[i], Events(s)[j]; x.log < y.log || (x.log == y.log && x.id < y.id)
    {
      AscendsThroughout(ByLog(s), ids, i, j);
    }
  }

  /** The state vector and the world fix the order of a dump. */
  lemma SameVectorSameOrder(w: World, s: State, s': State)
    requires AllGenuine(w, s) && AllGenuine(w, s') && Vector(s) == Vector(s')
    ensures s.claims.Keys == s'.claims.Keys && SortIds(ByLog(s), s.claims.Keys) == SortIds(ByLog(s'), s'.claims.Keys)
  {
    assert Vector(s).claims.Keys == s.claims.Keys && Vector(s').claims.Keys == s'.claims.Keys;
    forall id | id in s.claims.Keys
      ensures ByLog(s)(id) == ByLog(s')(id)
    {
    }
    SortIdsAlike(ByLog(s), ByLog(s'), s.claims.Keys);
  }

  /** Rows with the same snapshot send as the same event but for the tag. */
  lemma SameVectorSameWire(s: State, s': State, id: ClaimHash)
    requires Vector(s) == Vector(s') && id in s.claims && id in s'.claims
    ensures WireOf(s.claims[id].art) == WireOf(s'.claims[id].art).(tag := s.claims[id].art.tag)
  {
    assert Vector(s).claims[id] == Vector(s').claims[id];
  }

  lemma DumpIsTyped(h: Digest, s: State)
    requires Sendable(h, s)
    ensures TypedEvents(Wires(Events(s)))
  {
    hide Wellformed, TypedEvent, WireOf, Events;
    RowsInOrder(s);
    forall i | 0 <= i < |Events(s)|
      ensures TypedEvent(Wires(Events(s))[i])
    {
      assert Wellformed(h, Events(s)[i]);
      WellformedIsTyped(h, Events(s)[i]);
    }
  }

  /** Equal dumps read back as equal events. */
  lemma DumpIsInjective(h: Digest, s: State, s': State)
    requires Sendable(h, s) && Sendable(h, s') && Dump(s) == Dump(s') && |Dump(s)| <= MAX_LEN
    ensures Wires(Events(s)) == Wires(Events(s'))
  {
    hide Sendable, Events, Concat, ReadFrames, TypedEvents;
    DumpIsTyped(h, s);
    DumpIsTyped(h, s');
    ReadBack(Wires(Events(s)));
    ReadBack(Wires(Events(s')));
  }

  /**
   Two stores with the same state dump identical streams if and only if they hold
   each claim under the same tag.
   */
  lemma DumpsAgree(h: Digest, w: World, s: State, s': State)
    requires AllGenuine(w, s) && AllGenuine(w, s') && Sendable(h, s) && Sendable(h, s')
    requires Vector(s) == Vector(s') && |Dump(s)| <= MAX_LEN
    ensures Dump(s) == Dump(s') <==> SameTags(s, s')
  {
    hide AllGenuine, Sendable, Vector, Events, Concat, WireOf;
    SameVectorSameOrder(w, s, s');
    RowsInOrder(s);
    RowsInOrder(s');
    var ids := SortIds(ByLog(s), s.claims.Keys);
    var mine, theirs := Wires(Events(s)), Wires(Events(s'));
    hide SortIds;
    forall i | 0 <= i < |ids|
      ensures mine[i] == theirs[i].(tag := s.claims[ids[i]].art.tag) && theirs[i].tag == s'.claims[ids[i]].art.tag
    {
      SameVectorSameWire(s, s', ids[i]);
      TagIsSent(s'.claims[ids[i]].art);
    }
    if SameTags(s, s') {
      assert mine == theirs;
    }
    if Dump(s) == Dump(s') {
      DumpIsInjective(h, s, s');
      forall id | id in s.claims && id in s'.claims
        ensures s.claims[id].art.tag == s'.claims[id].art.tag
      {
        var i :| 0 <= i < |ids| && ids[i] == id;
        assert mine[i].tag == s.claims[id].art.tag;
      }
    }
  }

  lemma TagIsSent(a: Artifact)
    ensures WireOf(a).tag == a.tag
  {
  }

  // ── One event, two tags ──────────────────────────────────────────────

  /** A 32-byte name or tag, all of one byte. */
  function Filled(b: byte): (s: Bytes)
    ensures |s| == 32 && s[0] == b
  {
    seq(32, i requires 0 <= i < 32 => b)
  }

  /** A tombstone of some log under one tag. */
  function Tagged32(tag: Bytes): WireEvent {
    Values.Event(EncHeader(Header(WIRE_VERSION, Filled(0), Filled(0))), tag, None)
  }

  lemma TombstoneChecks(h: Digest, tag: Bytes)
    ensures Classify(h, Tagged32(tag)) ==
            Checked(Artifact(Name(h(Tagged32(tag).header)), Name(Filled(0)), Tagged32(tag).header, tag, None))
  {
    var header := Header(WIRE_VERSION, Filled(0), Filled(0));
    HeaderRoundTrip(header);
    hide DecHeader, EncHeader, FromBigEndian;
  }

  lemma FirstTagStays(a: Artifact, b: Artifact, now: int)
    requires a.body.None? && b == a.(tag := b.tag)
    ensures var s := Ingested(Ingested(EMPTY, a, now), b, now);
            s.claims.Keys == {a.id} && s.claims[a.id].art == a && Ingested(EMPTY, a, now) == s
  {
    hide Ingested, With;
    IngestedInTwoSteps(EMPTY, a, now);
    RedactionEffect(EMPTY, a);
    StoreEffect(EMPTY, a, now);
    var s := Ingested(EMPTY, a, now);
    assert s.claims == map[a.id := NewRow(EMPTY, a, now)];
    RedactionEffect(s, b);
    IngestedInTwoSteps(s, b, now);
    StoreEffect(s, b, now);
  }

  lemma SingleDump(s: State, a: Artifact)
    requires s.claims.Keys == {a.id} && s.claims[a.id].art == a
    ensures Dump(s) == Cbor.EncEvent(WireOf(a))
  {
    hide Cbor.EncEvent, SortIds, Events, WireOf;
    RowsInOrder(s);
    var ids := SortIds(ByLog(s), s.claims.Keys);
    SortIdsLists(ByLog(s), s.claims.Keys);
    assert |ids| == 1 && ids[0] in ids;
    assert Wires(Events(s)) == [WireOf(a)];
    OneFrame(WireOf(a));
  }

  lemma OneFrame(e: WireEvent)
    ensures Concat([e]) == Cbor.EncEvent(e)
  {
    hide Cbor.EncEvent;
    assert [e][1..] == [] && Concat([e]) == Cbor.EncEvent(e) + Concat([]);
  }

  lemma FramesTellTags(e: WireEvent, tag: Bytes)
    requires |tag| == |e.tag| && tag != e.tag
    ensures Cbor.EncEvent(e) != Cbor.EncEvent(e.(tag := tag))
  {
    hide Cbor.EncHead, Cbor.EncBody;
    var front := Cbor.EncHead(4, 3) + Cbor.EncBytes(e.header) + Cbor.EncHead(2, |tag|);
    assert Cbor.EncEvent(e) == front + e.tag + Cbor.EncBody(e.body);
    assert Cbor.EncEvent(e.(tag := tag)) == front + tag + Cbor.EncBody(e.body);
    assert (front + e.tag + Cbor.EncBody(e.body))[|front|..][..|tag|] == e.tag;
    assert (front + tag + Cbor.EncBody(e.body))[|front|..][..|tag|] == tag;
  }

  lemma TombstoneIsTyped(b: byte)
    ensures TypedEvent(Tagged32(Filled(b)))
  {
    hide DecHeader, EncHeader;
    HeaderRoundTrip(Header(WIRE_VERSION, Filled(0), Filled(0)));
    HeaderLength(Tagged32(Filled(b)).header);
  }

  /** What two tombstones under different tags load to, one after the other. */
  lemma LoadsFirst(h: Digest, e: WireEvent, e': WireEvent, now: int)
    requires Classify(h, e).Checked? && Classify(h, e').Checked? && Classify(h, e).art.body.None?
    requires Classify(h, e').art == Classify(h, e).art.(tag := Classify(h, e').art.tag)
    ensures var a := Classify(h, e).art;
            Load(h, [e, e'], now) == Ingested(EMPTY, a, now) && Dump(Load(h, [e, e'], now)) == Cbor.EncEvent(WireOf(a))
  {
    hide Classify, Ingested, Load, Cbor.EncEvent, WireOf, Dump;
    LoadsTwo(h, e, e', now);
    FirstTagStays(Classify(h, e).art, Classify(h, e').art, now);
    SingleDump(Load(h, [e, e'], now), Classify(h, e).art);
  }

  /** The same two events in the other order: the same state, another dump. */
  lemma TwoTagsTwoDumps(h: Digest, now: int) returns (e: WireEvent, e': WireEvent)
    ensures TypedEvent(e) && TypedEvent(e') && CollisionFree(h, {e, e'})
    ensures Vector(Load(h, [e, e'], now)) == Vector(Load(h, [e', e], now))
    ensures Dump(Load(h, [e, e'], now)) != Dump(Load(h, [e', e], now))
  {
    hide Classify, Ingested, Load, Cbor.EncEvent, Dump, EncHeader, FromBigEndian, Vector, Filled;
    e, e' := Tagged32(Filled(0)), Tagged32(Filled(1));
    TombstoneChecks(h, Filled(0));
    TombstoneChecks(h, Filled(1));
    TombstoneIsTyped(0);
    TombstoneIsTyped(1);
    var a, b := Classify(h, e).art, Classify(h, e').art;
    LoadsFirst(h, e, e', now);
    LoadsFirst(h, e', e, now);
    SameButTheTag(a, b, now);
    assert Filled(0)[0] != Filled(1)[0];
    FramesTellTags(WireOf(a), Filled(1));
  }

  lemma LoadsTwo(h: Digest, e: WireEvent, e': WireEvent, now: int)
    requires Classify(h, e).Checked? && Classify(h, e').Checked?
    ensures Load(h, [e, e'], now) == Ingested(Ingested(EMPTY, Classify(h, e).art, now), Classify(h, e').art, now)
  {
    hide Classify, Ingested;
    assert [e, e'][..1] == [e] && [e][..0] == [];
    assert Load(h, [e], now) == Ingested(EMPTY, Classify(h, e).art, now);
  }

  lemma SameButTheTag(a: Artifact, b: Artifact, now: int)
    requires a.body.None? && b == a.(tag := b.tag)
    ensures Vector(Ingested(EMPTY, a, now)) == Vector(Ingested(EMPTY, b, now))
  {
    hide Ingested, With;
    IngestedInTwoSteps(EMPTY, a, now);
    IngestedInTwoSteps(EMPTY, b, now);
    RedactionEffect(EMPTY, a);
    RedactionEffect(EMPTY, b);
    StoreEffect(EMPTY, a, now);
    StoreEffect(EMPTY, b, now);
  }
}
