/**
 From wire events to checked artifacts: the structural check, the engine's
 recogniser of redactions, and the deep walk that collects a body's edges.
 */
module Wire {
  import opened Bytes
  import opened Values
  import Cbor
  import opened Frames
  import Rows
  import opened Converge

  type Bytes32 = b: Bytes | |b| == 32 witness seq(32, _ => 0)

  /** The content hash, 32 bytes of anything. */
  type Digest = Bytes -> Bytes32

  const MAX_BODY_SIZE := 65536
  const MAX_EMBED_DEPTH := 64

  /** A 32-byte name as the number it spells, which orders names as bytes do. */
  function Name(b: Bytes): nat { FromBigEndian(b) }

  // ── The deep walk ────────────────────────────────────────────────────

  datatype Edges = Edges(refs: seq<nat>, blobs: seq<nat>, skipped: nat)

  function Join(a: Edges, b: Edges): Edges {
    Edges(a.refs + b.refs, a.blobs + b.blobs, a.skipped + b.skipped)
  }

  const NO_EDGES := Edges([], [], 0)

  datatype Claim = Claim(log: nat, body: Option<Value>)

  /** The structural check: the header decodes and pins a body that is a map. */
  function Check(h: Digest, e: Event): Option<Claim> {
    var header := DecHeader(e.header);
    if header.Err? then None
    else if e.body.None? then Some(Claim(Name(header.item.log), None))
    else
      var bytes := e.body.value;
      if |bytes| > MAX_BODY_SIZE || h(bytes) != header.item.bodyHash then None
      else
        var v := Cbor.FromBytes(bytes);
        if v.Ok? && v.item.Map? then Some(Claim(Name(header.item.log), Some(v.item))) else None
  }

  /** Edges of a value, through embeds, `depth` embed layers down. */
  ghost function Collect(h: Digest, v: Value, depth: nat): Edges
    decreases if depth < MAX_EMBED_DEPTH then MAX_EMBED_DEPTH - depth else 0, v
  {
    match v
    case ClaimRef(_, claim) => Edges([Name(claim)], [], 0)
    case BlobRef(blob, _, _) => Edges([], [Name(blob)], 0)
    case Embed(e) =>
      if depth >= MAX_EMBED_DEPTH then NO_EDGES.(skipped := 1)
      else
        var claim := Check(h, e);
        if claim.None? then NO_EDGES.(skipped := 1)
        else
          Join(Edges([Name(h(e.header))], [], 0),
               if claim.value.body.Some? then Collect(h, claim.value.body.value, depth + 1) else NO_EDGES)
    case Array(items) => CollectItems(h, items, depth)
    case Map(m) =>
      Cbor.SortKeysLists(m.Keys);
      CollectEntries(h, v, Cbor.SortKeys(m.Keys), depth)
    case Tagged(_, inner) => Collect(h, inner, depth)
    case _ => NO_EDGES
  }

  ghost function CollectItems(h: Digest, items: seq<Value>, depth: nat): Edges
    decreases if depth < MAX_EMBED_DEPTH then MAX_EMBED_DEPTH - depth else 0, items
  {
    if items == [] then NO_EDGES else Join(Collect(h, items[0], depth), CollectItems(h, items[1..], depth))
  }

  ghost function CollectEntries(h: Digest, v: Value, ks: seq<Bytes>, depth: nat): Edges
    requires v.Map? && Cbor.Within(ks, v.entries)
    decreases if depth < MAX_EMBED_DEPTH then MAX_EMBED_DEPTH - depth else 0, v, |ks|
  {
    if ks == [] then NO_EDGES
    else Join(Collect(h, v.entries[ks[0]], depth), CollectEntries(h, v, ks[1..], depth))
  }

  /** `v` mentions a claim: as a reference, as a quote, or inside a quote. */
  ghost predicate Mentions(h: Digest, v: Value, depth: nat, claim: nat)
    decreases if depth < MAX_EMBED_DEPTH then MAX_EMBED_DEPTH - depth else 0, v
  {
    match v
    case ClaimRef(_, c) => Name(c) == claim
    case Embed(e) =>
      depth < MAX_EMBED_DEPTH && Check(h, e).Some? &&
      (Name(h(e.header)) == claim
       || (Check(h, e).value.body.Some? && Mentions(h, Check(h, e).value.body.value, depth + 1, claim)))
    case Array(items) => exists i :: 0 <= i < |items| && Mentions(h, items[i], depth, claim)
    case Map(m) => exists k :: k in m && Mentions(h, m[k], depth, claim)
    case Tagged(_, inner) => Mentions(h, inner, depth, claim)
    case _ => false
  }

  lemma {:induction false} WalkFindsItems(h: Digest, items: seq<Value>, depth: nat, claim: nat)
    ensures claim in CollectItems(h, items, depth).refs <==>
            exists i :: 0 <= i < |items| && Mentions(h, items[i], depth, claim)
    decreases if depth < MAX_EMBED_DEPTH then MAX_EMBED_DEPTH - depth else 0, items
  {
    hide Mentions, Collect;
    if items != [] {
      var rest := items[1..];
      WalkFindsMentions(h, items[0], depth, claim);
      WalkFindsItems(h, rest, depth, claim);
      if i :| 0 <= i < |rest| && Mentions(h, rest[i], depth, claim) {
        assert Mentions(h, items[i + 1], depth, claim);
      }
      if i :| 0 <= i < |items| && Mentions(h, items[i], depth, claim) {
        assert i > 0 ==> Mentions(h, rest[i - 1], depth, claim);
      }
    }
  }

  lemma {:induction false} WalkFindsEntries(h: Digest, v: Value, ks: seq<Bytes>, depth: nat, claim: nat)
    requires v.Map? && Cbor.Within(ks, v.entries)
    ensures claim in CollectEntries(h, v, ks, depth).refs <==>
            exists i :: 0 <= i < |ks| && Mentions(h, v.entries[ks[i]], depth, claim)
    decreases if depth < MAX_EMBED_DEPTH then MAX_EMBED_DEPTH - depth else 0, v, |ks|
  {
    hide Mentions, Collect;
    if ks != [] {
      var rest := ks[1..];
      WalkFindsMentions(h, v.entries[ks[0]], depth, claim);
      WalkFindsEntries(h, v, rest, depth, claim);
      if i :| 0 <= i < |rest| && Mentions(h, v.entries[rest[i]], depth, claim) {
        assert Mentions(h, v.entries[ks[i + 1]], depth, claim);
      }
      if i :| 0 <= i < |ks| && Mentions(h, v.entries[ks[i]], depth, claim) {
        assert i > 0 ==> Mentions(h, v.entries[rest[i - 1]], depth, claim);
      }
    }
  }

  /** The index a body contributes is exactly what the body mentions. */
  lemma {:induction false} WalkFindsMentions(h: Digest, v: Value, depth: nat, claim: nat)
    ensures claim in Collect(h, v, depth).refs <==> Mentions(h, v, depth, claim)
    decreases if depth < MAX_EMBED_DEPTH then MAX_EMBED_DEPTH - depth else 0, v
  {
    hide Check, Cbor.SortKeys, CollectItems, CollectEntries;
    match v
    case Embed(e) =>
      if depth < MAX_EMBED_DEPTH && Check(h, e).Some? && Check(h, e).value.body.Some? {
        WalkFindsMentions(h, Check(h, e).value.body.value, depth + 1, claim);
      }
    case Array(items) => WalkFindsItems(h, items, depth, claim);
    case Map(m) =>
      var ks := Cbor.SortKeys(m.Keys);
      Cbor.SortKeysLists(m.Keys);
      WalkFindsEntries(h, v, ks, depth, claim);
      if k :| k in m && Mentions(h, m[k], depth, claim) {
        assert k in ks;
      }
      assert forall i | 0 <= i < |ks| :: ks[i] in ks;
    case Tagged(_, inner) => WalkFindsMentions(h, inner, depth, claim);
    case _ =>
  }

  // ── Checked artifacts ────────────────────────────────────────────────

  const TYPE_KEY: Bytes := [0x74, 0x79, 0x70, 0x65]
  const REDACT: Bytes := [0x72, 0x65, 0x64, 0x61, 0x63, 0x74]
  const REDACTS_KEY: Bytes := REDACT + [0x73]

  /** `{type: "redact", redacts: ClaimRef}`, wherever the reference points. */
  function NamedRedaction(v: Value): Option<Rows.ClaimRef> {
    if v.Map? && TYPE_KEY in v.entries && v.entries[TYPE_KEY] == Text(REDACT)
       && REDACTS_KEY in v.entries && v.entries[REDACTS_KEY].ClaimRef?
    then Some(Rows.ClaimRef(Name(v.entries[REDACTS_KEY].log), Name(v.entries[REDACTS_KEY].claim)))
    else None
  }

  ghost function Summary(h: Digest, bytes: Bytes, v: Value): Rows.Body {
    var edges := Collect(h, v, 0);
    Rows.Body(bytes, NamedRedaction(v), edges.refs, edges.blobs, edges.skipped)
  }

  /** The event as ingest sees it. */
  ghost function Classify(h: Digest, e: Event): Rows.Event {
    var id := Name(h(e.header));
    var header := DecHeader(e.header);
    if header.Err? then Rows.Garbled(id)
    else
      var claim := Check(h, e);
      if claim.None? then Rows.BadBody(id, Name(header.item.log))
      else
        Rows.Checked(Rows.Artifact(id, claim.value.log, e.header, e.tag,
          if claim.value.body.Some? then Some(Summary(h, e.body.value, claim.value.body.value)) else None))
  }

  function WireOf(a: Rows.Artifact): Event {
    Event(a.header, a.tag, if a.body.Some? then Some(a.body.value.bytes) else None)
  }

  /** An artifact some well-typed event was checked into. */
  ghost predicate Wellformed(h: Digest, a: Rows.Artifact) {
    Classify(h, WireOf(a)) == Rows.Checked(a) && |a.tag| == 32
  }

  lemma ClassifiedIsWellformed(h: Digest, e: Event)
    requires TypedEvent(e) && Classify(h, e).Checked?
    ensures Wellformed(h, Classify(h, e).art) && WireOf(Classify(h, e).art) == e
  {
    hide Collect, Cbor.FromBytes, DecHeader;
  }

  // ── Collision freedom gives a world ──────────────────────────────────

  ghost predicate CollisionFree(h: Digest, events: set<Event>) {
    && (forall e, e' | e in events && e' in events :: h(e.header) == h(e'.header) ==> e.header == e'.header)
    && (forall e, e' | e in events && e' in events ::
          e.body.Some? && e'.body.Some? && h(e.body.value) == h(e'.body.value) ==> e.body == e'.body)
  }

  ghost predicate Carries(h: Digest, e: Event, id: nat) {
    Classify(h, e).Checked? && Classify(h, e).art.id == id
  }

  ghost predicate CarriesBody(h: Digest, e: Event, id: nat) {
    Carries(h, e, id) && Classify(h, e).art.body.Some?
  }

  const NO_BODY := Rows.Body([], None, [], [], 0)

  /** What the ids of some events are the hashes of. */
  ghost function WorldOf(h: Digest, events: set<Event>): World {
    (id: nat) =>
      if exists e :: e in events && CarriesBody(h, e, id) then
        var e :| e in events && CarriesBody(h, e, id);
        var a := Classify(h, e).art;
        Content(a.log, a.header, a.body.value)
      else if exists e :: e in events && Carries(h, e, id) then
        var e :| e in events && Carries(h, e, id);
        var a := Classify(h, e).art;
        Content(a.log, a.header, NO_BODY)
      else Content(0, [], NO_BODY)
  }

  lemma SameIdSameContent(h: Digest, events: set<Event>, e: Event, e': Event)
    requires CollisionFree(h, events) && e in events && e' in events
    requires Classify(h, e).Checked? && Classify(h, e').Checked? && Classify(h, e).art.id == Classify(h, e').art.id
    ensures var a, a' := Classify(h, e).art, Classify(h, e').art;
            a.header == a'.header && a.log == a'.log && (a.body.Some? && a'.body.Some? ==> a.body == a'.body)
  {
    hide Summary, Cbor.FromBytes, DecHeader, FromBigEndian;
    BigEndianInjective(h(e.header), h(e'.header));
  }

  /** Events whose hashes do not collide are genuine in the world they make. */
  lemma EventsAreGenuine(h: Digest, events: set<Event>, e: Event)
    requires CollisionFree(h, events) && e in events && Classify(h, e).Checked?
    ensures Genuine(WorldOf(h, events), Classify(h, e).art)
  {
    hide Classify, CollisionFree;
    var a := Classify(h, e).art;
    assert Carries(h, e, a.id);
    if exists x :: x in events && CarriesBody(h, x, a.id) {
      var x :| x in events && CarriesBody(h, x, a.id) &&
               WorldOf(h, events)(a.id) == Content(Classify(h, x).art.log, Classify(h, x).art.header,
                 Classify(h, x).art.body.value);
      SameIdSameContent(h, events, e, x);
    } else {
      var x :| x in events && Carries(h, x, a.id) &&
               WorldOf(h, events)(a.id) == Content(Classify(h, x).art.log, Classify(h, x).art.header, NO_BODY);
      SameIdSameContent(h, events, e, x);
      assert a.body.Some? ==> CarriesBody(h, e, a.id);
    }
  }
}
