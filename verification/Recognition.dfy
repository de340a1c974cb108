/**
 Which wire events are claims and which of those are redactions, said of the bytes and
 the decoded body, and that a recognised redaction takes effect in a store loaded from
 events in whatever order.
 */
module Recognition {
  import opened Bytes
  import opened Values
  import Cbor
  import opened Frames
  import opened Rows
  import opened Converge
  import opened Wire
  import opened Backup

  // ── What is a claim ──────────────────────────────────────────────────

  /** The header decodes; a body is at most 64 KiB, hashes to what it pins, and is a map. */
  ghost predicate Passes(h: Digest, e: WireEvent) {
    && DecHeader(e.header).Ok?
    && (e.body.Some? ==>
          && |e.body.value| <= 65536 && h(e.body.value) == DecHeader(e.header).item.bodyHash
          && Cbor.FromBytes(e.body.value).Ok? && Cbor.FromBytes(e.body.value).item.Map?)
  }

  /** An event is taken for a claim exactly when it passes, under the hash of its header, in the header's log. */
  lemma ClassifyMeans(h: Digest, e: WireEvent)
    ensures Classify(h, e).Checked? <==> Passes(h, e)
    ensures Classify(h, e).Garbled? <==> DecHeader(e.header).Err?
    ensures EventId(Classify(h, e)) == FromBigEndian(h(e.header))
    ensures DecHeader(e.header).Ok? ==> HeaderLog(Classify(h, e)) == Some(FromBigEndian(DecHeader(e.header).item.log))
    ensures Classify(h, e).Checked? ==>
              var a := Classify(h, e).art;
              && a.header == e.header && a.tag == e.tag && (a.body.Some? <==> e.body.Some?)
              && (a.body.Some? ==> a.body.value.bytes == e.body.value)
  {
    hide DecHeader, Cbor.FromBytes, Collect, NamedRedaction, FromBigEndian;
  }

  // ── What is a redaction ──────────────────────────────────────────────

  /** `{type: "redact", redacts: ClaimRef(l, c)}`, among whatever else the map holds. */
  ghost predicate Redacting(v: Value, l: Bytes, c: Bytes) {
    && v.Map?
    && [0x74, 0x79, 0x70, 0x65] in v.entries
    && v.entries[[0x74, 0x79, 0x70, 0x65]] == Text([0x72, 0x65, 0x64, 0x61, 0x63, 0x74])
    && [0x72, 0x65, 0x64, 0x61, 0x63, 0x74, 0x73] in v.entries
    && v.entries[[0x72, 0x65, 0x64, 0x61, 0x63, 0x74, 0x73]] == Value.ClaimRef(l, c)
  }

  /** The body redacts the claim named `t`, as of the log the header is of. */
  ghost predicate RedactsAs(e: WireEvent, l: Bytes, c: Bytes)
    requires DecHeader(e.header).Ok?
  {
    && e.body.Some? && Cbor.FromBytes(e.body.value).Ok? && Redacting(Cbor.FromBytes(e.body.value).item, l, c)
    && FromBigEndian(l) == FromBigEndian(DecHeader(e.header).item.log)
  }

  lemma BodyIsSummary(h: Digest, e: WireEvent)
    requires Classify(h, e).Checked? && e.body.Some?
    ensures Classify(h, e).art.body == Some(Summary(h, e.body.value, Cbor.FromBytes(e.body.value).item))
    ensures Classify(h, e).art.log == FromBigEndian(DecHeader(e.header).item.log)
  {
    hide DecHeader, Cbor.FromBytes, Summary, FromBigEndian;
  }

  /** A claim redacts exactly what its decoded body names as of its own header's log. */
  lemma RedactionIsRecognised(h: Digest, e: WireEvent, t: ClaimHash)
    requires Classify(h, e).Checked?
    ensures DecHeader(e.header).Ok?
    ensures Redacts(Classify(h, e).art) == Some(t) <==> exists l, c :: RedactsAs(e, l, c) && FromBigEndian(c) == t
  {
    ClassifyMeans(h, e);
    hide DecHeader, Cbor.FromBytes, Classify, Redacting, Collect, FromBigEndian;
    if e.body.Some? {
      BodyIsSummary(h, e);
      var v := Cbor.FromBytes(e.body.value).item;
      NamedMeans(v);
      hide NamedRedaction;
      if l, c :| RedactsAs(e, l, c) && FromBigEndian(c) == t {
        RedactingMeans(v, l, c);
      }
      if Redacts(Classify(h, e).art) == Some(t) {
        var l, c :| Redacting(v, l, c);
        RedactingMeans(v, l, c);
        assert RedactsAs(e, l, c);
      }
    }
  }

  lemma NamedMeans(v: Value)
    ensures NamedRedaction(v).Some? <==> exists l, c :: Redacting(v, l, c)
  {
    hide FromBigEndian;
    assert TYPE_KEY == [0x74, 0x79, 0x70, 0x65] && REDACTS_KEY == [0x72, 0x65, 0x64, 0x61, 0x63, 0x74, 0x73];
    if NamedRedaction(v).Some? {
      var named := v.entries[REDACTS_KEY];
      assert Redacting(v, named.log, named.claim);
    }
  }

  lemma RedactingMeans(v: Value, l: Bytes, c: Bytes)
    requires Redacting(v, l, c)
    ensures NamedRedaction(v) == Some(Rows.ClaimRef(FromBigEndian(l), FromBigEndian(c)))
  {
    assert REDACTS_KEY == [0x72, 0x65, 0x64, 0x61, 0x63, 0x74, 0x73];
    hide FromBigEndian;
  }

  // ── What it does to a store ──────────────────────────────────────────

  lemma LoadedRedaction(h: Digest, w: World, events: seq<WireEvent>, now: int, x: Artifact, t: ClaimHash)
    requires TypedAll(events) && GenuineEvents(h, w, events) && x in Passing(h, events) && Redacts(x) == Some(t)
    ensures var s := Load(h, events, now);
            && t in s.redactions && s.redactions[t] <= x.id
            && (Held(s, t) ==> Redacts(s.claims[t].art).Some?)
  {
    hide Passing, Load, TypedAll, GenuineEvents, Sendable, Classify;
    LoadConverges(h, w, events, now);
    var s := Load(h, events, now);
    if Held(s, t) {
      DroppableIffContent(w, s, t);
    }
  }

  /**
   Once a passing event that redacts a claim is among those loaded, in any order, the
   claim is on record as redacted, and its body is not held unless it is itself one
   that redacts.
   */
  lemma RedactionTakesEffect(h: Digest, events: seq<WireEvent>, now: int, e: WireEvent, l: Bytes, c: Bytes)
    requires TypedAll(events) && CollisionFree(h, (set x | x in events)) && e in events && Passes(h, e)
             && RedactsAs(e, l, c)
    ensures var s := Load(h, events, now);
            var t := FromBigEndian(c);
            && t in s.redactions && s.redactions[t] <= FromBigEndian(h(e.header))
            && (Held(s, t) ==> Redacts(s.claims[t].art).Some?)
  {
    var w := WorldOf(h, (set x | x in events));
    ClassifyMeans(h, e);
    RedactionIsRecognised(h, e, FromBigEndian(c));
    hide Classify, CollisionFree, Genuine, Load, WorldOf, Passes, DecHeader, Cbor.FromBytes, FromBigEndian, RedactsAs,
         TypedAll, Held,
         RedactTarget;
    forall x | x in events && Classify(h, x).Checked?
      ensures Genuine(w, Classify(h, x).art)
    {
      EventsAreGenuine(h, (set y | y in events), x);
    }
    assert Classify(h, e).art in Passing(h, events);
    LoadedRedaction(h, w, events, now, Classify(h, e).art, FromBigEndian(c));
  }
}
