/**
 Encode then decode: exactly the values within the decoder's limits come back.

 The encoder is total, the decoder is not. `Decodable` collects the decoder's
 limits as a caller would check them before encoding.
 */
module CborRoundTrip {
  import opened Bytes
  import opened Values
  import opened Cbor
  import opened CborLaws

  /**
   Nesting counts tag, array and map levels; a blob's size is carried as an i64;
   a generic tag must not wrap a shape the decoder recognises.
   */
  predicate Decodable(v: Value, depth: nat)
    decreases v
  {
    && depth <= MAX_DEPTH
    && match v
       case Int(i) => -I64_MAX - 1 <= i <= I64_MAX
       case Array(items) => forall i | 0 <= i < |items| :: Decodable(items[i], depth + 1)
       case Map(m) => forall k | k in m :: Decodable(m[k], depth + 1)
       case ClaimRef(_, _) => depth + 2 <= MAX_DEPTH
       case Embed(_) => depth + 2 <= MAX_DEPTH
       case BlobRef(_, size, _) => depth + 2 <= MAX_DEPTH && size <= I64_MAX
       case Tagged(tag, inner) => InterpretTag(tag, inner) == v && Decodable(inner, depth + 1)
       case _ => true
  }

  // ── What comes back ──────────────────────────────────────────────────

  lemma TakeIsRead(buf: Bytes, pos: nat, s: Bytes)
    requires |buf| <= MAX_LEN && At(buf, pos, s)
    ensures DecTake(buf, pos, |s|) == Ok(s, pos + |s|)
  {
  }

  lemma KeyIsRead(buf: Bytes, pos: nat, key: Bytes, prev: Option<Bytes>)
    requires |buf| <= MAX_LEN && TypedText(key) && At(buf, pos, EncText(key))
    requires prev.Some? ==> Below(prev.value, EncText(key))
    ensures DecKey(buf, pos, prev) == Ok(key, pos + |EncText(key)|)
    ensures buf[pos..pos + |EncText(key)|] == EncText(key)
  {
    hide DecHead, EncHead, Below, IsUtf8;
    AtConcat(buf, pos, EncHead(3, |key|), key);
    HeadIsRead(buf, pos, 3, |key|);
    TakeIsRead(buf, pos + |EncHead(3, |key|)|, key);
  }

  lemma {:induction false} ItemsAreReadBack(items: seq<Value>, buf: Bytes, pos: nat, depth: nat)
    requires |buf| <= MAX_LEN && At(buf, pos, EncItems(items))
    requires forall i | 0 <= i < |items| :: Typed(items[i]) && Decodable(items[i], depth)
    ensures DecItems(buf, pos, |items|, depth) == Ok(items, pos + |EncItems(items)|)
    decreases |buf| - pos, 1, |items|
  {
    hide Typed, Decodable, Enc, DecValue;
    if items != [] {
      var v, rest := items[0], items[1..];
      AtConcat(buf, pos, Enc(v), EncItems(rest));
      ValueIsReadBack(v, buf, pos, depth);
      ItemsAreReadBack(rest, buf, pos + |Enc(v)|, depth);
      assert items == [v] + rest;
    }
  }

  function EntriesOf(v: Value, ks: seq<Bytes>): (es: seq<Entry>)
    requires v.Map? && Within(ks, v.entries)
    ensures Keys(es) == ks && Agrees(v.entries, es)
  {
    if ks == [] then [] else [Entry(ks[0], v.entries[ks[0]])] + EntriesOf(v, ks[1..])
  }

  ghost predicate Readable(m: map<Bytes, Value>, depth: nat) {
    forall k | k in m :: TypedText(k) && Typed(m[k]) && Decodable(m[k], depth)
  }

  lemma {:induction false} EntriesAreReadBack(
      v: Value, ks: seq<Bytes>, buf: Bytes, pos: nat, prev: Option<Bytes>, depth: nat)
    requires v.Map? && Within(ks, v.entries) && Readable(v.entries, depth)
    requires Ascending(ks) && (prev.Some? && ks != [] ==> Below(prev.value, EncText(ks[0])))
    requires |buf| <= MAX_LEN && At(buf, pos, EncEntries(v, ks))
    ensures DecEntries(buf, pos, |ks|, prev, depth) == Ok(EntriesOf(v, ks), pos + |EncEntries(v, ks)|)
    decreases |buf| - pos, 1, |ks|
  {
    hide Typed, TypedText, Decodable, Enc, DecValue, DecKey, EncText, At, Below, EncEntries;
    if ks != [] {
      var k, rest := ks[0], ks[1..];
      var w := v.entries[k];
      var mid := pos + |EncText(k)|;
      EntryBytes(v, ks, buf, pos);
      KeyIsRead(buf, pos, k, prev);
      assert mid > pos by { assert DecKey(buf, pos, prev).Ok?; }
      ValueIsReadBack(w, buf, mid, depth);
      EntriesAreReadBack(v, rest, buf, mid + |Enc(w)|, Some(EncText(k)), depth);
    } else {
      assert EncEntries(v, ks) == [] by { NoEntries(v, ks); }
    }
  }

  lemma NoEntries(v: Value, ks: seq<Bytes>)
    requires v.Map? && ks == []
    ensures EncEntries(v, ks) == []
  {
  }

  lemma EntryBytes(v: Value, ks: seq<Bytes>, buf: Bytes, pos: nat)
    requires ks != [] && v.Map? && Within(ks, v.entries) && At(buf, pos, EncEntries(v, ks))
    ensures var key, w := EncText(ks[0]), Enc(v.entries[ks[0]]);
            && At(buf, pos, key) && At(buf, pos + |key|, w)
            && At(buf, pos + |key| + |w|, EncEntries(v, ks[1..]))
            && |EncEntries(v, ks)| == |key| + |w| + |EncEntries(v, ks[1..])|
  {
    var key, w := EncText(ks[0]), Enc(v.entries[ks[0]]);
    var rest := EncEntries(v, ks[1..]);
    assert EncEntries(v, ks) == key + w + rest;
    hide *;
    AtConcat(buf, pos, key + w, rest);
    AtConcat(buf, pos, key, w);
  }

  lemma SameEntries(m: map<Bytes, Value>, m': map<Bytes, Value>, es: seq<Entry>)
    requires Lists(Keys(es), m) && Agrees(m, es) && Lists(Keys(es), m') && Agrees(m', es)
    ensures m == m'
  {
    hide Keys;
    forall k | k in m
      ensures k in m' && m[k] == m'[k]
    {
      var ks := Keys(es);
      assert k in ks;
      var i :| 0 <= i < |ks| && ks[i] == k;
      assert es[i].key == k;
    }
    assert m.Keys == m'.Keys;
  }

  lemma CollectRebuilds(v: Value, ks: seq<Bytes>)
    requires v.Map? && Lists(ks, v.entries) && Distinct(ks) && Within(ks, v.entries)
    ensures Collect(EntriesOf(v, ks)) == v.entries
  {
    hide Collect, EntriesOf, Lists, Distinct, Agrees, Keys;
    var es := EntriesOf(v, ks);
    CollectLooksUp(es);
    SameEntries(Collect(es), v.entries, es);
  }

  lemma MapStep(buf: Bytes, pos: nat, depth: nat, n: nat, next: nat, es: seq<Entry>, end: nat)
    requires pos <= |buf| && next <= |buf| && depth <= MAX_DEPTH && DecHead(buf, pos) == Ok(Head(5, n), next)
    requires DecEntries(buf, next, n, None, depth + 1) == Ok(es, end)
    ensures DecValue(buf, pos, depth) == Ok(Map(Collect(es)), end)
  {
    hide DecHead, DecEntries, Collect;
  }

  lemma MapParts(v: Value, depth: nat)
    requires v.Map? && Typed(v) && Decodable(v, depth)
    ensures depth <= MAX_DEPTH && |v.entries| < 0x1_0000_0000_0000_0000
    ensures Readable(v.entries, depth + 1)
  {
  }

  /** A map's keys in the order they are written. */
  lemma SortedKeys(v: Value) returns (ks: seq<Bytes>)
    requires v.Map?
    ensures Ascending(ks) && |ks| == |v.entries| && Within(ks, v.entries)
    ensures Enc(v) == EncHead(5, |v.entries|) + EncEntries(v, ks)
    ensures Map(Collect(EntriesOf(v, ks))) == v
  {
    hide KeyBelow, SortKeys, Collect, Enc, EncEntries, EncHead, EntriesOf;
    ks := SortKeys(v.entries.Keys);
    SortKeysLists(v.entries.Keys);
    forall i | 0 <= i < |ks|
      ensures ks[i] in v.entries
    {
      assert ks[i] in ks;
    }
    hide *;
    AscendingIsDistinct(ks);
    CollectRebuilds(v, ks);
    EncMap(v.entries, ks);
  }

  lemma MapHead(v: Value, n: u64, ks: seq<Bytes>, buf: Bytes, pos: nat) returns (next: nat)
    requires v.Map? && |buf| <= MAX_LEN && n == |v.entries| && Within(ks, v.entries)
    requires Enc(v) == EncHead(5, n) + EncEntries(v, ks) && At(buf, pos, Enc(v))
    ensures pos < next <= |buf| && DecHead(buf, pos) == Ok(Head(5, n), next)
    ensures At(buf, next, EncEntries(v, ks)) && next + |EncEntries(v, ks)| == pos + |Enc(v)|
  {
    hide *;
    next := pos + |EncHead(5, n)|;
    AtConcat(buf, pos, EncHead(5, n), EncEntries(v, ks));
    HeadIsRead(buf, pos, 5, n);
  }

  lemma {:induction false} MapIsReadBack(v: Value, buf: Bytes, pos: nat, depth: nat)
    requires v.Map? && Typed(v) && Decodable(v, depth) && |buf| <= MAX_LEN && At(buf, pos, Enc(v))
    ensures DecValue(buf, pos, depth) == Ok(v, pos + |Enc(v)|)
    decreases |buf| - pos, 0, 1
  {
    hide *;
    MapParts(v, depth);
    var n: u64 := |v.entries|;
    var ks := SortedKeys(v);
    var next := MapHead(v, n, ks, buf, pos);
    EntriesAreReadBack(v, ks, buf, next, None, depth + 1);
    MapStep(buf, pos, depth, n, next, EntriesOf(v, ks), pos + |Enc(v)|);
  }

  /** A tag over a value that reads back as `inner`. */
  lemma {:induction false} TagIsReadBack(tag: u64, inner: Value, buf: Bytes, pos: nat, depth: nat)
    requires Typed(inner) && Decodable(inner, depth + 1) && depth <= MAX_DEPTH
    requires |buf| <= MAX_LEN && At(buf, pos, EncHead(6, tag) + Enc(inner))
    ensures DecValue(buf, pos, depth) == Ok(InterpretTag(tag, inner), pos + |EncHead(6, tag) + Enc(inner)|)
    decreases |buf| - pos, 0, 0
  {
    hide DecHead, EncHead, Enc, Typed, Decodable, InterpretTag;
    AtConcat(buf, pos, EncHead(6, tag), Enc(inner));
    HeadIsRead(buf, pos, 6, tag);
    ValueIsReadBack(inner, buf, pos + |EncHead(6, tag)|, depth + 1);
  }

  /** The generic value a recognised tag wraps. */
  function Wrapped(v: Value): Value
    requires v.ClaimRef? || v.Embed? || v.BlobRef?
  {
    match v
    case ClaimRef(log, claim) => Array([Value.Bytes(log), Value.Bytes(claim)])
    case Embed(e) =>
      Array([Value.Bytes(e.header), Value.Bytes(e.tag), if e.body.None? then Null else Value.Bytes(e.body.value)])
    case BlobRef(hash, size, mime) => Array([Value.Bytes(hash), Int(size), Text(mime)])
  }

  function TagOf(v: Value): u64
    requires v.ClaimRef? || v.Embed? || v.BlobRef?
  {
    if v.ClaimRef? then TAG_CLAIM_REF else if v.Embed? then TAG_EMBED else TAG_BLOB_REF
  }

  lemma WrappedIsRecognised(v: Value, depth: nat)
    requires (v.ClaimRef? || v.Embed? || v.BlobRef?) && Typed(v) && Decodable(v, depth)
    ensures Typed(Wrapped(v)) && Decodable(Wrapped(v), depth + 1)
    ensures InterpretTag(TagOf(v), Wrapped(v)) == v
  {
    hide IsUtf8;
  }

  lemma {:induction false} ValueIsReadBack(v: Value, buf: Bytes, pos: nat, depth: nat)
    requires Typed(v) && Decodable(v, depth) && |buf| <= MAX_LEN && At(buf, pos, Enc(v))
    ensures DecValue(buf, pos, depth) == Ok(v, pos + |Enc(v)|)
    decreases |buf| - pos, 0, 2
  {
    hide EncHead, DecHead, DecItems, EncItems, SortKeys, EncEntries, DecEntries, InterpretTag, At, DecTake, IsUtf8;
    match v
    case Null => SimpleIsRead(buf, pos, 22);
    case Bool(b) => SimpleIsRead(buf, pos, if b then 21 else 20);
    case Int(i) =>
      HeadIsRead(buf, pos, if i >= 0 then 0 else 1, if i >= 0 then i else -(i + 1));
    case Bytes(b) =>
      AtConcat(buf, pos, EncHead(2, |b|), b);
      HeadIsRead(buf, pos, 2, |b|);
      TakeIsRead(buf, pos + |EncHead(2, |b|)|, b);
    case Text(s) =>
      AtConcat(buf, pos, EncHead(3, |s|), s);
      HeadIsRead(buf, pos, 3, |s|);
      TakeIsRead(buf, pos + |EncHead(3, |s|)|, s);
    case Array(items) =>
      AtConcat(buf, pos, EncHead(4, |items|), EncItems(items));
      HeadIsRead(buf, pos, 4, |items|);
      ItemsAreReadBack(items, buf, pos + |EncHead(4, |items|)|, depth + 1);
    case Map(_) => MapIsReadBack(v, buf, pos, depth);
    case Tagged(tag, inner) => TagIsReadBack(tag, inner, buf, pos, depth);
    case _ =>
      WrappedIsRecognised(v, depth);
      TagKeepsBytes(TagOf(v), Wrapped(v));
      TagIsReadBack(TagOf(v), Wrapped(v), buf, pos, depth);
  }

  lemma SimpleIsRead(buf: Bytes, pos: nat, arg: nat)
    requires 20 <= arg <= 22 && |buf| <= MAX_LEN && At(buf, pos, [0xe0 + arg])
    ensures DecHead(buf, pos) == Ok(Head(7, arg), pos + 1)
  {
    SimpleBytes(arg);
    HeadIsRead(buf, pos, 7, arg);
  }

  // ── The decoder only produces values within its own limits ───────────

  lemma {:induction false} CollectedFrom(es: seq<Entry>, k: Bytes) returns (i: nat)
    requires k in Collect(es)
    ensures i < |es| && es[i].value == Collect(es)[k]
  {
    var n := |es| - 1;
    if k == es[n].key {
      i := n;
    } else {
      assert Collect(es) == Collect(es[..n])[es[n].key := es[n].value];
      i := CollectedFrom(es[..n], k);
      assert es[i] == es[..n][i];
    }
  }

  lemma CollectedValues(es: seq<Entry>)
    ensures forall k | k in Collect(es) :: exists i :: 0 <= i < |es| && es[i].value == Collect(es)[k]
  {
    hide Collect;
    forall k | k in Collect(es)
      ensures exists i :: 0 <= i < |es| && es[i].value == Collect(es)[k]
    {
      var i := CollectedFrom(es, k);
      assert es[i].value == Collect(es)[k];
    }
  }

  lemma RecognisedIsDecodable(tag: nat, inner: Value, depth: nat)
    requires Decodable(inner, depth + 1) && depth <= MAX_DEPTH
    ensures Decodable(InterpretTag(tag, inner), depth)
  {
    if inner.Array? && |inner.items| > 1 {
      assert Decodable(inner.items[0], depth + 2);
      assert Decodable(inner.items[1], depth + 2);
    }
  }

  lemma {:induction false} DecodedItems(buf: Bytes, pos: nat, n: nat, depth: nat)
    requires pos <= |buf| && DecItems(buf, pos, n, depth).Ok?
    ensures forall i | 0 <= i < n :: Decodable(DecItems(buf, pos, n, depth).item[i], depth)
    decreases |buf| - pos, 1
  {
    hide DecValue, Decodable;
    if n != 0 {
      DecodedIsDecodable(buf, pos, depth);
      DecodedItems(buf, DecValue(buf, pos, depth).pos, n - 1, depth);
    }
  }

  lemma {:induction false} DecodedEntries(buf: Bytes, pos: nat, n: nat, prev: Option<Bytes>, depth: nat)
    requires pos <= |buf| && DecEntries(buf, pos, n, prev, depth).Ok?
    ensures forall i | 0 <= i < n :: Decodable(DecEntries(buf, pos, n, prev, depth).item[i].value, depth)
    decreases |buf| - pos, 1
  {
    hide DecValue, Decodable, DecKey;
    if n != 0 {
      var mid := DecKey(buf, pos, prev).pos;
      assert mid > pos by { assert DecKey(buf, pos, prev).Ok?; }
      DecodedIsDecodable(buf, mid, depth);
      DecodedEntries(buf, DecValue(buf, mid, depth).pos, n - 1, Some(buf[pos..mid]), depth);
    }
  }

  lemma {:induction false} DecodedIsDecodable(buf: Bytes, pos: nat, depth: nat)
    requires pos <= |buf| && DecValue(buf, pos, depth).Ok?
    ensures Decodable(DecValue(buf, pos, depth).item, depth)
    decreases |buf| - pos, 0
  {
    hide DecItems, DecEntries, DecHead, DecTake, InterpretTag, Collect, IsUtf8;
    var Ok(v, end) := DecValue(buf, pos, depth);
    var Ok(Head(major, arg), next) := DecHead(buf, pos);
    if major == 4 {
      DecodedItems(buf, next, arg, depth + 1);
    } else if major == 5 {
      DecodedEntries(buf, next, arg, None, depth + 1);
      CollectedValues(DecEntries(buf, next, arg, None, depth + 1).item);
    } else if major == 6 {
      DecodedIsDecodable(buf, next, depth + 1);
      RecognisedIsDecodable(arg, DecValue(buf, next, depth + 1).item, depth);
    }
  }

  /**
   A value survives encode and decode exactly when it is within the decoder's
   limits.
   */
  lemma EncodeDecode(v: Value)
    requires Typed(v) && |Enc(v)| <= MAX_LEN
    ensures FromBytes(Enc(v)) == Ok(v, |Enc(v)|) <==> Decodable(v, 0)
  {
    hide Enc, DecValue, Typed, Decodable;
    var buf := Enc(v);
    assert buf[0..|buf|] == buf;
    if Decodable(v, 0) {
      ValueIsReadBack(v, buf, 0, 0);
    }
    if FromBytes(buf) == Ok(v, |buf|) {
      DecodedIsDecodable(buf, 0, 0);
    }
  }
}
