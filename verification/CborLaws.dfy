/**
 The codec's two laws: the decoder accepts only canonical bytes, and it reads
 back every value within its limits.
 */
module CborLaws {
  import opened Bytes
  import opened Values
  import opened Cbor

  predicate At(buf: Bytes, pos: nat, s: Bytes) {
    pos + |s| <= |buf| && buf[pos..pos + |s|] == s
  }

  lemma AtConcat(buf: Bytes, pos: nat, s: Bytes, t: Bytes)
    ensures At(buf, pos, s + t) <==> At(buf, pos, s) && At(buf, pos + |s|, t)
  {
    if pos + |s| + |t| <= |buf| {
      var whole := buf[pos..pos + |s + t|];
      assert whole[..|s|] == buf[pos..pos + |s|];
      assert whole[|s|..] == buf[pos + |s|..pos + |s| + |t|];
      assert (s + t)[..|s|] == s && (s + t)[|s|..] == t;
      assert whole == whole[..|s|] + whole[|s|..];
    }
  }

  // ── Heads ────────────────────────────────────────────────────────────

  lemma WideBound(w: nat)
    requires w == 1 || w == 2 || w == 4 || w == 8
    ensures Pow256(w) == if w == 1 then 0x100 else if w == 2 then 0x1_0000
                         else if w == 4 then 0x1_0000_0000 else 0x1_0000_0000_0000_0000
  {
    assert Pow256(1) == 256;
    assert Pow256(2) == 256 * Pow256(1);
    assert Pow256(3) == 256 * Pow256(2);
    assert Pow256(4) == 256 * Pow256(3);
    assert Pow256(5) == 256 * Pow256(4);
    assert Pow256(6) == 256 * Pow256(5);
    assert Pow256(7) == 256 * Pow256(6);
  }

  lemma WideIsRead(buf: Bytes, pos: nat, major: Major, w: nat, arg: nat)
    requires w == 2 || w == 4 || w == 8
    requires |buf| <= MAX_LEN && At(buf, pos, ToBigEndian(arg, w)) && Floor(w) <= arg < Pow256(w)
    ensures DecWide(buf, pos, major, w) == Ok(Head(major, arg), pos + w)
  {
    FromToBigEndian(arg, w);
  }

  lemma WideIsMinimal(buf: Bytes, pos: nat, major: Major, w: nat)
    requires pos <= |buf| && (w == 2 || w == 4 || w == 8)
    requires DecWide(buf, pos, major, w).Ok?
    ensures var Ok(h, next) := DecWide(buf, pos, major, w);
            h.major == major && next == pos + w && At(buf, pos, ToBigEndian(h.arg, w)) && Floor(w) <= h.arg < Pow256(w)
  {
    ToFromBigEndian(buf[pos..pos + w]);
  }

  lemma AtByte(buf: Bytes, pos: nat, b: byte)
    ensures At(buf, pos, [b]) <==> pos < |buf| && buf[pos] == b
  {
    if pos < |buf| {
      assert buf[pos..pos + 1] == [buf[pos]];
    }
  }

  lemma HeadIsRead(buf: Bytes, pos: nat, major: Major, arg: u64)
    requires |buf| <= MAX_LEN && At(buf, pos, EncHead(major, arg)) && (major == 7 ==> arg < 24)
    ensures DecHead(buf, pos) == Ok(Head(major, arg), pos + |EncHead(major, arg)|)
  {
    hide At, ToBigEndian, FromBigEndian, Pow256, DecWide;
    var w := WidthOf(arg);
    if w == 0 {
      AtByte(buf, pos, major * 32 + arg);
    } else {
      WideBound(w);
      AtConcat(buf, pos, [major * 32 + Info(w)], ToBigEndian(arg, w));
      AtByte(buf, pos, major * 32 + Info(w));
      if w == 1 {
        OneByte(arg);
        AtByte(buf, pos + 1, arg);
      } else {
        WideIsRead(buf, pos + 1, major, w, arg);
      }
    }
  }

  lemma OneByte(n: nat)
    requires n < 256
    ensures ToBigEndian(n, 1) == [n]
  {
    assert ToBigEndian(n / 256, 0) == [];
  }

  lemma HeadIsMinimal(buf: Bytes, pos: nat)
    requires pos <= |buf| && DecHead(buf, pos).Ok?
    ensures var Ok(h, next) := DecHead(buf, pos);
            && At(buf, pos, EncHead(h.major, h.arg))
            && next == pos + |EncHead(h.major, h.arg)|
            && h.arg < 0x1_0000_0000_0000_0000
            && (h.major == 7 ==> h.arg < 24)
  {
    hide At, ToBigEndian, FromBigEndian, Pow256;
    var Ok(h, next) := DecHead(buf, pos);
    var info := buf[pos] % 32;
    AtByte(buf, pos, buf[pos]);
    if info >= 24 {
      var w := if info == 24 then 1 else if info == 25 then 2 else if info == 26 then 4 else 8;
      WideBound(w);
      if w == 1 {
        OneByte(h.arg);
        AtByte(buf, pos + 1, buf[pos + 1]);
      } else {
        WideIsMinimal(buf, pos + 1, h.major, w);
      }
      AtConcat(buf, pos, [buf[pos]], ToBigEndian(h.arg, w));
      assert EncHead(h.major, h.arg) == [buf[pos]] + ToBigEndian(h.arg, w);
    }
  }

  // ── Maps as ascending entry lists ────────────────────────────────────

  function Keys(es: seq<Entry>): (ks: seq<Bytes>)
    ensures |ks| == |es| && forall i | 0 <= i < |es| :: ks[i] == es[i].key
  {
    seq(|es|, i requires 0 <= i < |es| => es[i].key)
  }

  ghost function EncList(es: seq<Entry>): Bytes {
    if es == [] then [] else EncText(es[0].key) + Enc(es[0].value) + EncList(es[1..])
  }

  ghost predicate Lists(ks: seq<Bytes>, m: map<Bytes, Value>) {
    forall k :: k in ks <==> k in m
  }

  ghost predicate Distinct(ks: seq<Bytes>) {
    ks == [] || (ks[0] !in ks[1..] && Distinct(ks[1..]))
  }

  lemma {:induction false} DistinctFront(ks: seq<Bytes>)
    requires ks != [] && Distinct(ks)
    ensures Distinct(ks[..|ks| - 1]) && ks[|ks| - 1] !in ks[..|ks| - 1]
  {
    if |ks| > 1 {
      DistinctFront(ks[1..]);
      assert ks[..|ks| - 1][1..] == ks[1..][..|ks| - 2];
      assert ks[..|ks| - 1] == [ks[0]] + ks[1..][..|ks| - 2];
    }
  }

  lemma {:induction false} CollectLooksUp(es: seq<Entry>)
    requires Distinct(Keys(es))
    ensures |Collect(es)| == |es| && Lists(Keys(es), Collect(es)) && Agrees(Collect(es), es)
  {
    if es != [] {
      var n := |es| - 1;
      var front, last := es[..n], es[n];
      assert es == front + [last];
      assert Keys(es) == Keys(front) + [last.key];
      assert Keys(es)[..n] == Keys(front);
      DistinctFront(Keys(es));
      CollectLooksUp(front);
      CollectSnoc(Collect(front), front, last);
    }
  }

  ghost predicate Agrees(m: map<Bytes, Value>, es: seq<Entry>) {
    forall i | 0 <= i < |es| :: es[i].key in m && m[es[i].key] == es[i].value
  }

  lemma CollectSnoc(m: map<Bytes, Value>, front: seq<Entry>, last: Entry)
    requires Lists(Keys(front), m) && Agrees(m, front) && last.key !in Keys(front)
    ensures var m' := m[last.key := last.value];
            |m'| == |m| + 1 && Lists(Keys(front) + [last.key], m') && Agrees(m', front + [last])
  {
    var m' := m[last.key := last.value];
    assert m'.Keys == m.Keys + {last.key};
    forall i | 0 <= i < |front|
      ensures front[i].key != last.key
    {
      assert Keys(front)[i] in Keys(front);
    }
  }

  lemma {:induction false} EntriesAgree(v: Value, es: seq<Entry>)
    requires v.Map? && Agrees(v.entries, es)
    ensures EncEntries(v, Keys(es)) == EncList(es)
  {
    if es != [] {
      assert Keys(es)[1..] == Keys(es[1..]);
      EntriesAgree(v, es[1..]);
    }
  }

  lemma EncMap(m: map<Bytes, Value>, ks: seq<Bytes>)
    requires Ascending(ks) && Lists(ks, m)
    ensures Enc(Map(m)) == EncHead(5, |m|) + EncEntries(Map(m), ks)
  {
    hide KeyBelow, EncHead, EncText;
    SortKeysLists(m.Keys);
    AscendingIsSorted(SortKeys(m.Keys), ks);
  }

  lemma {:induction false} AscendingIsDistinct(ks: seq<Bytes>)
    requires Ascending(ks)
    ensures Distinct(ks)
  {
    hide KeyBelow;
    if ks != [] {
      FirstIsLeast(ks);
      KeyOrderIsIrreflexive(ks[0]);
      AscendingIsDistinct(ks[1..]);
    }
  }

  lemma EncCollected(es: seq<Entry>)
    requires Ascending(Keys(es))
    ensures Enc(Map(Collect(es))) == EncHead(5, |es|) + EncList(es)
  {
    hide *;
    AscendingIsDistinct(Keys(es));
    CollectLooksUp(es);
    EncMap(Collect(es), Keys(es));
    EntriesAgree(Map(Collect(es)), es);
  }

  // ── Recognised tags ──────────────────────────────────────────────────

  lemma EncItems2(a: Value, b: Value)
    ensures EncItems([a, b]) == Enc(a) + Enc(b)
  {
    assert [a, b][1..] == [b];
    assert EncItems([b]) == Enc(b) + EncItems([]);
  }

  lemma EncItems3(a: Value, b: Value, c: Value)
    ensures EncItems([a, b, c]) == Enc(a) + Enc(b) + Enc(c)
  {
    assert [a, b, c][1..] == [b, c];
    EncItems2(b, c);
  }

  /** Recognising a tag never changes the bytes a value is written as. */
  lemma TagKeepsBytes(tag: nat, inner: Value)
    ensures Enc(InterpretTag(tag, inner)) == EncHead(6, tag) + Enc(inner)
  {
    hide EncHead, ClaimRefFrom, EventFrom, BlobRefFrom, EncItems, EncClaimRef, EncEvent;
    if tag == TAG_CLAIM_REF && ClaimRefFrom(inner).Some? {
      ClaimRefBytes(inner);
    } else if tag == TAG_EMBED && EventFrom(inner).Some? {
      EventBytes(inner);
    } else if tag == TAG_BLOB_REF && BlobRefFrom(inner).Some? {
      BlobRefBytes(inner);
    }
  }

  lemma ClaimRefBytes(v: Value)
    requires ClaimRefFrom(v).Some?
    ensures Enc(ClaimRefFrom(v).value) == EncHead(6, TAG_CLAIM_REF) + Enc(v)
  {
    hide EncHead, EncItems;
    var a, b := v.items[0], v.items[1];
    assert v.items == [a, b];
    EncItems2(a, b);
    assert Enc(v) == EncHead(4, 2) + (Enc(a) + Enc(b));
  }

  lemma BlobRefBytes(v: Value)
    requires BlobRefFrom(v).Some?
    ensures Enc(BlobRefFrom(v).value) == EncHead(6, TAG_BLOB_REF) + Enc(v)
  {
    hide EncHead, EncItems;
    var a, b, c := v.items[0], v.items[1], v.items[2];
    assert v.items == [a, b, c];
    EncItems3(a, b, c);
    assert Enc(v) == EncHead(4, 3) + (Enc(a) + Enc(b) + Enc(c));
  }

  lemma EventBytes(v: Value)
    requires EventFrom(v).Some?
    ensures Enc(EventFrom(v).value) == EncHead(6, TAG_EMBED) + Enc(v)
  {
    hide EncHead, EncItems;
    var a, b, c := v.items[0], v.items[1], v.items[2];
    assert v.items == [a, b, c];
    EncItems3(a, b, c);
    assert Enc(v) == EncHead(4, 3) + (Enc(a) + Enc(b) + Enc(c));
  }

  // ── Accepted input is canonical ──────────────────────────────────────

  lemma TextIsRead(buf: Bytes, pos: nat, mid: nat, s: Bytes)
    requires At(buf, pos, EncHead(3, |s|)) && mid == pos + |EncHead(3, |s|)| && At(buf, mid, s)
    ensures At(buf, pos, EncText(s)) && buf[pos..mid + |s|] == EncText(s)
  {
    AtConcat(buf, pos, EncHead(3, |s|), s);
  }

  lemma KeyIsCanonical(buf: Bytes, pos: nat, prev: Option<Bytes>)
    requires pos <= |buf| && DecKey(buf, pos, prev).Ok?
    ensures var Ok(key, end) := DecKey(buf, pos, prev);
            && At(buf, pos, EncText(key)) && end == pos + |EncText(key)| && buf[pos..end] == EncText(key)
            && (prev.Some? ==> Below(prev.value, EncText(key)))
            && IsUtf8(key)
  {
    hide DecHead, EncHead, Below, IsUtf8;
    HeadIsMinimal(buf, pos);
    var Ok(key, end) := DecKey(buf, pos, prev);
    TextIsRead(buf, pos, pos + |EncHead(3, |key|)|, key);
  }

  lemma {:induction false} ItemsAreCanonical(buf: Bytes, pos: nat, n: nat, depth: nat)
    requires pos <= |buf| && DecItems(buf, pos, n, depth).Ok?
    ensures var Ok(items, end) := DecItems(buf, pos, n, depth);
            At(buf, pos, EncItems(items)) && end == pos + |EncItems(items)|
    decreases |buf| - pos, 1
  {
    if n != 0 {
      var Ok(items, end) := DecItems(buf, pos, n, depth);
      var Ok(v, next) := DecValue(buf, pos, depth);
      ValueIsCanonical(buf, pos, depth);
      ItemsAreCanonical(buf, next, n - 1, depth);
      assert items[1..] == DecItems(buf, next, n - 1, depth).item;
      AtConcat(buf, pos, Enc(v), EncItems(items[1..]));
    }
  }

  lemma {:induction false} EntriesAreCanonical(buf: Bytes, pos: nat, n: nat, prev: Option<Bytes>, depth: nat)
    requires pos <= |buf| && DecEntries(buf, pos, n, prev, depth).Ok?
    ensures var Ok(es, end) := DecEntries(buf, pos, n, prev, depth);
            && At(buf, pos, EncList(es)) && end == pos + |EncList(es)|
            && Ascending(Keys(es))
            && (prev.Some? && es != [] ==> Below(prev.value, EncText(es[0].key)))
    decreases |buf| - pos, 1
  {
    hide Below, EncText, DecKey, DecValue, Enc;
    if n != 0 {
      hide Ascending, Keys, At;
      var Ok(es, end) := DecEntries(buf, pos, n, prev, depth);
      var Ok(key, mid) := DecKey(buf, pos, prev);
      KeyIsCanonical(buf, pos, prev);
      var Ok(v, next) := DecValue(buf, mid, depth);
      ValueIsCanonical(buf, mid, depth);
      var Ok(rest, _) := DecEntries(buf, next, n - 1, Some(buf[pos..mid]), depth);
      EntriesAreCanonical(buf, next, n - 1, Some(buf[pos..mid]), depth);
      assert es == [Entry(key, v)] + rest && es[1..] == rest;
      assert rest != [] ==> KeyBelow(key, rest[0].key);
      AtConcat(buf, pos, EncText(key), Enc(v));
      AtConcat(buf, pos, EncText(key) + Enc(v), EncList(rest));
      AscendingCons(Entry(key, v), rest);
    }
  }

  lemma AscendingCons(e: Entry, rest: seq<Entry>)
    requires Ascending(Keys(rest)) && (rest != [] ==> KeyBelow(e.key, rest[0].key))
    ensures Ascending(Keys([e] + rest))
  {
    assert Keys([e] + rest) == [e.key] + Keys(rest);
  }

  lemma {:induction false} ValueIsCanonical(buf: Bytes, pos: nat, depth: nat)
    requires pos <= |buf| && DecValue(buf, pos, depth).Ok?
    ensures var Ok(v, end) := DecValue(buf, pos, depth);
            At(buf, pos, Enc(v)) && end == pos + |Enc(v)|
    decreases |buf| - pos, 0
  {
    hide DecHead, EncHead, DecItems, DecEntries, EncItems, EncEntries, EncList, SortKeys, Collect, InterpretTag,
         Keys, Ascending, Below, DecTake, At;
    var Ok(v, end) := DecValue(buf, pos, depth);
    var Ok(Head(major, arg), next) := DecHead(buf, pos);
    HeadIsMinimal(buf, pos);
    if major <= 1 {
    } else if major == 2 {
      TakenIsThere(buf, next, arg);
      AtConcat(buf, pos, EncHead(2, arg), v.bytes);
    } else if major == 3 {
      TakenIsThere(buf, next, arg);
      AtConcat(buf, pos, EncHead(3, arg), v.text);
    } else if major == 4 {
      ItemsAreCanonical(buf, next, arg, depth + 1);
      AtConcat(buf, pos, EncHead(4, arg), EncItems(v.items));
    } else if major == 5 {
      MapIsCanonical(buf, pos, next, arg, depth + 1);
    } else if major == 6 {
      var Ok(inner, _) := DecValue(buf, next, depth + 1);
      ValueIsCanonical(buf, next, depth + 1);
      TagKeepsBytes(arg, inner);
      AtConcat(buf, pos, EncHead(6, arg), Enc(inner));
    } else {
      SimpleBytes(arg);
    }
  }

  lemma {:induction false} MapIsCanonical(buf: Bytes, pos: nat, next: nat, n: nat, depth: nat)
    requires pos < next <= |buf| && At(buf, pos, EncHead(5, n)) && next == pos + |EncHead(5, n)|
    requires DecEntries(buf, next, n, None, depth).Ok?
    ensures var Ok(es, end) := DecEntries(buf, next, n, None, depth);
            var v := Map(Collect(es));
            At(buf, pos, Enc(v)) && end == pos + |Enc(v)|
    decreases |buf| - next, 2
  {
    hide DecEntries, EncHead, Enc, EncList, Collect;
    var es := DecEntries(buf, next, n, None, depth).item;
    EntriesAreCanonical(buf, next, n, None, depth);
    EncCollected(es);
    AtConcat(buf, pos, EncHead(5, n), EncList(es));
  }

  lemma TakenIsThere(buf: Bytes, pos: nat, n: nat)
    requires pos <= |buf| && DecTake(buf, pos, n).Ok?
    ensures At(buf, pos, DecTake(buf, pos, n).item)
  {
  }

  lemma SimpleBytes(arg: nat)
    requires 20 <= arg <= 22
    ensures EncHead(7, arg) == [0xe0 + arg]
  {
  }

  /** Whatever decodes is the encoding of what it decoded to. */
  lemma CanonicalBytes(buf: Bytes)
    requires FromBytes(buf).Ok?
    ensures Enc(FromBytes(buf).item) == buf
  {
    ValueIsCanonical(buf, 0, 0);
  }

  /** So a value has at most one accepted byte string. */
  lemma DecoderIsInjective(a: Bytes, b: Bytes)
    requires FromBytes(a).Ok? && FromBytes(b).Ok? && FromBytes(a).item == FromBytes(b).item
    ensures a == b
  {
    CanonicalBytes(a);
    CanonicalBytes(b);
  }
}
