/**
 The codec as the source runs it: an encoder that grows a buffer and a decoder
 that advances a position, against the encoding and decoding they compute.
 */
module CborCoder {
  import opened Bytes
  import opened Values
  import opened Cbor
  import opened Frames

  // ── Encoding ─────────────────────────────────────────────────────────

  lemma {:induction false} BigEndianSnoc(n: nat, k: nat)
    ensures ToBigEndian(n, k + 1) == ToBigEndian(n / 256, k) + [n % 256]
  {
  }

  /** The `k` low-order bytes, filled in from the last. */
  method BigEndian(n: nat, k: nat) returns (bytes: Bytes)
    ensures bytes == ToBigEndian(n, k)
  {
    bytes := [];
    var rest := n;
    for i := 0 to k
      invariant ToBigEndian(n, k) == ToBigEndian(rest, k - i) + bytes
    {
      BigEndianSnoc(rest, k - i - 1);
      bytes := [rest % 256] + bytes;
      rest := rest / 256;
    }
  }

  /** Put a key in its place among ascending ones. */
  method InsertKey(ks: seq<Bytes>, k: Bytes) returns (out: seq<Bytes>)
    requires Ascending(ks) && k !in ks
    ensures Ascending(out) && forall x :: x in out <==> x in ks || x == k
  {
    hide EncText, Ascending, Below;
    var i := 0;
    while i < |ks| && Below(EncText(ks[i]), EncText(k))
      invariant i <= |ks| && (i > 0 ==> KeyBelow(ks[i - 1], k))
    {
      i := i + 1;
    }
    if i < |ks| {
      assert ks[i] in ks;
      KeyOrderIsTotal(ks[i], k);
    }
    KeyInserted(ks, i, k);
    out := ks[..i] + [k] + ks[i..];
    assert ks == ks[..i] + ks[i..];
  }

  lemma AscendsCons(k: Bytes, ks: seq<Bytes>)
    ensures Ascending([k] + ks) <==> (ks != [] ==> KeyBelow(k, ks[0])) && Ascending(ks)
  {
    hide KeyBelow;
    assert ([k] + ks)[1..] == ks;
  }

  lemma {:induction false} KeyInserted(ks: seq<Bytes>, i: nat, k: Bytes)
    requires Ascending(ks) && i <= |ks|
    requires (i > 0 ==> KeyBelow(ks[i - 1], k)) && (i < |ks| ==> KeyBelow(k, ks[i]))
    ensures Ascending(ks[..i] + [k] + ks[i..])
  {
    hide KeyBelow, Ascending;
    if i == 0 {
      assert ks[..0] + [k] + ks[0..] == [k] + ks;
      AscendsCons(k, ks);
    } else {
      var tail := ks[1..];
      var rest := tail[..i - 1] + [k] + tail[i - 1..];
      assert ks == [ks[0]] + tail && ks[..i] + [k] + ks[i..] == [ks[0]] + rest;
      AscendsCons(ks[0], tail);
      KeyInserted(tail, i - 1, k);
      assert rest[0] == if i == 1 then k else tail[0];
      AscendsCons(ks[0], rest);
    }
  }

  /** Keys in the order of their encodings. */
  method Order(keys: set<Bytes>) returns (ks: seq<Bytes>)
    ensures ks == SortKeys(keys)
  {
    ks := [];
    var left := keys;
    while left != {}
      invariant left <= keys && Ascending(ks) && forall k :: k in ks <==> k in keys - left
      decreases left
    {
      var k :| k in left;
      ks := InsertKey(ks, k);
      left := left - {k};
    }
    SortKeysLists(keys);
    AscendingIsSorted(ks, SortKeys(keys));
  }

  class Encoder {
    var out: Bytes

    constructor ()
      ensures out == []
    {
      out := [];
    }

    method Push(bytes: Bytes)
      modifies this
      ensures out == old(out) + bytes
    {
      out := out + bytes;
    }

    static lemma HeadIs(major: Major, arg: nat)
      ensures var w := WidthOf(arg);
              EncHead(major, arg) == if w == 0 then [major * 32 + arg] else [major * 32 + Info(w)] + ToBigEndian(arg, w)
    {
    }

    /** A head with its argument in the fewest bytes. */
    method Head(major: Major, arg: nat)
      modifies this
      ensures out == old(out) + EncHead(major, arg)
    {
      hide EncHead, ToBigEndian;
      HeadIs(major, arg);
      if arg < 24 {
        Push([major * 32 + arg]);
      } else if arg <= 0xff {
        Wide(major * 32 + 24, arg, 1);
      } else if arg <= 0xffff {
        Wide(major * 32 + 25, arg, 2);
      } else if arg <= 0xffff_ffff {
        Wide(major * 32 + 26, arg, 4);
      } else {
        Wide(major * 32 + 27, arg, 8);
      }
    }

    method Wide(first: byte, arg: nat, k: nat)
      modifies this
      ensures out == old(out) + ([first] + ToBigEndian(arg, k))
    {
      var bytes := BigEndian(arg, k);
      Push([first] + bytes);
    }

    method EncodeInt(i: int)
      modifies this
      ensures out == old(out) + EncInt(i)
    {
      if i >= 0 {
        Head(0, i);
      } else {
        Head(1, -(i + 1));
      }
    }

    method EncodeBytes(b: Bytes)
      modifies this
      ensures out == old(out) + EncBytes(b)
    {
      Head(2, |b|);
      Push(b);
      assert out == old(out) + (EncHead(2, |b|) + b);
    }

    method EncodeText(s: Bytes)
      modifies this
      ensures out == old(out) + EncText(s)
    {
      Head(3, |s|);
      Push(s);
      assert out == old(out) + (EncHead(3, |s|) + s);
    }

    method EncodeClaimRef(log: Bytes, claim: Bytes)
      modifies this
      ensures out == old(out) + EncClaimRef(log, claim)
    {
      hide EncHead;
      Head(6, TAG_CLAIM_REF);
      Head(4, 2);
      Head(2, 32);
      Push(log);
      Head(2, 32);
      Push(claim);
      assert out == old(out) + EncClaimRef(log, claim);
    }

    method EncodeEvent(e: Event)
      modifies this
      ensures out == old(out) + EncEvent(e)
    {
      hide EncHead, EncBytes;
      Head(4, 3);
      EncodeBytes(e.header);
      EncodeBytes(e.tag);
      match e.body {
        case None => Push([0xf6]);
        case Some(b) => EncodeBytes(b);
      }
      assert out == old(out) + EncEvent(e);
    }

    method EncodeBlobRef(hash: Bytes, size: nat, mime: Bytes)
      modifies this
      ensures out == old(out) + Enc(BlobRef(hash, size, mime))
    {
      hide EncHead, EncText;
      Head(6, TAG_BLOB_REF);
      Head(4, 3);
      Head(2, 32);
      Push(hash);
      Head(0, size);
      EncodeText(mime);
      assert out == old(out) + Enc(BlobRef(hash, size, mime));
    }

    /** Append a value in canonical form. */
    method EncodeValue(v: Value)
      modifies this
      ensures out == old(out) + Enc(v)
      decreases v, 2
    {
      hide EncHead, EncBytes, EncText, EncInt, EncClaimRef, EncEvent, EncItems, EncEntries, SortKeys;
      match v {
        case Null => Push([0xf6]);
        case Bool(b) => Push(if b then [0xf5] else [0xf4]);
        case Int(i) => EncodeInt(i);
        case Bytes(b) => EncodeBytes(b);
        case Text(s) => EncodeText(s);
        case Array(items) => EncodeArray(v);
        case Map(m) => EncodeMap(v);
        case ClaimRef(log, claim) => EncodeClaimRef(log, claim);
        case Embed(e) => EncodeEmbed(e);
        case BlobRef(hash, size, mime) => EncodeBlobRef(hash, size, mime);
        case Tagged(tag, inner) =>
          Moved(out, EncHead(6, tag), Enc(inner));
          Head(6, tag);
          EncodeValue(inner);
      }
    }

    method EncodeEmbed(e: Event)
      modifies this
      ensures out == old(out) + Enc(Embed(e))
    {
      hide EncHead, EncEvent;
      Moved(out, EncHead(6, TAG_EMBED), EncEvent(e));
      Head(6, TAG_EMBED);
      EncodeEvent(e);
    }

    static lemma ItemsNext(items: seq<Value>, i: nat)
      requires i < |items|
      ensures EncItems(items[i..]) == Enc(items[i]) + EncItems(items[i + 1..])
    {
      assert items[i..][0] == items[i] && items[i..][1..] == items[i + 1..];
    }

    static lemma NoItems(items: seq<Value>)
      ensures EncItems(items[|items|..]) == []
    {
    }

    method EncodeArray(v: Value)
      requires v.Array?
      modifies this
      ensures out == old(out) + Enc(v)
      decreases v, 1
    {
      assert Enc(v) == EncHead(4, |v.items|) + EncItems(v.items);
      hide EncHead, Enc, EncItems;
      var items := v.items;
      Head(4, |items|);
      assert items[0..] == items;
      for i := 0 to |items|
        invariant out + EncItems(items[i..]) == old(out) + Enc(v)
      {
        ItemsNext(items, i);
        Moved(out, Enc(items[i]), EncItems(items[i + 1..]));
        EncodeValue(items[i]);
      }
      NoItems(items);
      assert out + [] == out;
    }

    /** What is written moves from what is left to what is out. */
    static lemma Moved(out: Bytes, next: Bytes, rest: Bytes)
      ensures out + (next + rest) == (out + next) + rest
    {
    }

    method EncodeEntry(v: Value, k: Bytes)
      requires v.Map? && k in v.entries
      modifies this
      ensures out == old(out) + (EncText(k) + Enc(v.entries[k]))
      decreases v, 0
    {
      hide EncText, Enc;
      EncodeText(k);
      EncodeValue(v.entries[k]);
    }

    static lemma EntriesNext(v: Value, ks: seq<Bytes>, i: nat)
      requires v.Map? && Within(ks, v.entries) && i < |ks|
      ensures Within(ks[i..], v.entries) && Within(ks[i + 1..], v.entries)
      ensures EncEntries(v, ks[i..]) == EncText(ks[i]) + Enc(v.entries[ks[i]]) + EncEntries(v, ks[i + 1..])
    {
      assert ks[i..][0] == ks[i] && ks[i..][1..] == ks[i + 1..];
    }

    static lemma NoEntries(v: Value, ks: seq<Bytes>)
      requires v.Map?
      ensures Within(ks[|ks|..], v.entries) && EncEntries(v, ks[|ks|..]) == []
    {
    }

    static lemma SortedWithin(m: map<Bytes, Value>)
      ensures Within(SortKeys(m.Keys), m)
    {
      SortKeysLists(m.Keys);
      assert forall i | 0 <= i < |SortKeys(m.Keys)| :: SortKeys(m.Keys)[i] in SortKeys(m.Keys);
    }

    /** Entries under their keys, sorted by the keys' encodings. */
    method EncodeMap(v: Value)
      requires v.Map?
      modifies this
      ensures out == old(out) + Enc(v)
      decreases v, 1
    {
      var m := v.entries;
      SortedWithin(m);
      assert Enc(v) == EncHead(5, |m|) + EncEntries(v, SortKeys(m.Keys));
      hide EncHead, Enc, EncEntries, EncText, SortKeys, Within;
      Head(5, |m|);
      var ks := Order(m.Keys);
      assert ks[0..] == ks;
      for i := 0 to |ks|
        invariant Within(ks[i..], m) && out + EncEntries(v, ks[i..]) == old(out) + Enc(v)
      {
        EntriesNext(v, ks, i);
        KeyIsThere(ks, m, i);
        Moved(out, EncText(ks[i]) + Enc(m[ks[i]]), EncEntries(v, ks[i + 1..]));
        EncodeEntry(v, ks[i]);
      }
      NoEntries(v, ks);
      assert out + [] == out;
    }

    static lemma KeyIsThere(ks: seq<Bytes>, m: map<Bytes, Value>, i: nat)
      requires Within(ks, m) && i < |ks|
      ensures ks[i] in m
    {
    }

    /** The exact bytes that are authenticated and hashed. */
    method EncodeHeader(h: Header)
      requires |h.log| == 32 && |h.bodyHash| == 32
      modifies this
      ensures out == old(out) + EncHeader(h)
    {
      hide EncHead;
      Head(4, 3);
      Head(0, h.version);
      Head(2, 32);
      Push(h.log);
      Head(2, 32);
      Push(h.bodyHash);
      assert out == old(out) + EncHeader(h);
    }
  }

  /** A value in a buffer of its own. */
  method ToBytes(v: Value) returns (bytes: Bytes)
    ensures bytes == Enc(v)
  {
    var e := new Encoder();
    e.EncodeValue(v);
    bytes := e.out;
  }

  // ── Decoding ─────────────────────────────────────────────────────────

  /** What items read so far and the rest of a reading make together. */
  function Prepend<T>(done: seq<T>, r: Parsed<seq<T>>): Parsed<seq<T>> {
    match r case Err(at, reason) => Err(at, reason) case Ok(rest, end) => Ok(done + rest, end)
  }

  lemma PrependNothing<T>(r: Parsed<seq<T>>)
    ensures Prepend([], r) == r
  {
    if r.Ok? {
      assert [] + r.item == r.item;
    }
  }

  lemma PrependMore<T>(done: seq<T>, x: T, r: Parsed<seq<T>>)
    ensures Prepend(done, Prepend([x], r)) == Prepend(done + [x], r)
  {
    if r.Ok? {
      assert done + ([x] + r.item) == (done + [x]) + r.item;
    }
  }

  lemma ItemNext(buf: Bytes, pos: nat, n: nat, depth: nat)
    requires pos <= |buf| && n > 0
    ensures var r := DecValue(buf, pos, depth);
            DecItems(buf, pos, n, depth) ==
              if r.Ok? then Prepend([r.item], DecItems(buf, r.pos, n - 1, depth)) else Err(r.offset, r.reason)
  {
    hide DecValue;
  }

  lemma EntryNext(buf: Bytes, pos: nat, n: nat, prev: Option<Bytes>, depth: nat)
    requires pos <= |buf| && n > 0
    ensures var k := DecKey(buf, pos, prev);
            DecEntries(buf, pos, n, prev, depth) ==
              if k.Err? then Err(k.offset, k.reason)
              else
                var r := DecValue(buf, k.pos, depth);
                if r.Err? then Err(r.offset, r.reason)
                else Prepend([Entry(k.item, r.item)], DecEntries(buf, r.pos, n - 1, Some(buf[pos..k.pos]), depth))
  {
    hide DecValue, DecKey;
  }

  lemma CollectSnoc(entries: seq<Entry>, e: Entry)
    ensures Collect(entries + [e]) == Collect(entries)[e.key := e.value]
  {
    assert (entries + [e])[..|entries|] == entries;
  }

  class Decoder {
    const buf: Bytes
    var pos: nat

    predicate Valid()
      reads this
    {
      pos <= |buf|
    }

    constructor (buf: Bytes)
      ensures Valid() && this.buf == buf && pos == 0
    {
      this.buf, pos := buf, 0;
    }

    method Byte() returns (r: Parsed<byte>)
      requires Valid()
      modifies this
      ensures Valid() && pos >= old(pos) && r == DecByte(buf, old(pos)) && (r.Ok? ==> pos == r.pos)
    {
      if pos >= |buf| {
        return Err(pos, UnexpectedEnd);
      }
      r := Ok(buf[pos], pos + 1);
      pos := pos + 1;
    }

    method Take(n: nat) returns (r: Parsed<Bytes>)
      requires Valid()
      modifies this
      ensures Valid() && pos >= old(pos) && r == DecTake(buf, old(pos), n) && (r.Ok? ==> pos == r.pos)
    {
      if pos + n >= 0x1_0000_0000_0000_0000 {
        return Err(pos, LengthOverflows);
      }
      var end := pos + n;
      if end > |buf| {
        return Err(pos, LengthExceedsInput);
      }
      r := Ok(buf[pos..end], end);
      pos := end;
    }

    /** The rest of a head whose argument takes two, four or eight bytes; it must need them. */
    method Wide(major: Major, w: nat) returns (r: Parsed<Head>)
      requires Valid() && (w == 2 || w == 4 || w == 8)
      modifies this
      ensures Valid() && pos >= old(pos) && r == DecWide(buf, old(pos), major, w) && (r.Ok? ==> pos == r.pos)
    {
      var raw := Take(w);
      if raw.Err? {
        return Err(raw.offset, raw.reason);
      }
      var arg := FromBigEndian(raw.item);
      r := if arg < Floor(w) then Err(pos, NonMinimal) else Ok(Cbor.Head(major, arg), pos);
    }

    /** Read a head; its argument must be in the fewest bytes. */
    method Head() returns (r: Parsed<Head>)
      requires Valid()
      modifies this
      ensures Valid() && pos >= old(pos) && r == DecHead(buf, old(pos)) && (r.Ok? ==> pos == r.pos)
    {
      hide FromBigEndian;
      var first := Byte();
      if first.Err? {
        return Err(first.offset, first.reason);
      }
      var major, info := first.item / 32, first.item % 32;
      if major == 7 && info >= 24 {
        return Err(pos, ExtendedSimple);
      }
      if info < 24 {
        r := Ok(Cbor.Head(major, info), pos);
      } else if info == 24 {
        var arg := Byte();
        if arg.Err? {
          return Err(arg.offset, arg.reason);
        }
        r := if arg.item < 24 then Err(pos, NonMinimal) else Ok(Cbor.Head(major, arg.item), pos);
      } else if info == 25 {
        r := Wide(major, 2);
      } else if info == 26 {
        r := Wide(major, 4);
      } else if info == 27 {
        r := Wide(major, 8);
      } else {
        r := Err(pos, Reserved);
      }
    }

    method Expect(major: Major, reason: Reason) returns (r: Parsed<nat>)
      requires Valid()
      modifies this
      ensures Valid() && pos >= old(pos) && r == DecExpect(buf, old(pos), major, reason) && (r.Ok? ==> pos == r.pos)
    {
      hide DecHead;
      var h := Head();
      if h.Err? {
        return Err(h.offset, h.reason);
      }
      r := if h.item.major != major then Err(pos, reason) else Ok(h.item.arg, pos);
    }

    /** One map key, strictly above the one before it. */
    method Key(prev: Option<Bytes>) returns (r: Parsed<Bytes>)
      requires Valid()
      modifies this
      ensures Valid() && pos >= old(pos) && r == DecKey(buf, old(pos), prev) && (r.Ok? ==> pos == r.pos)
    {
      hide DecExpect, Below, IsUtf8;
      var start := pos;
      var len := Expect(3, KeyNotText);
      if len.Err? {
        return Err(len.offset, len.reason);
      }
      var raw := Take(len.item);
      if raw.Err? {
        return Err(raw.offset, raw.reason);
      }
      if prev.Some? && !Below(prev.value, buf[start..pos]) {
        pos := start;
        return Err(start, KeyOrder);
      }
      r := if !IsUtf8(raw.item) then Err(pos, InvalidKey) else Ok(raw.item, pos);
    }

    method Items(n: nat, depth: nat) returns (r: Parsed<seq<Value>>)
      requires Valid()
      modifies this
      ensures Valid() && pos >= old(pos) && r == DecItems(buf, old(pos), n, depth) && (r.Ok? ==> pos == r.pos)
      decreases |buf| - pos, 1
    {
      hide DecValue, DecItems;
      ghost var start := pos;
      var items := [];
      PrependNothing(DecItems(buf, start, n, depth));
      for i := 0 to n
        invariant Valid() && pos >= start
        invariant DecItems(buf, start, n, depth) == Prepend(items, DecItems(buf, pos, n - i, depth))
      {
        ItemNext(buf, pos, n - i, depth);
        ghost var before := pos;
        var v := this.Value(depth);
        if v.Err? {
          return Err(v.offset, v.reason);
        }
        PrependMore(items, v.item, DecItems(buf, pos, n - i - 1, depth));
        items := items + [v.item];
      }
      r := Ok(items, pos);
      NoMoreItems(buf, pos, depth);
      assert items + [] == items;
    }

    static lemma NoMoreItems(buf: Bytes, pos: nat, depth: nat)
      requires pos <= |buf|
      ensures DecItems(buf, pos, 0, depth) == Ok([], pos)
    {
    }

    static lemma NoMoreEntries(buf: Bytes, pos: nat, prev: Option<Bytes>, depth: nat)
      requires pos <= |buf|
      ensures DecEntries(buf, pos, 0, prev, depth) == Ok([], pos)
    {
    }

    /** Entries inserted one by one, their keys ascending. */
    method Entries(n: nat, depth: nat) returns (r: Parsed<map<Bytes, Value>>)
      requires Valid()
      modifies this
      ensures Valid() && pos >= old(pos) && (r.Ok? ==> pos == r.pos)
      ensures var es := DecEntries(buf, old(pos), n, None, depth);
              r == if es.Ok? then Ok(Collect(es.item), es.pos) else Err(es.offset, es.reason)
      decreases |buf| - pos, 1
    {
      hide DecValue, DecEntries, DecKey, Collect;
      ghost var start := pos;
      ghost var done: seq<Entry> := [];
      var entries: map<Bytes, Value> := map[];
      var prev: Option<Bytes> := None;
      PrependNothing(DecEntries(buf, start, n, None, depth));
      NothingCollected();
      for i := 0 to n
        invariant Valid() && pos >= start && entries == Collect(done)
        invariant DecEntries(buf, start, n, None, depth) == Prepend(done, DecEntries(buf, pos, n - i, prev, depth))
      {
        EntryNext(buf, pos, n - i, prev, depth);
        var at := pos;
        var k := Key(prev);
        if k.Err? {
          return Err(k.offset, k.reason);
        }
        KeyAdvances(buf, at, prev);
        prev := Some(buf[at..pos]);
        var v := this.Value(depth);
        if v.Err? {
          return Err(v.offset, v.reason);
        }
        PrependMore(done, Entry(k.item, v.item), DecEntries(buf, pos, n - i - 1, prev, depth));
        CollectSnoc(done, Entry(k.item, v.item));
        done := done + [Entry(k.item, v.item)];
        entries := entries[k.item := v.item];
      }
      NoMoreEntries(buf, pos, prev, depth);
      assert done + [] == done;
      r := Ok(entries, pos);
    }

    static lemma NothingCollected()
      ensures Collect([]) == map[]
    {
    }

    static lemma KeyAdvances(buf: Bytes, pos: nat, prev: Option<Bytes>)
      requires pos <= |buf| && DecKey(buf, pos, prev).Ok?
      ensures pos < DecKey(buf, pos, prev).pos <= |buf|
    {
    }

    /** One value, nested no deeper than the limit. */
    method Value(depth: nat) returns (r: Parsed<Value>)
      requires Valid()
      modifies this
      ensures Valid() && pos >= old(pos) && r == DecValue(buf, old(pos), depth) && (r.Ok? ==> pos == r.pos)
      decreases |buf| - pos, 0
    {
      hide DecHead, DecItems, DecEntries, IsUtf8, InterpretTag, Collect;
      if depth > MAX_DEPTH {
        return Err(pos, TooDeep);
      }
      var h := Head();
      if h.Err? {
        return Err(h.offset, h.reason);
      }
      var major, arg := h.item.major, h.item.arg;
      if major == 0 {
        r := if arg > I64_MAX then Err(pos, OutOfRange) else Ok(Int(arg), pos);
      } else if major == 1 {
        r := if arg > I64_MAX then Err(pos, OutOfRange) else Ok(Int(-1 - arg), pos);
      } else if major == 2 {
        var raw := Take(arg);
        r := if raw.Err? then Err(raw.offset, raw.reason) else Ok(Values.Value.Bytes(raw.item), pos);
      } else if major == 3 {
        var raw := Take(arg);
        r := if raw.Err? then Err(raw.offset, raw.reason)
             else if IsUtf8(raw.item) then Ok(Text(raw.item), pos) else Err(pos, InvalidText);
      } else if major == 4 {
        var items := Items(arg, depth + 1);
        r := if items.Err? then Err(items.offset, items.reason) else Ok(Array(items.item), pos);
      } else if major == 5 {
        var entries := Entries(arg, depth + 1);
        r := if entries.Err? then Err(entries.offset, entries.reason) else Ok(Map(entries.item), pos);
      } else if major == 6 {
        var inner := this.Value(depth + 1);
        r := if inner.Err? then Err(inner.offset, inner.reason) else Ok(InterpretTag(arg, inner.item), pos);
      } else if arg == 20 {
        r := Ok(Bool(false), pos);
      } else if arg == 21 {
        r := Ok(Bool(true), pos);
      } else if arg == 22 {
        r := Ok(Null, pos);
      } else {
        r := Err(pos, UnsupportedSimple);
      }
    }

    // ── Headers and frames ─────────────────────────────────────────────

    method Blob() returns (r: Parsed<Bytes>)
      requires Valid()
      modifies this
      ensures Valid() && pos >= old(pos) && r == DecBlob(buf, old(pos)) && (r.Ok? ==> pos == r.pos)
    {
      hide DecExpect;
      var len := Expect(2, BadEvent);
      if len.Err? {
        return Err(len.offset, len.reason);
      }
      r := Take(len.item);
    }

    method Bytes32(reason: Reason) returns (r: Parsed<Bytes>)
      requires Valid()
      modifies this
      ensures Valid() && pos >= old(pos) && r == DecBytes32(buf, old(pos), reason) && (r.Ok? ==> pos == r.pos)
    {
      hide DecExpect;
      var len := Expect(2, reason);
      if len.Err? {
        return Err(len.offset, len.reason);
      }
      if len.item != 32 {
        return Err(pos, reason);
      }
      r := Take(32);
    }

    /** A body, or null for a tombstone. */
    method Body() returns (r: Parsed<Option<Bytes>>)
      requires Valid()
      modifies this
      ensures Valid() && pos >= old(pos) && r == DecBody(buf, old(pos)) && (r.Ok? ==> pos == r.pos)
    {
      hide DecBlob;
      if pos < |buf| && buf[pos] == 0xf6 {
        pos := pos + 1;
        return Ok(None, pos);
      }
      var b := Blob();
      r := if b.Err? then Err(b.offset, b.reason) else Ok(Some(b.item), pos);
    }
  }

  /** Exactly one canonical value. */
  method ParseValue(buf: Bytes) returns (r: Parsed<Value>)
    ensures r == FromBytes(buf)
  {
    hide DecValue;
    var d := new Decoder(buf);
    r := d.Value(0);
    if r.Ok? && d.pos != |buf| {
      r := Err(d.pos, TrailingBytes);
    }
  }

  /** Exactly one header of our version. */
  method ParseHeader(buf: Bytes) returns (r: Parsed<Header>)
    ensures r == DecHeader(buf)
  {
    hide DecExpect, DecBytes32;
    var d := new Decoder(buf);
    var n := d.Expect(4, BadHeader);
    if n.Err? {
      return Err(n.offset, n.reason);
    }
    if n.item != 3 {
      return Err(0, BadHeader);
    }
    var version := d.Expect(0, BadHeader);
    if version.Err? {
      return Err(version.offset, version.reason);
    }
    if version.item != WIRE_VERSION {
      return Err(d.pos, BadVersion(version.item));
    }
    var log := d.Bytes32(BadHeader);
    if log.Err? {
      return Err(log.offset, log.reason);
    }
    var hash := d.Bytes32(BadHeader);
    if hash.Err? {
      return Err(hash.offset, hash.reason);
    }
    r := if d.pos != |buf| then Err(d.pos, TrailingBytes) else Ok(Header(WIRE_VERSION, log.item, hash.item), d.pos);
  }

  /** One frame from the front of a sequence, and the bytes it took. */
  method ParseFrame(buf: Bytes) returns (r: Parsed<Event>)
    ensures r == DecodePrefix(buf)
  {
    hide DecExpect, DecBlob, DecBody, DecTake;
    var d := new Decoder(buf);
    var n := d.Expect(4, BadEvent);
    if n.Err? {
      return Err(n.offset, n.reason);
    }
    if n.item != 3 {
      return Err(0, BadEvent);
    }
    var header := d.Blob();
    if header.Err? {
      return Err(header.offset, header.reason);
    }
    var len := d.Expect(2, BadEvent);
    if len.Err? {
      return Err(len.offset, len.reason);
    }
    if len.item != 32 {
      return Err(0, BadEvent);
    }
    var tag := d.Take(32);
    if tag.Err? {
      return Err(tag.offset, tag.reason);
    }
    var body := d.Body();
    r := if body.Err? then Err(body.offset, body.reason) else Ok(Event(header.item, tag.item, body.item), d.pos);
  }

  /** Exactly one frame. */
  method ParseEvent(buf: Bytes) returns (r: Parsed<Event>)
    ensures r == DecodeEvent(buf)
  {
    hide DecodePrefix;
    r := ParseFrame(buf);
    if r.Ok? && r.pos != |buf| {
      r := Err(r.pos, TrailingBytes);
    }
  }
}
