/**
 Deterministic CBOR: section 4.2.1 of RFC 8949.

 `Enc` says which bytes a value is written as and `DecValue` which value, if
 any, a position of a buffer holds. The encoder and the decoder of the source
 change a buffer and a position step by step; they are in CborCoder and are
 proved against these two functions.
 */
module Cbor {
  import opened Bytes
  import opened Values

  const MAX_DEPTH := 128

  // ── Encoding ─────────────────────────────────────────────────────────

  function WidthOf(arg: nat): (w: nat)
    ensures w == 0 || w == 1 || w == 2 || w == 4 || w == 8
  {
    if arg < 24 then 0 else if arg <= 0xff then 1 else if arg <= 0xffff then 2
    else if arg <= 0xffff_ffff then 4 else 8
  }

  /** The low five bits of a head whose argument takes `w` more bytes. */
  function Info(w: nat): byte
    requires w == 1 || w == 2 || w == 4 || w == 8
  {
    if w == 1 then 24 else if w == 2 then 25 else if w == 4 then 26 else 27
  }

  type Major = m: nat | m < 8

  function EncHead(major: Major, arg: nat): (r: Bytes)
    ensures |r| == 1 + WidthOf(arg)
  {
    var w := WidthOf(arg);
    if w == 0 then [major * 32 + arg] else [major * 32 + Info(w)] + ToBigEndian(arg, w)
  }

  function EncInt(i: int): Bytes {
    if i >= 0 then EncHead(0, i) else EncHead(1, -(i + 1))
  }

  function EncBytes(b: Bytes): Bytes { EncHead(2, |b|) + b }

  function EncText(s: Bytes): Bytes { EncHead(3, |s|) + s }

  function EncClaimRef(log: Bytes, claim: Bytes): Bytes {
    EncHead(6, TAG_CLAIM_REF) + EncHead(4, 2) + EncHead(2, 32) + log + EncHead(2, 32) + claim
  }

  function EncBody(body: Option<Bytes>): Bytes {
    match body case None => [0xf6] case Some(b) => EncBytes(b)
  }

  function EncEvent(e: Event): Bytes {
    EncHead(4, 3) + EncBytes(e.header) + EncBytes(e.tag) + EncBody(e.body)
  }

  ghost function Enc(v: Value): Bytes
    decreases v
  {
    match v
    case Null => [0xf6]
    case Bool(b) => if b then [0xf5] else [0xf4]
    case Int(i) => EncInt(i)
    case Bytes(b) => EncBytes(b)
    case Text(s) => EncText(s)
    case Array(items) => EncHead(4, |items|) + EncItems(items)
    case Map(m) =>
      SortKeysLists(m.Keys);
      EncHead(5, |m|) + EncEntries(v, SortKeys(m.Keys))
    case ClaimRef(log, claim) => EncClaimRef(log, claim)
    case Embed(e) => EncHead(6, TAG_EMBED) + EncEvent(e)
    case BlobRef(hash, size, mime) =>
      EncHead(6, TAG_BLOB_REF) + EncHead(4, 3) + EncHead(2, 32) + hash + EncHead(0, size) + EncText(mime)
    case Tagged(tag, inner) => EncHead(6, tag) + Enc(inner)
  }

  ghost function EncItems(items: seq<Value>): Bytes
    decreases items
  {
    if items == [] then [] else Enc(items[0]) + EncItems(items[1..])
  }

  predicate Within(ks: seq<Bytes>, m: map<Bytes, Value>) {
    forall i | 0 <= i < |ks| :: ks[i] in m
  }

  /** The entries of a map value under the keys `ks`, in that order. */
  ghost function EncEntries(v: Value, ks: seq<Bytes>): Bytes
    requires v.Map? && Within(ks, v.entries)
    decreases v, |ks|
  {
    if ks == [] then [] else EncText(ks[0]) + Enc(v.entries[ks[0]]) + EncEntries(v, ks[1..])
  }

  // ── Canonical key order ──────────────────────────────────────────────

  /** Keys compare by their encodings, so shorter keys come first. */
  predicate KeyBelow(a: Bytes, b: Bytes) { Below(EncText(a), EncText(b)) }

  predicate Ascending(ks: seq<Bytes>) {
    |ks| <= 1 || (KeyBelow(ks[0], ks[1]) && Ascending(ks[1..]))
  }

  lemma {:induction false} FirstIsLeast(ks: seq<Bytes>)
    requires Ascending(ks) && ks != []
    ensures forall k | k in ks[1..] :: KeyBelow(ks[0], k)
  {
    hide KeyBelow;
    if |ks| > 1 {
      FirstIsLeast(ks[1..]);
      forall k | k in ks[1..]
        ensures KeyBelow(ks[0], k)
      {
        if k != ks[1] {
          assert ks[1..] == [ks[1]] + ks[1..][1..];
          KeyOrderIsTransitive(ks[0], ks[1], k);
        }
      }
    }
  }

  lemma EncTextInjective(a: Bytes, b: Bytes)
    requires EncText(a) == EncText(b)
    ensures a == b
  {
    var ha, hb := EncHead(3, |a|), EncHead(3, |b|);
    assert ha[0] == EncText(a)[0] == EncText(b)[0] == hb[0];
    assert |ha| == |hb|;
    assert a == EncText(a)[|ha|..] && b == EncText(b)[|hb|..];
  }

  lemma KeyOrderIsTotal(a: Bytes, b: Bytes)
    ensures a == b || KeyBelow(a, b) || KeyBelow(b, a)
  {
    BelowIsTotal(EncText(a), EncText(b));
    if EncText(a) == EncText(b) {
      EncTextInjective(a, b);
    }
  }

  lemma KeyOrderIsTransitive(a: Bytes, b: Bytes, c: Bytes)
    requires KeyBelow(a, b) && KeyBelow(b, c)
    ensures KeyBelow(a, c)
  {
    BelowIsTransitive(EncText(a), EncText(b), EncText(c));
  }

  lemma KeyOrderIsIrreflexive(a: Bytes)
    ensures !KeyBelow(a, a)
  {
    BelowIsIrreflexive(EncText(a));
  }

  ghost predicate IsLeast(k: Bytes, ks: set<Bytes>) {
    k in ks && forall k' | k' in ks :: k' == k || KeyBelow(k, k')
  }

  lemma {:induction false} LeastKeyExists(ks: set<Bytes>)
    requires ks != {}
    ensures exists k :: IsLeast(k, ks)
  {
    var k :| k in ks;
    var rest := ks - {k};
    if rest == {} {
      assert ks == {k};
      assert IsLeast(k, ks);
    } else {
      LeastKeyExists(rest);
      var m :| IsLeast(m, rest);
      KeyOrderIsTotal(k, m);
      if KeyBelow(k, m) {
        forall k' | k' in ks
          ensures k' == k || KeyBelow(k, k')
        {
          if k' != k && k' != m {
            assert k' in rest;
            KeyOrderIsTransitive(k, m, k');
          }
        }
        assert IsLeast(k, ks);
      } else {
        assert forall k' | k' in ks :: k' == k || k' in rest;
        assert IsLeast(m, ks);
      }
    }
  }

  /** What sorting the keys of a map by their encodings yields. */
  ghost function SortKeys(ks: set<Bytes>): seq<Bytes> {
    if ks == {} then []
    else
      LeastKeyExists(ks);
      var k :| IsLeast(k, ks);
      [k] + SortKeys(ks - {k})
  }

  lemma {:induction false} SortKeysLists(ks: set<Bytes>)
    ensures |SortKeys(ks)| == |ks| && (forall k :: k in SortKeys(ks) <==> k in ks)
    ensures Ascending(SortKeys(ks))
  {
    hide KeyBelow;
    if ks != {} {
      var sorted := SortKeys(ks);
      LeastKeyExists(ks);
      var least, rest := sorted[0], sorted[1..];
      assert IsLeast(least, ks) && rest == SortKeys(ks - {least});
      SortKeysLists(ks - {least});
      assert sorted == [least] + rest;
      if rest != [] {
        assert rest[0] in rest;
      }
    }
  }

  /** An ascending listing of a set of keys is the sorted one. */
  lemma {:induction false} AscendingIsSorted(a: seq<Bytes>, b: seq<Bytes>)
    requires Ascending(a) && Ascending(b) && forall k :: k in a <==> k in b
    ensures a == b
  {
    hide KeyBelow;
    if a != [] { assert a[0] in b; }
    if b != [] { assert b[0] in a; }
    if a != [] {
      FirstIsLeast(a);
      FirstIsLeast(b);
      assert a == [a[0]] + a[1..] && b == [b[0]] + b[1..];
      if a[0] != b[0] {
        KeyOrderIsTransitive(a[0], b[0], a[0]);
        KeyOrderIsIrreflexive(a[0]);
      }
      KeyOrderIsIrreflexive(a[0]);
      assert a[0] !in a[1..] && a[0] !in b[1..];
      forall k
        ensures k in a[1..] <==> k in b[1..]
      {
        assert k in a <==> k == a[0] || k in a[1..];
        assert k in b <==> k == b[0] || k in b[1..];
      }
      AscendingIsSorted(a[1..], b[1..]);
    }
  }

  // ── Decoding ─────────────────────────────────────────────────────────

  datatype Reason =
    | UnexpectedEnd | LengthOverflows | LengthExceedsInput | ExtendedSimple | NonMinimal
    | Reserved | TooDeep | OutOfRange | InvalidText | InvalidKey | KeyNotText | KeyOrder
    | UnsupportedSimple | TrailingBytes | BadEvent | BadHeader | BadVersion(claimed: nat)

  /** An item and the position after it, or the offset and reason of a rejection. */
  datatype Parsed<+T> = Ok(item: T, pos: nat) | Err(offset: nat, reason: Reason)

  datatype Head = Head(major: Major, arg: nat)

  function DecTake(buf: Bytes, pos: nat, n: nat): (r: Parsed<Bytes>)
    requires pos <= |buf|
    ensures r.Ok? ==> r.pos == pos + n <= |buf| && r.item == buf[pos..pos + n]
  {
    if pos + n >= 0x1_0000_0000_0000_0000 then Err(pos, LengthOverflows)
    else if pos + n > |buf| then Err(pos, LengthExceedsInput)
    else Ok(buf[pos..pos + n], pos + n)
  }

  function DecByte(buf: Bytes, pos: nat): Parsed<byte> {
    if pos < |buf| then Ok(buf[pos], pos + 1) else Err(pos, UnexpectedEnd)
  }

  /** The smallest argument that needs `w` bytes. */
  function Floor(w: nat): nat {
    if w == 1 then 24 else if w == 2 then 0x100 else if w == 4 then 0x1_0000 else 0x1_0000_0000
  }

  function DecWide(buf: Bytes, pos: nat, major: Major, w: nat): (r: Parsed<Head>)
    requires pos <= |buf| && (w == 2 || w == 4 || w == 8)
    ensures r.Ok? ==> pos < r.pos <= |buf|
  {
    match DecTake(buf, pos, w)
    case Err(at, reason) => Err(at, reason)
    case Ok(raw, next) =>
      if FromBigEndian(raw) < Floor(w) then Err(next, NonMinimal) else Ok(Head(major, FromBigEndian(raw)), next)
  }

  function DecHead(buf: Bytes, pos: nat): (r: Parsed<Head>)
    requires pos <= |buf|
    ensures r.Ok? ==> pos < r.pos <= |buf|
  {
    if pos == |buf| then Err(pos, UnexpectedEnd)
    else
      var major, info := buf[pos] / 32, buf[pos] % 32;
      if major == 7 && info >= 24 then Err(pos + 1, ExtendedSimple)
      else if info < 24 then Ok(Head(major, info), pos + 1)
      else if info == 24 then
        match DecByte(buf, pos + 1)
        case Err(at, reason) => Err(at, reason)
        case Ok(arg, next) => if arg < 24 then Err(next, NonMinimal) else Ok(Head(major, arg), next)
      else if info == 25 then DecWide(buf, pos + 1, major, 2)
      else if info == 26 then DecWide(buf, pos + 1, major, 4)
      else if info == 27 then DecWide(buf, pos + 1, major, 8)
      else Err(pos + 1, Reserved)
  }

  function DecExpect(buf: Bytes, pos: nat, major: Major, reason: Reason): (r: Parsed<nat>)
    requires pos <= |buf|
    ensures r.Ok? ==> pos < r.pos <= |buf|
  {
    match DecHead(buf, pos)
    case Err(at, why) => Err(at, why)
    case Ok(h, next) => if h.major != major then Err(next, reason) else Ok(h.arg, next)
  }

  datatype Entry = Entry(key: Bytes, value: Value)

  function DecValue(buf: Bytes, pos: nat, depth: nat): (r: Parsed<Value>)
    requires pos <= |buf|
    ensures r.Ok? ==> pos < r.pos <= |buf|
    decreases |buf| - pos, 0
  {
    if depth > MAX_DEPTH then Err(pos, TooDeep)
    else
      match DecHead(buf, pos)
      case Err(at, reason) => Err(at, reason)
      case Ok(Head(major, arg), next) =>
        if major == 0 then
          if arg > I64_MAX then Err(next, OutOfRange) else Ok(Int(arg), next)
        else if major == 1 then
          if arg > I64_MAX then Err(next, OutOfRange) else Ok(Int(-1 - arg), next)
        else if major == 2 then
          match DecTake(buf, next, arg)
          case Err(at, reason) => Err(at, reason)
          case Ok(raw, end) => Ok(Value.Bytes(raw), end)
        else if major == 3 then
          match DecTake(buf, next, arg)
          case Err(at, reason) => Err(at, reason)
          case Ok(raw, end) => if IsUtf8(raw) then Ok(Text(raw), end) else Err(end, InvalidText)
        else if major == 4 then
          match DecItems(buf, next, arg, depth + 1)
          case Err(at, reason) => Err(at, reason)
          case Ok(items, end) => Ok(Array(items), end)
        else if major == 5 then
          match DecEntries(buf, next, arg, None, depth + 1)
          case Err(at, reason) => Err(at, reason)
          case Ok(entries, end) => Ok(Map(Collect(entries)), end)
        else if major == 6 then
          match DecValue(buf, next, depth + 1)
          case Err(at, reason) => Err(at, reason)
          case Ok(inner, end) => Ok(InterpretTag(arg, inner), end)
        else if arg == 20 then Ok(Bool(false), next)
        else if arg == 21 then Ok(Bool(true), next)
        else if arg == 22 then Ok(Null, next)
        else Err(next, UnsupportedSimple)
  }

  function DecItems(buf: Bytes, pos: nat, n: nat, depth: nat): (r: Parsed<seq<Value>>)
    requires pos <= |buf|
    ensures r.Ok? ==> pos <= r.pos <= |buf| && |r.item| == n
    decreases |buf| - pos, 1
  {
    if n == 0 then Ok([], pos)
    else
      match DecValue(buf, pos, depth)
      case Err(at, reason) => Err(at, reason)
      case Ok(v, next) =>
        match DecItems(buf, next, n - 1, depth)
        case Err(at, reason) => Err(at, reason)
        case Ok(rest, end) => Ok([v] + rest, end)
  }

  /** One key: text, strictly above the previous key's encoding, valid UTF-8. */
  function DecKey(buf: Bytes, pos: nat, prev: Option<Bytes>): (r: Parsed<Bytes>)
    requires pos <= |buf|
    ensures r.Ok? ==> pos < r.pos <= |buf|
  {
    match DecExpect(buf, pos, 3, KeyNotText)
    case Err(at, reason) => Err(at, reason)
    case Ok(len, next) =>
      match DecTake(buf, next, len)
      case Err(at, reason) => Err(at, reason)
      case Ok(raw, end) =>
        if prev.Some? && !Below(prev.value, buf[pos..end]) then Err(pos, KeyOrder)
        else if !IsUtf8(raw) then Err(end, InvalidKey)
        else Ok(raw, end)
  }

  function DecEntries(buf: Bytes, pos: nat, n: nat, prev: Option<Bytes>, depth: nat): (r: Parsed<seq<Entry>>)
    requires pos <= |buf|
    ensures r.Ok? ==> pos <= r.pos <= |buf| && |r.item| == n
    decreases |buf| - pos, 1
  {
    if n == 0 then Ok([], pos)
    else
      match DecKey(buf, pos, prev)
      case Err(at, reason) => Err(at, reason)
      case Ok(key, mid) =>
        match DecValue(buf, mid, depth)
        case Err(at, reason) => Err(at, reason)
        case Ok(v, next) =>
          match DecEntries(buf, next, n - 1, Some(buf[pos..mid]), depth)
          case Err(at, reason) => Err(at, reason)
          case Ok(rest, end) => Ok([Entry(key, v)] + rest, end)
  }

  /** Inserting the entries one after the other into an empty map. */
  function Collect(entries: seq<Entry>): map<Bytes, Value> {
    if entries == [] then map[]
    else var last := entries[|entries| - 1]; Collect(entries[..|entries| - 1])[last.key := last.value]
  }

  function ClaimRefFrom(v: Value): Option<Value> {
    if v.Array? && |v.items| == 2 && v.items[0].Bytes? && v.items[1].Bytes?
       && |v.items[0].bytes| == 32 && |v.items[1].bytes| == 32
    then Some(ClaimRef(v.items[0].bytes, v.items[1].bytes)) else None
  }

  function BlobRefFrom(v: Value): Option<Value> {
    if v.Array? && |v.items| == 3 && v.items[0].Bytes? && v.items[1].Int? && v.items[2].Text?
       && |v.items[0].bytes| == 32 && v.items[1].i >= 0
    then Some(BlobRef(v.items[0].bytes, v.items[1].i, v.items[2].text)) else None
  }

  function EventFrom(v: Value): Option<Value> {
    if v.Array? && |v.items| == 3 && v.items[0].Bytes? && v.items[1].Bytes? && |v.items[1].bytes| == 32 then
      if v.items[2].Null? then Some(Embed(Event(v.items[0].bytes, v.items[1].bytes, None)))
      else if v.items[2].Bytes? then Some(Embed(Event(v.items[0].bytes, v.items[1].bytes, Some(v.items[2].bytes))))
      else None
    else None
  }

  function InterpretTag(tag: nat, inner: Value): Value {
    var known := if tag == TAG_CLAIM_REF then ClaimRefFrom(inner)
                 else if tag == TAG_EMBED then EventFrom(inner)
                 else if tag == TAG_BLOB_REF then BlobRefFrom(inner)
                 else None;
    if known.Some? then known.value else Tagged(tag, inner)
  }

  function FromBytes(buf: Bytes): Parsed<Value> {
    match DecValue(buf, 0, 0)
    case Err(at, reason) => Err(at, reason)
    case Ok(v, end) => if end != |buf| then Err(end, TrailingBytes) else Ok(v, end)
  }

}
