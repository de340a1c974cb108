/** Why a byte string is refused: which defect is named, and where. */
module Refusals {
  import opened Bytes
  import opened Values
  import opened Cbor
  import opened CborLaws
  import opened CborRoundTrip
  import opened Frames

  /** Anything after a value is named as trailing, at the value's end. */
  lemma TrailingIsNamed(v: Value, extra: Bytes)
    requires Typed(v) && Decodable(v, 0) && extra != [] && |Enc(v) + extra| <= MAX_LEN
    ensures FromBytes(Enc(v) + extra) == Err(|Enc(v)|, TrailingBytes)
  {
    hide Typed, Decodable, DecValue, Enc;
    var buf := Enc(v) + extra;
    assert buf[0..0 + |Enc(v)|] == Enc(v);
    ValueIsReadBack(v, buf, 0, 0);
  }

  /** A head wider than its argument needs is named, after the head. */
  lemma WideHeadIsNamed(major: Major, arg: nat, w: nat)
    requires major < 7 && (w == 1 || w == 2 || w == 4 || w == 8) && WidthOf(arg) < w
    ensures DecHead([major * 32 + Info(w)] + ToBigEndian(arg, w), 0) == Err(1 + w, NonMinimal)
  {
    hide FromBigEndian, Pow256, ToBigEndian;
    WideBound(w);
    WideBound(if w == 1 then 1 else w / 2);
    var tail := ToBigEndian(arg, w);
    var buf := [major * 32 + Info(w)] + tail;
    assert buf[1..] == tail && buf[1..1 + w] == tail;
    assert buf[0] == major * 32 + Info(w);
    FromToBigEndian(arg, w);
    if w == 1 {
      OneByte(arg);
    }
  }

  /** Anything after a frame is named as trailing, at the frame's end. */
  lemma FrameTrailingIsNamed(e: Event, extra: Bytes)
    requires TypedEvent(e) && extra != [] && |EncEvent(e) + extra| <= MAX_LEN
    ensures DecodeEvent(EncEvent(e) + extra) == Err(|EncEvent(e)|, TrailingBytes)
  {
    hide DecodePrefix, EncEvent;
    AtFront(EncEvent(e), extra);
    FrameIsRead(e, EncEvent(e) + extra);
  }

  /** A header or a frame that is an array of another length, or no array at all. */
  lemma ShapeIsNamed(buf: Bytes)
    requires buf != [] && buf[0] != 0x83 && buf[0] % 32 < 24
    ensures DecHeader(buf).Err? && DecHeader(buf).reason == BadHeader
    ensures DecodePrefix(buf).Err? && DecodePrefix(buf).reason == BadEvent
  {
    assert DecHead(buf, 0) == Ok(Head(buf[0] / 32, buf[0] % 32), 1);
    hide DecHead;
  }

  // ── Depth ────────────────────────────────────────────────────────────

  /** Null inside `k` arrays of one item. */
  function Nest(k: nat): Bytes { if k == 0 then [0xf6] else [0x81] + Nest(k - 1) }

  lemma {:induction false} NestedIsRead(buf: Bytes, pos: nat, k: nat, depth: nat)
    requires pos <= |buf| && buf[pos..] == Nest(k)
    ensures depth + k <= 128 ==> DecValue(buf, pos, depth).Ok? && DecValue(buf, pos, depth).pos == |buf|
    ensures depth <= 128 < depth + k ==> DecValue(buf, pos, depth).Err? && DecValue(buf, pos, depth).reason == TooDeep
    decreases k
  {
    assert buf[pos] == buf[pos..][0];
    if k > 0 && depth <= 128 {
      assert buf[pos + 1..] == buf[pos..][1..] == Nest(k - 1);
      if depth == 128 {
        assert DecValue(buf, pos + 1, 129) == Err(pos + 1, TooDeep);
      } else {
        NestedIsRead(buf, pos + 1, k - 1, depth + 1);
      }
      assert DecHead(buf, pos) == Ok(Head(4, 1), pos + 1);
      OneItem(buf, pos + 1, depth + 1);
    } else if k == 0 {
      assert DecHead(buf, pos) == Ok(Head(7, 22), pos + 1);
      assert |buf| == pos + 1;
    }
  }

  lemma OneItem(buf: Bytes, pos: nat, depth: nat)
    requires pos <= |buf|
    ensures var v := DecValue(buf, pos, depth);
            DecItems(buf, pos, 1, depth) == match v case Ok(x, end) => Ok([x], end) case Err(at, why) => Err(at, why)
  {
    hide DecValue;
    var v := DecValue(buf, pos, depth);
    if v.Ok? {
      assert DecItems(buf, v.pos, 0, depth) == Ok([], v.pos) && [v.item] + [] == [v.item];
    }
  }

  /** Nesting is read down to 128 levels, and refused as too deep beyond. */
  lemma DepthIsBounded(k: nat)
    ensures FromBytes(Nest(k)).Ok? <==> k <= 128
    ensures k > 128 ==> FromBytes(Nest(k)).reason == TooDeep
  {
    hide DecValue;
    assert Nest(k)[0..] == Nest(k);
    NestedIsRead(Nest(k), 0, k, 0);
  }

  // ── Each other defect ────────────────────────────────────────────────

  /** Ends of input and lengths. */
  lemma LengthsAreNamed()
    ensures FromBytes([]) == Err(0, UnexpectedEnd) && FromBytes([0x18]) == Err(1, UnexpectedEnd)
    ensures FromBytes([0x42, 0]) == Err(1, LengthExceedsInput)
    ensures FromBytes([0x5b, 255, 255, 255, 255, 255, 255, 255, 255]) == Err(9, LengthOverflows)
  {
    hide DecItems, DecEntries, InterpretTag, IsUtf8;
    assert DecHead([0x42, 0], 0) == Ok(Head(2, 2), 1);
    var buf: Bytes := [0x5b, 255, 255, 255, 255, 255, 255, 255, 255];
    var tail: Bytes := [255, 255, 255, 255, 255, 255, 255, 255];
    assert buf[1..9] == tail;
    AllOnes(tail);
    assert DecWide(buf, 1, 2, 8) == Ok(Head(2, 0xffff_ffff_ffff_ffff), 9);
  }

  lemma AllOnes(s: Bytes)
    requires s == [255, 255, 255, 255, 255, 255, 255, 255]
    ensures FromBigEndian(s) == 0xffff_ffff_ffff_ffff
  {
    var s4: Bytes := [255, 255, 255, 255];
    Ones4(s4);
    Appended(s4, 255);
    Appended(s4 + [255], 255);
    Appended(s4 + [255] + [255], 255);
    Appended(s4 + [255] + [255] + [255], 255);
    assert s == s4 + [255] + [255] + [255] + [255];
  }

  lemma Ones4(s: Bytes)
    requires s == [255, 255, 255, 255]
    ensures FromBigEndian(s) == 0xffff_ffff
  {
    var s0: Bytes := [];
    Appended(s0, 255);
    Appended(s0 + [255], 255);
    Appended(s0 + [255] + [255], 255);
    Appended(s0 + [255] + [255] + [255], 255);
    assert s == s0 + [255] + [255] + [255] + [255];
  }

  lemma Appended(s: Bytes, b: byte)
    ensures FromBigEndian(s + [b]) == 256 * FromBigEndian(s) + b
  {
    assert (s + [b])[..|s|] == s;
  }

  /** Simple values, reserved heads and text. */
  lemma ValuesAreNamed()
    ensures FromBytes([0xf8, 0x20]) == Err(1, ExtendedSimple) && FromBytes([0x1c]) == Err(1, Reserved)
    ensures FromBytes([0xf7]) == Err(1, UnsupportedSimple)
    ensures FromBytes([0x61, 0xff]) == Err(2, InvalidText)
  {
    hide DecItems, DecEntries, InterpretTag;
    assert DecHead([0x61, 0xff], 0) == Ok(Head(3, 1), 1) && [0x61, 0xff][1..2] == [0xff];
    assert ScalarLength([0xff]) == 0;
  }

  /** Keys of a map: text, ascending, well-formed. */
  lemma KeysAreNamed()
    ensures FromBytes([0xa1, 0x01, 0xf6]) == Err(2, KeyNotText)
    ensures FromBytes([0xa1, 0x61, 0xff, 0xf6]) == Err(3, InvalidKey)
  {
    hide DecItems, InterpretTag, DecHead;
    KeyHeads();
    var a: Bytes := [0xa1, 0x01, 0xf6];
    assert DecKey(a, 1, None) == Err(2, KeyNotText);
    var b: Bytes := [0xa1, 0x61, 0xff, 0xf6];
    var key: Bytes := [0xff];
    assert b[2..3] == [b[2]] == key && ScalarLength(key) == 0;
    assert DecTake(b, 2, 1) == Ok(key, 3);
    assert DecKey(b, 1, None) == Err(3, InvalidKey);
  }

  lemma KeyHeads()
    ensures DecHead([0xa1, 0x01, 0xf6], 0) == Ok(Head(5, 1), 1) && DecHead([0xa1, 0x01, 0xf6], 1) == Ok(Head(0, 1), 2)
    ensures DecHead([0xa1, 0x61, 0xff, 0xf6], 0) == Ok(Head(5, 1), 1)
            && DecHead([0xa1, 0x61, 0xff, 0xf6], 1) == Ok(Head(3, 1), 2)
  {
  }
}
