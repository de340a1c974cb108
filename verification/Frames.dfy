/**
 Event headers and event frames on the wire. Frames are concatenated into a
 CBOR sequence (section 2 of RFC 8742): a backup, a file, a batch.
 */
module Frames {
  import opened Bytes
  import opened Values
  import opened Cbor
  import opened CborLaws

  const WIRE_VERSION := 2

  datatype Header = Header(version: nat, log: Bytes, bodyHash: Bytes)

  predicate TypedHeader(h: Header) {
    h.version < 0x1_0000 && |h.log| == 32 && |h.bodyHash| == 32
  }

  function EncHeader(h: Header): Bytes {
    EncHead(4, 3) + EncHead(0, h.version) + EncBytes(h.log) + EncBytes(h.bodyHash)
  }

  function DecBlob(buf: Bytes, pos: nat): (r: Parsed<Bytes>)
    requires pos <= |buf|
    ensures r.Ok? ==> pos < r.pos <= |buf|
  {
    match DecExpect(buf, pos, 2, BadEvent)
    case Err(at, reason) => Err(at, reason)
    case Ok(len, next) => DecTake(buf, next, len)
  }

  function DecBytes32(buf: Bytes, pos: nat, reason: Reason): (r: Parsed<Bytes>)
    requires pos <= |buf|
    ensures r.Ok? ==> pos < r.pos <= |buf| && |r.item| == 32
  {
    match DecExpect(buf, pos, 2, reason)
    case Err(at, why) => Err(at, why)
    case Ok(len, next) => if len != 32 then Err(next, reason) else DecTake(buf, next, 32)
  }

  function DecHeader(buf: Bytes): Parsed<Header> {
    match DecExpect(buf, 0, 4, BadHeader)
    case Err(at, why) => Err(at, why)
    case Ok(n, p0) =>
      if n != 3 then Err(0, BadHeader)
      else
        match DecExpect(buf, p0, 0, BadHeader)
        case Err(at, why) => Err(at, why)
        case Ok(version, p1) =>
          if version != WIRE_VERSION then Err(p1, BadVersion(version))
          else
            match DecBytes32(buf, p1, BadHeader)
            case Err(at, why) => Err(at, why)
            case Ok(log, p2) =>
              match DecBytes32(buf, p2, BadHeader)
              case Err(at, why) => Err(at, why)
              case Ok(hash, p3) =>
                if p3 != |buf| then Err(p3, TrailingBytes) else Ok(Header(WIRE_VERSION, log, hash), p3)
  }

  function DecBody(buf: Bytes, pos: nat): (r: Parsed<Option<Bytes>>)
    requires pos <= |buf|
    ensures r.Ok? ==> pos < r.pos <= |buf|
  {
    if pos < |buf| && buf[pos] == 0xf6 then Ok(None, pos + 1)
    else
      match DecBlob(buf, pos)
      case Err(at, why) => Err(at, why)
      case Ok(body, end) => Ok(Some(body), end)
  }

  /** One frame from the front of `buf`, and the bytes it took. */
  function DecodePrefix(buf: Bytes): (r: Parsed<Event>)
    ensures r.Ok? ==> 0 < r.pos <= |buf|
  {
    match DecExpect(buf, 0, 4, BadEvent)
    case Err(at, why) => Err(at, why)
    case Ok(n, p0) =>
      if n != 3 then Err(0, BadEvent)
      else
        match DecBlob(buf, p0)
        case Err(at, why) => Err(at, why)
        case Ok(header, p1) =>
          match DecExpect(buf, p1, 2, BadEvent)
          case Err(at, why) => Err(at, why)
          case Ok(len, p2) =>
            if len != 32 then Err(0, BadEvent)
            else
              match DecTake(buf, p2, 32)
              case Err(at, why) => Err(at, why)
              case Ok(tag, p3) =>
                match DecBody(buf, p3)
                case Err(at, why) => Err(at, why)
                case Ok(body, p4) => Ok(Event(header, tag, body), p4)
  }

  /** Exactly one frame. */
  function DecodeEvent(buf: Bytes): Parsed<Event> {
    match DecodePrefix(buf)
    case Err(at, why) => Err(at, why)
    case Ok(e, n) => if n != |buf| then Err(n, TrailingBytes) else Ok(e, n)
  }

  // ── Headers ──────────────────────────────────────────────────────────

  lemma BlobIsRead(buf: Bytes, pos: nat, b: Bytes)
    requires |buf| <= MAX_LEN && |b| <= MAX_LEN && At(buf, pos, EncBytes(b))
    ensures DecExpect(buf, pos, 2, BadEvent) == Ok(|b|, pos + |EncHead(2, |b|)|)
    ensures DecTake(buf, pos + |EncHead(2, |b|)|, |b|) == Ok(b, pos + |EncBytes(b)|)
    ensures DecExpect(buf, pos, 2, BadHeader) == DecExpect(buf, pos, 2, BadEvent)
  {
    hide EncHead, DecHead;
    AtConcat(buf, pos, EncHead(2, |b|), b);
    HeadIsRead(buf, pos, 2, |b|);
  }

  lemma BlobIsCanonical(buf: Bytes, pos: nat, reason: Reason, len: nat, next: nat)
    requires pos <= |buf| && DecExpect(buf, pos, 2, reason) == Ok(len, next) && DecTake(buf, next, len).Ok?
    ensures var Ok(b, end) := DecTake(buf, next, len);
            At(buf, pos, EncBytes(b)) && end == pos + |EncBytes(b)|
  {
    hide EncHead, DecHead, At, DecTake;
    HeadIsMinimal(buf, pos);
    TakenIsThere(buf, next, len);
    AtConcat(buf, pos, EncHead(2, len), DecTake(buf, next, len).item);
  }

  lemma AtWhole(buf: Bytes)
    ensures At(buf, 0, buf)
  {
    assert buf[0..|buf|] == buf;
  }

  lemma AtAll(buf: Bytes, s: Bytes)
    requires At(buf, 0, s) && |s| == |buf|
    ensures s == buf
  {
    assert buf[0..|buf|] == buf;
  }

  lemma At4(buf: Bytes, pos: nat, a: Bytes, b: Bytes, c: Bytes, d: Bytes)
    ensures At(buf, pos, a + b + c + d) <==>
            && At(buf, pos, a) && At(buf, pos + |a|, b)
            && At(buf, pos + |a| + |b|, c) && At(buf, pos + |a| + |b| + |c|, d)
  {
    hide At;
    AtConcat(buf, pos, a, b);
    AtConcat(buf, pos, a + b, c);
    AtConcat(buf, pos, a + b + c, d);
  }

  /** Header bytes that decode are the canonical bytes of what they decode to. */
  lemma HeaderIsCanonical(buf: Bytes)
    requires DecHeader(buf).Ok?
    ensures EncHeader(DecHeader(buf).item) == buf
    ensures TypedHeader(DecHeader(buf).item) && DecHeader(buf).item.version == WIRE_VERSION
  {
    hide EncHead, DecHead, At, DecTake, EncBytes;
    var Ok(h, _) := DecHeader(buf);
    var Ok(n, p0) := DecExpect(buf, 0, 4, BadHeader);
    var Ok(version, p1) := DecExpect(buf, p0, 0, BadHeader);
    var Ok(l1, q1) := DecExpect(buf, p1, 2, BadHeader);
    var Ok(_, p2) := DecBytes32(buf, p1, BadHeader);
    var Ok(l2, q2) := DecExpect(buf, p2, 2, BadHeader);
    HeadIsMinimal(buf, 0);
    HeadIsMinimal(buf, p0);
    BlobIsCanonical(buf, p1, BadHeader, l1, q1);
    BlobIsCanonical(buf, p2, BadHeader, l2, q2);
    At4(buf, 0, EncHead(4, 3), EncHead(0, 2), EncBytes(h.log), EncBytes(h.bodyHash));
    AtAll(buf, EncHeader(h));
  }

  /** A header reads back from its canonical bytes exactly when its version is ours. */
  lemma HeaderRoundTrip(h: Header)
    requires TypedHeader(h)
    ensures DecHeader(EncHeader(h)) == Ok(h, |EncHeader(h)|) <==> h.version == WIRE_VERSION
  {
    hide EncHead, DecHead, At, DecTake, EncBytes;
    var buf := EncHeader(h);
    if h.version == WIRE_VERSION {
      BlobLength(h.log);
      BlobLength(h.bodyHash);
      AtWhole(buf);
      At4(buf, 0, EncHead(4, 3), EncHead(0, 2), EncBytes(h.log), EncBytes(h.bodyHash));
      HeadIsRead(buf, 0, 4, 3);
      HeadIsRead(buf, |EncHead(4, 3)|, 0, 2);
      var p1 := |EncHead(4, 3)| + |EncHead(0, 2)|;
      BlobIsRead(buf, p1, h.log);
      BlobIsRead(buf, p1 + |EncBytes(h.log)|, h.bodyHash);
    }
  }

  /** A header of another version is refused by its claimed version, whatever it is. */
  lemma OtherVersionIsNamed(h: Header)
    requires TypedHeader(h) && h.version != WIRE_VERSION
    ensures var r := DecHeader(EncHeader(h)); r.Err? && r.reason == BadVersion(h.version)
  {
    hide EncHead, DecHead, At, DecTake, EncBytes;
    var buf := EncHeader(h);
    BlobLength(h.log);
    BlobLength(h.bodyHash);
    HeadLength(h.version);
    AtWhole(buf);
    At4(buf, 0, EncHead(4, 3), EncHead(0, h.version), EncBytes(h.log), EncBytes(h.bodyHash));
    HeadIsRead(buf, 0, 4, 3);
    HeadIsRead(buf, |EncHead(4, 3)|, 0, h.version);
  }

  /** Anything after a header of our version is named as trailing, at the header's end. */
  lemma HeaderTrailingIsNamed(h: Header, extra: Bytes)
    requires TypedHeader(h) && h.version == WIRE_VERSION && extra != [] && |EncHeader(h) + extra| <= MAX_LEN
    ensures DecHeader(EncHeader(h) + extra) == Err(|EncHeader(h)|, TrailingBytes)
  {
    hide EncHead, DecHead, At, DecTake, EncBytes;
    var whole := EncHeader(h);
    var buf := whole + extra;
    BlobLength(h.log);
    BlobLength(h.bodyHash);
    AtFront(whole, extra);
    At4(buf, 0, EncHead(4, 3), EncHead(0, 2), EncBytes(h.log), EncBytes(h.bodyHash));
    HeadIsRead(buf, 0, 4, 3);
    HeadIsRead(buf, |EncHead(4, 3)|, 0, 2);
    var p1 := |EncHead(4, 3)| + |EncHead(0, 2)|;
    BlobIsRead(buf, p1, h.log);
    BlobIsRead(buf, p1 + |EncBytes(h.log)|, h.bodyHash);
  }

  lemma AtFront(s: Bytes, extra: Bytes)
    ensures At(s + extra, 0, s)
  {
  }

  lemma HeadLength(n: nat)
    ensures |EncHead(0, n)| <= 9 && |EncHead(4, 3)| == 1
  {
  }

  lemma BlobLength(b: Bytes)
    ensures |b| < |EncBytes(b)| <= |b| + 9
  {
  }

  // ── Frames ───────────────────────────────────────────────────────────

  lemma BodyIsRead(buf: Bytes, pos: nat, body: Option<Bytes>)
    requires |buf| <= MAX_LEN && (body.Some? ==> |body.value| <= MAX_LEN) && At(buf, pos, EncBody(body))
    ensures DecBody(buf, pos) == Ok(body, pos + |EncBody(body)|)
  {
    hide DecHead, EncHead, DecTake, DecExpect;
    if body.None? {
      assert buf[pos] == buf[pos..pos + 1][0];
    } else {
      BlobIsRead(buf, pos, body.value);
      NotNull(buf, pos, body.value);
    }
  }

  lemma NotNull(buf: Bytes, pos: nat, b: Bytes)
    requires At(buf, pos, EncBytes(b))
    ensures pos < |buf| && buf[pos] != 0xf6
  {
    assert buf[pos] == buf[pos..pos + |EncBytes(b)|][0];
  }

  lemma BodyIsCanonical(buf: Bytes, pos: nat)
    requires pos <= |buf| && DecBody(buf, pos).Ok?
    ensures var Ok(body, end) := DecBody(buf, pos);
            At(buf, pos, EncBody(body)) && end == pos + |EncBody(body)|
  {
    hide DecHead, EncHead, DecTake, DecExpect;
    if pos < |buf| && buf[pos] == 0xf6 {
      assert buf[pos..pos + 1] == [0xf6];
    } else {
      var Ok(len, next) := DecExpect(buf, pos, 2, BadEvent);
      BlobIsCanonical(buf, pos, BadEvent, len, next);
    }
  }

  lemma FrameIsRead(e: Event, buf: Bytes)
    requires TypedEvent(e) && |buf| <= MAX_LEN && At(buf, 0, EncEvent(e))
    ensures DecodePrefix(buf) == Ok(e, |EncEvent(e)|)
  {
    hide DecHead, EncHead, DecTake, At, EncBytes, EncBody, DecBody;
    At4(buf, 0, EncHead(4, 3), EncBytes(e.header), EncBytes(e.tag), EncBody(e.body));
    HeadIsRead(buf, 0, 4, 3);
    var p0 := |EncHead(4, 3)|;
    BlobIsRead(buf, p0, e.header);
    BlobIsRead(buf, p0 + |EncBytes(e.header)|, e.tag);
    BodyIsRead(buf, p0 + |EncBytes(e.header)| + |EncBytes(e.tag)|, e.body);
  }

  /** Frames are canonical too: the bytes consumed are the encoding. */
  lemma FrameIsCanonical(buf: Bytes)
    requires DecodePrefix(buf).Ok?
    ensures var Ok(e, n) := DecodePrefix(buf);
            At(buf, 0, EncEvent(e)) && n == |EncEvent(e)| && |e.tag| == 32
  {
    hide DecHead, EncHead, DecTake, At, EncBytes, EncBody, DecBody;
    var Ok(e, n) := DecodePrefix(buf);
    var Ok(_, p0) := DecExpect(buf, 0, 4, BadEvent);
    var Ok(l1, q1) := DecExpect(buf, p0, 2, BadEvent);
    var Ok(_, p1) := DecBlob(buf, p0);
    var Ok(l2, q2) := DecExpect(buf, p1, 2, BadEvent);
    HeadIsMinimal(buf, 0);
    BlobIsCanonical(buf, p0, BadEvent, l1, q1);
    BlobIsCanonical(buf, p1, BadEvent, l2, q2);
    BodyIsCanonical(buf, p1 + |EncBytes(e.tag)|);
    At4(buf, 0, EncHead(4, 3), EncBytes(e.header), EncBytes(e.tag), EncBody(e.body));
  }

  /** Whole frames and events correspond one to one. */
  lemma EventRoundTrip(e: Event, buf: Bytes)
    requires |buf| <= MAX_LEN
    ensures DecodeEvent(buf) == Ok(e, |buf|) <==> TypedEvent(e) && EncEvent(e) == buf
  {
    hide DecodePrefix, EncEvent, TypedEvent;
    if DecodeEvent(buf) == Ok(e, |buf|) {
      FrameIsCanonical(buf);
      ReadPrefixIsTyped(e, buf);
      AtAll(buf, EncEvent(e));
    }
    if TypedEvent(e) && EncEvent(e) == buf {
      AtWhole(buf);
      FrameIsRead(e, buf);
    }
  }

  // ── Sequences of frames ──────────────────────────────────────────────

  function Concat(es: seq<Event>): Bytes {
    if es == [] then [] else EncEvent(es[0]) + Concat(es[1..])
  }

  /** Frames read until the input ends or one fails; `torn` if one failed. */
  datatype Reading = Reading(events: seq<Event>, torn: bool)

  function ReadFrames(buf: Bytes): Reading
    decreases |buf|
  {
    if buf == [] then Reading([], false)
    else
      match DecodePrefix(buf)
      case Err(_, _) => Reading([], true)
      case Ok(e, n) => var rest := ReadFrames(buf[n..]); Reading([e] + rest.events, rest.torn)
  }

  ghost predicate TypedEvents(es: seq<Event>) {
    forall i | 0 <= i < |es| :: TypedEvent(es[i])
  }

  /** No proper prefix of a frame is a frame. */
  lemma CutFrameFails(e: Event, buf: Bytes)
    requires TypedEvent(e) && |EncEvent(e)| <= MAX_LEN && buf < EncEvent(e)
    ensures DecodePrefix(buf).Err?
  {
    hide DecodePrefix, EncEvent, TypedEvent;
    if DecodePrefix(buf).Ok? {
      var whole := EncEvent(e);
      var Ok(e', n) := DecodePrefix(buf);
      FrameIsCanonical(buf);
      assert whole[0..n] == buf[0..n];
      assert At(whole, 0, EncEvent(e'));
      AtWhole(whole);
      FrameIsRead(e, whole);
      ReadPrefixIsTyped(e', whole);
      FrameIsRead(e', whole);
    }
  }

  lemma ReadPrefixIsTyped(e: Event, buf: Bytes)
    requires |buf| <= MAX_LEN && At(buf, 0, EncEvent(e)) && |e.tag| == 32
    ensures TypedEvent(e)
  {
    hide EncHead, At;
    AtFits(buf, EncEvent(e));
  }

  lemma AtFits(buf: Bytes, s: Bytes)
    requires At(buf, 0, s)
    ensures |s| <= |buf|
  {
  }

  /**
   A stream cut after `k` bytes yields exactly the frames that are complete in
   it, and reports a torn frame exactly when the cut is inside one.
   */
  lemma {:induction false} CutStream(es: seq<Event>, k: nat) returns (j: nat)
    requires TypedEvents(es) && |Concat(es)| <= MAX_LEN && k <= |Concat(es)|
    ensures j <= |es| && |Concat(es[..j])| <= k
    ensures j < |es| ==> k < |Concat(es[..j + 1])|
    ensures ReadFrames(Concat(es)[..k]) == Reading(es[..j], k != |Concat(es[..j])|)
  {
    hide EncEvent, DecodePrefix, TypedEvent;
    var buf := Concat(es)[..k];
    if es == [] {
      j := 0;
    } else {
      var frame, rest := EncEvent(es[0]), Concat(es[1..]);
      assert es[..1][1..] == [] && es[..1][0] == es[0];
      assert Concat(es[..1]) == frame + [];
      assert TypedEvent(es[0]);
      if k < |frame| {
        j := 0;
        assert buf == frame[..k];
        if k > 0 {
          CutFrameFails(es[0], buf);
        }
      } else {
        assert buf == frame + rest[..k - |frame|];
        assert buf[0..|frame|] == frame;
        FrameIsRead(es[0], buf);
        assert buf[|frame|..] == rest[..k - |frame|];
        var j' := CutStream(es[1..], k - |frame|);
        j := j' + 1;
        ConcatTake(es, j);
        if j < |es| {
          ConcatTake(es, j + 1);
        }
        assert es[..j] == [es[0]] + es[1..][..j'];
        assert |frame| > 0 by { FrameNonEmpty(es[0]); }
      }
    }
  }

  lemma FrameNonEmpty(e: Event)
    ensures |EncEvent(e)| > 0
  {
  }

  lemma ConcatTake(es: seq<Event>, j: nat)
    requires 0 < j <= |es|
    ensures Concat(es[..j]) == EncEvent(es[0]) + Concat(es[1..][..j - 1])
  {
    assert es[..j][1..] == es[1..][..j - 1];
  }

  /** Reading back a whole stream loses nothing. */
  lemma ReadBack(es: seq<Event>)
    requires TypedEvents(es) && |Concat(es)| <= MAX_LEN
    ensures ReadFrames(Concat(es)) == Reading(es, false)
  {
    hide ReadFrames, TypedEvents;
    var total := |Concat(es)|;
    assert Concat(es)[..total] == Concat(es);
    assert es[..|es|] == es;
    var j := CutStream(es, total);
    if j < |es| {
      ConcatGrows(es, j + 1);
    }
  }

  lemma {:induction false} ConcatGrows(es: seq<Event>, j: nat)
    requires j <= |es|
    ensures |Concat(es[..j])| <= |Concat(es)|
  {
    if j > 0 {
      ConcatTake(es, j);
      ConcatGrows(es[1..], j - 1);
    }
  }
}
