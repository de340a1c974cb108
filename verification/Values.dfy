/** The dynamic value model of claim bodies, and the events bodies can quote. */
module Values {
  import opened Bytes

  /** A claim as transmitted: header bytes, tag, and the body unless tombstoned. */
  datatype Event = Event(header: Bytes, tag: Bytes, body: Option<Bytes>)

  datatype Value =
    | Null
    | Bool(b: bool)
    | Int(i: int)
    | Bytes(bytes: Bytes)
    | Text(text: Bytes)
    | Array(items: seq<Value>)
    | Map(entries: map<Bytes, Value>)
    | ClaimRef(log: Bytes, claim: Bytes)
    | Embed(event: Event)
    | BlobRef(blob: Bytes, size: nat, mime: Bytes)
    | Tagged(tag: nat, inner: Value)

  const TAG_CLAIM_REF := 33001
  const TAG_EMBED := 33002
  const TAG_BLOB_REF := 33003

  const I64_MAX := 0x7fff_ffff_ffff_ffff

  predicate TypedText(s: Bytes) { IsUtf8(s) && |s| <= MAX_LEN }

  predicate TypedEvent(e: Event) {
    && |e.header| <= MAX_LEN
    && |e.tag| == 32
    && (e.body.Some? ==> |e.body.value| <= MAX_LEN)
  }

  /** What the source's types already guarantee of a value. */
  predicate Typed(v: Value)
    decreases v
  {
    match v
    case Null => true
    case Bool(_) => true
    case Int(i) => -I64_MAX - 1 <= i <= I64_MAX
    case Bytes(b) => |b| <= MAX_LEN
    case Text(s) => TypedText(s)
    case Array(items) => |items| <= MAX_LEN && forall i | 0 <= i < |items| :: Typed(items[i])
    case Map(m) => |m| <= MAX_LEN && forall k | k in m :: TypedText(k) && Typed(m[k])
    case ClaimRef(log, claim) => |log| == 32 && |claim| == 32
    case Embed(e) => TypedEvent(e)
    case BlobRef(hash, size, mime) => |hash| == 32 && size < 0x1_0000_0000_0000_0000 && TypedText(mime)
    case Tagged(tag, inner) => tag < 0x1_0000_0000_0000_0000 && Typed(inner)
  }
}
