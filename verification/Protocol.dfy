/** The sync protocol as plain data, the cursor rows, and the stateless responder. */
module Protocol {
  import opened Bytes
  import opened Rows
  import opened Ingest
  import opened Queries

  /** One incarnation of a peer's arrival order. */
  type InstanceId = nat

  const BATCH := 256
  const MAX_SERVE_BATCH := 1024

  datatype Request =
    | AskStatus(log: LogId)
    | AskSince(log: LogId, have: nat, max: nat)
    | AskHashes(log: LogId)
    | AskClaims(ids: seq<ClaimHash>)
    | Publish(events: seq<Event>)
    | GetBlob(hash: BlobHash)
    | PutBlob(hash: BlobHash, bytes: Bytes)

  datatype Response =
    | Status(count: nat, fp: Print, instance: InstanceId)
    | Events(events: seq<Event>)
    | Hashes(entries: seq<Entry>)
    | Ack(stored: nat, rejected: nat)
    | Blob(bytes: Option<Bytes>)

  /** A push frame: an unsolicited status with events attached. */
  datatype Notify = Notify(log: LogId, events: seq<Event>, count: nat, fp: Print, instance: InstanceId)

  /** Where we stand with one peer on one log. */
  datatype Cursor = Cursor(instance: Option<InstanceId>, pull: nat, push: nat, settled: Option<Print>)

  const NO_CURSOR := Cursor(None, 0, 0, None)

  /** The row a new incarnation starts from. */
  function FreshCursor(instance: InstanceId): Cursor { NO_CURSOR.(instance := Some(instance)) }

  type Cursors = map<(string, LogId), Cursor>

  function CursorOf(cursors: Cursors, peer: string, log: LogId): Cursor {
    if (peer, log) in cursors then cursors[(peer, log)] else NO_CURSOR
  }

  function Wrap(arts: seq<Artifact>): (events: seq<Event>)
    ensures |events| == |arts| && forall i | 0 <= i < |arts| :: events[i] == Checked(arts[i])
  {
    seq(|arts|, i requires 0 <= i < |arts| => Checked(arts[i]))
  }

  function Min(a: nat, b: nat): nat { if a < b then a else b }

  function Max(a: nat, b: nat): nat { if a < b then b else a }

  function Take<T>(xs: seq<T>, n: nat): (ys: seq<T>)
    ensures ys <= xs && |ys| == Min(n, |xs|)
  {
    if n < |xs| then xs[..n] else xs
  }

  // ── The responder ────────────────────────────────────────────────────

  /** Publish, event by event: what fails its check is counted and dropped. */
  function AcceptAll(s: State, events: seq<Event>, now: int): State
    decreases |events|
  {
    if events == [] then s else AcceptAll(Accepted(s, events[0], now), events[1..], now)
  }

  function News(s: State, e: Event): nat {
    if !e.Checked? then 0
    else
      var r := ReportOf(s, e.art);
      (if r.newlyStored.Some? then 1 else 0) + r.bodiesAttached
  }

  function AckOf(s: State, events: seq<Event>, now: int): Response
    decreases |events|
  {
    if events == [] then Ack(0, 0)
    else
      var rest := AckOf(Accepted(s, events[0], now), events[1..], now);
      if rest.Ack? then
        Ack(rest.stored + News(s, events[0]), rest.rejected + if events[0].Checked? then 0 else 1)
      else rest
  }

  /** The state a request leaves at the responder. */
  function Served(s: State, now: int, r: Request): State {
    if r.Publish? then AcceptAll(s, r.events, now) else s
  }

  /** The answer to a claims request. Blobs are answered from the media cache. */
  ghost function Respond(s: State, instance: InstanceId, now: int, blobs: map<BlobHash, Bytes>, r: Request): Response {
    match r
    case AskStatus(log) => Status(LogLen(s, log), Fingerprint(s, log), instance)
    case AskSince(log, have, max) => Response.Events(Wrap(Take(ServeSince(s, log, have), Min(max, MAX_SERVE_BATCH))))
    case AskHashes(log) => Hashes(LogHashes(s, log))
    case AskClaims(ids) => Response.Events(Wrap(Artifacts(s, ids)))
    case Publish(events) => AckOf(s, events, now)
    case GetBlob(hash) => Blob(if hash in blobs then Some(blobs[hash]) else None)
    case PutBlob(hash, _) => Ack(if hash in blobs then 0 else 1, 0)
  }
}
