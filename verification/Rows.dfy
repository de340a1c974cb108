/**
 The store's rows and indexes as a value, and the single writes a backend
 performs on them.
 */
module Rows {
  import opened Bytes

  type ClaimHash = nat
  type LogId = nat
  type BlobHash = nat

  datatype ClaimRef = ClaimRef(log: LogId, claim: ClaimHash)

  /**
   A decoded body, as far as the engine looks into it: its bytes, what it names
   if it reads `{type: "redact", redacts: ...}`, and the edges of the deep walk.
   */
  datatype Body = Body(
    bytes: Bytes,
    redacts: Option<ClaimRef>,
    refs: seq<ClaimHash>,
    blobs: seq<BlobHash>,
    skipped: nat)

  /** An event that passed its structural check. `body` is None for a tombstone. */
  datatype Artifact = Artifact(id: ClaimHash, log: LogId, header: Bytes, tag: Bytes, body: Option<Body>)

  /**
   An event as it arrives. Its id is a hash of whatever the header bytes are; the
   header may not decode, or the body may not pass its check against the header.
   */
  datatype Event = Garbled(id: ClaimHash) | BadBody(id: ClaimHash, log: LogId) | Checked(art: Artifact)

  function EventId(e: Event): ClaimHash { if e.Checked? then e.art.id else e.id }

  function HeaderLog(e: Event): Option<LogId> {
    match e case Garbled(_) => None case BadBody(_, log) => Some(log) case Checked(a) => Some(a.log)
  }

  /** What a body redacts: only a claim it says lives in its author's own log. */
  function RedactTarget(author: LogId, body: Option<Body>): Option<ClaimHash> {
    if body.Some? && body.value.redacts.Some? && body.value.redacts.value.log == author
    then Some(body.value.redacts.value.claim)
    else None
  }

  /** A claim at rest. `arrival` and `receivedAt` are local metadata. */
  datatype Row = Row(art: Artifact, refs: seq<ClaimHash>, blobs: seq<BlobHash>, arrival: nat, receivedAt: int)

  type Edges = map<nat, set<ClaimHash>>

  datatype State = State(
    claims: map<ClaimHash, Row>,
    backlinks: Edges,
    referrers: Edges,
    redactions: map<ClaimHash, ClaimHash>)

  /** Rows are keyed by their own id, and no edge set is empty. */
  predicate WellKept(s: State) {
    && NoEmptySets(s.backlinks) && NoEmptySets(s.referrers)
    && forall id | id in s.claims :: s.claims[id].art.id == id
  }

  const EMPTY := State(map[], map[], map[], map[])

  // ── Edge maps ────────────────────────────────────────────────────────

  predicate Linked(m: Edges, key: nat, source: ClaimHash) { key in m && source in m[key] }

  function AddEdge(m: Edges, key: nat, source: ClaimHash): Edges {
    m[key := (if key in m then m[key] else {}) + {source}]
  }

  /** An emptied set takes its key with it. */
  function RemoveEdge(m: Edges, key: nat, source: ClaimHash): Edges {
    if key !in m then m
    else if m[key] - {source} == {} then m - {key}
    else m[key := m[key] - {source}]
  }

  predicate NoEmptySets(m: Edges) {
    forall k | k in m :: m[k] != {}
  }

  /** Without empty sets an edge map is its set of edges. */
  lemma SameEdges(m: Edges, m': Edges)
    requires NoEmptySets(m) && NoEmptySets(m')
    requires forall k, x :: Linked(m, k, x) <==> Linked(m', k, x)
    ensures m == m'
  {
    forall k
      ensures k in m <==> k in m'
    {
      if k in m { var x :| x in m[k]; assert Linked(m, k, x); }
      if k in m' { var x :| x in m'[k]; assert Linked(m', k, x); }
    }
    forall k | k in m
      ensures m[k] == m'[k]
    {
      forall x
        ensures x in m[k] <==> x in m'[k]
      {
        assert Linked(m, k, x) <==> Linked(m', k, x);
      }
    }
  }

  lemma AddEdgeLinks(m: Edges, key: nat, source: ClaimHash)
    requires NoEmptySets(m)
    ensures NoEmptySets(AddEdge(m, key, source))
    ensures forall k, x :: Linked(AddEdge(m, key, source), k, x) <==> Linked(m, k, x) || (k == key && x == source)
  {
  }

  lemma RemoveEdgeUnlinks(m: Edges, key: nat, source: ClaimHash)
    requires NoEmptySets(m)
    ensures NoEmptySets(RemoveEdge(m, key, source))
    ensures forall k, x :: Linked(RemoveEdge(m, key, source), k, x) <==> Linked(m, k, x) && !(k == key && x == source)
  {
    if key in m && m[key] - {source} == {} {
      var rest := m[key] - {source};
      assert m[key] <= rest + {source};
    }
  }

  // ── Retention ────────────────────────────────────────────────────────

  /** The edges whose source is not among `gone`. */
  function Scrub(m: Edges, gone: set<ClaimHash>): Edges {
    map k | k in m && m[k] - gone != {} :: m[k] - gone
  }

  lemma ScrubLinks(m: Edges, gone: set<ClaimHash>)
    ensures NoEmptySets(Scrub(m, gone))
    ensures forall k, x :: Linked(Scrub(m, gone), k, x) <==> Linked(m, k, x) && x !in gone
  {
    forall k, x
      ensures Linked(Scrub(m, gone), k, x) <==> Linked(m, k, x) && x !in gone
    {
      if Linked(m, k, x) && x !in gone {
        assert x in m[k] - gone;
      }
    }
  }

  function Expired(s: State, cutoff: int): set<ClaimHash> {
    set id | id in s.claims && s.claims[id].receivedAt < cutoff
  }

  /** Claims received before a cutoff, and redactions of them, are let go. */
  function Purged(s: State, cutoff: int): State {
    var gone := Expired(s, cutoff);
    State(s.claims - gone, Scrub(s.backlinks, gone), Scrub(s.referrers, gone), s.redactions - gone)
  }

  // ── Writes ───────────────────────────────────────────────────────────

  datatype Write =
    | PutClaim(row: Row)
    | AddBacklink(target: ClaimHash, source: ClaimHash)
    | RemoveBacklink(target: ClaimHash, source: ClaimHash)
    | AddReferrer(blob: BlobHash, source: ClaimHash)
    | RemoveReferrer(blob: BlobHash, source: ClaimHash)
    | SetRedaction(target: ClaimHash, redactor: ClaimHash)

  function Apply(w: Write, s: State): State {
    match w
    case PutClaim(row) => s.(claims := s.claims[row.art.id := row])
    case AddBacklink(t, x) => s.(backlinks := AddEdge(s.backlinks, t, x))
    case RemoveBacklink(t, x) => s.(backlinks := RemoveEdge(s.backlinks, t, x))
    case AddReferrer(b, x) => s.(referrers := AddEdge(s.referrers, b, x))
    case RemoveReferrer(b, x) => s.(referrers := RemoveEdge(s.referrers, b, x))
    case SetRedaction(t, redactor) => s.(redactions := s.redactions[t := redactor])
  }

  function ApplyAll(ws: seq<Write>, s: State): State {
    if ws == [] then s else ApplyAll(ws[1..], Apply(ws[0], s))
  }

  lemma {:induction false} ApplyConcat(ws: seq<Write>, vs: seq<Write>, s: State)
    ensures ApplyAll(ws + vs, s) == ApplyAll(vs, ApplyAll(ws, s))
  {
    if ws == [] {
      assert ws + vs == vs;
    } else {
      assert (ws + vs)[1..] == ws[1..] + vs;
      ApplyConcat(ws[1..], vs, Apply(ws[0], s));
    }
  }

  lemma ApplySnoc(ws: seq<Write>, w: Write, s: State)
    ensures ApplyAll(ws + [w], s) == Apply(w, ApplyAll(ws, s))
  {
    ApplyConcat(ws, [w], s);
  }
}
