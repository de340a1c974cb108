/** What the store answers about its rows: the sync-facing queries and the fsck. */
module Queries {
  import opened Bytes
  import opened Rows
  import opened Ingest
  import opened Converge
  import opened Indexes
  import opened Sorted

  // ── Listings ─────────────────────────────────────────────────────────

  function ById(): Rank { _ => 0 }

  function ByArrival(s: State): Rank { id => if id in s.claims then s.claims[id].arrival else 0 }

  function ByLog(s: State): Rank { id => if id in s.claims then s.claims[id].art.log else 0 }

  function Past(s: State, log: LogId, have: nat): set<ClaimHash> {
    set id | id in LogIds(s, log) && s.claims[id].arrival >= have
  }

  /** The rows of some ids, as the events they are served as. */
  function Artifacts(s: State, ids: seq<ClaimHash>): (arts: seq<Artifact>)
    ensures |arts| <= |ids|
    ensures (forall i | 0 <= i < |ids| :: ids[i] in s.claims) ==>
              |arts| == |ids| && forall i | 0 <= i < |ids| :: arts[i] == s.claims[ids[i]].art
  {
    if ids == [] then []
    else (if ids[0] in s.claims then [s.claims[ids[0]].art] else []) + Artifacts(s, ids[1..])
  }

  /** Everything held of a log past a cursor, in arrival order. */
  ghost function ServeSince(s: State, log: LogId, have: nat): seq<Artifact> {
    Artifacts(s, SortIds(ByArrival(s), Past(s, log, have)))
  }

  datatype Entry = Entry(id: ClaimHash, hasBody: bool)

  function EntriesOf(s: State, ids: seq<ClaimHash>): (es: seq<Entry>)
    ensures |es| == |ids| && forall i | 0 <= i < |ids| ::
              es[i] == Entry(ids[i], ids[i] in s.claims && s.claims[ids[i]].art.body.Some?)
  {
    seq(|ids|, i requires 0 <= i < |ids| => Entry(ids[i], ids[i] in s.claims && s.claims[ids[i]].art.body.Some?))
  }

  ghost function LogHashes(s: State, log: LogId): seq<Entry> {
    EntriesOf(s, SortIds(ById(), LogIds(s, log)))
  }

  /** The whole store, in `(log, id)` order: a backup. */
  ghost function Events(s: State): seq<Artifact> {
    Artifacts(s, SortIds(ByLog(s), s.claims.Keys))
  }

  // ── Serving follows the arrival order ────────────────────────────────

  lemma {:induction false} TailAscends(s: State, log: LogId, order: seq<ClaimHash>, have: nat)
    requires Arrived(s, log, order) && have <= |order|
    ensures Ascending(ByArrival(s), order[have..])
    decreases |order| - have
  {
    hide LogLen;
    if have + 1 < |order| {
      assert InLog(s, log, order[have]) && InLog(s, log, order[have + 1]);
      assert order[have..][1..] == order[have + 1..];
      TailAscends(s, log, order, have + 1);
    }
  }

  /** With dense arrivals, what is past a cursor is the rest of the order. */
  lemma ServedInOrder(s: State, log: LogId, have: nat)
    requires Dense(s)
    ensures var order := Order(s, log);
            ServeSince(s, log, have) == Artifacts(s, if have <= |order| then order[have..] else [])
  {
    hide Dense, LogLen;
    var order := Order(s, log);
    var rest := if have <= |order| then order[have..] else [];
    if have <= |order| {
      TailAscends(s, log, order, have);
    }
    forall id
      ensures id in rest <==> id in Past(s, log, have)
    {
      if id in rest {
        var p :| 0 <= p < |rest| && rest[p] == id;
        assert id == order[have + p] && InLog(s, log, id);
      }
      if id in Past(s, log, have) {
        assert InLog(s, log, id);
        assert order[s.claims[id].arrival] == id;
        assert rest[s.claims[id].arrival - have] == id;
      }
    }
    SortIdsIs(ByArrival(s), Past(s, log, have), rest);
  }

  // ── Fingerprints ─────────────────────────────────────────────────────

  /**
   The inputs of the digests a fingerprint XORs together. Digests of distinct
   inputs are taken as independent, so XOR is symmetric difference of inputs.
   */
  datatype Token = ClaimToken(id: ClaimHash, hasBody: bool) | RedactionToken(target: ClaimHash, redactor: ClaimHash)

  type Print = set<Token>

  function Xor(a: Print, b: Print): Print { (a - b) + (b - a) }

  function ClaimTokens(s: State, ids: set<ClaimHash>): Print {
    set id | id in ids && id in s.claims :: ClaimToken(id, s.claims[id].art.body.Some?)
  }

  predicate RedactsInLog(s: State, log: LogId, target: ClaimHash) {
    target in s.redactions && s.redactions[target] in s.claims && s.claims[s.redactions[target]].art.log == log
  }

  function RedactionTokens(s: State, log: LogId, targets: set<ClaimHash>): Print {
    set t | t in targets && RedactsInLog(s, log, t) :: RedactionToken(t, s.redactions[t])
  }

  /** Which claims, which bodies, which redactions: what two equal prints agree on. */
  function Fingerprint(s: State, log: LogId): Print {
    ClaimTokens(s, LogIds(s, log)) + RedactionTokens(s, log, s.redactions.Keys)
  }

  lemma ClaimTokenMeans(s: State, log: LogId, id: ClaimHash, hasBody: bool)
    ensures ClaimToken(id, hasBody) in Fingerprint(s, log) <==>
            InLog(s, log, id) && hasBody == s.claims[id].art.body.Some?
  {
  }

  lemma RedactionTokenMeans(s: State, log: LogId, target: ClaimHash, redactor: ClaimHash)
    ensures RedactionToken(target, redactor) in Fingerprint(s, log) <==>
            RedactsInLog(s, log, target) && s.redactions[target] == redactor
  {
  }

  /** The log's part of the replicated state. */
  ghost predicate SameLog(s: State, s': State, log: LogId) {
    && (forall id :: InLog(s, log, id) <==> InLog(s', log, id))
    && (forall id | InLog(s, log, id) && InLog(s', log, id) :: Held(s, id) <==> Held(s', id))
    && (forall t :: RedactsInLog(s, log, t) <==> RedactsInLog(s', log, t))
    && (forall t | RedactsInLog(s, log, t) && RedactsInLog(s', log, t) :: s.redactions[t] == s'.redactions[t])
  }

  /** Fingerprints agree exactly when the log's replicated state does. */
  lemma FingerprintDecides(s: State, s': State, log: LogId)
    ensures Fingerprint(s, log) == Fingerprint(s', log) <==> SameLog(s, s', log)
  {
    if Fingerprint(s, log) == Fingerprint(s', log) {
      forall id
        ensures InLog(s, log, id) <==> InLog(s', log, id)
        ensures InLog(s, log, id) && InLog(s', log, id) ==> (Held(s, id) <==> Held(s', id))
      {
        hide Fingerprint;
        ClaimTokenMeans(s, log, id, true);
        ClaimTokenMeans(s, log, id, false);
        ClaimTokenMeans(s', log, id, true);
        ClaimTokenMeans(s', log, id, false);
      }
      forall t
        ensures RedactsInLog(s, log, t) <==> RedactsInLog(s', log, t)
        ensures RedactsInLog(s, log, t) && RedactsInLog(s', log, t) ==> s.redactions[t] == s'.redactions[t]
      {
        hide Fingerprint, RedactsInLog;
        if RedactsInLog(s, log, t) {
          RedactedAs(s, log, t);
          RedactionTokenMeans(s, log, t, s.redactions[t]);
          RedactionTokenMeans(s', log, t, s.redactions[t]);
        }
        if RedactsInLog(s', log, t) {
          RedactedAs(s', log, t);
          RedactionTokenMeans(s, log, t, s'.redactions[t]);
          RedactionTokenMeans(s', log, t, s'.redactions[t]);
        }
      }
    }
    if SameLog(s, s', log) {
      forall x
        ensures x in Fingerprint(s, log) <==> x in Fingerprint(s', log)
      {
        hide Fingerprint;
        match x {
          case ClaimToken(id, hasBody) =>
            ClaimTokenMeans(s, log, id, hasBody);
            ClaimTokenMeans(s', log, id, hasBody);
          case RedactionToken(t, r) =>
            RedactionTokenMeans(s, log, t, r);
            RedactionTokenMeans(s', log, t, r);
        }
      }
    }
  }

  lemma RedactedAs(s: State, log: LogId, t: ClaimHash)
    requires RedactsInLog(s, log, t)
    ensures t in s.redactions
  {
  }

  // ── The fsck ─────────────────────────────────────────────────────────

  datatype Problem =
    | FailsCheck(id: ClaimHash)
    | RedactedButHeld(id: ClaimHash)
    | RefsDisagree(id: ClaimHash)
    | BlobsDisagree(id: ClaimHash)
    | MissingBacklink(id: ClaimHash, target: ClaimHash)
    | MissingReferrer(id: ClaimHash, blob: BlobHash)
    | DuplicateArrival(log: LogId, arrival: nat)
    | PhantomBacklink(target: ClaimHash, source: ClaimHash)
    | PhantomReferrer(blob: BlobHash, source: ClaimHash)
    | Unbacked(target: ClaimHash, redactor: ClaimHash)

  /** The structural check of a row's event, which goes back to its bytes. */
  type RowCheck = Artifact -> bool

  /** Everything wrong with one row and its forward index. */
  function RowProblems(check: RowCheck, s: State, id: ClaimHash): set<Problem>
    requires id in s.claims
  {
    var row := s.claims[id];
    if !(row.art.id == id && check(row.art)) then {FailsCheck(id)}
    else
      (if row.art.body.Some? && id in s.redactions then {RedactedButHeld(id)} else {})
      + (if row.refs != RefsOf(row.art.body) then {RefsDisagree(id)} else {})
      + (if row.blobs != BlobsOf(row.art.body) then {BlobsDisagree(id)} else {})
      + (set t | t in row.refs && !Linked(s.backlinks, t, id) :: MissingBacklink(id, t))
      + (set b | b in row.blobs && !Linked(s.referrers, b, id) :: MissingReferrer(id, b))
  }

  function ArrivalProblems(s: State): set<Problem> {
    set id, id' | id in s.claims && id' in s.claims && id != id'
                  && s.claims[id].art.log == s.claims[id'].art.log && s.claims[id].arrival == s.claims[id'].arrival
      :: DuplicateArrival(s.claims[id].art.log, s.claims[id].arrival)
  }

  /** Index rows whose source has no such edge; a target nobody holds is no problem. */
  function BacklinkProblems(s: State): set<Problem> {
    set t, x | t in s.backlinks && x in s.backlinks[t] && !RowRefs(s, t, x) :: PhantomBacklink(t, x)
  }

  function ReferrerProblems(s: State): set<Problem> {
    set b, x | b in s.referrers && x in s.referrers[b] && !RowBlobs(s, b, x) :: PhantomReferrer(b, x)
  }

  predicate Backed(s: State, target: ClaimHash) {
    && target in s.redactions
    && s.redactions[target] in s.claims
    && Redacts(s.claims[s.redactions[target]].art) == Some(target)
  }

  function RedactionProblems(s: State): set<Problem> {
    set t | t in s.redactions && !Backed(s, t) :: Unbacked(t, s.redactions[t])
  }

  function Problems(check: RowCheck, s: State): set<Problem> {
    (set id, p | id in s.claims && p in RowProblems(check, s, id) :: p)
    + ArrivalProblems(s) + BacklinkProblems(s) + ReferrerProblems(s) + RedactionProblems(s)
  }

  /** Redact claims that are themselves redacted: the store keeps their bodies on purpose. */
  function RedactedRedactors(s: State): set<ClaimHash> {
    set id | id in s.claims && Redacts(s.claims[id].art).Some? && id in s.redactions
  }

  lemma SoundRow(w: World, seen: set<Artifact>, s: State, check: RowCheck, id: ClaimHash)
    requires Sound(w, seen, s) && id in s.claims && check(s.claims[id].art)
    ensures RowProblems(check, s, id) == if id in RedactedRedactors(s) then {RedactedButHeld(id)} else {}
  {
    hide Dense, WellKept, RedactorsOf, BodySeen;
    var row := s.claims[id];
    assert Held(s, id) ==> RedactClaim(w, id) || id !in s.redactions;
    assert Genuine(w, row.art);
    forall t | t in row.refs
      ensures Linked(s.backlinks, t, id)
    {
      assert RowRefs(s, t, id);
    }
    forall b | b in row.blobs
      ensures Linked(s.referrers, b, id)
    {
      assert RowBlobs(s, b, id);
    }
  }

  lemma SoundArrivals(w: World, seen: set<Artifact>, s: State)
    requires Sound(w, seen, s)
    ensures ArrivalProblems(s) == {}
  {
    hide Converged, Indexed, WellKept, Dense;
    forall id, id' | id in s.claims && id' in s.claims && s.claims[id].art.log == s.claims[id'].art.log
                     && s.claims[id].arrival == s.claims[id'].arrival
      ensures id == id'
    {
      var log := s.claims[id].art.log;
      var order := Order(s, log);
      assert InLog(s, log, id) && InLog(s, log, id');
    }
  }

  lemma SoundIndexes(w: World, seen: set<Artifact>, s: State)
    requires Sound(w, seen, s)
    ensures BacklinkProblems(s) == {} && ReferrerProblems(s) == {}
  {
    hide Converged, WellKept, Dense, RowRefs, RowBlobs;
    forall k, x
      ensures Linked(s.backlinks, k, x) ==> RowRefs(s, k, x)
      ensures Linked(s.referrers, k, x) ==> RowBlobs(s, k, x)
    {
    }
    assert forall t, x | t in s.backlinks && x in s.backlinks[t] :: Linked(s.backlinks, t, x);
    assert forall t, x | t in s.referrers && x in s.referrers[t] :: Linked(s.referrers, t, x);
  }

  /** A redactor is always held with its body: redact claims are never suppressed. */
  lemma SoundRedactors(w: World, seen: set<Artifact>, s: State, t: ClaimHash)
    requires Sound(w, seen, s) && (forall a | a in seen :: Genuine(w, a)) && t in s.redactions
    ensures Backed(s, t) && RedactClaim(w, s.redactions[t]) && Held(s, s.redactions[t])
  {
    hide Indexed, WellKept, Dense;
    var a :| a in seen && a.id == s.redactions[t] && Redacts(a) == Some(t);
    assert Genuine(w, a) && BodySeen(seen, a.id);
    assert Held(s, a.id);
  }

  /**
   On an ingest-only run whose events pass their check the fsck reports exactly the
   redact claims that are themselves redacted, as still holding a body.
   */
  lemma FsckIsExact(w: World, seen: set<Artifact>, s: State, check: RowCheck)
    requires Sound(w, seen, s) && (forall a | a in seen :: Genuine(w, a)) && forall id | id in s.claims ::
             check(s.claims[id].art)
    ensures Problems(check, s) == set id | id in RedactedRedactors(s) :: RedactedButHeld(id)
  {
    hide Sound, RowProblems, ArrivalProblems, BacklinkProblems, ReferrerProblems, Genuine, RedactTarget, Backed;
    SoundArrivals(w, seen, s);
    SoundIndexes(w, seen, s);
    forall t | t in s.redactions
      ensures Backed(s, t)
    {
      SoundRedactors(w, seen, s, t);
    }
    assert RedactionProblems(s) == {};
    forall id | id in s.claims
      ensures RowProblems(check, s, id) == if id in RedactedRedactors(s) then {RedactedButHeld(id)} else {}
    {
      SoundRow(w, seen, s, check, id);
    }
  }
}
