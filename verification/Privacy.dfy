/**
 What a peer that serves what it writes tells about the rest of what it holds: its
 answers depend on its own log alone, but for the acknowledgements of what others
 push at it, and those depend on exactly what it follows and what it misses.
 */
module Privacy {
  import opened Bytes
  import opened Rows
  import opened Ingest
  import opened Converge
  import opened Indexes
  import opened Health
  import opened Sorted
  import opened Queries
  import opened Protocol
  import opened Actors

  // ── Reads ────────────────────────────────────────────────────────────

  /** Two peers with the same pen that agree on their own log, whatever else they hold. */
  ghost predicate SameOwn(a: Actor, b: Actor) {
    && a.serve.Owned? && SameBearer(b, a)
    && (a.me.Some? ==>
          && LogIds(a.db, a.me.value) == LogIds(b.db, a.me.value)
          && (forall id | id in LogIds(a.db, a.me.value) :: a.db.claims[id] == b.db.claims[id])
          && SameLog(a.db, b.db, a.me.value))
  }

  lemma {:induction false} ArtifactsAlike(s: State, s': State, ids: seq<ClaimHash>)
    requires forall id | id in ids :: id in s.claims && id in s'.claims && s.claims[id] == s'.claims[id]
    ensures Artifacts(s, ids) == Artifacts(s', ids)
  {
    if ids != [] {
      assert ids[0] in ids;
      ArtifactsAlike(s, s', ids[1..]);
    }
  }

  lemma ServedAlike(s: State, s': State, log: LogId, have: nat)
    requires LogIds(s, log) == LogIds(s', log) && forall id | id in LogIds(s, log) :: s.claims[id] == s'.claims[id]
    ensures ServeSince(s, log, have) == ServeSince(s', log, have)
  {
    var ids := Past(s, log, have);
    assert ids == Past(s', log, have);
    SortIdsAlike(ByArrival(s), ByArrival(s'), ids);
    SortIdsLists(ByArrival(s), ids);
    ArtifactsAlike(s, s', SortIds(ByArrival(s), ids));
  }

  lemma HashesAlike(s: State, s': State, log: LogId)
    requires LogIds(s, log) == LogIds(s', log) && forall id | id in LogIds(s, log) :: s.claims[id] == s'.claims[id]
    ensures LogHashes(s, log) == LogHashes(s', log)
  {
    var ids := SortIds(ById(), LogIds(s, log));
    SortIdsLists(ById(), LogIds(s, log));
    forall i | 0 <= i < |ids|
      ensures EntriesOf(s, ids)[i] == EntriesOf(s', ids)[i]
    {
      assert ids[i] in ids;
    }
  }

  lemma {:induction false} RowsAlike(a: Actor, b: Actor, ids: seq<ClaimHash>)
    requires SameOwn(a, b)
    ensures ServedRows(a, ids) == ServedRows(b, ids)
  {
    hide SameLog;
    if ids != [] {
      RowsAlike(a, b, ids[1..]);
      if a.me.Some? {
        assert ids[0] in LogIds(a.db, a.me.value) <==> ids[0] in LogIds(b.db, a.me.value);
      }
    }
  }

  /** Reads about claims. */
  predicate IsRead(r: Request) { r.AskStatus? || r.AskSince? || r.AskHashes? || r.AskClaims? }

  lemma ReadsAlike(a: Actor, b: Actor, now: int, r: Request)
    requires SameOwn(a, b) && IsRead(r)
    ensures RespondScoped(a, now, r).response == RespondScoped(b, now, r).response
  {
    hide ServeSince, LogHashes, Fingerprint, SortIds, SameLog;
    match r
    case AskStatus(log) =>
      if Serves(a, log) { FingerprintDecides(a.db, b.db, log); }
    case AskSince(log, have, _) =>
      if Serves(a, log) { ServedAlike(a.db, b.db, log, have); }
    case AskHashes(log) =>
      if Serves(a, log) { HashesAlike(a.db, b.db, log); }
    case AskClaims(ids) => RowsAlike(a, b, ids);
    case _ =>
  }

  // ── Media ────────────────────────────────────────────────────────────

  /** A claim of the peer's own log refers to the blob. */
  ghost predicate OwnMedia(a: Actor, blob: BlobHash) {
    a.me.Some? && exists id :: id in LogIds(a.db, a.me.value) && blob in a.db.claims[id].blobs
  }

  /** If the own log refers to the blob, both hold the same bytes of it or none. */
  ghost predicate SameMedia(a: Actor, b: Actor, blob: BlobHash) {
    OwnMedia(a, blob) ==>
      (blob in a.blobs <==> blob in b.blobs) && (blob in a.blobs && blob in b.blobs ==> a.blobs[blob] == b.blobs[blob])
  }

  lemma ReferredByOwn(a: Actor, blob: BlobHash)
    requires a.serve.Owned? && Indexed(a.db)
    ensures (exists log :: log in ReferrerLogs(a.db, blob) && Serves(a, log)) <==> OwnMedia(a, blob)
  {
    hide RowRefs;
    if OwnMedia(a, blob) {
      var id :| id in LogIds(a.db, a.me.value) && blob in a.db.claims[id].blobs;
      assert RowBlobs(a.db, blob, id) && Linked(a.db.referrers, blob, id);
      assert a.me.value in ReferrerLogs(a.db, blob) && Serves(a, a.me.value);
    }
    if log :| log in ReferrerLogs(a.db, blob) && Serves(a, log) {
      var id :| id in a.db.claims && Linked(a.db.referrers, blob, id) && a.db.claims[id].art.log == log;
      assert RowBlobs(a.db, blob, id) && id in LogIds(a.db, a.me.value);
    }
  }

  lemma OwnMediaAlike(a: Actor, b: Actor, blob: BlobHash)
    requires SameOwn(a, b)
    ensures OwnMedia(a, blob) <==> OwnMedia(b, blob)
  {
    hide SameLog;
  }

  lemma BlobsAlike(a: Actor, b: Actor, now: int, blob: BlobHash)
    requires SameOwn(a, b) && Indexed(a.db) && Indexed(b.db)
    ensures RespondScoped(a, now, GetBlob(blob)).response == RespondScoped(b, now, GetBlob(blob)).response
            <==> SameMedia(a, b, blob)
  {
    ReferredByOwn(a, blob);
    ReferredByOwn(b, blob);
    OwnMediaAlike(a, b, blob);
    hide Indexed, SameOwn, OwnMedia, ReferrerLogs;
  }

  // ── What is news to a store ──────────────────────────────────────────

  /** Nothing more of the claim can be taken in: its body is here, or redacted for good. */
  ghost predicate Complete(w: World, s: State, id: ClaimHash) {
    Held(s, id) || (id in s.redactions && !RedactClaim(w, id))
  }

  /** An artifact that is no news: the claim is here, and so is all the artifact has of it. */
  ghost predicate Stale(w: World, s: State, x: Artifact) {
    x.id in s.claims && (x.body.None? || Complete(w, s, x.id))
  }

  /** The redaction an artifact carries never changes whether it is news itself. */
  lemma NewsMeans(w: World, s: State, x: Artifact)
    requires Healthy(w, s) && Genuine(w, x) && Redacts(x) != Some(x.id)
    ensures Protocol.News(s, Checked(x)) == if Stale(w, s, x) then 0 else 1
  {
    hide AllGenuine, Explained, Indexed, Dense, NoEmptySets, Without, AfterRedaction;
    RedactionEffect(s, x);
    GenuineRedacts(w, x);
    assert Held(AfterRedaction(s, x), x.id) <==> Held(s, x.id);
  }

  /** What one artifact makes of every claim. */
  lemma IngestCompletes(w: World, s: State, x: Artifact, now: int, id: ClaimHash)
    requires Healthy(w, s) && Genuine(w, x)
    ensures var s' := Ingested(s, x, now);
            && Healthy(w, s') && (id in s'.claims <==> id in s.claims || id == x.id)
            && (Complete(w, s', id) <==>
                  || Complete(w, s, id) || (id == x.id && x.body.Some?)
                  || (Redacts(x) == Some(id) && !RedactClaim(w, id)))
  {
    hide Ingested, WellKept, AllGenuine, Explained, Indexed, Dense, RedactClaim, Genuine;
    Absorb(w, s, x, now);
    var s' := Ingested(s, x, now);
    assert Held(s', id) <==>
      (Held(s, id) || (id == x.id && x.body.Some?)) && (RedactClaim(w, id) || id !in s'.redactions);
  }

  // ── Publishing ───────────────────────────────────────────────────────

  type Logs = LogId -> bool

  /** The two accept pushes of a log alike, and of what they accept the same is news. */
  ghost predicate Alike(w: World, a: Actor, b: Actor, s: State, s': State, logs: Logs) {
    && (forall log | logs(log) :: Accepts(a, log) <==> Accepts(b, log))
    && (forall id | logs(w(id).log) && Accepts(a, w(id).log) ::
          (id in s.claims <==> id in s'.claims) && (Complete(w, s, id) <==> Complete(w, s', id)))
  }

  /** An event content addressing allows: no claim names its own hash. */
  ghost predicate Honest(w: World, e: Event) {
    e.Checked? ==> Genuine(w, e.art) && Redacts(e.art) != Some(e.art.id)
  }

  /** Every readable event is of these logs. */
  ghost predicate Confined(w: World, events: seq<Event>, logs: Logs) {
    forall k | 0 <= k < |events| :: Honest(w, events[k])
      && (HeaderLog(events[k]).Some? ==> logs(HeaderLog(events[k]).value))
  }

  ghost predicate AcceptedAlike(w: World, a: Actor, b: Actor, i: Acceptance, i': Acceptance, logs: Logs) {
    && Healthy(w, i.db) && Healthy(w, i'.db) && Alike(w, a, b, i.db, i'.db, logs)
    && i.stored == i'.stored && i.rejected == i'.rejected
  }

  lemma AlikeStays(w: World, a: Actor, b: Actor, s: State, s': State, logs: Logs, x: Artifact, now: int)
    requires Healthy(w, s) && Healthy(w, s') && Alike(w, a, b, s, s', logs) && Genuine(w, x)
    ensures Healthy(w, Ingested(s, x, now)) && Healthy(w, Ingested(s', x, now))
    ensures Alike(w, a, b, Ingested(s, x, now), Ingested(s', x, now), logs)
  {
    hide Healthy, Complete, Genuine, Ingested, RedactClaim, Accepts;
    IngestCompletes(w, s, x, now, x.id);
    IngestCompletes(w, s', x, now, x.id);
    forall id | logs(w(id).log) && Accepts(a, w(id).log)
      ensures id in Ingested(s, x, now).claims <==> id in Ingested(s', x, now).claims
      ensures Complete(w, Ingested(s, x, now), id) <==> Complete(w, Ingested(s', x, now), id)
    {
      IngestCompletes(w, s, x, now, id);
      IngestCompletes(w, s', x, now, id);
    }
  }

  lemma TakenAlike(w: World, a: Actor, b: Actor, i: Acceptance, i': Acceptance, logs: Logs, x: Artifact, now: int)
    requires AcceptedAlike(w, a, b, i, i', logs) && Honest(w, Checked(x)) && logs(x.log) && Accepts(a, x.log)
    ensures AcceptedAlike(w, a, b, AcceptOne(a, i, Checked(x), now), AcceptOne(b, i', Checked(x), now), logs)
  {
    hide Healthy, Complete, Genuine, Ingested, ReportOf, RedactTarget, Accepts, AcceptOne;
    GenuineLog(w, x);
    assert Accepts(b, x.log);
    assert Stale(w, i.db, x) <==> Stale(w, i'.db, x);
    hide Stale, Alike;
    CheckedTells(w, a, i, x, now);
    CheckedTells(w, b, i', x, now);
    AlikeStays(w, a, b, i.db, i'.db, logs, x, now);
  }

  lemma AcceptOneAlike(w: World, a: Actor, b: Actor, i: Acceptance, i': Acceptance, logs: Logs, e: Event, now: int)
    requires AcceptedAlike(w, a, b, i, i', logs) && Confined(w, [e], logs)
    ensures AcceptedAlike(w, a, b, AcceptOne(a, i, e, now), AcceptOne(b, i', e, now), logs)
  {
    assert Honest(w, [e][0]) && (HeaderLog(e).Some? ==> logs(HeaderLog([e][0]).value));
    if HeaderLog(e).Some? {
      assert Accepts(a, HeaderLog(e).value) <==> Accepts(b, HeaderLog(e).value);
    }
    hide Healthy, Alike, Genuine, Ingested, ReportOf, RedactTarget, Accepts;
    if e.Checked? && Accepts(a, e.art.log) {
      hide AcceptedAlike, AcceptOne;
      TakenAlike(w, a, b, i, i', logs, e.art, now);
    }
  }

  lemma GenuineLog(w: World, x: Artifact)
    requires Genuine(w, x)
    ensures w(x.id).log == x.log
  {
  }

  lemma {:induction false} AcceptEachAlike(w: World, a: Actor, b: Actor, i: Acceptance, i': Acceptance, logs: Logs,
                                           events: seq<Event>, now: int)
    requires AcceptedAlike(w, a, b, i, i', logs) && Confined(w, events, logs)
    ensures AcceptedAlike(w, a, b, AcceptEach(a, i, events, now), AcceptEach(b, i', events, now), logs)
    decreases |events|
  {
    hide AcceptedAlike, AcceptOne, Honest;
    if events != [] {
      assert Confined(w, [events[0]], logs);
      AcceptOneAlike(w, a, b, i, i', logs, events[0], now);
      AcceptEachAlike(w, a, b, AcceptOne(a, i, events[0], now), AcceptOne(b, i', events[0], now), logs, events[1..],
        now);
    }
  }

  ghost function AckTo(a: Actor, now: int, events: seq<Event>): Response {
    RespondScoped(a, now, Publish(events)).response
  }

  lemma PushesAlike(w: World, a: Actor, b: Actor, logs: Logs, now: int, events: seq<Event>)
    requires Healthy(w, a.db) && Healthy(w, b.db) && Alike(w, a, b, a.db, b.db, logs) && Confined(w, events, logs)
    ensures AckTo(a, now, events) == AckTo(b, now, events)
  {
    hide Healthy, Alike, Confined;
    AcceptEachAlike(w, a, b, Acceptance(a.db, 0, 0, map[]), Acceptance(b.db, 0, 0, map[]), logs, events, now);
  }

  // ── What a push finds out ────────────────────────────────────────────

  /** The claim of an id, without its body and with it. */
  function Bare(w: World, id: ClaimHash): Artifact { Artifact(id, w(id).log, w(id).header, [], None) }

  function Full(w: World, id: ClaimHash): Artifact { Bare(w, id).(body := Some(w(id).body)) }

  /** No claim redacts itself: it would have to name a hash of its own body. */
  ghost predicate NoSelfNaming(w: World) { forall id: ClaimHash :: Redacts(Full(w, id)) != Some(id) }

  lemma ProbesAreConfined(w: World, id: ClaimHash, logs: Logs)
    requires NoSelfNaming(w) && logs(w(id).log)
    ensures Confined(w, [BadBody(id, w(id).log)], logs) && Confined(w, [Checked(Bare(w, id))], logs)
    ensures Confined(w, [Checked(Bare(w, id)), Checked(Full(w, id))], logs)
  {
    assert Redacts(Full(w, id)) != Some(id);
    hide RedactTarget;
    assert Genuine(w, Bare(w, id)) && Genuine(w, Full(w, id))
           && Redacts(Bare(w, id)) == None by { BareRedactsNothing(w, id); }
  }

  lemma BareRedactsNothing(w: World, id: ClaimHash)
    ensures Redacts(Bare(w, id)) == None && Genuine(w, Bare(w, id)) && Genuine(w, Full(w, id))
  {
  }

  /** A damaged event tells whether its log is accepted. */
  lemma DamagedTells(a: Actor, now: int, id: ClaimHash, log: LogId)
    ensures AckTo(a, now, [BadBody(id, log)]) == Ack(0, if Accepts(a, log) then 1 else 0)
  {
    var i := Acceptance(a.db, 0, 0, map[]);
    assert AcceptEach(a, i, [BadBody(id, log)], now) == AcceptOne(a, i, BadBody(id, log), now) by {
      assert [BadBody(id, log)][1..] == [];
    }
  }

  /** One event of an accepted log, answered by whether it is news. */
  lemma CheckedTells(w: World, a: Actor, i: Acceptance, x: Artifact, now: int)
    requires Healthy(w, i.db) && Genuine(w, x) && Redacts(x) != Some(x.id) && Accepts(a, x.log)
    ensures var i' := AcceptOne(a, i, Checked(x), now);
            i'.db == Ingested(i.db, x, now) && i'.rejected == i.rejected && i'.stored == i.stored + if Stale(w, i.db, x)
              then 0 else 1
  {
    hide Healthy, Genuine, Ingested, ReportOf, Stale, RedactTarget;
    NewsMeans(w, i.db, x);
  }

  lemma OneAfterTheOther(a: Actor, i: Acceptance, e: Event, f: Event, now: int)
    ensures AcceptEach(a, i, [e], now) == AcceptOne(a, i, e, now)
    ensures AcceptEach(a, i, [e, f], now) == AcceptOne(a, AcceptOne(a, i, e, now), f, now)
  {
    hide AcceptOne;
    assert [e][1..] == [] && [e, f][1..] == [f] && [f][1..] == [];
    assert AcceptEach(a, i, [e], now) == AcceptOne(a, i, e, now);
    var i1 := AcceptOne(a, i, e, now);
    assert AcceptEach(a, i1, [f], now) == AcceptOne(a, i1, f, now);
  }

  lemma BareThenFull(w: World, a: Actor, i: Acceptance, now: int, id: ClaimHash)
    requires Healthy(w, i.db) && NoSelfNaming(w) && Accepts(a, w(id).log)
    ensures var seen := if id in i.db.claims then 0 else 1;
            var i1 := AcceptOne(a, i, Checked(Bare(w, id)), now);
            var i2 := AcceptOne(a, i1, Checked(Full(w, id)), now);
            && i1.stored == i.stored + seen && i1.rejected == i.rejected
            && i2.stored == i1.stored + (if Complete(w, i.db, id) then 0 else 1) && i2.rejected == i1.rejected
  {
    assert Redacts(Full(w, id)) != Some(id);
    BareRedactsNothing(w, id);
    hide Healthy, Genuine, Ingested, Complete, RedactTarget, RedactClaim, Accepts, AcceptOne, NoSelfNaming;
    CheckedTells(w, a, i, Bare(w, id), now);
    IngestCompletes(w, i.db, Bare(w, id), now, id);
    CheckedTells(w, a, AcceptOne(a, i, Checked(Bare(w, id)), now), Full(w, id), now);
  }

  /** A claim pushed bare, then whole, tells whether it is held and whether it is complete. */
  lemma ClaimTells(w: World, a: Actor, now: int, id: ClaimHash)
    requires Healthy(w, a.db) && NoSelfNaming(w) && Accepts(a, w(id).log)
    ensures var seen := if id in a.db.claims then 0 else 1;
            && AckTo(a, now, [Checked(Bare(w, id))]) == Ack(seen, 0)
            && AckTo(a, now, [Checked(Bare(w, id)), Checked(Full(w, id))]) ==
               Ack(seen + if Complete(w, a.db, id) then 0 else 1, 0)
  {
    hide Healthy, NoSelfNaming, Complete, Accepts, AcceptOne, AcceptEach, Bare, Full;
    var i := Acceptance(a.db, 0, 0, map[]);
    BareThenFull(w, a, i, now, id);
    OneAfterTheOther(a, i, Checked(Bare(w, id)), Checked(Full(w, id)), now);
  }

  /** Declined in silence: an event of a log not accepted is acknowledged as nothing. */
  lemma DeclinedTells(a: Actor, now: int, x: Artifact)
    requires !Accepts(a, x.log)
    ensures AckTo(a, now, [Checked(x)]) == Ack(0, 0)
  {
    OneAfterTheOther(a, Acceptance(a.db, 0, 0, map[]), Checked(x), Checked(x), now);
    hide Accepts, AcceptEach;
  }

  /** One event alone: answered as nothing when its log is not accepted or it is no news. */
  lemma SilenceMeans(w: World, a: Actor, now: int, x: Artifact)
    requires Healthy(w, a.db) && Genuine(w, x) && Redacts(x) != Some(x.id)
    ensures AckTo(a, now, [Checked(x)]) == if Accepts(a, x.log) && !Stale(w, a.db, x) then Ack(1, 0) else Ack(0, 0)
  {
    hide Healthy, Genuine, Stale, Accepts, AcceptOne, AcceptEach, RedactTarget;
    var i := Acceptance(a.db, 0, 0, map[]);
    OneAfterTheOther(a, i, Checked(x), Checked(x), now);
    if Accepts(a, x.log) {
      CheckedTells(w, a, i, x, now);
    } else {
      DeclinedTells(a, now, x);
    }
  }

  /**
   An event of a log one peer accepts and the other does not is acknowledged alike
   exactly when the first has all of it already; of a log both accept, exactly when
   both have all of it or neither does.
   */
  lemma AcksTellFollowing(w: World, a: Actor, b: Actor, now: int, x: Artifact)
    requires Healthy(w, a.db) && Healthy(w, b.db) && Genuine(w, x) && Redacts(x) != Some(x.id)
    ensures Accepts(a, x.log) && !Accepts(b, x.log) ==>
              (AckTo(a, now, [Checked(x)]) == AckTo(b, now, [Checked(x)]) <==> Stale(w, a.db, x))
    ensures Accepts(a, x.log) && Accepts(b, x.log) ==>
              (AckTo(a, now, [Checked(x)]) == AckTo(b, now, [Checked(x)]) <==>
                (Stale(w, a.db, x) <==> Stale(w, b.db, x)))
  {
    hide Healthy, Genuine, Stale, Accepts, RedactTarget;
    SilenceMeans(w, a, now, x);
    SilenceMeans(w, b, now, x);
  }

  ghost predicate AnswerAlike(w: World, a: Actor, b: Actor, now: int, logs: Logs) {
    forall events | Confined(w, events, logs) :: AckTo(a, now, events) == AckTo(b, now, events)
  }

  lemma AnswersShowAcceptance(w: World, a: Actor, b: Actor, now: int, logs: Logs, log: LogId, id: ClaimHash)
    requires AnswerAlike(w, a, b, now, logs) && logs(log)
    ensures Accepts(a, log) <==> Accepts(b, log)
  {
    hide Accepts;
    assert Honest(w, BadBody(id, log)) && Confined(w, [BadBody(id, log)], logs);
    DamagedTells(a, now, id, log);
    DamagedTells(b, now, id, log);
  }

  lemma AnswersShowClaims(w: World, a: Actor, b: Actor, now: int, logs: Logs, id: ClaimHash)
    requires Healthy(w, a.db) && Healthy(w, b.db) && NoSelfNaming(w) && AnswerAlike(w, a, b, now, logs)
    requires logs(w(id).log) && Accepts(a, w(id).log)
    ensures id in a.db.claims <==> id in b.db.claims
    ensures Complete(w, a.db, id) <==> Complete(w, b.db, id)
  {
    hide Healthy, NoSelfNaming, Complete, Accepts, Confined, AckTo;
    ProbesAreConfined(w, id, logs);
    AnswersShowAcceptance(w, a, b, now, logs, w(id).log, id);
    ClaimTells(w, a, now, id);
    ClaimTells(w, b, now, id);
  }

  /**
   What acknowledgements tell, exactly: two peers answer every push of some logs alike
   if and only if they accept the same of those logs and, of each they accept, hold the
   same claims and want for the same bodies, those neither held nor redacted for good.
   */
  lemma PushesTell(w: World, a: Actor, b: Actor, now: int, logs: Logs)
    requires Healthy(w, a.db) && Healthy(w, b.db) && NoSelfNaming(w)
    ensures AnswerAlike(w, a, b, now, logs) <==> Alike(w, a, b, a.db, b.db, logs)
  {
    hide Healthy, NoSelfNaming, Complete, Accepts, Confined, AckTo;
    if Alike(w, a, b, a.db, b.db, logs) {
      forall events | Confined(w, events, logs)
        ensures AckTo(a, now, events) == AckTo(b, now, events)
      {
        PushesAlike(w, a, b, logs, now, events);
      }
    }
    if AnswerAlike(w, a, b, now, logs) {
      forall log | logs(log)
        ensures Accepts(a, log) <==> Accepts(b, log)
      {
        AnswersShowAcceptance(w, a, b, now, logs, log, 0);
      }
      forall id | logs(w(id).log) && Accepts(a, w(id).log)
        ensures id in a.db.claims <==> id in b.db.claims
        ensures Complete(w, a.db, id) <==> Complete(w, b.db, id)
      {
        AnswersShowClaims(w, a, b, now, logs, id);
      }
    }
  }

  // ── What the answers tell ────────────────────────────────────────────

  /** They also agree on which of their own claims are redacted. */
  ghost predicate SameOwnRedacted(w: World, a: Actor, b: Actor) {
    forall id | Some(w(id).log) == a.me :: id in a.db.redactions <==> id in b.db.redactions
  }

  /** The own log, and logs neither follows. */
  function Indifferent(a: Actor, b: Actor): Logs {
    log => Some(log) == a.me || (log !in a.follows && log !in b.follows)
  }

  lemma OwnAreAlike(w: World, a: Actor, b: Actor)
    requires SameOwn(a, b) && SameOwnRedacted(w, a, b) && AllGenuine(w, a.db) && AllGenuine(w, b.db)
    ensures Alike(w, a, b, a.db, b.db, Indifferent(a, b))
  {
    hide SameLog, RedactClaim;
    forall id | Some(w(id).log) == a.me
      ensures id in a.db.claims <==> id in b.db.claims
      ensures id in a.db.claims ==> a.db.claims[id] == b.db.claims[id]
    {
      assert id in a.db.claims <==> id in LogIds(a.db, a.me.value);
      assert id in b.db.claims <==> id in LogIds(b.db, a.me.value);
    }
  }

  /** When two peers that agree on their own log must answer a request alike. */
  ghost predicate OwnMatter(w: World, a: Actor, b: Actor, r: Request) {
    match r
    case GetBlob(hash) => SameMedia(a, b, hash)
    case PutBlob(hash, _) => WantsBlob(a, hash) == WantsBlob(b, hash)
    case Publish(events) => SameOwnRedacted(w, a, b) && Confined(w, events, Indifferent(a, b))
    case _ => true
  }

  /**
   Two peers that agree on their own log, whatever else they hold: every read is
   answered alike; a blob asked for exactly when it is none of their own log's or they
   hold it alike; a blob offered exactly when both miss it or neither does; and every
   push of the own log, or of logs neither follows.
   */
  lemma AnswersTellOnlyOwnLog(w: World, a: Actor, b: Actor, now: int, r: Request)
    requires SameOwn(a, b) && Healthy(w, a.db) && Healthy(w, b.db)
    ensures OwnMatter(w, a, b, r) ==> RespondScoped(a, now, r).response == RespondScoped(b, now, r).response
    ensures !r.Publish? && RespondScoped(a, now, r).response == RespondScoped(b, now, r).response ==>
            OwnMatter(w, a, b, r)
  {
    assert Indexed(a.db) && Indexed(b.db) && AllGenuine(w, a.db) && AllGenuine(w, b.db);
    hide SameOwn, SameMedia, SameOwnRedacted, Healthy, Indexed, AllGenuine, WantsBlob, Confined, Alike;
    if IsRead(r) {
      ReadsAlike(a, b, now, r);
    } else if r.GetBlob? {
      BlobsAlike(a, b, now, r.hash);
    } else if r.Publish? && OwnMatter(w, a, b, r) {
      OwnAreAlike(w, a, b);
      PushesAlike(w, a, b, Indifferent(a, b), now, r.events);
    }
  }

  // ── Peers told apart ─────────────────────────────────────────────────

  const STRANGER: LogId := 7

  /** A peer with nothing to write. */
  function Reader(db: State, follows: map<LogId, set<PipeId>>): Actor {
    Actor(db, map[], map[], 0, None, Owned, map[], follows, 0, [], 0)
  }

  const FOLLOWING: map<LogId, set<PipeId>> := map[STRANGER := {0}]

  /** A world of one log whose claims have bodies that refer to one blob. */
  function Pictures(): World { _ => Content(STRANGER, [], Body([], None, [], [3], 0)) }

  lemma PicturesNameNothing()
    ensures NoSelfNaming(Pictures())
  {
  }

  lemma NothingHeld(w: World, id: ClaimHash)
    ensures Healthy(w, EMPTY) && !Complete(w, EMPTY, id)
  {
    hide Healthy;
    ReplayIsHealthy(w, []);
  }

  lemma OneHeld(w: World, id: ClaimHash)
    ensures Healthy(w, Ingested(EMPTY, Full(w, id), 0))
    ensures id in Ingested(EMPTY, Full(w, id), 0).claims && Complete(w, Ingested(EMPTY, Full(w, id), 0), id)
  {
    hide Healthy, Ingested, Complete;
    NothingHeld(w, id);
    BareRedactsNothing(w, id);
    IngestCompletes(w, EMPTY, Full(w, id), 0, id);
  }

  /**
   Two readers with the same empty own log, one following a stranger's log: a fresh
   event of it is acknowledged by one and not by the other.
   */
  lemma PushTellsFollowing(now: int) returns (w: World, a: Actor, b: Actor, x: Artifact)
    ensures SameOwn(a, b) && Healthy(w, a.db) && Healthy(w, b.db) && Genuine(w, x) && a.db == b.db
    ensures Some(x.log) != a.me && x.log in a.follows && x.log !in b.follows
    ensures AckTo(a, now, [Checked(x)]) == Ack(1, 0) && AckTo(b, now, [Checked(x)]) == Ack(0, 0)
  {
    hide Healthy, Complete;
    w, a, b := Pictures(), Reader(EMPTY, FOLLOWING), Reader(EMPTY, map[]);
    x := Bare(w, 1);
    PicturesNameNothing();
    NothingHeld(w, 1);
    ClaimTells(w, a, now, 1);
    DeclinedTells(b, now, x);
  }

  /** Two readers that both follow it: the one that merged the claim answers otherwise. */
  lemma PushTellsMerged(now: int) returns (w: World, a: Actor, b: Actor, x: Artifact)
    ensures SameOwn(a, b) && Healthy(w, a.db) && Healthy(w, b.db) && Genuine(w, x) && a.follows == b.follows
    ensures Some(x.log) != a.me && x.id !in a.db.claims && x.id in b.db.claims
    ensures AckTo(a, now, [Checked(x)]) == Ack(1, 0) && AckTo(b, now, [Checked(x)]) == Ack(0, 0)
  {
    hide Healthy, Complete, Ingested;
    w := Pictures();
    a, b := Reader(EMPTY, FOLLOWING), Reader(Ingested(EMPTY, Full(w, 1), 0), FOLLOWING);
    x := Bare(w, 1);
    PicturesNameNothing();
    NothingHeld(w, 1);
    OneHeld(w, 1);
    ClaimTells(w, a, now, 1);
    ClaimTells(w, b, now, 1);
  }

  lemma WantedIsTaken(a: Actor, now: int, blob: BlobHash, bytes: Bytes)
    ensures RespondScoped(a, now, PutBlob(blob, bytes)).response == Ack(if WantsBlob(a, blob) then 1 else 0, 0)
  {
    hide WantsBlob, NewsByLog;
  }

  lemma MergedWants(w: World)
    requires w == Pictures()
    ensures WantsBlob(Reader(Ingested(EMPTY, Full(w, 1), 0), map[]), 3) && !WantsBlob(Reader(EMPTY, map[]), 3)
  {
    hide Ingested, WellKept, Explained, Dense, Complete;
    var db := Ingested(EMPTY, Full(w, 1), 0);
    OneHeld(w, 1);
    HeldUnredacted(w);
    assert Indexed(db) && AllGenuine(w, db);
    assert db.claims[1].art.body.value == w(1).body;
    assert 3 in db.claims[1].blobs;
  }

  /** A reader that merged a claim takes the blob it refers to; one that did not declines it. */
  lemma OfferTellsMerged(now: int, bytes: Bytes) returns (w: World, a: Actor, b: Actor, blob: BlobHash)
    ensures SameOwn(a, b) && Healthy(w, a.db) && Healthy(w, b.db) && a.follows == b.follows
    ensures RespondScoped(a, now, PutBlob(blob, bytes)).response == Ack(1, 0)
    ensures RespondScoped(b, now, PutBlob(blob, bytes)).response == Ack(0, 0)
  {
    hide Healthy, Complete, Ingested, WantsBlob, Full;
    w, blob := Pictures(), 3;
    a, b := Reader(Ingested(EMPTY, Full(w, 1), 0), map[]), Reader(EMPTY, map[]);
    NothingHeld(w, 1);
    OneHeld(w, 1);
    MergedWants(w);
    hide RespondScoped;
    WantedIsTaken(a, now, blob, bytes);
    WantedIsTaken(b, now, blob, bytes);
  }

  lemma HeldUnredacted(w: World)
    requires w == Pictures()
    ensures Held(Ingested(EMPTY, Full(w, 1), 0), 1)
  {
    hide Ingested, WellKept, AllGenuine, Explained, Indexed, Dense;
    NothingHeld(w, 1);
    Absorb(w, EMPTY, Full(w, 1), 0);
  }

  /** A log out of scope is answered exactly as one nothing is held of. */
  lemma UnservedLooksEmpty(a: Actor, now: int, r: Request, log: LogId)
    requires !Serves(a, log) && (r == AskStatus(log) || r == AskHashes(log) || (r.AskSince? && r.log == log))
    ensures RespondScoped(a, now, r).response == Respond(EMPTY, a.instance, now, a.blobs, r)
  {
    assert LogIds(EMPTY, log) == {};
    if r.AskSince? {
      assert Past(EMPTY, log, r.have) == {};
    }
  }
}
