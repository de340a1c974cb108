/** The server half over a store it changes in place: answer one request. */
module Responding {
  import opened Bytes
  import opened Rows
  import opened Ingest
  import opened Queries
  import opened Protocol
  import opened Shapes
  import opened ClaimStores

  lemma AcceptNext(s: State, events: seq<Event>, i: nat, now: int)
    requires i < |events|
    ensures AcceptAll(s, events[i..], now) == AcceptAll(Accepted(s, events[i], now), events[i + 1..], now)
    ensures var rest := AckOf(Accepted(s, events[i], now), events[i + 1..], now);
            rest.Ack? && AckOf(s, events[i..], now) ==
              Ack(rest.stored + News(s, events[i]), rest.rejected + if events[i].Checked? then 0 else 1)
  {
    hide News, Accepted;
    assert events[i..][0] == events[i] && events[i..][1..] == events[i + 1..];
    AcksAreAcks(Accepted(s, events[i], now), events[i + 1..], now);
  }

  /** Published events, one by one: what fails its check is counted and dropped. */
  method AcceptPublished(db: ClaimStore, events: seq<Event>, now: int) returns (answer: Response)
    requires db.Valid()
    modifies db`poisoned, db.storage
    ensures db.Valid() && db.View() == AcceptAll(old(db.View()), events, now)
            && answer == AckOf(old(db.View()), events, now)
  {
    hide Accepted, ReportOf;
    var stored: nat, rejected: nat := 0, 0;
    AcksAreAcks(db.View(), events, now);
    assert events[0..] == events;
    for i := 0 to |events|
      invariant db.Valid() && AcceptAll(db.View(), events[i..], now) == AcceptAll(old(db.View()), events, now)
      invariant AckOf(db.View(), events[i..], now).Ack?
      invariant var rest := AckOf(db.View(), events[i..], now);
                AckOf(old(db.View()), events, now) == Ack(stored + rest.stored, rejected + rest.rejected)
    {
      AcceptNext(db.View(), events, i, now);
      var report := db.IngestAt(events[i], now);
      if report.Some? {
        stored := stored + (if report.value.newlyStored.Some? then 1 else 0) + report.value.bodiesAttached;
      } else {
        rejected := rejected + 1;
      }
    }
    assert events[|events|..] == [];
    answer := Ack(stored, rejected);
  }

  method Held(db: ClaimStore, ids: seq<ClaimHash>) returns (arts: seq<Artifact>)
    requires db.Valid()
    ensures arts == Artifacts(db.View(), ids)
  {
    arts := [];
    for i := 0 to |ids|
      invariant arts + Artifacts(db.View(), ids[i..]) == Artifacts(db.View(), ids)
    {
      assert ids[i..][1..] == ids[i + 1..];
      if ids[i] in db.storage.claims {
        arts := arts + [db.storage.claims[ids[i]].art];
      }
    }
    assert Artifacts(db.View(), ids[|ids|..]) == [];
  }

  /** Every answer is computed fresh from the store; only a publish changes it. */
  method Answer(db: ClaimStore, instance: InstanceId, now: int, blobs: map<BlobHash, Bytes>,
                r: Request) returns (answer: Response)
    requires db.Valid()
    modifies db`poisoned, db.storage
    ensures db.Valid() && db.View() == Served(old(db.View()), now, r)
    ensures answer == Respond(old(db.View()), instance, now, blobs, r)
  {
    match r {
      case AskStatus(log) =>
        var count := db.CountLog(log);
        var fp := db.Fingerprint(log);
        answer := Status(count, fp, instance);
      case AskSince(log, have, max) =>
        var arts := db.ServeSince(log, have);
        answer := Response.Events(Wrap(Take(arts, Min(max, MAX_SERVE_BATCH))));
      case AskHashes(log) =>
        var entries := db.LogHashes(log);
        answer := Hashes(entries);
      case AskClaims(ids) =>
        var arts := Held(db, ids);
        answer := Response.Events(Wrap(arts));
      case Publish(events) =>
        answer := AcceptPublished(db, events, now);
      case GetBlob(hash) => answer := Blob(if hash in blobs then Some(blobs[hash]) else None);
      case PutBlob(hash, _) => answer := Ack(if hash in blobs then 0 else 1, 0);
    }
  }
}
