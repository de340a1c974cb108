/** What a whole session reports adds up: the claims it says it pulled are the claims the store gained. */
module Accounts {
  import opened Bytes
  import opened Rows
  import opened Ingest
  import opened Converge
  import opened Health
  import opened Sorted
  import opened Queries
  import opened Protocol
  import opened Sessions
  import opened Exchanges
  import opened Shapes
  import opened Convergence
  import opened Privacy
  import opened Tallies

  /** Between two states of a session, the claims reported as pulled are those gained. */
  ghost predicate PulledIsGained(l: Local, l': Local) {
    l'.session.report.pulled + |l.db.claims| == l.session.report.pulled + |l'.db.claims|
  }

  lemma {:induction false} RowsAreHonest(w: World, s: State, ids: seq<ClaimHash>)
    requires AllGenuine(w, s) && NoSelfNaming(w)
    ensures HonestAll(w, Wrap(Artifacts(s, ids)))
  {
    hide AllGenuine, NoSelfNaming, Honest;
    if ids != [] {
      RowsAreHonest(w, s, ids[1..]);
      var rest, all := Artifacts(s, ids[1..]), Artifacts(s, ids);
      var k := if ids[0] in s.claims then 1 else 0;
      assert forall i | k <= i < |all| :: all[i] == rest[i - k];
      forall i | 0 <= i < |all|
        ensures Honest(w, Wrap(all)[i])
      {
        if i >= k {
          assert Honest(w, Wrap(rest)[i - k]);
        } else {
          RowIsHonest(w, s, ids[0]);
        }
      }
    }
  }

  lemma RowIsHonest(w: World, s: State, id: ClaimHash)
    requires AllGenuine(w, s) && NoSelfNaming(w) && id in s.claims
    ensures Honest(w, Checked(s.claims[id].art))
  {
    var a := s.claims[id].art;
    assert Redacts(Full(w, id)) != Some(id);
  }

  lemma HonestPrefix(w: World, events: seq<Event>, n: nat)
    requires HonestAll(w, events) && n <= |events|
    ensures HonestAll(w, events[..n])
  {
    assert forall k | 0 <= k < n :: events[..n][k] == events[k];
  }

  lemma PullAddsUp(w: World, l: Local, events: seq<Event>)
    requires Healthy(w, l.db) && HonestAll(w, events) && InProgress(l) && l.session.phase.Pulling?
    ensures PulledIsGained(l, FeedPulled(l, events))
  {
    OpenInProgress(l);
    var f := OfLog(PlanOf(l.session).log);
    PrimaryPushKeeps(l.session, l.db);
    if events != [] {
      SessionTallies(w, l, f, events);
      PulledReports(l, events);
      PulledShape(l, events);
      PrimaryPushKeeps(Pulled(l, events).session, Pulled(l, events).db);
    }
    hide TakeAll, BeginPrimaryPush, Pulled, Healthy;
  }

  lemma PulledReports(l: Local, events: seq<Event>)
    requires InProgress(l) && l.session.phase.Pulling? && events != []
    ensures Pulled(l, events).session.report == TakeAll(l, OfLog(PlanOf(l.session).log), events).session.report
    ensures Pulled(l, events).db == TakeAll(l, OfLog(PlanOf(l.session).log), events).db
  {
    hide TakeAll;
  }

  lemma ClaimsAddUp(w: World, l: Local, events: seq<Event>)
    requires Healthy(w, l.db) && HonestAll(w, events) && InProgress(l) && l.session.phase.Fetching?
    ensures PulledIsGained(l, FeedClaims(l, events))
  {
    var n := l.session;
    SessionTallies(w, l, Asked(n.wantIds[n.wantSent..Chunk(n.wantSent, |n.wantIds|)]), events);
    hide TakeAll, Healthy;
  }

  lemma SettleAddsUp(l: Local, count: nat, fp: Print, inst: InstanceId)
    requires Open(l.session)
    ensures PulledIsGained(l, SettleWith(l, count, fp, inst))
  {
    hide ServeSince, Fingerprint;
  }

  lemma FirstStatusAddsUp(l: Local, count: nat, fp: Print, inst: InstanceId)
    requires InProgress(l) && l.session.phase.FirstStatus?
    ensures PulledIsGained(l, FeedFirstStatus(l, count, fp, inst))
  {
    OpenInProgress(l);
    FirstStatusFromContact(l, count, fp, inst);
    var l1 := Contacted(l, count, inst);
    assert l1.session.report.pulled == l.session.report.pulled && l1.db == l.db;
    PrimaryPushKeeps(l1.session, l.db);
    hide FeedFirstStatus, SettleWith, BeginPrimaryPush, Contacted;
    SettleAddsUp(l1.(session := BeginPrimaryPush(l1.session, l.db)), count, fp, inst);
  }

  lemma AckAddsUp(l: Local, stored: nat, rejected: nat)
    requires InProgress(l) && l.session.phase.Publishing?
    ensures PulledIsGained(l, FeedAck(l, stored, rejected))
    ensures var r, r' := l.session.report, FeedAck(l, stored, rejected).session.report;
            r' == r.(pushed := r.pushed + stored, pushRejected := r.pushRejected + rejected)
    ensures rejected > 0 ==> !FeedAck(l, stored, rejected).session.clean
  {
  }

  lemma DiffAddsUp(l: Local, theirs: map<ClaimHash, bool>)
    requires Open(l.session)
    ensures PulledIsGained(l, l.(session := Diffed(l.session, l.db, theirs)))
  {
    hide SortIds, WantSet, OfferSet, Artifacts;
  }

  lemma ResettleAddsUp(l: Local, fp: Print, inst: InstanceId)
    requires Open(l.session)
    ensures PulledIsGained(l, FeedResettle(l, fp, inst))
  {
  }

  /** Each honest exchange adds up. */
  lemma ExchangeAddsUp(w: World, apart: set<ClaimHash>, l: Local, s: State, inst: InstanceId, now: int)
    requires OnTheWay(w, apart, l, s, inst) && InProgress(l) && NoSelfNaming(w)
    ensures PulledIsGained(l, Exchanged(l, s, inst, now).local)
  {
    hide OnTheWay, ProperBut, Healthy, FeedFirstStatus, FeedPulled, FeedAck, SettleWith, Diffed, FeedClaims,
         FeedResettle,
         LogHashes, Fingerprint, LogLen, HashMap, AckOf, AcceptAll, NoSelfNaming, PulledIsGained, SortIds, Artifacts,
           Ascending;
    var n := l.session;
    var log := PlanOf(n).log;
    OpenInProgress(l);
    WayIsHealthy(w, apart, l, s, inst);
    HonestAnswersFit(l, s, inst, now);
    match n.phase
    case FirstStatus => FirstStatusAddsUp(l, LogLen(s, log), Fingerprint(s, log), inst);
    case Pulling =>
      var ids := SortIds(ByArrival(s), Past(s, log, n.cursor.pull));
      RowsAreHonest(w, s, ids);
      PulledPrefix(w, Artifacts(s, ids), BATCH);
      PullAddsUp(w, l, Wrap(Take(ServeSince(s, log, n.cursor.pull), BATCH)));
    case Publishing =>
      AcksAreAcks(s, NextRequest(n).value.events, now);
      var ack := Convergence.Answer(l, s, inst, now);
      AckAddsUp(l, ack.stored, ack.rejected);
    case Settling => SettleAddsUp(l, LogLen(s, log), Fingerprint(s, log), inst);
    case Reconciling => DiffAddsUp(l, HashMap(LogHashes(s, log)));
    case Fetching =>
      var ids := n.wantIds[n.wantSent..Chunk(n.wantSent, |n.wantIds|)];
      RowsAreHonest(w, s, ids);
      ClaimsAddUp(w, l, Wrap(Artifacts(s, ids)));
    case Resettling => ResettleAddsUp(l, Fingerprint(s, log), inst);
  }

  lemma PulledPrefix(w: World, arts: seq<Artifact>, n: nat)
    requires HonestAll(w, Wrap(arts))
    ensures HonestAll(w, Wrap(Take(arts, n)))
  {
    var m := |Take(arts, n)|;
    HonestPrefix(w, Wrap(arts), m);
    assert Wrap(Take(arts, n)) == Wrap(arts)[..m];
  }

  lemma WayIsHealthy(w: World, apart: set<ClaimHash>, l: Local, s: State, inst: InstanceId)
    requires OnTheWay(w, apart, l, s, inst)
    ensures Healthy(w, l.db) && Healthy(w, s) && AllGenuine(w, s)
  {
    hide WellKept, Explained, NoEmptySets, EvenBefore;
  }

  /** A whole session against an honest quiet peer: what it reports as pulled is what the store gained. */
  lemma {:induction false} SessionAddsUp(w: World, apart: set<ClaimHash>, l: Local, s: State, inst: InstanceId,
                                         now: int)
    requires OnTheWay(w, apart, l, s, inst) && NoSelfNaming(w)
    ensures Valid(l.session) && !l.session.phase.Starting?
    ensures PulledIsGained(l, DriveHonest(l, s, inst, now).local)
    decreases if Valid(l.session) then LogsLeft(l.session) else 0, 3 - l.session.settleRounds, PhaseRank(l.session),
              if Valid(l.session) then Items(l.session) else 0
  {
    WayIsValid(w, apart, l, s, inst);
    hide OnTheWay, Exchanged, NoSelfNaming;
    if !l.session.phase.Finished? {
      ExchangedIsNearer(l, s, inst, now);
      ExchangeKeeps(w, apart, l, s, inst, now);
      ExchangeAddsUp(w, apart, l, s, inst, now);
      var next := Exchanged(l, s, inst, now);
      SessionAddsUp(w, apart, next.local, next.remote, inst, now);
    }
  }
}
