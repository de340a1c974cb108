/**
 What a session leaves in its cursor row: a log it ends, by equality or by reconciling,
 is remembered under the fingerprint the peer then had, and the next push the model
 fits settles by that memory.
 */
module Remembered {
  import opened Bytes
  import opened Rows
  import opened Ingest
  import opened Converge
  import opened Health
  import opened Sorted
  import opened Queries
  import opened Protocol
  import opened Sessions
  import opened Exchanges
  import opened Shapes
  import opened Convergence
  import opened Push

  // ── Settling by equality ─────────────────────────────────────────────

  /** Nothing more to pull this time round. */
  predicate PulledOut(n: Session, count: nat)
    requires Open(n)
  {
    !n.plans[n.idx].pull || count <= n.cursor.pull || n.settleRounds >= 2
  }

  /**
   A settle on the peer's incarnation, with no more to pull, against a peer that agrees
   on the log: the saved row is the cursor with the peer's fingerprint remembered, its
   counts as they were, no other row is touched, and the session is done with the log.
   */
  lemma EqualitySettles(l: Local, s: State, inst: InstanceId)
    requires Open(l.session) && l.session.cursor.instance == Some(inst)
    requires var log := l.session.plans[l.session.idx].log;
             PulledOut(l.session, LogLen(s, log)) && SameLog(l.db, s, log)
    ensures var n := l.session;
            var log := n.plans[n.idx].log;
            var l' := SettleWith(l, LogLen(s, log), Fingerprint(s, log), inst);
            var row := Cursor(Some(inst), n.cursor.pull, n.cursor.push, Some(Fingerprint(s, log)));
            && l'.cursors == l.cursors[(n.peer, log) := row] && l'.db == l.db
            && l'.session.idx == n.idx + 1 && l'.session.plans == n.plans
            && l'.session.phase == if n.idx + 1 < |n.plans| then FirstStatus else Finished
  {
    hide Fingerprint, LogLen, SameLog;
    FingerprintDecides(l.db, s, l.session.plans[l.session.idx].log);
  }

  /** After such a settle the peer's next frame settles by the memory, wherever the model fits its events. */
  lemma NextPushSettles(w: World, l: Local, s: State, inst: InstanceId, xs: seq<Artifact>, now: int, now': int)
    requires Open(l.session) && l.session.cursor.instance == Some(inst) && Healthy(w, s)
    requires forall k | 0 <= k < |xs| :: Genuine(w, xs[k])
    requires var log := l.session.plans[l.session.idx].log;
             && PulledOut(l.session, LogLen(s, log)) && SameLog(l.db, s, log)
             && ModelFitsAll(s, l.db, log, xs, now, now')
    ensures var log := l.session.plans[l.session.idx].log;
            var l' := SettleWith(l, LogLen(s, log), Fingerprint(s, log), inst);
            var s' := IngestAll(s, xs, now');
            var r := ApplyNotify(l'.db, l'.cursors, l.session.peer, now, NotifyFor(s', inst, log, Wrap(xs)));
            && r.report.settled && CursorOf(r.cursors, l.session.peer, log).settled == Some(Fingerprint(s', log))
            && CursorOf(r.cursors, l.session.peer, log).pull >= LogLen(s', log)
  {
    hide Fingerprint, LogLen, SameLog, ModelFitsAll, ApplyNotify, Healthy, Genuine, SettleWith, IngestAll, NotifyFor;
    EqualitySettles(l, s, inst);
    var log := l.session.plans[l.session.idx].log;
    var l' := SettleWith(l, LogLen(s, log), Fingerprint(s, log), inst);
    CacheFollowsPush(w, s, l'.db, l'.cursors, l.session.peer, inst, log, xs, now, now');
  }

  // ── Settling otherwise ───────────────────────────────────────────────

  /**
   A difference that is remembered from before ends the log and changes nothing; one
   that is not is reconciled, and counted.
   */
  lemma DifferenceEndsOrReconciles(l: Local, s: State, inst: InstanceId)
    requires Open(l.session) && l.session.cursor.instance == Some(inst)
    requires var log := l.session.plans[l.session.idx].log;
             PulledOut(l.session, LogLen(s, log)) && !SameLog(l.db, s, log)
    ensures var n := l.session;
            var log := n.plans[n.idx].log;
            var l' := SettleWith(l, LogLen(s, log), Fingerprint(s, log), inst);
            && l'.db == l.db && l'.cursors == l.cursors
            && (n.cursor.settled == Some(Fingerprint(s, log)) ==>
                  && l'.session.idx == n.idx + 1 && l'.session.plans == n.plans && l'.session.report == n.report
                  && l'.session.phase == if n.idx + 1 < |n.plans| then FirstStatus else Finished)
            && (n.cursor.settled != Some(Fingerprint(s, log)) ==>
                  l'.session == n.(phase := Reconciling, report := n.report.(reconciled := n.report.reconciled + 1)))
  {
    hide Fingerprint, LogLen, SameLog;
    FingerprintDecides(l.db, s, l.session.plans[l.session.idx].log);
  }

  /** More arrived while we worked: one more lap of pulling, at most twice. */
  lemma MoreToPullLaps(l: Local, count: nat, fp: Print, inst: InstanceId)
    requires Open(l.session) && l.session.cursor.instance == Some(inst) && !PulledOut(l.session, count)
    ensures SettleWith(l, count, fp, inst) ==
            l.(session := l.session.(settleRounds := l.session.settleRounds + 1, peerCount := count, phase := Pulling))
  {
  }

  /** A peer reborn at settle time: its row starts over, which costs a lap and is counted. */
  lemma RebornStartsOver(l: Local, count: nat, fp: Print, inst: InstanceId)
    requires Open(l.session) && l.session.cursor.instance != Some(inst)
    ensures var n := l.session;
            var plan := n.plans[n.idx];
            var l' := SettleWith(l, count, fp, inst);
            && l'.db == l.db && l'.cursors == l.cursors[(n.peer, plan.log) := Cursor(Some(inst), 0, 0, None)]
            && l'.session.report == n.report.(cursorResets := n.report.cursorResets + 1)
            && (n.settleRounds >= 2 ==>
                  l'.session.idx == n.idx + 1 && l'.session.phase == if n.idx + 1 < |n.plans| then FirstStatus
                    else Finished)
            && (n.settleRounds < 2 ==>
                  && l'.session.idx == n.idx && l'.session.settleRounds == n.settleRounds + 1
                  && l'.session.cursor == Cursor(Some(inst), 0, 0, None) && l'.session.peerCount == count
                  && (plan.pull && count > 0 ==> l'.session.phase == Pulling)
                  && (!(plan.pull && count > 0) && !plan.push ==> l'.session.phase == Settling)
                  && (!(plan.pull && count > 0) && plan.push ==>
                        l'.session.pushBatch == ServeSince(l.db, plan.log, 0)
                        && l'.session.phase == if l'.session.pushBatch == [] then Settling else Publishing))
  {
    hide ServeSince, Fingerprint;
  }

  /** First contact: the row is taken up on its incarnation, and started over on another. */
  lemma ContactTakesUpRow(l: Local, count: nat, inst: InstanceId)
    requires Open(l.session)
    ensures var n := l.session;
            var log := n.plans[n.idx].log;
            var row := CursorOf(l.cursors, n.peer, log);
            var l' := Contacted(l, count, inst);
            && l'.db == l.db && l'.session.peerCount == count
            && (row.instance == Some(inst) ==>
                  l'.session.cursor == row && l'.cursors == l.cursors && l'.session.report == n.report)
            && (row.instance != Some(inst) ==>
                  && l'.session.cursor == Cursor(Some(inst), 0, 0, None)
                  && l'.cursors == l.cursors[(n.peer, log) := Cursor(Some(inst), 0, 0, None)]
                  && l'.session.report ==
                     n.report.(cursorResets := n.report.cursorResets + if row.instance.Some? then 1 else 0))
  {
  }

  // ── Honest sessions stay clean ───────────────────────────────────────

  lemma {:induction false} TakeAllClean(l: Local, f: Filter, arts: seq<Artifact>)
    requires forall i | 0 <= i < |arts| :: Admits(f, Checked(arts[i]))
    ensures TakeAll(l, f, Wrap(arts)).session.clean == l.session.clean
    decreases |arts|
  {
    hide Ingested, ReportOf;
    if arts != [] {
      assert Wrap(arts)[1..] == Wrap(arts[1..]);
      TakeAllClean(TakeIn(l, f, Checked(arts[0])), f, arts[1..]);
    }
  }

  lemma {:induction false} AckRejectsNone(s: State, arts: seq<Artifact>, now: int)
    ensures var ack := AckOf(s, Wrap(arts), now); ack.Ack? && ack.rejected == 0
    decreases |arts|
  {
    hide Ingested, ReportOf;
    if arts != [] {
      assert Wrap(arts)[1..] == Wrap(arts[1..]);
      AckRejectsNone(Ingested(s, arts[0], now), arts[1..], now);
    }
  }

  lemma SettleKeepsClean(l: Local, count: nat, fp: Print, inst: InstanceId)
    requires Open(l.session) && l.session.clean
    ensures SettleWith(l, count, fp, inst).session.clean
  {
    hide ServeSince, Fingerprint;
  }

  lemma FirstStatusKeepsClean(l: Local, count: nat, fp: Print, inst: InstanceId)
    requires InProgress(l) && l.session.phase.FirstStatus? && l.session.clean
    ensures FeedFirstStatus(l, count, fp, inst).session.clean
  {
    OpenInProgress(l);
    FirstStatusFromContact(l, count, fp, inst);
    hide FeedFirstStatus, SettleWith, BeginPrimaryPush;
    var l1 := Contacted(l, count, inst);
    assert l1.session.clean;
    PrimaryPushKeeps(l1.session, l.db);
    SettleKeepsClean(l1.(session := BeginPrimaryPush(l1.session, l.db)), count, fp, inst);
  }

  lemma PulledKeepsClean(l: Local, arts: seq<Artifact>)
    requires InProgress(l) && l.session.phase.Pulling? && l.session.clean
    requires forall i | 0 <= i < |arts| :: arts[i].log == PlanOf(l.session).log
    ensures FeedPulled(l, Wrap(arts)).session.clean
  {
    OpenInProgress(l);
    hide ServeSince, TakeAll;
    TakeAllClean(l, OfLog(PlanOf(l.session).log), arts);
    TakeAllKeepsPlace(l, OfLog(PlanOf(l.session).log), Wrap(arts));
  }

  lemma ClaimsKeepClean(l: Local, s: State)
    requires InProgress(l) && l.session.phase.Fetching? && l.session.clean
    requires forall i | 0 <= i < |l.session.wantIds| && l.session.wantIds[i] in s.claims ::
               s.claims[l.session.wantIds[i]].art.id == l.session.wantIds[i]
    ensures var ids := l.session.wantIds[l.session.wantSent..Chunk(l.session.wantSent, |l.session.wantIds|)];
            FeedClaims(l, Wrap(Artifacts(s, ids))).session.clean
  {
    var n := l.session;
    var ids := n.wantIds[n.wantSent..Chunk(n.wantSent, |n.wantIds|)];
    assert forall i | 0 <= i < |ids| :: ids[i] == n.wantIds[n.wantSent + i];
    AskedRows(s, ids);
    hide TakeAll, Artifacts;
    TakeAllClean(l, Asked(ids), Artifacts(s, ids));
    TakeAllKeepsPlace(l, Asked(ids), Wrap(Artifacts(s, ids)));
  }

  lemma {:induction false} AskedRows(s: State, ids: seq<ClaimHash>)
    requires forall i | 0 <= i < |ids| && ids[i] in s.claims :: s.claims[ids[i]].art.id == ids[i]
    ensures forall i | 0 <= i < |Artifacts(s, ids)| :: Artifacts(s, ids)[i].id in ids
  {
    if ids != [] {
      assert forall i | 0 <= i < |ids[1..]| :: ids[1..][i] == ids[i + 1];
      AskedRows(s, ids[1..]);
      var rest, all := Artifacts(s, ids[1..]), Artifacts(s, ids);
      var k := if ids[0] in s.claims then 1 else 0;
      assert forall i | k <= i < |all| :: all[i] == rest[i - k];
    }
  }

  lemma HonestPullKeepsClean(w: World, apart: set<ClaimHash>, l: Local, s: State)
    requires ProperBut(w, apart, s) && InProgress(l) && l.session.phase.Pulling? && l.session.clean
    ensures FeedPulled(l, Wrap(Take(ServeSince(s, PlanOf(l.session).log, l.session.cursor.pull), BATCH))).session.clean
  {
    OpenInProgress(l);
    ServedIsOfferable(w, apart, s, PlanOf(l.session).log, l.session.cursor.pull);
    hide ServeSince, ProperBut, AllOfferable, FeedPulled;
    PulledKeepsClean(l, Take(ServeSince(s, PlanOf(l.session).log, l.session.cursor.pull), BATCH));
  }

  lemma HonestClaimsKeepClean(w: World, apart: set<ClaimHash>, l: Local, s: State)
    requires ProperBut(w, apart, s) && InProgress(l) && l.session.phase.Fetching? && l.session.clean
    ensures var ids := l.session.wantIds[l.session.wantSent..Chunk(l.session.wantSent, |l.session.wantIds|)];
            FeedClaims(l, Wrap(Artifacts(s, ids))).session.clean
  {
    assert WellKept(s);
    hide ProperBut, Artifacts, FeedClaims, NoEmptySets;
    ClaimsKeepClean(l, s);
  }

  lemma HonestAckKeepsClean(l: Local, s: State, now: int)
    requires InProgress(l) && l.session.phase.Publishing? && l.session.clean
    ensures var n := l.session;
            var ack := AckOf(s, Wrap(n.pushBatch[n.pushSent..Chunk(n.pushSent, |n.pushBatch|)]), now);
            ack.Ack? && FeedAck(l, ack.stored, ack.rejected).session.clean
  {
    var n := l.session;
    AckRejectsNone(s, n.pushBatch[n.pushSent..Chunk(n.pushSent, |n.pushBatch|)], now);
    hide AckOf, FeedAck;
    AckKeepsClean(l, AckOf(s, Wrap(n.pushBatch[n.pushSent..Chunk(n.pushSent, |n.pushBatch|)]), now).stored);
  }

  /** No honest answer spoils a session. */
  lemma ExchangeKeepsClean(w: World, apart: set<ClaimHash>, l: Local, s: State, inst: InstanceId, now: int)
    requires OnTheWay(w, apart, l, s, inst) && InProgress(l) && l.session.clean
    ensures Exchanged(l, s, inst, now).local.session.clean
  {
    hide OnTheWay, ProperBut, FeedFirstStatus, FeedPulled, FeedAck, SettleWith, Diffed, FeedClaims, FeedResettle,
         ServeSince,
         LogHashes, Fingerprint, LogLen, Artifacts, HashMap, AckOf, AcceptAll, EvenBefore, Wrap, Valid;
    var n := l.session;
    OpenInProgress(l);
    WayIsProper(w, apart, l, s, inst);
    HonestAnswersFit(l, s, inst, now);
    match n.phase
    case FirstStatus => FirstStatusKeepsClean(l, LogLen(s, PlanOf(n).log), Fingerprint(s, PlanOf(n).log), inst);
    case Pulling => HonestPullKeepsClean(w, apart, l, s);
    case Publishing => HonestAckKeepsClean(l, s, now);
    case Settling => SettleKeepsClean(l, LogLen(s, PlanOf(n).log), Fingerprint(s, PlanOf(n).log), inst);
    case Reconciling => DiffKeepsClean(n, l.db, HashMap(LogHashes(s, PlanOf(n).log)));
    case Fetching => HonestClaimsKeepClean(w, apart, l, s);
    case Resettling => ResettleKeepsClean(l, Fingerprint(s, PlanOf(n).log), inst);
  }

  lemma AckKeepsClean(l: Local, stored: nat)
    requires InProgress(l) && l.session.phase.Publishing? && l.session.clean
    ensures FeedAck(l, stored, 0).session.clean
  {
  }

  lemma DiffKeepsClean(n: Session, db: State, theirs: map<ClaimHash, bool>)
    requires Open(n) && n.clean
    ensures Diffed(n, db, theirs).clean
  {
    hide SortIds, WantSet, OfferSet, Artifacts;
  }

  lemma ResettleKeepsClean(l: Local, fp: Print, inst: InstanceId)
    requires Open(l.session) && l.session.clean
    ensures FeedResettle(l, fp, inst).session.clean
  {
  }

  // ── Ending a log ─────────────────────────────────────────────────────

  /** The row remembers the peer's fingerprint, on the peer's incarnation. */
  ghost predicate Remembers(cursors: Cursors, peer: string, log: LogId, s: State, inst: InstanceId) {
    CursorOf(cursors, peer, log).instance == Some(inst)
      && CursorOf(cursors, peer, log).settled == Some(Fingerprint(s, log))
  }

  lemma SettleRemembers(l: Local, s: State, inst: InstanceId)
    requires InProgress(l) && OnInstance(l.session, inst) && l.session.phase.Settling?
    ensures var log := PlanOf(l.session).log;
            var l' := SettleWith(l, LogLen(s, log), Fingerprint(s, log), inst);
            l'.session.idx != l.session.idx ==>
              Remembers(l'.cursors, l.session.peer, log, s, inst) && EndsLog(l'.session, l.session)
  {
    hide Fingerprint, LogLen;
    OpenInProgress(l);
    HonestSettleShape(l, LogLen(s, PlanOf(l.session).log), Fingerprint(s, PlanOf(l.session).log), inst);
  }

  /** The next log is open, or the session is over. */
  predicate EndsLog(n': Session, n: Session) {
    n'.idx == n.idx + 1 && n'.plans == n.plans && n'.peer == n.peer && (n'.idx >= |n.plans| ==> n'.phase.Finished?)
  }

  lemma FirstStatusRemembers(w: World, apart: set<ClaimHash>, l: Local, s: State, inst: InstanceId)
    requires OnTheWay(w, apart, l, s, inst) && InProgress(l) && l.session.phase.FirstStatus?
    ensures var log := PlanOf(l.session).log;
            var l' := FeedFirstStatus(l, LogLen(s, log), Fingerprint(s, log), inst);
            && (l'.session.idx != l.session.idx ==>
                  Remembers(l'.cursors, l.session.peer, log, s, inst) && EndsLog(l'.session, l.session))
            && l'.session.peer == l.session.peer
  {
    var log := PlanOf(l.session).log;
    var count, fp := LogLen(s, log), Fingerprint(s, log);
    OpenInProgress(l);
    ContactedShape(l, count, inst);
    FirstStatusFromContact(l, count, fp, inst);
    PeerCountContacted(l, count, inst);
    hide Contacted, FeedFirstStatus, SettleWith, BeginPrimaryPush, Fingerprint, LogLen, Remembers, ProperBut,
         EvenBefore, NothingSettledYet,
         Staged;
    var l1 := Contacted(l, count, inst);
    PrimaryPushKeeps(l1.session, l.db);
    var l2 := l1.(session := BeginPrimaryPush(l1.session, l.db));
    if l2.session.phase.Settling? {
      SettleRemembers(l2, s, inst);
      SettleKeepsPeer(l2, count, fp, inst);
    }
  }

  lemma SettleKeepsPeer(l: Local, count: nat, fp: Print, inst: InstanceId)
    requires Open(l.session)
    ensures SettleWith(l, count, fp, inst).session.peer == l.session.peer
  {
    hide ServeSince, Fingerprint;
  }

  lemma ResettleRemembers(l: Local, s: State, inst: InstanceId)
    requires Open(l.session) && l.session.clean && l.session.cursor.instance == Some(inst)
    ensures var log := PlanOf(l.session).log;
            var l' := FeedResettle(l, Fingerprint(s, log), inst);
            Remembers(l'.cursors, l.session.peer, log, s, inst) && EndsLog(l'.session, l.session)
  {
    hide Fingerprint;
  }

  /** Every log an honest session ends is remembered, however it ends. */
  lemma ExchangeRemembers(w: World, apart: set<ClaimHash>, l: Local, s: State, inst: InstanceId, now: int)
    requires OnTheWay(w, apart, l, s, inst) && InProgress(l) && l.session.clean
    ensures Open(l.session)
    ensures var next := Exchanged(l, s, inst, now);
            && next.local.session.peer == l.session.peer
            && (next.local.session.idx != l.session.idx ==>
                  && Remembers(next.local.cursors, l.session.peer, PlanOf(l.session).log, next.remote, inst)
                  && EndsLog(next.local.session, l.session))
  {
    var n := l.session;
    var log := PlanOf(n).log;
    OpenInProgress(l);
    if !n.phase.FirstStatus? {
      CursorIsPlaced(w, apart, l, s, inst);
    }
    HonestAnswersFit(l, s, inst, now);
    var r := Convergence.Answer(l, s, inst, now);
    hide OnTheWay, FeedFirstStatus, FeedPulled, FeedAck, SettleWith, Diffed, FeedClaims, FeedResettle, ServeSince,
         LogHashes, Fingerprint, LogLen, Artifacts, HashMap, Remembers, AcceptAll, Staged;
    match n.phase
    case FirstStatus => FirstStatusRemembers(w, apart, l, s, inst);
    case Pulling => PulledStays(l, r.events);
    case Publishing =>
      AcksAreAcks(s, NextRequest(n).value.events, now);
      AckShape(l, r.stored, r.rejected);
    case Settling => SettleRemembers(l, s, inst); SettleKeepsPeer(l, LogLen(s, log), Fingerprint(s, log), inst);
    case Reconciling => DiffStays(n, l.db, HashMap(r.entries));
    case Fetching => ClaimsStay(l, r.events);
    case Resettling => ResettleRemembers(l, s, inst);
  }

  lemma PulledStays(l: Local, events: seq<Event>)
    requires InProgress(l) && l.session.phase.Pulling?
    ensures SamePlan(FeedPulled(l, events).session, l.session)
  {
    OpenInProgress(l);
    if events == [] {
      PrimaryPushKeeps(l.session, l.db);
    } else {
      PulledShape(l, events);
      PrimaryPushKeeps(Pulled(l, events).session, Pulled(l, events).db);
    }
    hide BeginPrimaryPush, Pulled, TakeAll;
  }

  lemma DiffStays(n: Session, db: State, theirs: map<ClaimHash, bool>)
    requires Open(n)
    ensures SamePlan(Diffed(n, db, theirs), n)
  {
    hide SortIds, WantSet, OfferSet, Artifacts;
  }

  lemma ClaimsStay(l: Local, events: seq<Event>)
    requires InProgress(l) && l.session.phase.Fetching?
    ensures SamePlan(FeedClaims(l, events).session, l.session)
  {
    ClaimsShape(l, events);
    hide FeedClaims, TakeAll;
  }

  // ── Over a run ───────────────────────────────────────────────────────

  /**
   A session of one log against an honest quiet peer, from any cursor counts: when it is
   over, the row remembers the peer's fingerprint, whether it ended by equality or by
   reconciling.
   */
  lemma {:induction false} SessionRemembers(w: World, apart: set<ClaimHash>, l: Local, s: State, inst: InstanceId,
                                            now: int)
    requires OnTheWay(w, apart, l, s, inst) && InProgress(l) && l.session.clean && |l.session.plans| == 1
             && l.session.idx == 0
    ensures Valid(l.session) && !l.session.phase.Starting?
    ensures var end := DriveHonest(l, s, inst, now);
            Remembers(end.local.cursors, l.session.peer, l.session.plans[0].log, end.remote, inst)
    decreases LogsLeft(l.session), 3 - l.session.settleRounds, PhaseRank(l.session), Items(l.session)
  {
    hide OnTheWay, Exchanged, Remembers;
    ExchangedIsNearer(l, s, inst, now);
    ExchangeKeeps(w, apart, l, s, inst, now);
    ExchangeKeepsPlans(l, s, inst, now);
    ExchangeKeepsClean(w, apart, l, s, inst, now);
    ExchangeRemembers(w, apart, l, s, inst, now);
    var next := Exchanged(l, s, inst, now);
    if next.local.session.idx == 0 {
      SessionRemembers(w, apart, next.local, next.remote, inst, now);
    }
  }

  /**
   End to end: after such a session, whatever the peer then newly ingests and pushes in
   one frame settles by the memory wherever the model fits, and the pull reaches the
   peer's count.
   */
  lemma SessionThenPush(w: World, apart: set<ClaimHash>, l: Local, s: State, inst: InstanceId, now: int,
                        xs: seq<Artifact>, later: int, later': int)
    requires OnTheWay(w, apart, l, s, inst) && InProgress(l) && l.session.clean && |l.session.plans| == 1
             && l.session.idx == 0
    requires forall k | 0 <= k < |xs| :: Genuine(w, xs[k])
    requires var end := DriveHonest(l, s, inst, now);
             ModelFitsAll(end.remote, end.local.db, l.session.plans[0].log, xs, later, later')
    ensures var end := DriveHonest(l, s, inst, now);
            var log := l.session.plans[0].log;
            var s' := IngestAll(end.remote, xs, later');
            var r := ApplyNotify(end.local.db, end.local.cursors, l.session.peer, later,
              NotifyFor(s', inst, log, Wrap(xs)));
            r.report.settled && CursorOf(r.cursors, l.session.peer, log).pull >= LogLen(s', log)
  {
    SessionRemembers(w, apart, l, s, inst, now);
    DriveKeeps(w, apart, l, s, inst, now);
    var end := DriveHonest(l, s, inst, now);
    WayIsProper(w, apart, end.local, end.remote, inst);
    assert Healthy(w, end.remote);
    hide OnTheWay, DriveHonest, ProperBut, Healthy, Genuine, ModelFitsAll, ApplyNotify, NotifyFor, IngestAll, LogLen,
         Fingerprint;
    CacheFollowsPush(w, end.remote, end.local.db, end.local.cursors, l.session.peer, inst, l.session.plans[0].log, xs,
      later, later');
  }
}
