/**
 A session against the honest responder: whatever the cursor counts were, when it
 completes the store that pulled a log lacks nothing of it and neither does the one
 it was pushed to; pulled and pushed, the two hold the same claims, bodies and
 redactions of it.
 */
module Convergence {
  import opened Bytes
  import opened Rows
  import opened Ingest
  import opened Converge
  import opened Indexes
  import opened Health
  import opened Sorted
  import opened Queries
  import opened Protocol
  import opened Sessions
  import opened Exchanges
  import opened Shapes

  // ── Honest exchanges ─────────────────────────────────────────────────

  datatype Both = Both(local: Local, remote: State)

  ghost function Answer(l: Local, s: State, inst: InstanceId, now: int): Response
    requires InProgress(l)
  {
    Respond(s, inst, now, map[], NextRequest(l.session).value)
  }

  lemma HonestAnswersFit(l: Local, s: State, inst: InstanceId, now: int)
    requires InProgress(l)
    ensures Feed(l, Answer(l, s, inst, now)).Some?
  {
    hide FeedFirstStatus, FeedPulled, FeedAck, SettleWith, Diffed, FeedClaims, FeedResettle, ServeSince, LogHashes,
         Fingerprint;
    if l.session.phase.Publishing? {
      AcksAreAcks(s, NextRequest(l.session).value.events, now);
    }
  }

  /** One request, its answer, and both sides' new states. */
  ghost function Exchanged(l: Local, s: State, inst: InstanceId, now: int): Both
    requires InProgress(l)
  {
    HonestAnswersFit(l, s, inst, now);
    Both(Feed(l, Answer(l, s, inst, now)).value, Served(s, now, NextRequest(l.session).value))
  }

  lemma ExchangedIsNearer(l: Local, s: State, inst: InstanceId, now: int)
    requires InProgress(l)
    ensures var l' := Exchanged(l, s, inst, now).local;
            Valid(l'.session) && Nearer(l'.session, l.session)
  {
    hide Feed, Nearer, Valid, Respond;
    HonestAnswersFit(l, s, inst, now);
    FeedIsNearer(l, Answer(l, s, inst, now));
  }

  /** A whole session against a responder nobody else is changing. */
  ghost function DriveHonest(l: Local, s: State, inst: InstanceId, now: int): Both
    requires Valid(l.session) && !l.session.phase.Starting?
    decreases LogsLeft(l.session), 3 - l.session.settleRounds, PhaseRank(l.session), Items(l.session)
  {
    if l.session.phase.Finished? then Both(l, s)
    else
      ExchangedIsNearer(l, s, inst, now);
      var next := Exchanged(l, s, inst, now);
      DriveHonest(next.local, next.remote, inst, now)
  }

  // ── What a session keeps on the way ──────────────────────────────────

  ghost predicate DistinctLogs(plans: seq<Plan>) {
    forall i, j | 0 <= i < j < |plans| :: plans[i].log != plans[j].log
  }

  /** What a plan is for: a log that is pulled is not lacking here, one that is pushed not there. */
  ghost predicate Even(plan: Plan, c: State, s: State) {
    (plan.pull ==> Gapless(c, s, plan.log)) && (plan.push ==> Gapless(s, c, plan.log))
  }

  ghost predicate EvenBefore(l: Local, s: State) {
    forall i | 0 <= i < l.session.idx && i < |l.session.plans| :: Even(l.session.plans[i], l.db, s)
  }

  ghost predicate NothingSettledYet(l: Local) {
    forall i | l.session.idx <= i < |l.session.plans| ::
      CursorOf(l.cursors, l.session.peer, l.session.plans[i].log).settled.None?
  }

  ghost predicate OffersCover(batch: seq<Artifact>, c: State, s: State, log: LogId) {
    forall id | Lacks(s, c, log, id) :: Offered(batch, c, id)
  }

  ghost predicate Offered(batch: seq<Artifact>, c: State, id: ClaimHash) {
    exists i :: 0 <= i < |batch| && batch[i].id == id && Complete(batch[i], c)
  }

  ghost predicate WantsCover(wants: seq<ClaimHash>, c: State, s: State, log: LogId) {
    forall id | Lacks(c, s, log, id) :: id in wants
  }

  /** A batch still to publish: good to offer, and after a diff covering what the peer lacks. */
  ghost predicate PushStaged(w: World, apart: set<ClaimHash>, batch: seq<Artifact>, after: AfterPush, plan: Plan,
                             c: State, s: State) {
    && AllOfferable(w, apart, batch, c)
    && (after.ToResettle? ==>
          (plan.pull ==> Gapless(c, s, plan.log)) && (plan.push ==> OffersCover(batch, c, s, plan.log)))
  }

  /** Ids still to fetch, covering what we lack, and the offers waiting behind them. */
  ghost predicate FetchStaged(w: World, apart: set<ClaimHash>, wants: seq<ClaimHash>, offers: seq<Artifact>, plan: Plan,
                              c: State, s: State) {
    && AllOfferable(w, apart, offers, c)
    && (forall i | 0 <= i < |wants| :: wants[i] in s.claims)
    && (plan.pull ==> WantsCover(wants, c, s, plan.log)) && (plan.push ==> OffersCover(offers, c, s, plan.log))
  }

  ghost predicate Staged(w: World, apart: set<ClaimHash>, n: Session, c: State, s: State)
    requires Valid(n) && !n.phase.Starting?
  {
    match n.phase
    case Publishing => PushStaged(w, apart, n.pushBatch[n.pushSent..], n.afterPush, PlanOf(n), c, s)
    case Fetching => FetchStaged(w, apart, n.wantIds[n.wantSent..], n.extraBatch, PlanOf(n), c, s)
    case Resettling => Even(PlanOf(n), c, s)
    case _ => true
  }

  predicate OnInstance(n: Session, inst: InstanceId) {
    n.cursor.instance == Some(inst) && n.cursor.settled == None
  }

  /** What each phase of the current log can rely on. */
  ghost predicate Placed(w: World, apart: set<ClaimHash>, n: Session, c: State, s: State, inst: InstanceId)
    requires Valid(n) && !n.phase.Starting?
  {
    n.phase.Finished? || n.phase.FirstStatus? || (OnInstance(n, inst) && Staged(w, apart, n, c, s))
  }

  ghost predicate OnTheWay(w: World, apart: set<ClaimHash>, l: Local, s: State, inst: InstanceId) {
    && ProperBut(w, apart, l.db) && ProperBut(w, apart, s)
    && Valid(l.session) && !l.session.phase.Starting?
    && DistinctLogs(l.session.plans)
    && EvenBefore(l, s) && NothingSettledYet(l) && Placed(w, apart, l.session, l.db, s, inst)
  }

  // ── Finishing a log ──────────────────────────────────────────────────

  /** The same state with one log done; its cursor row may have been saved. */
  lemma FinishKeeps(w: World, apart: set<ClaimHash>, l: Local, s: State, inst: InstanceId, l': Local, c: Cursor)
    requires OnTheWay(w, apart, l, s, inst) && InProgress(l) && Even(PlanOf(l.session), l.db, s)
    requires l'.db == l.db && l'.session.phase in {FirstStatus, Finished} && Valid(l'.session)
    requires l'.session.plans == l.session.plans && l'.session.idx == l.session.idx + 1
             && l'.session.peer == l.session.peer
    requires l'.cursors == l.cursors || l'.cursors == l.cursors[(l.session.peer, PlanOf(l.session).log) := c]
    ensures OnTheWay(w, apart, l', s, inst)
  {
    hide ProperBut, Gapless, Staged, Valid;
    var n := l.session;
    forall i | n.idx + 1 <= i < |n.plans|
      ensures CursorOf(l'.cursors, n.peer, n.plans[i].log).settled.None?
    {
      assert n.plans[n.idx].log != n.plans[i].log;
      assert CursorOf(l.cursors, n.peer, n.plans[i].log).settled.None?;
    }
  }

  // ── Moving on within a log ───────────────────────────────────────────

  /** The cursor rows are as they were, or the current one was saved unsettled. */
  predicate RowsKept(l': Local, l: Local)
    requires Open(l.session)
  {
    || l'.cursors == l.cursors
    || (l'.session.cursor.settled == None
        && l'.cursors == l.cursors[(l.session.peer, PlanOf(l.session).log) := l'.session.cursor])
  }

  lemma RowsStayUnsettled(l: Local, l': Local)
    requires NothingSettledYet(l) && Open(l.session) && SamePlan(l'.session, l.session) && RowsKept(l', l)
    ensures NothingSettledYet(l')
  {
    forall i | l.session.idx <= i < |l.session.plans|
      ensures CursorOf(l'.cursors, l.session.peer, l.session.plans[i].log).settled.None?
    {
      assert CursorOf(l.cursors, l.session.peer, l.session.plans[i].log).settled.None?;
    }
  }

  /** A step that stays on its log, given what it does to the stores and what it stages. */
  lemma StepKeeps(w: World, apart: set<ClaimHash>, l: Local, s: State, inst: InstanceId, l': Local, s': State)
    requires OnTheWay(w, apart, l, s, inst) && InProgress(l)
    requires ProperBut(w, apart, l'.db) && ProperBut(w, apart, s') && EvenBefore(l', s')
    requires Valid(l'.session) && !l'.session.phase.Starting? && SamePlan(l'.session, l.session) && RowsKept(l', l)
    requires Placed(w, apart, l'.session, l'.db, s', inst)
    ensures OnTheWay(w, apart, l', s', inst)
  {
    hide ProperBut, EvenBefore, Placed, NothingSettledYet, RowsKept, Valid;
    OpenInProgress(l);
    RowsStayUnsettled(l, l');
  }

  /** A step that also leaves both stores alone. */
  lemma MoveKeeps(w: World, apart: set<ClaimHash>, l: Local, s: State, inst: InstanceId, l': Local)
    requires OnTheWay(w, apart, l, s, inst) && InProgress(l) && l'.db == l.db
    requires Valid(l'.session) && !l'.session.phase.Starting? && SamePlan(l'.session, l.session) && RowsKept(l', l)
    requires Placed(w, apart, l'.session, l.db, s, inst)
    ensures OnTheWay(w, apart, l', s, inst)
  {
    hide ProperBut, Placed, NothingSettledYet, RowsKept, Valid, Gapless;
    assert EvenBefore(l', s);
    StepKeeps(w, apart, l, s, inst, l', s);
  }

  /** Phases that stage nothing need only the cursor. */
  lemma PlainPlaced(w: World, apart: set<ClaimHash>, n: Session, c: State, s: State, inst: InstanceId)
    requires Valid(n) && OnInstance(n, inst) && n.phase in {Pulling, Settling, Reconciling}
    ensures Placed(w, apart, n, c, s, inst)
  {
  }

  lemma ServedIsOfferable(w: World, apart: set<ClaimHash>, s: State, log: LogId, have: nat)
    requires ProperBut(w, apart, s)
    ensures AllOfferable(w, apart, ServeSince(s, log, have), s)
    ensures forall i | 0 <= i < |ServeSince(s, log, have)| :: ServeSince(s, log, have)[i].log == log
  {
    hide ProperBut, Offerable, Complete, Ascending;
    var ids := SortIds(ByArrival(s), Past(s, log, have));
    SortIdsLists(ByArrival(s), Past(s, log, have));
    RowsAreOfferable(w, apart, s, ids);
    forall i | 0 <= i < |ids|
      ensures ids[i] in s.claims && s.claims[ids[i]].art.log == log
    {
      assert ids[i] in ids;
    }
  }

  lemma RowsAreOfferable(w: World, apart: set<ClaimHash>, s: State, ids: seq<ClaimHash>)
    requires ProperBut(w, apart, s) && forall i | 0 <= i < |ids| :: ids[i] in ids ==> ids[i] in s.claims
    ensures AllOfferable(w, apart, Artifacts(s, ids), s) && |Artifacts(s, ids)| == |ids|
    ensures forall i | 0 <= i < |ids| :: Artifacts(s, ids)[i].id == ids[i] && Complete(Artifacts(s, ids)[i], s)
  {
    hide ProperBut, Offerable, Complete;
    forall i | 0 <= i < |ids|
      ensures ids[i] in s.claims
    {
      assert ids[i] in ids;
    }
    forall i | 0 <= i < |ids|
      ensures Offerable(w, apart, Artifacts(s, ids)[i], s) && Artifacts(s, ids)[i].id == ids[i]
              && Complete(Artifacts(s, ids)[i], s)
    {
      RowIsOfferable(w, apart, s, ids[i]);
    }
  }

  /** A primary push stages rows of ours, or goes on to settle. */
  lemma PrimaryPushPlaced(w: World, apart: set<ClaimHash>, n: Session, c: State, s: State, inst: InstanceId)
    requires Open(n) && ProperBut(w, apart, c) && n.settleRounds <= 2 && OnInstance(n, inst)
    ensures var n' := BeginPrimaryPush(n, c);
            Valid(n') && !n'.phase.Starting? && SamePlan(n', n) && n'.cursor == n.cursor
              && Placed(w, apart, n', c, s, inst)
  {
    var batch := if PlanOf(n).push then ServeSince(c, PlanOf(n).log, n.cursor.push) else [];
    ServedIsOfferable(w, apart, c, PlanOf(n).log, n.cursor.push);
    hide ProperBut, Offerable, ServeSince;
    assert batch[0..] == batch;
  }

  // ── Settling ─────────────────────────────────────────────────────────

  lemma HonestSettleShape(l: Local, count: nat, fp: Print, inst: InstanceId)
    requires InProgress(l) && OnInstance(l.session, inst) && l.session.phase.Settling?
    ensures var l' := SettleWith(l, count, fp, inst);
            || (fp == Fingerprint(l.db, PlanOf(l.session).log) && l' == Settled(l, fp))
            || (l'.db == l.db && l'.cursors == l.cursors && SamePlan(l'.session, l.session) && Valid(l'.session)
                && OnInstance(l'.session, inst) && l'.session.phase in {Pulling, Reconciling})
  {
    hide Fingerprint, FinishLog;
  }

  /** A settle with the honest status, from a session whose cursor is on this instance. */
  lemma SettleKeeps(w: World, apart: set<ClaimHash>, l: Local, s: State, inst: InstanceId)
    requires OnTheWay(w, apart, l, s, inst) && InProgress(l) && l.session.phase.Settling?
    ensures OnTheWay(w, apart, SettleWith(l, LogLen(s, PlanOf(l.session).log), Fingerprint(s, PlanOf(l.session).log),
            inst), s, inst)
  {
    var n := l.session;
    var log := PlanOf(n).log;
    var count, fp := LogLen(s, log), Fingerprint(s, log);
    var l' := SettleWith(l, count, fp, inst);
    hide ProperBut, Gapless, OnTheWay, Fingerprint, LogLen, FinishLog, SettleWith, Valid, RowsKept, Placed, InProgress;
    OpenInProgress(l);
    CursorIsPlaced(w, apart, l, s, inst);
    HonestSettleShape(l, count, fp, inst);
    if l' == Settled(l, fp) && fp == Fingerprint(l.db, log) {
      FingerprintDecides(l.db, s, log);
      AgreementIsLevel(l.db, s, log);
      LevelIsGapless(l.db, s, log);
      SettledKeeps(w, apart, l, s, inst, fp);
    } else {
      PlainPlaced(w, apart, l'.session, l.db, s, inst);
      SameRows(l', l);
      MoveKeeps(w, apart, l, s, inst, l');
    }
  }

  lemma SettledKeeps(w: World, apart: set<ClaimHash>, l: Local, s: State, inst: InstanceId, fp: Print)
    requires OnTheWay(w, apart, l, s, inst) && InProgress(l) && Even(PlanOf(l.session), l.db, s)
    ensures OnTheWay(w, apart, Settled(l, fp), s, inst)
  {
    hide OnTheWay, FinishLog, Even, Valid;
    OpenInProgress(l);
    var cursor := l.session.cursor.(settled := Some(fp));
    FinishLogShape(l.session.(cursor := cursor));
    FinishKeeps(w, apart, l, s, inst, Settled(l, fp), cursor);
  }

  lemma SameRows(l': Local, l: Local)
    requires Open(l.session) && l'.cursors == l.cursors
    ensures RowsKept(l', l)
  {
  }

  lemma CursorIsPlaced(w: World, apart: set<ClaimHash>, l: Local, s: State, inst: InstanceId)
    requires OnTheWay(w, apart, l, s, inst) && InProgress(l) && !l.session.phase.FirstStatus?
    ensures OnInstance(l.session, inst) && Staged(w, apart, l.session, l.db, s)
  {
  }

  lemma ContactedShape(l: Local, count: nat, inst: InstanceId)
    requires InProgress(l) && NothingSettledYet(l)
    ensures var l1 := Contacted(l, count, inst);
            && l1.db == l.db && SamePlan(l1.session, l.session) && OnInstance(l1.session, inst)
            && RowsKept(l1, l) && l1.session.settleRounds <= 2
  {
    assert CursorOf(l.cursors, l.session.peer, l.session.plans[l.session.idx].log).settled.None?;
  }

  lemma PullingPlaced(w: World, apart: set<ClaimHash>, n: Session, c: State, s: State, inst: InstanceId)
    requires Open(n) && OnInstance(n, inst) && n.settleRounds <= 2 && n.cursor.pull < n.peerCount
    ensures var n' := n.(phase := Pulling);
            Valid(n') && SamePlan(n', n) && Placed(w, apart, n', c, s, inst)
  {
  }

  lemma FirstStatusKeeps(w: World, apart: set<ClaimHash>, l: Local, s: State, inst: InstanceId)
    requires OnTheWay(w, apart, l, s, inst) && InProgress(l) && l.session.phase.FirstStatus?
    ensures OnTheWay(w, apart, FeedFirstStatus(l, LogLen(s, PlanOf(l.session).log),
            Fingerprint(s, PlanOf(l.session).log), inst), s, inst)
  {
    var log := PlanOf(l.session).log;
    var count, fp := LogLen(s, log), Fingerprint(s, log);
    hide ProperBut, NothingSettledYet, EvenBefore, Fingerprint, LogLen, SettleWith, BeginPrimaryPush, Valid, Placed,
         RowsKept,
         Contacted, OnInstance, FeedFirstStatus, DistinctLogs;
    var l1 := Contacted(l, count, inst);
    var n1 := l1.session;
    ContactedShape(l, count, inst);
    FirstStatusFromContact(l, count, fp, inst);
    PeerCountContacted(l, count, inst);
    if PlanOf(n1).pull && n1.cursor.pull < count {
      PullingPlaced(w, apart, n1, l.db, s, inst);
      var l2 := l1.(session := n1.(phase := Pulling));
      SameCursorSameRows(l2, l1, l);
      MoveKeeps(w, apart, l, s, inst, l2);
    } else {
      PrimaryPushPlaced(w, apart, n1, l.db, s, inst);
      var l2 := l1.(session := BeginPrimaryPush(n1, l.db));
      SameCursorSameRows(l2, l1, l);
      MoveKeeps(w, apart, l, s, inst, l2);
      if l2.session.phase.Settling? {
        SettleKeeps(w, apart, l2, s, inst);
      }
    }
  }

  lemma SameCursorSameRows(l': Local, l1: Local, l: Local)
    requires Open(l.session) && RowsKept(l1, l) && l'.cursors == l1.cursors && l'.session.cursor == l1.session.cursor
    ensures RowsKept(l', l)
  {
  }

  // ── Taking in and handing over ───────────────────────────────────────

  lemma {:induction false} TakeAllIngests(l: Local, f: Filter, arts: seq<Artifact>)
    requires forall i | 0 <= i < |arts| :: Admits(f, Checked(arts[i]))
    ensures TakeAll(l, f, Wrap(arts)).db == IngestAll(l.db, arts, l.session.now)
    decreases |arts|
  {
    hide Ingested, ReportOf;
    if arts != [] {
      var l1 := TakeIn(l, f, Checked(arts[0]));
      assert Wrap(arts)[1..] == Wrap(arts[1..]);
      TakeAllIngests(l1, f, arts[1..]);
    }
  }

  lemma {:induction false} AcceptAllIngests(s: State, arts: seq<Artifact>, now: int)
    ensures AcceptAll(s, Wrap(arts), now) == IngestAll(s, arts, now)
    decreases |arts|
  {
    hide Ingested;
    if arts != [] {
      assert Wrap(arts)[1..] == Wrap(arts[1..]);
      AcceptAllIngests(Ingested(s, arts[0], now), arts[1..], now);
    }
  }

  lemma EvenBeforeStays(w: World, apart: set<ClaimHash>, l: Local, l': Local, s: State)
    requires EvenBefore(l, s) && Closer(w, apart, l.db, l'.db, s)
    requires l'.session.plans == l.session.plans && l'.session.idx == l.session.idx
    ensures EvenBefore(l', s)
  {
    hide Gapless, Closer;
    forall i | 0 <= i < l'.session.idx && i < |l'.session.plans|
      ensures Even(l'.session.plans[i], l'.db, s)
    {
      GaplessStays(w, apart, l.db, l'.db, s, l'.session.plans[i].log);
    }
  }

  lemma EvenBeforeStaysRemotely(w: World, apart: set<ClaimHash>, l: Local, s: State, s': State)
    requires EvenBefore(l, s) && Closer(w, apart, s, s', l.db)
    ensures EvenBefore(l, s')
  {
    hide Gapless, Closer;
    forall i | 0 <= i < l.session.idx && i < |l.session.plans|
      ensures Even(l.session.plans[i], l.db, s')
    {
      GaplessStays(w, apart, s, s', l.db, l.session.plans[i].log);
    }
  }

  lemma OffersStillCover(w: World, apart: set<ClaimHash>, batch: seq<Artifact>, c: State, c': State, s: State,
                         log: LogId)
    requires OffersCover(batch, c, s, log) && Closer(w, apart, c, c', s)
    ensures OffersCover(batch, c', s, log)
  {
    hide Lacks, Closer, Held;
    forall id | Lacks(s, c', log, id)
      ensures Offered(batch, c', id)
    {
      CloserMeans(w, apart, c, c', s, log, id);
      assert Offered(batch, c, id);
    }
  }

  lemma OffersStayGood(w: World, apart: set<ClaimHash>, batch: seq<Artifact>, c: State, c': State, s: State)
    requires AllOfferable(w, apart, batch, c) && Closer(w, apart, c, c', s)
    ensures AllOfferable(w, apart, batch, c')
  {
    hide Lacks, Held, Offerable;
  }

  /** Taking in rows the responder may offer. */
  lemma TakenIn(w: World, apart: set<ClaimHash>, l: Local, s: State, f: Filter, arts: seq<Artifact>)
    requires ProperBut(w, apart, l.db) && ProperBut(w, apart, s) && EvenBefore(l, s) && AllOfferable(w, apart, arts, s)
    requires forall i | 0 <= i < |arts| :: Admits(f, Checked(arts[i]))
    ensures var l' := TakeAll(l, f, Wrap(arts));
            && ProperBut(w, apart, l'.db) && Closer(w, apart, l.db, l'.db, s) && EvenBefore(l', s)
            && l'.db == IngestAll(l.db, arts, l.session.now) && l'.cursors == l.cursors
            && l'.session == l.session.(report := l'.session.report, clean := l'.session.clean)
  {
    hide ProperBut, EvenBefore, Offerable, Closer, Lacks, TakeAll, IngestAll, Admits;
    TakeFrom(w, apart, l.db, s, arts, l.session.now);
    TakeAllIngests(l, f, arts);
    TakeAllKeepsPlace(l, f, Wrap(arts));
    EvenBeforeStays(w, apart, l, TakeAll(l, f, Wrap(arts)), s);
  }

  lemma PullKeeps(w: World, apart: set<ClaimHash>, l: Local, s: State, inst: InstanceId)
    requires OnTheWay(w, apart, l, s, inst) && InProgress(l) && l.session.phase.Pulling?
    ensures OnTheWay(w, apart, FeedPulled(l, Wrap(Take(ServeSince(s, PlanOf(l.session).log, l.session.cursor.pull),
            BATCH))), s, inst)
  {
    var n := l.session;
    var log := PlanOf(n).log;
    var all := ServeSince(s, log, n.cursor.pull);
    var arts := Take(all, BATCH);
    CursorIsPlaced(w, apart, l, s, inst);
    OpenInProgress(l);
    ServedIsOfferable(w, apart, s, log, n.cursor.pull);
    hide ProperBut, EvenBefore, Offerable, ServeSince, BeginPrimaryPush, TakeAll, Pulled, Closer, IngestAll, Valid,
         Placed, RowsKept,
         NothingSettledYet, DistinctLogs, InProgress, OnInstance, Staged;
    if arts == [] {
      PrimaryPushPlaced(w, apart, n, l.db, s, inst);
      var l' := l.(session := BeginPrimaryPush(n, l.db));
      SameRows(l', l);
      MoveKeeps(w, apart, l, s, inst, l');
    } else {
      assert AllOfferable(w, apart, arts, s) by { assert forall i | 0 <= i < |arts| :: arts[i] == all[i]; }
      TakenIn(w, apart, l, s, OfLog(log), arts);
      hide FeedPulled, AllOfferable;
      PulledKeeps(w, apart, l, s, inst, Wrap(arts));
    }
  }

  lemma PulledKeeps(w: World, apart: set<ClaimHash>, l: Local, s: State, inst: InstanceId, events: seq<Event>)
    requires OnTheWay(w, apart, l, s, inst) && InProgress(l) && l.session.phase.Pulling? && events != []
    requires var l1 := TakeAll(l, OfLog(PlanOf(l.session).log), events); ProperBut(w, apart, l1.db) && EvenBefore(l1, s)
    ensures OnTheWay(w, apart, FeedPulled(l, events), s, inst)
  {
    CursorIsPlaced(w, apart, l, s, inst);
    PulledShape(l, events);
    var l1 := TakeAll(l, OfLog(PlanOf(l.session).log), events);
    TakeAllKeepsPlace(l, OfLog(PlanOf(l.session).log), events);
    hide ProperBut, OnTheWay, BeginPrimaryPush, TakeAll, Pulled, FeedPulled, Valid, Placed, InProgress, Staged, Gapless;
    var l2 := Pulled(l, events);
    assert OnInstance(l2.session, inst) && RowsKept(l2, l);
    hide RowsKept, OnInstance;
    if l2.session.cursor.pull >= l2.session.peerCount {
      var l3 := l2.(session := BeginPrimaryPush(l2.session, l2.db));
      PrimaryPushPlaced(w, apart, l2.session, l2.db, s, inst);
      SameCursorSameRows(l3, l2, l);
      assert EvenBefore(l3, s);
      StepKeeps(w, apart, l, s, inst, l3, s);
    } else {
      PlainPlaced(w, apart, l2.session, l2.db, s, inst);
      assert EvenBefore(l2, s);
      StepKeeps(w, apart, l, s, inst, l2, s);
    }
  }

  /** The part of a push batch that a chunk delivers, and what is left of it. */
  lemma ChunkCovers(w: World, apart: set<ClaimHash>, c: State, s: State, s': State, batch: seq<Artifact>, k: nat,
                    log: LogId)
    requires k <= |batch| && OffersCover(batch, c, s, log) && Closer(w, apart, s, s', c)
    requires Delivered(batch[..k], s', c)
    ensures OffersCover(batch[k..], c, s', log)
  {
    hide Lacks, Closer, Complete;
    assert forall i | 0 <= i < k :: batch[..k][i] == batch[i];
    forall id | Lacks(s', c, log, id)
      ensures Offered(batch[k..], c, id)
    {
      CloserMeans(w, apart, s, s', c, log, id);
      assert Offered(batch, c, id);
      var i :| 0 <= i < |batch| && batch[i].id == id && Complete(batch[i], c);
      assert batch[k..][i - k] == batch[i];
    }
  }

  /** Nothing left to fetch, nothing left to publish: no gap. */
  lemma NothingWantedIsGapless(c: State, s: State, log: LogId)
    requires WantsCover([], c, s, log)
    ensures Gapless(c, s, log)
  {
    hide Lacks;
    forall id
      ensures !Lacks(c, s, log, id)
    {
      assert Lacks(c, s, log, id) ==> id in [];
    }
  }

  lemma NothingOfferedIsGapless(c: State, s: State, log: LogId)
    requires OffersCover([], c, s, log)
    ensures Gapless(s, c, log)
  {
    hide Lacks;
    forall id
      ensures !Lacks(s, c, log, id)
    {
      assert Lacks(s, c, log, id) ==> Offered([], c, id);
    }
  }

  /** One chunk published: the rest of the batch is still good for the rest of the gap. */
  lemma PushStep(w: World, apart: set<ClaimHash>, c: State, s: State, batch: seq<Artifact>, k: nat, after: AfterPush,
                 plan: Plan, now: int)
    requires ProperBut(w, apart, c) && ProperBut(w, apart, s) && k <= |batch|
             && PushStaged(w, apart, batch, after, plan, c, s)
    ensures var s' := IngestAll(s, batch[..k], now);
            ProperBut(w, apart, s') && Closer(w, apart, s, s', c)
              && PushStaged(w, apart, batch[k..], after, plan, c, s')
  {
    var chunk := batch[..k];
    var s' := IngestAll(s, chunk, now);
    assert AllOfferable(w, apart, chunk, c) && AllOfferable(w, apart, batch[k..], c);
    hide ProperBut, Closer, IngestAll, Gapless, OffersCover, AllOfferable, Delivered;
    TakeFrom(w, apart, s, c, chunk, now);
    if after.ToResettle? {
      GaplessStays(w, apart, s, s', c, plan.log);
      if plan.push {
        ChunkCovers(w, apart, c, s, s', batch, k, plan.log);
      }
    }
  }

  /** Nothing left to publish after a diff: no gaps are left either. */
  lemma PushedOut(w: World, apart: set<ClaimHash>, plan: Plan, c: State, s: State)
    requires PushStaged(w, apart, [], ToResettle, plan, c, s)
    ensures Even(plan, c, s)
  {
    if plan.push {
      NothingOfferedIsGapless(c, s, plan.log);
    }
  }

  lemma AckStaysOn(l: Local, stored: nat, rejected: nat, inst: InstanceId)
    requires InProgress(l) && l.session.phase.Publishing? && OnInstance(l.session, inst)
    ensures var l' := FeedAck(l, stored, rejected); OnInstance(l'.session, inst) && RowsKept(l', l)
  {
    AckShape(l, stored, rejected);
    hide FeedAck;
  }

  lemma PublishKeeps(w: World, apart: set<ClaimHash>, l: Local, s: State, inst: InstanceId, now: int, stored: nat,
                     rejected: nat)
    requires OnTheWay(w, apart, l, s, inst) && InProgress(l) && l.session.phase.Publishing?
    ensures OnTheWay(w, apart, FeedAck(l, stored, rejected), Served(s, now, NextRequest(l.session).value), inst)
  {
    var n := l.session;
    var end := Chunk(n.pushSent, |n.pushBatch|);
    var pending := n.pushBatch[n.pushSent..];
    var k := end - n.pushSent;
    var s' := Served(s, now, NextRequest(n).value);
    CursorIsPlaced(w, apart, l, s, inst);
    OpenInProgress(l);
    assert n.pushBatch[n.pushSent..end] == pending[..k] && n.pushBatch[end..] == pending[k..];
    AcceptAllIngests(s, pending[..k], now);
    assert s' == IngestAll(s, pending[..k], now);
    AckShape(l, stored, rejected);
    AckStaysOn(l, stored, rejected, inst);
    hide ProperBut, FeedAck, IngestAll, Gapless, Closer, PushStaged, Valid, RowsKept, OnInstance, Served, NextRequest,
         InProgress;
    PushStep(w, apart, l.db, s, pending, k, n.afterPush, PlanOf(n), now);
    EvenBeforeStaysRemotely(w, apart, l, s, s');
    PublishedKeeps(w, apart, l, s, inst, FeedAck(l, stored, rejected), s');
  }

  lemma PublishedKeeps(w: World, apart: set<ClaimHash>, l: Local, s: State, inst: InstanceId, l': Local, s': State)
    requires OnTheWay(w, apart, l, s, inst) && InProgress(l) && l'.db == l.db && SamePlan(l'.session, l.session)
    requires ProperBut(w, apart, s') && EvenBefore(l, s') && OnInstance(l'.session, inst) && RowsKept(l', l)
             && Valid(l'.session)
    requires l'.session.pushSent <= |l'.session.pushBatch|
    requires PushStaged(w, apart, l'.session.pushBatch[l'.session.pushSent..], l'.session.afterPush, PlanOf(l.session),
             l.db, s')
    requires l'.session.phase == (if l'.session.pushSent < |l'.session.pushBatch| then Publishing
                                  else if l'.session.afterPush.ToSettle? then Settling else Resettling)
    ensures OnTheWay(w, apart, l', s', inst)
  {
    hide ProperBut, Gapless, PushStaged, RowsKept, OnInstance, NothingSettledYet, DistinctLogs, Valid;
    OpenInProgress(l);
    if l'.session.phase.Resettling? {
      assert l'.session.pushBatch[l'.session.pushSent..] == [];
      PushedOut(w, apart, PlanOf(l.session), l.db, s');
    }
    assert Placed(w, apart, l'.session, l'.db, s', inst);
    assert EvenBefore(l', s');
    StepKeeps(w, apart, l, s, inst, l', s');
  }

  // ── Reconciling ──────────────────────────────────────────────────────

  lemma WantsAreLacks(w: World, apart: set<ClaimHash>, c: State, s: State, log: LogId, id: ClaimHash)
    requires ProperBut(w, apart, c) && ProperBut(w, apart, s)
    ensures id in WantSet(c, log, OurHashes(s, log)) <==> Lacks(c, s, log, id)
  {
    LogOf(w, c, id, log);
    LogOf(w, s, id, log);
    hide ProperBut;
  }

  lemma OffersIncludeLacks(w: World, apart: set<ClaimHash>, c: State, s: State, log: LogId, id: ClaimHash)
    requires ProperBut(w, apart, c) && ProperBut(w, apart, s)
    ensures Lacks(s, c, log, id) ==> id in OfferSet(c, log, OurHashes(s, log))
  {
    LogOf(w, c, id, log);
    LogOf(w, s, id, log);
    hide ProperBut;
  }

  /** What is offered is exactly what the peer does not hold, or holds without the body we have. */
  lemma OffersAre(w: World, apart: set<ClaimHash>, c: State, s: State, log: LogId, id: ClaimHash)
    requires ProperBut(w, apart, c) && ProperBut(w, apart, s)
    ensures id in OfferSet(c, log, OurHashes(s, log)) <==>
            InLog(c, log, id) && (id !in s.claims || (Held(c, id) && !Held(s, id)))
  {
    LogOf(w, c, id, log);
    LogOf(w, s, id, log);
    hide ProperBut;
  }

  /** What the diff stages covers both sides' gaps. */
  lemma DiffCovers(w: World, apart: set<ClaimHash>, c: State, s: State, log: LogId) returns (wants: seq<ClaimHash>,
                   offers: seq<Artifact>)
    requires ProperBut(w, apart, c) && ProperBut(w, apart, s)
    ensures wants == SortIds(ById(), WantSet(c, log, OurHashes(s, log)))
    ensures offers == Artifacts(c, SortIds(ById(), OfferSet(c, log, OurHashes(s, log))))
    ensures WantsCover(wants, c, s, log) && OffersCover(offers, c, s, log) && AllOfferable(w, apart, offers, c)
    ensures forall i | 0 <= i < |wants| :: wants[i] in s.claims
  {
    hide ProperBut, Lacks, Ascending, Offerable, Complete;
    var theirs := OurHashes(s, log);
    wants := SortIds(ById(), WantSet(c, log, theirs));
    SortIdsLists(ById(), WantSet(c, log, theirs));
    var ids := SortIds(ById(), OfferSet(c, log, theirs));
    SortIdsLists(ById(), OfferSet(c, log, theirs));
    offers := Artifacts(c, ids);
    hide SortIds, WantSet, OfferSet, OurHashes;
    forall i | 0 <= i < |ids|
      ensures ids[i] in c.claims
    {
      assert ids[i] in ids;
      OfferedIsOurs(c, log, theirs, ids[i]);
    }
    RowsAreOfferable(w, apart, c, ids);
    forall id | Lacks(c, s, log, id)
      ensures id in wants
    {
      WantsAreLacks(w, apart, c, s, log, id);
    }
    forall id | Lacks(s, c, log, id)
      ensures Offered(offers, c, id)
    {
      OffersIncludeLacks(w, apart, c, s, log, id);
      assert id in ids;
      var i :| 0 <= i < |ids| && ids[i] == id;
      assert offers[i].id == id && Complete(offers[i], c);
    }
    forall i | 0 <= i < |wants|
      ensures wants[i] in s.claims
    {
      assert wants[i] in wants;
      WantedIsTheirs(c, s, log, wants[i]);
    }
  }

  lemma OfferedIsOurs(c: State, log: LogId, theirs: map<ClaimHash, bool>, id: ClaimHash)
    requires id in OfferSet(c, log, theirs)
    ensures id in c.claims
  {
  }

  lemma WantedIsTheirs(c: State, s: State, log: LogId, id: ClaimHash)
    requires id in WantSet(c, log, OurHashes(s, log))
    ensures id in s.claims
  {
  }

  /** From a drained want list: publish the offers, or record where we landed. */
  lemma AfterFetchingPlaced(w: World, apart: set<ClaimHash>, n: Session, c: State, s: State, inst: InstanceId)
    requires Open(n) && OnInstance(n, inst) && n.settleRounds <= 2
             && FetchStaged(w, apart, [], n.extraBatch, PlanOf(n), c, s)
    ensures var n' := AfterFetching(n);
            && Valid(n') && !n'.phase.Starting? && SamePlan(n', n) && n'.cursor == n.cursor
               && Placed(w, apart, n', c, s, inst)
  {
    hide AllOfferable, Gapless, WantsCover, OffersCover;
    assert n.extraBatch[0..] == n.extraBatch;
    if PlanOf(n).pull {
      NothingWantedIsGapless(c, s, PlanOf(n).log);
    }
    if PlanOf(n).push && n.extraBatch == [] {
      NothingOfferedIsGapless(c, s, PlanOf(n).log);
    }
  }

  lemma FetchingPlaced(w: World, apart: set<ClaimHash>, n: Session, c: State, s: State, inst: InstanceId)
    requires Open(n) && OnInstance(n, inst) && n.settleRounds <= 2 && n.wantSent < |n.wantIds|
    requires FetchStaged(w, apart, n.wantIds[n.wantSent..], n.extraBatch, PlanOf(n), c, s)
    ensures var n' := n.(phase := Fetching);
            Valid(n') && SamePlan(n', n) && n'.cursor == n.cursor && Placed(w, apart, n', c, s, inst)
  {
    hide FetchStaged;
  }

  lemma DiffStages(w: World, apart: set<ClaimHash>, c: State, s: State, plan: Plan) returns (wants: seq<ClaimHash>,
                   offers: seq<Artifact>)
    requires ProperBut(w, apart, c) && ProperBut(w, apart, s)
    ensures wants == if plan.pull then SortIds(ById(), WantSet(c, plan.log, OurHashes(s, plan.log))) else []
    ensures offers == if plan.push then Artifacts(c, SortIds(ById(), OfferSet(c, plan.log, OurHashes(s, plan.log))))
            else []
    ensures FetchStaged(w, apart, wants, offers, plan, c, s)
  {
    hide ProperBut, Offerable, WantsCover, OffersCover, SortIds, WantSet, OfferSet, OurHashes, Artifacts;
    var wants', offers' := DiffCovers(w, apart, c, s, plan.log);
    wants := if plan.pull then wants' else [];
    offers := if plan.push then offers' else [];
  }

  lemma HashesKeep(w: World, apart: set<ClaimHash>, l: Local, s: State, inst: InstanceId)
    requires OnTheWay(w, apart, l, s, inst) && InProgress(l) && l.session.phase.Reconciling?
    ensures OnTheWay(w, apart, l.(session := Diffed(l.session, l.db, HashMap(LogHashes(s, PlanOf(l.session).log)))), s,
            inst)
  {
    var n := l.session;
    var plan := PlanOf(n);
    CursorIsPlaced(w, apart, l, s, inst);
    OpenInProgress(l);
    TheirHashes(s, plan.log);
    hide ProperBut, SortIds, OurHashes, WantSet, OfferSet, AfterFetching, LogHashes, HashMap, FetchStaged, Artifacts,
         Valid, Placed, RowsKept,
         EvenBefore, NothingSettledYet, OnInstance, InProgress, Staged, DistinctLogs;
    var wants, offers := DiffStages(w, apart, l.db, s, plan);
    var n1 := n.(wantIds := wants, wantSent := 0, extraBatch := offers);
    assert OnInstance(n1, inst) by { OnlyTheCursorCounts(n, n1, inst); }
    var l' := l.(session := Diffed(n, l.db, OurHashes(s, plan.log)));
    if wants == [] {
      AfterFetchingPlaced(w, apart, n1, l.db, s, inst);
    } else {
      assert wants[0..] == wants;
      FetchingPlaced(w, apart, n1, l.db, s, inst);
    }
    SameRows(l', l);
    MoveKeeps(w, apart, l, s, inst, l');
  }

  lemma OnlyTheCursorCounts(n: Session, n': Session, inst: InstanceId)
    requires OnInstance(n, inst) && n'.cursor == n.cursor
    ensures OnInstance(n', inst)
  {
  }

  lemma WantsShrink(w: World, apart: set<ClaimHash>, c: State, c': State, s: State, wants: seq<ClaimHash>, k: nat,
                    log: LogId)
    requires k <= |wants| && WantsCover(wants, c, s, log) && Closer(w, apart, c, c', s)
    requires forall i | 0 <= i < k :: !Lacks(c', s, log, wants[i])
    ensures WantsCover(wants[k..], c', s, log)
  {
    hide Lacks, Closer;
    forall id | Lacks(c', s, log, id)
      ensures id in wants[k..]
    {
      CloserMeans(w, apart, c, c', s, log, id);
      var i :| 0 <= i < |wants| && wants[i] == id;
      assert wants[k..][i - k] == id;
    }
  }

  /** Every row handed over for an id closed that id's gap. */
  lemma RowsClose(w: World, apart: set<ClaimHash>, c': State, s: State, ids: seq<ClaimHash>, log: LogId)
    requires ProperBut(w, apart, s) && (forall i | 0 <= i < |ids| :: ids[i] in s.claims)
             && Delivered(Artifacts(s, ids), c', s)
    ensures forall i | 0 <= i < |ids| :: !Lacks(c', s, log, ids[i])
  {
    hide ProperBut, Lacks, Complete;
    RowsAreOfferable(w, apart, s, ids);
  }

  /** One chunk fetched: what is left to fetch covers what is still lacking. */
  lemma FetchStep(w: World, apart: set<ClaimHash>, c: State, s: State, wants: seq<ClaimHash>, k: nat,
                  offers: seq<Artifact>, plan: Plan, now: int)
    requires ProperBut(w, apart, c) && ProperBut(w, apart, s) && k <= |wants|
             && FetchStaged(w, apart, wants, offers, plan, c, s)
    ensures var arts := Artifacts(s, wants[..k]);
            var c' := IngestAll(c, arts, now);
            && AllOfferable(w, apart, arts, s) && (forall i | 0 <= i < |arts| :: arts[i].id in wants[..k])
            && FetchStaged(w, apart, wants[k..], offers, plan, c', s)
  {
    var ids := wants[..k];
    var arts := Artifacts(s, ids);
    var c' := IngestAll(c, arts, now);
    assert forall i | 0 <= i < |ids| :: ids[i] == wants[i];
    hide ProperBut, Offerable, Complete, Closer, IngestAll, WantsCover, OffersCover, Delivered, AllOfferable;
    RowsAreOfferable(w, apart, s, ids);
    assert forall i | 0 <= i < |arts| :: arts[i].id == ids[i] && ids[i] in ids;
    TakeFrom(w, apart, c, s, arts, now);
    OffersStayGood(w, apart, offers, c, c', s);
    if plan.push {
      OffersStillCover(w, apart, offers, c, c', s, plan.log);
    }
    if plan.pull {
      RowsClose(w, apart, c', s, ids, plan.log);
      WantsShrink(w, apart, c, c', s, wants, k, plan.log);
    }
  }

  lemma FetchKeeps(w: World, apart: set<ClaimHash>, l: Local, s: State, inst: InstanceId)
    requires OnTheWay(w, apart, l, s, inst) && InProgress(l) && l.session.phase.Fetching?
    ensures OnTheWay(w, apart, FeedClaims(l, Wrap(Artifacts(s,
            l.session.wantIds[l.session.wantSent..Chunk(l.session.wantSent, |l.session.wantIds|)]))), s, inst)
  {
    hide OnTheWay, FeedClaims, ProperBut, IngestAll, TakeAll, AfterFetching, OnInstance, Artifacts, FetchStaged, Closer,
         AllOfferable, EvenBefore;
    var n := l.session;
    var end := Chunk(n.wantSent, |n.wantIds|);
    var wants := n.wantIds[n.wantSent..];
    var ids := n.wantIds[n.wantSent..end];
    assert ids == wants[..end - n.wantSent] && n.wantIds[end..] == wants[end - n.wantSent..];
    var arts := Artifacts(s, ids);
    CursorIsPlaced(w, apart, l, s, inst);
    OpenInProgress(l);
    WayIsProper(w, apart, l, s, inst);
    FetchStep(w, apart, l.db, s, wants, end - n.wantSent, n.extraBatch, PlanOf(n), n.now);
    ClaimsShape(l, Wrap(arts));
    hide Valid, InProgress;
    TakenIn(w, apart, l, s, Asked(ids), arts);
    FetchedKeeps(w, apart, l, s, inst, TakeAll(l, Asked(ids), Wrap(arts)), end, FeedClaims(l, Wrap(arts)));
  }

  lemma WayIsProper(w: World, apart: set<ClaimHash>, l: Local, s: State, inst: InstanceId)
    requires OnTheWay(w, apart, l, s, inst)
    ensures ProperBut(w, apart, l.db) && ProperBut(w, apart, s) && EvenBefore(l, s)
  {
  }

  lemma WayIsValid(w: World, apart: set<ClaimHash>, l: Local, s: State, inst: InstanceId)
    requires OnTheWay(w, apart, l, s, inst)
    ensures Valid(l.session) && !l.session.phase.Starting?
  {
  }

  lemma FetchedKeeps(w: World, apart: set<ClaimHash>, l: Local, s: State, inst: InstanceId, l1: Local, end: nat,
                     l': Local)
    requires OnTheWay(w, apart, l, s, inst) && InProgress(l) && OnInstance(l.session, inst)
    requires ProperBut(w, apart, l1.db) && EvenBefore(l1, s) && l1.cursors == l.cursors
    requires SamePlan(l1.session, l.session) && l1.session.cursor == l.session.cursor && l1.session.settleRounds <= 2
    requires end <= |l1.session.wantIds|
    requires FetchStaged(w, apart, l1.session.wantIds[end..], l1.session.extraBatch, PlanOf(l.session), l1.db, s)
    requires var n1 := l1.session.(wantSent := end);
             l' == l1.(session := if end < |n1.wantIds| then n1.(phase := Fetching) else AfterFetching(n1))
    ensures OnTheWay(w, apart, l', s, inst)
  {
    hide ProperBut, AfterFetching, FetchStaged, Valid, Placed, RowsKept, Gapless, NothingSettledYet, OnInstance,
         DistinctLogs;
    OpenInProgress(l);
    var n1 := l1.session.(wantSent := end);
    OnlyTheCursorCounts(l.session, n1, inst);
    if end < |n1.wantIds| {
      FetchingPlaced(w, apart, n1, l1.db, s, inst);
    } else {
      assert n1.wantIds[end..] == [];
      AfterFetchingPlaced(w, apart, n1, l1.db, s, inst);
    }
    SameRows(l', l);
    assert EvenBefore(l', s);
    StepKeeps(w, apart, l, s, inst, l', s);
  }

  lemma ResettleKeeps(w: World, apart: set<ClaimHash>, l: Local, s: State, inst: InstanceId, fp: Print)
    requires OnTheWay(w, apart, l, s, inst) && InProgress(l) && l.session.phase.Resettling?
    ensures OnTheWay(w, apart, FeedResettle(l, fp, inst), s, inst)
  {
    hide ProperBut, Gapless, FinishLog;
    var n := l.session;
    var cursor := n.cursor.(settled := Some(fp));
    FinishLogShape(n.(cursor := cursor));
    FinishLogShape(n);
    FinishKeeps(w, apart, l, s, inst, FeedResettle(l, fp, inst), cursor);
  }

  // ── The theorem ──────────────────────────────────────────────────────

  lemma ExchangeKeeps(w: World, apart: set<ClaimHash>, l: Local, s: State, inst: InstanceId, now: int)
    requires OnTheWay(w, apart, l, s, inst) && InProgress(l)
    ensures var next := Exchanged(l, s, inst, now);
            OnTheWay(w, apart, next.local, next.remote, inst)
  {
    hide OnTheWay, FeedFirstStatus, FeedPulled, FeedAck, SettleWith, Diffed, FeedClaims, FeedResettle, ServeSince,
         LogHashes,
         Fingerprint, LogLen, AcceptAll, Artifacts, HashMap, Wrap, AckOf;
    var n := l.session;
    match n.phase
    case FirstStatus => FirstStatusKeeps(w, apart, l, s, inst);
    case Pulling => PullKeeps(w, apart, l, s, inst);
    case Publishing =>
      var ack := Answer(l, s, inst, now);
      AcksAreAcks(s, NextRequest(n).value.events, now);
      PublishKeeps(w, apart, l, s, inst, now, ack.stored, ack.rejected);
    case Settling => SettleKeeps(w, apart, l, s, inst);
    case Reconciling => HashesKeep(w, apart, l, s, inst);
    case Fetching => FetchKeeps(w, apart, l, s, inst);
    case Resettling => ResettleKeeps(w, apart, l, s, inst, Fingerprint(s, PlanOf(n).log));
  }

  lemma {:induction false} DriveKeeps(w: World, apart: set<ClaimHash>, l: Local, s: State, inst: InstanceId, now: int)
    requires OnTheWay(w, apart, l, s, inst) && Valid(l.session) && !l.session.phase.Starting?
    ensures var end := DriveHonest(l, s, inst, now);
            OnTheWay(w, apart, end.local, end.remote, inst) && end.local.session.phase.Finished?
            && end.local.session.plans == l.session.plans
    decreases LogsLeft(l.session), 3 - l.session.settleRounds, PhaseRank(l.session), Items(l.session)
  {
    hide OnTheWay, Exchanged;
    if !l.session.phase.Finished? {
      ExchangedIsNearer(l, s, inst, now);
      ExchangeKeeps(w, apart, l, s, inst, now);
      ExchangeKeepsPlans(l, s, inst, now);
      var next := Exchanged(l, s, inst, now);
      DriveKeeps(w, apart, next.local, next.remote, inst, now);
    }
  }

  /** The plan never changes, and a session that finishes has passed its last log. */
  predicate PlansKept(n': Session, n: Session) {
    n'.plans == n.plans && (n'.phase.Finished? ==> n'.idx >= |n'.plans|)
  }

  lemma SettleKeepsPlans(l: Local, count: nat, fp: Print, inst: InstanceId)
    requires Open(l.session)
    ensures PlansKept(SettleWith(l, count, fp, inst).session, l.session)
  {
    hide Fingerprint, BeginPrimaryPush, FinishLog;
    var n := l.session;
    var n1 := n.(report := n.report.(cursorResets := n.report.cursorResets + 1), cursor := FreshCursor(inst));
    var n2 := n1.(peerCount := count, settleRounds := n.settleRounds + 1);
    FinishedIsPast(n2);
    PrimaryPushKeeps(n2, l.db);
    FinishedIsPast(n.(cursor := n.cursor.(settled := Some(fp))));
    FinishedIsPast(n);
  }

  lemma FirstStatusKeepsPlans(l: Local, count: nat, fp: Print, inst: InstanceId)
    requires InProgress(l)
    ensures PlansKept(FeedFirstStatus(l, count, fp, inst).session, l.session)
  {
    hide FeedFirstStatus, SettleWith, BeginPrimaryPush;
    FirstStatusFromContact(l, count, fp, inst);
    var l1 := Contacted(l, count, inst);
    PrimaryPushKeeps(l1.session, l.db);
    var l2 := l1.(session := BeginPrimaryPush(l1.session, l.db));
    SettleKeepsPlans(l2, count, fp, inst);
  }

  lemma PulledKeepsPlans(l: Local, events: seq<Event>)
    requires InProgress(l) && l.session.phase.Pulling?
    ensures PlansKept(FeedPulled(l, events).session, l.session)
  {
    hide TakeAll, BeginPrimaryPush;
    PrimaryPushKeeps(l.session, l.db);
    TakeAllKeepsPlace(l, OfLog(PlanOf(l.session).log), events);
    var l2 := Pulled(l, events);
    PrimaryPushKeeps(l2.session, l2.db);
  }

  lemma ResettleKeepsPlans(l: Local, fp: Print, inst: InstanceId)
    requires Open(l.session)
    ensures PlansKept(FeedResettle(l, fp, inst).session, l.session)
  {
    hide FinishLog;
    FinishedIsPast(l.session.(cursor := l.session.cursor.(settled := Some(fp))));
    FinishedIsPast(l.session);
  }

  lemma FeedKeepsPlans(l: Local, r: Response)
    requires InProgress(l) && Feed(l, r).Some?
    ensures PlansKept(Feed(l, r).value.session, l.session)
  {
    hide FeedFirstStatus, FeedPulled, SettleWith, FeedResettle, TakeAll, SortIds, WantSet, OfferSet, Artifacts;
    var n := l.session;
    match n.phase
    case FirstStatus => FirstStatusKeepsPlans(l, r.count, r.fp, r.instance);
    case Pulling => PulledKeepsPlans(l, r.events);
    case Settling => SettleKeepsPlans(l, r.count, r.fp, r.instance);
    case Fetching => ClaimsShape(l, r.events);
    case Resettling => ResettleKeepsPlans(l, r.fp, r.instance);
    case _ =>
  }

  lemma FinishedIsPast(n: Session)
    ensures FinishLog(n).plans == n.plans && (FinishLog(n).phase.Finished? ==> FinishLog(n).idx >= |n.plans|)
  {
  }

  lemma ExchangeKeepsPlans(l: Local, s: State, inst: InstanceId, now: int)
    requires InProgress(l)
    ensures PlansKept(Exchanged(l, s, inst, now).local.session, l.session)
  {
    hide Feed, Respond, Valid;
    HonestAnswersFit(l, s, inst, now);
    FeedKeepsPlans(l, Answer(l, s, inst, now));
  }

  lemma {:induction false} DriveEndsPast(l: Local, s: State, inst: InstanceId, now: int)
    requires Valid(l.session) && !l.session.phase.Starting?
             && (l.session.phase.Finished? ==> l.session.idx >= |l.session.plans|)
    ensures var n := DriveHonest(l, s, inst, now).local.session;
            n.idx >= |n.plans|
    decreases LogsLeft(l.session), 3 - l.session.settleRounds, PhaseRank(l.session), Items(l.session)
  {
    hide Exchanged;
    if !l.session.phase.Finished? {
      ExchangedIsNearer(l, s, inst, now);
      ExchangeKeepsPlans(l, s, inst, now);
      var next := Exchanged(l, s, inst, now);
      DriveEndsPast(next.local, next.remote, inst, now);
      DriveEndsFinished(next.local, next.remote, inst, now);
    }
  }

  lemma {:induction false} DriveEndsFinished(l: Local, s: State, inst: InstanceId, now: int)
    requires Valid(l.session) && !l.session.phase.Starting?
    ensures DriveHonest(l, s, inst, now).local.session.phase.Finished?
    decreases LogsLeft(l.session), 3 - l.session.settleRounds, PhaseRank(l.session), Items(l.session)
  {
    hide Exchanged;
    if !l.session.phase.Finished? {
      ExchangedIsNearer(l, s, inst, now);
      var next := Exchanged(l, s, inst, now);
      DriveEndsFinished(next.local, next.remote, inst, now);
    }
  }

  /** No row for this peer remembers a benign difference. */
  ghost predicate NeverSettled(cursors: Cursors, peer: string) {
    forall log :: CursorOf(cursors, peer, log).settled.None?
  }

  lemma {:induction false} PullPlansAre(plans: seq<Plan>, pull: seq<LogId>)
    requires DistinctLogs(plans) && forall i | 0 <= i < |plans| :: plans[i].pull && !plans[i].push
    ensures var ps := PullPlans(plans, pull);
            && DistinctLogs(ps) && (forall i | 0 <= i < |ps| :: ps[i].pull && !ps[i].push)
            && forall log :: PlansLog(ps, log) <==> PlansLog(plans, log) || log in pull
    decreases |pull|
  {
    if pull != [] {
      var next := if PlansLog(plans, pull[0]) then plans else plans + [Plan(pull[0], true, false)];
      forall log
        ensures PlansLog(next, log) <==> PlansLog(plans, log) || log == pull[0]
      {
        if PlansLog(plans, log) {
          var i :| 0 <= i < |plans| && plans[i].log == log;
          assert next[i].log == log;
        }
        if log == pull[0] && next != plans {
          assert next[|plans|].log == log;
        }
      }
      PullPlansAre(next, pull[1..]);
      assert forall log :: log in pull <==> log == pull[0] || log in pull[1..];
    }
  }

  /** The plan for a log, if there is one. */
  ghost predicate HasPlan(plans: seq<Plan>, plan: Plan) { exists i :: 0 <= i < |plans| && plans[i] == plan }

  lemma {:induction false} MarkPushIs(plans: seq<Plan>, log: LogId)
    requires DistinctLogs(plans)
    ensures var ps := MarkPush(plans, log);
            && |plans| <= |ps| <= |plans| + 1
            && (forall i | 0 <= i < |plans| :: ps[i] == if plans[i].log == log then plans[i].(push := true)
               else plans[i])
            && (|ps| == |plans| + 1 <==> !PlansLog(plans, log))
            && (|ps| == |plans| + 1 ==> ps[|plans|] == Plan(log, false, true))
  {
    if plans != [] && plans[0].log != log {
      MarkPushIs(plans[1..], log);
      hide MarkPush, DistinctLogs;
      PlansLogTail(plans, log);
    } else if plans != [] {
      assert plans[0].log == log;
    }
  }

  lemma PlansLogTail(plans: seq<Plan>, log: LogId)
    requires plans != [] && plans[0].log != log
    ensures PlansLog(plans, log) <==> PlansLog(plans[1..], log)
  {
    if PlansLog(plans, log) {
      var i :| 0 <= i < |plans| && plans[i].log == log;
      assert plans[1..][i - 1].log == log;
    }
  }

  lemma MarkPushStaysDistinct(plans: seq<Plan>, log: LogId)
    requires DistinctLogs(plans)
    ensures DistinctLogs(MarkPush(plans, log))
  {
    MarkPushIs(plans, log);
    hide MarkPush;
  }

  lemma {:induction false} PushPlansKeep(plans: seq<Plan>, push: seq<LogId>, log: LogId)
    requires DistinctLogs(plans) && (HasPlan(plans, Plan(log, true, false)) || HasPlan(plans, Plan(log, true, true)))
    ensures DistinctLogs(PushPlans(plans, push))
    ensures HasPlan(PushPlans(plans, push), Plan(log, true, log in push || HasPlan(plans, Plan(log, true, true))))
    decreases |push|
  {
    if push != [] {
      var next := MarkPush(plans, push[0]);
      MarkPushIs(plans, push[0]);
      MarkPushStaysDistinct(plans, push[0]);
      hide MarkPush, DistinctLogs;
      var i :| 0 <= i < |plans| && plans[i].log == log && plans[i].pull;
      assert next[i].log == log && next[i].pull;
      assert HasPlan(next, next[i]);
      PushPlansKeep(next, push[1..], log);
      assert log in push <==> log == push[0] || log in push[1..];
      if HasPlan(plans, Plan(log, true, true)) {
        assert HasPlan(next, Plan(log, true, true));
      }
      if HasPlan(next, Plan(log, true, true)) && !HasPlan(plans, Plan(log, true, true)) {
        assert log == push[0];
      }
    }
  }

  /** However the lists repeat or overlap, a session plans each log once, and both ways if asked both. */
  lemma NewSessionPlans(peer: string, now: int, pull: seq<LogId>, push: seq<LogId>, log: LogId)
    requires log in pull
    ensures var n := NewSession(peer, now, pull, push);
            && DistinctLogs(n.plans) && HasPlan(n.plans, Plan(log, true, log in push))
            && Valid(n) && n.phase.Starting?
  {
    var pulls := PullPlans([], pull);
    PullPlansAre([], pull);
    assert PlansLog(pulls, log);
    var i :| 0 <= i < |pulls| && pulls[i].log == log;
    assert pulls[i] == Plan(log, true, false);
    PushPlansKeep(pulls, push, log);
  }

  /**
   Any two proper stores, any cursor counts and instances, any plan: when the session
   completes, a log it pulled is not lacking here and a log it pushed not there.
   */
  lemma SessionClosesGaps(w: World, apart: set<ClaimHash>, l: Local, s: State, inst: InstanceId, now: int, plan: Plan)
    requires ProperBut(w, apart, l.db) && ProperBut(w, apart, s) && NeverSettled(l.cursors, l.session.peer)
    requires Valid(l.session) && l.session.phase.Starting? && DistinctLogs(l.session.plans)
    requires HasPlan(l.session.plans, plan)
    ensures var end := DriveHonest(l.(session := Opened(l.session)), s, inst, now);
            && ProperBut(w, apart, end.local.db) && ProperBut(w, apart, end.remote)
            && (plan.pull ==> Gapless(end.local.db, end.remote, plan.log))
            && (plan.push ==> Gapless(end.remote, end.local.db, plan.log))
  {
    hide ProperBut, Gapless, AllOfferable, WantsCover, OffersCover;
    var l0 := l.(session := Opened(l.session));
    assert OnTheWay(w, apart, l0, s, inst);
    DriveKeeps(w, apart, l0, s, inst, now);
    DriveEndsPast(l0, s, inst, now);
    var end := DriveHonest(l0, s, inst, now);
    var i :| 0 <= i < |l.session.plans| && l.session.plans[i] == plan;
    assert end.local.session.plans[i] == plan;
    assert Even(plan, end.local.db, end.remote);
  }

  /** Pulled and pushed, a log ends as the same in both stores. */
  lemma SessionConverges(w: World, l: Local, s: State, inst: InstanceId, now: int, log: LogId)
    requires Proper(w, l.db) && Proper(w, s) && NeverSettled(l.cursors, l.session.peer)
    requires Valid(l.session) && l.session.phase.Starting? && DistinctLogs(l.session.plans)
    requires HasPlan(l.session.plans, Plan(log, true, true))
    ensures var end := DriveHonest(l.(session := Opened(l.session)), s, inst, now);
            SameLog(end.local.db, end.remote, log)
  {
    hide ProperBut, Gapless, Level, DriveHonest, Valid, Opened, SameLog;
    OpenedIsValid(l.session);
    SessionClosesGaps(w, {}, l, s, inst, now, Plan(log, true, true));
    var end := DriveHonest(l.(session := Opened(l.session)), s, inst, now);
    LevelIsGapless(end.local.db, end.remote, log);
    LevelAgrees(w, end.local.db, end.remote, log);
  }

  /** The redact claims a store holds without their bodies. */
  ghost function StrippedRedactors(w: World, s: State): set<ClaimHash> {
    set id | id in s.claims && RedactClaim(w, id) && !Held(s, id)
  }

  lemma ProperButStripped(w: World, s: State, apart: set<ClaimHash>)
    requires Healthy(w, s) && Truthful(w, s) && StrippedRedactors(w, s) <= apart
    ensures ProperBut(w, apart, s)
  {
    hide Healthy, RedactClaim, Truthful;
    forall id | id in s.claims && RedactClaim(w, id) && id !in apart
      ensures Held(s, id)
    {
      assert id !in StrippedRedactors(w, s);
    }
  }

  /**
   What a completed session gives where redact claims may be held stripped: the same
   ids of the log on both sides; and the bodies that stay apart are exactly those of
   redact claims one side holds stripped and redacted, all of them stripped on some
   side from the start, and those of the claims only such a one redacts.
   */
  lemma SessionLeavesApart(w: World, l: Local, s: State, inst: InstanceId, now: int, log: LogId)
    requires Healthy(w, l.db) && Truthful(w, l.db) && Healthy(w, s) && Truthful(w, s)
             && NeverSettled(l.cursors, l.session.peer)
    requires Valid(l.session) && l.session.phase.Starting? && DistinctLogs(l.session.plans)
    requires HasPlan(l.session.plans, Plan(log, true, true))
    ensures var end := DriveHonest(l.(session := Opened(l.session)), s, inst, now);
            var a, b := end.local.db, end.remote;
            && (forall id :: InLog(a, log, id) <==> InLog(b, log, id))
            && (forall id | InLog(a, log, id) :: Held(a, id) && !Held(b, id) <==> BodyApart(w, a, b, id))
            && (forall id | InLog(a, log, id) :: Held(b, id) && !Held(a, id) <==> BodyApart(w, b, a, id))
            && (forall id | StrippedApart(w, a, b, id) || StrippedApart(w, b, a, id) ::
                  id in StrippedRedactors(w, l.db) || id in StrippedRedactors(w, s))
  {
    hide Healthy, Truthful, Gapless, Level, DriveHonest, Valid, Opened, InLog, BodyApart, StrippedRedactors, ProperBut;
    var apart := StrippedRedactors(w, l.db) + StrippedRedactors(w, s);
    ProperButStripped(w, l.db, apart);
    ProperButStripped(w, s, apart);
    OpenedIsValid(l.session);
    SessionClosesGaps(w, apart, l, s, inst, now, Plan(log, true, true));
    var end := DriveHonest(l.(session := Opened(l.session)), s, inst, now);
    LevelIsGapless(end.local.db, end.remote, log);
    LevelLeaves(w, apart, end.local.db, end.remote, log);
  }

  /**
   End to end: two stores built by any deliveries, a session asked to pull and push
   a log, and afterwards equal fingerprints for it.
   */
  lemma IngestedStoresConverge(w: World, ours: seq<Delivery>, theirs: seq<Delivery>, cursors: Cursors, peer: string,
                               pull: seq<LogId>, push: seq<LogId>, log: LogId, inst: InstanceId, now: int)
    requires Deliverable(w, ours) && Deliverable(w, theirs)
    requires Unstripped(w, Replay(ours)) && Truthful(w, Replay(ours)) && Unstripped(w, Replay(theirs))
             && Truthful(w, Replay(theirs))
    requires NeverSettled(cursors, peer) && log in pull && log in push
    ensures var l := Local(Opened(NewSession(peer, now, pull, push)), Replay(ours), cursors);
            && Valid(l.session) && !l.session.phase.Starting?
            && var end := DriveHonest(l, Replay(theirs), inst, now);
               SameLog(end.local.db, end.remote, log) && Fingerprint(end.local.db, log) == Fingerprint(end.remote, log)
  {
    var n := NewSession(peer, now, pull, push);
    NewSessionPlans(peer, now, pull, push, log);
    OpenedIsValid(n);
    hide Healthy, Unstripped, Truthful, Replay, NewSession, DriveHonest, Deliverable, SameLog, Fingerprint, Opened,
         Valid;
    ReplayIsHealthy(w, ours);
    ReplayIsHealthy(w, theirs);
    var l := Local(n, Replay(ours), cursors);
    NewSessionIsFor(peer, now, pull, push);
    SessionConverges(w, l, Replay(theirs), inst, now, log);
    var end := DriveHonest(l.(session := Opened(n)), Replay(theirs), inst, now);
    FingerprintDecides(end.local.db, end.remote, log);
  }

  lemma OpenedIsValid(n: Session)
    requires Valid(n)
    ensures Valid(Opened(n)) && !Opened(n).phase.Starting?
  {
  }

  lemma NewSessionIsFor(peer: string, now: int, pull: seq<LogId>, push: seq<LogId>)
    ensures NewSession(peer, now, pull, push).peer == peer
  {
    hide PullPlans, PushPlans;
  }
}
