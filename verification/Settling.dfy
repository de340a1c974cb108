/**
 The settled cache: a remembered fingerprint is trusted while it mentions only
 claims we hold. Every way a session or a frame remembers one keeps that, but for
 one: the fingerprint a reconciliation records is the peer's own word, and it is
 trusted exactly when we hold what it mentions.
 */
module Settling {
  import opened Bytes
  import opened Rows
  import opened Ingest
  import opened Converge
  import opened Indexes
  import opened Health
  import opened Sorted
  import opened Queries
  import opened Protocol
  import opened Sessions
  import opened Shapes
  import opened Push
  import opened Links
  import opened Trailing

  // ── Understanding a fingerprint ──────────────────────────────────────

  predicate Mentions(fp: Print, id: ClaimHash) { ClaimToken(id, true) in fp || ClaimToken(id, false) in fp }

  /** Every claim a fingerprint mentions is held. */
  ghost predicate Understood(fp: Print, us: State) {
    forall id | Mentions(fp, id) :: id in us.claims
  }

  ghost predicate Trusted(c: Cursor, us: State) { c.settled.Some? ==> Understood(c.settled.value, us) }

  ghost predicate RowsTrusted(cursors: Cursors, peer: string, us: State) {
    forall log :: Trusted(CursorOf(cursors, peer, log), us)
  }

  /** The log's claims at a store are held. */
  ghost predicate AllKnown(them: State, log: LogId, us: State) {
    forall id | InLog(them, log, id) :: id in us.claims
  }

  /** A fingerprint mentions exactly the claims of its log. */
  lemma FingerprintMentions(s: State, log: LogId, id: ClaimHash)
    ensures Mentions(Fingerprint(s, log), id) <==> InLog(s, log, id)
  {
    hide Fingerprint;
    ClaimTokenMeans(s, log, id, true);
    ClaimTokenMeans(s, log, id, false);
  }

  /** An honest fingerprint is understood exactly when the log is held. */
  lemma UnderstoodMeans(them: State, log: LogId, us: State)
    ensures Understood(Fingerprint(them, log), us) <==> AllKnown(them, log, us)
  {
    hide Fingerprint, Mentions, InLog;
    forall id
      ensures Mentions(Fingerprint(them, log), id) <==> InLog(them, log, id)
    {
      FingerprintMentions(them, log, id);
    }
  }

  lemma OwnIsUnderstood(us: State, log: LogId)
    ensures Understood(Fingerprint(us, log), us)
  {
    UnderstoodMeans(us, log, us);
  }

  // ── What is trusted along the way ────────────────────────────────────

  /** The cursor in hand, once the log is in contact. */
  ghost predicate TrustHand(n: Session, us: State) {
    n.phase.Finished? || n.phase.FirstStatus? || Trusted(n.cursor, us)
  }

  /** An honest frame mentions every position it counts. */
  ghost predicate TrueFrame(f: Notify, them: State, inst: InstanceId) {
    f.instance == inst ==>
      && f.count <= |Arrivals(them, f.log)|
      && forall i | 0 <= i < f.count :: Mentions(f.fp, Arrivals(them, f.log)[i])
  }

  ghost predicate SessionTrusted(k: Link) { k.session.Some? ==> TrustHand(k.session.value, k.us) }

  ghost predicate FramesTrue(frames: set<Notify>, them: State, inst: InstanceId) {
    forall f | f in frames :: TrueFrame(f, them, inst)
  }

  ghost predicate FramesChecked(w: World, frames: set<Notify>) {
    forall f | f in frames :: AllChecked(w, f.events)
  }

  ghost predicate Assured(w: World, peer: string, k: Link) {
    && Safe(w, peer, k)
    && RowsTrusted(k.cursors, peer, k.us) && SessionTrusted(k)
    && FramesTrue(k.frames, k.them, k.inst) && FramesChecked(w, k.frames)
  }

  // ── The one exception ────────────────────────────────────────────────

  /** The answer in flight will be remembered as where a reconciliation landed. */
  predicate Remembers(n: Session, r: Response) {
    n.phase.Resettling? && r.Status? && n.clean && n.cursor.instance == Some(r.instance)
  }

  ghost predicate Remembering(k: Link) {
    Asking(k) && k.reply.Some? && Remembers(k.session.value, k.reply.value)
  }

  /** What is remembered as the end of a reconciliation mentions only claims held. */
  ghost predicate Heedful(k: Link, step: Step) {
    step.Land? && Remembering(k) ==> Understood(k.reply.value.fp, k.us)
  }

  // ── Growth ───────────────────────────────────────────────────────────

  lemma UnderstoodGrows(fp: Print, us: State, us': State)
    requires Understood(fp, us) && us.claims.Keys <= us'.claims.Keys
    ensures Understood(fp, us')
  {
  }

  lemma RowsStayTrusted(cursors: Cursors, peer: string, us: State, us': State)
    requires RowsTrusted(cursors, peer, us) && us.claims.Keys <= us'.claims.Keys
    ensures RowsTrusted(cursors, peer, us')
  {
    hide Understood;
    forall log
      ensures Trusted(CursorOf(cursors, peer, log), us')
    {
      var c := CursorOf(cursors, peer, log);
      assert Trusted(c, us);
      if c.settled.Some? {
        UnderstoodGrows(c.settled.value, us, us');
      }
    }
  }

  lemma SavingStaysTrusted(cursors: Cursors, peer: string, log: LogId, c: Cursor, us: State)
    requires RowsTrusted(cursors, peer, us) && Trusted(c, us)
    ensures RowsTrusted(cursors[(peer, log) := c], peer, us)
  {
    hide Trusted;
    var m := cursors[(peer, log) := c];
    forall other
      ensures Trusted(CursorOf(m, peer, other), us)
    {
      assert Trusted(CursorOf(cursors, peer, other), us);
    }
  }

  lemma HandStaysTrusted(n: Session, us: State, us': State)
    requires TrustHand(n, us) && us.claims.Keys <= us'.claims.Keys
    ensures TrustHand(n, us')
  {
    hide Understood;
    if Trusted(n.cursor, us) {
      SameMemory(n.cursor, n.cursor, us, us');
    }
  }

  lemma FramesStayTrue(frames: set<Notify>, them: State, them': State, inst: InstanceId)
    requires FramesTrue(frames, them, inst) && Grows(them, them')
    ensures FramesTrue(frames, them', inst)
  {
    hide Arrivals, Mentions;
    forall f | f in frames
      ensures TrueFrame(f, them', inst)
    {
      assert TrueFrame(f, them, inst) && Arrivals(them, f.log) <= Arrivals(them', f.log);
    }
  }

  // ── Feeding ──────────────────────────────────────────────────────────

  ghost predicate Trusting(peer: string, l: Local) {
    RowsTrusted(l.cursors, peer, l.db) && l.session.peer == peer && TrustHand(l.session, l.db)
  }

  lemma HandIsTrusted(peer: string, l: Local)
    requires Trusting(peer, l) && InProgress(l) && !l.session.phase.FirstStatus?
    ensures Trusted(l.session.cursor, l.db) && Open(l.session) && l.session.settleRounds <= 2
  {
  }

  /** A primary push remembers nothing. */
  lemma PrimaryPushTrusted(n: Session, us: State)
    requires Open(n) && Trusted(n.cursor, us)
    ensures var n' := BeginPrimaryPush(n, us);
            SamePlan(n', n) && n'.cursor == n.cursor && TrustHand(n', us)
  {
    hide ServeSince, Trusted;
  }

  lemma FinishedTrusting(peer: string, l: Local, n: Session, cursors: Cursors)
    requires RowsTrusted(cursors, peer, l.db) && n.peer == peer
    ensures Trusting(peer, Local(FinishLog(n), l.db, cursors))
  {
    hide RowsTrusted;
    FinishLogShape(n);
  }

  lemma FreshIsTrusted(instance: InstanceId, us: State)
    ensures Trusted(FreshCursor(instance), us)
  {
  }

  lemma SettleTrusts(peer: string, l: Local, count: nat, fp: Print, instance: InstanceId)
    requires Trusting(peer, l) && InProgress(l) && l.session.phase.Settling?
    ensures Trusting(peer, SettleWith(l, count, fp, instance))
  {
    var n := l.session;
    var log := PlanOf(n).log;
    HandIsTrusted(peer, l);
    SettleShape(l, count, fp, instance);
    hide RowsTrusted, SettleWith, Fingerprint, FinishLog, BeginPrimaryPush, Trusted;
    var l' := SettleWith(l, count, fp, instance);
    if n.cursor.instance != Some(instance) {
      var n2 := Restarted(n, count, instance);
      FreshIsTrusted(instance, l.db);
      SavingStaysTrusted(l.cursors, peer, log, FreshCursor(instance), l.db);
      if n2.settleRounds > 2 {
        FinishedTrusting(peer, l, n2, l'.cursors);
      } else if !(PlanOf(n2).pull && count > 0) {
        PrimaryPushTrusted(n2, l.db);
      }
    } else if l' == Settled(l, fp) && fp == Fingerprint(l.db, log) {
      var c := n.cursor.(settled := Some(fp));
      OwnIsUnderstood(l.db, log);
      assert Trusted(c, l.db) by { NowTrusted(n.cursor, fp, l.db); }
      SavingStaysTrusted(l.cursors, peer, log, c, l.db);
      FinishedTrusting(peer, l, n.(cursor := c), l'.cursors);
    } else if l' == l.(session := FinishLog(n)) {
      FinishedTrusting(peer, l, n, l.cursors);
    }
  }

  lemma NowTrusted(c: Cursor, fp: Print, us: State)
    requires Understood(fp, us)
    ensures Trusted(c.(settled := Some(fp)), us)
  {
  }

  lemma ContactedTrusting(peer: string, l: Local, count: nat, instance: InstanceId)
    requires Trusting(peer, l) && InProgress(l)
    ensures var l1 := Contacted(l, count, instance);
            && l1.db == l.db && SamePlan(l1.session, l.session) && l1.session.settleRounds <= 2
            && Trusted(l1.session.cursor, l.db) && RowsTrusted(l1.cursors, peer, l.db)
  {
    hide Trusted, TrustHand;
    var log := PlanOf(l.session).log;
    assert Trusted(CursorOf(l.cursors, peer, log), l.db);
    FreshIsTrusted(instance, l.db);
    SavingStaysTrusted(l.cursors, peer, log, FreshCursor(instance), l.db);
  }

  lemma FirstStatusTrusts(peer: string, l: Local, count: nat, fp: Print, instance: InstanceId)
    requires Trusting(peer, l) && InProgress(l) && l.session.phase.FirstStatus?
    ensures Trusting(peer, FeedFirstStatus(l, count, fp, instance))
  {
    hide RowsTrusted, Trusted, Contacted, FeedFirstStatus, SettleWith, BeginPrimaryPush;
    OpenInProgress(l);
    FirstStatusFromContact(l, count, fp, instance);
    ContactedTrusting(peer, l, count, instance);
    PeerCountContacted(l, count, instance);
    var l1 := Contacted(l, count, instance);
    if !(PlanOf(l1.session).pull && l1.session.cursor.pull < count) {
      PrimaryPushKeeps(l1.session, l.db);
      PrimaryPushTrusted(l1.session, l.db);
      var l2 := l1.(session := BeginPrimaryPush(l1.session, l.db));
      if l2.session.phase.Settling? {
        SettleTrusts(peer, l2, count, fp, instance);
      }
    }
  }

  /** Only what is remembered matters. */
  lemma SameMemory(c: Cursor, c': Cursor, us: State, us': State)
    requires Trusted(c, us) && us.claims.Keys <= us'.claims.Keys && c'.settled == c.settled
    ensures Trusted(c', us')
  {
  }

  lemma PullTrusts(w: World, peer: string, l: Local, events: seq<Event>)
    requires Trusting(peer, l) && Healthy(w, l.db) && AllChecked(w, events) && InProgress(l) && l.session.phase.Pulling?
    ensures Trusting(peer, FeedPulled(l, events))
  {
    var n := l.session;
    var log := PlanOf(n).log;
    HandIsTrusted(peer, l);
    hide Healthy, RowsTrusted, Trusted, FeedPulled, BeginPrimaryPush, TakeAll, Pulled, AllChecked, Arrivals;
    if events == [] {
      EmptyPull(l);
      PrimaryPushTrusted(n, l.db);
    } else {
      var l2 := Pulled(l, events);
      PulledShape(l, events);
      TakeAllGrows(w, l, OfLog(log), events);
      SameMemory(n.cursor, l2.session.cursor, l.db, l2.db);
      RowsStayTrusted(l.cursors, peer, l.db, l2.db);
      SavingStaysTrusted(l.cursors, peer, log, l2.session.cursor, l2.db);
      if l2.session.cursor.pull >= l2.session.peerCount {
        PrimaryPushTrusted(l2.session, l2.db);
      }
    }
  }

  lemma AckTrusts(peer: string, l: Local, stored: nat, rejected: nat)
    requires Trusting(peer, l) && InProgress(l) && l.session.phase.Publishing?
    ensures Trusting(peer, FeedAck(l, stored, rejected))
  {
    var n := l.session;
    HandIsTrusted(peer, l);
    AckShape(l, stored, rejected);
    PublishingBounds(n);
    hide RowsTrusted, Trusted, FeedAck;
    var l' := FeedAck(l, stored, rejected);
    SameMemory(n.cursor, l'.session.cursor, l.db, l.db);
    SavingStaysTrusted(l.cursors, peer, PlanOf(n).log, l'.session.cursor, l.db);
  }

  lemma HashesTrust(peer: string, l: Local, theirs: map<ClaimHash, bool>)
    requires Trusting(peer, l) && InProgress(l) && l.session.phase.Reconciling?
    ensures Trusting(peer, l.(session := Diffed(l.session, l.db, theirs)))
  {
    HandIsTrusted(peer, l);
    hide RowsTrusted, Trusted, SortIds, WantSet, OfferSet, Artifacts;
  }

  lemma ClaimsTrust(w: World, peer: string, l: Local, events: seq<Event>)
    requires Trusting(peer, l) && Healthy(w, l.db) && AllChecked(w, events) && InProgress(l)
             && l.session.phase.Fetching?
    ensures Trusting(peer, FeedClaims(l, events))
  {
    var n := l.session;
    var f := Asked(n.wantIds[n.wantSent..Chunk(n.wantSent, |n.wantIds|)]);
    HandIsTrusted(peer, l);
    ClaimsShape(l, events);
    hide Healthy, RowsTrusted, Trusted, FeedClaims, TakeAll, AllChecked, Arrivals;
    var l1 := TakeAll(l, f, events);
    TakeAllGrows(w, l, f, events);
    RowsStayTrusted(l.cursors, peer, l.db, l1.db);
    SameMemory(n.cursor, n.cursor, l.db, l1.db);
  }

  lemma ResettleTrusts(peer: string, l: Local, fp: Print, instance: InstanceId)
    requires Trusting(peer, l) && InProgress(l) && l.session.phase.Resettling?
    requires l.session.clean && l.session.cursor.instance == Some(instance) ==> Understood(fp, l.db)
    ensures Trusting(peer, FeedResettle(l, fp, instance))
  {
    var n := l.session;
    var log := PlanOf(n).log;
    HandIsTrusted(peer, l);
    hide RowsTrusted, Trusted, FinishLog, Understood;
    var c := n.cursor.(settled := Some(fp));
    if n.clean && n.cursor.instance == Some(instance) {
      NowTrusted(n.cursor, fp, l.db);
      SavingStaysTrusted(l.cursors, peer, log, c, l.db);
      FinishedTrusting(peer, l, n.(cursor := c), l.cursors[(peer, log) := c]);
    } else {
      FinishedTrusting(peer, l, n, l.cursors);
    }
  }

  lemma FeedTrusts(w: World, peer: string, l: Local, r: Response)
    requires Trusting(peer, l) && Healthy(w, l.db) && InProgress(l) && Feed(l, r).Some?
    requires (l.session.phase.Pulling? || l.session.phase.Fetching?) && r.Events? ==> AllChecked(w, r.events)
    requires Remembers(l.session, r) ==> Understood(r.fp, l.db)
    ensures Trusting(peer, Feed(l, r).value)
  {
    hide Trusting, Healthy, FeedFirstStatus, FeedPulled, FeedAck, SettleWith, Diffed, FeedClaims, FeedResettle,
         Understood, AllChecked;
    match l.session.phase
    case FirstStatus => FirstStatusTrusts(peer, l, r.count, r.fp, r.instance);
    case Pulling => PullTrusts(w, peer, l, r.events);
    case Publishing => AckTrusts(peer, l, r.stored, r.rejected);
    case Settling => SettleTrusts(peer, l, r.count, r.fp, r.instance);
    case Reconciling => HashesTrust(peer, l, HashMap(r.entries));
    case Fetching => ClaimsTrust(w, peer, l, r.events);
    case Resettling => ResettleTrusts(peer, l, r.fp, r.instance);
    case _ =>
  }

  // ── Frames ───────────────────────────────────────────────────────────

  /** Advancing a fingerprint by the model of a push mentions nothing new that is not held. */
  lemma AdvanceIsUnderstood(us: State, us': State, fp: Print, log: LogId, a: Artifact)
    requires Understood(fp, us) && us.claims.Keys <= us'.claims.Keys && a.id in us'.claims
    ensures Understood(Xor(fp, SenderDelta(us, log, a)), us')
  {
    hide SenderDelta, Xor;
    forall id | Mentions(Xor(fp, SenderDelta(us, log, a)), id)
      ensures id in us'.claims
    {
      XorIn(fp, SenderDelta(us, log, a), ClaimToken(id, true));
      XorIn(fp, SenderDelta(us, log, a), ClaimToken(id, false));
      ClaimTokenInDelta(us, log, a, id, true);
      ClaimTokenInDelta(us, log, a, id, false);
      assert Mentions(fp, id) || id == a.id || id in us.claims;
    }
  }

  ghost predicate TrustedPrint(fp: Option<Print>, us: State) { fp.Some? ==> Understood(fp.value, us) }

  /** A frame's events are taken in as any others. */
  lemma {:induction false} TakeAllPushedGrows(w: World, i: Intake, log: LogId, events: seq<Event>, now: int)
    requires Healthy(w, i.db) && AllChecked(w, events)
    ensures var i' := TakeAllPushed(i, log, events, now);
            Healthy(w, i'.db) && Grows(i.db, i'.db)
    decreases |events|
  {
    hide Healthy, Grows, Genuine, Ingested, ReportOf, SenderDelta, Xor;
    if events == [] {
      GrowsToItself(i.db);
    } else {
      var e := events[0];
      var i1 := TakePushed(i, log, e, now);
      if HeaderLog(e) == Some(log) {
        IngestGrows(w, i.db, e.art, now);
      } else {
        GrowsToItself(i.db);
      }
      TakeAllPushedGrows(w, i1, log, events[1..], now);
      GrowsIsTransitive(i.db, i1.db, TakeAllPushed(i1, log, events[1..], now).db);
    }
  }

  lemma {:induction false} TakeAllPushedTrusts(w: World, i: Intake, log: LogId, events: seq<Event>, now: int)
    requires Healthy(w, i.db) && TrustedPrint(i.settled, i.db) && AllChecked(w, events)
    ensures var i' := TakeAllPushed(i, log, events, now);
            TrustedPrint(i'.settled, i'.db)
    decreases |events|
  {
    hide Healthy, Grows, Genuine, Ingested, ReportOf, Understood, SenderDelta, Xor;
    if events != [] {
      var e := events[0];
      var i1 := TakePushed(i, log, e, now);
      if HeaderLog(e) == Some(log) {
        IngestGrows(w, i.db, e.art, now);
        assert i.db.claims.Keys <= i1.db.claims.Keys by { GrowsMeansMore(i.db, i1.db); }
        if i.settled.Some? {
          AdvanceIsUnderstood(i.db, i1.db, i.settled.value, log, e.art);
        }
      }
      TakeAllPushedTrusts(w, i1, log, events[1..], now);
    }
  }

  lemma GrowsMeansMore(s: State, s': State)
    requires Grows(s, s')
    ensures s.claims.Keys <= s'.claims.Keys
  {
  }

  /** A true, understood frame counts only what is held. */
  lemma FrameCovers(f: Notify, them: State, inst: InstanceId, us: State)
    requires TrueFrame(f, them, inst) && f.instance == inst && Understood(f.fp, us)
    ensures Covered(Arrivals(them, f.log), f.count, us)
  {
    hide Arrivals, Mentions;
  }

  lemma ForwardTrails(c: Cursor, f: Notify, us: State, them: State, inst: InstanceId)
    requires Trails(c, f.log, us, them, inst) && c.instance == Some(f.instance)
    requires TrueFrame(f, them, inst) && Understood(f.fp, us)
    ensures Trails(c.(pull := Max(c.pull, f.count), settled := Some(f.fp)), f.log, us, them, inst)
  {
    hide Arrivals, Understood, Covered, TrueFrame;
    if f.instance == inst {
      FrameCovers(f, them, inst, us);
    }
  }

  lemma JudgedIsSafe(c: Cursor, f: Notify, us: State, them: State, inst: InstanceId, used: set<InstanceId>)
    requires Trails(c, f.log, us, them, inst) && Trusted(c, us) && c.instance == Some(f.instance) && f.instance in used
    requires TrueFrame(f, them, inst)
    ensures var c' := Judged(c, Fingerprint(us, f.log), f);
            Trails(c', f.log, us, them, inst) && Trusted(c', us) && KnownRow(c', used)
  {
    hide Trails, Fingerprint, Understood, TrueFrame;
    if Settles(c, Fingerprint(us, f.log), f) {
      OwnIsUnderstood(us, f.log);
      ForwardTrails(c, f, us, them, inst);
    }
  }

  /** What applying a frame leaves of the store and the rows. */
  lemma ApplyTrusts(w: World, peer: string, us: State, cursors: Cursors, them: State, inst: InstanceId,
                    used: set<InstanceId>,
                    now: int, f: Notify)
    requires Healthy(w, us) && Healthy(w, them) && AllChecked(w, f.events) && f.instance in used
             && TrueFrame(f, them, inst)
    requires RowsTrail(cursors, peer, us, them, inst) && RowsTrusted(cursors, peer, us)
             && KnownRows(cursors, peer, used)
    ensures var r := ApplyNotify(us, cursors, peer, now, f);
            && Healthy(w, r.db) && Grows(us, r.db)
            && RowsTrail(r.cursors, peer, r.db, them, inst) && RowsTrusted(r.cursors, peer, r.db)
               && KnownRows(r.cursors, peer, used)
  {
    var c0 := CursorOf(cursors, peer, f.log);
    var c := OnIncarnation(c0, f.instance);
    assert Trails(c0, f.log, us, them, inst) && Trusted(c0, us);
    assert Trails(c, f.log, us, them, inst) && Trusted(c, us) by {
      FreshTrails(f.instance, f.log, us, them, inst);
      FreshIsTrusted(f.instance, us);
    }
    hide Healthy, Grows, RowsTrail, RowsTrusted, KnownRows, Trails, Understood, TrueFrame, TakeAllPushed, Fingerprint,
         AllChecked, Judged;
    var i := TakeAllPushed(Intake(us, c.settled, NO_NOTICE), f.log, f.events, now);
    TakeAllPushedGrows(w, Intake(us, c.settled, NO_NOTICE), f.log, f.events, now);
    TakeAllPushedTrusts(w, Intake(us, c.settled, NO_NOTICE), f.log, f.events, now);
    var c1 := c.(settled := i.settled);
    GrowsToItself(them);
    TrailsGrow(c, f.log, us, them, i.db, them, inst);
    SameCounts(c, c1, f.log, i.db, them, inst);
    JudgedIsSafe(c1, f, i.db, them, inst, used);
    RowsGrow(cursors, peer, us, them, i.db, them, inst);
    GrowsMeansMore(us, i.db);
    RowsStayTrusted(cursors, peer, us, i.db);
    var c2 := Judged(c1, Fingerprint(i.db, f.log), f);
    SavingKeepsRows(cursors, peer, f.log, c2, i.db, them, inst);
    SavingStaysTrusted(cursors, peer, f.log, c2, i.db);
    SavingKeepsKnown(cursors, peer, f.log, c2, used);
  }

  // ── The steps ────────────────────────────────────────────────────────

  /** Growth on either side loses nothing trusted. */
  lemma GrowthIsAssured(w: World, peer: string, k: Link, us': State, them': State)
    requires Assured(w, peer, k) && Healthy(w, us') && Healthy(w, them') && Grows(k.us, us') && Grows(k.them, them')
    ensures Assured(w, peer, k.(us := us', them := them'))
  {
    hide Safe, RowsTrusted, TrustHand, FramesTrue, FramesChecked, Grows, Healthy;
    GrowthIsSafe(w, peer, k, us', them');
    GrowsMeansMore(k.us, us');
    RowsStayTrusted(k.cursors, peer, k.us, us');
    if k.session.Some? {
      HandStaysTrusted(k.session.value, k.us, us');
    }
    FramesStayTrue(k.frames, k.them, them', k.inst);
  }

  lemma SafeMeans(w: World, peer: string, k: Link)
    requires Safe(w, peer, k)
    ensures Healthy(w, k.us) && Healthy(w, k.them)
  {
  }

  lemma IngestAssured(w: World, peer: string, k: Link, a: Artifact, now: int)
    requires Assured(w, peer, k) && Genuine(w, a)
    ensures Assured(w, peer, k.(us := Ingested(k.us, a, now))) && Assured(w, peer, k.(them := Ingested(k.them, a, now)))
  {
    SafeMeans(w, peer, k);
    hide Assured, Ingested, Genuine, Grows, Healthy;
    IngestGrows(w, k.us, a, now);
    IngestGrows(w, k.them, a, now);
    GrowsToItself(k.us);
    GrowsToItself(k.them);
    GrowthIsAssured(w, peer, k, Ingested(k.us, a, now), k.them);
    GrowthIsAssured(w, peer, k, k.us, Ingested(k.them, a, now));
  }

  lemma AskSure(w: World, peer: string, k: Link, now: int)
    requires Assured(w, peer, k) && Asking(k)
    ensures Assured(w, peer, Answering(k, now))
  {
    var n := k.session.value;
    assert InHand(w, n, k.us, k.them, k.inst) && k.inst in k.used;
    hide Safe, RowsTrusted, TrustHand, FramesTrue, FramesChecked, Grows, Healthy, InHand, Valid, Served, Respond,
         NextRequest;
    AskSafe(w, peer, k, now);
    SafeMeans(w, peer, k);
    AskingIsAhead(k);
    AnswerSafe(w, n, k.us, k.them, k.inst, now, k.used);
    FramesStayTrue(k.frames, k.them, Answering(k, now).them, k.inst);
  }

  lemma LandSure(w: World, peer: string, k: Link)
    requires Assured(w, peer, k) && Asking(k) && k.reply.Some? && Heedful(k, Land)
    ensures Assured(w, peer, Landed(k))
  {
    LandSafe(w, peer, k);
    var l := LocalOf(k);
    var r := k.reply.value;
    assert Trusting(peer, l) && Healthy(w, l.db) && InFlight(w, l.session, r, k.them, k.inst);
    assert (l.session.phase.Pulling? || l.session.phase.Fetching?) && r.Events? ==> AllChecked(w, r.events);
    hide Safe, RowsTrusted, FramesTrue, FramesChecked, Healthy, InFlight, TrustHand, Feed, Valid, AllChecked,
         Understood;
    if Feed(l, r).Some? {
      FeedTrusts(w, peer, l, r);
    }
  }

  /** A reborn peer is named by no cursor, reply or frame yet. */
  lemma RebirthSure(w: World, peer: string, k: Link, store: State, inst: InstanceId)
    requires Assured(w, peer, k) && Healthy(w, store) && inst !in k.used
    ensures Assured(w, peer, k.(them := store, inst := inst, used := k.used + {inst}))
  {
    RebirthSafe(w, peer, k, store, inst);
    assert Known(peer, k);
    hide Safe, Healthy, Arrivals, Mentions, RowsTrusted, AllChecked, TrustHand;
  }

  lemma BeginSure(w: World, peer: string, k: Link, now: int, pull: seq<LogId>, push: seq<LogId>)
    requires Assured(w, peer, k)
    ensures Assured(w, peer, k.(session := Some(Opened(NewSession(peer, now, pull, push))), reply := None))
  {
    BeginSafe(w, peer, k, now, pull, push);
    hide Safe, RowsTrusted, FramesTrue, FramesChecked, PullPlans, PushPlans;
  }

  lemma FanoutIsTrue(w: World, them: State, inst: InstanceId, log: LogId, events: seq<Event>)
    requires Healthy(w, them)
    ensures TrueFrame(NotifyFor(them, inst, log, events), them, inst)
  {
    hide Fingerprint, Mentions, WellKept, Explained, Indexed, AllGenuine, Dense;
    var order := Order(them, log);
    forall i | 0 <= i < |order|
      ensures Mentions(Fingerprint(them, log), order[i])
    {
      assert InLog(them, log, order[i]);
      FingerprintMentions(them, log, order[i]);
    }
  }

  lemma FanoutSure(w: World, peer: string, k: Link, log: LogId, events: seq<Event>)
    requires Assured(w, peer, k) && AllChecked(w, events)
    ensures Assured(w, peer, k.(frames := k.frames + {NotifyFor(k.them, k.inst, log, events)}))
  {
    SafeMeans(w, peer, k);
    FanoutIsTrue(w, k.them, k.inst, log, events);
    StepSafe(w, peer, k, Fanout(log, events));
    NotifyCarries(k.them, k.inst, log, events);
    hide Safe, RowsTrusted, NotifyFor, TrueFrame, Healthy, AllChecked;
  }

  lemma NotifyCarries(db: State, inst: InstanceId, log: LogId, events: seq<Event>)
    ensures NotifyFor(db, inst, log, events).events == events
  {
  }

  /** An honest frame may fast-forward the cursor: it still counts only what we hold. */
  lemma HearSure(w: World, peer: string, k: Link, f: Notify, now: int)
    requires Assured(w, peer, k) && f in k.frames
    ensures var r := ApplyNotify(k.us, k.cursors, peer, now, f);
            Assured(w, peer, k.(us := r.db, cursors := r.cursors))
  {
    var r := ApplyNotify(k.us, k.cursors, peer, now, f);
    hide Healthy, RowsTrail, RowsTrusted, KnownRows, InHand, InFlight, Valid, Grows, ApplyNotify, TrustHand, AllChecked,
         TrueFrame, KnownReply;
    ApplyTrusts(w, peer, k.us, k.cursors, k.them, k.inst, k.used, now, f);
    GrowsToItself(k.them);
    GrowthIsAssured(w, peer, k, r.db, k.them);
  }

  lemma StepSure(w: World, peer: string, k: Link, step: Step)
    requires Assured(w, peer, k) && Enabled(w, k, step) && Heedful(k, step)
    ensures Assured(w, peer, Next(w, peer, k, step))
  {
    hide Assured, Ingested, Landed, Answering, Genuine, Heedful, ApplyNotify, NotifyFor, Healthy, AllChecked;
    match step
    case Begin(now, pull, push) => BeginSure(w, peer, k, now, pull, push);
    case Abandon => AbandonSure(w, peer, k);
    case Ask(now) => AskSure(w, peer, k, now);
    case Land => LandSure(w, peer, k);
    case Ours(a, now) => IngestAssured(w, peer, k, a, now);
    case Theirs(a, now) => IngestAssured(w, peer, k, a, now);
    case Rebirth(store, inst) => RebirthSure(w, peer, k, store, inst);
    case Fanout(log, events) => FanoutSure(w, peer, k, log, events);
    case Hear(f, now) => HearSure(w, peer, k, f, now);
  }

  lemma AbandonSure(w: World, peer: string, k: Link)
    requires Assured(w, peer, k)
    ensures Assured(w, peer, k.(session := None, reply := None))
  {
    StepSafe(w, peer, k, Abandon);
    hide Safe, RowsTrusted, FramesTrue, FramesChecked;
  }

  lemma FreshIsAssured(w: World, peer: string, k: Link)
    requires Fresh(w, k)
    ensures Assured(w, peer, k)
  {
    FreshIsSafe(w, peer, k);
    hide Healthy, Safe, Understood;
  }

  /** What is assured of a saved row: its fingerprint is understood, its counts trail. */
  lemma AssuredRows(w: World, peer: string, k: Link, log: LogId)
    requires Assured(w, peer, k)
    ensures var c := CursorOf(k.cursors, peer, log);
            && (c.settled.Some? ==> Understood(c.settled.value, k.us))
            && (c.instance == Some(k.inst) ==>
                  Covered(Arrivals(k.them, log), c.pull, k.us) && Covered(Arrivals(k.us, log), c.push, k.them))
  {
    hide Covered, Arrivals, SessionTrails, SessionTrusted, Known, Healthy, Understood;
    assert Trails(CursorOf(k.cursors, peer, log), log, k.us, k.them, k.inst);
    assert Trusted(CursorOf(k.cursors, peer, log), k.us);
  }
}
