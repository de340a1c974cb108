/**
 Cursors never run ahead of the data: at every boundary of every run, each
 position a cursor counts, theirs or ours, is a claim the other side really has.
 */
module Trailing {
  import opened Bytes
  import opened Rows
  import opened Ingest
  import opened Converge
  import opened Indexes
  import opened Health
  import opened Sorted
  import opened Queries
  import opened Protocol
  import opened Sessions
  import opened Shapes
  import opened Push
  import opened Links

  // ── Arrival orders only grow ─────────────────────────────────────────

  ghost function Arrivals(s: State, log: LogId): seq<ClaimHash> { if Dense(s) then Order(s, log) else [] }

  ghost predicate Grows(s: State, s': State) {
    s.claims.Keys <= s'.claims.Keys && forall log :: Arrivals(s, log) <= Arrivals(s', log)
  }

  lemma GrowsIsTransitive(s: State, s1: State, s2: State)
    requires Grows(s, s1) && Grows(s1, s2)
    ensures Grows(s, s2)
  {
    hide Arrivals;
    forall log
      ensures Arrivals(s, log) <= Arrivals(s2, log)
    {
      assert Arrivals(s, log) <= Arrivals(s1, log) <= Arrivals(s2, log);
    }
  }

  lemma IngestGrows(w: World, s: State, a: Artifact, now: int)
    requires Healthy(w, s) && Genuine(w, a)
    ensures Healthy(w, Ingested(s, a, now)) && Grows(s, Ingested(s, a, now)) && a.id in Ingested(s, a, now).claims
  {
    hide Ingested, Genuine, WellKept, Explained, Indexed, AllGenuine, Dense;
    Absorb(w, s, a, now);
  }

  /** Taking events in: every admitted one is held afterwards. */
  lemma {:induction false} TakeAllGrows(w: World, l: Local, f: Filter, events: seq<Event>)
    requires Healthy(w, l.db) && AllChecked(w, events)
    ensures var l' := TakeAll(l, f, events);
            && Healthy(w, l'.db) && Grows(l.db, l'.db)
            && forall i | 0 <= i < |events| && Admits(f, events[i]) :: EventId(events[i]) in l'.db.claims
    decreases |events|
  {
    hide Healthy, Grows, Genuine, Ingested, Admits, ReportOf;
    if events == [] {
      GrowsToItself(l.db);
    } else {
      var e, rest := events[0], events[1..];
      var l1 := TakeIn(l, f, e);
      if Admits(f, e) {
        IngestGrows(w, l.db, e.art, l.session.now);
      } else {
        GrowsToItself(l.db);
      }
      TakeAllGrows(w, l1, f, rest);
      var l' := TakeAll(l1, f, rest);
      GrowsIsTransitive(l.db, l1.db, l'.db);
      if Admits(f, e) {
        GrowsKeepsHeld(l1.db, l'.db, EventId(e));
      }
      assert forall i | 0 < i < |events| :: events[i] == rest[i - 1];
    }
  }

  lemma GrowsToItself(s: State)
    ensures Grows(s, s)
  {
  }

  lemma GrowsKeepsHeld(s: State, s': State, id: ClaimHash)
    requires Grows(s, s') && id in s.claims
    ensures id in s'.claims
  {
  }

  lemma {:induction false} AcceptAllGrows(w: World, s: State, events: seq<Event>, now: int)
    requires Healthy(w, s) && AllChecked(w, events)
    ensures var s' := AcceptAll(s, events, now);
            && Healthy(w, s') && Grows(s, s') && forall i | 0 <= i < |events| :: EventId(events[i]) in s'.claims
    decreases |events|
  {
    hide Healthy, Grows, Genuine, Ingested;
    if events == [] {
      GrowsToItself(s);
    } else {
      var s1 := Ingested(s, events[0].art, now);
      IngestGrows(w, s, events[0].art, now);
      AcceptAllGrows(w, s1, events[1..], now);
      var s' := AcceptAll(s1, events[1..], now);
      GrowsIsTransitive(s, s1, s');
      GrowsKeepsHeld(s1, s', EventId(events[0]));
      assert forall i | 0 < i < |events| :: events[i] == events[1..][i - 1];
    }
  }

  // ── What a cursor may count ──────────────────────────────────────────

  /** The first `n` positions of an order, all held. */
  ghost predicate Covered(order: seq<ClaimHash>, n: nat, s: State) {
    n <= |order| && forall i | 0 <= i < n :: order[i] in s.claims
  }

  /** A cursor on the peer's current incarnation counts nothing the other side lacks. */
  ghost predicate Trails(c: Cursor, log: LogId, us: State, them: State, inst: InstanceId) {
    c.instance == Some(inst) ==>
      Covered(Arrivals(them, log), c.pull, us) && Covered(Arrivals(us, log), c.push, them)
  }

  lemma CoveredGrows(order: seq<ClaimHash>, order': seq<ClaimHash>, n: nat, s: State, s': State)
    requires Covered(order, n, s) && order <= order' && s.claims.Keys <= s'.claims.Keys
    ensures Covered(order', n, s')
  {
  }

  lemma TrailsGrow(c: Cursor, log: LogId, us: State, them: State, us': State, them': State, inst: InstanceId)
    requires Trails(c, log, us, them, inst) && Grows(us, us') && Grows(them, them')
    ensures Trails(c, log, us', them', inst)
  {
    hide Arrivals, Covered;
    if c.instance == Some(inst) {
      assert Arrivals(us, log) <= Arrivals(us', log) && Arrivals(them, log) <= Arrivals(them', log);
      CoveredGrows(Arrivals(them, log), Arrivals(them', log), c.pull, us, us');
      CoveredGrows(Arrivals(us, log), Arrivals(us', log), c.push, them, them');
    }
  }

  ghost predicate RowsTrail(cursors: Cursors, peer: string, us: State, them: State, inst: InstanceId) {
    forall log :: Trails(CursorOf(cursors, peer, log), log, us, them, inst)
  }

  lemma RowsGrow(cursors: Cursors, peer: string, us: State, them: State, us': State, them': State, inst: InstanceId)
    requires RowsTrail(cursors, peer, us, them, inst) && Grows(us, us') && Grows(them, them')
    ensures RowsTrail(cursors, peer, us', them', inst)
  {
    hide Trails, Grows;
    forall log
      ensures Trails(CursorOf(cursors, peer, log), log, us', them', inst)
    {
      TrailsGrow(CursorOf(cursors, peer, log), log, us, them, us', them', inst);
    }
  }

  lemma SavingKeepsRows(cursors: Cursors, peer: string, log: LogId, c: Cursor, us: State, them: State, inst: InstanceId)
    requires RowsTrail(cursors, peer, us, them, inst) && Trails(c, log, us, them, inst)
    ensures RowsTrail(cursors[(peer, log) := c], peer, us, them, inst)
  {
    hide Trails;
    var m := cursors[(peer, log) := c];
    forall other
      ensures Trails(CursorOf(m, peer, other), other, us, them, inst)
    {
      assert Trails(CursorOf(cursors, peer, other), other, us, them, inst);
    }
  }

  lemma FreshTrails(instance: InstanceId, log: LogId, us: State, them: State, inst: InstanceId)
    ensures Trails(FreshCursor(instance), log, us, them, inst)
  {
  }

  // ── What a session has in hand ───────────────────────────────────────

  /** Rows of ours, each at the arrival position it will be counted at. */
  ghost predicate Aligned(batch: seq<Artifact>, order: seq<ClaimHash>, push: nat) {
    push + |batch| <= |order| && forall i | 0 <= i < |batch| :: batch[i].id == order[push + i]
  }

  ghost predicate OurRows(w: World, batch: seq<Artifact>, us: State) {
    forall i | 0 <= i < |batch| :: Genuine(w, batch[i]) && batch[i].id in us.claims
  }

  ghost predicate PushInHand(w: World, batch: seq<Artifact>, prefix: bool, c: Cursor, log: LogId, us: State) {
    OurRows(w, batch, us) && (prefix ==> Aligned(batch, Arrivals(us, log), c.push))
  }

  ghost predicate InHand(w: World, n: Session, us: State, them: State, inst: InstanceId)
    requires Valid(n) && !n.phase.Starting?
  {
    || n.phase.Finished? || n.phase.FirstStatus?
    || (&& Trails(n.cursor, PlanOf(n).log, us, them, inst)
        && (n.phase.Publishing? ==> PushInHand(w, n.pushBatch[n.pushSent..], n.cursorPrefix, n.cursor, PlanOf(n).log,
           us))
        && (n.phase.Fetching? ==> OurRows(w, n.extraBatch, us)))
  }

  /** A batch of theirs, continuing their order where the cursor stands. */
  ghost predicate Continues(events: seq<Event>, order: seq<ClaimHash>, pull: nat) {
    events != [] ==> pull + |events| <= |order| && forall i | 0 <= i < |events| :: EventId(events[i]) == order[pull + i]
  }

  ghost predicate AllOfLog(events: seq<Event>, log: LogId) {
    forall i | 0 <= i < |events| :: HeaderLog(events[i]) == Some(log)
  }

  ghost predicate AllHeld(arts: seq<Artifact>, s: State) {
    forall i | 0 <= i < |arts| :: arts[i].id in s.claims
  }

  function Pending(n: Session): seq<Artifact>
    requires Valid(n) && n.phase.Publishing?
  {
    n.pushBatch[n.pushSent..Chunk(n.pushSent, |n.pushBatch|)]
  }

  /** What is known of the answer in flight. */
  ghost predicate InFlight(w: World, n: Session, r: Response, them: State, inst: InstanceId)
    requires Valid(n) && !n.phase.Starting?
  {
    match n.phase
    case Pulling =>
      r.Events? && AllChecked(w, r.events) && AllOfLog(r.events, PlanOf(n).log)
      && (n.cursor.instance == Some(inst) ==> Continues(r.events, Arrivals(them, PlanOf(n).log), n.cursor.pull))
    case Publishing => n.cursorPrefix && n.cursor.instance == Some(inst) ==> AllHeld(Pending(n), them)
    case Fetching => r.Events? && AllChecked(w, r.events)
    case _ => true
  }

  ghost predicate SessionTrails(w: World, peer: string, k: Link) {
    k.session.Some? ==>
      && Valid(k.session.value) && !k.session.value.phase.Starting? && k.session.value.peer == peer
      && InHand(w, k.session.value, k.us, k.them, k.inst)
      && (k.reply.Some? ==> InFlight(w, k.session.value, k.reply.value, k.them, k.inst))
  }

  /** Incarnations named anywhere have been used, so a new one is in no cursor. */
  ghost predicate KnownRow(c: Cursor, used: set<InstanceId>) { c.instance.Some? ==> c.instance.value in used }

  ghost predicate KnownRows(cursors: Cursors, peer: string, used: set<InstanceId>) {
    forall log :: KnownRow(CursorOf(cursors, peer, log), used)
  }

  ghost predicate KnownReply(r: Option<Response>, used: set<InstanceId>) {
    r.Some? && r.value.Status? ==> r.value.instance in used
  }

  ghost predicate Known(peer: string, k: Link) {
    && k.inst in k.used
    && KnownRows(k.cursors, peer, k.used)
    && (k.session.Some? ==> KnownRow(k.session.value.cursor, k.used))
    && KnownReply(k.reply, k.used)
    && (forall n | n in k.frames :: n.instance in k.used)
  }

  ghost predicate Safe(w: World, peer: string, k: Link) {
    && Healthy(w, k.us) && Healthy(w, k.them)
    && RowsTrail(k.cursors, peer, k.us, k.them, k.inst)
    && SessionTrails(w, peer, k)
    && Known(peer, k)
  }

  // ── Feeding ──────────────────────────────────────────────────────────

  /** Everything `Safe` asks of our side, once an answer is consumed. */
  ghost predicate Kept(w: World, peer: string, l: Local, them: State, inst: InstanceId, used: set<InstanceId>) {
    && Healthy(w, l.db)
    && Valid(l.session) && !l.session.phase.Starting? && l.session.peer == peer
    && RowsTrail(l.cursors, peer, l.db, them, inst) && InHand(w, l.session, l.db, them, inst)
    && KnownRows(l.cursors, peer, used) && KnownRow(l.session.cursor, used)
  }

  lemma SavingKeepsKnown(cursors: Cursors, peer: string, log: LogId, c: Cursor, used: set<InstanceId>)
    requires KnownRows(cursors, peer, used) && KnownRow(c, used)
    ensures KnownRows(cursors[(peer, log) := c], peer, used)
  {
    hide KnownRow;
    var m := cursors[(peer, log) := c];
    forall other
      ensures KnownRow(CursorOf(m, peer, other), used)
    {
      assert KnownRow(CursorOf(cursors, peer, other), used);
    }
  }

  /** Only the counts and the incarnation matter. */
  lemma SameCounts(c: Cursor, c': Cursor, log: LogId, us: State, them: State, inst: InstanceId)
    requires Trails(c, log, us, them, inst) && c'.instance == c.instance && c'.pull == c.pull && c'.push == c.push
    ensures Trails(c', log, us, them, inst)
  {
  }

  lemma OrderRows(s: State, log: LogId, i: nat)
    requires Dense(s) && i < |Order(s, log)|
    ensures Order(s, log)[i] in s.claims && s.claims[Order(s, log)[i]].art.log == log
  {
    hide Dense;
    assert InLog(s, log, Order(s, log)[i]);
  }

  lemma ArtifactsOfRows(w: World, s: State, log: LogId, ids: seq<ClaimHash>)
    requires AllGenuine(w, s) && forall i | 0 <= i < |ids| :: ids[i] in s.claims && s.claims[ids[i]].art.log == log
    ensures var arts := Artifacts(s, ids);
            |arts| == |ids| && forall i | 0 <= i < |ids| ::
              arts[i].id == ids[i] && arts[i].log == log && Genuine(w, arts[i]) && arts[i].id in s.claims
  {
    hide Genuine;
  }

  /** What is served continues the order from the cursor. */
  lemma ServedContinues(w: World, s: State, log: LogId, have: nat)
    requires Healthy(w, s)
    ensures var arts := ServeSince(s, log, have);
            && (arts != [] ==> Aligned(arts, Arrivals(s, log), have) && have + |arts| == |Arrivals(s, log)|)
            && OurRows(w, arts, s)
            && forall i | 0 <= i < |arts| :: arts[i].log == log
  {
    hide WellKept, Explained, Indexed, Dense, AllGenuine, ServeSince, Arrived, Artifacts;
    var order := Order(s, log);
    ServedInOrder(s, log, have);
    hide Order;
    var ids := if have <= |order| then order[have..] else [];
    forall i | 0 <= i < |ids|
      ensures ids[i] in s.claims && s.claims[ids[i]].art.log == log
    {
      OrderRows(s, log, have + i);
    }
    ArtifactsOfRows(w, s, log, ids);
  }

  lemma PrimaryPushInHand(w: World, n: Session, us: State, them: State, inst: InstanceId)
    requires Open(n) && Healthy(w, us) && n.settleRounds <= 2 && Trails(n.cursor, PlanOf(n).log, us, them, inst)
    ensures var n' := BeginPrimaryPush(n, us);
            && Valid(n') && !n'.phase.Starting? && n'.peer == n.peer && n'.cursor == n.cursor
               && InHand(w, n', us, them, inst)
  {
    hide ServeSince, Healthy, Trails, OurRows, Aligned;
    ServedContinues(w, us, PlanOf(n).log, n.cursor.push);
    var batch := if PlanOf(n).push then ServeSince(us, PlanOf(n).log, n.cursor.push) else [];
    assert batch[0..] == batch;
  }

  lemma FinishedKept(w: World, peer: string, l: Local, them: State, inst: InstanceId, used: set<InstanceId>, n: Session,
                     cursors: Cursors)
    requires Healthy(w, l.db) && RowsTrail(cursors, peer, l.db, them, inst) && KnownRows(cursors, peer, used)
    requires KnownRow(n.cursor, used) && n.settleRounds <= 3 && n.peer == peer
    ensures Kept(w, peer, Local(FinishLog(n), l.db, cursors), them, inst, used)
  {
    hide Healthy, RowsTrail, KnownRows;
    FinishLogShape(n);
  }

  lemma SettleTrails(w: World, peer: string, l: Local, them: State, inst: InstanceId, used: set<InstanceId>,
                     count: nat, fp: Print, instance: InstanceId)
    requires Kept(w, peer, l, them, inst, used) && InProgress(l) && l.session.phase.Settling? && instance in used
    ensures Kept(w, peer, SettleWith(l, count, fp, instance), them, inst, used)
  {
    var n := l.session;
    var log := PlanOf(n).log;
    OpenInProgress(l);
    assert Trails(n.cursor, log, l.db, them, inst);
    SettleShape(l, count, fp, instance);
    hide Healthy, RowsTrail, KnownRows, SettleWith, Fingerprint, FinishLog, BeginPrimaryPush, Trails;
    var l' := SettleWith(l, count, fp, instance);
    if n.cursor.instance != Some(instance) {
      var n2 := Restarted(n, count, instance);
      FreshTrails(instance, log, l.db, them, inst);
      SavingKeepsRows(l.cursors, peer, log, FreshCursor(instance), l.db, them, inst);
      SavingKeepsKnown(l.cursors, peer, log, FreshCursor(instance), used);
      if n2.settleRounds > 2 {
        FinishedKept(w, peer, l, them, inst, used, n2, l'.cursors);
      } else if !(PlanOf(n2).pull && count > 0) {
        PrimaryPushInHand(w, n2, l.db, them, inst);
      }
    } else if l' == Settled(l, fp) {
      var c := n.cursor.(settled := Some(fp));
      SameCounts(n.cursor, c, log, l.db, them, inst);
      SavingKeepsRows(l.cursors, peer, log, c, l.db, them, inst);
      SavingKeepsKnown(l.cursors, peer, log, c, used);
      FinishedKept(w, peer, l, them, inst, used, n.(cursor := c), l'.cursors);
    } else if l' == l.(session := FinishLog(n)) {
      FinishedKept(w, peer, l, them, inst, used, n, l.cursors);
    }
  }

  lemma ContactedKept(w: World, peer: string, l: Local, them: State, inst: InstanceId, used: set<InstanceId>,
                      count: nat, instance: InstanceId)
    requires Kept(w, peer, l, them, inst, used) && InProgress(l) && instance in used
    ensures var l1 := Contacted(l, count, instance);
            && l1.db == l.db && SamePlan(l1.session, l.session) && l1.session.settleRounds <= 2
            && Trails(l1.session.cursor, PlanOf(l.session).log, l.db, them, inst) && KnownRow(l1.session.cursor, used)
            && RowsTrail(l1.cursors, peer, l.db, them, inst) && KnownRows(l1.cursors, peer, used)
  {
    hide Healthy, Trails, InHand;
    var log := PlanOf(l.session).log;
    var c := CursorOf(l.cursors, peer, log);
    assert Trails(c, log, l.db, them, inst) && KnownRow(c, used);
    FreshTrails(instance, log, l.db, them, inst);
    SavingKeepsRows(l.cursors, peer, log, FreshCursor(instance), l.db, them, inst);
    SavingKeepsKnown(l.cursors, peer, log, FreshCursor(instance), used);
  }

  lemma FirstStatusTrails(w: World, peer: string, l: Local, them: State, inst: InstanceId, used: set<InstanceId>,
                          count: nat, fp: Print, instance: InstanceId)
    requires Kept(w, peer, l, them, inst, used) && InProgress(l) && l.session.phase.FirstStatus? && instance in used
    ensures Kept(w, peer, FeedFirstStatus(l, count, fp, instance), them, inst, used)
  {
    hide Healthy, Trails, RowsTrail, KnownRows, Contacted, FeedFirstStatus, SettleWith, BeginPrimaryPush;
    OpenInProgress(l);
    FirstStatusFromContact(l, count, fp, instance);
    ContactedKept(w, peer, l, them, inst, used, count, instance);
    PeerCountContacted(l, count, instance);
    var l1 := Contacted(l, count, instance);
    if !(PlanOf(l1.session).pull && l1.session.cursor.pull < count) {
      PrimaryPushKeeps(l1.session, l.db);
      PrimaryPushInHand(w, l1.session, l.db, them, inst);
      var l2 := l1.(session := BeginPrimaryPush(l1.session, l.db));
      if l2.session.phase.Settling? {
        SettleTrails(w, peer, l2, them, inst, used, count, fp, instance);
      }
    }
  }

  /** Pulled positions are held before they are counted. */
  lemma PulledCovers(order: seq<ClaimHash>, events: seq<Event>, pull: nat, us: State, us': State)
    requires Covered(order, pull, us) && Grows(us, us') && Continues(events, order, pull)
    requires forall i | 0 <= i < |events| :: EventId(events[i]) in us'.claims
    ensures Covered(order, pull + |events|, us')
  {
    forall i | 0 <= i < pull + |events|
      ensures order[i] in us'.claims
    {
      if i >= pull {
        assert order[i] == EventId(events[i - pull]);
      }
    }
  }

  lemma PulledTrails(c: Cursor, log: LogId, events: seq<Event>, us: State, us': State, them: State, inst: InstanceId)
    requires Trails(c, log, us, them, inst) && Grows(us, us')
    requires c.instance == Some(inst) ==> Continues(events, Arrivals(them, log), c.pull)
    requires forall i | 0 <= i < |events| :: EventId(events[i]) in us'.claims
    ensures Trails(c.(pull := c.pull + |events|), log, us', them, inst)
  {
    hide Arrivals, Covered, Continues;
    if c.instance == Some(inst) {
      GrowsToItself(them);
      TrailsGrow(c, log, us, them, us', them, inst);
      PulledCovers(Arrivals(them, log), events, c.pull, us, us');
    }
  }

  lemma PullTrails(w: World, peer: string, l: Local, them: State, inst: InstanceId, used: set<InstanceId>,
                   events: seq<Event>)
    requires Kept(w, peer, l, them, inst, used) && InProgress(l) && l.session.phase.Pulling?
    requires InFlight(w, l.session, Response.Events(events), them, inst)
    ensures Kept(w, peer, FeedPulled(l, events), them, inst, used)
  {
    var n := l.session;
    var log := PlanOf(n).log;
    OpenInProgress(l);
    assert Trails(n.cursor, log, l.db, them, inst);
    hide Healthy, Trails, RowsTrail, KnownRows, FeedPulled, BeginPrimaryPush, TakeAll, Pulled, Continues, Grows;
    if events == [] {
      EmptyPull(l);
      PrimaryPushInHand(w, n, l.db, them, inst);
    } else {
      var l2 := Pulled(l, events);
      PulledShape(l, events);
      TakeAllGrows(w, l, OfLog(log), events);
      assert forall i | 0 <= i < |events| :: Admits(OfLog(log), events[i]);
      PulledTrails(n.cursor, log, events, l.db, l2.db, them, inst);
      GrowsToItself(them);
      RowsGrow(l.cursors, peer, l.db, them, l2.db, them, inst);
      SavingKeepsRows(l.cursors, peer, log, l2.session.cursor, l2.db, them, inst);
      SavingKeepsKnown(l.cursors, peer, log, l2.session.cursor, used);
      if l2.session.cursor.pull >= l2.session.peerCount {
        PrimaryPushInHand(w, l2.session, l2.db, them, inst);
      }
    }
  }

  lemma EmptyPull(l: Local)
    requires Open(l.session)
    ensures FeedPulled(l, []) == l.(session := BeginPrimaryPush(l.session, l.db))
  {
  }

  /** Pushed positions are held by the peer before they are counted. */
  lemma PushedTrails(w: World, c: Cursor, log: LogId, batch: seq<Artifact>, k: nat, us: State, them: State,
                     inst: InstanceId)
    requires Trails(c, log, us, them, inst) && k <= |batch| && PushInHand(w, batch, true, c, log, us)
    requires c.instance == Some(inst) ==> AllHeld(batch[..k], them)
    ensures var c' := c.(push := c.push + k);
            Trails(c', log, us, them, inst) && PushInHand(w, batch[k..], true, c', log, us)
  {
    hide Arrivals;
    var order := Arrivals(us, log);
    if c.instance == Some(inst) {
      forall i | 0 <= i < c.push + k
        ensures order[i] in them.claims
      {
        if i >= c.push {
          assert order[i] == batch[..k][i - c.push].id;
        }
      }
    }
  }

  lemma LessInHand(w: World, batch: seq<Artifact>, k: nat, c: Cursor, log: LogId, us: State)
    requires k <= |batch| && PushInHand(w, batch, false, c, log, us)
    ensures PushInHand(w, batch[k..], false, c, log, us)
  {
  }

  lemma AckInHand(w: World, n: Session, n': Session, us: State, them: State, inst: InstanceId)
    requires Valid(n) && n.phase.Publishing? && InHand(w, n, us, them, inst) && Valid(n') && SamePlan(n', n)
    requires n.cursorPrefix && n.cursor.instance == Some(inst) ==> AllHeld(Pending(n), them)
    requires var end := Chunk(n.pushSent, |n.pushBatch|);
             && n'.pushBatch == n.pushBatch && n'.pushSent == end && n'.cursorPrefix == n.cursorPrefix
             && n'.cursor == (if n.cursorPrefix then n.cursor.(push := n.cursor.push + end - n.pushSent) else n.cursor)
             && n'.phase in {Publishing, Settling, Resettling}
    ensures InHand(w, n', us, them, inst) && Trails(n'.cursor, PlanOf(n).log, us, them, inst)
  {
    hide Trails, AllHeld, PushInHand;
    var end := Chunk(n.pushSent, |n.pushBatch|);
    var batch := n.pushBatch[n.pushSent..];
    assert Pending(n) == batch[..end - n.pushSent] && n.pushBatch[end..] == batch[end - n.pushSent..];
    if n.cursorPrefix {
      PushedTrails(w, n.cursor, PlanOf(n).log, batch, end - n.pushSent, us, them, inst);
    } else {
      LessInHand(w, batch, end - n.pushSent, n.cursor, PlanOf(n).log, us);
    }
  }

  lemma AckTrails(w: World, peer: string, l: Local, them: State, inst: InstanceId, used: set<InstanceId>, stored: nat,
                  rejected: nat)
    requires Kept(w, peer, l, them, inst, used) && InProgress(l) && l.session.phase.Publishing?
    requires InFlight(w, l.session, Ack(stored, rejected), them, inst)
    ensures Kept(w, peer, FeedAck(l, stored, rejected), them, inst, used)
  {
    hide FeedAck, Healthy, Trails, RowsTrail, KnownRows, InHand, AllHeld, Valid;
    OpenInProgress(l);
    AckShape(l, stored, rejected);
    PublishingBounds(l.session);
    var l' := FeedAck(l, stored, rejected);
    AckInHand(w, l.session, l'.session, l.db, them, inst);
    if l.session.cursorPrefix {
      SavingKeepsRows(l.cursors, peer, PlanOf(l.session).log, l'.session.cursor, l.db, them, inst);
      SavingKeepsKnown(l.cursors, peer, PlanOf(l.session).log, l'.session.cursor, used);
    }
  }

  lemma OfferedRows(w: World, us: State, ids: set<ClaimHash>)
    requires Healthy(w, us) && ids <= us.claims.Keys
    ensures OurRows(w, Artifacts(us, SortIds(ById(), ids)), us)
  {
    hide Ascending, WellKept, Explained, Indexed, Dense, Genuine;
    SortIdsLists(ById(), ids);
    var sorted := SortIds(ById(), ids);
    hide SortIds;
    assert forall i | 0 <= i < |sorted| :: sorted[i] in sorted;
  }

  lemma AfterFetchingInHand(w: World, n: Session, us: State, them: State, inst: InstanceId)
    requires Open(n) && n.settleRounds <= 2 && Trails(n.cursor, PlanOf(n).log, us, them, inst)
             && OurRows(w, n.extraBatch, us)
    ensures var n' := AfterFetching(n);
            && Valid(n') && !n'.phase.Starting? && n'.peer == n.peer && n'.cursor == n.cursor
               && InHand(w, n', us, them, inst)
  {
    hide Trails, OurRows;
    assert n.extraBatch[0..] == n.extraBatch;
  }

  lemma OffersAreOurs(w: World, us: State, plan: Plan, theirs: map<ClaimHash, bool>)
    requires Healthy(w, us)
    ensures OurRows(w, if plan.push then Artifacts(us, SortIds(ById(), OfferSet(us, plan.log, theirs))) else [], us)
  {
    hide Healthy, SortIds, Artifacts;
    OfferedRows(w, us, OfferSet(us, plan.log, theirs));
    NoRows(w, us);
  }

  lemma DiffedInHand(w: World, n: Session, us: State, them: State, inst: InstanceId, theirs: map<ClaimHash, bool>)
    requires Healthy(w, us) && Valid(n) && n.phase.Reconciling? && Trails(n.cursor, PlanOf(n).log, us, them, inst)
    ensures var n' := Diffed(n, us, theirs);
            && Valid(n') && !n'.phase.Starting? && n'.peer == n.peer && n'.cursor == n.cursor
               && InHand(w, n', us, them, inst)
  {
    hide Healthy, Trails, OurRows, SortIds, WantSet, OfferSet, Artifacts, AfterFetching;
    var plan := PlanOf(n);
    OffersAreOurs(w, us, plan, theirs);
    var wants := if plan.pull then SortIds(ById(), WantSet(us, plan.log, theirs)) else [];
    var offers := if plan.push then Artifacts(us, SortIds(ById(), OfferSet(us, plan.log, theirs))) else [];
    AfterFetchingInHand(w, n.(wantIds := wants, wantSent := 0, extraBatch := offers), us, them, inst);
  }

  lemma HashesTrail(w: World, peer: string, l: Local, them: State, inst: InstanceId, used: set<InstanceId>,
                    theirs: map<ClaimHash, bool>)
    requires Kept(w, peer, l, them, inst, used) && InProgress(l) && l.session.phase.Reconciling?
    ensures Kept(w, peer, l.(session := Diffed(l.session, l.db, theirs)), them, inst, used)
  {
    hide Healthy, Trails, RowsTrail, KnownRows, Diffed;
    OpenInProgress(l);
    DiffedInHand(w, l.session, l.db, them, inst, theirs);
  }

  lemma NoRows(w: World, us: State)
    ensures OurRows(w, [], us)
  {
  }

  lemma RowsStayOurs(w: World, batch: seq<Artifact>, us: State, us': State)
    requires OurRows(w, batch, us) && Grows(us, us')
    ensures OurRows(w, batch, us')
  {
  }

  lemma ClaimsTrail(w: World, peer: string, l: Local, them: State, inst: InstanceId, used: set<InstanceId>,
                    events: seq<Event>)
    requires Kept(w, peer, l, them, inst, used) && InProgress(l) && l.session.phase.Fetching? && AllChecked(w, events)
    ensures Kept(w, peer, FeedClaims(l, events), them, inst, used)
  {
    var n := l.session;
    var end := Chunk(n.wantSent, |n.wantIds|);
    var f := Asked(n.wantIds[n.wantSent..end]);
    OpenInProgress(l);
    ClaimsShape(l, events);
    assert Trails(n.cursor, PlanOf(n).log, l.db, them, inst) && OurRows(w, n.extraBatch, l.db);
    hide Healthy, Trails, RowsTrail, KnownRows, FeedClaims, TakeAll, AfterFetching, Grows, OurRows, AllChecked;
    var l1 := TakeAll(l, f, events);
    TakeAllGrows(w, l, f, events);
    GrowsToItself(them);
    RowsGrow(l.cursors, peer, l.db, them, l1.db, them, inst);
    TrailsGrow(n.cursor, PlanOf(n).log, l.db, them, l1.db, them, inst);
    RowsStayOurs(w, n.extraBatch, l.db, l1.db);
    if end == |n.wantIds| {
      AfterFetchingInHand(w, l1.session.(wantSent := end), l1.db, them, inst);
    }
  }

  lemma ResettleTrails(w: World, peer: string, l: Local, them: State, inst: InstanceId, used: set<InstanceId>,
                       fp: Print, instance: InstanceId)
    requires Kept(w, peer, l, them, inst, used) && InProgress(l) && l.session.phase.Resettling?
    ensures Kept(w, peer, FeedResettle(l, fp, instance), them, inst, used)
  {
    var n := l.session;
    var log := PlanOf(n).log;
    OpenInProgress(l);
    assert Trails(n.cursor, log, l.db, them, inst);
    hide Healthy, Trails, RowsTrail, KnownRows, FinishLog;
    var c := n.cursor.(settled := Some(fp));
    SameCounts(n.cursor, c, log, l.db, them, inst);
    SavingKeepsRows(l.cursors, peer, log, c, l.db, them, inst);
    SavingKeepsKnown(l.cursors, peer, log, c, used);
    FinishedKept(w, peer, l, them, inst, used, n.(cursor := c), l.cursors[(peer, log) := c]);
    FinishedKept(w, peer, l, them, inst, used, n, l.cursors);
  }

  lemma FeedTrails(w: World, peer: string, l: Local, r: Response, them: State, inst: InstanceId, used: set<InstanceId>)
    requires Kept(w, peer, l, them, inst, used) && InProgress(l) && InFlight(w, l.session, r, them, inst)
    requires KnownReply(Some(r), used) && Feed(l, r).Some?
    ensures Kept(w, peer, Feed(l, r).value, them, inst, used)
  {
    hide Kept, FeedFirstStatus, FeedPulled, FeedAck, SettleWith, Diffed, FeedClaims, FeedResettle;
    match l.session.phase
    case FirstStatus => FirstStatusTrails(w, peer, l, them, inst, used, r.count, r.fp, r.instance);
    case Pulling => PullTrails(w, peer, l, them, inst, used, r.events);
    case Publishing => AckTrails(w, peer, l, them, inst, used, r.stored, r.rejected);
    case Settling => SettleTrails(w, peer, l, them, inst, used, r.count, r.fp, r.instance);
    case Reconciling => HashesTrail(w, peer, l, them, inst, used, HashMap(r.entries));
    case Fetching => ClaimsTrail(w, peer, l, them, inst, used, r.events);
    case Resettling => ResettleTrails(w, peer, l, them, inst, used, r.fp, r.instance);
    case _ =>
  }

  // ── The steps ────────────────────────────────────────────────────────

  lemma LandSafe(w: World, peer: string, k: Link)
    requires Safe(w, peer, k) && Asking(k) && k.reply.Some?
    ensures Safe(w, peer, Landed(k))
  {
    hide Healthy, RowsTrail, KnownRows, InHand, InFlight, Feed, Valid, KnownReply;
    var l := LocalOf(k);
    assert Kept(w, peer, l, k.them, k.inst, k.used);
    if Feed(l, k.reply.value).Some? {
      KnownSome(k.reply, k.used);
      FeedTrails(w, peer, l, k.reply.value, k.them, k.inst, k.used);
    }
    NoneKnown(k.used);
  }

  lemma KnownSome(r: Option<Response>, used: set<InstanceId>)
    requires r.Some? && KnownReply(r, used)
    ensures KnownReply(Some(r.value), used)
  {
  }

  lemma NoneKnown(used: set<InstanceId>)
    ensures KnownReply(None, used)
  {
  }

  /** Growth on either side disturbs nothing in hand or in flight. */
  lemma InHandGrows(w: World, n: Session, us: State, them: State, us': State, them': State, inst: InstanceId)
    requires Valid(n) && !n.phase.Starting? && InHand(w, n, us, them, inst) && Grows(us, us') && Grows(them, them')
    ensures InHand(w, n, us', them', inst)
  {
    hide Trails, Grows, OurRows, Aligned, Valid;
    if !n.phase.Finished? && !n.phase.FirstStatus? {
      ValidIsOpen(n);
      TrailsGrow(n.cursor, PlanOf(n).log, us, them, us', them', inst);
      if n.phase.Publishing? {
        assert n.pushSent <= |n.pushBatch| by { PublishingBounds(n); }
        RowsStayOurs(w, n.pushBatch[n.pushSent..], us, us');
        if n.cursorPrefix {
          AlignedGrows(n.pushBatch[n.pushSent..], PlanOf(n).log, n.cursor.push, us, us');
        }
      }
      if n.phase.Fetching? {
        RowsStayOurs(w, n.extraBatch, us, us');
      }
    }
  }

  lemma PublishingBounds(n: Session)
    requires Valid(n) && n.phase.Publishing?
    ensures n.pushSent < |n.pushBatch|
  {
  }

  lemma AlignedGrows(batch: seq<Artifact>, log: LogId, push: nat, us: State, us': State)
    requires Aligned(batch, Arrivals(us, log), push) && Grows(us, us')
    ensures Aligned(batch, Arrivals(us', log), push)
  {
    hide Arrivals;
    assert Arrivals(us, log) <= Arrivals(us', log);
  }

  lemma InFlightGrows(w: World, n: Session, r: Response, them: State, them': State, inst: InstanceId)
    requires Valid(n) && !n.phase.Starting? && InFlight(w, n, r, them, inst) && Grows(them, them')
    ensures InFlight(w, n, r, them', inst)
  {
    hide Arrivals, AllChecked, AllOfLog;
    if n.phase.Pulling? {
      assert Arrivals(them, PlanOf(n).log) <= Arrivals(them', PlanOf(n).log);
    }
  }

  lemma GrowthIsSafe(w: World, peer: string, k: Link, us': State, them': State)
    requires Safe(w, peer, k) && Healthy(w, us') && Healthy(w, them') && Grows(k.us, us') && Grows(k.them, them')
    ensures Safe(w, peer, k.(us := us', them := them'))
  {
    hide Healthy, RowsTrail, KnownRows, InHand, InFlight, Valid, Grows, KnownReply;
    RowsGrow(k.cursors, peer, k.us, k.them, us', them', k.inst);
    if k.session.Some? {
      InHandGrows(w, k.session.value, k.us, k.them, us', them', k.inst);
      if k.reply.Some? {
        InFlightGrows(w, k.session.value, k.reply.value, k.them, them', k.inst);
      }
    }
  }

  /** The honest answer to a pull, and what it continues. */
  lemma PullAnswer(w: World, n: Session, them: State, inst: InstanceId, now: int)
    requires Healthy(w, them) && Valid(n) && n.phase.Pulling?
    ensures InFlight(w, n, Respond(them, inst, now, map[], NextRequest(n).value), them, inst)
  {
    hide Healthy, ServeSince, Arrivals, Genuine;
    var all := ServeSince(them, PlanOf(n).log, n.cursor.pull);
    ServedContinues(w, them, PlanOf(n).log, n.cursor.pull);
    var arts := Take(all, Min(BATCH, MAX_SERVE_BATCH));
    assert forall i | 0 <= i < |arts| :: arts[i] == all[i];
  }

  lemma FetchAnswer(w: World, n: Session, them: State, inst: InstanceId, now: int)
    requires Healthy(w, them) && Valid(n) && n.phase.Fetching?
    ensures InFlight(w, n, Respond(them, inst, now, map[], NextRequest(n).value), them, inst)
  {
    hide WellKept, Explained, Indexed, Dense, Genuine;
    FoundAreGenuine(w, them, n.wantIds[n.wantSent..Chunk(n.wantSent, |n.wantIds|)]);
  }

  lemma {:induction false} FoundAreGenuine(w: World, s: State, ids: seq<ClaimHash>)
    requires AllGenuine(w, s)
    ensures AllChecked(w, Wrap(Artifacts(s, ids)))
    ensures forall i | 0 <= i < |Artifacts(s, ids)| ::
            Artifacts(s, ids)[i].id in s.claims && Artifacts(s, ids)[i].id in ids
    ensures forall id | id in ids && id in s.claims :: exists i ::
            0 <= i < |Artifacts(s, ids)| && Artifacts(s, ids)[i].id == id
  {
    hide Genuine;
    if ids != [] {
      FoundAreGenuine(w, s, ids[1..]);
      var rest, all := Artifacts(s, ids[1..]), Artifacts(s, ids);
      var k := if ids[0] in s.claims then 1 else 0;
      assert forall i | k <= i < |all| :: all[i] == rest[i - k];
      forall id | id in ids && id in s.claims
        ensures exists i :: 0 <= i < |all| && all[i].id == id
      {
        if id == ids[0] {
          assert all[0].id == id;
        } else {
          assert id in ids[1..];
          var i :| 0 <= i < |rest| && rest[i].id == id;
          assert all[i + k].id == id;
        }
      }
    }
  }

  /** Publishing leaves every event of the chunk with the peer. */
  lemma PublishAnswer(w: World, n: Session, us: State, them: State, inst: InstanceId, now: int)
    requires Healthy(w, them) && Valid(n) && n.phase.Publishing? && InHand(w, n, us, them, inst)
    ensures var them' := Served(them, now, NextRequest(n).value);
            && Healthy(w, them') && Grows(them, them')
            && InFlight(w, n, Respond(them, inst, now, map[], NextRequest(n).value), them', inst)
  {
    hide Healthy, Trails, Arrivals, Grows, Genuine, AckOf;
    var batch := n.pushBatch[n.pushSent..];
    assert forall i | 0 <= i < |Pending(n)| :: Pending(n)[i] == batch[i];
    assert OurRows(w, batch, us);
    AcceptAllGrows(w, them, Wrap(Pending(n)), now);
    var them' := AcceptAll(them, Wrap(Pending(n)), now);
    hide AcceptAll;
    forall i | 0 <= i < |Pending(n)|
      ensures Pending(n)[i].id in them'.claims
    {
      assert EventId(Wrap(Pending(n))[i]) in them'.claims;
    }
  }

  /** Whatever is asked, the peer only grows and its answer says nothing untrue. */
  lemma AnswerSafe(w: World, n: Session, us: State, them: State, inst: InstanceId, now: int, used: set<InstanceId>)
    requires Healthy(w, them) && Valid(n) && !n.phase.Starting? && !n.phase.Finished? && InHand(w, n, us, them, inst)
             && inst in used
    ensures var r := NextRequest(n).value;
            var them' := Served(them, now, r);
            && Healthy(w, them') && Grows(them, them')
            && InFlight(w, n, Respond(them, inst, now, map[], r), them', inst)
            && KnownReply(Some(Respond(them, inst, now, map[], r)), used)
  {
    hide Healthy, InHand, Grows, AcceptAll, ServeSince, Arrivals, LogHashes, Fingerprint, LogLen, Artifacts;
    GrowsToItself(them);
    if n.phase.Publishing? {
      PublishAnswer(w, n, us, them, inst, now);
      AcksAreAcks(them, NextRequest(n).value.events, now);
    } else if n.phase.Pulling? {
      PullAnswer(w, n, them, inst, now);
    } else if n.phase.Fetching? {
      FetchAnswer(w, n, them, inst, now);
    }
  }

  lemma AskSafe(w: World, peer: string, k: Link, now: int)
    requires Safe(w, peer, k) && Asking(k)
    ensures Safe(w, peer, Answering(k, now))
  {
    hide Healthy, RowsTrail, KnownRows, InHand, InFlight, Valid, Grows, KnownReply, NextRequest, Respond, Served;
    AskingIsAhead(k);
    var n := k.session.value;
    AnswerSafe(w, n, k.us, k.them, k.inst, now, k.used);
    GrowsToItself(k.us);
    var k' := Answering(k, now);
    RowsGrow(k.cursors, peer, k.us, k.them, k.us, k'.them, k.inst);
    InHandGrows(w, n, k.us, k.them, k.us, k'.them, k.inst);
  }

  lemma AskingIsAhead(k: Link)
    requires Asking(k)
    ensures Valid(k.session.value) && !k.session.value.phase.Starting? && !k.session.value.phase.Finished?
  {
  }

  lemma BeginSafe(w: World, peer: string, k: Link, now: int, pull: seq<LogId>, push: seq<LogId>)
    requires Safe(w, peer, k)
    ensures Safe(w, peer, k.(session := Some(Opened(NewSession(peer, now, pull, push))), reply := None))
  {
    hide Healthy, RowsTrail, KnownRows, PullPlans, PushPlans;
  }

  /** A reborn peer is named by no cursor yet. */
  lemma RebirthSafe(w: World, peer: string, k: Link, store: State, inst: InstanceId)
    requires Safe(w, peer, k) && Healthy(w, store) && inst !in k.used
    ensures Safe(w, peer, k.(them := store, inst := inst, used := k.used + {inst}))
  {
    hide Healthy, Covered, Arrivals, OurRows, Aligned, AllChecked, AllOfLog, Continues, AllHeld, Valid;
    forall log
      ensures Trails(CursorOf(k.cursors, peer, log), log, k.us, store, inst)
    {
      assert KnownRow(CursorOf(k.cursors, peer, log), k.used);
    }
    assert forall log :: KnownRow(CursorOf(k.cursors, peer, log), k.used) ==>
           KnownRow(CursorOf(k.cursors, peer, log), k.used + {inst});
  }

  predicate NoFrames(steps: seq<Step>) { forall i | 0 <= i < |steps| :: !steps[i].Hear? }

  lemma StepSafe(w: World, peer: string, k: Link, step: Step)
    requires Safe(w, peer, k) && Enabled(w, k, step) && !step.Hear?
    ensures Safe(w, peer, Next(w, peer, k, step))
  {
    hide Healthy, RowsTrail, KnownRows, InHand, InFlight, Valid, Grows, Ingested, Landed, Answering, Genuine,
         KnownReply;
    match step
    case Begin(now, pull, push) => BeginSafe(w, peer, k, now, pull, push);
    case Abandon => NoneKnown(k.used);
    case Ask(now) => AskSafe(w, peer, k, now);
    case Land => LandSafe(w, peer, k);
    case Ours(a, now) =>
      IngestGrows(w, k.us, a, now);
      GrowsToItself(k.them);
      GrowthIsSafe(w, peer, k, Ingested(k.us, a, now), k.them);
    case Theirs(a, now) =>
      IngestGrows(w, k.them, a, now);
      GrowsToItself(k.us);
      GrowthIsSafe(w, peer, k, k.us, Ingested(k.them, a, now));
    case Rebirth(store, inst) => RebirthSafe(w, peer, k, store, inst);
    case Fanout(log, events) => hide NotifyFor; FanoutInstance(k.them, k.inst, log, events);
    case _ =>
  }

  lemma FanoutInstance(db: State, inst: InstanceId, log: LogId, events: seq<Event>)
    ensures NotifyFor(db, inst, log, events).instance == inst
  {
  }

  /**
   Over every interleaving of sessions, aborts, retries, late answers, other
   writers and rebirths, cursors trail the data at every boundary.
   */
  lemma {:induction false} CursorsNeverRunAhead(w: World, peer: string, k: Link, steps: seq<Step>)
    requires Safe(w, peer, k) && CanRun(w, peer, k, steps) && NoFrames(steps)
    ensures Safe(w, peer, After(w, peer, k, steps))
    decreases |steps|
  {
    hide Safe, Enabled, Next;
    if steps != [] {
      StepSafe(w, peer, k, steps[0]);
      CursorsNeverRunAhead(w, peer, Next(w, peer, k, steps[0]), steps[1..]);
    }
  }

  lemma FreshIsSafe(w: World, peer: string, k: Link)
    requires Fresh(w, k)
    ensures Safe(w, peer, k)
  {
    hide Healthy, Covered, Arrivals;
  }

  // ── What it means for the counts ─────────────────────────────────────

  lemma {:induction false} DistinctAreMany(order: seq<ClaimHash>, n: nat, ids: set<ClaimHash>)
    requires n <= |order| && (forall i | 0 <= i < n :: order[i] in ids)
    requires forall i, j | 0 <= i < j < n :: order[i] != order[j]
    ensures n <= |ids|
    decreases n
  {
    if n > 0 {
      DistinctAreMany(order, n - 1, ids - {order[n - 1]});
    }
  }

  /** A log we have pulled `n` positions of holds at least `n` claims. */
  lemma LogIsAsLongAsPulled(w: World, peer: string, k: Link, log: LogId)
    requires Safe(w, peer, k) && CursorOf(k.cursors, peer, log).instance == Some(k.inst)
    ensures CursorOf(k.cursors, peer, log).pull <= LogLen(k.us, log)
    ensures CursorOf(k.cursors, peer, log).push <= LogLen(k.them, log)
  {
    var c := CursorOf(k.cursors, peer, log);
    assert Trails(c, log, k.us, k.them, k.inst);
    hide SessionTrails, RowsTrail, Known, WellKept, Explained, Indexed, Dense;
    CountsAreHeld(w, k.us, k.them, log, c.pull);
    CountsAreHeld(w, k.them, k.us, log, c.push);
  }

  lemma CountsAreHeld(w: World, us: State, them: State, log: LogId, n: nat)
    requires Healthy(w, us) && Healthy(w, them) && Covered(Arrivals(them, log), n, us)
    ensures n <= LogLen(us, log)
  {
    hide WellKept, Explained, Indexed, Dense;
    var order := Order(them, log);
    forall i | 0 <= i < n
      ensures order[i] in LogIds(us, log) && them.claims[order[i]].arrival == i
    {
      assert InLog(them, log, order[i]);
    }
    DistinctAreMany(order, n, LogIds(us, log));
  }

  /**
   The promise itself, for two stores that started with no cursors: every arrival
   position of the peer below the saved pull is a claim we hold, every position of
   ours below the saved push is held by the peer.
   */
  lemma SavedCursorsTrail(w: World, peer: string, k: Link, steps: seq<Step>, log: LogId)
    requires Fresh(w, k) && CanRun(w, peer, k, steps) && NoFrames(steps)
    ensures var k' := After(w, peer, k, steps);
            var c := CursorOf(k'.cursors, peer, log);
            c.instance == Some(k'.inst) ==>
              && Covered(Arrivals(k'.them, log), c.pull, k'.us) && c.pull <= LogLen(k'.us, log)
              && Covered(Arrivals(k'.us, log), c.push, k'.them) && c.push <= LogLen(k'.them, log)
  {
    hide Covered, Arrivals, LogLen, Fresh, SessionTrails, Known, Healthy, CanRun, NoFrames;
    FreshIsSafe(w, peer, k);
    CursorsNeverRunAhead(w, peer, k, steps);
    var k' := After(w, peer, k, steps);
    var c := CursorOf(k'.cursors, peer, log);
    assert Trails(c, log, k'.us, k'.them, k'.inst);
    if c.instance == Some(k'.inst) {
      LogIsAsLongAsPulled(w, peer, k', log);
    }
  }
}
