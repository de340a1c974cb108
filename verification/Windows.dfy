/**
 What a reconciliation shows us: the store the peer answered `Hashes` from, and the
 store it answered the closing `Status` from. Over every run, whatever lands where
 and whatever frames say, what the first listed is held when the second lands; so
 what is then remembered is trusted exactly when what arrived in between is held.
 */
module Windows {
  import opened Bytes
  import opened Rows
  import opened Ingest
  import opened Converge
  import opened Indexes
  import opened Health
  import opened Sorted
  import opened Queries
  import opened Protocol
  import opened Sessions
  import opened Shapes
  import opened Push
  import opened Links
  import opened Trailing
  import opened Settling

  // ── What the peer showed ─────────────────────────────────────────────

  /** The peer's store when it last answered `Hashes`, and a closing `Status`. */
  datatype Shown = Shown(listed: State, closing: State)

  /** Before the first answer; a session past its hash list has had one. */
  const UNSEEN := Shown(EMPTY, EMPTY)

  ghost function Noted(w: World, v: Shown, k: Link, step: Step): Shown
    requires Enabled(w, k, step)
  {
    if !step.Ask? then v
    else if k.session.value.phase.Reconciling? then v.(listed := k.them)
    else if k.session.value.phase.Resettling? then v.(closing := k.them)
    else v
  }

  /** What was shown by the end of a run. */
  ghost function ShownAfter(w: World, peer: string, k: Link, steps: seq<Step>, v: Shown): Shown
    requires CanRun(w, peer, k, steps)
    decreases |steps|
  {
    if steps == [] then v
    else ShownAfter(w, peer, Next(w, peer, k, steps[0]), steps[1..], Noted(w, v, k, steps[0]))
  }

  // ── What a session past its hash list relies on ──────────────────────

  /** From the consumed hash list to the end of the log. */
  predicate Reconciles(n: Session) {
    n.phase.Fetching? || n.phase.Resettling? || (n.phase.Publishing? && n.afterPush.ToResettle?)
  }

  function StillWanted(n: Session): seq<ClaimHash>
    requires Valid(n)
  {
    if n.phase.Fetching? then n.wantIds[n.wantSent..] else []
  }

  function WantedNow(n: Session): seq<ClaimHash>
    requires Valid(n) && n.phase.Fetching?
  {
    n.wantIds[n.wantSent..Chunk(n.wantSent, |n.wantIds|)]
  }

  /** The log's claims in a store are held, but for some still to fetch. */
  ghost predicate KnownBut(listed: State, log: LogId, us: State, rest: seq<ClaimHash>) {
    forall id | InLog(listed, log, id) :: id in us.claims || id in rest
  }

  ghost predicate Carries(events: seq<Event>, id: ClaimHash) {
    exists i :: 0 <= i < |events| && EventId(events[i]) == id
  }

  ghost predicate Listing(entries: seq<Entry>, listed: State, log: LogId, us: State) {
    forall id | InLog(listed, log, id) :: id in us.claims || id in HashMap(entries)
  }

  ghost predicate Serving(events: seq<Event>, ids: seq<ClaimHash>, listed: State, log: LogId, us: State) {
    forall id | id in ids && InLog(listed, log, id) :: id in us.claims || Carries(events, id)
  }

  predicate OnCurrent(n: Session, inst: InstanceId) { n.cursor.instance == Some(inst) }

  /** A pulling session on the peer's incarnation holds or still wants what was listed. */
  ghost predicate Expects(n: Session, us: State, them: State, inst: InstanceId, v: Shown)
    requires Valid(n) && !n.phase.Starting?
  {
    Reconciles(n) && PlanOf(n).pull && OnCurrent(n, inst) ==>
      Grows(v.listed, them) && KnownBut(v.listed, PlanOf(n).log, us, StillWanted(n))
  }

  /** What the answer in flight says of what was shown. */
  ghost predicate Answered(n: Session, r: Response, us: State, them: State, inst: InstanceId, v: Shown)
    requires Valid(n) && !n.phase.Starting?
  {
    match n.phase
    case Reconciling =>
      r.Hashes? && (OnCurrent(n, inst) ==> Grows(v.listed, them) && Listing(r.entries, v.listed, PlanOf(n).log, us))
    case Fetching =>
      r.Events? && (PlanOf(n).pull && OnCurrent(n, inst) ==>
        Serving(r.events, WantedNow(n), v.listed, PlanOf(n).log, us))
    case Resettling =>
      r.Status? && r.fp == Fingerprint(v.closing, PlanOf(n).log)
      && (PlanOf(n).pull && OnCurrent(n, r.instance) ==> KnownBut(v.listed, PlanOf(n).log, us, []))
    case _ => true
  }

  /**
   What is in hand and in flight, seen from an incarnation nobody names: the counts
   of a cursor then say nothing, the batches and answers still are what they are.
   */
  ghost predicate Unnamed(w: World, n: Session, reply: Option<Response>, us: State, them: State, used: set<InstanceId>)
    requires Valid(n) && !n.phase.Starting?
  {
    forall g | g !in used :: InHand(w, n, us, them, g) && (reply.Some? ==> InFlight(w, n, reply.value, them, g))
  }

  ghost predicate SessionSteady(w: World, peer: string, n: Session, k: Link, v: Shown) {
    && Valid(n) && !n.phase.Starting? && n.peer == peer
    && Unnamed(w, n, k.reply, k.us, k.them, k.used)
    && Expects(n, k.us, k.them, k.inst, v)
    && (k.reply.Some? ==> Answered(n, k.reply.value, k.us, k.them, k.inst, v))
  }

  /** Kept by every step, whatever was remembered: cursors and caches are not asked to be right. */
  ghost predicate Steady(w: World, peer: string, k: Link, v: Shown) {
    && Healthy(w, k.us) && Healthy(w, k.them) && Known(peer, k) && FramesChecked(w, k.frames)
    && (k.session.Some? ==> SessionSteady(w, peer, k.session.value, k, v))
  }

  // ── Growth ───────────────────────────────────────────────────────────

  lemma UnnamedGrows(w: World, n: Session, reply: Option<Response>, us: State, them: State, us': State, them': State,
                     used: set<InstanceId>)
    requires Valid(n) && !n.phase.Starting? && Unnamed(w, n, reply, us, them, used) && Grows(us, us')
             && Grows(them, them')
    ensures Unnamed(w, n, reply, us', them', used)
  {
    hide InHand, InFlight, Grows, Valid;
    forall g | g !in used
      ensures InHand(w, n, us', them', g) && (reply.Some? ==> InFlight(w, n, reply.value, them', g))
    {
      InHandGrows(w, n, us, them, us', them', g);
      if reply.Some? {
        InFlightGrows(w, n, reply.value, them, them', g);
      }
    }
  }

  lemma ExpectsGrow(n: Session, us: State, them: State, us': State, them': State, inst: InstanceId, v: Shown)
    requires Valid(n) && !n.phase.Starting? && Expects(n, us, them, inst, v) && Grows(us, us') && Grows(them, them')
    ensures Expects(n, us', them', inst, v)
  {
    hide Valid, InLog, Grows;
    GrowsMeansMore(us, us');
    if Grows(v.listed, them) {
      GrowsIsTransitive(v.listed, them, them');
    }
  }

  lemma AnsweredGrows(n: Session, r: Response, us: State, them: State, us': State, them': State, inst: InstanceId,
                      v: Shown)
    requires Valid(n) && !n.phase.Starting? && Answered(n, r, us, them, inst, v) && Grows(us, us') && Grows(them, them')
    ensures Answered(n, r, us', them', inst, v)
  {
    hide Valid, InLog, Grows, HashMap, Carries, Fingerprint;
    GrowsMeansMore(us, us');
    if Grows(v.listed, them) {
      GrowsIsTransitive(v.listed, them, them');
    }
  }

  lemma GrowthIsSteady(w: World, peer: string, k: Link, us': State, them': State, v: Shown)
    requires Steady(w, peer, k, v) && Healthy(w, us') && Healthy(w, them') && Grows(k.us, us') && Grows(k.them, them')
    ensures Steady(w, peer, k.(us := us', them := them'), v)
  {
    hide Healthy, FramesChecked, Grows, Valid, Unnamed, Expects, Answered, KnownRows, KnownReply;
    if k.session.Some? {
      var n := k.session.value;
      UnnamedGrows(w, n, k.reply, k.us, k.them, us', them', k.used);
      ExpectsGrow(n, k.us, k.them, us', them', k.inst, v);
      if k.reply.Some? {
        AnsweredGrows(n, k.reply.value, k.us, k.them, us', them', k.inst, v);
      }
    }
  }

  // ── Feeding ──────────────────────────────────────────────────────────

  lemma {:induction false} FreshInstance(used: set<InstanceId>) returns (g: InstanceId)
    ensures forall x | x in used :: x < g
  {
    g := 0;
    if used != {} {
      var x :| x in used;
      var g' := FreshInstance(used - {x});
      g := Max(g', x + 1);
      assert forall y | y in used :: y == x || y in used - {x};
    }
  }

  /** Rows that name only used incarnations count nothing for another. */
  lemma UnnamedRowsTrail(cursors: Cursors, peer: string, us: State, them: State, used: set<InstanceId>, g: InstanceId)
    requires KnownRows(cursors, peer, used) && g !in used
    ensures RowsTrail(cursors, peer, us, them, g)
  {
    hide Covered, Arrivals;
    forall log
      ensures Trails(CursorOf(cursors, peer, log), log, us, them, g)
    {
      assert KnownRow(CursorOf(cursors, peer, log), used);
    }
  }

  lemma FeedStaysUnnamed(w: World, peer: string, l: Local, r: Response, them: State, used: set<InstanceId>)
    requires Healthy(w, l.db) && InProgress(l) && l.session.peer == peer
             && Unnamed(w, l.session, Some(r), l.db, them, used)
    requires KnownRows(l.cursors, peer, used) && KnownRow(l.session.cursor, used) && KnownReply(Some(r), used)
             && Feed(l, r).Some?
    ensures var l' := Feed(l, r).value;
            && Healthy(w, l'.db) && Valid(l'.session) && !l'.session.phase.Starting? && l'.session.peer == peer
            && Unnamed(w, l'.session, None, l'.db, them, used)
            && KnownRows(l'.cursors, peer, used) && KnownRow(l'.session.cursor, used)
  {
    hide Healthy, Valid, InHand, InFlight, RowsTrail, KnownRows, KnownRow, KnownReply, Feed, NextRequest;
    var g0 := FreshInstance(used);
    assert g0 !in used;
    forall g | g !in used
      ensures Kept(w, peer, Feed(l, r).value, them, g, used)
    {
      UnnamedRowsTrail(l.cursors, peer, l.db, them, used, g);
      FeedTrails(w, peer, l, r, them, g, used);
    }
    assert Kept(w, peer, Feed(l, r).value, them, g0, used);
  }

  lemma PrimaryPushOpensNone(n: Session, db: State)
    requires Open(n)
    ensures !Reconciles(BeginPrimaryPush(n, db))
  {
    PrimaryPushKeeps(n, db);
    hide BeginPrimaryPush;
  }

  lemma SettleOpensNone(l: Local, count: nat, fp: Print, instance: InstanceId)
    requires Open(l.session) && l.session.settleRounds <= 2
    ensures !Reconciles(SettleWith(l, count, fp, instance).session)
  {
    var n := l.session;
    var n2 := Restarted(n, count, instance);
    SettleShape(l, count, fp, instance);
    PrimaryPushOpensNone(n2, l.db);
    FinishLogShape(n2);
    FinishLogShape(n);
    FinishLogShape(n.(cursor := n.cursor.(settled := Some(fp))));
    hide SettleWith, BeginPrimaryPush, FinishLog, Fingerprint;
  }

  lemma FirstStatusOpensNone(l: Local, count: nat, fp: Print, instance: InstanceId)
    requires InProgress(l) && l.session.phase.FirstStatus?
    ensures !Reconciles(FeedFirstStatus(l, count, fp, instance).session)
  {
    OpenInProgress(l);
    FirstStatusFromContact(l, count, fp, instance);
    ContactedKeepsPlace(l, count, instance);
    hide FeedFirstStatus, Contacted, SettleWith, BeginPrimaryPush;
    var l1 := Contacted(l, count, instance);
    PrimaryPushKeeps(l1.session, l.db);
    PrimaryPushOpensNone(l1.session, l.db);
    SettleOpensNone(l1.(session := BeginPrimaryPush(l1.session, l.db)), count, fp, instance);
  }

  lemma PulledOpensNone(l: Local, events: seq<Event>)
    requires InProgress(l) && l.session.phase.Pulling?
    ensures !Reconciles(FeedPulled(l, events).session)
  {
    OpenInProgress(l);
    PrimaryPushOpensNone(l.session, l.db);
    if events != [] {
      PulledShape(l, events);
      PrimaryPushOpensNone(Pulled(l, events).session, Pulled(l, events).db);
    }
    hide BeginPrimaryPush, Pulled;
  }

  /** Only a hash list opens a reconciliation. */
  lemma FeedOpensNone(l: Local, r: Response)
    requires InProgress(l) && Feed(l, r).Some? && !l.session.phase.Reconciling?
    requires !Reconciles(l.session) || l.session.phase.Resettling?
    ensures !Reconciles(Feed(l, r).value.session)
  {
    hide FeedFirstStatus, FeedPulled, FeedAck, SettleWith, FinishLog, Valid;
    OpenInProgress(l);
    match l.session.phase
    case FirstStatus => FirstStatusOpensNone(l, r.count, r.fp, r.instance);
    case Pulling => PulledOpensNone(l, r.events);
    case Publishing => AckShape(l, r.stored, r.rejected);
    case Settling => SettleOpensNone(l, r.count, r.fp, r.instance);
    case Resettling =>
      FinishLogShape(l.session.(cursor := l.session.cursor.(settled := Some(r.fp))));
      FinishLogShape(l.session);
    case _ =>
  }

  /** What is listed and not ours is wanted. */
  lemma WantsKnow(us: State, listed: State, log: LogId, entries: seq<Entry>)
    requires Listing(entries, listed, log, us)
    ensures KnownBut(listed, log, us, SortIds(ById(), WantSet(us, log, HashMap(entries))))
  {
    hide HashMap, Ascending, InLog;
    var wanted := WantSet(us, log, HashMap(entries));
    SortIdsLists(ById(), wanted);
    hide SortIds;
    forall id | InLog(listed, log, id)
      ensures id in us.claims || id in SortIds(ById(), wanted)
    {
      if id !in us.claims {
        assert id in wanted;
      }
    }
  }

  /** With nothing left to fetch the listed claims are held. */
  lemma AfterFetchingExpects(n: Session, us: State, them: State, inst: InstanceId, v: Shown)
    requires Open(n) && n.settleRounds <= 2
    requires PlanOf(n).pull && OnCurrent(n, inst) ==> Grows(v.listed, them) && KnownBut(v.listed, PlanOf(n).log, us, [])
    ensures var n' := AfterFetching(n);
            Valid(n') && !n'.phase.Starting? && Expects(n', us, them, inst, v)
  {
    hide KnownBut, Grows;
  }

  lemma HashesExpect(l: Local, entries: seq<Entry>, them: State, inst: InstanceId, v: Shown)
    requires InProgress(l) && l.session.phase.Reconciling?
    requires OnCurrent(l.session, inst) ==>
             Grows(v.listed, them) && Listing(entries, v.listed, PlanOf(l.session).log, l.db)
    ensures var n' := Diffed(l.session, l.db, HashMap(entries));
            Valid(n') && !n'.phase.Starting? && Expects(n', l.db, them, inst, v)
  {
    var n := l.session;
    var plan := PlanOf(n);
    OpenInProgress(l);
    hide KnownBut, Listing, Grows, SortIds, WantSet, OfferSet, Artifacts, AfterFetching, HashMap;
    if OnCurrent(n, inst) {
      WantsKnow(l.db, v.listed, plan.log, entries);
    }
    var wants := if plan.pull then SortIds(ById(), WantSet(l.db, plan.log, HashMap(entries))) else [];
    var offers := if plan.push then Artifacts(l.db, SortIds(ById(), OfferSet(l.db, plan.log, HashMap(entries))))
      else [];
    var n1 := n.(wantIds := wants, wantSent := 0, extraBatch := offers);
    if wants == [] {
      AfterFetchingExpects(n1, l.db, them, inst, v);
    } else {
      assert wants[0..] == wants;
    }
  }

  /** A chunk was asked for and what the peer has of it was taken in. */
  lemma FetchKnows(us: State, us': State, listed: State, log: LogId, events: seq<Event>, wants: seq<ClaimHash>, k: nat)
    requires k <= |wants| && KnownBut(listed, log, us, wants) && us.claims.Keys <= us'.claims.Keys
    requires Serving(events, wants[..k], listed, log, us)
    requires forall i | 0 <= i < |events| && EventId(events[i]) in wants[..k] :: EventId(events[i]) in us'.claims
    ensures KnownBut(listed, log, us', wants[k..])
  {
    hide InLog;
    assert wants == wants[..k] + wants[k..];
  }

  lemma ClaimsExpect(w: World, l: Local, events: seq<Event>, them: State, inst: InstanceId, v: Shown)
    requires Healthy(w, l.db) && AllChecked(w, events) && InProgress(l) && l.session.phase.Fetching?
    requires Expects(l.session, l.db, them, inst, v)
             && Answered(l.session, Response.Events(events), l.db, them, inst, v)
    ensures var n' := FeedClaims(l, events).session;
            Valid(n') && !n'.phase.Starting? && Expects(n', FeedClaims(l, events).db, them, inst, v)
  {
    var n := l.session;
    var log := PlanOf(n).log;
    var end := Chunk(n.wantSent, |n.wantIds|);
    var wants := n.wantIds[n.wantSent..];
    var f := Asked(n.wantIds[n.wantSent..end]);
    OpenInProgress(l);
    ClaimsShape(l, events);
    hide Healthy, KnownBut, Serving, Grows, FeedClaims, TakeAll, AfterFetching, AllChecked, Arrivals;
    var l1 := TakeAll(l, f, events);
    TakeAllGrows(w, l, f, events);
    GrowsMeansMore(l.db, l1.db);
    assert WantedNow(n) == wants[..end - n.wantSent] && n.wantIds[end..] == wants[end - n.wantSent..];
    if PlanOf(n).pull && OnCurrent(n, inst) {
      FetchKnows(l.db, l1.db, v.listed, log, events, wants, end - n.wantSent);
    }
    if end == |n.wantIds| {
      assert n.wantIds[end..] == [];
      AfterFetchingExpects(l1.session.(wantSent := end), l1.db, them, inst, v);
    }
  }

  lemma AckExpects(l: Local, stored: nat, rejected: nat, them: State, inst: InstanceId, v: Shown)
    requires InProgress(l) && l.session.phase.Publishing? && l.session.afterPush.ToResettle?
             && Expects(l.session, l.db, them, inst, v)
    ensures var n' := FeedAck(l, stored, rejected).session;
            Valid(n') && !n'.phase.Starting? && Expects(n', l.db, them, inst, v)
  {
    OpenInProgress(l);
    AckShape(l, stored, rejected);
    hide FeedAck, KnownBut, Grows;
  }

  lemma FeedExpects(w: World, l: Local, r: Response, them: State, inst: InstanceId, v: Shown)
    requires Healthy(w, l.db) && InProgress(l) && Feed(l, r).Some?
    requires l.session.phase.Fetching? && r.Events? ==> AllChecked(w, r.events)
    requires Expects(l.session, l.db, them, inst, v) && Answered(l.session, r, l.db, them, inst, v)
    ensures var l' := Feed(l, r).value;
            Valid(l'.session) && !l'.session.phase.Starting? ==> Expects(l'.session, l'.db, them, inst, v)
  {
    var n := l.session;
    hide Healthy, KnownBut, Serving, Listing, Grows, FeedFirstStatus, FeedPulled, FeedAck, SettleWith, Diffed,
         FeedClaims, FeedResettle,
         Valid, AllChecked, Fingerprint;
    if n.phase.Reconciling? {
      HashesExpect(l, r.entries, them, inst, v);
    } else if n.phase.Fetching? {
      ClaimsExpect(w, l, r.events, them, inst, v);
    } else if n.phase.Publishing? && n.afterPush.ToResettle? {
      AckShape(l, r.stored, r.rejected);
      AckExpects(l, r.stored, r.rejected, them, inst, v);
    } else {
      FeedOpensNone(l, r);
    }
  }

  // ── The steps ────────────────────────────────────────────────────────

  lemma LandSteady(w: World, peer: string, k: Link, v: Shown)
    requires Steady(w, peer, k, v) && Asking(k) && k.reply.Some?
    ensures Steady(w, peer, Landed(k), v)
  {
    var l := LocalOf(k);
    var r := k.reply.value;
    assert KnownReply(Some(r), k.used) by { KnownSome(k.reply, k.used); }
    FetchedIsChecked(w, l.session, r, k.us, k.them, k.used);
    NoneKnown(k.used);
    hide Healthy, FramesChecked, Valid, Unnamed, Expects, Answered, KnownRows, KnownRow, KnownReply, Feed, AllChecked;
    if Feed(l, r).Some? {
      FeedStaysUnnamed(w, peer, l, r, k.them, k.used);
      FeedExpects(w, l, r, k.them, k.inst, v);
    }
  }

  lemma FetchedIsChecked(w: World, n: Session, r: Response, us: State, them: State, used: set<InstanceId>)
    requires Valid(n) && !n.phase.Starting? && Unnamed(w, n, Some(r), us, them, used)
    ensures n.phase.Fetching? && r.Events? ==> AllChecked(w, r.events)
  {
    hide InHand, AllChecked;
    var g := FreshInstance(used);
    assert g !in used;
  }

  /** What is in flight does not depend on the incarnation that answers. */
  lemma AnswerStaysUnnamed(w: World, n: Session, us: State, them: State, inst: InstanceId, now: int,
                           used: set<InstanceId>)
    requires Healthy(w, them) && Valid(n) && !n.phase.Starting? && !n.phase.Finished?
             && Unnamed(w, n, None, us, them, used) && inst in used
    ensures var r := NextRequest(n).value;
            var them' := Served(them, now, r);
            && Healthy(w, them') && Grows(them, them')
            && Unnamed(w, n, Some(Respond(them, inst, now, map[], r)), us, them', used)
            && KnownReply(Some(Respond(them, inst, now, map[], r)), used)
  {
    hide Healthy, InHand, Grows, AcceptAll, ServeSince, Arrivals, LogHashes, Fingerprint, LogLen, Artifacts, AllChecked,
         AllOfLog, AckOf;
    var r := NextRequest(n).value;
    var them' := Served(them, now, r);
    var g0 := FreshInstance(used);
    assert g0 !in used;
    AnswerSafe(w, n, us, them, g0, now, used + {g0});
    GrowsToItself(us);
    forall g | g !in used
      ensures InHand(w, n, us, them', g) && InFlight(w, n, Respond(them, inst, now, map[], r), them', g)
    {
      AnswerSafe(w, n, us, them, g, now, used + {g});
      InHandGrows(w, n, us, them, us, them', g);
    }
    if r.Publish? {
      AcksAreAcks(them, r.events, now);
    }
  }

  /** The honest answers to a reconciling session. */
  lemma AnswerIsShown(w: World, n: Session, us: State, them: State, inst: InstanceId, now: int, v: Shown)
    requires Healthy(w, them) && Valid(n) && !n.phase.Starting? && !n.phase.Finished? && Expects(n, us, them, inst, v)
    ensures var r := NextRequest(n).value;
            var v' := if n.phase.Reconciling? then v.(listed := them)
              else if n.phase.Resettling? then v.(closing := them) else v;
            Answered(n, Respond(them, inst, now, map[], r), us, Served(them, now, r), inst, v')
  {
    hide Healthy, LogHashes, Fingerprint, HashMap, Artifacts, ServeSince, LogLen, AckOf, AcceptAll, Grows, OurHashes;
    var log := PlanOf(n).log;
    match n.phase
    case Reconciling =>
      GrowsToItself(them);
      TheirHashes(them, log);
      ListedInLog(them, log);
    case Fetching =>
      if PlanOf(n).pull && OnCurrent(n, inst) {
        ClaimsAreServed(w, us, them, v.listed, log, WantedNow(n));
      }
    case Resettling =>
    case _ =>
  }

  lemma ListedInLog(s: State, log: LogId)
    ensures forall id :: InLog(s, log, id) ==> id in OurHashes(s, log)
  {
  }

  lemma ClaimsAreServed(w: World, us: State, them: State, listed: State, log: LogId, ids: seq<ClaimHash>)
    requires Healthy(w, them) && Grows(listed, them)
    ensures Serving(Wrap(Artifacts(them, ids)), ids, listed, log, us)
  {
    hide WellKept, Explained, Indexed, Dense, Arrivals, Artifacts;
    FoundAreGenuine(w, them, ids);
    var events := Wrap(Artifacts(them, ids));
    forall id | id in ids && InLog(listed, log, id)
      ensures Carries(events, id)
    {
      assert id in them.claims;
      var i :| 0 <= i < |Artifacts(them, ids)| && Artifacts(them, ids)[i].id == id;
      assert EventId(events[i]) == id;
    }
  }

  lemma AskSteady(w: World, peer: string, k: Link, now: int, v: Shown)
    requires Steady(w, peer, k, v) && Asking(k)
    ensures Steady(w, peer, Answering(k, now), Noted(w, v, k, Ask(now)))
  {
    var n := k.session.value;
    var k' := Answering(k, now);
    var v' := Noted(w, v, k, Ask(now));
    AskingIsAhead(k);
    assert Unnamed(w, n, None, k.us, k.them, k.used);
    hide Healthy, FramesChecked, Valid, Unnamed, Expects, Answered, KnownRows, KnownRow, KnownReply, NextRequest,
         Respond, Served, Grows;
    AnswerStaysUnnamed(w, n, k.us, k.them, k.inst, now, k.used);
    AnswerIsShown(w, n, k.us, k.them, k.inst, now, v);
    GrowsToItself(k.us);
    ExpectsGrow(n, k.us, k.them, k.us, k'.them, k.inst, v);
    ExpectsNoted(w, k, k'.them, now, v);
  }

  /** Noting an answer concerns the session only once the answer is consumed. */
  lemma ExpectsNoted(w: World, k: Link, them: State, now: int, v: Shown)
    requires Asking(k) && Expects(k.session.value, k.us, them, k.inst, v)
    ensures Expects(k.session.value, k.us, them, k.inst, Noted(w, v, k, Ask(now)))
  {
    hide Grows, KnownBut;
  }

  lemma RebirthSteady(w: World, peer: string, k: Link, store: State, inst: InstanceId, v: Shown)
    requires Steady(w, peer, k, v) && Healthy(w, store) && inst !in k.used
    ensures Steady(w, peer, k.(them := store, inst := inst, used := k.used + {inst}), v)
  {
    var used := k.used + {inst};
    KnownStays(peer, k, store, inst);
    hide Healthy, FramesChecked, Valid, Grows, KnownBut, Serving, Listing, Fingerprint, KnownRows, KnownReply, InHand,
         InFlight;
    if k.session.Some? {
      var n := k.session.value;
      forall g | g !in used
        ensures InHand(w, n, k.us, store, g) && (k.reply.Some? ==> InFlight(w, n, k.reply.value, store, g))
      {
        assert g !in k.used;
        OtherPeerUnnamed(w, n, k.reply, k.us, k.them, store, g);
      }
    }
  }

  lemma KnownStays(peer: string, k: Link, store: State, inst: InstanceId)
    requires Known(peer, k)
    ensures Known(peer, k.(them := store, inst := inst, used := k.used + {inst}))
  {
    forall log
      ensures KnownRow(CursorOf(k.cursors, peer, log), k.used + {inst})
    {
      assert KnownRow(CursorOf(k.cursors, peer, log), k.used);
    }
  }

  lemma OtherPeerUnnamed(w: World, n: Session, reply: Option<Response>, us: State, them: State, them': State,
                         g: InstanceId)
    requires Valid(n) && !n.phase.Starting? && InHand(w, n, us, them, g) && n.cursor.instance != Some(g)
    requires reply.Some? ==> InFlight(w, n, reply.value, them, g)
    ensures InHand(w, n, us, them', g) && (reply.Some? ==> InFlight(w, n, reply.value, them', g))
  {
    hide Valid, Covered, Arrivals, OurRows, Aligned, AllChecked, AllOfLog, Trailing.Continues, AllHeld;
  }

  lemma BeginSteady(w: World, peer: string, k: Link, now: int, pull: seq<LogId>, push: seq<LogId>, v: Shown)
    requires Steady(w, peer, k, v)
    ensures Steady(w, peer, k.(session := Some(Opened(NewSession(peer, now, pull, push))), reply := None), v)
  {
    hide Healthy, FramesChecked, KnownRows, PullPlans, PushPlans;
  }

  lemma HearSteady(w: World, peer: string, k: Link, f: Notify, now: int, v: Shown)
    requires Steady(w, peer, k, v) && f in k.frames
    ensures var r := ApplyNotify(k.us, k.cursors, peer, now, f);
            Steady(w, peer, k.(us := r.db, cursors := r.cursors), v)
  {
    var c := OnIncarnation(CursorOf(k.cursors, peer, f.log), f.instance);
    var start := Intake(k.us, c.settled, NO_NOTICE);
    var r := ApplyNotify(k.us, k.cursors, peer, now, f);
    assert f.instance in k.used && KnownRow(CursorOf(r.cursors, peer, f.log), k.used);
    SavingKeepsKnown(k.cursors, peer, f.log, CursorOf(r.cursors, peer, f.log), k.used);
    hide Healthy, AllChecked, Grows, TakeAllPushed, Fingerprint, SessionSteady, KnownRows, KnownReply;
    assert AllChecked(w, f.events);
    TakeAllPushedGrows(w, start, f.log, f.events, now);
    GrowsToItself(k.them);
    GrowthIsSteady(w, peer, k, r.db, k.them, v);
    RowsDoNotMatter(w, peer, k.(us := r.db), r.cursors, v);
  }

  lemma RowsDoNotMatter(w: World, peer: string, k: Link, cursors: Cursors, v: Shown)
    requires Steady(w, peer, k, v) && KnownRows(cursors, peer, k.used)
    ensures Steady(w, peer, k.(cursors := cursors), v)
  {
    hide Healthy, FramesChecked, Valid, Unnamed, Expects, Answered, KnownRows, KnownReply;
  }

  lemma FanoutSteady(w: World, peer: string, k: Link, log: LogId, events: seq<Event>, v: Shown)
    requires Steady(w, peer, k, v) && AllChecked(w, events)
    ensures Steady(w, peer, k.(frames := k.frames + {NotifyFor(k.them, k.inst, log, events)}), v)
  {
    hide Healthy, AllChecked, NotifyFor, Valid, Unnamed, Expects, Answered, KnownRows, KnownReply;
    FanoutInstance(k.them, k.inst, log, events);
    NotifyCarries(k.them, k.inst, log, events);
  }

  lemma IngestSteady(w: World, peer: string, k: Link, a: Artifact, now: int, v: Shown)
    requires Steady(w, peer, k, v) && Genuine(w, a)
    ensures Steady(w, peer, k.(us := Ingested(k.us, a, now)), v)
            && Steady(w, peer, k.(them := Ingested(k.them, a, now)), v)
  {
    assert Healthy(w, k.us) && Healthy(w, k.them);
    hide Steady, Ingested, Genuine, Grows, Healthy;
    IngestGrows(w, k.us, a, now);
    IngestGrows(w, k.them, a, now);
    GrowsToItself(k.us);
    GrowsToItself(k.them);
    GrowthIsSteady(w, peer, k, Ingested(k.us, a, now), k.them, v);
    GrowthIsSteady(w, peer, k, k.us, Ingested(k.them, a, now), v);
  }

  lemma AbandonSteady(w: World, peer: string, k: Link, v: Shown)
    requires Steady(w, peer, k, v)
    ensures Steady(w, peer, k.(session := None, reply := None), v)
  {
    hide Healthy, FramesChecked, KnownRows;
  }

  lemma StepSteady(w: World, peer: string, k: Link, step: Step, v: Shown)
    requires Steady(w, peer, k, v) && Enabled(w, k, step)
    ensures Steady(w, peer, Next(w, peer, k, step), Noted(w, v, k, step))
  {
    hide Steady, Ingested, Landed, Answering, Genuine, ApplyNotify, NotifyFor, Healthy, AllChecked;
    match step
    case Begin(now, pull, push) => BeginSteady(w, peer, k, now, pull, push, v);
    case Abandon => AbandonSteady(w, peer, k, v);
    case Ask(now) => AskSteady(w, peer, k, now, v);
    case Land => LandSteady(w, peer, k, v);
    case Ours(a, now) => IngestSteady(w, peer, k, a, now, v);
    case Theirs(a, now) => IngestSteady(w, peer, k, a, now, v);
    case Rebirth(store, inst) => RebirthSteady(w, peer, k, store, inst, v);
    case Fanout(log, events) => FanoutSteady(w, peer, k, log, events, v);
    case Hear(f, now) => HearSteady(w, peer, k, f, now, v);
  }

  /** Every run is steady: no interleaving, frame or earlier mistake breaks it. */
  lemma {:induction false} RunIsSteady(w: World, peer: string, k: Link, steps: seq<Step>, v: Shown)
    requires Steady(w, peer, k, v) && CanRun(w, peer, k, steps)
    ensures Steady(w, peer, After(w, peer, k, steps), ShownAfter(w, peer, k, steps, v))
    decreases |steps|
  {
    hide Steady, Enabled, Next, Noted;
    if steps != [] {
      StepSteady(w, peer, k, steps[0], v);
      RunIsSteady(w, peer, Next(w, peer, k, steps[0]), steps[1..], Noted(w, v, k, steps[0]));
    }
  }

  lemma FreshIsSteady(w: World, peer: string, k: Link)
    requires Fresh(w, k)
    ensures Steady(w, peer, k, UNSEEN)
  {
    hide Healthy;
  }

  // ── The exact condition ──────────────────────────────────────────────

  /** A claim the closing status counts that was on no hash list we fetched from. */
  ghost predicate Unshown(plan: Plan, v: Shown, id: ClaimHash) {
    InLog(v.closing, plan.log, id) && !(plan.pull && InLog(v.listed, plan.log, id))
  }

  ghost predicate ArrivalsHeld(plan: Plan, v: Shown, us: State) {
    forall id | Unshown(plan, v, id) :: id in us.claims
  }

  lemma AnsweredPrint(w: World, peer: string, k: Link, v: Shown)
    requires Steady(w, peer, k, v) && Remembering(k)
    ensures var n := k.session.value;
            && Open(n) && n.peer == peer && k.reply.value.fp == Fingerprint(v.closing, PlanOf(n).log)
            && (PlanOf(n).pull ==> KnownBut(v.listed, PlanOf(n).log, k.us, []))
  {
    hide Healthy, FramesChecked, Known, Unnamed, Expects, KnownBut, Fingerprint;
    OpenInProgress(LocalOf(k));
  }

  /** What is about to be remembered is understood exactly when every late arrival is held. */
  lemma RememberedMeans(w: World, peer: string, k: Link, v: Shown)
    requires Steady(w, peer, k, v) && Remembering(k)
    ensures Open(k.session.value)
    ensures Understood(k.reply.value.fp, k.us) <==> ArrivalsHeld(PlanOf(k.session.value), v, k.us)
  {
    AnsweredPrint(w, peer, k, v);
    hide Steady, Remembering, Fingerprint, Understood, InLog;
    var plan := PlanOf(k.session.value);
    UnderstoodMeans(v.closing, plan.log, k.us);
    if ArrivalsHeld(plan, v, k.us) {
      forall id | InLog(v.closing, plan.log, id)
        ensures id in k.us.claims
      {
        assert Unshown(plan, v, id) || id in k.us.claims;
      }
    }
  }

  lemma RememberingLands(k: Link)
    requires Remembering(k)
    ensures var n := k.session.value;
            var k' := Landed(k);
            && Open(n) && k'.us == k.us
            && k'.cursors == k.cursors[(n.peer, PlanOf(n).log) := n.cursor.(settled := Some(k.reply.value.fp))]
  {
    hide FinishLog;
    OpenInProgress(LocalOf(k));
  }

  /**
   Over every run from two stores that never met: when the closing status of a clean
   reconciliation lands, its fingerprint is remembered, and it mentions only claims we
   hold exactly when we hold what the peer gained since it listed its hashes. A log
   that was not pulled has no listing to count on: there we must hold everything.
   */
  lemma OnlyArrivalsMatter(w: World, peer: string, k: Link, steps: seq<Step>)
    requires Fresh(w, k) && CanRun(w, peer, k, steps) && Remembering(After(w, peer, k, steps))
    ensures var k1 := After(w, peer, k, steps);
            var v := ShownAfter(w, peer, k, steps, UNSEEN);
            var k2 := Landed(k1);
            Open(k1.session.value) &&
            var plan := PlanOf(k1.session.value);
            var c := CursorOf(k2.cursors, peer, plan.log);
            && c.settled == Some(Fingerprint(v.closing, plan.log)) && k2.us == k1.us
            && (plan.pull ==>
                  (Understood(c.settled.value, k2.us) <==>
                   forall id | InLog(v.closing, plan.log, id) && !InLog(v.listed, plan.log, id) :: id in k2.us.claims))
            && (!plan.pull ==>
                  (Understood(c.settled.value, k2.us) <==> AllKnown(v.closing, plan.log, k2.us)))
  {
    assert After(w, peer, k, steps).session.Some?;
    hide Steady, Fresh, CanRun, Remembering, Fingerprint, Understood, InLog, Landed;
    FreshIsSteady(w, peer, k);
    RunIsSteady(w, peer, k, steps, UNSEEN);
    var k1 := After(w, peer, k, steps);
    var v := ShownAfter(w, peer, k, steps, UNSEEN);
    AnsweredPrint(w, peer, k1, v);
    RememberedMeans(w, peer, k1, v);
    RememberingLands(k1);
    UnderstoodMeans(v.closing, PlanOf(k1.session.value).log, k1.us);
  }

  // ── Over a whole run ─────────────────────────────────────────────────

  /** Nothing is remembered before its late arrivals are held. */
  ghost predicate Careful(k: Link, v: Shown, step: Step) {
    step.Land? && Remembering(k) && Open(k.session.value) ==> ArrivalsHeld(PlanOf(k.session.value), v, k.us)
  }

  ghost predicate CarefulRun(w: World, peer: string, k: Link, steps: seq<Step>, v: Shown)
    requires CanRun(w, peer, k, steps)
    decreases |steps|
  {
    steps == [] ||
    (Careful(k, v, steps[0]) && CarefulRun(w, peer, Next(w, peer, k, steps[0]), steps[1..], Noted(w, v, k, steps[0])))
  }

  /** Every remembered fingerprint is understood, and every count trails, at every boundary. */
  ghost predicate SoundThroughout(w: World, peer: string, k: Link, steps: seq<Step>)
    requires CanRun(w, peer, k, steps)
    decreases |steps|
  {
    && RowsTrusted(k.cursors, peer, k.us) && RowsTrail(k.cursors, peer, k.us, k.them, k.inst)
    && (steps == [] || SoundThroughout(w, peer, Next(w, peer, k, steps[0]), steps[1..]))
  }

  lemma CarefulIsHeedful(w: World, peer: string, k: Link, v: Shown, step: Step)
    requires Steady(w, peer, k, v)
    ensures Careful(k, v, step) <==> Heedful(k, step)
  {
    hide Steady, Remembering, Understood, ArrivalsHeld;
    if step.Land? && Remembering(k) {
      RememberedMeans(w, peer, k, v);
    }
  }

  lemma AssuredIsSound(w: World, peer: string, k: Link)
    requires Assured(w, peer, k)
    ensures RowsTrusted(k.cursors, peer, k.us) && RowsTrail(k.cursors, peer, k.us, k.them, k.inst)
  {
  }

  /** A careless landing leaves a row that mentions a claim we do not hold. */
  lemma HeedlessIsUnsound(w: World, peer: string, k: Link, v: Shown, step: Step)
    requires Steady(w, peer, k, v) && Enabled(w, k, step) && !Heedful(k, step)
    ensures var k' := Next(w, peer, k, step); !RowsTrusted(k'.cursors, peer, k'.us)
  {
    AnsweredPrint(w, peer, k, v);
    RememberingLands(k);
    hide Steady, Remembering, Understood, Landed;
    var k' := Landed(k);
    assert !Trusted(CursorOf(k'.cursors, peer, PlanOf(k.session.value).log), k'.us);
  }

  lemma {:induction false} SoundMeansCareful(w: World, peer: string, k: Link, steps: seq<Step>, v: Shown)
    requires Assured(w, peer, k) && Steady(w, peer, k, v) && CanRun(w, peer, k, steps)
    ensures SoundThroughout(w, peer, k, steps) <==> CarefulRun(w, peer, k, steps, v)
    decreases |steps|
  {
    hide Assured, Steady, Enabled, Next, Noted, Careful, Heedful, RowsTrusted, RowsTrail;
    AssuredIsSound(w, peer, k);
    if steps != [] {
      CarefulIsHeedful(w, peer, k, v, steps[0]);
      if Heedful(k, steps[0]) {
        StepSure(w, peer, k, steps[0]);
        StepSteady(w, peer, k, steps[0], v);
        SoundMeansCareful(w, peer, Next(w, peer, k, steps[0]), steps[1..], Noted(w, v, k, steps[0]));
      } else {
        HeedlessIsUnsound(w, peer, k, v, steps[0]);
      }
    }
  }

  /**
   The promise over whole runs, exactly: from two stores that never met, under any
   interleaving, every remembered fingerprint mentions only claims held and every
   count trails, at every boundary, if and only if nothing is remembered before what
   the peer gained since its hash list is held.
   */
  lemma CacheIsSoundExactly(w: World, peer: string, k: Link, steps: seq<Step>)
    requires Fresh(w, k) && CanRun(w, peer, k, steps)
    ensures SoundThroughout(w, peer, k, steps) <==> CarefulRun(w, peer, k, steps, UNSEEN)
  {
    hide Fresh, Assured, Steady, SoundThroughout, CarefulRun;
    FreshIsAssured(w, peer, k);
    FreshIsSteady(w, peer, k);
    SoundMeansCareful(w, peer, k, steps, UNSEEN);
  }

  lemma {:induction false} CarefulStaysAssured(w: World, peer: string, k: Link, steps: seq<Step>, v: Shown)
    requires Assured(w, peer, k) && Steady(w, peer, k, v) && CanRun(w, peer, k, steps)
             && CarefulRun(w, peer, k, steps, v)
    ensures Assured(w, peer, After(w, peer, k, steps))
    decreases |steps|
  {
    hide Assured, Steady, Enabled, Next, Noted, Careful, Heedful;
    if steps != [] {
      CarefulIsHeedful(w, peer, k, v, steps[0]);
      StepSure(w, peer, k, steps[0]);
      StepSteady(w, peer, k, steps[0], v);
      CarefulStaysAssured(w, peer, Next(w, peer, k, steps[0]), steps[1..], Noted(w, v, k, steps[0]));
    }
  }

  /** After every careful run, frames included: what is cached is held, and the counts trail. */
  lemma SavedSettledIsHeld(w: World, peer: string, k: Link, steps: seq<Step>, log: LogId)
    requires Fresh(w, k) && CanRun(w, peer, k, steps) && CarefulRun(w, peer, k, steps, UNSEEN)
    ensures var k' := After(w, peer, k, steps);
            var c := CursorOf(k'.cursors, peer, log);
            && (c.settled.Some? ==> Understood(c.settled.value, k'.us))
            && (c.instance == Some(k'.inst) ==>
                  Covered(Arrivals(k'.them, log), c.pull, k'.us) && Covered(Arrivals(k'.us, log), c.push, k'.them))
  {
    hide Covered, Arrivals, Fresh, Assured, Steady, CanRun, CarefulRun, Understood;
    FreshIsAssured(w, peer, k);
    FreshIsSteady(w, peer, k);
    CarefulStaysAssured(w, peer, k, steps, UNSEEN);
    AssuredRows(w, peer, After(w, peer, k, steps), log);
  }
}
