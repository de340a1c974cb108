/**
 One sync session as a state machine: which request is outstanding, and what
 consuming its answer does to the session, the local store and the cursor rows.
 */
module Sessions {
  import opened Bytes
  import opened Rows
  import opened Ingest
  import opened Queries
  import opened Sorted
  import opened Protocol

  datatype SyncReport = SyncReport(
    pulled: nat, healed: nat, pushed: nat, reconciled: nat, cursorResets: nat,
    rejectedEvents: nat, offPlan: nat, pushRejected: nat)

  const NO_PROGRESS := SyncReport(0, 0, 0, 0, 0, 0, 0, 0)

  datatype Plan = Plan(log: LogId, pull: bool, push: bool)

  /** Where the push pipeline returns to when it drains. */
  datatype AfterPush = ToSettle | ToResettle

  datatype Phase =
    | Starting | FirstStatus | Pulling | Publishing | Settling | Reconciling | Fetching | Resettling | Finished

  datatype Session = Session(
    peer: string, now: int, plans: seq<Plan>, idx: nat, phase: Phase, report: SyncReport,
    cursor: Cursor, peerCount: nat, settleRounds: nat, clean: bool,
    pushBatch: seq<Artifact>, pushSent: nat, cursorPrefix: bool, afterPush: AfterPush,
    wantIds: seq<ClaimHash>, wantSent: nat, extraBatch: seq<Artifact>)

  /** A session with what it is handed on every call. */
  datatype Local = Local(session: Session, db: State, cursors: Cursors)

  // ── Plans ────────────────────────────────────────────────────────────

  predicate PlansLog(plans: seq<Plan>, log: LogId) {
    exists i :: 0 <= i < |plans| && plans[i].log == log
  }

  function PullPlans(plans: seq<Plan>, pull: seq<LogId>): seq<Plan>
    decreases |pull|
  {
    if pull == [] then plans
    else PullPlans(if PlansLog(plans, pull[0]) then plans else plans + [Plan(pull[0], true, false)], pull[1..])
  }

  /** The first plan for a log becomes a pushing one. */
  function MarkPush(plans: seq<Plan>, log: LogId): seq<Plan> {
    if plans == [] then [Plan(log, false, true)]
    else if plans[0].log == log then [plans[0].(push := true)] + plans[1..]
    else [plans[0]] + MarkPush(plans[1..], log)
  }

  function PushPlans(plans: seq<Plan>, push: seq<LogId>): seq<Plan>
    decreases |push|
  {
    if push == [] then plans else PushPlans(MarkPush(plans, push[0]), push[1..])
  }

  function NewSession(peer: string, now: int, pull: seq<LogId>, push: seq<LogId>): Session {
    Session(peer, now, PushPlans(PullPlans([], pull), push), 0, Starting, NO_PROGRESS,
            NO_CURSOR, 0, 0, true, [], 0, false, ToSettle, [], 0, [])
  }

  // ── Moving between logs and phases ───────────────────────────────────

  /** Reset the scratch and open the log at `idx`, or finish. */
  function EnterLog(s: Session): Session {
    if s.idx >= |s.plans| then s.(phase := Finished)
    else s.(cursor := NO_CURSOR, peerCount := 0, settleRounds := 0, clean := true, pushBatch := [], pushSent := 0,
            cursorPrefix := false, wantIds := [], wantSent := 0, extraBatch := [], phase := FirstStatus)
  }

  function FinishLog(s: Session): Session { EnterLog(s.(idx := s.idx + 1)) }

  function AfterPushing(s: Session): Session {
    s.(phase := if s.afterPush.ToSettle? then Settling else Resettling)
  }

  function BeginPush(s: Session, batch: seq<Artifact>, prefix: bool, after: AfterPush): Session {
    var s' := s.(pushBatch := batch, pushSent := 0, cursorPrefix := prefix, afterPush := after);
    if batch != [] then s'.(phase := Publishing) else AfterPushing(s')
  }

  predicate Open(s: Session) { s.idx < |s.plans| }

  function PlanOf(s: Session): Plan
    requires Open(s)
  {
    s.plans[s.idx]
  }

  ghost function BeginPrimaryPush(s: Session, db: State): Session
    requires Open(s)
  {
    BeginPush(s, if PlanOf(s).push then ServeSince(db, PlanOf(s).log, s.cursor.push) else [], true, ToSettle)
  }

  function Saved(l: Local): Local
    requires Open(l.session)
  {
    l.(cursors := l.cursors[(l.session.peer, PlanOf(l.session).log) := l.session.cursor])
  }

  /** A session whose peer turned out reborn at settle time, before it goes on. */
  function Restarted(n: Session, count: nat, instance: InstanceId): Session {
    n.(report := n.report.(cursorResets := n.report.cursorResets + 1), cursor := FreshCursor(instance),
       peerCount := count, settleRounds := n.settleRounds + 1)
  }

  /** The fingerprints match: remember it and finish the log. */
  function Settled(l: Local, fp: Print): Local
    requires Open(l.session)
  {
    var l1 := Saved(l.(session := l.session.(cursor := l.session.cursor.(settled := Some(fp)))));
    l1.(session := FinishLog(l1.session))
  }

  /** The settle decision, from whichever status answer is freshest. */
  ghost function SettleWith(l: Local, count: nat, fp: Print, instance: InstanceId): Local
    requires Open(l.session)
  {
    var s := l.session;
    if s.cursor.instance != Some(instance) then
      var s2 := Restarted(s, count, instance);
      Saved(l.(session := s2)).(session :=
        if s2.settleRounds > 2 then FinishLog(s2)
        else if PlanOf(s2).pull && count > 0 then s2.(phase := Pulling)
        else BeginPrimaryPush(s2, l.db))
    else if PlanOf(s).pull && count > s.cursor.pull && s.settleRounds < 2 then
      l.(session := s.(settleRounds := s.settleRounds + 1, peerCount := count, phase := Pulling))
    else if fp == Fingerprint(l.db, PlanOf(s).log) then Settled(l, fp)
    else if s.cursor.settled == Some(fp) then
      l.(session := FinishLog(s))
    else
      l.(session := s.(report := s.report.(reconciled := s.report.reconciled + 1), phase := Reconciling))
  }

  // ── Taking events in ─────────────────────────────────────────────────

  datatype Filter = OfLog(log: LogId) | OfIds(ids: set<ClaimHash>)

  /** Only what a chunk of ids asked for. */
  function Asked(ids: seq<ClaimHash>): Filter { OfIds(set id | id in ids) }

  predicate Admits(f: Filter, e: Event) {
    match f
    case OfLog(log) => HeaderLog(e) == Some(log)
    case OfIds(ids) => EventId(e) in ids
  }

  /** One peer-served event: dropped if off plan, counted if it fails its check. */
  function TakeIn(l: Local, f: Filter, e: Event): Local {
    var s := l.session;
    if !Admits(f, e) then
      l.(session := s.(report := s.report.(offPlan := s.report.offPlan + 1), clean := false))
    else if !e.Checked? then
      l.(session := s.(report := s.report.(rejectedEvents := s.report.rejectedEvents + 1), clean := false))
    else
      var r := ReportOf(l.db, e.art);
      l.(db := Ingested(l.db, e.art, s.now),
         session := s.(report := s.report.(
           pulled := s.report.pulled + (if r.newlyStored.Some? then 1 else 0),
           healed := s.report.healed + r.bodiesAttached)))
  }

  function TakeAll(l: Local, f: Filter, events: seq<Event>): Local
    decreases |events|
  {
    if events == [] then l else TakeAll(TakeIn(l, f, events[0]), f, events[1..])
  }

  // ── Reconciliation ───────────────────────────────────────────────────

  /** The hash list as a map; a repeated id keeps its last entry. */
  function HashMap(entries: seq<Entry>): map<ClaimHash, bool> {
    if entries == [] then map[]
    else var last := entries[|entries| - 1]; HashMap(entries[..|entries| - 1])[last.id := last.hasBody]
  }

  function OurHashes(db: State, log: LogId): map<ClaimHash, bool> {
    map id | id in LogIds(db, log) :: db.claims[id].art.body.Some?
  }

  predicate Wants(db: State, ours: map<ClaimHash, bool>, theirs: map<ClaimHash, bool>, id: ClaimHash)
    requires id in theirs
  {
    id !in ours || (!ours[id] && theirs[id] && id !in db.redactions)
  }

  predicate Offers(ours: map<ClaimHash, bool>, theirs: map<ClaimHash, bool>, id: ClaimHash)
    requires id in ours
  {
    id !in theirs || (!theirs[id] && ours[id])
  }

  function WantSet(db: State, log: LogId, theirs: map<ClaimHash, bool>): set<ClaimHash> {
    set id | id in theirs && Wants(db, OurHashes(db, log), theirs, id)
  }

  function OfferSet(db: State, log: LogId, theirs: map<ClaimHash, bool>): set<ClaimHash> {
    set id | id in OurHashes(db, log) && Offers(OurHashes(db, log), theirs, id)
  }

  ghost function Diffed(s: Session, db: State, theirs: map<ClaimHash, bool>): Session
    requires Open(s)
  {
    var plan := PlanOf(s);
    var wants := if plan.pull then SortIds(ById(), WantSet(db, plan.log, theirs)) else [];
    var offers := if plan.push then Artifacts(db, SortIds(ById(), OfferSet(db, plan.log, theirs))) else [];
    var s' := s.(wantIds := wants, wantSent := 0, extraBatch := offers);
    if wants != [] then s'.(phase := Fetching)
    else AfterFetching(s')
  }

  /** Publish what reconciliation offers, or go and record where we landed. */
  function AfterFetching(s: Session): Session {
    if s.extraBatch != [] then BeginPush(s.(extraBatch := []), s.extraBatch, false, ToResettle)
    else s.(phase := Resettling)
  }

  // ── The driver's two calls ───────────────────────────────────────────

  function Chunk(sent: nat, total: nat): nat
    requires sent <= total
  {
    Min(sent + BATCH, total)
  }

  /** Opening the session is deferred to the first call that has a store. */
  function Opened(s: Session): Session {
    if s.phase.Starting? then EnterLog(s) else s
  }

  /** The invariant every step keeps. */
  predicate Valid(s: Session) {
    && (s.phase.Finished? || s.phase.Starting? || Open(s))
    && (s.phase.Starting? ==> s.idx == 0)
    && s.settleRounds <= 3
    && (!s.phase.Finished? ==> s.settleRounds <= 2)
    && (s.phase.Pulling? ==> s.cursor.pull < s.peerCount)
    && (s.phase.Publishing? ==> s.pushSent < |s.pushBatch|)
    && (s.phase.Fetching? ==> s.wantSent < |s.wantIds|)
  }

  function NextRequest(s: Session): Option<Request>
    requires Valid(s) && !s.phase.Starting?
  {
    match s.phase
    case Finished => None
    case FirstStatus => Some(AskStatus(PlanOf(s).log))
    case Settling => Some(AskStatus(PlanOf(s).log))
    case Resettling => Some(AskStatus(PlanOf(s).log))
    case Pulling => Some(AskSince(PlanOf(s).log, s.cursor.pull, BATCH))
    case Publishing => Some(Publish(Wrap(s.pushBatch[s.pushSent..Chunk(s.pushSent, |s.pushBatch|)])))
    case Reconciling => Some(AskHashes(PlanOf(s).log))
    case Fetching => Some(AskClaims(s.wantIds[s.wantSent..Chunk(s.wantSent, |s.wantIds|)]))
  }

  /** Whether an answer has the shape the outstanding request calls for. */
  predicate Expected(s: Session, r: Response) {
    match s.phase
    case FirstStatus => r.Status?
    case Settling => r.Status?
    case Resettling => r.Status?
    case Pulling => r.Events?
    case Publishing => r.Ack?
    case Reconciling => r.Hashes?
    case Fetching => r.Events?
    case _ => false
  }

  /** First contact, up to the choice between pulling and pushing. */
  function Contacted(l: Local, count: nat, inst: InstanceId): Local
    requires Open(l.session)
  {
    var s := l.session;
    var cursor := CursorOf(l.cursors, s.peer, PlanOf(s).log);
    var l1 :=
      if cursor.instance != Some(inst) then
        Saved(l.(session := s.(cursor := FreshCursor(inst),
          report := s.report.(cursorResets := s.report.cursorResets + if cursor.instance.Some? then 1 else 0))))
      else l.(session := s.(cursor := cursor));
    l1.(session := l1.session.(peerCount := count))
  }

  ghost function FeedFirstStatus(l: Local, count: nat, fp: Print, instance: InstanceId): Local
    requires Open(l.session)
  {
    var l1 := Contacted(l, count, instance);
    var s1 := l1.session;
    if PlanOf(s1).pull && s1.cursor.pull < count then l1.(session := s1.(phase := Pulling))
    else
      var s2 := BeginPrimaryPush(s1, l.db);
      var l2 := l1.(session := s2);
      if s2.phase.Settling? then SettleWith(l2, count, fp, instance) else l2
  }

  /** What a non-empty batch makes of the session, before the choice to go on pulling. */
  function Pulled(l: Local, events: seq<Event>): (l': Local)
    requires Open(l.session)
    ensures l'.session.plans == l.session.plans && l'.session.idx == l.session.idx
  {
    var l1 := TakeAll(l, OfLog(PlanOf(l.session).log), events);
    TakeAllKeepsPlace(l, OfLog(PlanOf(l.session).log), events);
    var s1 := l1.session;
    Saved(l1.(session := s1.(cursor := s1.cursor.(pull := s1.cursor.pull + |events|))))
  }

  ghost function FeedPulled(l: Local, events: seq<Event>): Local
    requires Open(l.session)
  {
    if events == [] then l.(session := BeginPrimaryPush(l.session, l.db))
    else
      var l2 := Pulled(l, events);
      if l2.session.cursor.pull >= l2.session.peerCount
      then l2.(session := BeginPrimaryPush(l2.session, l2.db)) else l2
  }

  function FeedAck(l: Local, stored: nat, rejected: nat): Local
    requires Open(l.session) && l.session.pushSent <= |l.session.pushBatch|
  {
    var s := l.session;
    var s1 := s.(
      report := s.report.(pushed := s.report.pushed + stored, pushRejected := s.report.pushRejected + rejected),
      clean := s.clean && rejected == 0,
      pushSent := Chunk(s.pushSent, |s.pushBatch|));
    var l1 :=
      if s1.cursorPrefix
      then Saved(l.(session := s1.(cursor := s1.cursor.(push := s1.cursor.push + s1.pushSent - s.pushSent))))
      else l.(session := s1);
    if s1.pushSent >= |s1.pushBatch| then l1.(session := AfterPushing(l1.session)) else l1
  }

  function FeedClaims(l: Local, events: seq<Event>): Local
    requires l.session.wantSent <= |l.session.wantIds|
  {
    var s := l.session;
    var end := Chunk(s.wantSent, |s.wantIds|);
    var l1 := TakeAll(l, Asked(s.wantIds[s.wantSent..end]), events);
    var s1 := l1.session.(wantSent := end);
    l1.(session := if end < |s1.wantIds| then s1 else AfterFetching(s1))
  }

  function FeedResettle(l: Local, fp: Print, instance: InstanceId): Local
    requires Open(l.session)
  {
    var s := l.session;
    var l1 :=
      if s.clean && s.cursor.instance == Some(instance)
      then Saved(l.(session := s.(cursor := s.cursor.(settled := Some(fp)))))
      else l;
    l1.(session := FinishLog(l1.session))
  }

  /** Consume the answer to the outstanding request; None for a wrong answer. */
  ghost function Feed(l: Local, r: Response): Option<Local>
    requires Valid(l.session)
  {
    if !Expected(l.session, r) then None
    else
      match l.session.phase
      case FirstStatus => Some(FeedFirstStatus(l, r.count, r.fp, r.instance))
      case Pulling => Some(FeedPulled(l, r.events))
      case Publishing => Some(FeedAck(l, r.stored, r.rejected))
      case Settling => Some(SettleWith(l, r.count, r.fp, r.instance))
      case Reconciling => Some(l.(session := Diffed(l.session, l.db, HashMap(r.entries))))
      case Fetching => Some(FeedClaims(l, r.events))
      case Resettling => Some(FeedResettle(l, r.fp, r.instance))
      case _ => None
  }

  /** Taking events in touches the store, the tally and the clean flag only. */
  lemma {:induction false} TakeAllKeepsPlace(l: Local, f: Filter, events: seq<Event>)
    ensures var l' := TakeAll(l, f, events);
            && l'.session == l.session.(report := l'.session.report, clean := l'.session.clean)
            && l'.cursors == l.cursors
    decreases |events|
  {
    if events != [] {
      TakeAllKeepsPlace(TakeIn(l, f, events[0]), f, events[1..]);
    }
  }

  // ── Termination against any responder ────────────────────────────────

  function PhaseRank(s: Session): nat {
    match s.phase
    case Starting => 9
    case FirstStatus => 8
    case Pulling => 7
    case Publishing => if s.afterPush.ToSettle? then 6 else 2
    case Settling => 5
    case Reconciling => 4
    case Fetching => 3
    case Resettling => 1
    case Finished => 0
  }

  /** What the current phase still has to move. */
  function Items(s: Session): nat
    requires Valid(s)
  {
    if s.phase.Pulling? then s.peerCount - s.cursor.pull
    else if s.phase.Publishing? then |s.pushBatch| - s.pushSent
    else if s.phase.Fetching? then |s.wantIds| - s.wantSent
    else 0
  }

  function LogsLeft(s: Session): nat {
    if s.phase.Finished? || s.idx >= |s.plans| then 0 else |s.plans| - s.idx
  }

  /** Logs left, settle laps left, phase rank, items left: in that order. */
  predicate Nearer(s': Session, s: Session)
    requires Valid(s') && Valid(s)
  {
    && !s'.phase.Starting?
    && (|| LogsLeft(s') < LogsLeft(s)
        || (LogsLeft(s') == LogsLeft(s) &&
            (|| s'.settleRounds > s.settleRounds
             || (s'.settleRounds == s.settleRounds &&
                 (PhaseRank(s') < PhaseRank(s) || (PhaseRank(s') == PhaseRank(s) && Items(s') < Items(s)))))))
  }

  lemma FinishingIsNearer(s: Session, s0: Session)
    requires Open(s) && Valid(s0) && !s0.phase.Finished? && s0.plans == s.plans && s0.idx == s.idx
             && s.settleRounds <= 3
    ensures Valid(FinishLog(s)) && Nearer(FinishLog(s), s0)
  {
  }

  /** A primary push only stages a batch and leads to Publishing or Settling. */
  lemma PrimaryPushKeeps(s: Session, db: State)
    requires Open(s)
    ensures var s' := BeginPrimaryPush(s, db);
            && s' == s.(phase := s'.phase, pushBatch := s'.pushBatch, pushSent := 0, cursorPrefix := true,
               afterPush := ToSettle)
            && (s'.phase.Settling? || (s'.phase.Publishing? && s'.pushBatch != []))
  {
    hide ServeSince;
  }

  lemma PushingIsNearer(s: Session, db: State, s0: Session)
    requires Valid(s0) && Open(s0) && !s0.phase.Finished? && Open(s) && s.plans == s0.plans && s.idx == s0.idx
    requires s.settleRounds <= 2
    requires s.settleRounds > s0.settleRounds || (s.settleRounds == s0.settleRounds && PhaseRank(s0) >= 7)
    ensures var s' := BeginPrimaryPush(s, db);
            Valid(s') && Nearer(s', s0)
  {
    hide BeginPrimaryPush;
    PrimaryPushKeeps(s, db);
  }

  /** Settling ends the log, spends a lap, or moves on to reconciling. */
  lemma SettlingIsNearer(l: Local, count: nat, fp: Print, instance: InstanceId, s0: Session)
    requires Open(l.session) && l.session.settleRounds <= 2 && Valid(s0) && !s0.phase.Finished? && Open(s0)
    requires l.session.plans == s0.plans && l.session.idx == s0.idx && l.session.settleRounds == s0.settleRounds
             && PhaseRank(s0) >= 5
    ensures var s' := SettleWith(l, count, fp, instance).session;
            Valid(s') && Nearer(s', s0)
  {
    hide Fingerprint, FinishLog, BeginPrimaryPush, Nearer, Valid;
    var s := l.session;
    if s.cursor.instance != Some(instance) {
      var s2 := Restarted(s, count, instance);
      if s2.settleRounds > 2 {
        FinishingIsNearer(s2, s0);
      } else if PlanOf(s2).pull && count > 0 {
        LapIsNearer(s2.(phase := Pulling), s0);
      } else {
        PushingIsNearer(s2, l.db, s0);
      }
    } else if PlanOf(s).pull && count > s.cursor.pull && s.settleRounds < 2 {
      LapIsNearer(s.(settleRounds := s.settleRounds + 1, peerCount := count, phase := Pulling), s0);
    } else if fp == Fingerprint(l.db, PlanOf(s).log) {
      FinishingIsNearer(s.(cursor := s.cursor.(settled := Some(fp))), s0);
    } else if s.cursor.settled == Some(fp) {
      FinishingIsNearer(s, s0);
    } else {
      var s1 := s.(report := s.report.(reconciled := s.report.reconciled + 1), phase := Reconciling);
      ReconcilingIsValid(s1);
      LowerRankIsNearer(s1, s0);
    }
  }

  lemma ReconcilingIsValid(s: Session)
    requires Open(s) && s.phase.Reconciling? && s.settleRounds <= 2
    ensures Valid(s)
  {
  }

  lemma LapIsNearer(s: Session, s0: Session)
    requires Open(s) && Valid(s0) && Open(s0) && !s0.phase.Finished? && s0.plans == s.plans && s0.idx == s.idx
    requires s.phase.Pulling? && s0.settleRounds < s.settleRounds <= 2 && s.cursor.pull < s.peerCount
    ensures Valid(s) && Nearer(s, s0)
  {
  }

  lemma LowerRankIsNearer(s: Session, s0: Session)
    requires Open(s) && Valid(s0) && Open(s0) && !s0.phase.Finished? && s0.plans == s.plans && s0.idx == s.idx
    requires s0.settleRounds == s.settleRounds && PhaseRank(s) < PhaseRank(s0) && Valid(s) && !s.phase.Finished?
    ensures Nearer(s, s0)
  {
  }

  lemma FirstStatusIsNearer(l: Local, count: nat, fp: Print, instance: InstanceId)
    requires Valid(l.session) && l.session.phase.FirstStatus?
    ensures var s' := FeedFirstStatus(l, count, fp, instance).session;
            Valid(s') && Nearer(s', l.session)
  {
    ValidIsOpen(l.session);
    ContactedKeepsPlace(l, count, instance);
    hide SettleWith, BeginPrimaryPush, Nearer, Valid, Contacted;
    var s := l.session;
    var l1 := Contacted(l, count, instance);
    var s1 := l1.session;
    if PlanOf(s1).pull && s1.cursor.pull < count {
      var s2 := s1.(phase := Pulling);
      PullingIsValid(s2);
      LowerRankIsNearer(s2, s);
    } else {
      var s2 := BeginPrimaryPush(s1, l.db);
      PrimaryPushKeeps(s1, l.db);
      PushingIsNearer(s1, l.db, s);
      if s2.phase.Settling? {
        SettlingIsNearer(l1.(session := s2), count, fp, instance, s);
      }
    }
  }

  lemma ContactedKeepsPlace(l: Local, count: nat, instance: InstanceId)
    requires Open(l.session)
    ensures var s := Contacted(l, count, instance).session;
            && s.plans == l.session.plans && s.idx == l.session.idx && s.settleRounds == l.session.settleRounds
            && s.phase == l.session.phase && s.peerCount == count
  {
  }

  lemma ValidIsOpen(s: Session)
    requires Valid(s) && !s.phase.Finished? && !s.phase.Starting?
    ensures Open(s) && s.settleRounds <= 2
  {
  }

  lemma PullingIsValid(s: Session)
    requires Open(s) && s.phase.Pulling? && s.settleRounds <= 2 && s.cursor.pull < s.peerCount
    ensures Valid(s)
  {
  }

  lemma PulledIsNearer(l: Local, events: seq<Event>)
    requires Valid(l.session) && l.session.phase.Pulling?
    ensures var s' := FeedPulled(l, events).session;
            Valid(s') && Nearer(s', l.session)
  {
    hide BeginPrimaryPush, TakeAll;
    var s := l.session;
    if events == [] {
      PushingIsNearer(s, l.db, s);
    } else {
      var f := OfLog(PlanOf(s).log);
      var l1 := TakeAll(l, f, events);
      TakeAllKeepsPlace(l, f, events);
      if s.cursor.pull + |events| >= s.peerCount {
        PushingIsNearer(l1.session.(cursor := l1.session.cursor.(pull := l1.session.cursor.pull + |events|)), l1.db, s);
      }
    }
  }

  lemma AckIsNearer(l: Local, stored: nat, rejected: nat)
    requires Valid(l.session) && l.session.phase.Publishing?
    ensures var s' := FeedAck(l, stored, rejected).session;
            Valid(s') && Nearer(s', l.session)
  {
  }

  lemma AfterFetchingIsNearer(s: Session, s0: Session)
    requires Valid(s0) && Open(s0) && PhaseRank(s0) >= 3 && !s0.phase.Finished?
             && s.settleRounds == s0.settleRounds <= 2
    requires s.plans == s0.plans && s.idx == s0.idx
    ensures Valid(AfterFetching(s)) && Nearer(AfterFetching(s), s0)
  {
  }

  lemma HashesAreNearer(s: Session, db: State, theirs: map<ClaimHash, bool>)
    requires Valid(s) && s.phase.Reconciling?
    ensures Valid(Diffed(s, db, theirs)) && Nearer(Diffed(s, db, theirs), s)
  {
    hide SortIds, WantSet, OfferSet, Artifacts, AfterFetching;
    var plan := PlanOf(s);
    var wants := if plan.pull then SortIds(ById(), WantSet(db, plan.log, theirs)) else [];
    var offers := if plan.push then Artifacts(db, SortIds(ById(), OfferSet(db, plan.log, theirs))) else [];
    AfterFetchingIsNearer(s.(wantIds := wants, wantSent := 0, extraBatch := offers), s);
  }

  lemma ClaimsAreNearer(l: Local, events: seq<Event>)
    requires Valid(l.session) && l.session.phase.Fetching?
    ensures var s' := FeedClaims(l, events).session;
            Valid(s') && Nearer(s', l.session)
  {
    hide TakeAll, AfterFetching;
    var s := l.session;
    var end := Chunk(s.wantSent, |s.wantIds|);
    var f := Asked(s.wantIds[s.wantSent..end]);
    TakeAllKeepsPlace(l, f, events);
    AfterFetchingIsNearer(TakeAll(l, f, events).session.(wantSent := end), s);
  }

  /** Whatever a well-shaped answer says, it brings the session nearer its end. */
  lemma FeedIsNearer(l: Local, r: Response)
    requires Valid(l.session) && Feed(l, r).Some?
    ensures Valid(Feed(l, r).value.session) && Nearer(Feed(l, r).value.session, l.session)
  {
    hide FeedFirstStatus, FeedPulled, FeedAck, SettleWith, Diffed, FeedClaims, FinishLog, Nearer;
    var s := l.session;
    match s.phase
    case FirstStatus => FirstStatusIsNearer(l, r.count, r.fp, r.instance);
    case Pulling => PulledIsNearer(l, r.events);
    case Publishing => AckIsNearer(l, r.stored, r.rejected);
    case Settling => SettlingIsNearer(l, r.count, r.fp, r.instance, s);
    case Reconciling => HashesAreNearer(s, l.db, HashMap(r.entries));
    case Fetching => ClaimsAreNearer(l, r.events);
    case Resettling =>
      FinishingIsNearer(s.(cursor := s.cursor.(settled := Some(r.fp))), s);
      FinishingIsNearer(s, s);
    case _ =>
  }

  /** A responder: any way to answer, depending on anything. */
  type Peer = (Local, Request) -> Response

  /**
   Driving a session to its end: the recursion is accepted because every feed is
   nearer the end, whoever answers. A wrongly shaped answer aborts.
   */
  ghost function Drive(l: Local, peer: Peer): Local
    requires Valid(l.session) && !l.session.phase.Starting?
    decreases LogsLeft(l.session), 3 - l.session.settleRounds, PhaseRank(l.session), Items(l.session)
  {
    var request := NextRequest(l.session);
    if request.None? then l
    else
      var fed := Feed(l, peer(l, request.value));
      if fed.None? then l
      else
        FeedIsNearer(l, peer(l, request.value));
        Drive(fed.value, peer)
  }
}
