/**
 Only your own log leaves a peer that serves what it writes: every event in any
 answer, frame or publish it ever puts on a pipe is of its own log.
 */
module Discretion {
  import opened Bytes
  import opened Rows
  import opened Ingest
  import opened Indexes
  import opened Sorted
  import opened Queries
  import opened Protocol
  import opened Sessions
  import opened Shapes
  import opened Push
  import opened Actors

  // ── What is one's own ────────────────────────────────────────────────

  predicate OwnEvents(events: seq<Event>, me: Option<LogId>) {
    forall i | 0 <= i < |events| :: HeaderLog(events[i]).Some? && HeaderLog(events[i]) == me
  }

  predicate OwnArts(arts: seq<Artifact>, me: Option<LogId>) {
    forall i | 0 <= i < |arts| :: Some(arts[i].log) == me
  }

  /** The events a message carries. */
  function Carried(msg: PipeMsg): seq<Event> {
    match msg
    case Ask(_, Publish(events)) => events
    case Reply(_, Events(events)) => events
    case Frame(f) => f.events
    case _ => []
  }

  predicate OwnMsg(msg: PipeMsg, me: Option<LogId>) { OwnEvents(Carried(msg), me) }

  /** A session that would push nothing but our log, and has nothing else in hand. */
  ghost predicate Voice(n: Session, me: Option<LogId>) {
    && (forall i | 0 <= i < |n.plans| && n.plans[i].push :: Some(n.plans[i].log) == me)
    && OwnArts(n.pushBatch, me) && OwnArts(n.extraBatch, me)
  }

  ghost predicate DiscreetPipe(p: Pipe, me: Option<LogId>) {
    && (forall log | log in p.watches :: Some(log) == me)
    && (p.session.Some? ==> Voice(p.session.value, me))
  }

  ghost predicate DiscreetPipes(pipes: map<PipeId, Pipe>, me: Option<LogId>) {
    forall id | id in pipes :: DiscreetPipe(pipes[id], me)
  }

  ghost predicate DiscreetSent(outbox: seq<Sent>, me: Option<LogId>) {
    forall i | 0 <= i < |outbox| :: OwnMsg(outbox[i].msg, me)
  }

  ghost predicate Discreet(a: Actor) {
    && a.serve.Owned? && SessionsAtRest(a.pipes)
    && DiscreetPipes(a.pipes, a.me) && DiscreetSent(a.outbox, a.me)
  }

  // ── Sessions push nothing else ───────────────────────────────────────

  lemma ArtifactsOfLog(s: State, log: LogId, ids: seq<ClaimHash>)
    requires forall i | 0 <= i < |ids| :: InLog(s, log, ids[i])
    ensures OwnArts(Artifacts(s, ids), Some(log))
  {
  }

  lemma ServedIsOwn(s: State, log: LogId, have: nat)
    ensures OwnArts(ServeSince(s, log, have), Some(log))
  {
    hide Sorted.Ascending;
    var ids := SortIds(ByArrival(s), Past(s, log, have));
    SortIdsLists(ByArrival(s), Past(s, log, have));
    hide SortIds;
    forall i | 0 <= i < |ids|
      ensures InLog(s, log, ids[i])
    {
      assert ids[i] in ids;
    }
    ArtifactsOfLog(s, log, ids);
  }

  lemma OfferedIsOwn(s: State, log: LogId, theirs: map<ClaimHash, bool>)
    ensures OwnArts(Artifacts(s, SortIds(ById(), OfferSet(s, log, theirs))), Some(log))
  {
    hide Sorted.Ascending;
    var ids := SortIds(ById(), OfferSet(s, log, theirs));
    SortIdsLists(ById(), OfferSet(s, log, theirs));
    hide SortIds;
    forall i | 0 <= i < |ids|
      ensures InLog(s, log, ids[i])
    {
      assert ids[i] in ids;
    }
    ArtifactsOfLog(s, log, ids);
  }

  lemma PrimaryPushKeepsVoice(n: Session, db: State, me: Option<LogId>)
    requires Open(n) && Voice(n, me)
    ensures Voice(BeginPrimaryPush(n, db), me)
  {
    hide ServeSince;
    ServedIsOwn(db, PlanOf(n).log, n.cursor.push);
  }

  lemma FinishKeepsVoice(n: Session, me: Option<LogId>)
    requires Voice(n, me)
    ensures Voice(FinishLog(n), me)
  {
  }

  lemma SettleKeepsVoice(l: Local, count: nat, fp: Print, instance: InstanceId, me: Option<LogId>)
    requires Open(l.session) && Voice(l.session, me)
    ensures Voice(SettleWith(l, count, fp, instance).session, me)
  {
    hide Fingerprint, FinishLog, BeginPrimaryPush;
    var n := l.session;
    var n2 := Restarted(n, count, instance);
    FinishKeepsVoice(n2, me);
    PrimaryPushKeepsVoice(n2, l.db, me);
    FinishKeepsVoice(n.(cursor := n.cursor.(settled := Some(fp))), me);
    FinishKeepsVoice(n, me);
  }

  lemma FirstStatusKeepsVoice(l: Local, count: nat, fp: Print, instance: InstanceId, me: Option<LogId>)
    requires Open(l.session) && Voice(l.session, me)
    ensures Voice(FeedFirstStatus(l, count, fp, instance).session, me)
  {
    hide FeedFirstStatus, SettleWith, BeginPrimaryPush;
    FirstStatusFromContact(l, count, fp, instance);
    var l1 := Contacted(l, count, instance);
    PrimaryPushKeeps(l1.session, l.db);
    PrimaryPushKeepsVoice(l1.session, l.db, me);
    SettleKeepsVoice(l1.(session := BeginPrimaryPush(l1.session, l.db)), count, fp, instance, me);
  }

  lemma PulledKeepsVoice(l: Local, events: seq<Event>, me: Option<LogId>)
    requires Open(l.session) && Voice(l.session, me)
    ensures Voice(FeedPulled(l, events).session, me)
  {
    hide TakeAll, BeginPrimaryPush;
    PrimaryPushKeepsVoice(l.session, l.db, me);
    TakeAllKeepsPlace(l, OfLog(PlanOf(l.session).log), events);
    var l2 := Pulled(l, events);
    PrimaryPushKeepsVoice(l2.session, l2.db, me);
  }

  lemma DiffKeepsVoice(n: Session, db: State, theirs: map<ClaimHash, bool>, me: Option<LogId>)
    requires Open(n) && Voice(n, me)
    ensures Voice(Diffed(n, db, theirs), me)
  {
    hide SortIds, WantSet, OfferSet, Artifacts;
    OfferedIsOwn(db, PlanOf(n).log, theirs);
  }

  lemma ClaimsKeepVoice(l: Local, events: seq<Event>, me: Option<LogId>)
    requires InProgress(l) && l.session.phase.Fetching? && Voice(l.session, me)
    ensures Voice(FeedClaims(l, events).session, me)
  {
    hide TakeAll;
    var n := l.session;
    TakeAllKeepsPlace(l, Asked(n.wantIds[n.wantSent..Chunk(n.wantSent, |n.wantIds|)]), events);
  }

  lemma FeedKeepsVoice(l: Local, r: Response, me: Option<LogId>)
    requires Valid(l.session) && Voice(l.session, me) && Feed(l, r).Some?
    ensures Voice(Feed(l, r).value.session, me)
  {
    hide Voice, FeedFirstStatus, FeedPulled, FeedAck, SettleWith, Diffed, FeedClaims, FeedResettle, HashMap;
    match l.session.phase
    case FirstStatus => FirstStatusKeepsVoice(l, r.count, r.fp, r.instance, me);
    case Pulling => PulledKeepsVoice(l, r.events, me);
    case Publishing => AckKeepsVoice(l, r.stored, r.rejected, me);
    case Settling => SettleKeepsVoice(l, r.count, r.fp, r.instance, me);
    case Reconciling => DiffKeepsVoice(l.session, l.db, HashMap(r.entries), me);
    case Fetching => ClaimsKeepVoice(l, r.events, me);
    case Resettling => ResettleKeepsVoice(l, r.fp, r.instance, me);
    case _ =>
  }

  lemma AckKeepsVoice(l: Local, stored: nat, rejected: nat, me: Option<LogId>)
    requires Open(l.session) && l.session.pushSent <= |l.session.pushBatch| && Voice(l.session, me)
    ensures Voice(FeedAck(l, stored, rejected).session, me)
  {
  }

  lemma ResettleKeepsVoice(l: Local, fp: Print, instance: InstanceId, me: Option<LogId>)
    requires Open(l.session) && Voice(l.session, me)
    ensures Voice(FeedResettle(l, fp, instance).session, me)
  {
    hide FinishLog;
    FinishKeepsVoice(l.session.(cursor := l.session.cursor.(settled := Some(fp))), me);
    FinishKeepsVoice(l.session, me);
  }

  lemma {:induction false} PullPlansPushNothing(plans: seq<Plan>, pull: seq<LogId>)
    requires forall i | 0 <= i < |plans| :: !plans[i].push
    ensures forall i | 0 <= i < |PullPlans(plans, pull)| :: !PullPlans(plans, pull)[i].push
    decreases |pull|
  {
    if pull != [] {
      PullPlansPushNothing(if PlansLog(plans, pull[0]) then plans else plans + [Plan(pull[0], true, false)], pull[1..]);
    }
  }

  lemma {:induction false} MarkPushPushes(plans: seq<Plan>, log: LogId)
    ensures forall i | 0 <= i < |MarkPush(plans, log)| && MarkPush(plans, log)[i].push ::
              MarkPush(plans, log)[i].log == log || MarkPush(plans, log)[i] in plans
  {
    if plans != [] && plans[0].log != log {
      MarkPushPushes(plans[1..], log);
    }
  }

  /** A session asked to push at most our log. */
  lemma NewSessionIsVoice(name: string, now: int, pull: seq<LogId>, me: Option<LogId>)
    ensures Voice(NewSession(name, now, pull, if me.Some? && me.value in pull then [me.value] else []), me)
  {
    var plans := PullPlans([], pull);
    PullPlansPushNothing([], pull);
    if me.Some? && me.value in pull {
      MarkPushPushes(plans, me.value);
      assert [me.value][1..] == [];
      assert PushPlans(plans, [me.value]) == MarkPush(plans, me.value);
      hide MarkPush, PullPlans;
    }
  }

  lemma OpenedKeepsVoice(n: Session, me: Option<LogId>)
    requires Voice(n, me)
    ensures Voice(Opened(n), me)
  {
  }

  /** What a session asks carries nothing but our events. */
  lemma RequestIsOwn(n: Session, id: nat, me: Option<LogId>)
    requires AtRest(n) && Voice(n, me) && NextRequest(n).Some?
    ensures OwnMsg(PipeMsg.Ask(id, NextRequest(n).value), me)
  {
    if n.phase.Publishing? {
      var batch := n.pushBatch[n.pushSent..Chunk(n.pushSent, |n.pushBatch|)];
      assert forall i | 0 <= i < |batch| :: batch[i] == n.pushBatch[n.pushSent + i];
    }
  }

  // ── Turns ────────────────────────────────────────────────────────────

  lemma SendStaysDiscreet(a: Actor, room: Room, pipe: PipeId, msg: PipeMsg)
    requires Discreet(a) && OwnMsg(msg, a.me)
    ensures Discreet(Send(a, room, pipe, msg)) && Send(a, room, pipe, msg).me == a.me
    ensures Send(a, room, pipe, msg).pipes == a.pipes && Send(a, room, pipe, msg).follows == a.follows
  {
    hide OwnMsg, SessionsAtRest, DiscreetPipes;
  }

  lemma {:induction false} SendAllStaysDiscreet(a: Actor, room: Room, pipes: seq<PipeId>, msg: PipeMsg)
    requires Discreet(a) && (pipes != [] ==> OwnMsg(msg, a.me))
    ensures var a' := SendAll(a, room, pipes, msg);
            Discreet(a') && a'.me == a.me && a'.pipes == a.pipes && a'.follows == a.follows
    decreases |pipes|
  {
    hide Discreet, OwnMsg, Send;
    if pipes != [] {
      SendStaysDiscreet(a, room, pipes[0], msg);
      SendAllStaysDiscreet(Send(a, room, pipes[0], msg), room, pipes[1..], msg);
    }
  }

  predicate AllOfLog(events: seq<Event>, log: LogId) {
    forall i | 0 <= i < |events| :: HeaderLog(events[i]) == Some(log)
  }

  /** Whatever lands is framed only to watchers, and only our log is watched. */
  lemma LandedStaysDiscreet(a: Actor, room: Room, log: LogId, events: seq<Event>, source: Option<PipeId>)
    requires Discreet(a) && AllOfLog(events, log)
    ensures var a' := Landed(a, room, log, events, source);
            Discreet(a') && a'.me == a.me && a'.pipes == a.pipes && a'.follows == a.follows
  {
    hide SessionsAtRest, DiscreetSent, Fingerprint, LogLen, Sorted.Ascending;
    var watchers := set id | id in a.pipes && Some(id) != source && log in a.pipes[id].watches;
    SortIdsLists(ById(), watchers);
    if Ordered(watchers) != [] {
      assert Ordered(watchers)[0] in Ordered(watchers);
      var id := Ordered(watchers)[0];
      assert DiscreetPipe(a.pipes[id], a.me);
    }
    SendAllStaysDiscreet(a, room, Ordered(watchers), Frame(NotifyFor(a.db, a.instance, log, events)));
  }

  ghost predicate TrueNews(news: seq<News>) {
    forall i | 0 <= i < |news| :: AllOfLog(news[i].events, news[i].log)
  }

  lemma {:induction false} LandedAllStaysDiscreet(a: Actor, room: Room, news: seq<News>, source: PipeId)
    requires Discreet(a) && TrueNews(news)
    ensures Discreet(LandedAll(a, room, news, source))
    decreases |news|
  {
    hide Discreet, AllOfLog, Landed;
    if news != [] {
      LandedStaysDiscreet(a, room, news[0].log, news[0].events, Some(source));
      LandedAllStaysDiscreet(Landed(a, room, news[0].log, news[0].events, Some(source)), room, news[1..], source);
    }
  }

  lemma {:induction false} BeatStaysDiscreet(a: Actor, room: Room, pipe: PipeId, logs: seq<LogId>)
    requires Discreet(a)
    ensures Discreet(Beat(a, room, pipe, logs))
    decreases |logs|
  {
    hide Discreet, Send;
    if logs != [] {
      var beat := Frame(NotifyFor(a.db, a.instance, logs[0], []));
      SendStaysDiscreet(a, room, pipe, beat);
      BeatStaysDiscreet(Send(a, room, pipe, beat), room, pipe, logs[1..]);
    }
  }

  lemma AnnounceStaysDiscreet(a: Actor, room: Room, pipe: PipeId)
    requires Discreet(a)
    ensures Discreet(Announce(a, room, pipe))
  {
    hide Discreet, FollowedOn;
    SendStaysDiscreet(a, room, pipe, Watch(FollowedOn(a, pipe)));
  }

  lemma {:induction false} AnnounceAllStaysDiscreet(a: Actor, room: Room, pipes: seq<PipeId>)
    requires Discreet(a)
    ensures Discreet(AnnounceAll(a, room, pipes))
    decreases |pipes|
  {
    hide Discreet, Announce;
    if pipes != [] {
      AnnounceStaysDiscreet(a, room, pipes[0]);
      AnnounceAllStaysDiscreet(Announce(a, room, pipes[0]), room, pipes[1..]);
    }
  }

  lemma SoilStaysDiscreet(a: Actor, pipe: PipeId)
    requires Discreet(a)
    ensures Discreet(Soil(a, pipe))
  {
    hide AtRest, Voice, DiscreetSent;
  }

  lemma {:induction false} SoilAllStaysDiscreet(a: Actor, pipes: seq<PipeId>)
    requires Discreet(a)
    ensures Discreet(SoilAll(a, pipes))
    decreases |pipes|
  {
    hide Discreet, Soil;
    if pipes != [] {
      SoilStaysDiscreet(a, pipes[0]);
      SoilAllStaysDiscreet(Soil(a, pipes[0]), pipes[1..]);
    }
  }

  // ── Answers ──────────────────────────────────────────────────────────

  lemma {:induction false} ServedRowsAreOwn(a: Actor, ids: seq<ClaimHash>)
    requires a.serve.Owned?
    ensures OwnArts(ServedRows(a, ids), a.me)
  {
    if ids != [] {
      ServedRowsAreOwn(a, ids[1..]);
    }
  }

  ghost predicate TrueLanded(landed: map<LogId, seq<Event>>) {
    forall log | log in landed :: AllOfLog(landed[log], log)
  }

  lemma {:induction false} AcceptEachIsTrue(a: Actor, i: Acceptance, events: seq<Event>, now: int)
    requires TrueLanded(i.landed)
    ensures TrueLanded(AcceptEach(a, i, events, now).landed)
    decreases |events|
  {
    hide Ingested, ReportOf, Accepts;
    if events != [] {
      AcceptEachIsTrue(a, AcceptOne(a, i, events[0], now), events[1..], now);
    }
  }

  lemma NewsIsTrue(landed: map<LogId, seq<Event>>)
    requires TrueLanded(landed)
    ensures TrueNews(NewsByLog(landed))
  {
    hide AllOfLog, Sorted.Ascending;
    SortIdsLists(ById(), landed.Keys);
    assert forall i | 0 <= i < |Ordered(landed.Keys)| :: Ordered(landed.Keys)[i] in Ordered(landed.Keys);
  }

  /** Answers within scope carry our events only, and news is filed under its own log. */
  lemma AnswerIsOwn(a: Actor, now: int, id: nat, r: Request)
    requires a.serve.Owned?
    ensures OwnMsg(Reply(id, RespondScoped(a, now, r).response), a.me) && TrueNews(RespondScoped(a, now, r).news)
  {
    hide ServeSince, AcceptEach, NewsByLog, LogHashes, Fingerprint, LogLen;
    match r
    case AskSince(log, have, max) =>
      ServedIsOwn(a.db, log, have);
      var arts := Take(ServeSince(a.db, log, have), Min(max, MAX_SERVE_BATCH));
      assert forall i | 0 <= i < |arts| :: arts[i] == ServeSince(a.db, log, have)[i];
    case AskClaims(ids) => ServedRowsAreOwn(a, ids);
    case PutBlob(hash, _) =>
      var logs := ReferrerLogs(a.db, hash);
      NewsIsTrue(map log | log in logs :: []);
    case Publish(events) =>
      AcceptEachIsTrue(a, Acceptance(a.db, 0, 0, map[]), events, now);
      NewsIsTrue(AcceptEach(a, Acceptance(a.db, 0, 0, map[]), events, now).landed);
    case _ =>
  }

  lemma StoreDoesNotMatter(a: Actor, db: State, cursors: Cursors, blobs: map<BlobHash, Bytes>)
    requires Discreet(a)
    ensures Discreet(a.(db := db, cursors := cursors, blobs := blobs))
  {
    hide SessionsAtRest, DiscreetPipes, DiscreetSent;
  }

  lemma RequestStaysDiscreet(a: Actor, room: Room, now: int, pipe: PipeId, id: nat, r: Request)
    requires Discreet(a)
    ensures Discreet(OnRequest(a, room, now, pipe, id, r))
  {
    var s := RespondScoped(a, now, r);
    var a1 := a.(db := s.db, blobs := s.blobs);
    AnswerIsOwn(a, now, id, r);
    StoreDoesNotMatter(a, s.db, a.cursors, s.blobs);
    hide Discreet, RespondScoped, OwnMsg, TrueNews, Send, LandedAll;
    SendStaysDiscreet(a1, room, pipe, Reply(id, s.response));
    LandedAllStaysDiscreet(Send(a1, room, pipe, Reply(id, s.response)), room, s.news, pipe);
  }

  lemma {:induction false} ServedLogsAreOwn(a: Actor, logs: seq<LogId>)
    requires a.serve.Owned?
    ensures forall i | 0 <= i < |ServedLogs(a, logs)| :: Some(ServedLogs(a, logs)[i]) == a.me
  {
    if logs != [] {
      ServedLogsAreOwn(a, logs[1..]);
    }
  }

  lemma WatchStaysDiscreet(a: Actor, room: Room, pipe: PipeId, logs: seq<LogId>)
    requires Discreet(a)
    ensures Discreet(OnWatch(a, room, pipe, logs))
  {
    var watched := ServedLogs(a, logs);
    ServedLogsAreOwn(a, logs);
    hide ServedLogs, AtRest, Voice, DiscreetSent, Beat;
    var a1 := if pipe in a.pipes
              then a.(pipes := a.pipes[pipe := a.pipes[pipe].(watches := set i | 0 <= i < |watched| :: watched[i])])
                else a;
    assert Discreet(a1);
    BeatStaysDiscreet(a1, room, pipe, watched);
  }

  lemma {:induction false} OfLogOnlyIsTrue(events: seq<Event>, log: LogId)
    ensures AllOfLog(OfLogOnly(events, log), log)
  {
    if events != [] {
      OfLogOnlyIsTrue(events[1..], log);
    }
  }

  lemma FrameStaysDiscreet(a: Actor, room: Room, now: int, pipe: PipeId, f: Notify)
    requires Discreet(a)
    ensures Discreet(OnFrame(a, room, now, pipe, f))
  {
    hide Discreet, ApplyNotify, Landed, AllOfLog, Soil;
    if pipe in a.pipes {
      var applied := ApplyNotify(a.db, a.cursors, a.pipes[pipe].name, now, f);
      var a1 := a.(db := applied.db, cursors := applied.cursors);
      StoreDoesNotMatter(a, applied.db, applied.cursors, a.blobs);
      OfLogOnlyIsTrue(f.events, f.log);
      LandedStaysDiscreet(a1, room, f.log, OfLogOnly(f.events, f.log), Some(pipe));
      var r := applied.report;
      var a2 := if r.pulled > 0 || r.healed > 0 || r.redactionsApplied > 0
                then Landed(a1, room, f.log, OfLogOnly(f.events, f.log), Some(pipe)) else a1;
      SoilStaysDiscreet(a2, pipe);
    }
  }

  // ── Sessions on pipes ────────────────────────────────────────────────

  /** Discreet but for one pipe's session, which is valid and ours but may not have been opened. */
  ghost predicate AboutToAdvance(a: Actor, pipe: PipeId) {
    && a.serve.Owned? && SessionsValid(a.pipes) && DiscreetPipes(a.pipes, a.me) && DiscreetSent(a.outbox, a.me)
    && forall id | id in a.pipes && id != pipe && a.pipes[id].session.Some? :: AtRest(a.pipes[id].session.value)
  }

  lemma SessionReplaced(a: Actor, pipe: PipeId, p: Pipe)
    requires Discreet(a) && pipe in a.pipes && p.watches == a.pipes[pipe].watches
    requires p.session.Some? ==> Valid(p.session.value) && Voice(p.session.value, a.me)
    ensures AboutToAdvance(a.(pipes := a.pipes[pipe := p]), pipe)
    ensures p.session.None? ==> Discreet(a.(pipes := a.pipes[pipe := p]))
  {
    hide Valid, Voice, DiscreetSent;
  }

  lemma AdvanceStaysDiscreet(a: Actor, room: Room, pipe: PipeId)
    requires AboutToAdvance(a, pipe)
    ensures Discreet(Advance(a, room, pipe))
  {
    AdvanceRests(a, room, pipe);
    if pipe in a.pipes && a.pipes[pipe].session.Some? {
      var n := a.pipes[pipe].session.value;
      assert DiscreetPipe(a.pipes[pipe], a.me);
      var s := Opened(n);
      OpenedRests(n);
      OpenedKeepsVoice(n, a.me);
      hide Valid, Voice, NextRequest, Opened, OwnMsg, AtRest, SessionsAtRest;
      if NextRequest(s).Some? {
        RequestIsOwn(s, a.pipes[pipe].nextRequest, a.me);
      }
    } else {
      hide Valid, Voice;
    }
  }

  /** The awaited answer was consumed: the session moves on or is put away. */
  lemma FedStaysDiscreet(a: Actor, room: Room, pipe: PipeId, p: Pipe, fed: Local)
    requires Discreet(a) && pipe in a.pipes && p == a.pipes[pipe].(pending := None, session := Some(fed.session))
    requires Valid(fed.session) && Voice(fed.session, a.me)
    ensures var a1 := a.(db := fed.db, cursors := fed.cursors, pipes := a.pipes[pipe := p]);
            SessionsValid(a1.pipes) ==> Discreet(Advance(a1, room, pipe))
  {
    hide Valid, Voice, Discreet, AboutToAdvance, Advance, DiscreetPipes, SessionsValid;
    StoreDoesNotMatter(a, fed.db, fed.cursors, a.blobs);
    SessionReplaced(a.(db := fed.db, cursors := fed.cursors), pipe, p);
    AdvanceStaysDiscreet(a.(db := fed.db, cursors := fed.cursors, pipes := a.pipes[pipe := p]), room, pipe);
  }

  lemma StoredIsDiscreet(a: Actor, pipe: PipeId)
    requires Discreet(a) && pipe in a.pipes && a.pipes[pipe].session.Some?
    ensures SessionsAtRest(a.pipes)
    ensures Valid(a.pipes[pipe].session.value) && !a.pipes[pipe].session.value.phase.Starting?
            && Voice(a.pipes[pipe].session.value, a.me)
  {
    assert AtRest(a.pipes[pipe].session.value) && DiscreetPipe(a.pipes[pipe], a.me);
    hide Valid, Voice, DiscreetSent;
  }

  lemma ResponseStaysDiscreet(a: Actor, room: Room, pipe: PipeId, id: nat, r: Response)
    requires Discreet(a)
    ensures Discreet(OnResponse(a, room, pipe, id, r))
  {
    hide Valid, Voice, Feed, Discreet, AboutToAdvance, Nearer, Advance, DiscreetPipes;
    if pipe in a.pipes && a.pipes[pipe].pending == Some(id) && a.pipes[pipe].session.Some? {
      StoredIsDiscreet(a, pipe);
      var p := a.pipes[pipe].(pending := None);
      var l := Local(p.session.value, a.db, a.cursors);
      var fed := Feed(l, r);
      if fed.None? {
        SessionReplaced(a, pipe, p.(session := None));
      } else {
        FeedIsNearer(l, r);
        FeedKeepsVoice(l, r, a.me);
        FedStaysDiscreet(a, room, pipe, p.(session := Some(fed.value.session)), fed.value);
      }
    }
  }

  lemma StartStaysDiscreet(a: Actor, room: Room, now: int, pipe: PipeId)
    requires Discreet(a)
    ensures Discreet(Start(a, room, now, pipe))
  {
    if pipe in a.pipes {
      var pull := FollowedOn(a, pipe);
      var p := a.pipes[pipe].(dirty := false);
      assert DiscreetPipe(a.pipes[pipe], a.me) && (p.session.Some? ==> AtRest(p.session.value));
      hide Valid, Voice, AboutToAdvance, Advance, NewSession, FollowedOn, DiscreetPipes, DiscreetSent;
      if pull == [] {
        CleanStaysDiscreet(a, pipe);
      } else {
        var push := if a.me.Some? && a.me.value in pull then [a.me.value] else [];
        NewSessionIsValid(p.name, now, pull, push);
        NewSessionIsVoice(p.name, now, pull, a.me);
        var p1 := p.(session := Some(NewSession(p.name, now, pull, push)));
        SessionReplaced(a, pipe, p1);
        AdvanceStaysDiscreet(a.(pipes := a.pipes[pipe := p1]), room, pipe);
      }
    }
  }

  lemma CleanStaysDiscreet(a: Actor, pipe: PipeId)
    requires Discreet(a) && pipe in a.pipes
    ensures Discreet(a.(pipes := a.pipes[pipe := a.pipes[pipe].(dirty := false)]))
  {
    hide AtRest, Voice, DiscreetSent;
  }

  lemma {:induction false} StartAllStaysDiscreet(a: Actor, room: Room, now: int, pipes: seq<PipeId>)
    requires Discreet(a)
    ensures Discreet(StartAll(a, room, now, pipes))
    decreases |pipes|
  {
    hide Start;
    if pipes != [] {
      StartStaysDiscreet(a, room, now, pipes[0]);
      StartAllStaysDiscreet(Start(a, room, now, pipes[0]), room, now, pipes[1..]);
    }
  }

  // ── Whole runs ───────────────────────────────────────────────────────

  lemma ReceiveStaysDiscreet(a: Actor, room: Room, now: int, pipe: PipeId, msg: PipeMsg)
    requires Discreet(a)
    ensures Discreet(Receives(a, room, now, pipe, msg))
  {
    match msg
    case Ask(id, request) => RequestStaysDiscreet(a, room, now, pipe, id, request);
    case Reply(id, response) => ResponseStaysDiscreet(a, room, pipe, id, response);
    case Frame(f) => FrameStaysDiscreet(a, room, now, pipe, f);
    case Watch(logs) => WatchStaysDiscreet(a, room, pipe, logs);
  }

  lemma TablesStayDiscreet(a: Actor, turn: Turn, room: Room, now: int)
    requires Discreet(a) && (turn.Connect? || turn.Disconnect? || turn.Closed?)
    ensures Discreet(Takes(a, room, now, turn))
  {
    hide AtRest, Voice, DiscreetSent;
  }

  lemma MintStaysDiscreet(a: Actor, room: Room, now: int, art: Artifact)
    requires Discreet(a)
    ensures Discreet(Takes(a, room, now, Mint(art)))
  {
    hide Discreet, Landed, SoilAll, Ingested;
    if a.me == Some(art.log) {
      var db := Ingested(a.db, art, now);
      StoreDoesNotMatter(a, db, a.cursors, a.blobs);
      LandedStaysDiscreet(a.(db := db), room, art.log, [Checked(art)], None);
      var a1 := Landed(a.(db := db), room, art.log, [Checked(art)], None);
      SoilAllStaysDiscreet(a1, if art.log in a1.follows then Ordered(a1.follows[art.log]) else []);
    }
  }

  lemma FollowStaysDiscreet(a: Actor, room: Room, now: int, log: LogId, pipe: PipeId)
    requires Discreet(a)
    ensures Discreet(Takes(a, room, now, Follow(log, pipe)))
  {
    hide SessionsAtRest, DiscreetPipes, DiscreetSent, Announce, Soil;
    if pipe in a.pipes {
      var a1 := a.(follows := a.follows[log := (if log in a.follows then a.follows[log] else {}) + {pipe}]);
      AnnounceStaysDiscreet(a1, room, pipe);
      SoilStaysDiscreet(Announce(a1, room, pipe), pipe);
    }
  }

  lemma UnfollowStaysDiscreet(a: Actor, room: Room, now: int, log: LogId)
    requires Discreet(a)
    ensures Discreet(Takes(a, room, now, Unfollow(log)))
  {
    hide SessionsAtRest, DiscreetPipes, DiscreetSent, AnnounceAll;
    if log in a.follows {
      AnnounceAllStaysDiscreet(a.(follows := a.follows - {log}), room, Ordered(a.follows[log]));
    }
  }

  lemma TurnStaysDiscreet(a: Actor, room: Room, now: int, turn: Turn)
    requires Discreet(a)
    ensures Discreet(Takes(a, room, now, turn))
  {
    match turn
    case Connect(_) => TablesStayDiscreet(a, turn, room, now);
    case Disconnect(_) => TablesStayDiscreet(a, turn, room, now);
    case Closed(_) => TablesStayDiscreet(a, turn, room, now);
    case Follow(log, pipe) => FollowStaysDiscreet(a, room, now, log, pipe);
    case Unfollow(log) => UnfollowStaysDiscreet(a, room, now, log);
    case Mint(art) => MintStaysDiscreet(a, room, now, art);
    case EvictBlob(blob) => StoreDoesNotMatter(a, a.db, a.cursors, a.blobs - {blob});
    case GcClaims(cutoff) => StoreDoesNotMatter(a, Purged(a.db, cutoff), a.cursors, a.blobs);
    case GcBlobs => StoreDoesNotMatter(a, a.db, a.cursors, Takes(a, room, now, GcBlobs).blobs);
    case SyncNow => SoilAllStaysDiscreet(a, Ordered(a.pipes.Keys));
    case Receive(pipe, msg) => ReceiveStaysDiscreet(a, room, now, pipe, msg);
  }

  /** What happens in one pass of the loop, and when. */
  datatype Pass = Pass(turn: Turn, now: int)

  /** The loop: one turn, then sessions wherever there is appetite. */
  ghost function Runs(a: Actor, room: Room, passes: seq<Pass>): (a': Actor)
    requires Discreet(a)
    ensures SameBearer(a', a)
    decreases |passes|
  {
    if passes == [] then a
    else
      TurnStaysDiscreet(a, room, passes[0].now, passes[0].turn);
      var a1 := Takes(a, room, passes[0].now, passes[0].turn);
      PumpStaysDiscreet(a1, room, passes[0].now);
      Runs(Pump(a1, room, passes[0].now), room, passes[1..])
  }

  lemma PumpStaysDiscreet(a: Actor, room: Room, now: int)
    requires Discreet(a)
    ensures Discreet(Pump(a, room, now))
  {
    hide StartAll;
    StartAllStaysDiscreet(a, room, now, Ordered(set id | id in a.pipes && a.pipes[id].dirty
      && a.pipes[id].session.None?));
  }

  lemma {:induction false} RunsStayDiscreet(a: Actor, room: Room, passes: seq<Pass>)
    requires Discreet(a)
    ensures Discreet(Runs(a, room, passes))
    decreases |passes|
  {
    hide SessionsAtRest, DiscreetPipes, DiscreetSent, Takes, Pump;
    if passes != [] {
      TurnStaysDiscreet(a, room, passes[0].now, passes[0].turn);
      var a1 := Takes(a, room, passes[0].now, passes[0].turn);
      PumpStaysDiscreet(a1, room, passes[0].now);
      RunsStayDiscreet(Pump(a1, room, passes[0].now), room, passes[1..]);
    }
  }

  /** A peer as it is composed: a store, a pen or none, and no pipes yet. */
  predicate Composed(a: Actor) { a.pipes == map[] && a.follows == map[] && a.outbox == [] && a.serve.Owned? }

  /**
   Whatever its store holds, whoever connects, whatever they ask or push and
   whichever sends fail: every event this peer ever sends is of its own log.
   */
  lemma OnlyYourLogLeaves(a: Actor, room: Room, passes: seq<Pass>, i: nat, k: nat)
    requires Composed(a) && i < |Runs(a, room, passes).outbox|
    requires k < |Carried(Runs(a, room, passes).outbox[i].msg)|
    ensures a.me.Some? && HeaderLog(Carried(Runs(a, room, passes).outbox[i].msg)[k]) == a.me
  {
    RunsStayDiscreet(a, room, passes);
    hide Runs, SessionsAtRest, DiscreetPipes, Carried;
    var a' := Runs(a, room, passes);
    assert OwnMsg(a'.outbox[i].msg, a'.me);
    assert HeaderLog(Carried(a'.outbox[i].msg)[k]).Some?;
  }

  /** In every run what is followed is followed through pipes that are up. */
  lemma {:induction false} FollowsStayLive(a: Actor, room: Room, passes: seq<Pass>)
    requires Discreet(a) && FollowsLive(a)
    ensures FollowsLive(Runs(a, room, passes))
    decreases |passes|
  {
    hide FollowsLive, DiscreetPipes, DiscreetSent, Takes, Pump;
    if passes != [] {
      TurnStaysDiscreet(a, room, passes[0].now, passes[0].turn);
      TurnKeepsFollowsLive(a, room, passes[0].now, passes[0].turn);
      var a1 := Takes(a, room, passes[0].now, passes[0].turn);
      PumpStaysDiscreet(a1, room, passes[0].now);
      SameTablesLive(Pump(a1, room, passes[0].now), a1);
      FollowsStayLive(Pump(a1, room, passes[0].now), room, passes[1..]);
    }
  }

  lemma SameTablesLive(a': Actor, a: Actor)
    requires FollowsLive(a) && SameTables(a', a)
    ensures FollowsLive(a')
  {
  }
}
