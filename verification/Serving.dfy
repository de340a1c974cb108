/**
 What a served log is answered with: exactly what the honest responder answers. So the
 convergence of sessions holds against an actor that serves the logs they plan.
 */
module Serving {
  import opened Bytes
  import opened Rows
  import opened Ingest
  import opened Converge
  import opened Indexes
  import opened Health
  import opened Sorted
  import opened Queries
  import opened Protocol
  import opened Sessions
  import opened Exchanges
  import opened Shapes
  import opened Convergence
  import opened Actors

  // ── One answer ───────────────────────────────────────────────────────

  /** The asked ids whose rows are held in a served log, in the order asked. */
  function ServedIds(a: Actor, ids: seq<ClaimHash>): seq<ClaimHash> {
    if ids == [] then []
    else
      (if ids[0] in a.db.claims && Serves(a, a.db.claims[ids[0]].art.log) then [ids[0]] else [])
      + ServedIds(a, ids[1..])
  }

  lemma {:induction false} RowsOfServedIds(a: Actor, ids: seq<ClaimHash>)
    ensures ServedRows(a, ids) == Artifacts(a.db, ServedIds(a, ids))
    ensures forall id :: id in ServedIds(a, ids) <==>
                         id in ids && id in a.db.claims && Serves(a, a.db.claims[id].art.log)
    ensures forall i | 0 <= i < |ServedIds(a, ids)| :: ServedIds(a, ids)[i] in a.db.claims
  {
    if ids != [] {
      RowsOfServedIds(a, ids[1..]);
      var rest, all := ServedIds(a, ids[1..]), ServedIds(a, ids);
      assert ids == [ids[0]] + ids[1..];
      if all != rest {
        assert all == [ids[0]] + rest && all[1..] == rest;
      }
    }
  }

  /** Status, since and hashes of a served log are answered as the honest responder does. */
  lemma ReadsAreHonest(a: Actor, now: int, r: Request, log: LogId)
    requires Serves(a, log) && (r == AskStatus(log) || r == AskHashes(log) || (r.AskSince? && r.log == log))
    ensures var s := RespondScoped(a, now, r);
            s.response == Respond(a.db, a.instance, now, map[], r) && s.db == a.db
  {
    hide ServeSince, LogHashes, Fingerprint, LogLen;
  }

  /** A since is answered from the first position past the cursor on, as many as are asked for and at most 1024. */
  lemma SinceIsClipped(a: Actor, now: int, log: LogId, have: nat, max: nat)
    requires Serves(a, log)
    ensures var all := ServeSince(a.db, log, have);
            var n := if |all| <= max && |all| <= 1024 then |all| else if max <= 1024 then max else 1024;
            RespondScoped(a, now, AskSince(log, have, max)).response == Response.Events(Wrap(all[..n]))
  {
    hide ServeSince;
  }

  /** Asked claims are answered with the row of each that is held in a served log, in order, and nothing else. */
  lemma ClaimsAreAnswered(a: Actor, now: int, ids: seq<ClaimHash>)
    ensures var s := RespondScoped(a, now, AskClaims(ids));
            && s.db == a.db && s.response.Events? && |s.response.events| == |ServedIds(a, ids)|
            && forall i | 0 <= i < |ServedIds(a, ids)| ::
                 ServedIds(a, ids)[i] in a.db.claims
                   && s.response.events[i] == Checked(a.db.claims[ServedIds(a, ids)[i]].art)
  {
    RowsOfServedIds(a, ids);
    hide ServedRows, Artifacts;
  }

  lemma {:induction false} ServedIdsAreAll(a: Actor, ids: seq<ClaimHash>)
    requires forall i | 0 <= i < |ids| && ids[i] in a.db.claims :: Serves(a, a.db.claims[ids[i]].art.log)
    ensures ServedRows(a, ids) == Artifacts(a.db, ids)
  {
    if ids != [] {
      assert forall i | 0 <= i < |ids[1..]| :: ids[1..][i] == ids[i + 1];
      ServedIdsAreAll(a, ids[1..]);
    }
  }

  lemma {:induction false} PushesAreTaken(a: Actor, i: Acceptance, events: seq<Event>, now: int)
    requires forall k | 0 <= k < |events| && HeaderLog(events[k]).Some? :: Accepts(a, HeaderLog(events[k]).value)
    ensures var i' := AcceptEach(a, i, events, now);
            var ack := AckOf(i.db, events, now);
            ack.Ack? && i'.db == AcceptAll(i.db, events, now)
            && i'.stored == i.stored + ack.stored && i'.rejected == i.rejected + ack.rejected
    decreases |events|
  {
    hide Ingested, ReportOf, Accepts;
    if events != [] {
      PushesAreTaken(a, AcceptOne(a, i, events[0], now), events[1..], now);
    }
  }

  /** A publish into logs that are accepted is taken and acknowledged as the honest responder does. */
  lemma PublishIsHonest(a: Actor, now: int, events: seq<Event>)
    requires forall k | 0 <= k < |events| && HeaderLog(events[k]).Some? :: Accepts(a, HeaderLog(events[k]).value)
    ensures var s := RespondScoped(a, now, Publish(events));
            s.response == Respond(a.db, a.instance, now, map[], Publish(events)) && s.db == AcceptAll(a.db, events, now)
  {
    PushesAreTaken(a, Acceptance(a.db, 0, 0, map[]), events, now);
    hide AcceptEach, AckOf, AcceptAll, NewsByLog;
  }

  // ── A session stays on its log ───────────────────────────────────────

  ghost predicate OfLogOnly(xs: seq<Artifact>, log: LogId) { forall i | 0 <= i < |xs| :: xs[i].log == log }

  ghost predicate IdsOfLog(w: World, ids: seq<ClaimHash>, log: LogId) {
    forall i | 0 <= i < |ids| :: w(ids[i]).log == log
  }

  /** Whatever a session would publish or fetch is of the log it is on. */
  ghost predicate OnItsLog(w: World, n: Session)
    requires Valid(n)
  {
    && (n.phase.Publishing? ==> OfLogOnly(n.pushBatch, PlanOf(n).log))
    && (n.phase.Fetching? ==> IdsOfLog(w, n.wantIds, PlanOf(n).log) && OfLogOnly(n.extraBatch, PlanOf(n).log))
  }

  lemma RowsOfLog(s: State, log: LogId, ids: seq<ClaimHash>)
    requires forall i | 0 <= i < |ids| :: InLog(s, log, ids[i])
    ensures OfLogOnly(Artifacts(s, ids), log)
  {
  }

  lemma PrimaryPushOnLog(w: World, n: Session, db: State)
    requires Open(n) && n.settleRounds <= 2
    ensures var n' := BeginPrimaryPush(n, db); Valid(n') && OnItsLog(w, n')
  {
    var log := PlanOf(n).log;
    var ids := SortIds(ByArrival(db), Past(db, log, n.cursor.push));
    SortIdsLists(ByArrival(db), Past(db, log, n.cursor.push));
    hide SortIds, Ascending;
    forall i | 0 <= i < |ids|
      ensures InLog(db, log, ids[i])
    {
      assert ids[i] in ids;
    }
    RowsOfLog(db, log, ids);
    hide Artifacts;
  }

  lemma SettleOnLog(w: World, l: Local, count: nat, fp: Print, inst: InstanceId)
    requires Open(l.session) && l.session.settleRounds <= 2
    ensures var n' := SettleWith(l, count, fp, inst).session; Valid(n') ==> OnItsLog(w, n')
  {
    var n := l.session;
    var n2 := Restarted(n, count, inst);
    SettleShape(l, count, fp, inst);
    FinishLogShape(n2);
    FinishLogShape(n);
    FinishLogShape(n.(cursor := n.cursor.(settled := Some(fp))));
    if n2.settleRounds <= 2 {
      PrimaryPushOnLog(w, n2, l.db);
    }
    hide SettleWith, BeginPrimaryPush, FinishLog, Fingerprint, Valid, OfLogOnly;
  }

  lemma FirstStatusOnLog(w: World, l: Local, count: nat, fp: Print, inst: InstanceId)
    requires InProgress(l) && l.session.phase.FirstStatus?
    ensures var n' := FeedFirstStatus(l, count, fp, inst).session; Valid(n') ==> OnItsLog(w, n')
  {
    OpenInProgress(l);
    FirstStatusFromContact(l, count, fp, inst);
    ContactedKeepsPlace(l, count, inst);
    hide FeedFirstStatus, Contacted, SettleWith, BeginPrimaryPush, OfLogOnly;
    var l1 := Contacted(l, count, inst);
    PrimaryPushKeeps(l1.session, l.db);
    PrimaryPushOnLog(w, l1.session, l.db);
    SettleOnLog(w, l1.(session := BeginPrimaryPush(l1.session, l.db)), count, fp, inst);
  }

  lemma PulledOnLog(w: World, l: Local, events: seq<Event>)
    requires InProgress(l) && l.session.phase.Pulling?
    ensures var n' := FeedPulled(l, events).session; Valid(n') ==> OnItsLog(w, n')
  {
    OpenInProgress(l);
    PrimaryPushOnLog(w, l.session, l.db);
    if events != [] {
      PulledShape(l, events);
      PrimaryPushOnLog(w, Pulled(l, events).session, Pulled(l, events).db);
    }
    hide BeginPrimaryPush, Pulled, OfLogOnly;
  }

  lemma AfterFetchingOnLog(w: World, n: Session)
    requires Open(n) && n.settleRounds <= 2 && OfLogOnly(n.extraBatch, PlanOf(n).log)
    ensures Valid(AfterFetching(n)) && OnItsLog(w, AfterFetching(n))
  {
  }

  lemma WantsOnLog(w: World, c: State, s: State, log: LogId)
    requires AllGenuine(w, s)
    ensures IdsOfLog(w, SortIds(ById(), WantSet(c, log, OurHashes(s, log))), log)
  {
    var wanted := WantSet(c, log, OurHashes(s, log));
    var wants := SortIds(ById(), wanted);
    SortIdsLists(ById(), wanted);
    hide SortIds, Ascending, Genuine;
    forall i | 0 <= i < |wants|
      ensures w(wants[i]).log == log
    {
      assert wants[i] in wants && wants[i] in wanted;
      GenuineRow(w, s, wants[i]);
    }
  }

  lemma OffersOnLog(c: State, log: LogId, theirs: map<ClaimHash, bool>)
    ensures OfLogOnly(Artifacts(c, SortIds(ById(), OfferSet(c, log, theirs))), log)
  {
    var offered := OfferSet(c, log, theirs);
    var ids := SortIds(ById(), offered);
    SortIdsLists(ById(), offered);
    hide SortIds, Ascending;
    forall i | 0 <= i < |ids|
      ensures InLog(c, log, ids[i])
    {
      assert ids[i] in ids && ids[i] in offered;
    }
    RowsOfLog(c, log, ids);
  }

  lemma HashesOnLog(w: World, l: Local, s: State)
    requires InProgress(l) && l.session.phase.Reconciling? && Healthy(w, s)
    ensures var n' := Diffed(l.session, l.db, OurHashes(s, PlanOf(l.session).log)); Valid(n') ==> OnItsLog(w, n')
  {
    var n := l.session;
    var plan := PlanOf(n);
    OpenInProgress(l);
    assert AllGenuine(w, s);
    var theirs := OurHashes(s, plan.log);
    WantsOnLog(w, l.db, s, plan.log);
    OffersOnLog(l.db, plan.log, theirs);
    hide SortIds, WantSet, OfferSet, OurHashes, Artifacts, AfterFetching, Healthy, AllGenuine, OfLogOnly, IdsOfLog;
    var wants := if plan.pull then SortIds(ById(), WantSet(l.db, plan.log, theirs)) else [];
    var offers := if plan.push then Artifacts(l.db, SortIds(ById(), OfferSet(l.db, plan.log, theirs))) else [];
    NothingOnLog(plan.log);
    AfterFetchingOnLog(w, n.(wantIds := wants, wantSent := 0, extraBatch := offers));
  }

  lemma NothingOnLog(log: LogId)
    ensures OfLogOnly([], log)
  {
  }

  lemma GenuineRow(w: World, s: State, id: ClaimHash)
    requires AllGenuine(w, s) && id in s.claims
    ensures w(id).log == s.claims[id].art.log
  {
  }

  lemma ClaimsOnLog(w: World, l: Local, events: seq<Event>)
    requires InProgress(l) && l.session.phase.Fetching? && OnItsLog(w, l.session)
    ensures var n' := FeedClaims(l, events).session; Valid(n') ==> OnItsLog(w, n')
  {
    OpenInProgress(l);
    ClaimsShape(l, events);
    hide FeedClaims, TakeAll, AfterFetching, OfLogOnly, IdsOfLog;
    var n := l.session;
    var end := Chunk(n.wantSent, |n.wantIds|);
    var n1 := TakeAll(l, Asked(n.wantIds[n.wantSent..end]), events).session.(wantSent := end);
    AfterFetchingOnLog(w, n1);
  }

  lemma AckOnLog(w: World, l: Local, stored: nat, rejected: nat)
    requires InProgress(l) && l.session.phase.Publishing? && OnItsLog(w, l.session)
    ensures var n' := FeedAck(l, stored, rejected).session; Valid(n') ==> OnItsLog(w, n')
  {
    OpenInProgress(l);
    AckShape(l, stored, rejected);
    hide FeedAck, OfLogOnly;
  }

  /** One honest exchange keeps a session on its log. */
  lemma ExchangeOnLog(w: World, l: Local, s: State, inst: InstanceId, now: int)
    requires InProgress(l) && OnItsLog(w, l.session) && Healthy(w, l.db) && Healthy(w, s)
    ensures var n' := Exchanged(l, s, inst, now).local.session; Valid(n') && OnItsLog(w, n')
  {
    var n := l.session;
    var r := Convergence.Answer(l, s, inst, now);
    HonestAnswersFit(l, s, inst, now);
    ExchangedIsNearer(l, s, inst, now);
    hide Healthy, Valid, Nearer, FeedFirstStatus, FeedPulled, FeedAck, SettleWith, Diffed, FeedClaims, FeedResettle,
         ServeSince, LogHashes,
         Fingerprint, LogLen, Artifacts, OfLogOnly, IdsOfLog, HashMap;
    match n.phase
    case FirstStatus => FirstStatusOnLog(w, l, r.count, r.fp, r.instance);
    case Pulling => PulledOnLog(w, l, r.events);
    case Publishing => AcksAreAcks(s, NextRequest(n).value.events, now); AckOnLog(w, l, r.stored, r.rejected);
    case Settling => OpenInProgress(l); SettleOnLog(w, l, r.count, r.fp, r.instance);
    case Reconciling => TheirHashes(s, PlanOf(n).log); HashesOnLog(w, l, s);
    case Fetching => ClaimsOnLog(w, l, r.events);
    case Resettling => ResettleOnLog(w, l, r.fp, r.instance);
  }

  lemma ResettleOnLog(w: World, l: Local, fp: Print, inst: InstanceId)
    requires Open(l.session)
    ensures var n' := FeedResettle(l, fp, inst).session; Valid(n') ==> OnItsLog(w, n')
  {
    FinishLogShape(l.session.(cursor := l.session.cursor.(settled := Some(fp))));
    FinishLogShape(l.session);
    hide FinishLog;
  }

  // ── A session against an actor ───────────────────────────────────────

  ghost predicate ServesPlans(a: Actor, plans: seq<Plan>) { forall i | 0 <= i < |plans| :: Serves(a, plans[i].log) }

  /** An actor that serves the plan answers a session exactly as the honest responder would. */
  lemma AnswersAreHonest(w: World, l: Local, a: Actor, now: int)
    requires InProgress(l) && OnItsLog(w, l.session) && Healthy(w, a.db) && ServesPlans(a, l.session.plans)
    ensures var r := NextRequest(l.session).value;
            var s := RespondScoped(a, now, r);
            s.response == Respond(a.db, a.instance, now, map[], r) && s.db == Protocol.Served(a.db, now, r)
  {
    var n := l.session;
    OpenInProgress(l);
    var log := PlanOf(n).log;
    var r := NextRequest(n).value;
    assert Serves(a, log) && Accepts(a, log);
    assert AllGenuine(w, a.db);
    hide Healthy, AcceptAll, AckOf, RespondScoped, ServeSince, LogHashes, Fingerprint, LogLen, Accepts, Genuine;
    if n.phase.Publishing? {
      assert forall k | 0 <= k < |r.events| :: r.events[k] == Checked(n.pushBatch[n.pushSent + k]);
      PublishIsHonest(a, now, r.events);
    } else if n.phase.Fetching? {
      forall i | 0 <= i < |r.ids| && r.ids[i] in a.db.claims
        ensures Serves(a, a.db.claims[r.ids[i]].art.log)
      {
        assert r.ids[i] == n.wantIds[n.wantSent + i];
        GenuineRow(w, a.db, r.ids[i]);
      }
      ServedIdsAreAll(a, r.ids);
      ClaimsAreServedRows(a, now, r.ids);
    } else {
      ReadsAreHonest(a, now, r, log);
    }
  }

  lemma ClaimsAreServedRows(a: Actor, now: int, ids: seq<ClaimHash>)
    ensures var s := RespondScoped(a, now, AskClaims(ids));
            s.response == Response.Events(Wrap(ServedRows(a, ids))) && s.db == a.db
  {
  }

  datatype Meeting = Meeting(local: Local, actor: Actor)

  /** One request, the actor's answer, and both sides' new states. */
  ghost function Met(w: World, l: Local, a: Actor, now: int): Meeting
    requires InProgress(l) && OnItsLog(w, l.session) && Healthy(w, a.db) && ServesPlans(a, l.session.plans)
  {
    AnswersAreHonest(w, l, a, now);
    HonestAnswersFit(l, a.db, a.instance, now);
    var s := RespondScoped(a, now, NextRequest(l.session).value);
    Meeting(Feed(l, s.response).value, a.(db := s.db, blobs := s.blobs))
  }

  lemma MetIsExchanged(w: World, apart: set<ClaimHash>, l: Local, a: Actor, now: int)
    requires InProgress(l) && OnItsLog(w, l.session) && ServesPlans(a, l.session.plans)
    requires OnTheWay(w, apart, l, a.db, a.instance)
    ensures Healthy(w, a.db)
    ensures var m := Met(w, l, a, now);
            var next := Exchanged(l, a.db, a.instance, now);
            && m.local == next.local && m.actor.db == next.remote && SameBearer(m.actor, a)
            && OnTheWay(w, apart, m.local, m.actor.db, a.instance)
            && OnItsLog(w, m.local.session) && ServesPlans(m.actor, m.local.session.plans)
            && Nearer(m.local.session, l.session)
  {
    WayIsProper(w, apart, l, a.db, a.instance);
    assert Healthy(w, l.db) && Healthy(w, a.db);
    hide Healthy, OnTheWay, OnItsLog, Feed, Respond, RespondScoped, Protocol.Served, Valid, Nearer, NextRequest,
         ProperBut;
    AnswersAreHonest(w, l, a, now);
    ExchangedIsNearer(l, a.db, a.instance, now);
    ExchangeOnLog(w, l, a.db, a.instance, now);
    ExchangeKeeps(w, apart, l, a.db, a.instance, now);
    ExchangeKeepsPlans(l, a.db, a.instance, now);
  }

  /** A whole session against an actor that nobody else is changing. */
  ghost function DriveServed(w: World, apart: set<ClaimHash>, l: Local, a: Actor, now: int): Meeting
    requires OnTheWay(w, apart, l, a.db, a.instance) && OnItsLog(w, l.session) && ServesPlans(a, l.session.plans)
    decreases LogsLeft(l.session), 3 - l.session.settleRounds, PhaseRank(l.session), Items(l.session)
  {
    if l.session.phase.Finished? then Meeting(l, a)
    else
      MetIsExchanged(w, apart, l, a, now);
      var m := Met(w, l, a, now);
      DriveServed(w, apart, m.local, m.actor, now)
  }

  lemma {:induction false} DriveServedIsHonest(w: World, apart: set<ClaimHash>, l: Local, a: Actor, now: int)
    requires OnTheWay(w, apart, l, a.db, a.instance) && OnItsLog(w, l.session) && ServesPlans(a, l.session.plans)
    ensures var m := DriveServed(w, apart, l, a, now);
            var end := DriveHonest(l, a.db, a.instance, now);
            m.local == end.local && m.actor.db == end.remote
    decreases LogsLeft(l.session), 3 - l.session.settleRounds, PhaseRank(l.session), Items(l.session)
  {
    WayIsValid(w, apart, l, a.db, a.instance);
    hide OnTheWay, OnItsLog, Met, Exchanged, ServesPlans;
    if !l.session.phase.Finished? {
      MetIsExchanged(w, apart, l, a, now);
      MetIsNearer(w, apart, l, a, now);
      var m := Met(w, l, a, now);
      DriveServedIsHonest(w, apart, m.local, m.actor, now);
    }
  }

  lemma MetIsNearer(w: World, apart: set<ClaimHash>, l: Local, a: Actor, now: int)
    requires InProgress(l) && OnItsLog(w, l.session) && ServesPlans(a, l.session.plans)
    requires OnTheWay(w, apart, l, a.db, a.instance)
    ensures Healthy(w, a.db)
    ensures Valid(Met(w, l, a, now).local.session) && Nearer(Met(w, l, a, now).local.session, l.session)
  {
    MetIsExchanged(w, apart, l, a, now);
    hide Met, Healthy, Nearer;
  }

  /**
   An actor that serves the planned logs, whatever else it holds and follows: when the
   session completes, a log it pulled is not lacking here and a log it pushed not there.
   */
  lemma ServedSessionClosesGaps(w: World, apart: set<ClaimHash>, l: Local, a: Actor, now: int, plan: Plan)
    requires ProperBut(w, apart, l.db) && ProperBut(w, apart, a.db) && NeverSettled(l.cursors, l.session.peer)
    requires Valid(l.session) && l.session.phase.Starting? && DistinctLogs(l.session.plans)
    requires HasPlan(l.session.plans, plan) && ServesPlans(a, l.session.plans)
    ensures var l0 := l.(session := Opened(l.session));
            && OnTheWay(w, apart, l0, a.db, a.instance) && OnItsLog(w, l0.session)
            && var m := DriveServed(w, apart, l0, a, now);
               && (plan.pull ==> Gapless(m.local.db, m.actor.db, plan.log))
               && (plan.push ==> Gapless(m.actor.db, m.local.db, plan.log))
  {
    hide ProperBut, Gapless, AllOfferable, WantsCover, OffersCover, ServesPlans;
    var l0 := l.(session := Opened(l.session));
    OpenedServesPlans(l, a);
    assert OnTheWay(w, apart, l0, a.db, a.instance);
    SessionClosesGaps(w, apart, l, a.db, a.instance, now, plan);
    hide OnTheWay, DriveHonest, Valid;
    DriveServedIsHonest(w, apart, l0, a, now);
  }

  lemma OpenedServesPlans(l: Local, a: Actor)
    ensures Opened(l.session).plans == l.session.plans
  {
  }

  /** Against such an actor too, a log pulled and pushed ends as the same in both stores. */
  lemma ServedSessionConverges(w: World, l: Local, a: Actor, now: int, log: LogId)
    requires Proper(w, l.db) && Proper(w, a.db) && NeverSettled(l.cursors, l.session.peer)
    requires Valid(l.session) && l.session.phase.Starting? && DistinctLogs(l.session.plans)
    requires HasPlan(l.session.plans, Plan(log, true, true)) && ServesPlans(a, l.session.plans)
    ensures var l0 := l.(session := Opened(l.session));
            && OnTheWay(w, {}, l0, a.db, a.instance) && OnItsLog(w, l0.session)
            && var m := DriveServed(w, {}, l0, a, now);
               SameLog(m.local.db, m.actor.db, log)
  {
    hide Gapless, SameLog, OnTheWay, OnItsLog, DriveServed, DriveHonest, ServesPlans, ProperBut;
    ServedSessionClosesGaps(w, {}, l, a, now, Plan(log, true, true));
    OpenedServesPlans(l, a);
    DriveServedIsHonest(w, {}, l.(session := Opened(l.session)), a, now);
    SessionConverges(w, l, a.db, a.instance, now, log);
  }
}
