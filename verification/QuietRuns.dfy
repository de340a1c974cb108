/**
 When a run is careful, as a caller can see to it: sessions pull what they push, and
 nothing we lack lands at the peer while a reconciliation of its log is past its hash
 list. Our own publishes, other logs, rebirths and frames may come at any time.
 */
module QuietRuns {
  import opened Bytes
  import opened Rows
  import opened Ingest
  import opened Converge
  import opened Indexes
  import opened Health
  import opened Sorted
  import opened Queries
  import opened Protocol
  import opened Sessions
  import opened Shapes
  import opened Push
  import opened Links
  import opened Trailing
  import opened Settling
  import opened Windows
  import Convergence

  predicate AllPull(plans: seq<Plan>) { forall i | 0 <= i < |plans| :: plans[i].pull }

  /** A reconciliation of this log is past its hash list. */
  ghost predicate WindowOpen(k: Link, log: LogId) {
    && Asking(k) && PlanOf(k.session.value).log == log
    && (Reconciles(k.session.value) || (k.session.value.phase.Reconciling? && k.reply.Some?))
  }

  ghost predicate Quiet(k: Link, step: Step) {
    match step
    case Begin(_, pull, push) => forall log | log in push :: log in pull
    case Theirs(a, _) => WindowOpen(k, a.log) ==> a.id in k.us.claims
    case _ => true
  }

  ghost predicate QuietRun(w: World, peer: string, k: Link, steps: seq<Step>)
    requires CanRun(w, peer, k, steps)
    decreases |steps|
  {
    steps == [] || (Quiet(k, steps[0]) && QuietRun(w, peer, Next(w, peer, k, steps[0]), steps[1..]))
  }

  /** The peer's log gained only claims we hold. */
  ghost predicate GainedOurs(them: State, them': State, log: LogId, us: State) {
    forall id | InLog(them', log, id) :: InLog(them, log, id) || id in us.claims
  }

  /** What the peer gained since it listed its hashes is ours. */
  ghost predicate Undisturbed(k: Link, v: Shown) {
    k.session.Some? ==>
      && AllPull(k.session.value.plans)
      && (forall log | WindowOpen(k, log) && OnCurrent(k.session.value, k.inst) ::
         GainedOurs(v.listed, k.them, log, k.us))
      && (Remembering(k) && Open(k.session.value) ==>
         GainedOurs(v.listed, v.closing, PlanOf(k.session.value).log, k.us))
  }

  // ── What the peer gains ──────────────────────────────────────────────

  lemma IngestGains(w: World, s: State, a: Artifact, now: int, log: LogId, us: State)
    requires Healthy(w, s) && Genuine(w, a) && (a.log == log ==> a.id in us.claims)
    ensures GainedOurs(s, Ingested(s, a, now), log, us)
  {
    hide Ingested, WellKept, Explained, Indexed, Dense;
    Absorb(w, s, a, now);
    var s' := Ingested(s, a, now);
    forall id | InLog(s', log, id)
      ensures InLog(s, log, id) || id in us.claims
    {
      assert s'.claims[id].art.log == w(id).log;
      assert id in s.claims ==> s.claims[id].art.log == w(id).log;
    }
  }

  lemma {:induction false} AcceptAllGains(w: World, s: State, events: seq<Event>, now: int, log: LogId, us: State)
    requires Healthy(w, s) && AllChecked(w, events) && forall i | 0 <= i < |events| :: EventId(events[i]) in us.claims
    ensures GainedOurs(s, AcceptAll(s, events, now), log, us)
    decreases |events|
  {
    hide Healthy, Genuine, Ingested, InLog;
    if events != [] {
      var s1 := Ingested(s, events[0].art, now);
      assert EventId(events[0]) in us.claims;
      IngestGains(w, s, events[0].art, now, log, us);
      IngestGrows(w, s, events[0].art, now);
      assert forall i | 0 <= i < |events[1..]| :: events[1..][i] == events[i + 1];
      AcceptAllGains(w, s1, events[1..], now, log, us);
    }
  }

  lemma ServedGains(w: World, n: Session, us: State, them: State, g: InstanceId, now: int, log: LogId)
    requires Healthy(w, them) && Valid(n) && !n.phase.Starting? && !n.phase.Finished? && InHand(w, n, us, them, g)
    ensures GainedOurs(them, Served(them, now, NextRequest(n).value), log, us)
  {
    hide Healthy, Trails, Arrivals, Genuine, InLog;
    if n.phase.Publishing? {
      var batch := n.pushBatch[n.pushSent..];
      assert OurRows(w, batch, us);
      assert forall i | 0 <= i < |Pending(n)| :: Pending(n)[i] == batch[i];
      AcceptAllGains(w, them, Wrap(Pending(n)), now, log, us);
    }
  }

  lemma GainsAdd(listed: State, them: State, them': State, log: LogId, us: State, us': State)
    requires GainedOurs(listed, them, log, us) && GainedOurs(them, them', log, us') && us.claims.Keys <= us'.claims.Keys
    ensures GainedOurs(listed, them', log, us')
  {
    hide InLog;
  }

  lemma GainedNothing(them: State, log: LogId, us: State)
    ensures GainedOurs(them, them, log, us)
  {
  }

  // ── The steps ────────────────────────────────────────────────────────

  /** Growth on our side, and at the peer of claims of ours where a window is open. */
  lemma GrowthIsUndisturbed(k: Link, us': State, them': State, v: Shown)
    requires Undisturbed(k, v) && k.us.claims.Keys <= us'.claims.Keys
    requires forall log | WindowOpen(k, log) :: GainedOurs(k.them, them', log, us')
    ensures Undisturbed(k.(us := us', them := them'), v)
  {
    hide AllPull, InLog, Reconciles, Valid;
    var k' := k.(us := us', them := them');
    if k.session.Some? {
      forall log | WindowOpen(k', log) && OnCurrent(k.session.value, k.inst)
        ensures GainedOurs(v.listed, them', log, us')
      {
        assert WindowOpen(k, log);
        GainsAdd(v.listed, k.them, them', log, k.us, us');
      }
    }
  }

  lemma OursUndisturbed(k: Link, us': State, v: Shown)
    requires Undisturbed(k, v) && k.us.claims.Keys <= us'.claims.Keys
    ensures Undisturbed(k.(us := us'), v)
  {
    hide Undisturbed, GainedOurs;
    forall log
      ensures GainedOurs(k.them, k.them, log, us')
    {
      GainedNothing(k.them, log, us');
    }
    GrowthIsUndisturbed(k, us', k.them, v);
  }

  lemma TheirsUndisturbed(w: World, k: Link, a: Artifact, now: int, v: Shown)
    requires Undisturbed(k, v) && Healthy(w, k.them) && Genuine(w, a) && Quiet(k, Theirs(a, now))
    ensures Undisturbed(k.(them := Ingested(k.them, a, now)), v)
  {
    hide Undisturbed, Healthy, Genuine, Ingested, GainedOurs, WindowOpen;
    forall log | WindowOpen(k, log)
      ensures GainedOurs(k.them, Ingested(k.them, a, now), log, k.us)
    {
      IngestGains(w, k.them, a, now, log, k.us);
    }
    GrowthIsUndisturbed(k, k.us, Ingested(k.them, a, now), v);
  }

  lemma AskUndisturbed(w: World, peer: string, k: Link, now: int, v: Shown)
    requires Undisturbed(k, v) && Steady(w, peer, k, v) && Asking(k)
    ensures Undisturbed(Answering(k, now), Noted(w, v, k, Ask(now)))
  {
    var n := k.session.value;
    var k' := Answering(k, now);
    AskingIsAhead(k);
    var g := FreshInstance(k.used);
    assert g !in k.used && InHand(w, n, k.us, k.them, g);
    assert Healthy(w, k.them);
    var log := PlanOf(n).log;
    ServedGains(w, n, k.us, k.them, g, now, log);
    if n.phase.Reconciling? {
      GainedNothing(k.them, log, k.us);
    } else if Reconciles(n) && OnCurrent(n, k.inst) {
      assert WindowOpen(k, log);
      GainsAdd(v.listed, k.them, k'.them, log, k.us, k.us);
    }
    hide Steady, AllPull, GainedOurs, InHand, Healthy, Served, Valid;
  }

  /** A reconciliation stays on its log and on its incarnation until it is done. */
  lemma WindowStays(l: Local, r: Response)
    requires InProgress(l) && Feed(l, r).Some? && Reconciles(Feed(l, r).value.session)
    ensures var n, n' := l.session, Feed(l, r).value.session;
            && (n.phase.Reconciling? || (Reconciles(n) && !n.phase.Resettling?))
            && SamePlan(n', n) && n'.cursor.instance == n.cursor.instance
  {
    var n := l.session;
    OpenInProgress(l);
    if n.phase.Reconciling? {
      hide SortIds, WantSet, OfferSet, Artifacts, HashMap, Valid;
    } else {
      if n.phase.Resettling? || !Reconciles(n) {
        FeedOpensNone(l, r);
      }
      if n.phase.Fetching? {
        ClaimsShape(l, r.events);
      } else if n.phase.Publishing? {
        AckShape(l, r.stored, r.rejected);
      }
      hide FeedFirstStatus, FeedPulled, FeedAck, SettleWith, FeedClaims, FeedResettle, TakeAll, Valid;
    }
  }

  lemma ContactAndSettleKeepStore(l: Local, count: nat, fp: Print, instance: InstanceId)
    requires Open(l.session)
    ensures SettleWith(l, count, fp, instance).db == l.db
    ensures FeedFirstStatus(l, count, fp, instance).db == l.db
  {
    hide BeginPrimaryPush, FinishLog;
  }

  /** Consuming an answer only adds claims. */
  lemma FeedGrows(w: World, l: Local, r: Response)
    requires Healthy(w, l.db) && InProgress(l) && Feed(l, r).Some?
    requires (l.session.phase.Pulling? || l.session.phase.Fetching?) && r.Events? ==> AllChecked(w, r.events)
    ensures l.db.claims.Keys <= Feed(l, r).value.db.claims.Keys
  {
    var n := l.session;
    OpenInProgress(l);
    hide Healthy, AllChecked, FeedFirstStatus, FeedPulled, FeedAck, SettleWith, FeedClaims, TakeAll, Arrivals,
         BeginPrimaryPush, Pulled,
         AfterFetching, FinishLog;
    match n.phase
    case FirstStatus => ContactAndSettleKeepStore(l, r.count, r.fp, r.instance);
    case Settling => ContactAndSettleKeepStore(l, r.count, r.fp, r.instance);
    case Pulling =>
      if r.events == [] {
        EmptyPull(l);
      } else {
        PulledShape(l, r.events);
        TakeAllGrows(w, l, OfLog(PlanOf(n).log), r.events);
      }
    case Publishing => AckShape(l, r.stored, r.rejected);
    case Fetching =>
      ClaimsShape(l, r.events);
      TakeAllGrows(w, l, Asked(n.wantIds[n.wantSent..Chunk(n.wantSent, |n.wantIds|)]), r.events);
    case _ =>
  }

  lemma AnswerIsChecked(w: World, n: Session, r: Response, us: State, them: State, used: set<InstanceId>)
    requires Valid(n) && !n.phase.Starting? && Unnamed(w, n, Some(r), us, them, used)
    ensures (n.phase.Pulling? || n.phase.Fetching?) && r.Events? ==> AllChecked(w, r.events)
  {
    hide InHand, AllChecked, AllOfLog;
    var g := FreshInstance(used);
    assert g !in used;
  }

  lemma LandUndisturbed(w: World, peer: string, k: Link, v: Shown)
    requires Undisturbed(k, v) && Steady(w, peer, k, v) && Asking(k) && k.reply.Some?
    ensures Undisturbed(Landed(k), v)
  {
    var l := LocalOf(k);
    var r := k.reply.value;
    if Feed(l, r).Some? {
      var k' := Landed(k);
      AnswerIsChecked(w, l.session, r, k.us, k.them, k.used);
      assert Healthy(w, k.us);
      FeedGrows(w, l, r);
      Convergence.FeedKeepsPlans(l, r);
      hide Steady, Feed, GainedOurs, AllPull;
      forall log | WindowOpen(k', log) && OnCurrent(k'.session.value, k'.inst)
        ensures GainedOurs(v.listed, k'.them, log, k'.us)
      {
        WindowStays(l, r);
        assert WindowOpen(k, log);
        GainedNothing(k.them, log, k'.us);
        GainsAdd(v.listed, k.them, k.them, log, k.us, k'.us);
      }
    }
  }

  lemma RebirthUndisturbed(peer: string, k: Link, store: State, inst: InstanceId, v: Shown)
    requires Undisturbed(k, v) && Known(peer, k) && inst !in k.used
    ensures Undisturbed(k.(them := store, inst := inst, used := k.used + {inst}), v)
  {
    hide AllPull, GainedOurs, KnownRows, KnownReply, InProgress;
  }

  lemma NewSessionAllPull(peer: string, now: int, pull: seq<LogId>, push: seq<LogId>)
    requires forall log | log in push :: log in pull
    ensures AllPull(NewSession(peer, now, pull, push).plans)
  {
    PullPlansPull([], pull);
    assert forall log | log in push :: PlansLog(PullPlans([], pull), log);
    PushPlansPull(PullPlans([], pull), push);
  }

  lemma {:induction false} PullPlansPull(plans: seq<Plan>, pull: seq<LogId>)
    requires AllPull(plans)
    ensures AllPull(PullPlans(plans, pull))
    ensures forall log :: PlansLog(PullPlans(plans, pull), log) <==> PlansLog(plans, log) || log in pull
    decreases |pull|
  {
    if pull != [] {
      var next := if PlansLog(plans, pull[0]) then plans else plans + [Plan(pull[0], true, false)];
      PullPlansPull(next, pull[1..]);
      forall log
        ensures PlansLog(next, log) <==> PlansLog(plans, log) || log == pull[0]
      {
        if PlansLog(plans, log) {
          var i :| 0 <= i < |plans| && plans[i].log == log;
          assert next[i].log == log;
        }
        if log == pull[0] && next != plans {
          assert next[|plans|].log == log;
        }
      }
      assert forall log :: log in pull <==> log == pull[0] || log in pull[1..];
    }
  }

  lemma {:induction false} MarkPushPulls(plans: seq<Plan>, log: LogId)
    requires AllPull(plans) && PlansLog(plans, log)
    ensures var ps := MarkPush(plans, log);
            AllPull(ps) && |ps| == |plans| && forall i | 0 <= i < |plans| :: ps[i].log == plans[i].log
  {
    var i :| 0 <= i < |plans| && plans[i].log == log;
    if plans[0].log != log {
      assert plans[1..][i - 1].log == log;
      MarkPushPulls(plans[1..], log);
    }
  }

  lemma {:induction false} PushPlansPull(plans: seq<Plan>, push: seq<LogId>)
    requires AllPull(plans) && forall log | log in push :: PlansLog(plans, log)
    ensures AllPull(PushPlans(plans, push))
    decreases |push|
  {
    hide MarkPush;
    if push != [] {
      var next := MarkPush(plans, push[0]);
      assert push[0] in push;
      MarkPushPulls(plans, push[0]);
      forall log | log in push[1..]
        ensures PlansLog(next, log)
      {
        assert log in push;
        var i :| 0 <= i < |plans| && plans[i].log == log;
        assert next[i].log == log;
      }
      PushPlansPull(next, push[1..]);
    }
  }

  lemma BeginUndisturbed(peer: string, k: Link, now: int, pull: seq<LogId>, push: seq<LogId>, v: Shown)
    requires forall log | log in push :: log in pull
    ensures Undisturbed(k.(session := Some(Opened(NewSession(peer, now, pull, push))), reply := None), v)
  {
    NewSessionAllPull(peer, now, pull, push);
    hide AllPull, GainedOurs, PullPlans, PushPlans;
  }

  lemma HearUndisturbed(w: World, peer: string, k: Link, f: Notify, now: int, v: Shown)
    requires Undisturbed(k, v) && Steady(w, peer, k, v) && f in k.frames
    ensures var r := ApplyNotify(k.us, k.cursors, peer, now, f);
            Undisturbed(k.(us := r.db, cursors := r.cursors), v)
  {
    var c := OnIncarnation(CursorOf(k.cursors, peer, f.log), f.instance);
    var r := ApplyNotify(k.us, k.cursors, peer, now, f);
    assert AllChecked(w, f.events) && Healthy(w, k.us);
    hide Healthy, AllChecked, Steady, Grows, TakeAllPushed, Judged, Undisturbed;
    TakeAllPushedGrows(w, Intake(k.us, c.settled, NO_NOTICE), f.log, f.events, now);
    GrowsMeansMore(k.us, r.db);
    OursUndisturbed(k, r.db, v);
    RowsAside(k.(us := r.db), r.cursors, k.frames, v);
  }

  lemma RowsAside(k: Link, cursors: Cursors, frames: set<Notify>, v: Shown)
    requires Undisturbed(k, v)
    ensures Undisturbed(k.(cursors := cursors, frames := frames), v)
  {
    hide AllPull, GainedOurs, Reconciles, Valid;
    var k' := k.(cursors := cursors, frames := frames);
    assert forall log :: WindowOpen(k', log) <==> WindowOpen(k, log);
  }

  lemma OursGrow(w: World, k: Link, a: Artifact, now: int)
    requires Healthy(w, k.us) && Genuine(w, a)
    ensures k.us.claims.Keys <= Ingested(k.us, a, now).claims.Keys
  {
    hide Healthy, Genuine, Ingested, Arrivals;
    IngestGrows(w, k.us, a, now);
  }

  lemma StepUndisturbed(w: World, peer: string, k: Link, step: Step, v: Shown)
    requires Undisturbed(k, v) && Steady(w, peer, k, v) && Enabled(w, k, step) && Quiet(k, step)
    ensures Undisturbed(Next(w, peer, k, step), Noted(w, v, k, step))
  {
    assert Healthy(w, k.us) && Healthy(w, k.them) && Known(peer, k);
    hide Undisturbed, Steady, Healthy, Known, Ingested, Landed, Answering, Genuine, ApplyNotify, NotifyFor, AllChecked,
         WindowOpen;
    match step
    case Begin(now, pull, push) => BeginUndisturbed(peer, k, now, pull, push, v);
    case Abandon => AbandonUndisturbed(k, v);
    case Ask(now) => AskUndisturbed(w, peer, k, now, v);
    case Land => LandUndisturbed(w, peer, k, v);
    case Ours(a, now) => OursGrow(w, k, a, now); OursUndisturbed(k, Ingested(k.us, a, now), v);
    case Theirs(a, now) => TheirsUndisturbed(w, k, a, now, v);
    case Rebirth(store, inst) => RebirthUndisturbed(peer, k, store, inst, v);
    case Fanout(log, events) => RowsAside(k, k.cursors, k.frames + {NotifyFor(k.them, k.inst, log, events)}, v);
    case Hear(f, now) => HearUndisturbed(w, peer, k, f, now, v);
  }

  lemma AbandonUndisturbed(k: Link, v: Shown)
    ensures Undisturbed(k.(session := None, reply := None), v)
  {
  }

  // ── Quiet runs are careful ───────────────────────────────────────────

  lemma UndisturbedIsCareful(k: Link, v: Shown, step: Step)
    requires Undisturbed(k, v)
    ensures Careful(k, v, step)
  {
    hide InLog;
    if step.Land? && Remembering(k) {
      RememberingLands(k);
      var plan := PlanOf(k.session.value);
      assert plan.pull;
      assert ArrivalsHeld(plan, v, k.us);
    }
  }

  lemma {:induction false} QuietRunIsCareful(w: World, peer: string, k: Link, steps: seq<Step>, v: Shown)
    requires Undisturbed(k, v) && Steady(w, peer, k, v) && CanRun(w, peer, k, steps) && QuietRun(w, peer, k, steps)
    ensures CarefulRun(w, peer, k, steps, v)
    decreases |steps|
  {
    hide Undisturbed, Steady, Enabled, Next, Noted, Careful, Quiet;
    if steps != [] {
      UndisturbedIsCareful(k, v, steps[0]);
      StepUndisturbed(w, peer, k, steps[0], v);
      StepSteady(w, peer, k, steps[0], v);
      QuietRunIsCareful(w, peer, Next(w, peer, k, steps[0]), steps[1..], Noted(w, v, k, steps[0]));
    }
  }

  /**
   From two stores that never met, every quiet run keeps every remembered fingerprint
   understood and every count behind the data, at every boundary.
   */
  lemma QuietIsSound(w: World, peer: string, k: Link, steps: seq<Step>)
    requires Fresh(w, k) && CanRun(w, peer, k, steps) && QuietRun(w, peer, k, steps)
    ensures SoundThroughout(w, peer, k, steps)
  {
    assert Undisturbed(k, UNSEEN);
    hide Fresh, Undisturbed, Steady, SoundThroughout, CarefulRun, QuietRun;
    FreshIsSteady(w, peer, k);
    QuietRunIsCareful(w, peer, k, steps, UNSEEN);
    CacheIsSoundExactly(w, peer, k, steps);
  }
}
