/**
 The session object: the same state machine with its scratch in fields, over a
 claim store and a cursor table that it changes in place.
 */
module SyncSessions {
  import opened Bytes
  import opened Rows
  import opened Ingest
  import opened Queries
  import opened Sorted
  import opened Protocol
  import opened ClaimStores
  import opened SyncStates
  import S = Sessions
  import Shapes

  class SyncSession {
    var peer: string
    var now: int
    var plans: seq<S.Plan>
    var idx: nat
    var phase: S.Phase
    var report: S.SyncReport
    var cursor: Cursor
    var peerCount: nat
    var settleRounds: nat
    var clean: bool
    var pushBatch: seq<Artifact>
    var pushSent: nat
    var cursorPrefix: bool
    var afterPush: S.AfterPush
    var wantIds: seq<ClaimHash>
    var wantSent: nat
    var extraBatch: seq<Artifact>

    /** The fields as a value. */
    function Value(): S.Session
      reads this
    {
      S.Session(peer, now, plans, idx, phase, report, cursor, peerCount, settleRounds, clean,
                pushBatch, pushSent, cursorPrefix, afterPush, wantIds, wantSent, extraBatch)
    }

    ghost function LocalOf(db: ClaimStore, state: MemorySyncState): S.Local
      reads this, db, db.storage, state
    {
      S.Local(Value(), db.View(), state.rows)
    }

    /** A session put down and taken up again. */
    constructor Resume(n: S.Session)
      ensures Value() == n
    {
      peer, now, plans, idx, phase, report := n.peer, n.now, n.plans, n.idx, n.phase, n.report;
      cursor, peerCount, settleRounds, clean := n.cursor, n.peerCount, n.settleRounds, n.clean;
      pushBatch, pushSent, cursorPrefix, afterPush := n.pushBatch, n.pushSent, n.cursorPrefix, n.afterPush;
      wantIds, wantSent, extraBatch := n.wantIds, n.wantSent, n.extraBatch;
    }

    /** One plan a log, pulled logs first, then each pushed log marked or added. */
    constructor (peer: string, now: int, pull: seq<LogId>, push: seq<LogId>)
      ensures Value() == S.NewSession(peer, now, pull, push)
    {
      this.peer, this.now, idx, phase, report := peer, now, 0, S.Starting, S.NO_PROGRESS;
      cursor, peerCount, settleRounds, clean := NO_CURSOR, 0, 0, true;
      pushBatch, pushSent, cursorPrefix, afterPush := [], 0, false, S.ToSettle;
      wantIds, wantSent, extraBatch := [], 0, [];
      plans := [];
      new;
      for i := 0 to |pull|
        invariant S.PullPlans(plans, pull[i..]) == S.PullPlans([], pull)
        invariant Value() == S.NewSession(peer, now, pull, push).(plans := plans)
      {
        assert pull[i..][0] == pull[i] && pull[i..][1..] == pull[i + 1..];
        var planned := HasPlan(pull[i]);
        if !planned {
          plans := plans + [S.Plan(pull[i], true, false)];
        }
      }
      ghost var pulled := plans;
      assert pull[|pull|..] == [];
      assert pulled == S.PullPlans([], pull);
      for i := 0 to |push|
        invariant S.PushPlans(plans, push[i..]) == S.PushPlans(pulled, push)
        invariant Value() == S.NewSession(peer, now, pull, push).(plans := plans)
      {
        assert push[i..][0] == push[i] && push[i..][1..] == push[i + 1..];
        MarkPush(push[i]);
      }
      assert push[|push|..] == [];
    }

    method HasPlan(log: LogId) returns (found: bool)
      ensures found <==> S.PlansLog(plans, log)
    {
      found := false;
      for i := 0 to |plans|
        invariant found <==> S.PlansLog(plans[..i], log)
      {
        assert plans[..i + 1] == plans[..i] + [plans[i]];
        SnocPlans(plans[..i], plans[i], log);
        if plans[i].log == log {
          found := true;
        }
      }
      assert plans[..|plans|] == plans;
    }

    static lemma SnocPlans(ps: seq<S.Plan>, p: S.Plan, log: LogId)
      ensures S.PlansLog(ps + [p], log) <==> S.PlansLog(ps, log) || p.log == log
    {
      if S.PlansLog(ps, log) {
        var i :| 0 <= i < |ps| && ps[i].log == log;
        assert (ps + [p])[i].log == log;
      }
      if p.log == log {
        assert (ps + [p])[|ps|].log == log;
      }
    }

    /** Mark the first plan for the log as pushing, or add one. */
    method MarkPush(log: LogId)
      modifies this`plans
      ensures plans == S.MarkPush(old(plans), log)
    {
      var i := 0;
      while i < |plans| && plans[i].log != log
        invariant i <= |plans| && S.MarkPush(plans, log) == plans[..i] + S.MarkPush(plans[i..], log)
      {
        assert plans[i..][1..] == plans[i + 1..];
        assert plans[..i + 1] == plans[..i] + [plans[i]];
        i := i + 1;
      }
      if i < |plans| {
        assert plans[i..][1..] == plans[i + 1..];
        assert plans[i := plans[i].(push := true)] == plans[..i] + [plans[i].(push := true)] + plans[i + 1..];
        plans := plans[i := plans[i].(push := true)];
      } else {
        assert plans[i..] == [];
        plans := plans + [S.Plan(log, false, true)];
      }
    }

    // ── Moving between logs and phases ─────────────────────────────────

    method EnterLog()
      modifies this
      ensures Value() == S.EnterLog(old(Value()))
    {
      if idx >= |plans| {
        phase := S.Finished;
        return;
      }
      ResetCursor();
      ResetWants();
      ResetPush();
      phase := S.FirstStatus;
    }

    method ResetCursor()
      modifies this`cursor, this`peerCount, this`settleRounds, this`clean
      ensures Value() == old(Value()).(cursor := NO_CURSOR, peerCount := 0, settleRounds := 0, clean := true)
    {
      cursor, peerCount, settleRounds, clean := NO_CURSOR, 0, 0, true;
    }

    method ResetWants()
      modifies this`wantIds, this`wantSent
      ensures Value() == old(Value()).(wantIds := [], wantSent := 0)
    {
      wantIds, wantSent := [], 0;
    }

    method ResetPush()
      modifies this`pushBatch, this`pushSent, this`cursorPrefix, this`extraBatch
      ensures Value() == old(Value()).(pushBatch := [], pushSent := 0, cursorPrefix := false, extraBatch := [])
    {
      pushBatch, pushSent, cursorPrefix, extraBatch := [], 0, false, [];
    }

    method FinishLog()
      modifies this
      ensures Value() == S.FinishLog(old(Value()))
    {
      idx := idx + 1;
      EnterLog();
    }

    method AfterPush()
      modifies this`phase
      ensures Value() == S.AfterPushing(old(Value()))
    {
      phase := if afterPush.ToSettle? then S.Settling else S.Resettling;
    }

    method Stage(batch: seq<Artifact>, prefix: bool, after: S.AfterPush)
      modifies this`pushBatch, this`pushSent, this`cursorPrefix, this`afterPush
      ensures Value() == old(Value()).(pushBatch := batch, pushSent := 0, cursorPrefix := prefix, afterPush := after)
    {
      pushBatch, pushSent, cursorPrefix, afterPush := batch, 0, prefix, after;
    }

    method BeginPush(batch: seq<Artifact>, prefix: bool, after: S.AfterPush)
      modifies this`pushBatch, this`pushSent, this`cursorPrefix, this`afterPush, this`phase
      ensures Value() == S.BeginPush(old(Value()), batch, prefix, after)
    {
      Stage(batch, prefix, after);
      if pushBatch != [] {
        phase := S.Publishing;
      } else {
        AfterPush();
      }
    }

    method BeginPrimaryPush(db: ClaimStore)
      requires db.Valid() && S.Open(Value())
      modifies this
      ensures Value() == S.BeginPrimaryPush(old(Value()), db.View())
    {
      var batch := [];
      if plans[idx].push {
        batch := db.ServeSince(plans[idx].log, cursor.push);
      }
      BeginPush(batch, true, S.ToSettle);
    }

    method SaveCursor(state: MemorySyncState)
      requires S.Open(Value())
      modifies state
      ensures state.rows == old(state.rows)[(peer, plans[idx].log) := cursor]
    {
      state.SetCursor(peer, plans[idx].log, cursor);
    }

    /** Keep the peer's fingerprint as the difference we settled for. */
    method Remember(state: MemorySyncState, fp: Print)
      requires S.Open(Value())
      modifies this`cursor, state
      ensures cursor == old(cursor).(settled := Some(fp))
      ensures state.rows == old(state.rows)[(peer, plans[idx].log) := cursor]
    {
      cursor := cursor.(settled := Some(fp));
      SaveCursor(state);
    }

    /** The peer's arrival order was reborn: start its row over. */
    method StartOver(state: MemorySyncState, count: nat, instance: InstanceId)
      requires S.Open(Value())
      modifies this`report, this`cursor, this`peerCount, this`settleRounds, state
      ensures Value() == S.Restarted(old(Value()), count, instance)
      ensures state.rows == old(state.rows)[(peer, plans[idx].log) := FreshCursor(instance)]
    {
      report := report.(cursorResets := report.cursorResets + 1);
      cursor, peerCount, settleRounds := FreshCursor(instance), count, settleRounds + 1;
      SaveCursor(state);
    }

    /** Take this log from the top, within bounds. */
    method Restart(db: ClaimStore, state: MemorySyncState, count: nat, fp: Print, instance: InstanceId)
      requires db.Valid() && S.Open(Value()) && cursor.instance != Some(instance) && settleRounds <= 2
      modifies this, state
      ensures LocalOf(db, state) == S.SettleWith(old(LocalOf(db, state)), count, fp, instance)
    {
      hide S.FinishLog, S.BeginPrimaryPush, S.SettleWith, S.Restarted;
      Shapes.SettleShape(LocalOf(db, state), count, fp, instance);
      RestartedMeans(Value(), count, instance);
      StartOver(state, count, instance);
      if settleRounds > 2 {
        FinishLog();
      } else if plans[idx].pull && count > 0 {
        phase := S.Pulling;
      } else {
        BeginPrimaryPush(db);
      }
    }

    static lemma RestartedMeans(n: S.Session, count: nat, instance: InstanceId)
      ensures var n' := S.Restarted(n, count, instance);
              n'.plans == n.plans && n'.idx == n.idx && n'.peer == n.peer && n'.settleRounds == n.settleRounds + 1
    {
    }

    /** The settle decision, from whichever status answer is freshest. */
    method SettleWith(db: ClaimStore, state: MemorySyncState, count: nat, fp: Print, instance: InstanceId)
      requires db.Valid() && S.Open(Value()) && settleRounds <= 2
      modifies this, state
      ensures LocalOf(db, state) == S.SettleWith(old(LocalOf(db, state)), count, fp, instance)
    {
      hide S.FinishLog, S.BeginPrimaryPush, S.Restarted, Queries.Fingerprint;
      if cursor.instance != Some(instance) {
        Restart(db, state, count, fp, instance);
        return;
      }
      if plans[idx].pull && count > cursor.pull && settleRounds < 2 {
        settleRounds := settleRounds + 1;
        peerCount := count;
        phase := S.Pulling;
        return;
      }
      Compare(db, state, fp);
    }

    /** Nothing more to pull: settled, a difference already understood, or one to reconcile. */
    method Compare(db: ClaimStore, state: MemorySyncState, fp: Print)
      requires db.Valid() && S.Open(Value())
      modifies this, state
      ensures var l := old(LocalOf(db, state));
              LocalOf(db, state) ==
              if fp == Queries.Fingerprint(l.db, S.PlanOf(l.session).log) then S.Settled(l, fp)
              else if l.session.cursor.settled == Some(fp) then l.(session := S.FinishLog(l.session))
              else l.(session := l.session.(
                     report := l.session.report.(reconciled := l.session.report.reconciled + 1),
                       phase := S.Reconciling))
    {
      hide S.FinishLog, Queries.Fingerprint;
      var ours := db.Fingerprint(plans[idx].log);
      if fp == ours {
        Remember(state, fp);
        FinishLog();
      } else if cursor.settled == Some(fp) {
        FinishLog();
      } else {
        report := report.(reconciled := report.reconciled + 1);
        phase := S.Reconciling;
      }
    }

    // ── Taking events in ───────────────────────────────────────────────

    /** Ingest one peer-served event; what fails its check is counted and skipped. */
    method TakeIn(db: ClaimStore, state: MemorySyncState, f: S.Filter, e: Event)
      requires db.Valid()
      modifies this`report, this`clean, db`poisoned, db.storage
      ensures db.Valid() && LocalOf(db, state) == S.TakeIn(old(LocalOf(db, state)), f, e)
    {
      hide Ingested, ReportOf;
      if !S.Admits(f, e) {
        report := report.(offPlan := report.offPlan + 1);
        clean := false;
        return;
      }
      var answer := db.IngestAt(e, now);
      if answer.None? {
        report := report.(rejectedEvents := report.rejectedEvents + 1);
        clean := false;
      } else {
        report := report.(
          pulled := report.pulled + (if answer.value.newlyStored.Some? then 1 else 0),
          healed := report.healed + answer.value.bodiesAttached);
      }
    }

    static lemma {:induction false} TakenSnoc(l: S.Local, f: S.Filter, events: seq<Event>, k: nat)
      requires k < |events|
      ensures S.TakeAll(l, f, events[..k + 1]) == S.TakeIn(S.TakeAll(l, f, events[..k]), f, events[k])
      decreases k
    {
      hide S.TakeIn;
      if k == 0 {
        assert events[..1][1..] == [];
      } else {
        assert events[..k + 1][1..] == events[1..][..k] && events[..k][1..] == events[1..][..k - 1];
        TakenSnoc(S.TakeIn(l, f, events[0]), f, events[1..], k - 1);
      }
    }

    method TakeAll(db: ClaimStore, state: MemorySyncState, f: S.Filter, events: seq<Event>)
      requires db.Valid()
      modifies this`report, this`clean, db`poisoned, db.storage
      ensures db.Valid() && LocalOf(db, state) == S.TakeAll(old(LocalOf(db, state)), f, events)
    {
      hide S.TakeIn;
      ghost var l := LocalOf(db, state);
      assert events[..0] == [];
      for k := 0 to |events|
        invariant db.Valid() && LocalOf(db, state) == S.TakeAll(l, f, events[..k])
      {
        TakenSnoc(l, f, events, k);
        TakeIn(db, state, f, events[k]);
      }
      assert events[..|events|] == events;
    }

    // ── The driver's two calls ─────────────────────────────────────────

    /** The outstanding request, the same until its answer is fed; None when the session is complete. */
    method NextRequest() returns (request: Option<Request>)
      requires S.Valid(Value())
      modifies this
      ensures Value() == S.Opened(old(Value())) && S.Valid(Value()) && !phase.Starting?
      ensures request == S.NextRequest(Value())
    {
      if phase.Starting? {
        EnterLog();
      }
      match phase {
        case Finished => request := None;
        case FirstStatus => request := Some(AskStatus(plans[idx].log));
        case Settling => request := Some(AskStatus(plans[idx].log));
        case Resettling => request := Some(AskStatus(plans[idx].log));
        case Pulling => request := Some(AskSince(plans[idx].log, cursor.pull, BATCH));
        case Publishing =>
          request := Some(Publish(Wrap(pushBatch[pushSent..S.Chunk(pushSent, |pushBatch|)])));
        case Reconciling => request := Some(AskHashes(plans[idx].log));
        case Fetching => request := Some(AskClaims(wantIds[wantSent..S.Chunk(wantSent, |wantIds|)]));
      }
    }

    /** Load the row, starting it over if the peer is not who it was. */
    method Contact(db: ClaimStore, state: MemorySyncState, count: nat, instance: InstanceId)
      requires S.Open(Value())
      modifies this`report, this`cursor, this`peerCount, state
      ensures LocalOf(db, state) == S.Contacted(old(LocalOf(db, state)), count, instance)
    {
      cursor, peerCount := CursorOf(state.rows, peer, plans[idx].log), count;
      if cursor.instance != Some(instance) {
        if cursor.instance.Some? {
          report := report.(cursorResets := report.cursorResets + 1);
        }
        cursor := FreshCursor(instance);
        SaveCursor(state);
      }
    }

    method FeedFirstStatus(db: ClaimStore, state: MemorySyncState, count: nat, fp: Print, instance: InstanceId)
      requires db.Valid() && S.Open(Value()) && settleRounds <= 2
      modifies this, state
      ensures LocalOf(db, state) == S.FeedFirstStatus(old(LocalOf(db, state)), count, fp, instance)
    {
      hide S.SettleWith, S.BeginPrimaryPush, S.FeedFirstStatus, S.Contacted;
      Shapes.FirstStatusFromContact(LocalOf(db, state), count, fp, instance);
      ContactedMeans(LocalOf(db, state), count, instance);
      Contact(db, state, count, instance);
      if plans[idx].pull && cursor.pull < count {
        phase := S.Pulling;
        return;
      }
      ghost var n := Value();
      BeginPrimaryPush(db);
      S.PrimaryPushKeeps(n, db.View());
      if phase.Settling? {
        SettleWith(db, state, count, fp, instance);
      }
    }

    static lemma ContactedMeans(l: S.Local, count: nat, instance: InstanceId)
      requires S.Open(l.session)
      ensures var l' := S.Contacted(l, count, instance);
              l'.session.plans == l.session.plans && l'.session.idx == l.session.idx
                && l'.session.settleRounds == l.session.settleRounds
              && l'.db == l.db
    {
    }

    method FeedPulled(db: ClaimStore, state: MemorySyncState, events: seq<Event>)
      requires db.Valid() && S.Open(Value())
      modifies this, state, db`poisoned, db.storage
      ensures db.Valid() && LocalOf(db, state) == S.FeedPulled(old(LocalOf(db, state)), events)
    {
      hide S.TakeAll, S.BeginPrimaryPush;
      if events == [] {
        BeginPrimaryPush(db);
        return;
      }
      ghost var l := LocalOf(db, state);
      S.TakeAllKeepsPlace(l, S.OfLog(plans[idx].log), events);
      TakeAll(db, state, S.OfLog(plans[idx].log), events);
      cursor := cursor.(pull := cursor.pull + |events|);
      SaveCursor(state);
      if cursor.pull >= peerCount {
        BeginPrimaryPush(db);
      }
    }

    method CountAck(stored: nat, rejected: nat)
      modifies this`report, this`clean
      ensures Value() == old(Value()).(
                report := report.(pushed := old(report).pushed + stored, pushRejected := old(report).pushRejected
                  + rejected),
                clean := old(clean) && rejected == 0)
      ensures report == old(report).(pushed := old(report).pushed + stored, pushRejected := old(report).pushRejected
              + rejected)
    {
      report := report.(pushed := report.pushed + stored, pushRejected := report.pushRejected + rejected);
      if rejected > 0 {
        clean := false;
      }
    }

    method FeedAck(db: ClaimStore, state: MemorySyncState, stored: nat, rejected: nat)
      requires S.Open(Value()) && pushSent <= |pushBatch|
      modifies this, state
      ensures LocalOf(db, state) == S.FeedAck(old(LocalOf(db, state)), stored, rejected)
    {
      CountAck(stored, rejected);
      var chunk := Min(BATCH, |pushBatch| - pushSent);
      pushSent := pushSent + chunk;
      if cursorPrefix {
        cursor := cursor.(push := cursor.push + chunk);
        SaveCursor(state);
      }
      if pushSent >= |pushBatch| {
        AfterPush();
      }
    }

    /** The hash list as a map; a repeated id keeps its last entry. */
    static method Collect(entries: seq<Entry>) returns (m: map<ClaimHash, bool>)
      ensures m == S.HashMap(entries)
    {
      m := map[];
      for i := 0 to |entries|
        invariant m == S.HashMap(entries[..i])
      {
        assert entries[..i + 1][..i] == entries[..i];
        m := m[entries[i].id := entries[i].hasBody];
      }
      assert entries[..|entries|] == entries;
    }

    method AfterFetching()
      modifies this
      ensures Value() == S.AfterFetching(old(Value()))
    {
      if extraBatch != [] {
        var batch := extraBatch;
        extraBatch := [];
        BeginPush(batch, false, S.ToResettle);
      } else {
        phase := S.Resettling;
      }
    }

    /** What they have that we lack or hold stripped, and nothing forbids. */
    method Wanted(db: ClaimStore, log: LogId, theirs: map<ClaimHash, bool>) returns (wants: seq<ClaimHash>)
      requires db.Valid()
      ensures wants == SortIds(ById(), S.WantSet(db.View(), log, theirs))
    {
      var ours := Ours(db, log);
      var redacted := db.storage.redactions;
      var ids := set id | id in theirs && (id !in ours || (!ours[id] && theirs[id] && id !in redacted));
      assert ids == S.WantSet(db.View(), log, theirs);
      wants := Sort(ById(), ids);
    }

    method Ours(db: ClaimStore, log: LogId) returns (ours: map<ClaimHash, bool>)
      requires db.Valid()
      ensures ours == S.OurHashes(db.View(), log)
    {
      var claims := db.storage.claims;
      ours := map id | id in claims && claims[id].art.log == log :: claims[id].art.body.Some?;
    }

    /** What we hold that they lack or hold stripped. */
    method Offered(db: ClaimStore, log: LogId, theirs: map<ClaimHash, bool>) returns (offers: seq<Artifact>)
      requires db.Valid()
      ensures offers == Artifacts(db.View(), SortIds(ById(), S.OfferSet(db.View(), log, theirs)))
    {
      var ours := Ours(db, log);
      var ids := set id | id in ours && (id !in theirs || (!theirs[id] && ours[id]));
      assert ids == S.OfferSet(db.View(), log, theirs);
      var sorted := Sort(ById(), ids);
      SortIdsLists(ById(), ids);
      offers := [];
      for i := 0 to |sorted|
        invariant offers == Artifacts(db.View(), sorted[..i])
      {
        assert sorted[i] in sorted;
        ClaimStore.ArtifactsSnoc(db.View(), sorted, i);
        offers := offers + [db.storage.claims[sorted[i]].art];
      }
      assert sorted[..|sorted|] == sorted;
    }

    /** The wants of a difference, if this log is pulled. */
    method StageWants(db: ClaimStore, theirs: map<ClaimHash, bool>)
      requires db.Valid() && S.Open(Value())
      modifies this`wantIds, this`wantSent
      ensures wantIds == if plans[idx].pull then SortIds(ById(), S.WantSet(db.View(), plans[idx].log, theirs)) else []
      ensures wantSent == 0
    {
      hide S.WantSet, SortIds;
      wantIds := [];
      if plans[idx].pull {
        wantIds := Wanted(db, plans[idx].log, theirs);
      }
      wantSent := 0;
    }

    /** The offers of a difference, if this log is pushed. */
    method StageOffers(db: ClaimStore, theirs: map<ClaimHash, bool>)
      requires db.Valid() && S.Open(Value())
      modifies this`extraBatch
      ensures extraBatch ==
              if plans[idx].push then Artifacts(db.View(),
                SortIds(ById(), S.OfferSet(db.View(), plans[idx].log, theirs))) else []
    {
      hide S.OfferSet, SortIds, Artifacts;
      extraBatch := [];
      if plans[idx].push {
        extraBatch := Offered(db, plans[idx].log, theirs);
      }
    }

    method FeedHashes(db: ClaimStore, entries: seq<Entry>)
      requires db.Valid() && S.Open(Value())
      modifies this
      ensures Value() == S.Diffed(old(Value()), db.View(), S.HashMap(entries))
    {
      hide S.HashMap, S.WantSet, S.OfferSet, SortIds, Artifacts, S.AfterFetching;
      var theirs := Collect(entries);
      StageWants(db, theirs);
      StageOffers(db, theirs);
      if wantIds != [] {
        phase := S.Fetching;
      } else {
        AfterFetching();
      }
    }

    method FeedClaims(db: ClaimStore, state: MemorySyncState, events: seq<Event>)
      requires db.Valid() && wantSent <= |wantIds|
      modifies this, db`poisoned, db.storage
      ensures db.Valid() && LocalOf(db, state) == S.FeedClaims(old(LocalOf(db, state)), events)
    {
      hide S.TakeAll, S.AfterFetching;
      var end := S.Chunk(wantSent, |wantIds|);
      var requested := set id | id in wantIds[wantSent..end];
      ghost var l := LocalOf(db, state);
      S.TakeAllKeepsPlace(l, S.OfIds(requested), events);
      TakeAll(db, state, S.OfIds(requested), events);
      wantSent := end;
      if wantSent >= |wantIds| {
        AfterFetching();
      }
    }

    /** Record where we landed, unless this log saw garbage. */
    method FeedResettle(db: ClaimStore, state: MemorySyncState, fp: Print, instance: InstanceId)
      requires S.Open(Value())
      modifies this, state
      ensures LocalOf(db, state) == S.FeedResettle(old(LocalOf(db, state)), fp, instance)
    {
      hide S.FinishLog;
      if clean && cursor.instance == Some(instance) {
        Remember(state, fp);
      }
      FinishLog();
    }

    /** Consume an answer; one of the wrong shape changes nothing and is an error. */
    method Feed(db: ClaimStore, state: MemorySyncState, r: Response) returns (ok: bool)
      requires db.Valid() && S.Valid(Value())
      modifies this, state, db`poisoned, db.storage
      ensures db.Valid()
      ensures var fed := S.Feed(old(LocalOf(db, state)), r);
              ok == fed.Some? && LocalOf(db, state) == if ok then fed.value else old(LocalOf(db, state))
    {
      hide S.FeedFirstStatus, S.FeedPulled, S.FeedAck, S.SettleWith, S.Diffed, S.FeedClaims, S.FeedResettle, S.HashMap;
      ok := S.Expected(Value(), r);
      if ok {
        match phase {
          case FirstStatus => FeedFirstStatus(db, state, r.count, r.fp, r.instance);
          case Pulling => FeedPulled(db, state, r.events);
          case Publishing => FeedAck(db, state, r.stored, r.rejected);
          case Settling => SettleWith(db, state, r.count, r.fp, r.instance);
          case Reconciling => FeedHashes(db, r.entries);
          case Fetching => FeedClaims(db, state, r.events);
          case Resettling => FeedResettle(db, state, r.fp, r.instance);
          case _ =>
        }
      }
    }
  }
}
