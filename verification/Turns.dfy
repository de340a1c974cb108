/**
 What every turn of the actor does: requests answered, watches honoured, sessions
 started and advanced, follows announced. Where a message is said to be sent, pipes
 have room for it.
 */
module Turns {
  import opened Bytes
  import opened Rows
  import opened Ingest
  import opened Indexes
  import opened Sorted
  import opened Queries
  import opened Protocol
  import opened Sessions
  import opened Push
  import opened Actors
  import opened Fanouts

  // ── Messages stay placed ─────────────────────────────────────────────

  lemma PlacedLater(a: Actor, a1: Actor, a2: Actor, p: PipeId, msg: PipeMsg)
    requires a.outbox <= a1.outbox <= a2.outbox
    ensures Placed(a, a1, p, msg) ==> Placed(a, a2, p, msg)
    ensures Placed(a1, a2, p, msg) ==> Placed(a, a2, p, msg)
  {
    if j :| |a.outbox| <= j < |a1.outbox| && a1.outbox[j] == Sent(p, msg) {
      assert a2.outbox[j] == Sent(p, msg);
    }
  }

  lemma SendPlaces(a: Actor, room: Room, p: PipeId, msg: PipeMsg)
    requires AlwaysRoom(room)
    ensures var a' := Send(a, room, p, msg);
            && a' == a.(outbox := a'.outbox, attempts := a'.attempts) && a.outbox <= a'.outbox
            && (p in a.pipes ==> Placed(a, a', p, msg)) && (p !in a.pipes ==> a' == a)
  {
    if p in a.pipes {
      assert room(a.attempts);
      assert Send(a, room, p, msg).outbox[|a.outbox|] == Sent(p, msg);
    }
  }

  // ── Requests ─────────────────────────────────────────────────────────

  function NewsFrame(a: Actor, news: News): PipeMsg {
    Frame(Notify(news.log, news.events, LogLen(a.db, news.log), Fingerprint(a.db, news.log), a.instance))
  }

  lemma {:induction false} LandedAllReaches(a: Actor, room: Room, news: seq<News>, source: PipeId)
    requires AlwaysRoom(room)
    ensures var a' := LandedAll(a, room, news, source);
            && a' == a.(outbox := a'.outbox, attempts := a'.attempts) && a.outbox <= a'.outbox
            && forall k, p | 0 <= k < |news| && p in WatchersOf(a, news[k].log, Some(source)) ::
                 Placed(a, a', p, NewsFrame(a, news[k]))
    decreases |news|
  {
    hide Landed, Fingerprint, LogLen, Placed;
    if news != [] {
      var a1 := Landed(a, room, news[0].log, news[0].events, Some(source));
      LandedReachesWatchers(a, room, news[0].log, news[0].events, Some(source));
      LandedAllReaches(a1, room, news[1..], source);
      var a' := LandedAll(a1, room, news[1..], source);
      forall k, p | 0 <= k < |news| && p in WatchersOf(a, news[k].log, Some(source))
        ensures Placed(a, a', p, NewsFrame(a, news[k]))
      {
        PlacedLater(a, a1, a', p, NewsFrame(a, news[k]));
        if k > 0 {
          assert news[k] == news[1..][k - 1] && p in WatchersOf(a1, news[1..][k - 1].log, Some(source));
        }
      }
    }
  }

  /**
   A request is answered on its pipe from the store as it was, and whatever landed is
   framed to the other watchers.
   */
  lemma RequestIsAnswered(a: Actor, room: Room, now: int, pipe: PipeId, id: nat, r: Request)
    requires AlwaysRoom(room) && pipe in a.pipes
    ensures var s := RespondScoped(a, now, r);
            var a' := OnRequest(a, room, now, pipe, id, r);
            && a' == a.(db := s.db, blobs := s.blobs, outbox := a'.outbox, attempts := a'.attempts)
            && Placed(a, a', pipe, Reply(id, s.response))
            && forall k, p | 0 <= k < |s.news| && p in WatchersOf(a, s.news[k].log, Some(pipe)) ::
                 Placed(a, a', p, NewsFrame(a', s.news[k]))
  {
    hide RespondScoped, LandedAll, Placed, Fingerprint, LogLen;
    var s := RespondScoped(a, now, r);
    var a0 := a.(db := s.db, blobs := s.blobs);
    var a1 := Send(a0, room, pipe, Reply(id, s.response));
    SendPlaces(a0, room, pipe, Reply(id, s.response));
    LandedAllReaches(a1, room, s.news, pipe);
    var a' := LandedAll(a1, room, s.news, pipe);
    PlacedLater(a0, a1, a', pipe, Reply(id, s.response));
    PlacedAlike(a0, a', a, a', pipe, Reply(id, s.response)) ;
    forall k, p | 0 <= k < |s.news| && p in WatchersOf(a, s.news[k].log, Some(pipe))
      ensures Placed(a, a', p, NewsFrame(a', s.news[k]))
    {
      assert p in WatchersOf(a1, s.news[k].log, Some(pipe));
      PlacedLater(a0, a1, a', p, NewsFrame(a1, s.news[k]));
      PlacedAlike(a0, a', a, a', p, NewsFrame(a1, s.news[k]));
    }
  }

  /** A blob that is wanted and offered is kept, and the watchers of every log that refers to it are woken. */
  lemma OfferedBlobIsKept(a: Actor, now: int, blob: BlobHash, bytes: Bytes)
    ensures var s := RespondScoped(a, now, PutBlob(blob, bytes));
            && s.db == a.db
            && s.blobs == (if WantsBlob(a, blob) then a.blobs[blob := bytes] else a.blobs)
            && (forall k | 0 <= k < |s.news| :: s.news[k].events == [] && s.news[k].log in ReferrerLogs(a.db, blob))
            && (WantsBlob(a, blob) ==>
                  forall log | log in ReferrerLogs(a.db, blob) :: exists k :: 0 <= k < |s.news| && s.news[k].log == log)
  {
    hide WantsBlob, ReferrerLogs, Ascending;
    var logs := ReferrerLogs(a.db, blob);
    var landed: map<LogId, seq<Event>> := map log | log in logs :: [];
    NewsListsAll(landed);
    assert landed.Keys == logs;
  }

  lemma NewsListsAll(landed: map<LogId, seq<Event>>)
    ensures var news := NewsByLog(landed);
            && (forall k | 0 <= k < |news| :: news[k].log in landed && news[k].events == landed[news[k].log])
            && (forall log | log in landed :: exists k :: 0 <= k < |news| && news[k].log == log)
  {
    hide Ascending;
    SortIdsLists(ById(), landed.Keys);
    var logs := Ordered(landed.Keys);
    assert forall i | 0 <= i < |logs| :: logs[i] in logs;
    hide SortIds;
    forall log | log in landed
      ensures exists k :: 0 <= k < |NewsByLog(landed)| && NewsByLog(landed)[k].log == log
    {
      var k :| 0 <= k < |logs| && logs[k] == log;
      assert NewsByLog(landed)[k].log == log;
    }
  }

  // ── Watches ──────────────────────────────────────────────────────────

  lemma {:induction false} ServedLogsAre(a: Actor, logs: seq<LogId>)
    ensures forall log :: log in ServedLogs(a, logs) <==> log in logs && Serves(a, log)
  {
    if logs != [] {
      ServedLogsAre(a, logs[1..]);
      assert forall log :: log in logs <==> log == logs[0] || log in logs[1..];
    }
  }

  lemma {:induction false} BeatReaches(a: Actor, room: Room, pipe: PipeId, logs: seq<LogId>)
    requires AlwaysRoom(room) && pipe in a.pipes
    ensures var a' := Beat(a, room, pipe, logs);
            && a' == a.(outbox := a'.outbox, attempts := a'.attempts) && a.outbox <= a'.outbox
            && forall log | log in logs :: Placed(a, a', pipe, Frame(NotifyFor(a.db, a.instance, log, [])))
    decreases |logs|
  {
    hide NotifyFor, Placed, Send;
    if logs != [] {
      var msg := Frame(NotifyFor(a.db, a.instance, logs[0], []));
      var a1 := Send(a, room, pipe, msg);
      SendPlaces(a, room, pipe, msg);
      BeatReaches(a1, room, pipe, logs[1..]);
      var a' := Beat(a1, room, pipe, logs[1..]);
      forall log | log in logs
        ensures Placed(a, a', pipe, Frame(NotifyFor(a.db, a.instance, log, [])))
      {
        PlacedLater(a, a1, a', pipe, Frame(NotifyFor(a.db, a.instance, log, [])));
      }
    }
  }

  /** A pipe watches exactly the served logs it last announced, and gets a heartbeat for each. */
  lemma WatchIsHonoured(a: Actor, room: Room, pipe: PipeId, logs: seq<LogId>)
    requires AlwaysRoom(room) && pipe in a.pipes
    ensures var a' := OnWatch(a, room, pipe, logs);
            var watched := set log | log in logs && Serves(a, log);
            && a' == a.(pipes := a.pipes[pipe := a.pipes[pipe].(watches := watched)], outbox := a'.outbox,
               attempts := a'.attempts)
            && forall log | log in watched :: Placed(a, a', pipe, Frame(NotifyFor(a.db, a.instance, log, [])))
  {
    hide NotifyFor, Placed, Beat, ServedLogs;
    var served := ServedLogs(a, logs);
    ServedLogsAre(a, logs);
    var watched := set i | 0 <= i < |served| :: served[i];
    assert watched == set log | log in logs && Serves(a, log);
    var a1 := a.(pipes := a.pipes[pipe := a.pipes[pipe].(watches := watched)]);
    BeatReaches(a1, room, pipe, served);
    forall log | log in watched
      ensures Placed(a, OnWatch(a, room, pipe, logs), pipe, Frame(NotifyFor(a.db, a.instance, log, [])))
    {
      PlacedAlike(a1, Beat(a1, room, pipe, served), a, OnWatch(a, room, pipe, logs), pipe,
        Frame(NotifyFor(a.db, a.instance, log, [])));
    }
  }

  // ── Frames ───────────────────────────────────────────────────────────

  lemma SoilMarks(a: Actor, pipe: PipeId)
    ensures var a' := Soil(a, pipe);
            && a' == a.(pipes := a'.pipes) && a'.pipes.Keys == a.pipes.Keys
            && forall p | p in a.pipes :: a'.pipes[p] == a.pipes[p].(dirty := a.pipes[p].dirty || p == pipe)
  {
  }

  /** A frame is applied to the store and the row of its pipe's name; one that does not settle makes the pipe dirty. */
  lemma FrameIsApplied(a: Actor, room: Room, now: int, pipe: PipeId, f: Notify)
    requires AlwaysRoom(room) && pipe in a.pipes
    ensures var applied := ApplyNotify(a.db, a.cursors, a.pipes[pipe].name, now, f);
            var a' := OnFrame(a, room, now, pipe, f);
            && a'.db == applied.db && a'.cursors == applied.cursors && a'.pipes.Keys == a.pipes.Keys
            && forall p | p in a.pipes ::
                 a'.pipes[p] == a.pipes[p].(dirty := a.pipes[p].dirty || (p == pipe && !applied.report.settled))
  {
    hide ApplyNotify, Landed, Soil;
    var applied := ApplyNotify(a.db, a.cursors, a.pipes[pipe].name, now, f);
    var a1 := a.(db := applied.db, cursors := applied.cursors);
    LandedReachesWatchers(a1, room, f.log, Actors.OfLogOnly(f.events, f.log), Some(pipe));
    SoilMarks(a1, pipe);
    SoilMarks(Landed(a1, room, f.log, Actors.OfLogOnly(f.events, f.log), Some(pipe)), pipe);
  }

  // ── Sessions ─────────────────────────────────────────────────────────

  /** A session sends its next request and waits for that answer; a finished one is put away. */
  lemma AdvanceAsks(a: Actor, room: Room, pipe: PipeId)
    requires SessionsValid(a.pipes) && AlwaysRoom(room) && pipe in a.pipes && a.pipes[pipe].session.Some?
    ensures Valid(Opened(a.pipes[pipe].session.value)) && !Opened(a.pipes[pipe].session.value).phase.Starting?
    ensures var p := a.pipes[pipe];
            var n := Opened(p.session.value);
            var a' := Advance(a, room, pipe);
            && a' == a.(pipes := a'.pipes, outbox := a'.outbox, attempts := a'.attempts) && a.outbox <= a'.outbox
            && (n.phase.Finished? ==> a'.pipes == a.pipes[pipe := p.(session := None)] && a'.outbox == a.outbox)
            && (!n.phase.Finished? ==>
                  && a'.pipes == a.pipes[pipe :=
                     p.(session := Some(n), pending := Some(p.nextRequest), nextRequest := p.nextRequest + 1)]
                  && Placed(a, a', pipe, Ask(p.nextRequest, NextRequest(n).value)))
  {
    var p := a.pipes[pipe];
    var n := Opened(p.session.value);
    OpenedRests(p.session.value);
    FinishedAsksNothing(n);
    hide Valid, NextRequest, Opened, Placed;
    if !n.phase.Finished? {
      assert room(a.attempts);
      var msg := Ask(p.nextRequest, NextRequest(n).value);
      SendPlaces(a, room, pipe, msg);
      PlacedAlike(a, Send(a, room, pipe, msg), a, Advance(a, room, pipe), pipe, msg);
    }
  }

  lemma FinishedAsksNothing(n: Session)
    requires Valid(n) && !n.phase.Starting?
    ensures NextRequest(n).None? <==> n.phase.Finished?
  {
  }

  /** With no room the session is given up, to be started again. */
  lemma NoRoomGivesUp(a: Actor, room: Room, pipe: PipeId)
    requires SessionsValid(a.pipes) && !room(a.attempts) && pipe in a.pipes && a.pipes[pipe].session.Some?
    ensures var p := a.pipes[pipe];
            var a' := Advance(a, room, pipe);
            && a'.outbox == a.outbox && a'.db == a.db && a'.cursors == a.cursors && pipe in a'.pipes
            && a'.pipes[pipe].session.None? && (a'.pipes[pipe].dirty || Opened(p.session.value).phase.Finished?)
            && forall other | other in a.pipes && other != pipe ::
               other in a'.pipes && a'.pipes[other] == a.pipes[other]
  {
    OpenedRests(a.pipes[pipe].session.value);
    FinishedAsksNothing(Opened(a.pipes[pipe].session.value));
    hide Valid, NextRequest, Opened;
  }

  lemma AdvanceKeepsStore(a: Actor, room: Room, pipe: PipeId)
    requires SessionsValid(a.pipes)
    ensures var a' := Advance(a, room, pipe);
            a'.db == a.db && a'.cursors == a.cursors
  {
    hide Valid, NextRequest, Opened;
  }

  /**
   The awaited answer is fed: the store and the rows are what feeding it makes of them
   and the session goes on or is over; an answer of the wrong shape ends the session
   and changes neither. Any other answer changes nothing.
   */
  lemma ResponseIsFed(a: Actor, room: Room, pipe: PipeId, id: nat, r: Response)
    requires SessionsAtRest(a.pipes)
    ensures var a' := OnResponse(a, room, pipe, id, r);
            && (pipe !in a.pipes || a.pipes[pipe].pending != Some(id) || a.pipes[pipe].session.None? ==> a' == a)
            && (pipe in a.pipes && a.pipes[pipe].pending == Some(id) && a.pipes[pipe].session.Some? ==>
                  && AtRest(a.pipes[pipe].session.value)
                  && var fed := Feed(Local(a.pipes[pipe].session.value, a.db, a.cursors), r);
                     && (fed.Some? ==> a'.db == fed.value.db && a'.cursors == fed.value.cursors)
                     && (fed.None? ==>
                           a' == a.(pipes := a.pipes[pipe := a.pipes[pipe].(pending := None, session := None)])))
  {
    hide Feed, Valid, NextRequest, Opened, Nearer, Advance;
    if pipe in a.pipes && a.pipes[pipe].pending == Some(id) && a.pipes[pipe].session.Some? {
      assert AtRest(a.pipes[pipe].session.value);
      var l := Local(a.pipes[pipe].session.value, a.db, a.cursors);
      var fed := Feed(l, r);
      if fed.Some? {
        FeedIsNearer(l, r);
        var p := a.pipes[pipe].(pending := None, session := Some(fed.value.session));
        AdvanceKeepsStore(a.(db := fed.value.db, cursors := fed.value.cursors, pipes := a.pipes[pipe := p]), room,
          pipe);
      }
    }
  }

  function ViaPipe(a: Actor, pipe: PipeId): set<LogId> { set log | log in a.follows && FollowsVia(a, log, pipe) }

  /** What a session on a pipe is to pull and push: what is followed there, and our own log if it is. */
  ghost function PlannedOn(a: Actor, now: int, pipe: PipeId): Session
    requires pipe in a.pipes
  {
    var logs := Ordered(ViaPipe(a, pipe));
    Opened(NewSession(a.pipes[pipe].name, now, logs, if a.me.Some? && a.me.value in logs then [a.me.value] else []))
  }

  ghost predicate SomethingFollowed(a: Actor, pipe: PipeId) { exists log :: FollowsVia(a, log, pipe) }

  lemma FollowedIs(a: Actor, pipe: PipeId)
    ensures FollowedOn(a, pipe) == Ordered(ViaPipe(a, pipe))
    ensures FollowedOn(a, pipe) != [] <==> SomethingFollowed(a, pipe)
    ensures forall log :: log in FollowedOn(a, pipe) <==> FollowsVia(a, log, pipe)
  {
    hide Ascending;
    var logs := set log | log in a.follows && pipe in a.follows[log];
    assert logs == ViaPipe(a, pipe);
    SortIdsLists(ById(), logs);
    hide SortIds;
    if log :| FollowsVia(a, log, pipe) {
      assert log in logs && log in FollowedOn(a, pipe);
    }
    if FollowedOn(a, pipe) != [] {
      assert FollowedOn(a, pipe)[0] in FollowedOn(a, pipe);
    }
  }

  lemma PlannedIsAsking(a: Actor, now: int, pipe: PipeId)
    requires pipe in a.pipes && SomethingFollowed(a, pipe)
    ensures var n := PlannedOn(a, now, pipe);
            && Valid(n) && n.phase.FirstStatus? && n.plans != [] && NextRequest(n) == Some(AskStatus(n.plans[0].log))
            && n.peer == a.pipes[pipe].name && n.now == now && n.clean && n.report == SyncReport(0, 0, 0, 0, 0, 0, 0, 0)
  {
    FollowedIs(a, pipe);
    var logs := FollowedOn(a, pipe);
    var push := if a.me.Some? && a.me.value in logs then [a.me.value] else [];
    NewSessionIsValid(a.pipes[pipe].name, now, logs, push);
    PlansLogs(logs, push);
    hide PullPlans, PushPlans;
  }

  lemma PlansLogs(pull: seq<LogId>, push: seq<LogId>)
    requires pull != []
    ensures PushPlans(PullPlans([], pull), push) != []
  {
    PullPlansGrow([Plan(pull[0], true, false)], pull[1..]);
    assert !PlansLog([], pull[0]) && [] + [Plan(pull[0], true, false)] == [Plan(pull[0], true, false)];
    assert PullPlans([], pull) == PullPlans([Plan(pull[0], true, false)], pull[1..]);
    PushPlansGrow(PullPlans([], pull), push);
  }

  lemma {:induction false} PullPlansGrow(plans: seq<Plan>, pull: seq<LogId>)
    ensures |PullPlans(plans, pull)| >= |plans|
    decreases |pull|
  {
    if pull != [] {
      PullPlansGrow(if PlansLog(plans, pull[0]) then plans else plans + [Plan(pull[0], true, false)], pull[1..]);
    }
  }

  lemma {:induction false} MarkPushGrows(plans: seq<Plan>, log: LogId)
    ensures |MarkPush(plans, log)| >= |plans|
  {
    if plans != [] && plans[0].log != log {
      MarkPushGrows(plans[1..], log);
    }
  }

  lemma {:induction false} PushPlansGrow(plans: seq<Plan>, push: seq<LogId>)
    ensures |PushPlans(plans, push)| >= |plans|
    decreases |push|
  {
    if push != [] {
      MarkPushGrows(plans, push[0]);
      PushPlansGrow(MarkPush(plans, push[0]), push[1..]);
    }
  }

  /** The peer with the planned session put on its pipe. */
  ghost function Planned(a: Actor, now: int, pipe: PipeId): Actor
    requires pipe in a.pipes
  {
    var logs := Ordered(ViaPipe(a, pipe));
    var push := if a.me.Some? && a.me.value in logs then [a.me.value] else [];
    var p := a.pipes[pipe];
    a.(pipes := a.pipes[pipe := p.(dirty := false, session := Some(NewSession(p.name, now, logs, push)))])
  }

  lemma StartPlans(a: Actor, room: Room, now: int, pipe: PipeId)
    requires SessionsAtRest(a.pipes) && pipe in a.pipes
    ensures !SomethingFollowed(a, pipe) ==>
              Start(a, room, now, pipe) == a.(pipes := a.pipes[pipe := a.pipes[pipe].(dirty := false)])
    ensures SessionsValid(Planned(a, now, pipe).pipes)
    ensures SomethingFollowed(a, pipe) ==> Start(a, room, now, pipe) == Advance(Planned(a, now, pipe), room, pipe)
  {
    hide SomethingFollowed, ViaPipe, Ordered, NewSession, Advance, Valid;
    FollowedIs(a, pipe);
    var logs := FollowedOn(a, pipe);
    var p := a.pipes[pipe];
    var push := if a.me.Some? && a.me.value in logs then [a.me.value] else [];
    NewSessionIsValid(p.name, now, logs, push);
    var s := Some(NewSession(p.name, now, logs, push));
    StillValid(a, pipe, p.(dirty := false, session := s));
    assert p.(dirty := false).(session := s) == p.(dirty := false, session := s);
  }

  /** A pipe where nothing is followed is just clean; elsewhere the planned session asks for its first status. */
  lemma StartAsks(a: Actor, room: Room, now: int, pipe: PipeId)
    requires SessionsAtRest(a.pipes) && AlwaysRoom(room) && pipe in a.pipes
    ensures var p := a.pipes[pipe];
            var n := PlannedOn(a, now, pipe);
            var a' := Start(a, room, now, pipe);
            && a' == a.(pipes := a'.pipes, outbox := a'.outbox, attempts := a'.attempts) && a.outbox <= a'.outbox
            && (!SomethingFollowed(a, pipe) ==> a'.pipes == a.pipes[pipe := p.(dirty := false)])
            && (SomethingFollowed(a, pipe) ==>
                  && Valid(n) && n.phase.FirstStatus? && NextRequest(n).Some?
                  && a'.pipes == a.pipes[pipe := p.(dirty := false, session := Some(n),
                                                    pending := Some(p.nextRequest), nextRequest := p.nextRequest + 1)]
                  && Placed(a, a', pipe, Ask(p.nextRequest, NextRequest(n).value)))
  {
    hide Valid, NewSession, NextRequest, Opened, Ordered, ViaPipe, Advance, Start, SessionsAtRest, SessionsValid,
         SomethingFollowed, Placed, AlwaysRoom;
    StartPlans(a, room, now, pipe);
    if SomethingFollowed(a, pipe) {
      PlannedIsAsking(a, now, pipe);
      var a1 := Planned(a, now, pipe);
      var p := a.pipes[pipe];
      AdvanceAsks(a1, room, pipe);
      PlacedAlike(a1, Advance(a1, room, pipe), a, Start(a, room, now, pipe), pipe,
                  Ask(p.nextRequest, NextRequest(PlannedOn(a, now, pipe)).value));
    }
  }

  lemma StillValid(a: Actor, pipe: PipeId, p: Pipe)
    requires SessionsAtRest(a.pipes) && p.session.Some? && Valid(p.session.value)
    ensures SessionsValid(a.pipes[pipe := p])
  {
    hide Valid;
    assert forall id | id in a.pipes && a.pipes[id].session.Some? :: AtRest(a.pipes[id].session.value);
  }

  /** A pipe that a pump starts: dirty, and free. */
  predicate Due(a: Actor, pipe: PipeId) { pipe in a.pipes && a.pipes[pipe].dirty && a.pipes[pipe].session.None? }

  lemma SameFollows(a: Actor, b: Actor, now: int, pipe: PipeId)
    requires a.follows == b.follows && a.me == b.me && pipe in a.pipes && pipe in b.pipes
             && a.pipes[pipe] == b.pipes[pipe]
    ensures SomethingFollowed(a, pipe) <==> SomethingFollowed(b, pipe)
    ensures PlannedOn(a, now, pipe) == PlannedOn(b, now, pipe)
  {
    assert forall log :: FollowsVia(a, log, pipe) <==> FollowsVia(b, log, pipe);
    assert ViaPipe(a, pipe) == ViaPipe(b, pipe);
    hide NewSession;
  }

  lemma PlannedAsks(a: Actor, now: int, pipe: PipeId)
    requires pipe in a.pipes
    ensures Valid(PlannedOn(a, now, pipe)) && !PlannedOn(a, now, pipe).phase.Starting?
    ensures SomethingFollowed(a, pipe) ==> NextRequest(PlannedOn(a, now, pipe)).Some?
  {
    FollowedIs(a, pipe);
    var logs := FollowedOn(a, pipe);
    var push := if a.me.Some? && a.me.value in logs then [a.me.value] else [];
    NewSessionIsValid(a.pipes[pipe].name, now, logs, push);
    OpenedRests(NewSession(a.pipes[pipe].name, now, logs, push));
    hide Valid, NewSession, NextRequest;
    if SomethingFollowed(a, pipe) {
      PlannedIsAsking(a, now, pipe);
    }
  }

  /** What a due pipe is after its start: cleaned, and where something is followed asking for a first status. */
  ghost predicate Started(a: Actor, a': Actor, now: int, pipe: PipeId)
    requires pipe in a.pipes
  {
    var p := a.pipes[pipe];
    && pipe in a'.pipes
    && (!SomethingFollowed(a, pipe) ==> a'.pipes[pipe] == p.(dirty := false))
    && (SomethingFollowed(a, pipe) ==> (
          PlannedAsks(a, now, pipe);
          && a'.pipes[pipe] == p.(dirty := false, session := Some(PlannedOn(a, now, pipe)),
                                  pending := Some(p.nextRequest), nextRequest := p.nextRequest + 1)
          && Placed(a, a', pipe, Ask(p.nextRequest, NextRequest(PlannedOn(a, now, pipe)).value))))
  }

  lemma StartIsStarted(a: Actor, room: Room, now: int, pipe: PipeId)
    requires SessionsAtRest(a.pipes) && AlwaysRoom(room) && pipe in a.pipes
    ensures var a' := Start(a, room, now, pipe);
            && Started(a, a', now, pipe)
            && a' == a.(pipes := a'.pipes, outbox := a'.outbox, attempts := a'.attempts) && a.outbox <= a'.outbox
            && a'.pipes.Keys == a.pipes.Keys && forall p | p in a.pipes && p != pipe :: a'.pipes[p] == a.pipes[p]
  {
    StartAsks(a, room, now, pipe);
    hide Start, SomethingFollowed, PlannedOn, NextRequest, Placed;
  }

  /** Being started is kept while other pipes are. */
  lemma StartedLater(a: Actor, a1: Actor, a2: Actor, now: int, pipe: PipeId)
    requires pipe in a.pipes && Started(a, a1, now, pipe) && pipe in a2.pipes && a2.pipes[pipe] == a1.pipes[pipe]
    requires a.outbox <= a1.outbox <= a2.outbox
    ensures Started(a, a2, now, pipe)
  {
    hide SomethingFollowed, PlannedOn, NextRequest, Placed;
    if SomethingFollowed(a, pipe) {
      PlannedAsks(a, now, pipe);
      PlacedLater(a, a1, a2, pipe, Ask(a.pipes[pipe].nextRequest, NextRequest(PlannedOn(a, now, pipe)).value));
    }
  }

  lemma StartedEarlier(a: Actor, a1: Actor, a2: Actor, now: int, pipe: PipeId)
    requires pipe in a.pipes && pipe in a1.pipes && a1.pipes[pipe] == a.pipes[pipe] && Started(a1, a2, now, pipe)
    requires a.outbox <= a1.outbox <= a2.outbox && a.follows == a1.follows && a.me == a1.me
    ensures Started(a, a2, now, pipe)
  {
    SameFollows(a, a1, now, pipe);
    hide SomethingFollowed, PlannedOn, NextRequest, Placed;
    if SomethingFollowed(a, pipe) {
      PlannedAsks(a, now, pipe);
      PlannedAsks(a1, now, pipe);
      PlacedLater(a, a1, a2, pipe, Ask(a.pipes[pipe].nextRequest, NextRequest(PlannedOn(a, now, pipe)).value));
    }
  }

  lemma {:induction false} StartAllStarts(a: Actor, room: Room, now: int, pipes: seq<PipeId>)
    requires SessionsAtRest(a.pipes) && AlwaysRoom(room)
    requires (forall i | 0 <= i < |pipes| :: pipes[i] in a.pipes) && forall i, j | 0 <= i < j < |pipes| ::
             pipes[i] != pipes[j]
    ensures var a' := StartAll(a, room, now, pipes);
            && a' == a.(pipes := a'.pipes, outbox := a'.outbox, attempts := a'.attempts) && a.outbox <= a'.outbox
            && a'.pipes.Keys == a.pipes.Keys
            && (forall p | p in a.pipes && p !in pipes :: a'.pipes[p] == a.pipes[p])
            && (forall i | 0 <= i < |pipes| :: Started(a, a', now, pipes[i]))
    decreases |pipes|
  {
    hide Started, Start, SessionsAtRest;
    if pipes != [] {
      var rest := pipes[1..];
      StartRests(a, room, now, pipes[0]);
      StartIsStarted(a, room, now, pipes[0]);
      var a1 := Start(a, room, now, pipes[0]);
      assert forall i | 0 <= i < |rest| :: rest[i] == pipes[i + 1];
      StartAllStarts(a1, room, now, rest);
      var a' := StartAll(a1, room, now, rest);
      forall i | 0 <= i < |pipes|
        ensures Started(a, a', now, pipes[i])
      {
        if i == 0 {
          StartedLater(a, a1, a', now, pipes[0]);
        } else {
          assert pipes[i] == rest[i - 1];
          StartedEarlier(a, a1, a', now, pipes[i]);
        }
      }
    }
  }

  /** After a pump every pipe that was dirty and free is started, and no other is touched. */
  lemma PumpStarts(a: Actor, room: Room, now: int)
    requires SessionsAtRest(a.pipes) && AlwaysRoom(room)
    ensures var a' := Pump(a, room, now);
            && a' == a.(pipes := a'.pipes, outbox := a'.outbox, attempts := a'.attempts) && a.outbox <= a'.outbox
            && a'.pipes.Keys == a.pipes.Keys
            && (forall p | p in a.pipes && !Due(a, p) :: a'.pipes[p] == a.pipes[p])
            && (forall p | Due(a, p) :: Started(a, a', now, p))
  {
    hide Started, StartAll, SessionsAtRest;
    var due := set id | id in a.pipes && a.pipes[id].dirty && a.pipes[id].session.None?;
    SortIdsLists(ById(), due);
    var pipes := Ordered(due);
    hide SortIds;
    forall i | 0 <= i < |pipes|
      ensures pipes[i] in a.pipes
    {
      assert pipes[i] in pipes;
    }
    forall i, j | 0 <= i < j < |pipes|
      ensures pipes[i] != pipes[j]
    {
      AscendsThroughout(ById(), pipes, i, j);
    }
    StartAllStarts(a, room, now, pipes);
    forall p | Due(a, p)
      ensures Started(a, Pump(a, room, now), now, p)
    {
      assert p in pipes;
      var i :| 0 <= i < |pipes| && pipes[i] == p;
    }
  }

  // ── Commands ─────────────────────────────────────────────────────────

  /** Pipes are numbered below the next number, so a new pipe never replaces one. */
  predicate Numbered(a: Actor) { forall id | id in a.pipes :: id < a.nextPipe }

  lemma ConnectIsFresh(a: Actor, room: Room, now: int, name: string)
    requires SessionsAtRest(a.pipes) && Numbered(a)
    ensures var a' := Takes(a, room, now, Connect(name));
            && Numbered(a') && a.nextPipe !in a.pipes
            && a'.pipes == a.pipes[a.nextPipe := Pipe(name, None, None, 0, false, {})]
            && a' == a.(pipes := a'.pipes, nextPipe := a.nextPipe + 1)
  {
  }

  /** Following a log through a pipe announces everything followed there and makes the pipe due. */
  lemma FollowAnnounces(a: Actor, room: Room, now: int, log: LogId, pipe: PipeId)
    requires SessionsAtRest(a.pipes) && AlwaysRoom(room) && pipe in a.pipes
    ensures var a' := Takes(a, room, now, Follow(log, pipe));
            && (forall l, p :: FollowsVia(a', l, p) <==> FollowsVia(a, l, p) || (l == log && p == pipe))
            && a'.pipes == a.pipes[pipe := a.pipes[pipe].(dirty := true)] && a.outbox <= a'.outbox
            && Placed(a, a', pipe, Watch(FollowedOn(a', pipe)))
            && (forall l :: l in FollowedOn(a', pipe) <==> FollowsVia(a', l, pipe))
            && a'.me == a.me && a'.db == a.db
  {
    hide FollowedOn, Placed;
    var a1 := a.(follows := a.follows[log := (if log in a.follows then a.follows[log] else {}) + {pipe}]);
    var a2 := Announce(a1, room, pipe);
    SendPlaces(a1, room, pipe, Watch(FollowedOn(a1, pipe)));
    var a' := Takes(a, room, now, Follow(log, pipe));
    FollowedIs(a1, pipe);
    FollowedIs(a', pipe);
    assert ViaPipe(a', pipe) == ViaPipe(a1, pipe);
    PlacedAlike(a1, a2, a, a', pipe, Watch(FollowedOn(a1, pipe)));
  }

  lemma {:induction false} AnnounceAllReaches(a: Actor, room: Room, pipes: seq<PipeId>)
    requires AlwaysRoom(room)
    ensures var a' := AnnounceAll(a, room, pipes);
            && a' == a.(outbox := a'.outbox, attempts := a'.attempts) && a.outbox <= a'.outbox
            && forall p | p in pipes && p in a.pipes :: Placed(a, a', p, Watch(FollowedOn(a, p)))
    decreases |pipes|
  {
    hide FollowedOn, Placed;
    if pipes != [] {
      var a1 := Announce(a, room, pipes[0]);
      SendPlaces(a, room, pipes[0], Watch(FollowedOn(a, pipes[0])));
      AnnounceAllReaches(a1, room, pipes[1..]);
      var a' := AnnounceAll(a1, room, pipes[1..]);
      forall p | p in pipes && p in a.pipes
        ensures Placed(a, a', p, Watch(FollowedOn(a, p)))
      {
        SameFollowed(a, a1, p);
        PlacedLater(a, a1, a', p, Watch(FollowedOn(a, p)));
      }
    }
  }

  lemma SameFollowed(a: Actor, b: Actor, pipe: PipeId)
    requires a.follows == b.follows
    ensures FollowedOn(a, pipe) == FollowedOn(b, pipe)
  {
    FollowedIs(a, pipe);
    FollowedIs(b, pipe);
    assert ViaPipe(a, pipe) == ViaPipe(b, pipe);
  }

  /** Unfollowing forgets the log everywhere and tells every pipe it was followed through. */
  lemma UnfollowAnnounces(a: Actor, room: Room, now: int, log: LogId)
    requires SessionsAtRest(a.pipes) && AlwaysRoom(room)
    ensures var a' := Takes(a, room, now, Unfollow(log));
            && (forall l, p :: FollowsVia(a', l, p) <==> FollowsVia(a, l, p) && l != log)
            && a'.pipes == a.pipes && a.outbox <= a'.outbox
            && forall p | FollowsVia(a, log, p) && p in a.pipes ::
                 Placed(a, a', p, Watch(FollowedOn(a', p))) && log !in FollowedOn(a', p)
  {
    hide FollowedOn, Placed, AnnounceAll;
    if log in a.follows {
      var told := Ordered(a.follows[log]);
      SortIdsLists(ById(), a.follows[log]);
      hide SortIds;
      var a1 := a.(follows := a.follows - {log});
      AnnounceAllReaches(a1, room, told);
      var a' := AnnounceAll(a1, room, told);
      forall p | FollowsVia(a, log, p) && p in a.pipes
        ensures Placed(a, a', p, Watch(FollowedOn(a', p))) && log !in FollowedOn(a', p)
      {
        assert p in told;
        SameFollowed(a1, a', p);
        FollowedIs(a', p);
        PlacedAlike(a1, a', a, a', p, Watch(FollowedOn(a', p)));
      }
    }
  }

  lemma {:induction false} SoilAllMarks(a: Actor, pipes: seq<PipeId>)
    ensures var a' := SoilAll(a, pipes);
            && a' == a.(pipes := a'.pipes) && a'.pipes.Keys == a.pipes.Keys
            && forall p | p in a.pipes :: a'.pipes[p] == a.pipes[p].(dirty := a.pipes[p].dirty || p in pipes)
    decreases |pipes|
  {
    if pipes != [] {
      SoilMarks(a, pipes[0]);
      SoilAllMarks(Soil(a, pipes[0]), pipes[1..]);
      hide Soil;
    }
  }

  /** Asking to sync makes every pipe due. */
  lemma SyncMakesDue(a: Actor, room: Room, now: int)
    requires SessionsAtRest(a.pipes)
    ensures var a' := Takes(a, room, now, SyncNow);
            && a' == a.(pipes := a'.pipes) && a'.pipes.Keys == a.pipes.Keys
            && forall p | p in a.pipes :: a'.pipes[p] == a.pipes[p].(dirty := true)
  {
    hide SoilAll, Ascending, SessionsAtRest;
    SortIdsLists(ById(), a.pipes.Keys);
    hide SortIds;
    SoilAllMarks(a, Ordered(a.pipes.Keys));
  }

  /** Speaking makes every pipe due where our own log is followed. */
  lemma MintMakesDue(a: Actor, room: Room, now: int, x: Artifact)
    requires SessionsAtRest(a.pipes) && a.me == Some(x.log)
    ensures var a' := Takes(a, room, now, Mint(x));
            && a'.pipes.Keys == a.pipes.Keys
            && forall p | p in a.pipes ::
                 a'.pipes[p] == a.pipes[p].(dirty := a.pipes[p].dirty || FollowsVia(a, x.log, p))
  {
    hide Landed, Ingested, SoilAll, Ascending, SessionsAtRest;
    var a0 := a.(db := Ingested(a.db, x, now));
    LandedReachesWatchers(a0, room, x.log, [Checked(x)], None);
    var a1 := Landed(a0, room, x.log, [Checked(x)], None);
    var behind := if x.log in a1.follows then Ordered(a1.follows[x.log]) else [];
    BehindAre(a, x.log);
    hide Ordered, Fingerprint, LogLen;
    SoilAllMarks(a1, behind);
  }

  lemma BehindAre(a: Actor, log: LogId)
    ensures forall p :: FollowsVia(a, log, p) <==> p in (if log in a.follows then Ordered(a.follows[log]) else [])
  {
    hide Ascending;
    if log in a.follows {
      SortIdsLists(ById(), a.follows[log]);
    }
  }

  // ── Retention ────────────────────────────────────────────────────────

  /** Evicting drops one blob's bytes and keeps every claim. */
  lemma EvictionDropsOne(a: Actor, room: Room, now: int, blob: BlobHash)
    requires SessionsAtRest(a.pipes)
    ensures var a' := Takes(a, room, now, EvictBlob(blob));
            && a' == a.(blobs := a'.blobs)
            && (forall b :: b in a'.blobs <==> b in a.blobs && b != blob)
            && (forall b | b in a'.blobs :: a'.blobs[b] == a.blobs[b])
  {
  }

  /** Collecting blobs keeps exactly those some held body refers to. */
  lemma CollectionKeepsReferred(a: Actor, room: Room, now: int)
    requires SessionsAtRest(a.pipes) && Indexed(a.db)
    ensures var a' := Takes(a, room, now, GcBlobs);
            && a' == a.(blobs := a'.blobs)
            && (forall b :: b in a'.blobs <==>
                  b in a.blobs && exists id :: id in a.db.claims && a.db.claims[id].art.body.Some?
                                               && b in a.db.claims[id].art.body.value.blobs)
            && (forall b | b in a'.blobs :: a'.blobs[b] == a.blobs[b])
  {
    forall b: BlobHash
      ensures Referred(a.db, b) <==> exists id :: id in a.db.claims && a.db.claims[id].art.body.Some?
                                                  && b in a.db.claims[id].art.body.value.blobs
    {
      if Referred(a.db, b) {
        var id :| id in a.db.referrers[b];
        assert Linked(a.db.referrers, b, id) && RowBlobs(a.db, b, id);
      }
      if id :| id in a.db.claims && a.db.claims[id].art.body.Some? && b in a.db.claims[id].art.body.value.blobs {
        assert RowBlobs(a.db, b, id) && Linked(a.db.referrers, b, id);
      }
    }
  }

  /**
   Retention lets go of exactly the claims received before the cutoff, the edges from
   them and the redactions of them.
   */
  lemma RetentionLetsGo(a: Actor, room: Room, now: int, cutoff: int)
    requires SessionsAtRest(a.pipes)
    ensures var s, a' := a.db, Takes(a, room, now, GcClaims(cutoff));
            var s' := a'.db;
            && a' == a.(db := s')
            && (forall id :: id in s'.claims <==> id in s.claims && s.claims[id].receivedAt >= cutoff)
            && (forall id | id in s'.claims :: s'.claims[id] == s.claims[id])
            && (forall t :: t in s'.redactions <==>
                  t in s.redactions && !(t in s.claims && s.claims[t].receivedAt < cutoff))
            && (forall t | t in s'.redactions :: s'.redactions[t] == s.redactions[t])
            && (forall k, x :: Linked(s'.backlinks, k, x) <==>
                  Linked(s.backlinks, k, x) && !(x in s.claims && s.claims[x].receivedAt < cutoff))
            && (forall k, x :: Linked(s'.referrers, k, x) <==>
                  Linked(s.referrers, k, x) && !(x in s.claims && s.claims[x].receivedAt < cutoff))
  {
    ScrubLinks(a.db.backlinks, Expired(a.db, cutoff));
    ScrubLinks(a.db.referrers, Expired(a.db, cutoff));
    hide Linked, Scrub, NoEmptySets;
  }

  /**
   Following is enough: once the turn is over and the actor has pumped, a free pipe has
   been told what is followed there and asked for the status of a log it follows.
   */
  lemma FollowStartsSession(a: Actor, room: Room, now: int, log: LogId, pipe: PipeId)
    requires SessionsAtRest(a.pipes) && AlwaysRoom(room) && pipe in a.pipes && a.pipes[pipe].session.None?
    ensures var a1 := Takes(a, room, now, Follow(log, pipe));
            && SessionsAtRest(a1.pipes)
            && var a' := Pump(a1, room, now);
               && Placed(a, a', pipe, Watch(FollowedOn(a1, pipe))) && pipe in a1.pipes
               && a'.pipes[pipe].session == Some(PlannedOn(a1, now, pipe)) && !a'.pipes[pipe].dirty
               && PlannedOn(a1, now, pipe).plans != []
               && Placed(a, a', pipe, Ask(a.pipes[pipe].nextRequest, AskStatus(PlannedOn(a1, now, pipe).plans[0].log)))
  {
    FollowAnnounces(a, room, now, log, pipe);
    var a1 := Takes(a, room, now, Follow(log, pipe));
    assert SessionsAtRest(a1.pipes) by { DirtyRests(a, pipe); }
    assert FollowsVia(a1, log, pipe);
    PlannedIsAsking(a1, now, pipe);
    PlannedAsks(a1, now, pipe);
    hide SessionsAtRest, Takes, Pump, PlannedOn, FollowedOn, Placed, NextRequest, Valid;
    PumpStarts(a1, room, now);
    var a' := Pump(a1, room, now);
    assert Started(a1, a', now, pipe);
    PlacedLater(a, a1, a', pipe, Watch(FollowedOn(a1, pipe)));
    PlacedLater(a, a1, a', pipe, Ask(a.pipes[pipe].nextRequest, AskStatus(PlannedOn(a1, now, pipe).plans[0].log)));
  }

  lemma DirtyRests(a: Actor, pipe: PipeId)
    requires SessionsAtRest(a.pipes) && pipe in a.pipes
    ensures SessionsAtRest(a.pipes[pipe := a.pipes[pipe].(dirty := true)])
  {
    hide AtRest;
  }
}
