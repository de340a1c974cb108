/**
 The peer actor as turns: commands and pipe events against its tables of pipes,
 follows and watches. Whether a message finds room on its pipe is up to the pipe.
 */
module Actors {
  import opened Bytes
  import opened Rows
  import opened Ingest
  import opened Sorted
  import opened Queries
  import opened Protocol
  import opened Sessions
  import opened Push

  type PipeId = nat

  /** Whether the n-th attempt to send finds room. */
  type Room = nat -> bool

  datatype PipeMsg =
    | Ask(id: nat, request: Request)
    | Reply(id: nat, response: Response)
    | Frame(frame: Notify)
    | Watch(logs: seq<LogId>)

  datatype Policy = Owned | Everything

  datatype Pipe = Pipe(
    name: string, session: Option<Session>, pending: Option<nat>, nextRequest: nat, dirty: bool, watches: set<LogId>)

  datatype Sent = Sent(pipe: PipeId, msg: PipeMsg)

  datatype Actor = Actor(
    db: State, cursors: Cursors, blobs: map<BlobHash, Bytes>, instance: InstanceId, me: Option<LogId>, serve: Policy,
    pipes: map<PipeId, Pipe>, follows: map<LogId, set<PipeId>>, nextPipe: PipeId, outbox: seq<Sent>, attempts: nat)

  datatype Turn =
    | Connect(name: string)
    | Disconnect(pipe: PipeId)
    | Follow(log: LogId, pipe: PipeId)
    | Unfollow(log: LogId)
    | Mint(art: Artifact)
    | SyncNow
    | EvictBlob(blob: BlobHash)
    | GcClaims(cutoff: int)
    | GcBlobs
    | Receive(pipe: PipeId, msg: PipeMsg)
    | Closed(pipe: PipeId)

  /** Sessions at rest are between an answer and the next request. */
  predicate AtRest(s: Session) { Valid(s) && !s.phase.Starting? }

  predicate SessionsAtRest(pipes: map<PipeId, Pipe>) {
    forall id | id in pipes && pipes[id].session.Some? :: AtRest(pipes[id].session.value)
  }

  predicate Serves(a: Actor, log: LogId) { a.serve.Everything? || a.me == Some(log) }

  ghost function Ordered(ids: set<nat>): seq<nat> { SortIds(ById(), ids) }

  /** Logs followed via a pipe: a session's pull set. */
  ghost function FollowedOn(a: Actor, pipe: PipeId): seq<LogId> {
    Ordered(set log | log in a.follows && pipe in a.follows[log])
  }

  /** No turn changes who the peer is or what it serves. */
  predicate SameBearer(a': Actor, a: Actor) { a'.me == a.me && a'.serve == a.serve && a'.instance == a.instance }

  /** Which pipes there are, and what is followed through which. */
  predicate SameTables(a': Actor, a: Actor) { a'.follows == a.follows && a'.pipes.Keys == a.pipes.Keys }

  // ── Sending ──────────────────────────────────────────────────────────

  /** A full pipe just misses a message; a closed one gets none. */
  function Send(a: Actor, room: Room, pipe: PipeId, msg: PipeMsg): (a': Actor)
    ensures SameBearer(a', a) && SameTables(a', a)
  {
    if pipe !in a.pipes then a
    else a.(outbox := if room(a.attempts) then a.outbox + [Sent(pipe, msg)] else a.outbox, attempts := a.attempts + 1)
  }

  function SendAll(a: Actor, room: Room, pipes: seq<PipeId>, msg: PipeMsg): (a': Actor)
    ensures SameBearer(a', a) && SameTables(a', a)
    decreases |pipes|
  {
    if pipes == [] then a else SendAll(Send(a, room, pipes[0], msg), room, pipes[1..], msg)
  }

  ghost function Announce(a: Actor, room: Room, pipe: PipeId): (a': Actor)
    ensures SameBearer(a', a) && SameTables(a', a)
  {
    Send(a, room, pipe, Watch(FollowedOn(a, pipe)))
  }

  ghost function AnnounceAll(a: Actor, room: Room, pipes: seq<PipeId>): (a': Actor)
    ensures SameBearer(a', a) && SameTables(a', a)
    decreases |pipes|
  {
    if pipes == [] then a else AnnounceAll(Announce(a, room, pipes[0]), room, pipes[1..])
  }

  function Soil(a: Actor, pipe: PipeId): (a': Actor)
    ensures SameBearer(a', a) && SameTables(a', a)
  {
    if pipe in a.pipes then a.(pipes := a.pipes[pipe := a.pipes[pipe].(dirty := true)]) else a
  }

  function SoilAll(a: Actor, pipes: seq<PipeId>): (a': Actor)
    ensures SameBearer(a', a) && SameTables(a', a)
    decreases |pipes|
  {
    if pipes == [] then a else SoilAll(Soil(a, pipes[0]), pipes[1..])
  }

  /** Frame the watchers of a log, except whoever brought the news. */
  ghost function Landed(a: Actor, room: Room, log: LogId, events: seq<Event>, source: Option<PipeId>): (a': Actor)
    ensures SameBearer(a', a) && SameTables(a', a)
  {
    var watchers := set id | id in a.pipes && Some(id) != source && log in a.pipes[id].watches;
    SendAll(a, room, Ordered(watchers), Frame(NotifyFor(a.db, a.instance, log, events)))
  }

  datatype News = News(log: LogId, events: seq<Event>)

  ghost function LandedAll(a: Actor, room: Room, news: seq<News>, source: PipeId): (a': Actor)
    ensures SameBearer(a', a) && SameTables(a', a)
    decreases |news|
  {
    if news == [] then a
    else LandedAll(Landed(a, room, news[0].log, news[0].events, Some(source)), room, news[1..], source)
  }

  /** One heartbeat a watched log. */
  function Beat(a: Actor, room: Room, pipe: PipeId, logs: seq<LogId>): (a': Actor)
    ensures SameBearer(a', a) && SameTables(a', a)
    decreases |logs|
  {
    if logs == [] then a
    else Beat(Send(a, room, pipe, Frame(NotifyFor(a.db, a.instance, logs[0], []))), room, pipe, logs[1..])
  }

  // ── Serving ──────────────────────────────────────────────────────────

  /** Pushed events being accepted: the store, the tallies, and what landed by log. */
  datatype Acceptance = Acceptance(db: State, stored: nat, rejected: nat, landed: map<LogId, seq<Event>>)

  /** Logs we host, follow or own; anything else is declined in silence. */
  predicate Accepts(a: Actor, log: LogId) { Serves(a, log) || log in a.follows || a.me == Some(log) }

  function AcceptOne(a: Actor, i: Acceptance, e: Event, now: int): Acceptance {
    var log := HeaderLog(e);
    if log.None? then i.(rejected := i.rejected + 1)
    else if !Accepts(a, log.value) then i
    else if !e.Checked? then i.(rejected := i.rejected + 1)
    else
      var r := ReportOf(i.db, e.art);
      var gained := (if r.newlyStored.Some? then 1 else 0) + r.bodiesAttached;
      var i' := i.(db := Ingested(i.db, e.art, now), stored := i.stored + gained);
      if gained > 0 || r.redactionsApplied > 0 then
        i'.(landed := i.landed[log.value := (if log.value in i.landed then i.landed[log.value] else []) + [e]])
      else i'
  }

  function AcceptEach(a: Actor, i: Acceptance, events: seq<Event>, now: int): Acceptance
    decreases |events|
  {
    if events == [] then i else AcceptEach(a, AcceptOne(a, i, events[0], now), events[1..], now)
  }

  function NewsOf(landed: map<LogId, seq<Event>>, logs: seq<LogId>): (news: seq<News>)
    requires forall i | 0 <= i < |logs| :: logs[i] in landed
    ensures |news| == |logs| && forall i | 0 <= i < |logs| :: news[i] == News(logs[i], landed[logs[i]])
  {
    seq(|logs|, i requires 0 <= i < |logs| => News(logs[i], landed[logs[i]]))
  }

  ghost function NewsByLog(landed: map<LogId, seq<Event>>): seq<News> {
    SortIdsLists(ById(), landed.Keys);
    assert forall i | 0 <= i < |Ordered(landed.Keys)| :: Ordered(landed.Keys)[i] in Ordered(landed.Keys);
    NewsOf(landed, Ordered(landed.Keys))
  }

  /** An answer within the serve scope, the store it leaves, and what newly landed. */
  datatype Served = Served(db: State, blobs: map<BlobHash, Bytes>, response: Response, news: seq<News>)

  function ServedRows(a: Actor, ids: seq<ClaimHash>): seq<Artifact> {
    if ids == [] then []
    else
      (if ids[0] in a.db.claims && Serves(a, a.db.claims[ids[0]].art.log) then [a.db.claims[ids[0]].art] else [])
      + ServedRows(a, ids[1..])
  }

  function ReferrerLogs(db: State, blob: BlobHash): set<LogId> {
    set id | id in db.claims && Linked(db.referrers, blob, id) :: db.claims[id].art.log
  }

  /** The index knows a live body that refers to it. */
  predicate Referred(db: State, blob: BlobHash) { blob in db.referrers && db.referrers[blob] != {} }

  /** Wanted by a live body and not held. */
  predicate WantsBlob(a: Actor, blob: BlobHash) {
    blob !in a.blobs && exists id :: id in a.db.claims && blob in a.db.claims[id].blobs
  }

  ghost function RespondScoped(a: Actor, now: int, r: Request): Served {
    match r
    case AskStatus(log) =>
      Served(a.db, a.blobs,
             if Serves(a, log) then Respond(a.db, a.instance, now, a.blobs, r) else Status(0, {}, a.instance), [])
    case AskSince(log, _, _) =>
      Served(a.db, a.blobs,
             if Serves(a, log) then Respond(a.db, a.instance, now, a.blobs, r) else Response.Events([]), [])
    case AskHashes(log) =>
      Served(a.db, a.blobs, if Serves(a, log) then Respond(a.db, a.instance, now, a.blobs, r) else Hashes([]), [])
    case AskClaims(ids) => Served(a.db, a.blobs, Response.Events(Wrap(ServedRows(a, ids))), [])
    case GetBlob(hash) =>
      var referenced := exists log :: log in ReferrerLogs(a.db, hash) && Serves(a, log);
      Served(a.db, a.blobs, Blob(if referenced && hash in a.blobs then Some(a.blobs[hash]) else None), [])
    case PutBlob(hash, bytes) =>
      if WantsBlob(a, hash) then
        var logs := ReferrerLogs(a.db, hash);
        Served(a.db, a.blobs[hash := bytes], Ack(1, 0), NewsByLog(map log | log in logs :: []))
      else Served(a.db, a.blobs, Ack(0, 0), [])
    case Publish(events) =>
      var i := AcceptEach(a, Acceptance(a.db, 0, 0, map[]), events, now);
      Served(i.db, a.blobs, Ack(i.stored, i.rejected), NewsByLog(i.landed))
  }

  // ── Pipe events ──────────────────────────────────────────────────────

  function DropPipe(a: Actor, pipe: PipeId): (a': Actor)
    ensures SameBearer(a', a)
  {
    a.(pipes := a.pipes - {pipe},
       follows := map log | log in a.follows && a.follows[log] - {pipe} != {} :: a.follows[log] - {pipe})
  }

  function OfLogOnly(events: seq<Event>, log: LogId): seq<Event> {
    if events == [] then []
    else (if HeaderLog(events[0]) == Some(log) then [events[0]] else []) + OfLogOnly(events[1..], log)
  }

  function ServedLogs(a: Actor, logs: seq<LogId>): seq<LogId> {
    if logs == [] then [] else (if Serves(a, logs[0]) then [logs[0]] else []) + ServedLogs(a, logs[1..])
  }

  ghost function OnRequest(a: Actor, room: Room, now: int, pipe: PipeId, id: nat, r: Request): (a': Actor)
    ensures SameBearer(a', a) && SameTables(a', a)
  {
    var s := RespondScoped(a, now, r);
    LandedAll(Send(a.(db := s.db, blobs := s.blobs), room, pipe, Reply(id, s.response)), room, s.news, pipe)
  }

  function OnWatch(a: Actor, room: Room, pipe: PipeId, logs: seq<LogId>): (a': Actor)
    ensures SameBearer(a', a) && SameTables(a', a)
  {
    var watched := ServedLogs(a, logs);
    var a1 := if pipe in a.pipes
              then a.(pipes := a.pipes[pipe := a.pipes[pipe].(watches := set i | 0 <= i < |watched| :: watched[i])])
                else a;
    Beat(a1, room, pipe, watched)
  }

  /** A push frame: take it in, pass on what it carried, and ask again if it did not settle. */
  ghost function OnFrame(a: Actor, room: Room, now: int, pipe: PipeId, f: Notify): (a': Actor)
    ensures SameBearer(a', a) && SameTables(a', a)
  {
    if pipe !in a.pipes then a
    else
      var applied := ApplyNotify(a.db, a.cursors, a.pipes[pipe].name, now, f);
      var a1 := a.(db := applied.db, cursors := applied.cursors);
      var r := applied.report;
      var a2 := if r.pulled > 0 || r.healed > 0 || r.redactionsApplied > 0
                then Landed(a1, room, f.log, OfLogOnly(f.events, f.log), Some(pipe)) else a1;
      if r.settled then a2 else Soil(a2, pipe)
  }

  /** Send the session's next request, or finish it; a pipe with no room drops the session. */
  ghost function Advance(a: Actor, room: Room, pipe: PipeId): (a': Actor)
    requires SessionsValid(a.pipes)
    ensures SameBearer(a', a) && SameTables(a', a)
  {
    if pipe !in a.pipes || a.pipes[pipe].session.None? then a
    else
      var p := a.pipes[pipe];
      var s := Opened(p.session.value);
      var request := NextRequest(s);
      if request.None? then a.(pipes := a.pipes[pipe := p.(session := None)])
      else
        var id := p.nextRequest;
        var p1 := p.(nextRequest := id + 1);
        var p2 := if room(a.attempts) then p1.(session := Some(s), pending := Some(id))
          else p1.(session := None, dirty := true);
        Send(a, room, pipe, Ask(id, request.value)).(pipes := a.pipes[pipe := p2])
  }

  predicate SessionsValid(pipes: map<PipeId, Pipe>) {
    forall id | id in pipes && pipes[id].session.Some? :: Valid(pipes[id].session.value)
  }

  /** The answer we wait for is fed; anything stale or unsolicited is dropped. */
  ghost function OnResponse(a: Actor, room: Room, pipe: PipeId, id: nat, r: Response): (a': Actor)
    requires SessionsAtRest(a.pipes)
    ensures SameBearer(a', a) && SameTables(a', a)
  {
    if pipe !in a.pipes || a.pipes[pipe].pending != Some(id) || a.pipes[pipe].session.None? then a
    else
      var p := a.pipes[pipe].(pending := None);
      var fed := Feed(Local(p.session.value, a.db, a.cursors), r);
      if fed.None? then a.(pipes := a.pipes[pipe := p.(session := None)])
      else
        FeedIsNearer(Local(p.session.value, a.db, a.cursors), r);
        Advance(a.(db := fed.value.db, cursors := fed.value.cursors,
                   pipes := a.pipes[pipe := p.(session := Some(fed.value.session))]), room, pipe)
  }

  // ── Turns ────────────────────────────────────────────────────────────

  /** A session against one pipe, where there is appetite: pull what is followed there, push our own log if it is. */
  ghost function Start(a: Actor, room: Room, now: int, pipe: PipeId): (a': Actor)
    requires SessionsAtRest(a.pipes)
    ensures SameBearer(a', a) && SameTables(a', a)
  {
    if pipe !in a.pipes then a
    else
      var pull := FollowedOn(a, pipe);
      var p := a.pipes[pipe].(dirty := false);
      if pull == [] then a.(pipes := a.pipes[pipe := p])
      else
        var push := if a.me.Some? && a.me.value in pull then [a.me.value] else [];
        Advance(a.(pipes := a.pipes[pipe := p.(session := Some(NewSession(p.name, now, pull, push)))]), room, pipe)
  }

  ghost function StartAll(a: Actor, room: Room, now: int, pipes: seq<PipeId>): (a': Actor)
    requires SessionsAtRest(a.pipes)
    ensures SameBearer(a', a) && SameTables(a', a)
    ensures SessionsAtRest(a'.pipes)
    decreases |pipes|
  {
    if pipes == [] then a
    else
      StartRests(a, room, now, pipes[0]);
      StartAll(Start(a, room, now, pipes[0]), room, now, pipes[1..])
  }

  ghost function Pump(a: Actor, room: Room, now: int): (a': Actor)
    requires SessionsAtRest(a.pipes)
    ensures SameBearer(a', a) && SameTables(a', a)
  {
    StartAll(a, room, now, Ordered(set id | id in a.pipes && a.pipes[id].dirty && a.pipes[id].session.None?))
  }

  ghost function Receives(a: Actor, room: Room, now: int, pipe: PipeId, msg: PipeMsg): (a': Actor)
    requires SessionsAtRest(a.pipes)
    ensures SameBearer(a', a) && SameTables(a', a)
  {
    match msg
    case Ask(id, request) => OnRequest(a, room, now, pipe, id, request)
    case Reply(id, response) => OnResponse(a, room, pipe, id, response)
    case Frame(f) => OnFrame(a, room, now, pipe, f)
    case Watch(logs) => OnWatch(a, room, pipe, logs)
  }

  ghost function Takes(a: Actor, room: Room, now: int, turn: Turn): (a': Actor)
    requires SessionsAtRest(a.pipes)
    ensures SameBearer(a', a)
  {
    match turn
    case Connect(name) =>
      a.(pipes := a.pipes[a.nextPipe := Pipe(name, None, None, 0, false, {})], nextPipe := a.nextPipe + 1)
    case Disconnect(pipe) => DropPipe(a, pipe)
    case Closed(pipe) => DropPipe(a, pipe)
    case Follow(log, pipe) =>
      if pipe !in a.pipes then a
      else
        var a1 := a.(follows := a.follows[log := (if log in a.follows then a.follows[log] else {}) + {pipe}]);
        Soil(Announce(a1, room, pipe), pipe)
    case Unfollow(log) =>
      if log !in a.follows then a
      else AnnounceAll(a.(follows := a.follows - {log}), room, Ordered(a.follows[log]))
    case Mint(art) =>
      if a.me != Some(art.log) then a
      else
        var a1 := Landed(a.(db := Ingested(a.db, art, now)), room, art.log, [Checked(art)], None);
        SoilAll(a1, if art.log in a1.follows then Ordered(a1.follows[art.log]) else [])
    case EvictBlob(blob) => a.(blobs := a.blobs - {blob})
    case GcClaims(cutoff) => a.(db := Purged(a.db, cutoff))
    case GcBlobs => a.(blobs := map blob | blob in a.blobs && Referred(a.db, blob) :: a.blobs[blob])
    case SyncNow => SoilAll(a, Ordered(a.pipes.Keys))
    case Receive(pipe, msg) => Receives(a, room, now, pipe, msg)
  }

  // ── Follows name live pipes ──────────────────────────────────────────

  /** Every followed log is followed through some pipe, and only through pipes that are up. */
  predicate FollowsLive(a: Actor) {
    forall log | log in a.follows :: a.follows[log] != {} && a.follows[log] <= a.pipes.Keys
  }

  predicate FollowsVia(a: Actor, log: LogId, pipe: PipeId) { log in a.follows && pipe in a.follows[log] }

  /** A dropped pipe is forgotten everywhere, and nothing else is. */
  lemma DropPipeForgets(a: Actor, pipe: PipeId)
    requires FollowsLive(a)
    ensures var a' := DropPipe(a, pipe);
            && a'.pipes.Keys == a.pipes.Keys - {pipe} && FollowsLive(a')
            && forall log, p :: FollowsVia(a', log, p) <==> FollowsVia(a, log, p) && p != pipe
  {
    var a' := DropPipe(a, pipe);
    forall log, p
      ensures FollowsVia(a', log, p) <==> FollowsVia(a, log, p) && p != pipe
    {
      if FollowsVia(a, log, p) && p != pipe {
        assert p in a.follows[log] - {pipe};
      }
    }
  }

  /** Every turn keeps it: what counts as followed never hangs on a pipe that is gone. */
  lemma TurnKeepsFollowsLive(a: Actor, room: Room, now: int, turn: Turn)
    requires SessionsAtRest(a.pipes) && FollowsLive(a)
    ensures FollowsLive(Takes(a, room, now, turn))
  {
    hide SessionsAtRest, Receives, Landed, SoilAll, Soil, Announce, AnnounceAll, DropPipe, Ingested;
    if turn.Disconnect? || turn.Closed? {
      DropPipeForgets(a, turn.pipe);
    }
  }

  // ── Sessions stay at rest between turns ──────────────────────────────

  lemma OpenedRests(s: Session)
    requires Valid(s)
    ensures AtRest(Opened(s))
  {
  }

  lemma NewSessionIsValid(name: string, now: int, pull: seq<LogId>, push: seq<LogId>)
    ensures Valid(NewSession(name, now, pull, push))
  {
    hide PullPlans, PushPlans;
  }

  lemma AdvanceRests(a: Actor, room: Room, pipe: PipeId)
    requires SessionsValid(a.pipes) && forall id | id in a.pipes && id != pipe && a.pipes[id].session.Some? ::
             AtRest(a.pipes[id].session.value)
    ensures SessionsAtRest(Advance(a, room, pipe).pipes)
  {
    hide Valid, NextRequest, Opened;
    if pipe in a.pipes && a.pipes[pipe].session.Some? {
      OpenedRests(a.pipes[pipe].session.value);
    }
  }

  lemma StartRests(a: Actor, room: Room, now: int, pipe: PipeId)
    requires SessionsAtRest(a.pipes)
    ensures SessionsAtRest(Start(a, room, now, pipe).pipes)
  {
    hide Valid, NewSession, FollowedOn, Advance;
    if pipe in a.pipes && FollowedOn(a, pipe) != [] {
      var pull := FollowedOn(a, pipe);
      var p := a.pipes[pipe].(dirty := false);
      var push := if a.me.Some? && a.me.value in pull then [a.me.value] else [];
      NewSessionIsValid(p.name, now, pull, push);
      AdvanceRests(a.(pipes := a.pipes[pipe := p.(session := Some(NewSession(p.name, now, pull, push)))]), room, pipe);
    }
  }
}
