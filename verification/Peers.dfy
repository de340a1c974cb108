/**
 The actor's core, its tables changed in place on every turn: what each method
 leaves is the turn of the actor as a value.
 */
module Peers {
  import opened Bytes
  import opened Rows
  import opened Ingest
  import opened Sorted
  import opened Queries
  import opened Protocol
  import opened ClaimStores
  import opened SyncStates
  import Responding
  import S = Sessions
  import Push
  import opened SyncSessions
  import A = Actors

  class Core {
    const db: ClaimStore
    const state: MemorySyncState
    const instance: InstanceId
    const me: Option<LogId>
    const serve: A.Policy
    /** Which attempts to send find room. */
    const room: A.Room
    var blobs: map<BlobHash, Bytes>
    var pipes: map<A.PipeId, A.Pipe>
    var follows: map<LogId, set<A.PipeId>>
    var nextPipe: A.PipeId
    /** What has been placed on pipes, in order. */
    var outbox: seq<A.Sent>
    var attempts: nat

    ghost function View(): A.Actor
      reads this, db, db.storage, state
    {
      A.Actor(db.View(), state.rows, blobs, instance, me, serve, pipes, follows, nextPipe, outbox, attempts)
    }

    ghost predicate Valid()
      reads this, db, db.storage
    {
      db.Valid() && A.SessionsAtRest(pipes)
    }

    /** A peer with an empty store and no pipes. */
    constructor (instance: InstanceId, me: Option<LogId>, serve: A.Policy, room: A.Room)
      ensures Valid() && View() == A.Actor(EMPTY, map[], map[], instance, me, serve, map[], map[], 0, [], 0)
      ensures this.room == room && fresh(db) && fresh(db.storage) && fresh(state)
    {
      db := new ClaimStore();
      state := new MemorySyncState();
      this.instance, this.me, this.serve, this.room := instance, me, serve, room;
      blobs, pipes, follows, nextPipe, outbox, attempts := map[], map[], map[], 0, [], 0;
    }

    method Serves(log: LogId) returns (served: bool)
      ensures served == A.Serves(View(), log)
    {
      served := serve.Everything? || me == Some(log);
    }

    /** Logs followed via a pipe, ascending. */
    method FollowedOn(pipe: A.PipeId) returns (logs: seq<LogId>)
      ensures logs == A.FollowedOn(View(), pipe)
    {
      logs := Sort(ById(), set log | log in follows && pipe in follows[log]);
    }

    // ── Sending ────────────────────────────────────────────────────────

    /** Place a message if there is room for it. */
    method TrySend(pipe: A.PipeId, msg: A.PipeMsg) returns (ok: bool)
      modifies this`outbox, this`attempts
      ensures View() == A.Send(old(View()), room, pipe, msg)
      ensures ok <==> pipe in pipes && room(old(attempts))
    {
      ok := false;
      if pipe in pipes {
        ok := room(attempts);
        attempts := attempts + 1;
        if ok {
          outbox := outbox + [A.Sent(pipe, msg)];
        }
      }
    }

    method AnnounceWatch(pipe: A.PipeId)
      modifies this`outbox, this`attempts
      ensures View() == A.Announce(old(View()), room, pipe)
    {
      var watched := FollowedOn(pipe);
      var _ := TrySend(pipe, A.Watch(watched));
    }

    method Soil(pipe: A.PipeId)
      requires Valid()
      modifies this`pipes
      ensures Valid() && View() == A.Soil(old(View()), pipe)
    {
      if pipe in pipes {
        pipes := pipes[pipe := pipes[pipe].(dirty := true)];
      }
    }

    method SoilAll(dirty: seq<A.PipeId>)
      requires Valid()
      modifies this`pipes
      ensures Valid() && View() == A.SoilAll(old(View()), dirty)
    {
      hide A.Soil;
      assert dirty[0..] == dirty;
      for i := 0 to |dirty|
        invariant Valid() && A.SoilAll(View(), dirty[i..]) == A.SoilAll(old(View()), dirty)
      {
        assert dirty[i..][0] == dirty[i] && dirty[i..][1..] == dirty[i + 1..];
        Soil(dirty[i]);
      }
      assert dirty[|dirty|..] == [];
    }

    method SendAll(targets: seq<A.PipeId>, msg: A.PipeMsg)
      modifies this`outbox, this`attempts
      ensures View() == A.SendAll(old(View()), room, targets, msg)
    {
      hide A.Send;
      assert targets[0..] == targets;
      for i := 0 to |targets|
        invariant A.SendAll(View(), room, targets[i..], msg) == A.SendAll(old(View()), room, targets, msg)
      {
        assert targets[i..][0] == targets[i] && targets[i..][1..] == targets[i + 1..];
        var _ := TrySend(targets[i], msg);
      }
      assert targets[|targets|..] == [];
    }

    /** New artifacts landed for a log: frame its watchers, except whoever brought them. */
    method Landed(log: LogId, events: seq<Event>, source: Option<A.PipeId>)
      requires Valid()
      modifies this`outbox, this`attempts
      ensures Valid() && View() == A.Landed(old(View()), room, log, events, source)
    {
      hide A.SendAll, Queries.Fingerprint;
      var watchers := Sort(ById(), set id | id in pipes && Some(id) != source && log in pipes[id].watches);
      var frame := FrameFor(log, events);
      SendAll(watchers, A.Frame(frame));
    }

    method FrameFor(log: LogId, events: seq<Event>) returns (frame: Notify)
      requires db.Valid()
      ensures frame == Push.NotifyFor(db.View(), instance, log, events)
    {
      var count := db.CountLog(log);
      var fp := db.Fingerprint(log);
      frame := Notify(log, events, count, fp, instance);
    }

    method LandedAll(news: seq<A.News>, source: A.PipeId)
      requires Valid()
      modifies this`outbox, this`attempts
      ensures Valid() && View() == A.LandedAll(old(View()), room, news, source)
    {
      hide A.Landed;
      assert news[0..] == news;
      for i := 0 to |news|
        invariant Valid() && A.LandedAll(View(), room, news[i..], source) ==
                  A.LandedAll(old(View()), room, news, source)
      {
        assert news[i..][0] == news[i] && news[i..][1..] == news[i + 1..];
        Landed(news[i].log, news[i].events, Some(source));
      }
      assert news[|news|..] == [];
    }

    // ── Serving ────────────────────────────────────────────────────────

    static lemma RowsNext(a: A.Actor, ids: seq<ClaimHash>, i: nat)
      requires i < |ids|
      ensures A.ServedRows(a, ids[i..]) ==
              (if ids[i] in a.db.claims && A.Serves(a, a.db.claims[ids[i]].art.log) then [a.db.claims[ids[i]].art]
                else [])
              + A.ServedRows(a, ids[i + 1..])
    {
      assert ids[i..][1..] == ids[i + 1..];
    }

    method ServedRows(ids: seq<ClaimHash>) returns (arts: seq<Artifact>)
      requires Valid()
      ensures arts == A.ServedRows(View(), ids)
    {
      hide A.ServedRows;
      arts := [];
      ghost var a := View();
      assert ids[0..] == ids;
      for i := 0 to |ids|
        invariant arts + A.ServedRows(a, ids[i..]) == A.ServedRows(a, ids)
      {
        RowsNext(a, ids, i);
        if ids[i] in db.storage.claims {
          var art := db.storage.claims[ids[i]].art;
          var served := Serves(art.log);
          if served {
            arts := arts + [art];
          }
        }
      }
      NoRows(a, ids[|ids|..]);
    }

    static lemma NoRows(a: A.Actor, ids: seq<ClaimHash>)
      requires ids == []
      ensures A.ServedRows(a, ids) == []
    {
    }

    /** Accept pushed events for logs we host, follow or own; decline the rest in silence. */
    method AcceptPublish(events: seq<Event>, now: int) returns (response: Response, news: seq<A.News>)
      requires Valid()
      modifies db`poisoned, db.storage
      ensures Valid()
      ensures var i := A.AcceptEach(old(View()), A.Acceptance(old(db.View()), 0, 0, map[]), events, now);
              db.View() == i.db && response == Ack(i.stored, i.rejected) && news == A.NewsByLog(i.landed)
    {
      hide Ingested, ReportOf;
      var stored: nat, rejected: nat := 0, 0;
      var landed: map<LogId, seq<Event>> := map[];
      ghost var a := View();
      ghost var start := A.Acceptance(db.View(), 0, 0, map[]);
      assert events[0..] == events;
      for k := 0 to |events|
        invariant Valid()
        invariant A.AcceptEach(a, A.Acceptance(db.View(), stored, rejected, landed), events[k..], now) ==
                  A.AcceptEach(a, start, events, now)
      {
        var e := events[k];
        assert events[k..][0] == e && events[k..][1..] == events[k + 1..];
        var log := HeaderLog(e);
        if log.None? {
          rejected := rejected + 1;
        } else {
          var served := Serves(log.value);
          if served || log.value in follows || log == me {
            var report := db.IngestAt(e, now);
            if report.None? {
              rejected := rejected + 1;
            } else {
              var gained := (if report.value.newlyStored.Some? then 1 else 0) + report.value.bodiesAttached;
              stored := stored + gained;
              if gained > 0 || report.value.redactionsApplied > 0 {
                landed := landed[log.value := (if log.value in landed then landed[log.value] else []) + [e]];
              }
            }
          }
        }
      }
      assert events[|events|..] == [];
      response := Ack(stored, rejected);
      news := ByLog(landed);
    }

    static method ByLog(landed: map<LogId, seq<Event>>) returns (news: seq<A.News>)
      ensures news == A.NewsByLog(landed)
    {
      var logs := Sort(ById(), landed.Keys);
      SortIdsLists(ById(), landed.Keys);
      assert forall i | 0 <= i < |logs| :: logs[i] in logs;
      news := A.NewsOf(landed, logs);
    }

    method ReferrerLogs(blob: BlobHash) returns (logs: set<LogId>)
      requires Valid()
      ensures logs == A.ReferrerLogs(db.View(), blob)
    {
      var claims, referrers := db.storage.claims, db.storage.referrers;
      logs := set id | id in claims && Linked(referrers, blob, id) :: claims[id].art.log;
    }

    /** Answer a request within the serve scope, with whatever newly landed. */
    method RespondScoped(now: int, r: Request) returns (response: Response, news: seq<A.News>)
      requires Valid()
      modifies this`blobs, db`poisoned, db.storage
      ensures Valid()
      ensures var s := A.RespondScoped(old(View()), now, r);
              View() == old(View()).(db := s.db, blobs := s.blobs) && response == s.response && news == s.news
    {
      hide A.AcceptEach, A.NewsByLog, Queries.ServeSince, Queries.LogHashes, Queries.Fingerprint, LogLen;
      news := [];
      match r {
        case AskStatus(log) =>
          var served := Serves(log);
          if served {
            response := Responding.Answer(db, instance, now, blobs, r);
          } else {
            response := Status(0, {}, instance);
          }
        case AskSince(log, _, _) =>
          var served := Serves(log);
          if served {
            response := Responding.Answer(db, instance, now, blobs, r);
          } else {
            response := Response.Events([]);
          }
        case AskHashes(log) =>
          var served := Serves(log);
          if served {
            response := Responding.Answer(db, instance, now, blobs, r);
          } else {
            response := Hashes([]);
          }
        case AskClaims(ids) =>
          var arts := ServedRows(ids);
          response := Response.Events(Wrap(arts));
        case GetBlob(hash) =>
          var logs := ReferrerLogs(hash);
          var referenced := exists log :: log in logs && (serve.Everything? || me == Some(log));
          response := Blob(if referenced && hash in blobs then Some(blobs[hash]) else None);
        case PutBlob(hash, bytes) =>
          var claims := db.storage.claims;
          if hash !in blobs && exists id :: id in claims && hash in claims[id].blobs {
            var logs := ReferrerLogs(hash);
            blobs := blobs[hash := bytes];
            response := Ack(1, 0);
            news := ByLog(map log | log in logs :: []);
          } else {
            response := Ack(0, 0);
          }
        case Publish(events) =>
          response, news := AcceptPublish(events, now);
      }
    }

    // ── Pipe events ────────────────────────────────────────────────────

    method DropPipe(pipe: A.PipeId)
      requires Valid()
      modifies this`pipes, this`follows
      ensures Valid() && View() == A.DropPipe(old(View()), pipe)
    {
      pipes := pipes - {pipe};
      follows := map log | log in follows && follows[log] - {pipe} != {} :: follows[log] - {pipe};
    }

    method OnRequest(now: int, pipe: A.PipeId, id: nat, r: Request)
      requires Valid()
      modifies this`blobs, this`outbox, this`attempts, db`poisoned, db.storage
      ensures Valid() && View() == A.OnRequest(old(View()), room, now, pipe, id, r)
    {
      hide A.RespondScoped, A.LandedAll, A.Send;
      var response, news := RespondScoped(now, r);
      var _ := TrySend(pipe, A.Reply(id, response));
      LandedAll(news, pipe);
    }

    static lemma LogsNext(a: A.Actor, logs: seq<LogId>, i: nat)
      requires i < |logs|
      ensures A.ServedLogs(a, logs[i..]) == (if A.Serves(a, logs[i]) then [logs[i]] else [])
              + A.ServedLogs(a, logs[i + 1..])
    {
      assert logs[i..][1..] == logs[i + 1..];
    }

    static lemma NoLogs(a: A.Actor, logs: seq<LogId>)
      requires logs == []
      ensures A.ServedLogs(a, logs) == []
    {
    }

    method ServedLogs(logs: seq<LogId>) returns (served: seq<LogId>)
      ensures served == A.ServedLogs(View(), logs)
    {
      hide A.ServedLogs, A.Serves;
      served := [];
      ghost var a := View();
      assert logs[0..] == logs;
      for i := 0 to |logs|
        invariant served + A.ServedLogs(a, logs[i..]) == A.ServedLogs(a, logs)
      {
        LogsNext(a, logs, i);
        var yes := Serves(logs[i]);
        if yes {
          served := served + [logs[i]];
        }
      }
      NoLogs(a, logs[|logs|..]);
    }

    /** The watch set is replaced, and each watched log answered with a heartbeat. */
    method OnWatch(pipe: A.PipeId, logs: seq<LogId>)
      requires Valid()
      modifies this`pipes, this`outbox, this`attempts
      ensures Valid() && View() == A.OnWatch(old(View()), room, pipe, logs)
    {
      hide A.ServedLogs, A.Beat;
      var watched := ServedLogs(logs);
      if pipe in pipes {
        pipes := pipes[pipe := pipes[pipe].(watches := set i | 0 <= i < |watched| :: watched[i])];
      }
      Beat(pipe, watched);
    }

    method Beat(pipe: A.PipeId, logs: seq<LogId>)
      requires Valid()
      modifies this`outbox, this`attempts
      ensures Valid() && View() == A.Beat(old(View()), room, pipe, logs)
    {
      hide A.Send, Push.NotifyFor;
      assert logs[0..] == logs;
      for i := 0 to |logs|
        invariant Valid() && A.Beat(View(), room, pipe, logs[i..]) == A.Beat(old(View()), room, pipe, logs)
      {
        assert logs[i..][0] == logs[i] && logs[i..][1..] == logs[i + 1..];
        var beat := FrameFor(logs[i], []);
        var _ := TrySend(pipe, A.Frame(beat));
      }
      assert logs[|logs|..] == [];
    }

    static method OfLogOnly(events: seq<Event>, log: LogId) returns (carried: seq<Event>)
      ensures carried == A.OfLogOnly(events, log)
    {
      carried := [];
      for i := 0 to |events|
        invariant carried + A.OfLogOnly(events[i..], log) == A.OfLogOnly(events, log)
      {
        assert events[i..][1..] == events[i + 1..];
        if HeaderLog(events[i]) == Some(log) {
          carried := carried + [events[i]];
        }
      }
      assert A.OfLogOnly(events[|events|..], log) == [];
    }

    /** Take a push frame in, pass on what it carried, and ask again if it did not settle. */
    method ApplyFrame(now: int, pipe: A.PipeId, f: Notify)
      requires Valid()
      modifies this`pipes, this`outbox, this`attempts, state, db`poisoned, db.storage
      ensures Valid() && View() == A.OnFrame(old(View()), room, now, pipe, f)
    {
      hide A.Landed, A.Soil, A.OfLogOnly, Push.ApplyNotify;
      if pipe !in pipes {
        return;
      }
      var carried := OfLogOnly(f.events, f.log);
      var r := Push.Apply(db, state, pipes[pipe].name, now, f);
      if r.pulled > 0 || r.healed > 0 || r.redactionsApplied > 0 {
        Landed(f.log, carried, Some(pipe));
      }
      if !r.settled {
        Soil(pipe);
      }
    }

    // ── Sessions ───────────────────────────────────────────────────────

    /** Send the session's next request, or finish it. */
    method AdvanceSession(pipe: A.PipeId)
      requires db.Valid() && A.SessionsValid(pipes)
      requires forall id | id in pipes && id != pipe && pipes[id].session.Some? :: A.AtRest(pipes[id].session.value)
      modifies this`pipes, this`outbox, this`attempts
      ensures Valid() && View() == A.Advance(old(View()), room, pipe)
    {
      hide S.Valid, S.NextRequest, S.Opened, S.EnterLog, ClaimStore.Valid, A.SessionsAtRest;
      A.AdvanceRests(View(), room, pipe);
      if pipe !in pipes || pipes[pipe].session.None? {
        return;
      }
      var p := pipes[pipe];
      var session := new SyncSession.Resume(p.session.value);
      A.OpenedRests(p.session.value);
      hide A.AtRest, A.SessionsValid;
      var request := session.NextRequest();
      if request.None? {
        pipes := pipes[pipe := p.(session := None)];
        return;
      }
      var id := p.nextRequest;
      var ok := TrySend(pipe, A.Ask(id, request.value));
      var p1 := p.(nextRequest := id + 1);
      if ok {
        pipes := pipes[pipe := p1.(session := Some(session.Value()), pending := Some(id))];
      } else {
        pipes := pipes[pipe := p1.(session := None, dirty := true)];
      }
    }

    /** Feed the answer we wait for; drop anything stale, and the session on a wrong shape. */
    method SessionResponse(pipe: A.PipeId, id: nat, r: Response)
      requires Valid()
      modifies this`pipes, this`outbox, this`attempts, state, db`poisoned, db.storage
      ensures Valid() && View() == A.OnResponse(old(View()), room, pipe, id, r)
    {
      hide S.Valid, S.Feed, S.Nearer, A.Advance;
      if pipe !in pipes || pipes[pipe].pending != Some(id) || pipes[pipe].session.None? {
        return;
      }
      var p := pipes[pipe].(pending := None);
      var session := new SyncSession.Resume(p.session.value);
      ghost var l := session.LocalOf(db, state);
      assert l == S.Local(p.session.value, old(View()).db, old(View()).cursors);
      var ok := session.Feed(db, state, r);
      if !ok {
        pipes := pipes[pipe := p.(session := None)];
        return;
      }
      S.FeedIsNearer(l, r);
      pipes := pipes[pipe := p.(session := Some(session.Value()))];
      AdvanceSession(pipe);
    }

    /** Start a session on one pipe: pull what is followed there, push our own log if it is. */
    method StartSession(now: int, pipe: A.PipeId)
      requires Valid()
      modifies this`pipes, this`outbox, this`attempts
      ensures Valid() && View() == A.Start(old(View()), room, now, pipe)
    {
      hide S.Valid, S.NewSession, A.Advance, A.FollowedOn;
      if pipe !in pipes {
        return;
      }
      var pull := FollowedOn(pipe);
      var p := pipes[pipe].(dirty := false);
      if pull == [] {
        pipes := pipes[pipe := p];
        return;
      }
      var push := if me.Some? && me.value in pull then [me.value] else [];
      var session := new SyncSession(p.name, now, pull, push);
      A.NewSessionIsValid(p.name, now, pull, push);
      pipes := pipes[pipe := p.(session := Some(session.Value()))];
      AdvanceSession(pipe);
    }

    /** Start sessions wherever there is appetite and a free pipe. */
    method Pump(now: int)
      requires Valid()
      modifies this`pipes, this`outbox, this`attempts
      ensures Valid() && View() == A.Pump(old(View()), room, now)
    {
      hide A.Start, S.Valid;
      var ids := Sort(ById(), set id | id in pipes && pipes[id].dirty && pipes[id].session.None?);
      assert ids[0..] == ids;
      for i := 0 to |ids|
        invariant Valid() && A.StartAll(View(), room, now, ids[i..]) == A.StartAll(old(View()), room, now, ids)
      {
        assert ids[i..][0] == ids[i] && ids[i..][1..] == ids[i + 1..];
        StartSession(now, ids[i]);
      }
      assert ids[|ids|..] == [];
    }

    // ── Turns ──────────────────────────────────────────────────────────

    method Connect(name: string) returns (pipe: A.PipeId)
      requires Valid()
      modifies this`pipes, this`nextPipe
      ensures Valid() && View() == A.Takes(old(View()), room, 0, A.Connect(name)) && pipe == old(nextPipe)
    {
      pipe := nextPipe;
      nextPipe := nextPipe + 1;
      pipes := pipes[pipe := A.Pipe(name, None, None, 0, false, {})];
    }

    /** Care about a log via a source. False when there is no such pipe. */
    method Follow(log: LogId, pipe: A.PipeId) returns (ok: bool)
      requires Valid()
      modifies this`pipes, this`follows, this`outbox, this`attempts
      ensures Valid() && View() == A.Takes(old(View()), room, 0, A.Follow(log, pipe)) && ok == (pipe in old(pipes))
    {
      hide A.Announce, A.Soil;
      ok := pipe in pipes;
      if ok {
        follows := follows[log := (if log in follows then follows[log] else {}) + {pipe}];
        AnnounceWatch(pipe);
        Soil(pipe);
      }
    }

    method Unfollow(log: LogId)
      requires Valid()
      modifies this`follows, this`outbox, this`attempts
      ensures Valid() && View() == A.Takes(old(View()), room, 0, A.Unfollow(log))
    {
      hide A.Announce;
      if log !in follows {
        return;
      }
      var told := Sort(ById(), follows[log]);
      follows := follows - {log};
      ghost var a := View();
      assert told[0..] == told;
      for i := 0 to |told|
        invariant Valid() && A.AnnounceAll(View(), room, told[i..]) == A.AnnounceAll(a, room, told)
      {
        assert told[i..][0] == told[i] && told[i..][1..] == told[i + 1..];
        AnnounceWatch(told[i]);
      }
      assert told[|told|..] == [];
    }

    /** Speak: ingest our own claim, frame the watchers, and queue it where we follow our own log. */
    method Mint(art: Artifact, now: int)
      requires Valid() && me == Some(art.log)
      modifies this`pipes, this`outbox, this`attempts, db`poisoned, db.storage
      ensures Valid() && View() == A.Takes(old(View()), room, now, A.Mint(art))
    {
      hide A.Landed, A.SoilAll, Ingested, ReportOf;
      var _ := db.IngestAt(Checked(art), now);
      Landed(art.log, [Checked(art)], None);
      var behind := [];
      if art.log in follows {
        behind := Sort(ById(), follows[art.log]);
      }
      SoilAll(behind);
    }

    method EvictBlob(blob: BlobHash)
      requires Valid()
      modifies this`blobs
      ensures Valid() && View() == A.Takes(old(View()), room, 0, A.EvictBlob(blob))
    {
      blobs := blobs - {blob};
    }

    method GcClaims(cutoff: int) returns (purged: set<ClaimHash>)
      requires Valid()
      modifies db`poisoned, db.storage
      ensures Valid() && View() == A.Takes(old(View()), room, 0, A.GcClaims(cutoff))
      ensures purged == old(db.View()).claims.Keys - db.View().claims.Keys
    {
      purged := db.PurgeOlderThan(cutoff);
    }

    method GcBlobs()
      requires Valid()
      modifies this`blobs
      ensures Valid() && View() == A.Takes(old(View()), room, 0, A.GcBlobs)
    {
      var referrers := db.storage.referrers;
      blobs := map blob | blob in blobs && blob in referrers && referrers[blob] != {} :: blobs[blob];
    }

    method SyncNow()
      requires Valid()
      modifies this`pipes
      ensures Valid() && View() == A.Takes(old(View()), room, 0, A.SyncNow)
    {
      var all := Sort(ById(), pipes.Keys);
      SoilAll(all);
    }

    /** One message off a pipe. */
    method PipeEvent(now: int, pipe: A.PipeId, msg: A.PipeMsg)
      requires Valid()
      modifies this`blobs, this`pipes, this`outbox, this`attempts, state, db`poisoned, db.storage
      ensures Valid() && View() == A.Takes(old(View()), room, now, A.Receive(pipe, msg))
    {
      hide A.OnRequest, A.OnResponse, A.OnFrame, A.OnWatch;
      match msg {
        case Ask(id, request) => OnRequest(now, pipe, id, request);
        case Reply(id, response) => SessionResponse(pipe, id, response);
        case Frame(f) => ApplyFrame(now, pipe, f);
        case Watch(logs) => OnWatch(pipe, logs);
      }
    }
  }
}
