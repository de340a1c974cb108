/**
 News reaches whoever asked for it: what landed is framed to every watcher but its
 source that has room, and a push or a frame is passed on exactly when it changed the
 store.
 */
module Fanouts {
  import opened Bytes
  import opened Rows
  import opened Ingest
  import opened Converge
  import opened Health
  import opened Sorted
  import opened Queries
  import opened Protocol
  import opened Push
  import opened Actors
  import opened Tallies

  // ── Frames for watchers ──────────────────────────────────────────────

  /** A message placed between two states of the outbox. */
  ghost predicate Placed(a: Actor, a': Actor, pipe: PipeId, msg: PipeMsg) {
    exists j :: |a.outbox| <= j < |a'.outbox| && a'.outbox[j] == Sent(pipe, msg)
  }

  /** What sending one message to some pipes comes to: each with room gets it, nothing else is sent. */
  lemma {:induction false} SendAllReaches(a: Actor, room: Room, pipes: seq<PipeId>, msg: PipeMsg)
    requires forall k | 0 <= k < |pipes| :: pipes[k] in a.pipes
    ensures var a' := SendAll(a, room, pipes, msg);
            && a' == a.(outbox := a'.outbox, attempts := a.attempts + |pipes|)
            && a.outbox <= a'.outbox && |a'.outbox| - |a.outbox| <= |pipes|
            && (forall k | 0 <= k < |pipes| && room(a.attempts + k) :: Placed(a, a', pipes[k], msg))
            && (forall j | |a.outbox| <= j < |a'.outbox| :: a'.outbox[j].msg == msg && a'.outbox[j].pipe in pipes)
    decreases |pipes|
  {
    if pipes != [] {
      var a1 := Send(a, room, pipes[0], msg);
      var rest := pipes[1..];
      SendAllReaches(a1, room, rest, msg);
      var a' := SendAll(a1, room, rest, msg);
      if room(a.attempts) {
        assert a1.outbox[|a.outbox|] == Sent(pipes[0], msg) && a'.outbox[|a.outbox|] == a1.outbox[|a.outbox|];
      }
      forall k | 0 <= k < |pipes| && room(a.attempts + k)
        ensures Placed(a, a', pipes[k], msg)
      {
        if k > 0 {
          assert pipes[k] == rest[k - 1] && room(a1.attempts + (k - 1));
          var j :| |a1.outbox| <= j < |a'.outbox| && a'.outbox[j] == Sent(rest[k - 1], msg);
        }
      }
    }
  }

  /** Everyone who watches a log, but the source of the news. */
  function WatchersOf(a: Actor, log: LogId, source: Option<PipeId>): set<PipeId> {
    set id | id in a.pipes && log in a.pipes[id].watches && !(source.Some? && source.value == id)
  }

  ghost predicate AlwaysRoom(room: Room) { forall k :: room(k) }

  /**
   What landed in a log is framed once to each watcher but its source that has room,
   with the events, and the count and fingerprint of the log as it now is.
   */
  lemma LandedReachesWatchers(a: Actor, room: Room, log: LogId, events: seq<Event>, source: Option<PipeId>)
    ensures var a' := Landed(a, room, log, events, source);
            var frame := Frame(Notify(log, events, LogLen(a.db, log), Fingerprint(a.db, log), a.instance));
            && a' == a.(outbox := a'.outbox, attempts := a.attempts + |WatchersOf(a, log, source)|)
            && a.outbox <= a'.outbox
            && (forall j | |a.outbox| <= j < |a'.outbox| ::
                  a'.outbox[j].msg == frame && a'.outbox[j].pipe in WatchersOf(a, log, source))
            && (AlwaysRoom(room) ==> forall p | p in WatchersOf(a, log, source) :: Placed(a, a', p, frame))
  {
    hide Ascending, Fingerprint, LogLen;
    var watchers := set id | id in a.pipes && Some(id) != source && log in a.pipes[id].watches;
    assert watchers == WatchersOf(a, log, source);
    SortIdsLists(ById(), watchers);
    var pipes := Ordered(watchers);
    assert forall k | 0 <= k < |pipes| :: pipes[k] in pipes;
    hide SortIds;
    SendAllReaches(a, room, pipes, Frame(NotifyFor(a.db, a.instance, log, events)));
    forall p | p in watchers && AlwaysRoom(room)
      ensures Placed(a, Landed(a, room, log, events, source), p, Frame(NotifyFor(a.db, a.instance, log, events)))
    {
      var k :| 0 <= k < |pipes| && pipes[k] == p;
      assert room(a.attempts + k);
    }
  }

  /** Speaking: our claim is in the store, and every watcher of our log is told of it at once. */
  lemma MintTellsWatchers(w: World, a: Actor, room: Room, now: int, x: Artifact)
    requires SessionsAtRest(a.pipes) && a.me == Some(x.log) && Healthy(w, a.db) && Genuine(w, x) && AlwaysRoom(room)
    ensures var a' := Takes(a, room, now, Mint(x));
            && a'.db == Ingested(a.db, x, now) && x.id in a'.db.claims
            && forall p | p in WatchersOf(a, x.log, None) ::
                 Placed(a, a', p, Frame(Notify(x.log, [Checked(x)], LogLen(a'.db, x.log), Fingerprint(a'.db, x.log),
                   a.instance)))
  {
    hide Ingested, Fingerprint, LogLen, Landed, Healthy, Genuine, Placed, Ordered;
    var a0 := a.(db := Ingested(a.db, x, now));
    IsHeld(w, a.db, x, now);
    LandedReachesWatchers(a0, room, x.log, [Checked(x)], None);
    assert WatchersOf(a0, x.log, None) == WatchersOf(a, x.log, None);
    var a1 := Landed(a0, room, x.log, [Checked(x)], None);
    var followed := if x.log in a1.follows then Ordered(a1.follows[x.log]) else [];
    SoilAllSendsNothing(a1, followed);
    forall p | p in WatchersOf(a, x.log, None)
      ensures Placed(a, SoilAll(a1, followed), p,
                     Frame(Notify(x.log, [Checked(x)], LogLen(a0.db, x.log), Fingerprint(a0.db, x.log), a.instance)))
    {
      PlacedAlike(a0, a1, a, SoilAll(a1, followed), p,
                  Frame(Notify(x.log, [Checked(x)], LogLen(a0.db, x.log), Fingerprint(a0.db, x.log), a.instance)));
    }
  }

  lemma PlacedAlike(a: Actor, a': Actor, b: Actor, b': Actor, p: PipeId, msg: PipeMsg)
    requires Placed(a, a', p, msg) && a.outbox == b.outbox && a'.outbox == b'.outbox
    ensures Placed(b, b', p, msg)
  {
  }

  lemma IsHeld(w: World, s: State, x: Artifact, now: int)
    requires Healthy(w, s) && Genuine(w, x)
    ensures x.id in Ingested(s, x, now).claims
  {
    hide Ingested, WellKept, AllGenuine, Explained, Genuine;
    Absorb(w, s, x, now);
  }

  lemma {:induction false} SoilAllSendsNothing(a: Actor, pipes: seq<PipeId>)
    ensures SoilAll(a, pipes) == a.(pipes := SoilAll(a, pipes).pipes)
    decreases |pipes|
  {
    if pipes != [] {
      SoilAllSendsNothing(Soil(a, pipes[0]), pipes[1..]);
    }
  }

  // ── What is passed on ────────────────────────────────────────────────

  /** An accepted event is news to pass on exactly when it changed the store. */
  lemma NewsIsChange(w: World, a: Actor, i: Acceptance, x: Artifact, now: int)
    requires Healthy(w, i.db) && Genuine(w, x) && Redacts(x) != Some(x.id) && Accepts(a, x.log)
    ensures var i' := AcceptOne(a, i, Checked(x), now);
            var before := if x.log in i.landed then i.landed[x.log] else [];
            && i'.db == Ingested(i.db, x, now)
            && i'.landed == if i'.db != i.db then i.landed[x.log := before + [Checked(x)]] else i.landed
  {
    hide Healthy, Genuine, Ingested, Accepts, RedactTarget;
    ProgressIsChange(w, i.db, x, now);
    ReportMeans(w, i.db, x, now);
    hide ReportOf;
  }

  /** A frame that changed the store is passed on to the log's other watchers; one that did not is not. */
  lemma FrameIsPassedOn(w: World, a: Actor, room: Room, now: int, pipe: PipeId, f: Notify)
    requires pipe in a.pipes && Healthy(w, a.db) && HonestAll(w, f.events) && AlwaysRoom(room)
    ensures var a' := OnFrame(a, room, now, pipe, f);
            var msg := Frame(Notify(f.log, OfLogOnly(f.events, f.log), LogLen(a'.db, f.log), Fingerprint(a'.db, f.log),
              a.instance));
            && (a'.db != a.db ==> forall p | p in WatchersOf(a, f.log, Some(pipe)) :: Placed(a, a', p, msg))
            && (forall j | |a.outbox| <= j < |a'.outbox| ::
                  a'.outbox[j].msg == msg && a'.outbox[j].pipe in WatchersOf(a, f.log, Some(pipe)))
  {
    hide Fingerprint, LogLen, Landed, Healthy, Placed, TakeAllPushed, Judged, HonestAll;
    var c := OnIncarnation(CursorOf(a.cursors, a.pipes[pipe].name, f.log), f.instance);
    FrameTallies(w, Intake(a.db, c.settled, NO_NOTICE), f.log, f.events, now);
    var applied := ApplyNotify(a.db, a.cursors, a.pipes[pipe].name, now, f);
    var a1 := a.(db := applied.db, cursors := applied.cursors);
    LandedReachesWatchers(a1, room, f.log, OfLogOnly(f.events, f.log), Some(pipe));
    assert WatchersOf(a1, f.log, Some(pipe)) == WatchersOf(a, f.log, Some(pipe));
    var a2 := Landed(a1, room, f.log, OfLogOnly(f.events, f.log), Some(pipe));
    forall p, msg | Placed(a1, a2, p, msg)
      ensures Placed(a, OnFrame(a, room, now, pipe, f), p, msg) || !Progressed(applied.report)
    {
      if Progressed(applied.report) {
        PlacedAlike(a1, a2, a, OnFrame(a, room, now, pipe, f), p, msg);
      }
    }
  }

  predicate Progressed(r: NotifyReport) { r.pulled > 0 || r.healed > 0 || r.redactionsApplied > 0 }
}
