/**
 The push path: applying a server-initiated frame, and the model of the sender's
 fingerprint that keeps the settled cache in step with it.
 */
module Push {
  import opened Bytes
  import opened Rows
  import opened Ingest
  import opened Converge
  import opened Indexes
  import opened Health
  import opened Queries
  import opened Protocol
  import opened ClaimStores
  import opened SyncStates

  datatype NotifyReport = NotifyReport(
    pulled: nat, healed: nat, redactionsApplied: nat, rejectedEvents: nat, offPlan: nat, settled: bool)

  const NO_NOTICE := NotifyReport(0, 0, 0, 0, 0, false)

  /** The frame sent for a log, with whatever just landed in it. */
  function NotifyFor(db: State, instance: InstanceId, log: LogId, events: seq<Event>): Notify {
    Notify(log, events, LogLen(db, log), Fingerprint(db, log), instance)
  }

  /** What taking `a` in is assumed to do to the sender's fingerprint, our shelves standing in for theirs. */
  function SenderDelta(db: State, log: LogId, a: Artifact): Print {
    var claim := {ClaimToken(a.id, a.body.Some?)};
    match RedactTarget(log, a.body)
    case None => claim
    case Some(t) =>
      var delta := Xor(claim, {RedactionToken(t, a.id)});
      if Held(db, t) then Xor(Xor(delta, {ClaimToken(t, true)}), {ClaimToken(t, false)}) else delta
  }

  /** The store and the cached fingerprint while a frame's events are taken in. */
  datatype Intake = Intake(db: State, settled: Option<Print>, report: NotifyReport)

  function TakePushed(i: Intake, log: LogId, e: Event, now: int): Intake {
    if HeaderLog(e) != Some(log) then i.(report := i.report.(offPlan := i.report.offPlan + 1))
    else if !e.Checked? then i.(report := i.report.(rejectedEvents := i.report.rejectedEvents + 1))
    else
      var r := ReportOf(i.db, e.art);
      Intake(
        Ingested(i.db, e.art, now),
        if i.settled.Some? then Some(Xor(i.settled.value, SenderDelta(i.db, log, e.art))) else None,
        i.report.(
          pulled := i.report.pulled + (if r.newlyStored.Some? then 1 else 0),
          healed := i.report.healed + r.bodiesAttached,
          redactionsApplied := i.report.redactionsApplied + r.redactionsApplied))
  }

  function TakeAllPushed(i: Intake, log: LogId, events: seq<Event>, now: int): Intake
    decreases |events|
  {
    if events == [] then i else TakeAllPushed(TakePushed(i, log, events[0], now), log, events[1..], now)
  }

  /** Counts against a dead arrival order mean nothing. */
  function OnIncarnation(c: Cursor, instance: InstanceId): Cursor {
    if c.instance == Some(instance) then c else FreshCursor(instance)
  }

  predicate Settles(c: Cursor, ours: Print, n: Notify) { n.fp == ours || c.settled == Some(n.fp) }

  /** By equality or by the cache: fast-forward to the sender's count, never back. */
  function Judged(c: Cursor, ours: Print, n: Notify): Cursor {
    if Settles(c, ours, n) then c.(pull := Max(c.pull, n.count), settled := Some(n.fp)) else c
  }

  datatype Applied = Applied(db: State, cursors: Cursors, report: NotifyReport)

  function ApplyNotify(db: State, cursors: Cursors, peer: string, now: int, n: Notify): Applied {
    var c := OnIncarnation(CursorOf(cursors, peer, n.log), n.instance);
    var i := TakeAllPushed(Intake(db, c.settled, NO_NOTICE), n.log, n.events, now);
    var c1 := c.(settled := i.settled);
    var ours := Fingerprint(i.db, n.log);
    Applied(i.db, cursors[(peer, n.log) := Judged(c1, ours, n)], i.report.(settled := Settles(c1, ours, n)))
  }

  // ── The sender's fingerprint, exactly ────────────────────────────────

  /** Exactly when the model is right about a sender in state `s`. */
  predicate ModelFits(s: State, db: State, log: LogId, a: Artifact) {
    && a.id !in s.claims
    && match RedactTarget(log, a.body)
       case None => a.body.None? || a.id !in s.redactions
       case Some(t) =>
         && (t !in s.redactions || (a.id < s.redactions[t] && !RedactsInLog(s, log, t)))
         && (Held(db, t) <==> Droppable(s, t) && s.claims[t].art.log == log)
  }

  function Recorded(m: map<ClaimHash, ClaimHash>, a: Artifact): map<ClaimHash, ClaimHash> {
    match Redacts(a)
    case None => m
    case Some(t) => if t !in m || a.id < m[t] then m[t := a.id] else m
  }

  lemma IngestRecords(s: State, a: Artifact, now: int)
    requires WellKept(s)
    ensures Ingested(s, a, now).redactions == Recorded(s.redactions, a)
  {
    hide StoreWrites, AfterRedaction, Duplicate, With, Without, Ingested;
    RedactionEffect(s, a);
    IngestedInTwoSteps(s, a, now);
    StoreEffect(AfterRedaction(s, a), a, now);
  }

  /** A claim token after one ingest, in terms of the state before. */
  lemma ClaimTokenAfter(w: World, s: State, a: Artifact, now: int, id: ClaimHash, hasBody: bool)
    requires Healthy(w, s) && Genuine(w, a)
    ensures var m := Recorded(s.redactions, a);
            ClaimToken(id, hasBody) in Fingerprint(Ingested(s, a, now), a.log) <==>
            && (InLog(s, a.log, id) || id == a.id)
            && hasBody == ((Held(s, id) || (id == a.id && a.body.Some?)) && (RedactClaim(w, id) || id !in m))
  {
    hide Ingested, Fingerprint, RedactClaim, WellKept, Dense, Indexed, Explained;
    var s' := Ingested(s, a, now);
    Absorb(w, s, a, now);
    IngestRecords(s, a, now);
    ClaimTokenMeans(s', a.log, id, hasBody);
    assert Held(s', id) <==>
           (Held(s, id) || (id == a.id && a.body.Some?)) && (RedactClaim(w, id) || id !in s'.redactions);
    assert id in s'.claims ==> s'.claims[id].art.log == w(id).log;
    assert id in s.claims ==> s.claims[id].art.log == w(id).log;
  }

  lemma RedactionTokenAfter(w: World, s: State, a: Artifact, now: int, t: ClaimHash, r: ClaimHash)
    requires Healthy(w, s) && Genuine(w, a)
    ensures var m := Recorded(s.redactions, a);
            RedactionToken(t, r) in Fingerprint(Ingested(s, a, now), a.log) <==>
            t in m && m[t] == r && (InLog(s, a.log, r) || r == a.id)
  {
    hide Ingested, Fingerprint, RedactClaim, WellKept, Dense, Indexed, Explained;
    var s' := Ingested(s, a, now);
    Absorb(w, s, a, now);
    IngestRecords(s, a, now);
    RedactionTokenMeans(s', a.log, t, r);
    assert r in s'.claims ==> s'.claims[r].art.log == w(r).log;
    assert r in s.claims ==> s.claims[r].art.log == w(r).log;
  }

  lemma XorIn(a: Print, b: Print, x: Token)
    ensures x in Xor(a, b) <==> (x in a) != (x in b)
  {
  }

  lemma ClaimTokenInDelta(db: State, log: LogId, a: Artifact, id: ClaimHash, hasBody: bool)
    ensures ClaimToken(id, hasBody) in SenderDelta(db, log, a) <==>
            (id == a.id && hasBody == a.body.Some?) !=
            (RedactTarget(log, a.body) == Some(id) && Held(db, id))
  {
  }

  lemma RedactionTokenInDelta(db: State, log: LogId, a: Artifact, t: ClaimHash, r: ClaimHash)
    ensures RedactionToken(t, r) in SenderDelta(db, log, a) <==> r == a.id && RedactTarget(log, a.body) == Some(t)
  {
  }

  lemma ClaimTokensFit(w: World, s: State, db: State, a: Artifact, now: int, id: ClaimHash, hasBody: bool)
    requires Healthy(w, s) && Genuine(w, a) && ModelFits(s, db, a.log, a)
    ensures ClaimToken(id, hasBody) in Fingerprint(Ingested(s, a, now), a.log) <==>
            ClaimToken(id, hasBody) in Xor(Fingerprint(s, a.log), SenderDelta(db, a.log, a))
  {
    hide Ingested, Fingerprint, WellKept, Dense, Indexed, SenderDelta;
    ClaimTokenAfter(w, s, a, now, id, hasBody);
    ClaimTokenMeans(s, a.log, id, hasBody);
    ClaimTokenInDelta(db, a.log, a, id, hasBody);
    XorIn(Fingerprint(s, a.log), SenderDelta(db, a.log, a), ClaimToken(id, hasBody));
    GenuineRedacts(w, a);
    hide Genuine;
    if Held(s, id) {
      DroppableIffContent(w, s, id);
    }
  }

  lemma RedactionTokensFit(w: World, s: State, db: State, a: Artifact, now: int, t: ClaimHash, r: ClaimHash)
    requires Healthy(w, s) && Genuine(w, a) && ModelFits(s, db, a.log, a)
    ensures RedactionToken(t, r) in Fingerprint(Ingested(s, a, now), a.log) <==>
            RedactionToken(t, r) in Xor(Fingerprint(s, a.log), SenderDelta(db, a.log, a))
  {
    hide Ingested, Fingerprint, WellKept, Dense, Indexed, SenderDelta, RedactClaim, Genuine;
    RedactionTokenAfter(w, s, a, now, t, r);
    RedactionTokenMeans(s, a.log, t, r);
    RedactionTokenInDelta(db, a.log, a, t, r);
    XorIn(Fingerprint(s, a.log), SenderDelta(db, a.log, a), RedactionToken(t, r));
  }

  lemma FittingModelIsExact(w: World, s: State, db: State, a: Artifact, now: int)
    requires Healthy(w, s) && Genuine(w, a) && ModelFits(s, db, a.log, a)
    ensures Fingerprint(Ingested(s, a, now), a.log) == Xor(Fingerprint(s, a.log), SenderDelta(db, a.log, a))
  {
    hide Ingested, Fingerprint, Healthy, SenderDelta, Genuine, ModelFits, Xor;
    forall x
      ensures x in Fingerprint(Ingested(s, a, now), a.log) <==>
              x in Xor(Fingerprint(s, a.log), SenderDelta(db, a.log, a))
    {
      match x
      case ClaimToken(id, hasBody) => ClaimTokensFit(w, s, db, a, now, id, hasBody);
      case RedactionToken(t, r) => RedactionTokensFit(w, s, db, a, now, t, r);
    }
  }

  /** Where the model does not fit, some token tells. */
  lemma ExactModelFits(w: World, s: State, db: State, a: Artifact, now: int)
    requires Healthy(w, s) && Genuine(w, a) && Redacts(a) != Some(a.id)
    requires Fingerprint(Ingested(s, a, now), a.log) == Xor(Fingerprint(s, a.log), SenderDelta(db, a.log, a))
    ensures ModelFits(s, db, a.log, a)
  {
    hide Ingested, Fingerprint, WellKept, Dense, Indexed, SenderDelta;
    var log := a.log;
    var held := a.body.Some?;
    GenuineRedacts(w, a);
    ClaimTokenAfter(w, s, a, now, a.id, held);
    ClaimTokenMeans(s, log, a.id, held);
    ClaimTokenInDelta(db, log, a, a.id, held);
    XorIn(Fingerprint(s, log), SenderDelta(db, log, a), ClaimToken(a.id, held));
    ClaimTokenAfter(w, s, a, now, a.id, !held);
    ClaimTokenMeans(s, log, a.id, !held);
    ClaimTokenInDelta(db, log, a, a.id, !held);
    XorIn(Fingerprint(s, log), SenderDelta(db, log, a), ClaimToken(a.id, !held));
    if Redacts(a).Some? {
      var t := Redacts(a).value;
      ExactAtTarget(w, s, db, a, now, t);
    }
  }

  lemma ExactAtTarget(w: World, s: State, db: State, a: Artifact, now: int, t: ClaimHash)
    requires Healthy(w, s) && Genuine(w, a) && Redacts(a) == Some(t) && t != a.id && a.id !in s.claims
    requires Fingerprint(Ingested(s, a, now), a.log) == Xor(Fingerprint(s, a.log), SenderDelta(db, a.log, a))
    ensures t !in s.redactions || (a.id < s.redactions[t] && !RedactsInLog(s, a.log, t))
    ensures Held(db, t) <==> Droppable(s, t) && s.claims[t].art.log == a.log
  {
    hide Ingested, Fingerprint, WellKept, Dense, Indexed, SenderDelta;
    var log := a.log;
    RedactionTokenAfter(w, s, a, now, t, a.id);
    RedactionTokenMeans(s, log, t, a.id);
    RedactionTokenInDelta(db, log, a, t, a.id);
    XorIn(Fingerprint(s, log), SenderDelta(db, log, a), RedactionToken(t, a.id));
    if t in s.redactions {
      var r := s.redactions[t];
      RedactionTokenAfter(w, s, a, now, t, r);
      RedactionTokenMeans(s, log, t, r);
      RedactionTokenInDelta(db, log, a, t, r);
      XorIn(Fingerprint(s, log), SenderDelta(db, log, a), RedactionToken(t, r));
    }
    ClaimTokenAfter(w, s, a, now, t, true);
    ClaimTokenMeans(s, log, t, true);
    ClaimTokenInDelta(db, log, a, t, true);
    XorIn(Fingerprint(s, log), SenderDelta(db, log, a), ClaimToken(t, true));
    ClaimTokenAfter(w, s, a, now, t, false);
    ClaimTokenMeans(s, log, t, false);
    ClaimTokenInDelta(db, log, a, t, false);
    XorIn(Fingerprint(s, log), SenderDelta(db, log, a), ClaimToken(t, false));
    DroppableIffContent(w, s, t);
  }

  /**
   The delta computed from the receiver's state before ingest is the sender's
   exactly when the claim is new there and, for content, not suppressed there;
   for a redaction, the first in its log, with the target's body on both shelves
   or on neither.
   */
  lemma SenderDeltaIsExact(w: World, s: State, db: State, a: Artifact, now: int)
    requires Healthy(w, s) && Genuine(w, a) && Redacts(a) != Some(a.id)
    ensures Fingerprint(Ingested(s, a, now), a.log) == Xor(Fingerprint(s, a.log), SenderDelta(db, a.log, a))
            <==> ModelFits(s, db, a.log, a)
  {
    hide Ingested, Fingerprint, Healthy, SenderDelta, Genuine, ModelFits, Xor;
    if ModelFits(s, db, a.log, a) {
      FittingModelIsExact(w, s, db, a, now);
    }
    if Fingerprint(Ingested(s, a, now), a.log) == Xor(Fingerprint(s, a.log), SenderDelta(db, a.log, a)) {
      ExactModelFits(w, s, db, a, now);
    }
  }

  /** The model fits each artifact where it lands, the sender's shelves and ours moving on together. */
  ghost predicate ModelFitsAll(s: State, db: State, log: LogId, xs: seq<Artifact>, now: int, now': int)
    decreases |xs|
  {
    xs == [] ||
    (&& xs[0].log == log && ModelFits(s, db, log, xs[0])
     && ModelFitsAll(Ingested(s, xs[0], now'), Ingested(db, xs[0], now), log, xs[1..], now, now'))
  }

  lemma {:induction false} IntakeFollows(w: World, s: State, i: Intake, log: LogId, xs: seq<Artifact>, now: int,
                                         now': int)
    requires Healthy(w, s) && (forall k | 0 <= k < |xs| :: Genuine(w, xs[k]))
             && ModelFitsAll(s, i.db, log, xs, now, now')
    requires i.settled == Some(Fingerprint(s, log))
    ensures TakeAllPushed(i, log, Wrap(xs), now).settled == Some(Fingerprint(IngestAll(s, xs, now'), log))
    decreases |xs|
  {
    hide Ingested, Fingerprint, Healthy, SenderDelta, Genuine, ModelFits, Xor, ReportOf;
    if xs != [] {
      var x := xs[0];
      FittingModelIsExact(w, s, i.db, x, now');
      Absorb(w, s, x, now');
      assert Wrap(xs)[0] == Checked(x) && Wrap(xs)[1..] == Wrap(xs[1..]);
      IntakeFollows(w, Ingested(s, x, now'), TakePushed(i, log, Checked(x), now), log, xs[1..], now, now');
    }
  }

  /**
   A cache that remembered the sender's fingerprint still does after a frame of
   everything that newly landed there, as long as the model fits each in turn: the
   frame settles and the cursor reaches the sender's count.
   */
  lemma CacheFollowsPush(w: World, s: State, db: State, cursors: Cursors, peer: string, instance: InstanceId,
                         log: LogId,
                         xs: seq<Artifact>, now: int, now': int)
    requires Healthy(w, s) && (forall k | 0 <= k < |xs| :: Genuine(w, xs[k])) && ModelFitsAll(s, db, log, xs, now, now')
    requires CursorOf(cursors, peer, log).instance == Some(instance)
    requires CursorOf(cursors, peer, log).settled == Some(Fingerprint(s, log))
    ensures var s' := IngestAll(s, xs, now');
            var r := ApplyNotify(db, cursors, peer, now, NotifyFor(s', instance, log, Wrap(xs)));
            && r.report.settled
            && CursorOf(r.cursors, peer, log).settled == Some(Fingerprint(s', log))
            && CursorOf(r.cursors, peer, log).pull >= LogLen(s', log)
  {
    hide Fingerprint, Healthy, Genuine, ModelFitsAll, TakeAllPushed, IngestAll, LogLen;
    IntakeFollows(w, s, Intake(db, CursorOf(cursors, peer, log).settled, NO_NOTICE), log, xs, now, now');
  }

  // ── What a frame comes to ────────────────────────────────────────────

  /** The remembered fingerprint, followed through a frame's events; none on a new incarnation. */
  function FollowedCache(db: State, c: Cursor, instance: InstanceId, log: LogId, events: seq<Event>,
                         now: int): Option<Print> {
    if c.instance != Some(instance) then None
    else TakeAllPushed(Intake(db, c.settled, NO_NOTICE), log, events, now).settled
  }

  lemma {:induction false} NothingToFollow(i: Intake, log: LogId, events: seq<Event>, now: int)
    ensures i.settled.None? ==> TakeAllPushed(i, log, events, now).settled.None?
    decreases |events|
  {
    if events != [] {
      NothingToFollow(TakePushed(i, log, events[0], now), log, events[1..], now);
    }
  }

  lemma FrameParts(db: State, cursors: Cursors, peer: string, now: int, n: Notify)
    ensures var c := CursorOf(cursors, peer, n.log);
            var r := ApplyNotify(db, cursors, peer, now, n);
            var c' := CursorOf(r.cursors, peer, n.log);
            var cache := FollowedCache(db, c, n.instance, n.log, n.events, now);
            var pull := if c.instance == Some(n.instance) then c.pull else 0;
            && r.cursors == cursors[(peer, n.log) := c']
            && c'.instance == Some(n.instance) && c'.push == (if c.instance == Some(n.instance) then c.push else 0)
            && (r.report.settled <==> n.fp == Fingerprint(r.db, n.log) || cache == Some(n.fp))
            && (r.report.settled ==> c'.settled == Some(n.fp) && c'.pull == if pull < n.count then n.count else pull)
            && (!r.report.settled ==> c'.settled == cache && c'.pull == pull)
  {
    hide TakeAllPushed, Fingerprint;
    var c := OnIncarnation(CursorOf(cursors, peer, n.log), n.instance);
    NothingToFollow(Intake(db, c.settled, NO_NOTICE), n.log, n.events, now);
  }

  /**
   A sender's frame, on the stores and the row. If our part of the log is the sender's
   once the events are in, the frame settles: the row remembers the sender's
   fingerprint and its pull is raised to the sender's count. If not, it settles exactly
   when the remembered fingerprint, followed through the events, is the sender's. A
   frame that does not settle leaves the pull where it was, or at 0 on a new incarnation.
   */
  lemma FrameOutcome(db: State, s: State, cursors: Cursors, peer: string, instance: InstanceId, log: LogId,
                     events: seq<Event>, now: int)
    ensures var c := CursorOf(cursors, peer, log);
            var r := ApplyNotify(db, cursors, peer, now, NotifyFor(s, instance, log, events));
            var c' := CursorOf(r.cursors, peer, log);
            var pull := if c.instance == Some(instance) then c.pull else 0;
            && c'.instance == Some(instance) && c'.push == (if c.instance == Some(instance) then c.push else 0)
            && (SameLog(r.db, s, log) ==> r.report.settled)
            && (!SameLog(r.db, s, log) ==>
                  (r.report.settled <==>
                   FollowedCache(db, c, instance, log, events, now) == Some(Fingerprint(s, log))))
            && (r.report.settled ==>
                  && c'.settled == Some(Fingerprint(s, log))
                  && c'.pull == if pull < LogLen(s, log) then LogLen(s, log) else pull)
            && (!r.report.settled ==>
                  c'.pull == pull && c'.settled == FollowedCache(db, c, instance, log, events, now))
            && forall p, other: LogId | (p, other) != (peer, log) ::
               CursorOf(r.cursors, p, other) == CursorOf(cursors, p, other)
  {
    var n := NotifyFor(s, instance, log, events);
    hide Fingerprint, LogLen, ApplyNotify, FollowedCache, SameLog;
    FrameParts(db, cursors, peer, now, n);
    FingerprintDecides(ApplyNotify(db, cursors, peer, now, n).db, s, log);
  }

  // ── In place ─────────────────────────────────────────────────────────

  lemma {:induction false} PushedSnoc(i: Intake, log: LogId, events: seq<Event>, k: nat, now: int)
    requires k < |events|
    ensures TakeAllPushed(i, log, events[..k + 1], now) ==
            TakePushed(TakeAllPushed(i, log, events[..k], now), log, events[k], now)
    decreases k
  {
    hide TakePushed;
    if k == 0 {
      assert events[..1][1..] == [];
    } else {
      assert events[..k + 1][1..] == events[1..][..k] && events[..k][1..] == events[1..][..k - 1];
      PushedSnoc(TakePushed(i, log, events[0], now), log, events[1..], k - 1, now);
    }
  }

  /** The delta, folded digest by digest. */
  method FoldDelta(db: ClaimStore, log: LogId, a: Artifact) returns (delta: Print)
    requires db.Valid()
    ensures delta == SenderDelta(db.View(), log, a)
  {
    delta := {ClaimToken(a.id, a.body.Some?)};
    var target := RedactTarget(log, a.body);
    if target.Some? {
      delta := Xor(delta, {RedactionToken(target.value, a.id)});
      if target.value in db.storage.claims && db.storage.claims[target.value].art.body.Some? {
        delta := Xor(delta, {ClaimToken(target.value, true)});
        delta := Xor(delta, {ClaimToken(target.value, false)});
      }
    }
  }

  /** Apply one frame to the store and the cursor row, event by event. */
  method Apply(db: ClaimStore, state: MemorySyncState, peer: string, now: int, n: Notify) returns (report: NotifyReport)
    requires db.Valid()
    modifies db`poisoned, db.storage, state
    ensures db.Valid()
    ensures Applied(db.View(), state.rows, report) == ApplyNotify(old(db.View()), old(state.rows), peer, now, n)
  {
    hide Ingested, ReportOf, SenderDelta, Fingerprint, Xor;
    report := NO_NOTICE;
    var cursor := state.Cursor(peer, n.log);
    if cursor.instance != Some(n.instance) {
      cursor := FreshCursor(n.instance);
    }
    ghost var start := Intake(db.View(), cursor.settled, NO_NOTICE);
    ghost var c0 := cursor;
    assert n.events[..0] == [];
    for k := 0 to |n.events|
      invariant db.Valid() && state.rows == old(state.rows) && cursor == c0.(settled := cursor.settled)
                && !report.settled
      invariant Intake(db.View(), cursor.settled, report) == TakeAllPushed(start, n.log, n.events[..k], now)
    {
      var e := n.events[k];
      PushedSnoc(start, n.log, n.events, k, now);
      if HeaderLog(e) != Some(n.log) {
        report := report.(offPlan := report.offPlan + 1);
      } else if e.Checked? {
        var delta := FoldDelta(db, n.log, e.art);
        var answer := db.IngestAt(e, now);
        report := report.(
          pulled := report.pulled + (if answer.value.newlyStored.Some? then 1 else 0),
          healed := report.healed + answer.value.bodiesAttached,
          redactionsApplied := report.redactionsApplied + answer.value.redactionsApplied);
        if cursor.settled.Some? {
          cursor := cursor.(settled := Some(Xor(cursor.settled.value, delta)));
        }
      } else {
        var answer := db.IngestAt(e, now);
        report := report.(rejectedEvents := report.rejectedEvents + 1);
      }
    }
    assert n.events[..|n.events|] == n.events;
    var ours := db.Fingerprint(n.log);
    if n.fp == ours || cursor.settled == Some(n.fp) {
      cursor := cursor.(pull := Max(cursor.pull, n.count), settled := Some(n.fp));
      report := report.(settled := true);
    }
    state.SetCursor(peer, n.log, cursor);
  }
}
