/**
 What a careless landing costs: a remembered fingerprint we do not understand makes
 the next heartbeat count positions we do not hold, and two runs that get there.
 */
module Overtaking {
  import opened Bytes
  import opened Rows
  import opened Ingest
  import opened Converge
  import opened Indexes
  import opened Health
  import opened Queries
  import opened Protocol
  import opened Sessions
  import opened Push
  import opened Links
  import opened Trailing
  import opened Settling
  import opened Windows

  // ── The next heartbeat ───────────────────────────────────────────────

  /** The closing status lands as the peer still is, and the peer's heartbeat follows. */
  ghost function Beaten(peer: string, k: Link, now: int): Link
    requires Remembering(k) && Open(k.session.value)
  {
    var k1 := Landed(k);
    var r := ApplyNotify(k1.us, k1.cursors, peer, now, NotifyFor(k1.them, k1.inst, PlanOf(k.session.value).log, []));
    k1.(us := r.db, cursors := r.cursors)
  }

  lemma BeatenCursor(w: World, peer: string, k: Link, v: Shown, now: int)
    requires Steady(w, peer, k, v) && Remembering(k) && k.them == v.closing && k.reply.value.instance == k.inst
    ensures Open(k.session.value)
    ensures var n := k.session.value;
            var log := PlanOf(n).log;
            var k' := Beaten(peer, k, now);
            && k'.us == k.us && k'.them == k.them && k'.inst == k.inst
            && CursorOf(k'.cursors, peer, log) ==
               n.cursor.(pull := Max(n.cursor.pull, LogLen(k.them, log)), settled := Some(Fingerprint(k.them, log)))
            && n.cursor.instance == Some(k.inst)
  {
    AnsweredPrint(w, peer, k, v);
    RememberingLands(k);
    hide Steady, Fingerprint, LogLen, Feed, Valid;
  }

  lemma WholeLogCovered(w: World, us: State, them: State, log: LogId)
    requires Healthy(w, them)
    ensures |Arrivals(them, log)| == LogLen(them, log)
    ensures Covered(Arrivals(them, log), LogLen(them, log), us) <==> AllKnown(them, log, us)
  {
    hide WellKept, Explained, Indexed, Dense, AllGenuine, LogLen;
    var order := Order(them, log);
    if Covered(order, |order|, us) {
      forall id | InLog(them, log, id)
        ensures id in us.claims
      {
        assert order[them.claims[id].arrival] == id;
      }
    }
    if AllKnown(them, log, us) {
      forall i | 0 <= i < |order|
        ensures order[i] in us.claims
      {
        assert InLog(them, log, order[i]);
      }
    }
  }

  lemma InHandCursor(w: World, peer: string, k: Link)
    requires Assured(w, peer, k) && Remembering(k) && Open(k.session.value)
             && k.session.value.cursor.instance == Some(k.inst)
    ensures Healthy(w, k.them) && k.session.value.cursor.pull <= |Arrivals(k.them, PlanOf(k.session.value).log)|
  {
    hide Healthy, Arrivals, RowsTrail, RowsTrusted, FramesTrue, FramesChecked, Known;
    assert Trails(k.session.value.cursor, PlanOf(k.session.value).log, k.us, k.them, k.inst);
  }

  /**
   If a run was careful until the closing status of the peer as it still is landed,
   the next heartbeat keeps the saved pull behind the data exactly when that landing
   was careful too.
   */
  lemma NextHeartbeatTells(w: World, peer: string, k: Link, steps: seq<Step>, now: int)
    requires Fresh(w, k) && CanRun(w, peer, k, steps) && CarefulRun(w, peer, k, steps, UNSEEN)
    requires var k1 := After(w, peer, k, steps);
             Remembering(k1) && k1.them == ShownAfter(w, peer, k, steps, UNSEEN).closing
               && k1.reply.value.instance == k1.inst
    ensures var k1 := After(w, peer, k, steps);
            Open(k1.session.value) &&
            var plan := PlanOf(k1.session.value);
            var k' := Beaten(peer, k1, now);
            Covered(Arrivals(k'.them, plan.log), CursorOf(k'.cursors, peer, plan.log).pull, k'.us)
            <==> ArrivalsHeld(plan, ShownAfter(w, peer, k, steps, UNSEEN), k1.us)
  {
    hide Fresh, CanRun, CarefulRun, Assured, Steady, Covered, Arrivals, ArrivalsHeld, Understood, Fingerprint, LogLen,
         Landed, Healthy, AllKnown,
         Beaten;
    FreshIsAssured(w, peer, k);
    FreshIsSteady(w, peer, k);
    CarefulStaysAssured(w, peer, k, steps, UNSEEN);
    RunIsSteady(w, peer, k, steps, UNSEEN);
    var k1 := After(w, peer, k, steps);
    var v := ShownAfter(w, peer, k, steps, UNSEEN);
    BeatenCursor(w, peer, k1, v, now);
    var log := PlanOf(k1.session.value).log;
    InHandCursor(w, peer, k1);
    WholeLogCovered(w, k1.us, k1.them, log);
    RememberedMeans(w, peer, k1, v);
    AnsweredPrint(w, peer, k1, v);
    UnderstoodMeans(v.closing, log, k1.us);
  }

  // ── Runs that show it ──────────────────────────────────────────────

  ghost predicate Path(w: World, peer: string, ks: seq<Link>, steps: seq<Step>) {
    |ks| == |steps| + 1 && forall i | 0 <= i < |steps| ::
      Enabled(w, ks[i], steps[i]) && ks[i + 1] == Next(w, peer, ks[i], steps[i])
  }

  lemma {:induction false} PathRuns(w: World, peer: string, ks: seq<Link>, steps: seq<Step>)
    requires Path(w, peer, ks, steps)
    ensures CanRun(w, peer, ks[0], steps) && After(w, peer, ks[0], steps) == ks[|ks| - 1]
    decreases |steps|
  {
    hide Enabled, Next;
    if steps != [] {
      assert ks[1] == Next(w, peer, ks[0], steps[0]);
      PathRuns(w, peer, ks[1..], steps[1..]);
    }
  }

  const LOG: LogId := 7

  function Plain(): World { _ => Content(LOG, [], Body([], None, [], [], 0)) }

  function Note(id: ClaimHash): Artifact { Artifact(id, LOG, [], [], Some(Plain()(id).body)) }

  function Only(id: ClaimHash): State { State(map[id := Row(Note(id), [], [], 0, 0)], map[], map[], map[]) }

  lemma EmptyAnswers()
    ensures LogLen(EMPTY, LOG) == 0 && Fingerprint(EMPTY, LOG) == {} && HashMap(LogHashes(EMPTY, LOG)) == map[]
  {
    assert LogIds(EMPTY, LOG) == {};
  }

  lemma OnlyAnswers(id: ClaimHash)
    ensures LogLen(Only(id), LOG) == 1 && Fingerprint(Only(id), LOG) == {ClaimToken(id, true)}
  {
    assert LogIds(Only(id), LOG) == {id};
  }

  lemma FirstNote(id: ClaimHash)
    ensures Ingested(EMPTY, Note(id), 0) == Only(id)
  {
    var a := Note(id);
    assert LogIds(EMPTY, LOG) == {};
    assert RedactionWrites(EMPTY, a) == [];
    assert StoreWrites(EMPTY, a, 0) == [PutClaim(NewRow(EMPTY, a, 0))];
    ApplySnoc([], PutClaim(NewRow(EMPTY, a, 0)), EMPTY);
    assert [] + [PutClaim(NewRow(EMPTY, a, 0))] == [PutClaim(NewRow(EMPTY, a, 0))];
  }

  /** A session for the log, at one phase with one cursor. */
  function Running(plan: Plan, phase: Phase, cursor: Cursor, count: nat, reconciled: nat): Session {
    Session("peer", 0, [plan], 0, phase, NO_PROGRESS.(reconciled := reconciled),
            cursor, count, 0, true, [], 0, phase != FirstStatus, ToSettle, [], 0, [])
  }

  function Past(n: Session): Session { n.(idx := 1, phase := Finished) }

  function At(us: State, cursors: Cursors, session: Option<Session>, reply: Option<Response>, them: State,
              frames: set<Notify>): Link {
    Link(us, cursors, session, reply, them, 5, {5}, frames)
  }

  function Row7(c: Cursor): Cursors { map[("peer", LOG) := c] }

  const MISSED: Print := {ClaimToken(2, true)}

  function Heartbeat(): Notify { Notify(LOG, [], 1, MISSED, 5) }

  const OPENED := FreshCursor(5)
  const SETTLED := OPENED.(settled := Some(MISSED))
  const OVERTAKEN := SETTLED.(pull := 1)

  lemma EmptyIsHealthy(w: World)
    ensures Healthy(w, EMPTY)
  {
    hide Healthy;
    ReplayIsHealthy(w, []);
  }

  lemma Starts()
    ensures Fresh(Plain(), At(EMPTY, map[], None, None, EMPTY, {}))
  {
    hide Healthy;
    EmptyIsHealthy(Plain());
  }

  /** A store without the second note is overtaken by a pull of 1. */
  lemma SecondIsUnheld(us: State)
    requires 2 !in us.claims
    ensures !Covered(Arrivals(Only(2), LOG), 1, us)
  {
    if Dense(Only(2)) && |Order(Only(2), LOG)| >= 1 {
      assert InLog(Only(2), LOG, Order(Only(2), LOG)[0]);
    }
  }

  // ── A foreign claim in the window ────────────────────────────────────

  const READ := Plan(LOG, true, false)

  /** The boundaries of the run, from two stores that never met. */
  function Boundary(i: nat): Link {
    match i
    case 0 => At(EMPTY, map[], None, None, EMPTY, {})
    case 1 => At(Only(1), map[], None, None, EMPTY, {})
    case 2 => At(Only(1), map[], Some(Running(READ, FirstStatus, NO_CURSOR, 0, 0)), None, EMPTY, {})
    case 3 => At(Only(1), map[], Some(Running(READ, FirstStatus, NO_CURSOR, 0, 0)), Some(Status(0, {}, 5)), EMPTY, {})
    case 4 => At(Only(1), Row7(OPENED), Some(Running(READ, Reconciling, OPENED, 0, 1)), None, EMPTY, {})
    case 5 => At(Only(1), Row7(OPENED), Some(Running(READ, Reconciling, OPENED, 0, 1)), Some(Hashes([])), EMPTY, {})
    case 6 => At(Only(1), Row7(OPENED), Some(Running(READ, Resettling, OPENED, 0, 1)), None, EMPTY, {})
    case 7 => At(Only(1), Row7(OPENED), Some(Running(READ, Resettling, OPENED, 0, 1)), None, Only(2), {})
    case 8 => At(Only(1), Row7(OPENED), Some(Running(READ, Resettling, OPENED, 0, 1)), Some(Status(1, MISSED, 5)),
      Only(2), {})
    case 9 => At(Only(1), Row7(SETTLED), Some(Past(Running(READ, Resettling, SETTLED, 0, 1))), None, Only(2), {})
    case 10 => At(Only(1), Row7(SETTLED), Some(Past(Running(READ, Resettling, SETTLED, 0, 1))), None, Only(2),
      {Heartbeat()})
    case _ => At(Only(1), Row7(OVERTAKEN), Some(Past(Running(READ, Resettling, SETTLED, 0, 1))), None, Only(2),
      {Heartbeat()})
  }

  function Move(i: nat): Step {
    match i
    case 0 => Ours(Note(1), 0)
    case 1 => Begin(0, [LOG], [])
    case 2 => Ask(0)
    case 3 => Land
    case 4 => Ask(0)
    case 5 => Land
    case 6 => Theirs(Note(2), 0)
    case 7 => Ask(0)
    case 8 => Land
    case 9 => Fanout(LOG, [])
    case _ => Hear(Heartbeat(), 0)
  }

  ghost predicate Follows(i: nat) {
    Enabled(Plain(), Boundary(i), Move(i)) && Boundary(i + 1) == Next(Plain(), "peer", Boundary(i), Move(i))
  }

  lemma Writes()
    ensures Follows(0) && Follows(6)
  {
    hide Ingested;
    FirstNote(1);
    FirstNote(2);
  }

  lemma Opens()
    ensures Follows(1)
  {
    assert [LOG][1..] == [];
    assert PullPlans([], [LOG]) == PullPlans([READ], []) == [READ];
  }

  lemma Contacts()
    ensures Follows(2) && Follows(3)
  {
    hide Fingerprint, LogLen;
    EmptyAnswers();
    OnlyAnswers(1);
    assert ClaimToken(1, true) !in {};
  }

  lemma Lists()
    ensures LogHashes(EMPTY, LOG) == []
  {
    assert LogIds(EMPTY, LOG) == {};
  }

  lemma Compares()
    ensures Follows(4) && Follows(5)
  {
    hide Fingerprint, LogLen;
    Lists();
    assert WantSet(Only(1), LOG, map[]) == {};
  }

  lemma Resettles()
    ensures Follows(7) && Follows(8)
  {
    hide Fingerprint, LogLen;
    OnlyAnswers(2);
  }

  lemma Hears()
    ensures Follows(9) && Follows(10)
  {
    hide Fingerprint, LogLen;
    OnlyAnswers(1);
    OnlyAnswers(2);
  }

  lemma EachFollows(i: nat)
    requires i < 11
    ensures Follows(i)
  {
    hide Follows;
    Writes();
    Opens();
    Contacts();
    Compares();
    Resettles();
    Hears();
  }

  /**
   One foreign claim between the hash list and the last status, then a heartbeat:
   the saved pull counts a position of the peer that we do not hold.
   */
  lemma HeartbeatOvertakes() returns (w: World, k: Link, steps: seq<Step>)
    ensures Fresh(w, k) && CanRun(w, "peer", k, steps)
    ensures var k' := After(w, "peer", k, steps);
            var c := CursorOf(k'.cursors, "peer", LOG);
            c.instance == Some(k'.inst) && !Covered(Arrivals(k'.them, LOG), c.pull, k'.us)
  {
    hide Fresh, Next, Enabled, Move, Arrivals, Covered;
    w, k := Plain(), Boundary(0);
    steps := seq(11, i requires 0 <= i < 11 => Move(i));
    var ks := seq(12, i requires 0 <= i < 12 => Boundary(i));
    Starts();
    SecondIsUnheld(Only(1));
    hide Boundary;
    forall i | 0 <= i < 11
      ensures Enabled(w, ks[i], steps[i]) && ks[i + 1] == Next(w, "peer", ks[i], steps[i])
    {
      EachFollows(i);
    }
    PathRuns(w, "peer", ks, steps);
  }

  // ── A session that only pushes ───────────────────────────────────────

  const WRITE := Plan(LOG, false, true)

  ghost function PushBoundary(i: nat): Link {
    match i
    case 0 => At(EMPTY, map[], None, None, EMPTY, {})
    case 1 => At(EMPTY, map[], None, None, Only(2), {})
    case 2 => At(EMPTY, map[], Some(Running(WRITE, FirstStatus, NO_CURSOR, 0, 0)), None, Only(2), {})
    case 3 => At(EMPTY, map[], Some(Running(WRITE, FirstStatus, NO_CURSOR, 0, 0)), Some(Status(1, MISSED, 5)), Only(2),
      {})
    case 4 => At(EMPTY, Row7(OPENED), Some(Running(WRITE, Reconciling, OPENED, 1, 1)), None, Only(2), {})
    case 5 => At(EMPTY, Row7(OPENED), Some(Running(WRITE, Reconciling, OPENED, 1, 1)),
      Some(Hashes(LogHashes(Only(2), LOG))), Only(2), {})
    case 6 => At(EMPTY, Row7(OPENED), Some(Running(WRITE, Resettling, OPENED, 1, 1)), None, Only(2), {})
    case 7 => At(EMPTY, Row7(OPENED), Some(Running(WRITE, Resettling, OPENED, 1, 1)), Some(Status(1, MISSED, 5)),
      Only(2), {})
    case 8 => At(EMPTY, Row7(SETTLED), Some(Past(Running(WRITE, Resettling, SETTLED, 1, 1))), None, Only(2), {})
    case 9 => At(EMPTY, Row7(SETTLED), Some(Past(Running(WRITE, Resettling, SETTLED, 1, 1))), None, Only(2),
      {Heartbeat()})
    case _ => At(EMPTY, Row7(OVERTAKEN), Some(Past(Running(WRITE, Resettling, SETTLED, 1, 1))), None, Only(2),
      {Heartbeat()})
  }

  function PushMove(i: nat): Step {
    match i
    case 0 => Theirs(Note(2), 0)
    case 1 => Begin(0, [], [LOG])
    case 2 => Ask(0)
    case 3 => Land
    case 4 => Ask(0)
    case 5 => Land
    case 6 => Ask(0)
    case 7 => Land
    case 8 => Fanout(LOG, [])
    case _ => Hear(Heartbeat(), 0)
  }

  ghost predicate PushFollows(i: nat) {
    Enabled(Plain(), PushBoundary(i), PushMove(i))
      && PushBoundary(i + 1) == Next(Plain(), "peer", PushBoundary(i), PushMove(i))
  }

  lemma PushOpens()
    ensures PushFollows(0) && PushFollows(1)
  {
    hide Ingested;
    FirstNote(2);
    assert [LOG][1..] == [];
    assert MarkPush([], LOG) == [WRITE];
    assert PushPlans([], [LOG]) == PushPlans([WRITE], []) == [WRITE];
  }

  lemma NothingToServe()
    ensures ServeSince(EMPTY, LOG, 0) == []
  {
    assert Queries.Past(EMPTY, LOG, 0) == {};
  }

  lemma PushAsks()
    ensures PushFollows(2)
  {
    hide Fingerprint, LogLen;
    OnlyAnswers(2);
  }

  lemma PushContacts()
    ensures PushFollows(3)
  {
    hide Fingerprint, LogLen, ServeSince, NextRequest;
    EmptyAnswers();
    NothingToServe();
    assert ClaimToken(2, true) !in {};
  }

  lemma PushCompares()
    ensures PushFollows(4) && PushFollows(5)
  {
    hide LogHashes, HashMap;
    assert OfferSet(EMPTY, LOG, HashMap(LogHashes(Only(2), LOG))) == {};
  }

  lemma PushResettles()
    ensures PushFollows(6) && PushFollows(7)
  {
    hide Fingerprint, LogLen;
    OnlyAnswers(2);
  }

  lemma PushHears()
    ensures PushFollows(8) && PushFollows(9)
  {
    hide Fingerprint, LogLen;
    EmptyAnswers();
    OnlyAnswers(2);
  }

  lemma EachPushFollows(i: nat)
    requires i < 10
    ensures PushFollows(i)
  {
    hide PushFollows;
    PushOpens();
    PushAsks();
    PushContacts();
    PushCompares();
    PushResettles();
    PushHears();
  }

  predicate PushOnly(step: Step) { step.Begin? ==> step.pull == [] }

  predicate NothingLandsLater(steps: seq<Step>) {
    forall i | 0 < i < |steps| :: !steps[i].Ours? && !steps[i].Theirs? && !steps[i].Rebirth?
  }

  /**
   With nothing landing anywhere once it began, a session that pushes a log without
   pulling it remembers the peer's claims unfetched, and the next heartbeat counts them.
   */
  lemma PushOnlyOvertakes() returns (w: World, k: Link, steps: seq<Step>)
    ensures Fresh(w, k) && CanRun(w, "peer", k, steps)
    ensures NothingLandsLater(steps) && forall i | 0 <= i < |steps| :: PushOnly(steps[i])
    ensures var k' := After(w, "peer", k, steps);
            var c := CursorOf(k'.cursors, "peer", LOG);
            c.instance == Some(k'.inst) && !Covered(Arrivals(k'.them, LOG), c.pull, k'.us)
  {
    hide Fresh, Next, Enabled, Arrivals, Covered;
    w, k := Plain(), PushBoundary(0);
    steps := seq(10, i requires 0 <= i < 10 => PushMove(i));
    var ks := seq(11, i requires 0 <= i < 11 => PushBoundary(i));
    Starts();
    SecondIsUnheld(EMPTY);
    hide PushBoundary;
    forall i | 0 <= i < 10
      ensures Enabled(w, ks[i], steps[i]) && ks[i + 1] == Next(w, "peer", ks[i], steps[i])
    {
      EachPushFollows(i);
    }
    PathRuns(w, "peer", ks, steps);
  }
}
