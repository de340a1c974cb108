/**
 Two stores and the messages between them, as steps: sessions that open, ask, are
 answered and are abandoned at any boundary, answers that arrive late or never,
 other writers on both sides, a peer reborn with a new arrival order, and push
 frames that are repeated, reordered or lost.
 */
module Links {
  import opened Bytes
  import opened Rows
  import opened Ingest
  import opened Converge
  import opened Health
  import opened Protocol
  import opened Sessions
  import opened Shapes
  import opened Push

  datatype Link = Link(
    us: State,
    cursors: Cursors,
    session: Option<Session>,
    reply: Option<Response>,
    them: State,
    inst: InstanceId,
    used: set<InstanceId>,
    frames: set<Notify>)

  datatype Step =
    | Begin(now: int, pull: seq<LogId>, push: seq<LogId>)
    | Abandon
    | Ask(now: int)
    | Land
    | Ours(a: Artifact, now: int)
    | Theirs(a: Artifact, now: int)
    | Rebirth(store: State, inst: InstanceId)
    | Fanout(log: LogId, events: seq<Event>)
    | Hear(frame: Notify, now: int)

  /** The session with what it is handed. */
  function LocalOf(k: Link): Local
    requires k.session.Some?
  {
    Local(k.session.value, k.us, k.cursors)
  }

  ghost predicate Asking(k: Link) { k.session.Some? && InProgress(LocalOf(k)) }

  ghost predicate Enabled(w: World, k: Link, step: Step) {
    match step
    case Begin(_, _, _) => true
    case Abandon => true
    case Ask(_) => Asking(k)
    case Land => Asking(k) && k.reply.Some?
    case Ours(a, _) => Genuine(w, a)
    case Theirs(a, _) => Genuine(w, a)
    case Rebirth(store, inst) => Healthy(w, store) && inst !in k.used
    case Fanout(_, events) => AllChecked(w, events)
    case Hear(frame, _) => frame in k.frames
  }

  /** Events that pass their check against content addressing. */
  ghost predicate AllChecked(w: World, events: seq<Event>) {
    forall i | 0 <= i < |events| :: events[i].Checked? && Genuine(w, events[i].art)
  }

  /** The answer is consumed; one of the wrong shape ends the session. */
  ghost function Landed(k: Link): Link
    requires Asking(k) && k.reply.Some?
  {
    var fed := Feed(LocalOf(k), k.reply.value);
    if fed.None? then k.(session := None, reply := None)
    else k.(us := fed.value.db, cursors := fed.value.cursors, session := Some(fed.value.session), reply := None)
  }

  /** The peer answers from its store as it is now; a retry is answered afresh. */
  ghost function Answering(k: Link, now: int): Link
    requires Asking(k)
  {
    var request := NextRequest(k.session.value).value;
    k.(reply := Some(Respond(k.them, k.inst, now, map[], request)), them := Served(k.them, now, request))
  }

  ghost function Next(w: World, peer: string, k: Link, step: Step): Link
    requires Enabled(w, k, step)
  {
    match step
    case Begin(now, pull, push) => k.(session := Some(Opened(NewSession(peer, now, pull, push))), reply := None)
    case Abandon => k.(session := None, reply := None)
    case Ask(now) => Answering(k, now)
    case Land => Landed(k)
    case Ours(a, now) => k.(us := Ingested(k.us, a, now))
    case Theirs(a, now) => k.(them := Ingested(k.them, a, now))
    case Rebirth(store, inst) => k.(them := store, inst := inst, used := k.used + {inst})
    case Fanout(log, events) => k.(frames := k.frames + {NotifyFor(k.them, k.inst, log, events)})
    case Hear(frame, now) =>
      var r := ApplyNotify(k.us, k.cursors, peer, now, frame);
      k.(us := r.db, cursors := r.cursors)
  }

  ghost predicate CanRun(w: World, peer: string, k: Link, steps: seq<Step>)
    decreases |steps|
  {
    steps == [] || (Enabled(w, k, steps[0]) && CanRun(w, peer, Next(w, peer, k, steps[0]), steps[1..]))
  }

  ghost function After(w: World, peer: string, k: Link, steps: seq<Step>): Link
    requires CanRun(w, peer, k, steps)
    decreases |steps|
  {
    if steps == [] then k else After(w, peer, Next(w, peer, k, steps[0]), steps[1..])
  }

  /** Two stores that never met: no cursor rows, nothing in flight. */
  ghost predicate Fresh(w: World, k: Link) {
    && Healthy(w, k.us) && Healthy(w, k.them)
    && k.cursors == map[] && k.session.None? && k.reply.None? && k.frames == {} && k.inst in k.used
  }
}
