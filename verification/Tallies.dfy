/**
 What the tallies mean: an ingest's report in terms of the rows before and after, and
 the counts of sessions, frames and acknowledgements as what their events really did.
 */
module Tallies {
  import opened Bytes
  import opened Rows
  import opened Ingest
  import opened Converge
  import opened Indexes
  import opened Health
  import opened Queries
  import opened Protocol
  import opened Sessions
  import opened Push
  import opened Privacy

  // ── One ingest ───────────────────────────────────────────────────────

  predicate Progress(r: Report) { r.newlyStored.Some? || r.bodiesAttached > 0 || r.redactionsApplied > 0 }

  /** The claim an artifact redacts was not on record as redacted, or loses its body. */
  ghost predicate TakesEffect(s: State, s': State, x: Artifact) {
    Redacts(x).Some? && (Redacts(x).value !in s.redactions
      || (Held(s, Redacts(x).value) && !Held(s', Redacts(x).value)))
  }

  lemma AfterRedactionIs(w: World, s: State, x: Artifact)
    requires Healthy(w, s) && Genuine(w, x) && Redacts(x) != Some(x.id)
    ensures var s1 := AfterRedaction(s, x);
            s1.claims.Keys == s.claims.Keys && (Held(s1, x.id) <==> Held(s, x.id))
            && (x.id in s1.redactions <==> x.id in s.redactions)
  {
    hide AllGenuine, Explained, Indexed, Dense, NoEmptySets, Without, AfterRedaction;
    RedactionEffect(s, x);
  }

  lemma RedactionCounts(w: World, s: State, x: Artifact, now: int)
    requires Healthy(w, s) && Genuine(w, x) && Redacts(x) != Some(x.id)
    ensures ReportOf(s, x).redactionsApplied == if TakesEffect(s, Ingested(s, x, now), x) then 1 else 0
  {
    hide WellKept, AllGenuine, Explained, Indexed, Dense, Ingested, AfterRedaction, RedactClaim, Duplicate, KeptBody,
         Suppressed;
    Absorb(w, s, x, now);
    if Redacts(x).Some? {
      var t := Redacts(x).value;
      DroppableIffContent(w, s, t);
      assert Held(Ingested(s, x, now), t) <==>
             (Held(s, t) || (t == x.id && x.body.Some?))
             && (RedactClaim(w, t) || t !in Ingested(s, x, now).redactions);
    }
  }

  /**
   A report, in terms of the rows before and after: whether the claim is new, whether a
   body came to a claim already held, whether a redaction took effect, whether there
   was nothing to do, whether a body offered is not held in the end, and how many
   quotes a body that was taken in could not be entered.
   */
  lemma ReportMeans(w: World, s: State, x: Artifact, now: int)
    requires Healthy(w, s) && Genuine(w, x) && Redacts(x) != Some(x.id)
    ensures var r := ReportOf(s, x);
            var s' := Ingested(s, x, now);
            && (r.newlyStored == if x.id in s.claims then None else Some(x.id))
            && (r.bodiesAttached == if x.id in s.claims && !Held(s, x.id) && Held(s', x.id) then 1 else 0)
            && (r.redactionsApplied == if TakesEffect(s, s', x) then 1 else 0)
            && (r.duplicates == if x.id in s.claims && (Held(s, x.id) <==> Held(s', x.id)) then 1 else 0)
            && (r.redactedSkips == if x.body.Some? && !Held(s', x.id) then 1 else 0)
            && (r.skippedEmbeds == if x.body.Some? && !Held(s, x.id) && Held(s', x.id) then x.body.value.skipped else 0)
  {
    var s' := Ingested(s, x, now);
    AfterRedactionIs(w, s, x);
    RedactionCounts(w, s, x, now);
    GenuineRedacts(w, x);
    hide Healthy, Ingested, AfterRedaction, Droppable, Genuine, TakesEffect;
    HeldAfter(w, s, x, now);
  }

  lemma HeldAfter(w: World, s: State, x: Artifact, now: int)
    requires Healthy(w, s) && Genuine(w, x) && Redacts(x) != Some(x.id)
    ensures var s' := Ingested(s, x, now);
            && s'.claims.Keys == s.claims.Keys + {x.id} && Healthy(w, s')
            && (Held(s', x.id) <==> (Held(s, x.id) || x.body.Some?) && (RedactClaim(w, x.id) || x.id !in s.redactions))
            && (Held(s, x.id) ==> RedactClaim(w, x.id) || x.id !in s.redactions)
  {
    hide WellKept, AllGenuine, Indexed, Dense, Ingested, RedactClaim;
    Absorb(w, s, x, now);
  }

  /** A row keeps the tag it came under, its header, its log, its place and the time it was received. */
  predicate SamePlace(row': Row, row: Row) {
    && row'.art.tag == row.art.tag && row'.art.header == row.art.header && row'.art.log == row.art.log
    && row'.arrival == row.arrival && row'.receivedAt == row.receivedAt
  }

  lemma RedactionKeepsPlaces(s: State, x: Artifact)
    requires WellKept(s)
    ensures var s1 := AfterRedaction(s, x);
            && WellKept(s1) && s1.claims.Keys == s.claims.Keys
               && (forall id | id in s.claims :: SamePlace(s1.claims[id], s.claims[id]))
            && LogIds(s1, x.log) == LogIds(s, x.log)
  {
    RedactionEffect(s, x);
    hide AfterRedaction, NoEmptySets, Without;
  }

  lemma StoreKeepsPlaces(s: State, x: Artifact, now: int)
    requires WellKept(s)
    ensures var s' := ApplyAll(StoreWrites(s, x, now), s);
            && x.id in s'.claims
            && (x.id !in s.claims ==>
                  && s'.claims[x.id].art.tag == x.tag && s'.claims[x.id].art.header == x.header
                  && s'.claims[x.id].art.log == x.log
                  && s'.claims[x.id].arrival == LogLen(s, x.log) && s'.claims[x.id].receivedAt == now)
            && forall id | id in s.claims :: id in s'.claims && SamePlace(s'.claims[id], s.claims[id])
  {
    StoreEffect(s, x, now);
    hide NoEmptySets, With, StoreWrites, LogLen;
  }

  /**
   What is local to a row: a new claim keeps the tag it came under, goes to the end of
   its log and was received now; a claim already held keeps its tag, its place and the
   time it was received, whatever the artifact says; and so does every other claim.
   */
  lemma RowsKeepTheirPlace(s: State, x: Artifact, now: int)
    requires WellKept(s)
    ensures var s' := Ingested(s, x, now);
            && x.id in s'.claims
            && (x.id !in s.claims ==>
                  && s'.claims[x.id].art.tag == x.tag && s'.claims[x.id].art.header == x.header
                  && s'.claims[x.id].art.log == x.log
                  && s'.claims[x.id].arrival == LogLen(s, x.log) && s'.claims[x.id].receivedAt == now)
            && forall id | id in s.claims :: id in s'.claims && SamePlace(s'.claims[id], s.claims[id])
  {
    hide Ingested, AfterRedaction, WellKept, StoreWrites, LogIds;
    RedactionKeepsPlaces(s, x);
    StoreKeepsPlaces(AfterRedaction(s, x), x, now);
    IngestedInTwoSteps(s, x, now);
  }

  // ── Progress is change ───────────────────────────────────────────────

  lemma NoProgressNoWrites(w: World, s: State, x: Artifact, now: int)
    requires Healthy(w, s) && Genuine(w, x) && Redacts(x) != Some(x.id) && !Progress(ReportOf(s, x))
    ensures Ingested(s, x, now) == s
  {
    NewsMeans(w, s, x);
    GenuineRedacts(w, x);
    hide WellKept, AllGenuine, Indexed, Dense, NoEmptySets, StoreWrites, Genuine;
    assert Stale(w, s, x);
    assert RedactionWrites(s, x) == [];
    assert AfterRedaction(s, x) == s;
    assert Duplicate(s, x);
    NothingToStore(s, x, now);
  }

  lemma NothingToStore(s: State, x: Artifact, now: int)
    requires RedactionWrites(s, x) == [] && Duplicate(s, x)
    ensures Ingested(s, x, now) == s
  {
    hide RedactionWrites, Duplicate;
    assert StoreWrites(AfterRedaction(s, x), x, now) == [];
  }

  /** An ingest reports progress exactly when it changed the store. */
  lemma ProgressIsChange(w: World, s: State, x: Artifact, now: int)
    requires Healthy(w, s) && Genuine(w, x) && Redacts(x) != Some(x.id)
    ensures Progress(ReportOf(s, x)) <==> Ingested(s, x, now) != s
  {
    ReportMeans(w, s, x, now);
    HeldAfter(w, s, x, now);
    RedactionRecorded(w, s, x, now);
    hide Healthy, Genuine, Ingested, ReportOf;
    if !Progress(ReportOf(s, x)) {
      NoProgressNoWrites(w, s, x, now);
    }
  }

  lemma RedactionRecorded(w: World, s: State, x: Artifact, now: int)
    requires Healthy(w, s) && Genuine(w, x)
    ensures Redacts(x).Some? ==> Redacts(x).value in Ingested(s, x, now).redactions
  {
    hide WellKept, AllGenuine, Indexed, Dense, Explained, Ingested;
    Absorb(w, s, x, now);
  }

  // ── Frames ───────────────────────────────────────────────────────────

  ghost predicate HonestAll(w: World, events: seq<Event>) { forall k | 0 <= k < |events| :: Honest(w, events[k]) }

  ghost function CountWhere(events: seq<Event>, p: Event -> bool): nat {
    if events == [] then 0 else (if p(events[0]) then 1 else 0) + CountWhere(events[1..], p)
  }

  function OffLog(log: LogId): Event -> bool { (e: Event) => HeaderLog(e) != Some(log) }

  function Damaged(log: LogId): Event -> bool { (e: Event) => HeaderLog(e) == Some(log) && !e.Checked? }

  function Unasked(f: Filter): Event -> bool { (e: Event) => !Admits(f, e) }

  function BadlyAnswered(f: Filter): Event -> bool { (e: Event) => Admits(f, e) && !e.Checked? }

  function Unchecked(): Event -> bool { (e: Event) => !e.Checked? }

  predicate SameProgress(r': NotifyReport, r: NotifyReport) {
    r'.pulled == r.pulled && r'.healed == r.healed && r'.redactionsApplied == r.redactionsApplied
  }

  /** What taking events of a frame in did: `off` were of other logs, `bad` failed their check. */
  ghost predicate Tallied(w: World, i: Intake, i': Intake, off: nat, bad: nat) {
    var r, r' := i.report, i'.report;
    && Healthy(w, i'.db) && i.db.claims.Keys <= i'.db.claims.Keys
    && r'.pulled == r.pulled + |i'.db.claims| - |i.db.claims|
    && r'.offPlan == r.offPlan + off && r'.rejectedEvents == r.rejectedEvents + bad && r'.settled == r.settled
    && r.pulled <= r'.pulled && r.healed <= r'.healed && r.redactionsApplied <= r'.redactionsApplied
    && (SameProgress(r', r) ==> i'.db == i.db)
  }

  lemma OneTallied(w: World, i: Intake, log: LogId, e: Event, now: int)
    requires Healthy(w, i.db) && Honest(w, e)
    ensures Tallied(w, i, TakePushed(i, log, e, now), if OffLog(log)(e) then 1 else 0, if Damaged(log)(e) then 1 else 0)
  {
    hide Healthy, Genuine, Ingested, ReportOf, SenderDelta, Xor, RedactTarget;
    if HeaderLog(e) == Some(log) && e.Checked? {
      ReportMeans(w, i.db, e.art, now);
      HeldAfter(w, i.db, e.art, now);
      ProgressIsChange(w, i.db, e.art, now);
      KeysCount(i.db.claims, Ingested(i.db, e.art, now).claims, e.art.id);
    }
  }

  lemma TalliedAdds(w: World, i: Intake, i1: Intake, i2: Intake, off: nat, bad: nat, off': nat, bad': nat)
    requires Tallied(w, i, i1, off, bad) && Tallied(w, i1, i2, off', bad')
    ensures Tallied(w, i, i2, off + off', bad + bad')
  {
    hide Healthy;
  }

  /**
   What a frame's report says: the new claims are those the store gained, events of
   other logs and events that fail their check are counted apart, and a frame that
   reports no progress changed nothing.
   */
  lemma {:induction false} FrameTallies(w: World, i: Intake, log: LogId, events: seq<Event>, now: int)
    requires Healthy(w, i.db) && HonestAll(w, events)
    ensures Tallied(w, i, TakeAllPushed(i, log, events, now), CountWhere(events, OffLog(log)),
            CountWhere(events, Damaged(log)))
    decreases |events|
  {
    hide Healthy, Tallied, TakePushed, Honest, OffLog, Damaged;
    if events == [] {
      NothingTallied(w, i);
    } else {
      assert Honest(w, events[0]) && HonestAll(w, events[1..]);
      var i1 := TakePushed(i, log, events[0], now);
      OneTallied(w, i, log, events[0], now);
      TalliedIsHealthy(w, i, i1, if OffLog(log)(events[0]) then 1 else 0, if Damaged(log)(events[0]) then 1 else 0);
      FrameTallies(w, i1, log, events[1..], now);
      TalliedAdds(w, i, i1, TakeAllPushed(i1, log, events[1..], now),
                  if OffLog(log)(events[0]) then 1 else 0, if Damaged(log)(events[0]) then 1 else 0,
                  CountWhere(events[1..], OffLog(log)), CountWhere(events[1..], Damaged(log)));
    }
  }

  lemma NothingTallied(w: World, i: Intake)
    requires Healthy(w, i.db)
    ensures Tallied(w, i, i, 0, 0)
  {
    hide Healthy;
  }

  lemma TalliedIsHealthy(w: World, i: Intake, i': Intake, off: nat, bad: nat)
    requires Tallied(w, i, i', off, bad)
    ensures Healthy(w, i'.db)
  {
  }

  lemma KeysCount<T>(m: map<ClaimHash, T>, m': map<ClaimHash, T>, id: ClaimHash)
    requires m'.Keys == m.Keys + {id}
    ensures |m'| == |m| + if id in m then 0 else 1
  {
    assert |m| == |m.Keys| && |m'| == |m'.Keys|;
    if id in m {
      assert m'.Keys == m.Keys;
    }
  }

  // ── Sessions ─────────────────────────────────────────────────────────

  /** How many of the events asked for are news where they land. */
  ghost function FreshAsked(w: World, s: State, f: Filter, events: seq<Event>, now: int): nat
    decreases |events|
  {
    if events == [] then 0
    else if Admits(f, events[0]) then
      (if events[0].Checked? && !Stale(w, s, events[0].art) then 1 else 0)
      + FreshAsked(w, Accepted(s, events[0], now), f, events[1..], now)
    else FreshAsked(w, s, f, events[1..], now)
  }

  /**
   What a session's tally says after taking events in: the pulled claims are those the
   store gained, with the healed bodies they are the events that were news, what was not
   asked for and what fails its check are counted apart, and the log stays clean exactly
   when there was neither.
   */
  lemma {:induction false} SessionTallies(w: World, l: Local, f: Filter, events: seq<Event>)
    requires Healthy(w, l.db) && HonestAll(w, events)
    ensures var l' := TakeAll(l, f, events);
            var r, r' := l.session.report, l'.session.report;
            var off := CountWhere(events, Unasked(f));
            var bad := CountWhere(events, BadlyAnswered(f));
            && Healthy(w, l'.db) && l.db.claims.Keys <= l'.db.claims.Keys
            && r'.pulled == r.pulled + |l'.db.claims| - |l.db.claims|
            && r'.offPlan == r.offPlan + off && r'.rejectedEvents == r.rejectedEvents + bad
            && (l'.session.clean <==> l.session.clean && off == 0 && bad == 0)
            && r'.pulled + r'.healed == r.pulled + r.healed + FreshAsked(w, l.db, f, events, l.session.now)
            && r.healed <= r'.healed
            && r' == r.(pulled := r'.pulled, healed := r'.healed, offPlan := r'.offPlan,
               rejectedEvents := r'.rejectedEvents)
    decreases |events|
  {
    hide Healthy, Genuine, Ingested, ReportOf, Admits, RedactTarget;
    if events != [] {
      var e, rest := events[0], events[1..];
      var l1 := TakeIn(l, f, e);
      assert Honest(w, e) && HonestAll(w, rest);
      if Admits(f, e) && e.Checked? {
        ReportMeans(w, l.db, e.art, l.session.now);
        NewsMeans(w, l.db, e.art);
        HeldAfter(w, l.db, e.art, l.session.now);
        KeysCount(l.db.claims, l1.db.claims, e.art.id);
      }
      SessionTallies(w, l1, f, rest);
    }
  }

  // ── Acknowledgements ─────────────────────────────────────────────────

  /** How many events are news where they land. */
  ghost function Fresh(w: World, s: State, events: seq<Event>, now: int): nat
    decreases |events|
  {
    if events == [] then 0
    else (if events[0].Checked? && !Stale(w, s, events[0].art) then 1 else 0)
         + Fresh(w, Accepted(s, events[0], now), events[1..], now)
  }

  /** A publish is acknowledged with the events that were news and the events that fail their check. */
  lemma {:induction false} AckTallies(w: World, s: State, events: seq<Event>, now: int)
    requires Healthy(w, s) && HonestAll(w, events)
    ensures AckOf(s, events, now) == Ack(Fresh(w, s, events, now), CountWhere(events, Unchecked()))
    decreases |events|
  {
    hide Healthy, Genuine, Ingested, ReportOf, Stale, RedactTarget;
    if events != [] {
      var e := events[0];
      assert Honest(w, e) && HonestAll(w, events[1..]);
      if e.Checked? {
        NewsMeans(w, s, e.art);
        HeldAfter(w, s, e.art, now);
      }
      AckTallies(w, Accepted(s, e, now), events[1..], now);
    }
  }
}
