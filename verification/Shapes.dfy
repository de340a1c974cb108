/** How each answer moves a session: the few fields it touches, phase by phase. */
module Shapes {
  import opened Bytes
  import opened Rows
  import opened Ingest
  import opened Queries
  import opened Sorted
  import opened Protocol
  import opened Sessions

  ghost predicate InProgress(l: Local) {
    Valid(l.session) && !l.session.phase.Starting? && !l.session.phase.Finished?
  }

  lemma OpenInProgress(l: Local)
    requires InProgress(l)
    ensures Open(l.session) && l.session.settleRounds <= 2
  {
  }

  lemma FinishLogShape(n: Session)
    ensures var n' := FinishLog(n);
            && n'.phase in {FirstStatus, Finished} && n'.plans == n.plans && n'.idx == n.idx + 1 && n'.peer == n.peer
            && (n.settleRounds <= 3 ==> Valid(n'))
  {
  }

  /** Same place in the plan. */
  predicate SamePlan(n': Session, n: Session) {
    n'.plans == n.plans && n'.idx == n.idx && n'.peer == n.peer
  }

  lemma FirstStatusFromContact(l: Local, count: nat, fp: Print, inst: InstanceId)
    requires Open(l.session)
    ensures var l1 := Contacted(l, count, inst);
            var n1 := l1.session;
            Open(n1) &&
            FeedFirstStatus(l, count, fp, inst) ==
              if PlanOf(n1).pull && n1.cursor.pull < count then l1.(session := n1.(phase := Pulling))
              else
                var l2 := l1.(session := BeginPrimaryPush(n1, l.db));
                if l2.session.phase.Settling? then (PrimaryPushKeeps(n1, l.db); SettleWith(l2, count, fp, inst)) else l2
  {
    hide SettleWith, BeginPrimaryPush;
  }

  lemma PeerCountContacted(l: Local, count: nat, inst: InstanceId)
    requires Open(l.session)
    ensures Contacted(l, count, inst).session.peerCount == count
  {
  }

  lemma ClaimsShape(l: Local, events: seq<Event>)
    requires InProgress(l) && l.session.phase.Fetching?
    ensures var n := l.session;
            var end := Chunk(n.wantSent, |n.wantIds|);
            var l1 := TakeAll(l, Asked(n.wantIds[n.wantSent..end]), events);
            var n1 := l1.session.(wantSent := end);
            && FeedClaims(l, events) == l1.(session := if end < |n.wantIds| then n1.(phase := Fetching)
               else AfterFetching(n1))
            && SamePlan(n1, n) && n1.cursor == n.cursor && n1.settleRounds <= 2 && n1.wantIds == n.wantIds
               && n1.extraBatch == n.extraBatch
            && l1.cursors == l.cursors
  {
    hide TakeAll, AfterFetching;
    var n := l.session;
    TakeAllKeepsPlace(l, Asked(n.wantIds[n.wantSent..Chunk(n.wantSent, |n.wantIds|)]), events);
  }

  lemma PulledShape(l: Local, events: seq<Event>)
    requires InProgress(l) && l.session.phase.Pulling? && events != []
    ensures var l2 := Pulled(l, events);
            && l2.db == TakeAll(l, OfLog(PlanOf(l.session).log), events).db
            && SamePlan(l2.session, l.session) && l2.session.settleRounds <= 2
            && l2.session.cursor == l.session.cursor.(pull := l.session.cursor.pull + |events|)
            && l2.cursors == l.cursors[(l.session.peer, PlanOf(l.session).log) := l2.session.cursor]
            && (l2.session.cursor.pull < l2.session.peerCount ==> Valid(l2.session) && l2.session.phase.Pulling?)
            && FeedPulled(l, events) ==
               if l2.session.cursor.pull >= l2.session.peerCount
                 then l2.(session := BeginPrimaryPush(l2.session, l2.db)) else l2
  {
    hide TakeAll, BeginPrimaryPush;
    TakeAllKeepsPlace(l, OfLog(PlanOf(l.session).log), events);
  }

  lemma AckShape(l: Local, stored: nat, rejected: nat)
    requires InProgress(l) && l.session.phase.Publishing?
    ensures var n := l.session;
            var l' := FeedAck(l, stored, rejected);
            var n' := l'.session;
            var end := Chunk(n.pushSent, |n.pushBatch|);
            && l'.db == l.db && SamePlan(n', n) && Valid(n')
            && n'.cursor == (if n.cursorPrefix then n.cursor.(push := n.cursor.push + end - n.pushSent) else n.cursor)
            && l'.cursors == (if n.cursorPrefix then l.cursors[(n.peer, PlanOf(n).log) := n'.cursor] else l.cursors)
            && n'.pushBatch == n.pushBatch && n'.pushSent == end && n'.afterPush == n.afterPush
               && n'.cursorPrefix == n.cursorPrefix
            && n'.phase == (if end < |n.pushBatch| then Publishing else if n.afterPush.ToSettle? then Settling
               else Resettling)
  {
  }

  /** The three ways a settle goes: start over, finish, or do more for the same cursor. */
  lemma SettleShape(l: Local, count: nat, fp: Print, instance: InstanceId)
    requires Open(l.session) && l.session.settleRounds <= 2
    ensures var n := l.session;
            var l' := SettleWith(l, count, fp, instance);
            if n.cursor.instance != Some(instance) then
              var n2 := Restarted(n, count, instance);
              && l'.db == l.db && l'.cursors == l.cursors[(n.peer, PlanOf(n).log) := FreshCursor(instance)]
              && l'.session == (if n2.settleRounds > 2 then FinishLog(n2)
                                else if PlanOf(n2).pull && count > 0 then n2.(phase := Pulling)
                                else BeginPrimaryPush(n2, l.db))
            else
              || (fp == Fingerprint(l.db, PlanOf(n).log) && l' == Settled(l, fp))
              || l' == l.(session := FinishLog(n))
              || (l'.db == l.db && l'.cursors == l.cursors && SamePlan(l'.session, n) && l'.session.cursor == n.cursor
                  && l'.session.settleRounds <= 2 && Valid(l'.session) && l'.session.phase in {Pulling, Reconciling})
  {
    hide Fingerprint, FinishLog, BeginPrimaryPush;
  }

  lemma {:induction false} AcksAreAcks(s: State, events: seq<Event>, now: int)
    ensures AckOf(s, events, now).Ack?
    decreases |events|
  {
    if events != [] {
      AcksAreAcks(Accepted(s, events[0], now), events[1..], now);
    }
  }

  lemma {:induction false} HashMapOf(s: State, ids: seq<ClaimHash>)
    requires forall i | 0 <= i < |ids| :: ids[i] in s.claims
    ensures var m := HashMap(EntriesOf(s, ids));
            && (forall id :: id in m <==> id in ids)
            && forall id | id in m :: id in s.claims && m[id] == s.claims[id].art.body.Some?
  {
    if ids != [] {
      var n := |ids| - 1;
      HashMapOf(s, ids[..n]);
      assert EntriesOf(s, ids)[..n] == EntriesOf(s, ids[..n]);
      assert ids == ids[..n] + [ids[n]];
    }
  }

  /** The responder's hash list, collected, is its log. */
  lemma TheirHashes(s: State, log: LogId)
    ensures HashMap(LogHashes(s, log)) == OurHashes(s, log)
  {
    hide Ascending;
    var ids := SortIds(ById(), LogIds(s, log));
    SortIdsLists(ById(), LogIds(s, log));
    forall i | 0 <= i < |ids|
      ensures ids[i] in s.claims
    {
      assert ids[i] in ids;
    }
    HashMapOf(s, ids);
  }
}
