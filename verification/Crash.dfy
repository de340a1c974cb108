/**
 A crash in the middle of an ingest, without transactions: whatever prefix of
 the writes reached the disk, redelivering the event completes the ingest.
 */
module Crash {
  import opened Rows
  import opened Ingest

  /** The state after the first `k` writes of an ingest. */
  function Cut(s: State, a: Artifact, now: int, k: nat): State
    requires k <= |IngestWrites(s, a, now)|
  {
    ApplyAll(IngestWrites(s, a, now)[..k], s)
  }

  // ── Partly written edges ─────────────────────────────────────────────

  /** Some of the edges from `source` to `keys` are gone, nothing else. */
  ghost predicate PartlyWithout(m': Edges, m: Edges, keys: seq<nat>, source: ClaimHash) {
    && NoEmptySets(m')
    && (forall k, x :: Linked(m', k, x) ==> Linked(m, k, x))
    && (forall k, x :: Linked(m, k, x) && !(x == source && k in keys) ==> Linked(m', k, x))
  }

  /** Some of the edges from `source` to `keys` were added, nothing else. */
  ghost predicate PartlyWith(m': Edges, m: Edges, keys: seq<nat>, source: ClaimHash) {
    && NoEmptySets(m')
    && (forall k, x :: Linked(m, k, x) ==> Linked(m', k, x))
    && (forall k, x :: Linked(m', k, x) && !(x == source && k in keys) ==> Linked(m, k, x))
  }

  lemma RemovingTheRest(m: Edges, m': Edges, f: Edges, f': Edges, keys: seq<nat>, source: ClaimHash)
    requires PartlyWithout(m', m, keys, source) && Without(f, m, keys, source) && Without(f', m', keys, source)
    ensures f == f'
  {
    SameEdges(f, f');
  }

  lemma AddingTheRest(m: Edges, m': Edges, f: Edges, f': Edges, keys: seq<nat>, source: ClaimHash)
    requires PartlyWith(m', m, keys, source) && With(f, m, keys, source) && With(f', m', keys, source)
    ensures f == f'
  {
    SameEdges(f, f');
  }

  // ── Interrupted redaction ────────────────────────────────────────────

  lemma PrefixDrop(s: State, target: ClaimHash, j: nat)
    requires WellKept(s) && Droppable(s, target) && j < |DropWrites(s, target)|
    ensures var s' := ApplyAll(DropWrites(s, target)[..j], s);
            var row := s.claims[target];
            && s'.claims == s.claims && s'.redactions == s.redactions
            && PartlyWithout(s'.backlinks, s.backlinks, row.refs, target)
            && PartlyWithout(s'.referrers, s.referrers, row.blobs, target)
  {
    var row := s.claims[target];
    var us := Unlinks(row.refs, target);
    if j <= |us| {
      assert DropWrites(s, target)[..j] == Unlinks(row.refs[..j], target);
      hide Unlinks, Unrefers, DropWrites, NoEmptySets, Linked;
      UnlinksEffect(row.refs[..j], target, s);
      Partly(ApplyAll(Unlinks(row.refs[..j], target), s).backlinks, s.backlinks, row.refs, j, target);
    } else {
      var i := j - |us|;
      assert DropWrites(s, target)[..j] == us + Unrefers(row.blobs[..i], target);
      hide Unlinks, Unrefers, DropWrites, NoEmptySets, Linked;
      var s1 := ApplyAll(us, s);
      var s2 := ApplyAll(Unrefers(row.blobs[..i], target), s1);
      ApplyConcat(us, Unrefers(row.blobs[..i], target), s);
      UnlinksEffect(row.refs, target, s);
      UnrefersEffect(row.blobs[..i], target, s1);
      assert row.refs[..|row.refs|] == row.refs;
      Partly(s1.backlinks, s.backlinks, row.refs, |row.refs|, target);
      Partly(s2.referrers, s.referrers, row.blobs, i, target);
    }
  }

  lemma Partly(m': Edges, m: Edges, keys: seq<nat>, j: nat, source: ClaimHash)
    requires j <= |keys| && Without(m', m, keys[..j], source)
    ensures PartlyWithout(m', m, keys, source)
  {
  }

  lemma DropAgain(s: State, target: ClaimHash, j: nat)
    requires WellKept(s) && j <= |DropWrites(s, target)|
    ensures var s' := ApplyAll(DropWrites(s, target)[..j], s);
            WellKept(s') && ApplyAll(DropWrites(s', target), s') == ApplyAll(DropWrites(s, target), s)
  {
    var s' := ApplyAll(DropWrites(s, target)[..j], s);
    DropEffect(s, target);
    if j == |DropWrites(s, target)| {
      assert DropWrites(s, target)[..j] == DropWrites(s, target);
      assert !Droppable(s', target);
      assert DropWrites(s', target) == [];
    } else {
      PrefixDrop(s, target, j);
      DropEffect(s', target);
      var f, f' := ApplyAll(DropWrites(s, target), s), ApplyAll(DropWrites(s', target), s');
      var row := s.claims[target];
      hide DropWrites, Without, PartlyWithout;
      RemovingTheRest(s.backlinks, s'.backlinks, f.backlinks, f'.backlinks, row.refs, target);
      RemovingTheRest(s.referrers, s'.referrers, f.referrers, f'.referrers, row.blobs, target);
    }
  }

  lemma RecordEffect(s: State, target: ClaimHash, redactor: ClaimHash)
    ensures ApplyAll(RecordWrites(s, target, redactor), s) ==
            s.(redactions := if TakesOver(s, target, redactor) then s.redactions[target := redactor] else s.redactions)
  {
    var record := RecordWrites(s, target, redactor);
    if record != [] {
      assert record[1..] == [];
      assert ApplyAll(record, s) == ApplyAll(record[1..], Apply(record[0], s));
    }
  }

  lemma RedactAgain(s: State, a: Artifact, k: nat)
    requires WellKept(s) && k <= |RedactionWrites(s, a)|
    ensures var s' := ApplyAll(RedactionWrites(s, a)[..k], s);
            WellKept(s') && AfterRedaction(s', a) == AfterRedaction(s, a)
  {
    var target := RedactTarget(a.log, a.body);
    var s' := ApplyAll(RedactionWrites(s, a)[..k], s);
    if k == 0 || target.None? {
      assert s' == s;
    } else {
      var t := target.value;
      var record, drop := RecordWrites(s, t, a.id), DropWrites(s, t);
      var s0 := ApplyAll(record, s);
      RecordEffect(s, t, a.id);
      DroppableIgnoresRedactions(s, t, s0.redactions);
      var j := k - |record|;
      assert RedactionWrites(s, a)[..k] == record + drop[..j];
      hide DropWrites;
      ApplyConcat(record, drop[..j], s);
      ApplyConcat(record, drop, s);
      DropAgain(s0, t, j);
      DropKeepsRedactions(s0, t, j);
      assert RecordWrites(s', t, a.id) == [];
      assert [] + DropWrites(s', t) == DropWrites(s', t);
      assert s0 == s.(redactions := s0.redactions);
      assert AfterRedaction(s, a) == ApplyAll(drop, s0);
      assert AfterRedaction(s', a) == ApplyAll(DropWrites(s', t), s');
    }
  }

  lemma DropKeepsRedactions(s: State, target: ClaimHash, j: nat)
    requires WellKept(s) && j <= |DropWrites(s, target)|
    ensures ApplyAll(DropWrites(s, target)[..j], s).redactions == s.redactions
  {
    if j == |DropWrites(s, target)| {
      assert DropWrites(s, target)[..j] == DropWrites(s, target);
      DropEffect(s, target);
    } else {
      PrefixDrop(s, target, j);
    }
  }

  // ── Interrupted store ────────────────────────────────────────────────

  lemma PrefixStore(s: State, a: Artifact, now: int, j: nat)
    requires WellKept(s) && j < |StoreWrites(s, a, now)|
    ensures var s' := ApplyAll(StoreWrites(s, a, now)[..j], s);
            && s'.claims == s.claims && s'.redactions == s.redactions && WellKept(s')
            && PartlyWith(s'.backlinks, s.backlinks, RefsOf(KeptBody(s, a)), a.id)
            && PartlyWith(s'.referrers, s.referrers, BlobsOf(KeptBody(s, a)), a.id)
  {
    var refs, blobs := RefsOf(KeptBody(s, a)), BlobsOf(KeptBody(s, a));
    var ls := Links(refs, a.id);
    if j <= |ls| {
      assert StoreWrites(s, a, now)[..j] == Links(refs[..j], a.id);
      hide KeptBody, Links, Refers, StoreWrites;
      LinksEffect(refs[..j], a.id, s);
    } else {
      var i := j - |ls|;
      assert StoreWrites(s, a, now)[..j] == ls + Refers(blobs[..i], a.id);
      hide KeptBody, Links, Refers, StoreWrites;
      ApplyConcat(ls, Refers(blobs[..i], a.id), s);
      LinksEffect(refs, a.id, s);
      RefersEffect(blobs[..i], a.id, ApplyAll(ls, s));
    }
  }

  lemma StoreAgain(s: State, a: Artifact, now: int, now': int, j: nat)
    requires WellKept(s) && j <= |StoreWrites(s, a, now)|
    ensures var s' := ApplyAll(StoreWrites(s, a, now)[..j], s);
            && WellKept(s')
            && ApplyAll(StoreWrites(s', a, now'), s') ==
               if j < |StoreWrites(s, a, now)| then ApplyAll(StoreWrites(s, a, now'), s)
               else ApplyAll(StoreWrites(s, a, now), s)
  {
    var s' := ApplyAll(StoreWrites(s, a, now)[..j], s);
    StoreEffect(s, a, now);
    if j == |StoreWrites(s, a, now)| {
      assert StoreWrites(s, a, now)[..j] == StoreWrites(s, a, now);
      assert Duplicate(s', a) by {
        hide With, WellKept, StoreWrites;
      }
    } else {
      PrefixStore(s, a, now, j);
      StoreEffect(s, a, now');
      StoreEffect(s', a, now');
      SameCount(s, s', a.log);
      assert KeptBody(s', a) == KeptBody(s, a) && NewRow(s', a, now') == NewRow(s, a, now');
      var f, f' := ApplyAll(StoreWrites(s, a, now'), s), ApplyAll(StoreWrites(s', a, now'), s');
      hide StoreWrites, NewRow, KeptBody, With, PartlyWith, Links, Refers;
      AddingTheRest(s.backlinks, s'.backlinks, f.backlinks, f'.backlinks, RefsOf(KeptBody(s, a)), a.id);
      AddingTheRest(s.referrers, s'.referrers, f.referrers, f'.referrers, BlobsOf(KeptBody(s, a)), a.id);
    }
  }

  lemma SameCount(s: State, s': State, log: LogId)
    requires s'.claims == s.claims
    ensures LogLen(s', log) == LogLen(s, log)
  {
    assert LogIds(s', log) == LogIds(s, log);
  }

  /** A redaction that has fully taken effect writes nothing more. */
  lemma SettledRedaction(s: State, a: Artifact)
    requires match RedactTarget(a.log, a.body)
             case None => true
             case Some(t) => !TakesOver(s, t, a.id) && !Droppable(s, t)
    ensures RedactionWrites(s, a) == [] && AfterRedaction(s, a) == s
  {
  }

  /** While and after the claim is stored, its own redaction stays settled. */
  lemma RedactionStaysSettled(s: State, a: Artifact, now: int, j: nat)
    requires WellKept(s) && (a.id in s.claims ==> s.claims[a.id].art.log == a.log)
    requires j <= |StoreWrites(AfterRedaction(s, a), a, now)|
    ensures var s1 := AfterRedaction(s, a);
            var s' := ApplyAll(StoreWrites(s1, a, now)[..j], s1);
            AfterRedaction(s', a) == s'
  {
    var s1 := AfterRedaction(s, a);
    var ws := StoreWrites(s1, a, now);
    var s' := ApplyAll(ws[..j], s1);
    RedactionEffect(s, a);
    if j < |ws| {
      PrefixStore(s1, a, now, j);
    } else {
      assert ws[..j] == ws;
      StoreEffect(s1, a, now);
    }
    hide StoreWrites, AfterRedaction, With, Without, PartlyWith, WellKept;
    SettledRedaction(s', a);
  }

  /**
   Any prefix of an ingest's writes, then the same event again: rows, indexes,
   redactions and arrival are those of the ingest that was not interrupted. The
   receive time is that of the ingest whose last write landed.
   */
  lemma CrashThenRedelivery(s: State, a: Artifact, now: int, now': int, k: nat)
    requires WellKept(s) && (a.id in s.claims ==> s.claims[a.id].art.log == a.log)
    requires k <= |IngestWrites(s, a, now)|
    ensures Ingested(Cut(s, a, now, k), a, now') ==
            if k < |IngestWrites(s, a, now)| then Ingested(s, a, now') else Ingested(s, a, now)
  {
    var rs := RedactionWrites(s, a);
    var s1 := AfterRedaction(s, a);
    var ws := StoreWrites(s1, a, now);
    var s' := Cut(s, a, now, k);
    hide RedactionWrites, StoreWrites, Ingested, AfterRedaction;
    IngestedInTwoSteps(s, a, now);
    IngestedInTwoSteps(s, a, now');
    IngestedInTwoSteps(s', a, now');
    RedactAgain(s, a, |rs|);
    assert rs[..|rs|] == rs;
    WholeRedaction(s, a);
    if k <= |rs| && (k < |rs| || ws != []) {
      assert (rs + ws)[..k] == rs[..k];
      RedactAgain(s, a, k);
    } else {
      var j := k - |rs|;
      assert (rs + ws)[..k] == rs + ws[..j];
      ApplyConcat(rs, ws[..j], s);
      RedactionStaysSettled(s, a, now, j);
      StoreAgain(s1, a, now, now', j);
    }
  }

  lemma WholeRedaction(s: State, a: Artifact)
    ensures ApplyAll(RedactionWrites(s, a), s) == AfterRedaction(s, a)
  {
  }
}
