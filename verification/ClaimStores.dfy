/**
 The claim store over its backend: one ingest as a transaction that changes
 rows and indexes in place, and the queries that scan them.
 */
module ClaimStores {
  import opened Bytes
  import opened Rows
  import opened Ingest
  import opened Converge
  import opened Indexes
  import opened Sorted
  import opened Queries
  import opened Storage

  lemma ApplyNext(ws: seq<Write>, i: nat, s: State)
    requires i < |ws|
    ensures ApplyAll(ws[..i + 1], s) == Apply(ws[i], ApplyAll(ws[..i], s))
  {
    assert ws[..i + 1] == ws[..i] + [ws[i]];
    ApplySnoc(ws[..i], ws[i], s);
  }

  class ClaimStore {
    const storage: MemoryClaimStorage
    /** Set while an ingest is in flight. */
    var poisoned: bool

    ghost function View(): State
      reads storage
    {
      storage.View()
    }

    ghost predicate Valid()
      reads this, storage
    {
      storage.Valid() && storage.undo == None && !poisoned
    }

    constructor ()
      ensures Valid() && View() == EMPTY && fresh(storage)
    {
      storage := new MemoryClaimStorage();
      poisoned := false;
    }

    // ── Ingest ─────────────────────────────────────────────────────────

    method UnlinkAll(refs: seq<ClaimHash>, source: ClaimHash)
      requires storage.Valid()
      modifies storage
      ensures storage.Valid() && storage.undo.Some? == old(storage.undo).Some? && storage.base == old(storage.base)
      ensures View() == ApplyAll(Unlinks(refs, source), old(View()))
    {
      ghost var ws := Unlinks(refs, source);
      for i := 0 to |refs|
        invariant storage.Valid() && storage.undo.Some? == old(storage.undo).Some? && storage.base == old(storage.base)
        invariant View() == ApplyAll(ws[..i], old(View()))
      {
        ApplyNext(ws, i, old(View()));
        storage.RemoveBacklink(refs[i], source);
      }
      assert ws[..|refs|] == ws;
    }

    method UnreferAll(blobs: seq<BlobHash>, source: ClaimHash)
      requires storage.Valid()
      modifies storage
      ensures storage.Valid() && storage.undo.Some? == old(storage.undo).Some? && storage.base == old(storage.base)
      ensures View() == ApplyAll(Unrefers(blobs, source), old(View()))
    {
      ghost var ws := Unrefers(blobs, source);
      for i := 0 to |blobs|
        invariant storage.Valid() && storage.undo.Some? == old(storage.undo).Some? && storage.base == old(storage.base)
        invariant View() == ApplyAll(ws[..i], old(View()))
      {
        ApplyNext(ws, i, old(View()));
        storage.RemoveReferrer(blobs[i], source);
      }
      assert ws[..|blobs|] == ws;
    }

    method LinkAll(refs: seq<ClaimHash>, source: ClaimHash)
      requires storage.Valid()
      modifies storage
      ensures storage.Valid() && storage.undo.Some? == old(storage.undo).Some? && storage.base == old(storage.base)
      ensures View() == ApplyAll(Links(refs, source), old(View()))
    {
      ghost var ws := Links(refs, source);
      for i := 0 to |refs|
        invariant storage.Valid() && storage.undo.Some? == old(storage.undo).Some? && storage.base == old(storage.base)
        invariant View() == ApplyAll(ws[..i], old(View()))
      {
        ApplyNext(ws, i, old(View()));
        storage.AddBacklink(refs[i], source);
      }
      assert ws[..|refs|] == ws;
    }

    method ReferAll(blobs: seq<BlobHash>, source: ClaimHash)
      requires storage.Valid()
      modifies storage
      ensures storage.Valid() && storage.undo.Some? == old(storage.undo).Some? && storage.base == old(storage.base)
      ensures View() == ApplyAll(Refers(blobs, source), old(View()))
    {
      ghost var ws := Refers(blobs, source);
      for i := 0 to |blobs|
        invariant storage.Valid() && storage.undo.Some? == old(storage.undo).Some? && storage.base == old(storage.base)
        invariant View() == ApplyAll(ws[..i], old(View()))
      {
        ApplyNext(ws, i, old(View()));
        storage.AddReferrer(blobs[i], source);
      }
      assert ws[..|blobs|] == ws;
    }

    /**
     Record the authority, the smaller redactor winning; drop the target's body
     if content is held. `effective` is false on replays.
     */
    method ApplyRedaction(target: ClaimHash, redactor: ClaimHash) returns (effective: bool)
      requires storage.Valid()
      modifies storage
      ensures storage.Valid() && storage.undo.Some? == old(storage.undo).Some? && storage.base == old(storage.base)
      ensures View() == ApplyAll(RecordWrites(old(View()), target, redactor)
              + DropWrites(old(View()), target), old(View()))
      ensures effective <==> target !in old(View()).redactions || Droppable(old(View()), target)
    {
      ghost var s := View();
      ghost var record, drop := RecordWrites(s, target, redactor), DropWrites(s, target);
      effective := false;
      var prev := Lookup(storage.redactions, target);
      if prev.None? {
        storage.SetRedaction(target, redactor);
        effective := true;
      } else if redactor < prev.value {
        storage.SetRedaction(target, redactor);
      }
      ghost var s1 := View();
      assert s1 == ApplyAll(record, s) && s1 == s.(redactions := s1.redactions) by {
        if record != [] {
          assert record[1..] == [];
          assert ApplyAll(record, s) == ApplyAll(record[1..], Apply(record[0], s));
        }
      }
      DroppableIgnoresRedactions(s, target, s1.redactions);
      ApplyConcat(record, drop, s);
      var row := Lookup(storage.claims, target);
      if row.Some? && row.value.art.body.Some? && RedactTarget(row.value.art.log, row.value.art.body).None? {
        effective := true;
        UnlinkAll(row.value.refs, target);
        UnreferAll(row.value.blobs, target);
        storage.PutClaim(Stripped(row.value));
        ghost var us, rs := Unlinks(row.value.refs, target), Unrefers(row.value.blobs, target);
        ApplyConcat(us, rs, s1);
        ApplySnoc(us + rs, PutClaim(Stripped(row.value)), s1);
      } else {
        assert drop == [];
      }
    }

    /** How many claims of a log the store holds. */
    method CountLog(log: LogId) returns (n: nat)
      requires storage.Valid()
      ensures n == LogLen(View(), log)
    {
      n := 0;
      var left := storage.claims.Keys;
      assert LogIds(View(), log) * left == LogIds(View(), log);
      while left != {}
        invariant left <= storage.claims.Keys && n + |LogIds(View(), log) * left| == LogLen(View(), log)
        decreases left
      {
        var id :| id in left;
        assert LogIds(View(), log) * left - {id} == LogIds(View(), log) * (left - {id});
        if storage.claims[id].art.log == log {
          assert id in LogIds(View(), log) * left;
          n := n + 1;
        }
        left := left - {id};
      }
      assert LogIds(View(), log) * left == {};
    }

    method IngestInner(a: Artifact, now: int) returns (report: Report)
      requires storage.Valid()
      modifies storage
      ensures storage.Valid() && storage.undo.Some? == old(storage.undo).Some? && storage.base == old(storage.base)
      ensures View() == Ingested(old(View()), a, now) && report == ReportOf(old(View()), a)
    {
      hide Links, Refers, StoreWrites, DropWrites, RecordWrites, ApplyAll, Droppable, AfterRedaction, Ingested;
      report := NOTHING;
      ghost var s := View();
      var target := RedactTarget(a.log, a.body);
      if target.Some? {
        var effective := ApplyRedaction(target.value, a.id);
        if effective {
          report := report.(redactionsApplied := 1);
        }
      }
      ghost var s1 := View();
      RedactionPhase(s, a);
      IngestedInTwoSteps(s, a, now);
      var suppressed := target.None? && a.id in storage.redactions;
      var body := if suppressed then None else a.body;
      if suppressed && a.body.Some? {
        report := report.(redactedSkips := 1);
      }
      var existing := Lookup(storage.claims, a.id);
      if existing.Some? && (existing.value.art.body.Some? || body.None?) {
        report := report.(duplicates := 1);
        DuplicateStoresNothing(s1, a, now);
        return;
      }
      var refs, blobs := RefsOf(body), BlobsOf(body);
      report := report.(skippedEmbeds := if body.Some? then body.value.skipped else 0);
      LinkAll(refs, a.id);
      ReferAll(blobs, a.id);
      ghost var row;
      if existing.Some? {
        var c := existing.value;
        row := c.(art := c.art.(body := body), refs := refs, blobs := blobs);
        storage.PutClaim(c.(art := c.art.(body := body), refs := refs, blobs := blobs));
        report := report.(bodiesAttached := 1);
      } else {
        ghost var s2 := View();
        EdgesKeepClaims(refs, blobs, a.id, s1);
        assert LogIds(s2, a.log) == LogIds(s1, a.log);
        var arrival := CountLog(a.log);
        row := Row(a.(body := body), refs, blobs, arrival, now);
        storage.PutClaim(Row(a.(body := body), refs, blobs, arrival, now));
        report := report.(newlyStored := Some(a.id));
      }
      StoredBy(s1, a, now, row);
    }

    static lemma RedactionPhase(s: State, a: Artifact)
      ensures match RedactTarget(a.log, a.body)
              case None => AfterRedaction(s, a) == s
              case Some(t) => AfterRedaction(s, a) == ApplyAll(RecordWrites(s, t, a.id) + DropWrites(s, t), s)
    {
    }

    static lemma DuplicateStoresNothing(s: State, a: Artifact, now: int)
      requires Duplicate(s, a)
      ensures ApplyAll(StoreWrites(s, a, now), s) == s
    {
    }

    /** The store phase performs its writes in their order. */
    static lemma StoredBy(s: State, a: Artifact, now: int, row: Row)
      requires !Duplicate(s, a) && row == NewRow(s, a, now)
      ensures var body := KeptBody(s, a);
              var edges := ApplyAll(Refers(BlobsOf(body), a.id), ApplyAll(Links(RefsOf(body), a.id), s));
              ApplyAll(StoreWrites(s, a, now), s) == Apply(PutClaim(row), edges)
    {
      var body := KeptBody(s, a);
      var ls, rs := Links(RefsOf(body), a.id), Refers(BlobsOf(body), a.id);
      assert StoreWrites(s, a, now) == ls + rs + [PutClaim(row)];
      ApplyConcat(ls, rs, s);
      ApplySnoc(ls + rs, PutClaim(row), s);
    }

    static lemma EdgesKeepClaims(refs: seq<ClaimHash>, blobs: seq<BlobHash>, source: ClaimHash, s: State)
      requires WellKept(s)
      ensures ApplyAll(Refers(blobs, source), ApplyAll(Links(refs, source), s)).claims == s.claims
    {
      LinksEffect(refs, source, s);
      RefersEffect(blobs, source, ApplyAll(Links(refs, source), s));
    }

    /**
     Check and store one event as one transaction. An event that fails its check
     is rolled back to exactly the state before.
     */
    method IngestAt(e: Event, now: int) returns (report: Option<Report>)
      requires Valid()
      modifies this`poisoned, storage
      ensures Valid()
      ensures View() == Accepted(old(View()), e, now) && report == Answer(old(View()), e)
    {
      var ok := storage.Begin();
      poisoned := true;
      match e {
        case Checked(a) =>
          var r := IngestInner(a, now);
          ok := storage.Commit();
          report := Some(r);
        case _ =>
          ok := storage.Rollback();
          report := None;
      }
      poisoned := false;
    }

    /** Let go of claims received before a cutoff, as one transaction. */
    method PurgeOlderThan(cutoff: int) returns (purged: set<ClaimHash>)
      requires Valid()
      modifies this`poisoned, storage
      ensures Valid() && View() == Purged(old(View()), cutoff)
      ensures purged == old(View()).claims.Keys - View().claims.Keys
    {
      ghost var s := View();
      var ok := storage.Begin();
      poisoned := true;
      purged := storage.PurgeOlderThan(cutoff);
      ok := storage.Commit();
      poisoned := false;
      hide Linked, NoEmptySets;
      ScrubLinks(s.backlinks, purged);
      ScrubLinks(s.referrers, purged);
      SameEdges(storage.backlinks, Scrub(s.backlinks, purged));
      SameEdges(storage.referrers, Scrub(s.referrers, purged));
      assert purged == Expired(s, cutoff);
    }

    // ── Queries ────────────────────────────────────────────────────────

    /** Served rows, sorted by arrival. */
    method ServeSince(log: LogId, have: nat) returns (arts: seq<Artifact>)
      requires Valid()
      ensures arts == Queries.ServeSince(View(), log, have)
    {
      var claims := storage.claims;
      var ids := set id | id in claims && claims[id].art.log == log && claims[id].arrival >= have;
      assert ids == Past(View(), log, have);
      var sorted := Sort(ByArrival(State(claims, map[], map[], map[])), ids);
      SortIdsAlike(ByArrival(State(claims, map[], map[], map[])), ByArrival(View()), ids);
      SortIdsLists(ByArrival(View()), ids);
      arts := [];
      for i := 0 to |sorted|
        invariant arts == Artifacts(View(), sorted[..i])
      {
        assert sorted[i] in sorted;
        ArtifactsSnoc(View(), sorted, i);
        arts := arts + [claims[sorted[i]].art];
      }
      assert sorted[..|sorted|] == sorted;
    }

    static lemma {:induction false} ArtifactsSnoc(s: State, ids: seq<ClaimHash>, i: nat)
      requires i < |ids| && ids[i] in s.claims
      ensures Artifacts(s, ids[..i + 1]) == Artifacts(s, ids[..i]) + [s.claims[ids[i]].art]
    {
      if i > 0 {
        ArtifactsSnoc(s, ids[1..], i - 1);
        assert ids[..i + 1][1..] == ids[1..][..i] && ids[..i][1..] == ids[1..][..i - 1];
      } else {
        assert ids[..1][1..] == [];
        assert Artifacts(s, ids[..1][1..]) == [];
      }
    }

    /** `(id, has body)` of every claim of a log, ascending by id. */
    method LogHashes(log: LogId) returns (entries: seq<Entry>)
      requires Valid()
      ensures entries == Queries.LogHashes(View(), log)
    {
      var claims := storage.claims;
      var ids := set id | id in claims && claims[id].art.log == log;
      assert ids == LogIds(View(), log);
      var sorted := Sort(ById(), ids);
      entries := [];
      for i := 0 to |sorted|
        invariant entries == EntriesOf(View(), sorted[..i])
      {
        entries := entries + [Entry(sorted[i], sorted[i] in claims && claims[sorted[i]].art.body.Some?)];
      }
      assert sorted[..|sorted|] == sorted;
    }

    /** Fold every claim's and every redaction's digest into one. */
    method Fingerprint(log: LogId) returns (acc: Print)
      requires Valid()
      ensures acc == Queries.Fingerprint(View(), log)
    {
      acc := {};
      ghost var s := View();
      var left := storage.claims.Keys;
      while left != {}
        invariant left <= storage.claims.Keys && acc == ClaimTokens(s, LogIds(s, log) - left)
        decreases left
      {
        var id :| id in left;
        if storage.claims[id].art.log == log {
          acc := Xor(acc, {ClaimToken(id, storage.claims[id].art.body.Some?)});
          assert LogIds(s, log) - (left - {id}) == LogIds(s, log) - left + {id};
        } else {
          assert LogIds(s, log) - (left - {id}) == LogIds(s, log) - left;
        }
        left := left - {id};
      }
      assert LogIds(s, log) - left == LogIds(s, log);
      ghost var claimsPart := acc;
      var targets := storage.redactions.Keys;
      assert s.redactions.Keys - targets == {};
      while targets != {}
        invariant targets <= storage.redactions.Keys
        invariant acc == claimsPart + RedactionTokens(s, log, s.redactions.Keys - targets)
        decreases targets
      {
        var t :| t in targets;
        var r := storage.redactions[t];
        assert s.redactions.Keys - (targets - {t}) == s.redactions.Keys - targets + {t};
        if r in storage.claims && storage.claims[r].art.log == log {
          acc := Xor(acc, {RedactionToken(t, r)});
        }
        targets := targets - {t};
      }
      assert s.redactions.Keys - targets == s.redactions.Keys;
    }

    /** The fsck: one pass over rows, one over arrivals, one over each index. */
    method VerifyIntegrity(check: RowCheck) returns (problems: set<Problem>)
      requires Valid()
      ensures problems == Problems(check, View())
    {
      hide RowProblems, ArrivalProblems, BacklinkProblems, ReferrerProblems, RedactionProblems;
      ghost var s := View();
      problems := {};
      var left := storage.claims.Keys;
      while left != {}
        invariant left <= s.claims.Keys
        invariant problems == set id, p | id in s.claims.Keys - left && p in RowProblems(check, s, id) :: p
        decreases left
      {
        var id :| id in left;
        var more := RowPass(check, id);
        problems := problems + more;
        left := left - {id};
      }
      ghost var rows := problems;
      var arrivals := ArrivalPass();
      var links := BacklinkPass();
      var refers := ReferrerPass();
      problems := problems + arrivals + links + refers;
      var unbacked := RedactionPass();
      problems := problems + unbacked;
    }

    /** Every redaction row needs a held redact claim that says so. */
    method RedactionPass() returns (problems: set<Problem>)
      requires Valid()
      ensures problems == RedactionProblems(View())
    {
      ghost var s := View();
      problems := {};
      var targets := storage.redactions.Keys;
      while targets != {}
        invariant targets <= s.redactions.Keys
        invariant problems == set t | t in s.redactions.Keys - targets && !Backed(s, t) :: Unbacked(t, s.redactions[t])
        decreases targets
      {
        var t :| t in targets;
        var r := storage.redactions[t];
        if !(r in storage.claims && Redacts(storage.claims[r].art) == Some(t)) {
          problems := problems + {Unbacked(t, r)};
        }
        targets := targets - {t};
      }
    }

    /** Every backlink row points back to a live edge. */
    method BacklinkPass() returns (problems: set<Problem>)
      requires Valid()
      ensures problems == BacklinkProblems(View())
    {
      ghost var s := View();
      problems := {};
      var targets := storage.backlinks.Keys;
      while targets != {}
        invariant targets <= s.backlinks.Keys
        invariant problems == set t, x | t in s.backlinks.Keys - targets && x in s.backlinks[t] && !RowRefs(s, t, x) ::
                  PhantomBacklink(t, x)
        decreases targets
      {
        var t :| t in targets;
        var phantoms := PhantomSources(t, storage.backlinks[t]);
        problems := problems + phantoms;
        targets := targets - {t};
      }
    }

    method PhantomSources(target: ClaimHash, sources: set<ClaimHash>) returns (problems: set<Problem>)
      requires Valid()
      ensures problems == set x | x in sources && !RowRefs(View(), target, x) :: PhantomBacklink(target, x)
    {
      problems := {};
      var left := sources;
      while left != {}
        invariant left <= sources
        invariant problems == set x | x in sources - left && !RowRefs(View(), target, x) :: PhantomBacklink(target, x)
        decreases left
      {
        var x :| x in left;
        if !(x in storage.claims && target in storage.claims[x].refs) {
          problems := problems + {PhantomBacklink(target, x)};
        }
        left := left - {x};
      }
    }

    method ReferrerPass() returns (problems: set<Problem>)
      requires Valid()
      ensures problems == ReferrerProblems(View())
    {
      ghost var s := View();
      problems := {};
      var blobs := storage.referrers.Keys;
      while blobs != {}
        invariant blobs <= s.referrers.Keys
        invariant problems == set b, x | b in s.referrers.Keys - blobs && x in s.referrers[b] && !RowBlobs(s, b, x) ::
                  PhantomReferrer(b, x)
        decreases blobs
      {
        var b :| b in blobs;
        var phantoms := PhantomReferrers(b, storage.referrers[b]);
        problems := problems + phantoms;
        blobs := blobs - {b};
      }
    }

    method PhantomReferrers(blob: BlobHash, sources: set<ClaimHash>) returns (problems: set<Problem>)
      requires Valid()
      ensures problems == set x | x in sources && !RowBlobs(View(), blob, x) :: PhantomReferrer(blob, x)
    {
      problems := {};
      var left := sources;
      while left != {}
        invariant left <= sources
        invariant problems == set x | x in sources - left && !RowBlobs(View(), blob, x) :: PhantomReferrer(blob, x)
        decreases left
      {
        var x :| x in left;
        if !(x in storage.claims && blob in storage.claims[x].blobs) {
          problems := problems + {PhantomReferrer(blob, x)};
        }
        left := left - {x};
      }
    }

    method RowPass(check: RowCheck, id: ClaimHash) returns (problems: set<Problem>)
      requires Valid() && id in storage.claims
      ensures problems == RowProblems(check, View(), id)
    {
      var row := storage.claims[id];
      if !(row.art.id == id && check(row.art)) {
        return {FailsCheck(id)};
      }
      problems := {};
      if row.art.body.Some? && id in storage.redactions {
        problems := problems + {RedactedButHeld(id)};
      }
      if row.refs != RefsOf(row.art.body) {
        problems := problems + {RefsDisagree(id)};
      }
      if row.blobs != BlobsOf(row.art.body) {
        problems := problems + {BlobsDisagree(id)};
      }
      var unlinked := MissingLinks(id, row.refs);
      var unreferred := MissingRefers(id, row.blobs);
      problems := problems + unlinked + unreferred;
    }

    method MissingLinks(id: ClaimHash, refs: seq<ClaimHash>) returns (problems: set<Problem>)
      ensures problems == set t | t in refs && !Linked(storage.backlinks, t, id) :: MissingBacklink(id, t)
    {
      problems := {};
      for i := 0 to |refs|
        invariant problems == set t | t in refs[..i] && !Linked(storage.backlinks, t, id) :: MissingBacklink(id, t)
      {
        assert refs[..i + 1] == refs[..i] + [refs[i]];
        if !Linked(storage.backlinks, refs[i], id) {
          problems := problems + {MissingBacklink(id, refs[i])};
        }
      }
      assert refs[..|refs|] == refs;
    }

    method MissingRefers(id: ClaimHash, blobs: seq<BlobHash>) returns (problems: set<Problem>)
      ensures problems == set b | b in blobs && !Linked(storage.referrers, b, id) :: MissingReferrer(id, b)
    {
      problems := {};
      for i := 0 to |blobs|
        invariant problems == set b | b in blobs[..i] && !Linked(storage.referrers, b, id) :: MissingReferrer(id, b)
      {
        assert blobs[..i + 1] == blobs[..i] + [blobs[i]];
        if !Linked(storage.referrers, blobs[i], id) {
          problems := problems + {MissingReferrer(id, blobs[i])};
        }
      }
      assert blobs[..|blobs|] == blobs;
    }

    /** A position already taken by an earlier claim of the same log is a problem. */
    method ArrivalPass() returns (problems: set<Problem>)
      requires Valid()
      ensures problems == ArrivalProblems(View())
    {
      problems := {};
      ghost var s := View();
      var taken: set<(LogId, nat)> := {};
      var left := storage.claims.Keys;
      while left != {}
        invariant left <= s.claims.Keys
        invariant taken == set id | id in s.claims.Keys - left :: (s.claims[id].art.log, s.claims[id].arrival)
        invariant problems == Collisions(s, s.claims.Keys - left)
        decreases left
      {
        var id :| id in left;
        var row := storage.claims[id];
        ghost var done := s.claims.Keys - left;
        assert s.claims.Keys - (left - {id}) == done + {id};
        MoreCollisions(s, done, id);
        if (row.art.log, row.arrival) in taken {
          problems := problems + {DuplicateArrival(row.art.log, row.arrival)};
        } else {
          taken := taken + {(row.art.log, row.arrival)};
        }
        left := left - {id};
      }
      assert s.claims.Keys - left == s.claims.Keys;
    }

    static ghost function Collisions(s: State, ids: set<ClaimHash>): set<Problem> {
      set id, id' | id in ids && id' in ids && id in s.claims && id' in s.claims && id != id'
                    && s.claims[id].art.log == s.claims[id'].art.log && s.claims[id].arrival == s.claims[id'].arrival
        :: DuplicateArrival(s.claims[id].art.log, s.claims[id].arrival)
    }

    static lemma MoreCollisions(s: State, done: set<ClaimHash>, id: ClaimHash)
      requires done <= s.claims.Keys && id in s.claims && id !in done
      ensures Collisions(s, done + {id}) == Collisions(s, done) +
              if exists x ::
                   x in done && s.claims[x].art.log == s.claims[id].art.log
                     && s.claims[x].arrival == s.claims[id].arrival
              then {DuplicateArrival(s.claims[id].art.log, s.claims[id].arrival)} else {}
    {
    }
  }
}
