/**
 Two stores and what each lacks of the other: how handing over artifacts closes
 the gap, and that two stores lacking nothing of each other agree.
 */
module Exchanges {
  import opened Rows
  import opened Ingest
  import opened Converge
  import opened Indexes
  import opened Health
  import opened Queries

  /** Redact claims are held with their bodies, but for some. */
  ghost predicate UnstrippedBut(w: World, apart: set<ClaimHash>, s: State) {
    forall id | id in s.claims && RedactClaim(w, id) && id !in apart :: Held(s, id)
  }

  ghost predicate Unstripped(w: World, s: State) { UnstrippedBut(w, {}, s) }

  /** Redactions name the log their target really is in. */
  ghost predicate Truthful(w: World, s: State) {
    forall id | Held(s, id) && RedactClaim(w, id) :: w(Target(w, id)).log == w(id).log
  }

  ghost predicate ProperBut(w: World, apart: set<ClaimHash>, s: State) {
    Healthy(w, s) && UnstrippedBut(w, apart, s) && Truthful(w, s)
  }

  ghost predicate Proper(w: World, s: State) { ProperBut(w, {}, s) }

  /** `a` lacks a claim of the log, or its body, that `b` has. */
  ghost predicate Lacks(a: State, b: State, log: LogId, id: ClaimHash) {
    InLog(b, log, id) && (id !in a.claims || (Held(b, id) && !Held(a, id) && id !in a.redactions))
  }

  /** `a` lacks nothing of the log that `b` has. */
  ghost predicate Gapless(a: State, b: State, log: LogId) {
    forall id :: !Lacks(a, b, log, id)
  }

  ghost predicate Level(a: State, b: State, log: LogId) {
    forall id :: !Lacks(a, b, log, id) && !Lacks(b, a, log, id)
  }

  // ── Agreement ────────────────────────────────────────────────────────

  lemma SharedRedactor(w: World, a: State, b: State, log: LogId, t: ClaimHash)
    requires Proper(w, a) && Proper(w, b) && Level(a, b, log) && RedactsInLog(a, log, t)
    ensures t in b.redactions && b.redactions[t] <= a.redactions[t]
    ensures b.redactions[t] in b.claims && b.claims[b.redactions[t]].art.log == log
  {
    hide WellKept, Indexed, Dense;
    var r := a.redactions[t];
    assert InLog(a, log, r) && !Lacks(b, a, log, r);
    assert r in b.claims && Held(b, r);
    assert t in b.redactions;
    var r' := b.redactions[t];
    assert Held(b, r') && RedactClaim(w, r') && Target(w, r') == t;
    assert w(t).log == w(r).log == w(r').log;
  }

  lemma SameRedactor(w: World, a: State, b: State, log: LogId, t: ClaimHash)
    requires Proper(w, a) && Proper(w, b) && Level(a, b, log) && RedactsInLog(a, log, t)
    ensures RedactsInLog(b, log, t) && b.redactions[t] == a.redactions[t]
  {
    hide Proper, Lacks;
    SharedRedactor(w, a, b, log, t);
    SharedRedactor(w, b, a, log, t);
  }

  lemma RedactedInLog(w: World, s: State, log: LogId, id: ClaimHash)
    requires Proper(w, s) && InLog(s, log, id) && id in s.redactions
    ensures RedactsInLog(s, log, id)
  {
    hide WellKept, Indexed, Dense;
    var r := s.redactions[id];
    assert Held(s, r) && RedactClaim(w, r) && Target(w, r) == id;
  }

  lemma SameHolding(w: World, a: State, b: State, log: LogId, id: ClaimHash)
    requires Proper(w, a) && Proper(w, b) && Level(a, b, log) && InLog(a, log, id) && Held(a, id)
    ensures Held(b, id)
  {
    hide WellKept, Indexed, Dense, Level;
    assert !Lacks(b, a, log, id) by { assert Level(a, b, log); LevelMeans(a, b, log, id); }
    if !Held(b, id) {
      assert id in b.redactions && InLog(b, log, id);
      RedactedInLog(w, b, log, id);
      LevelIsSymmetric(a, b, log);
      SameRedactor(w, b, a, log, id);
    }
  }

  lemma LevelMeans(a: State, b: State, log: LogId, id: ClaimHash)
    requires Level(a, b, log)
    ensures !Lacks(a, b, log, id) && !Lacks(b, a, log, id)
  {
  }

  lemma LevelIsSymmetric(a: State, b: State, log: LogId)
    requires Level(a, b, log)
    ensures Level(b, a, log)
  {
  }

  /** Stores that lack nothing of each other hold the same claims, bodies and redactions. */
  lemma LevelAgrees(w: World, a: State, b: State, log: LogId)
    requires Proper(w, a) && Proper(w, b) && Level(a, b, log)
    ensures SameLog(a, b, log)
  {
    hide Healthy, Unstripped, Truthful, Held;
    LevelIsSymmetric(a, b, log);
    forall id
      ensures InLog(a, log, id) <==> InLog(b, log, id)
      ensures InLog(a, log, id) && InLog(b, log, id) ==> (Held(a, id) <==> Held(b, id))
    {
      LogOfId(w, a, b, id);
      LevelMeans(a, b, log, id);
      if InLog(a, log, id) && InLog(b, log, id) {
        if Held(a, id) { SameHolding(w, a, b, log, id); }
        if Held(b, id) { SameHolding(w, b, a, log, id); }
      }
    }
    forall t
      ensures RedactsInLog(a, log, t) <==> RedactsInLog(b, log, t)
      ensures RedactsInLog(a, log, t) && RedactsInLog(b, log, t) ==> a.redactions[t] == b.redactions[t]
    {
      if RedactsInLog(a, log, t) { SameRedactor(w, a, b, log, t); }
      if RedactsInLog(b, log, t) { SameRedactor(w, b, a, log, t); }
    }
  }

  lemma LogOfId(w: World, a: State, b: State, id: ClaimHash)
    requires Proper(w, a) && Proper(w, b)
    ensures id in a.claims && id in b.claims ==> a.claims[id].art.log == b.claims[id].art.log
  {
  }

  lemma AgreementIsLevel(a: State, b: State, log: LogId)
    requires SameLog(a, b, log)
    ensures Level(a, b, log)
  {
    hide RedactsInLog;
    forall id
      ensures !Lacks(a, b, log, id) && !Lacks(b, a, log, id)
    {
      assert InLog(a, log, id) <==> InLog(b, log, id);
    }
  }

  // ── What may stay apart ──────────────────────────────────────────────

  /** A redact claim `a` holds, and `b` holds stripped and redacted. */
  ghost predicate StrippedApart(w: World, a: State, b: State, id: ClaimHash) {
    RedactClaim(w, id) && Held(a, id) && id in b.claims && !Held(b, id) && id in b.redactions
  }

  /** A content claim `a` holds, redacted at `b` by a claim that `a` in turn holds stripped and redacted. */
  ghost predicate RedactedApart(w: World, a: State, b: State, id: ClaimHash) {
    !RedactClaim(w, id) && Held(a, id) && id in b.redactions && StrippedApart(w, b, a, b.redactions[id])
  }

  ghost predicate BodyApart(w: World, a: State, b: State, id: ClaimHash) {
    StrippedApart(w, a, b, id) || RedactedApart(w, a, b, id)
  }

  lemma HeldRedactorCounts(w: World, s: State, r: ClaimHash)
    requires Healthy(w, s) && RedactClaim(w, r)
    ensures Held(s, r) ==> Target(w, r) in s.redactions
  {
  }

  lemma RedactorApart(w: World, apart: set<ClaimHash>, a: State, b: State, log: LogId, id: ClaimHash)
    requires ProperBut(w, apart, a) && ProperBut(w, apart, b) && Level(a, b, log)
    requires InLog(a, log, id) && Held(a, id) && !RedactClaim(w, id) && id in b.redactions
    ensures StrippedApart(w, b, a, b.redactions[id])
  {
    hide WellKept, Indexed, Dense, Level;
    var r := b.redactions[id];
    assert Held(b, r) && RedactClaim(w, r) && Target(w, r) == id;
    LevelMeans(a, b, log, r);
    assert InLog(b, log, r);
    HeldRedactorCounts(w, a, r);
  }

  lemma BodiesLeft(w: World, apart: set<ClaimHash>, a: State, b: State, log: LogId, id: ClaimHash)
    requires ProperBut(w, apart, a) && ProperBut(w, apart, b) && Level(a, b, log) && InLog(a, log, id)
    ensures Held(a, id) && !Held(b, id) <==> BodyApart(w, a, b, id)
  {
    LevelMeans(a, b, log, id);
    KeptBodies(w, apart, b, id);
    if Held(a, id) && !RedactClaim(w, id) && id in b.redactions {
      RedactorApart(w, apart, a, b, log, id);
    }
    hide ProperBut, Level, RedactClaim;
  }

  /** Stores that lack nothing of each other hold the same ids, and exactly these bodies apart. */
  lemma LevelLeaves(w: World, apart: set<ClaimHash>, a: State, b: State, log: LogId)
    requires ProperBut(w, apart, a) && ProperBut(w, apart, b) && Level(a, b, log)
    ensures forall id :: InLog(a, log, id) <==> InLog(b, log, id)
    ensures forall id | InLog(a, log, id) :: Held(a, id) && !Held(b, id) <==> BodyApart(w, a, b, id)
    ensures forall id | InLog(a, log, id) :: Held(b, id) && !Held(a, id) <==> BodyApart(w, b, a, id)
    ensures forall id | StrippedApart(w, a, b, id) || StrippedApart(w, b, a, id) :: id in apart
  {
    assert UnstrippedBut(w, apart, a) && UnstrippedBut(w, apart, b);
    forall id
      ensures InLog(a, log, id) <==> InLog(b, log, id)
    {
      LevelMeans(a, b, log, id);
      SameLogOfId(w, apart, a, b, id);
    }
    hide ProperBut, InLog, RedactClaim, Lacks, Level, Held;
    LevelIsSymmetric(a, b, log);
    forall id | InLog(a, log, id)
      ensures Held(a, id) && !Held(b, id) <==> BodyApart(w, a, b, id)
      ensures Held(b, id) && !Held(a, id) <==> BodyApart(w, b, a, id)
    {
      BodiesLeft(w, apart, a, b, log, id);
      BodiesLeft(w, apart, b, a, log, id);
    }
  }

  lemma SameLogOfId(w: World, apart: set<ClaimHash>, a: State, b: State, id: ClaimHash)
    requires ProperBut(w, apart, a) && ProperBut(w, apart, b)
    ensures id in a.claims && id in b.claims ==> a.claims[id].art.log == b.claims[id].art.log
  {
  }

  // ── Handing artifacts over ───────────────────────────────────────────

  /** An artifact `b` may hand over: a claim of its own, no more of it than it has or redacted. */
  ghost predicate Offerable(w: World, apart: set<ClaimHash>, x: Artifact, b: State) {
    && Genuine(w, x) && x.id in b.claims
    && (x.body.Some? ==> Held(b, x.id) || (x.id in b.redactions && !RedactClaim(w, x.id)))
    && (RedactClaim(w, x.id) && x.id !in apart ==> x.body.Some?)
  }

  /** It carries the body if `b` has it. */
  ghost predicate Complete(x: Artifact, b: State) { Held(b, x.id) ==> x.body.Some? }

  /** `a` became `a'` by taking from `b`: gaps only close, offers stay good. */
  ghost predicate Closer(w: World, apart: set<ClaimHash>, a: State, a': State, b: State) {
    && (forall log, id :: Lacks(a', b, log, id) ==> Lacks(a, b, log, id))
    && (forall log, id :: Lacks(b, a', log, id) ==> Lacks(b, a, log, id))
    && (forall log, id :: Lacks(b, a', log, id) && Held(a', id) ==> Held(a, id))
    && (forall x :: Offerable(w, apart, x, a) ==> Offerable(w, apart, x, a'))
  }

  lemma RowIsOfferable(w: World, apart: set<ClaimHash>, s: State, id: ClaimHash)
    requires ProperBut(w, apart, s) && id in s.claims
    ensures Offerable(w, apart, s.claims[id].art, s) && Complete(s.claims[id].art, s) && s.claims[id].art.id == id
  {
    hide WellKept, Indexed, Dense, Explained;
  }

  lemma LogOf(w: World, s: State, id: ClaimHash, log: LogId)
    requires Healthy(w, s)
    ensures InLog(s, log, id) <==> id in s.claims && w(id).log == log
  {
  }

  lemma TakeOneHolds(w: World, apart: set<ClaimHash>, a: State, a': State, b: State, x: Artifact)
    requires ProperBut(w, apart, a) && ProperBut(w, apart, b) && Offerable(w, apart, x, b)
    requires Healthy(w, a') && Absorbed(w, a, a', x)
    ensures ProperBut(w, apart, a')
  {
    hide WellKept, Indexed, Dense, Explained, AllGenuine, Appended, Order;
    forall id | id in a'.claims && RedactClaim(w, id) && id !in apart
      ensures Held(a', id)
    {
      assert Held(a', id) <==>
             (Held(a, id) || (id == x.id && x.body.Some?)) && (RedactClaim(w, id) || id !in a'.redactions);
    }
    forall id | Held(a', id) && RedactClaim(w, id)
      ensures w(Target(w, id)).log == w(id).log
    {
      assert Held(a, id) || id == x.id;
      if !Held(a, id) {
        assert Held(b, id);
      }
    }
  }

  lemma GapCloses(w: World, apart: set<ClaimHash>, a: State, a': State, b: State, x: Artifact, log: LogId,
                  id: ClaimHash)
    requires ProperBut(w, apart, a) && ProperBut(w, apart, b) && Offerable(w, apart, x, b)
    requires ProperBut(w, apart, a') && Absorbed(w, a, a', x)
    ensures Lacks(a', b, log, id) ==> Lacks(a, b, log, id)
    ensures Lacks(b, a', log, id) ==> Lacks(b, a, log, id)
    ensures Lacks(b, a', log, id) && Held(a', id) ==> Held(a, id)
    ensures Complete(x, b) && id == x.id ==> !Lacks(a', b, log, id)
  {
    hide Healthy, Unstripped, Truthful, InLog, Genuine, Appended, Order, RedactClaim;
    LogOf(w, a, id, log);
    LogOf(w, a', id, log);
    LogOf(w, b, id, log);
    KeptBodies(w, apart, a, id);
    assert Held(a', id) <==>
           (Held(a, id) || (id == x.id && x.body.Some?)) && (RedactClaim(w, id) || id !in a'.redactions);
    assert id in a'.claims <==> id in a.claims || id == x.id;
  }

  lemma KeptBodies(w: World, apart: set<ClaimHash>, s: State, id: ClaimHash)
    requires ProperBut(w, apart, s)
    ensures Held(s, id) ==> id in s.claims && (RedactClaim(w, id) || id !in s.redactions)
  {
  }

  lemma OffersStay(w: World, apart: set<ClaimHash>, a: State, a': State, x: Artifact, y: Artifact)
    requires ProperBut(w, apart, a) && ProperBut(w, apart, a') && Absorbed(w, a, a', x) && Offerable(w, apart, y, a)
    ensures Offerable(w, apart, y, a')
  {
    assert Held(a', y.id) <==>
           (Held(a, y.id) || (y.id == x.id && x.body.Some?)) && (RedactClaim(w, y.id) || y.id !in a'.redactions);
    assert y.id in a.redactions ==> y.id in a'.redactions;
    hide ProperBut, Genuine, Appended, Order, RedactClaim, Absorbed;
  }

  lemma TakeOneCloses(w: World, apart: set<ClaimHash>, a: State, a': State, b: State, x: Artifact)
    requires ProperBut(w, apart, a) && ProperBut(w, apart, b) && Offerable(w, apart, x, b)
    requires ProperBut(w, apart, a') && Absorbed(w, a, a', x)
    ensures Closer(w, apart, a, a', b)
    ensures Complete(x, b) ==> forall log :: !Lacks(a', b, log, x.id)
  {
    hide ProperBut, Offerable, Absorbed, Lacks, Held, Complete;
    forall log, id
      ensures Lacks(a', b, log, id) ==> Lacks(a, b, log, id)
      ensures Lacks(b, a', log, id) ==> Lacks(b, a, log, id)
      ensures Lacks(b, a', log, id) && Held(a', id) ==> Held(a, id)
    {
      GapCloses(w, apart, a, a', b, x, log, id);
    }
    forall log
      ensures Complete(x, b) ==> !Lacks(a', b, log, x.id)
    {
      GapCloses(w, apart, a, a', b, x, log, x.id);
    }
    forall y | Offerable(w, apart, y, a)
      ensures Offerable(w, apart, y, a')
    {
      OffersStay(w, apart, a, a', x, y);
    }
  }

  lemma CloserIsTransitive(w: World, apart: set<ClaimHash>, a: State, a1: State, a2: State, b: State)
    requires Closer(w, apart, a, a1, b) && Closer(w, apart, a1, a2, b)
    ensures Closer(w, apart, a, a2, b)
  {
    hide Lacks, Held, Offerable;
  }

  lemma CloserToItself(w: World, apart: set<ClaimHash>, a: State, b: State)
    ensures Closer(w, apart, a, a, b)
  {
  }

  ghost predicate AllOfferable(w: World, apart: set<ClaimHash>, xs: seq<Artifact>, b: State) {
    forall i | 0 <= i < |xs| :: Offerable(w, apart, xs[i], b)
  }

  /** Each complete artifact handed over closed its gap. */
  ghost predicate Delivered(xs: seq<Artifact>, a: State, b: State) {
    forall i, log | 0 <= i < |xs| && Complete(xs[i], b) :: !Lacks(a, b, log, xs[i].id)
  }

  /** Taking several artifacts `b` may offer. */
  lemma {:induction false} TakeFrom(w: World, apart: set<ClaimHash>, a: State, b: State, xs: seq<Artifact>, now: int)
    requires ProperBut(w, apart, a) && ProperBut(w, apart, b) && AllOfferable(w, apart, xs, b)
    ensures var a' := IngestAll(a, xs, now);
            ProperBut(w, apart, a') && Closer(w, apart, a, a', b) && Delivered(xs, a', b)
    decreases |xs|
  {
    hide Closer, Lacks, Offerable, Absorbed, Healthy, Unstripped, Truthful, Complete, Ingested;
    if xs == [] {
      CloserToItself(w, apart, a, b);
    } else {
      var x, rest := xs[0], xs[1..];
      var a1 := Ingested(a, x, now);
      assert Genuine(w, x) by { OfferedIsGenuine(w, apart, x, b); }
      Absorb(w, a, x, now);
      TakeOneHolds(w, apart, a, a1, b, x);
      TakeOneCloses(w, apart, a, a1, b, x);
      TakeFrom(w, apart, a1, b, rest, now);
      var a' := IngestAll(a, xs, now);
      assert a' == IngestAll(a1, rest, now);
      CloserIsTransitive(w, apart, a, a1, a', b);
      forall i, log | 0 <= i < |xs| && Complete(xs[i], b)
        ensures !Lacks(a', b, log, xs[i].id)
      {
        if i > 0 {
          assert rest[i - 1] == xs[i];
        } else {
          CloserMeans(w, apart, a1, a', b, log, x.id);
        }
      }
    }
  }

  lemma CloserMeans(w: World, apart: set<ClaimHash>, a: State, a': State, b: State, log: LogId, id: ClaimHash)
    requires Closer(w, apart, a, a', b)
    ensures Lacks(a', b, log, id) ==> Lacks(a, b, log, id)
    ensures Lacks(b, a', log, id) ==> Lacks(b, a, log, id)
    ensures Lacks(b, a', log, id) && Held(a', id) ==> Held(a, id)
  {
  }

  lemma OfferedIsGenuine(w: World, apart: set<ClaimHash>, x: Artifact, b: State)
    requires Offerable(w, apart, x, b)
    ensures Genuine(w, x)
  {
  }

  /** No gap opens, on either side. */
  lemma GaplessStays(w: World, apart: set<ClaimHash>, a: State, a': State, b: State, log: LogId)
    requires Closer(w, apart, a, a', b)
    ensures Gapless(a, b, log) ==> Gapless(a', b, log)
    ensures Gapless(b, a, log) ==> Gapless(b, a', log)
  {
    hide Lacks, Held, Offerable;
  }

  lemma LevelIsGapless(a: State, b: State, log: LogId)
    ensures Level(a, b, log) <==> Gapless(a, b, log) && Gapless(b, a, log)
  {
    hide Lacks;
  }
}
