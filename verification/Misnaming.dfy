/**
 Whose claims a redaction may touch. The recogniser compares the log the redact body
 declares with the author's, never with the log its target is of: a body that names
 another's claim as its own log's redacts it. When that happens, exactly, and when a
 store's redactions are own-log redactions all the same.
 */
module Misnaming {
  import opened Bytes
  import opened Rows
  import opened Ingest
  import opened Converge
  import opened Indexes
  import opened Health
  import opened Exchanges

  /** A redact body that names a claim as of its author's log, where it is of another. */
  ghost predicate Misnames(w: World, x: Artifact, id: ClaimHash) {
    x.body.Some? && x.body.value.redacts == Some(ClaimRef(x.log, id)) && w(id).log != x.log
  }

  // ── One ingest ───────────────────────────────────────────────────────

  /** A claim of another log is redacted, and loses its body, exactly when it is named under the wrong log. */
  lemma StrangersRedactByMisnaming(w: World, s: State, x: Artifact, now: int, id: ClaimHash)
    requires Healthy(w, s) && Genuine(w, x) && w(id).log != x.log && id !in s.redactions
    ensures id in Ingested(s, x, now).redactions <==> Misnames(w, x, id)
    ensures Held(s, id) && !RedactClaim(w, id) ==> (!Held(Ingested(s, x, now), id) <==> Misnames(w, x, id))
  {
    hide Ingested, WellKept, AllGenuine, Explained, Indexed, Dense, RedactClaim;
    Absorb(w, s, x, now);
    var s' := Ingested(s, x, now);
    assert w(x.id).log == x.log;
    assert Held(s', id) <==>
           (Held(s, id) || (id == x.id && x.body.Some?)) && (RedactClaim(w, id) || id !in s'.redactions);
  }

  /** Log 7's claim 1, and log 8's redact claim 2 that names it as of log 8. */
  function Crossed(): World {
    id => if id == 2 then Content(8, [], Body([], Some(ClaimRef(8, 1)), [1], [], 0))
      else Content(7, [], Body([], None, [], [], 0))
  }

  function Whole(id: ClaimHash): Artifact { Artifact(id, Crossed()(id).log, [], [], Some(Crossed()(id).body)) }

  /** A stranger's redact claim drops the body of a claim of another log. */
  lemma StrangerRedacts(now: int) returns (s: State)
    ensures s == Replay([Delivery(Whole(1), now)]) && Healthy(Crossed(), s) && Genuine(Crossed(), Whole(2))
    ensures s.claims.Keys == {1} && Held(s, 1) && Crossed()(1).log != Whole(2).log
    ensures !Held(Ingested(s, Whole(2), now), 1) && 1 in Ingested(s, Whole(2), now).redactions
  {
    var w := Crossed();
    hide Ingested, WellKept, AllGenuine, Explained, Indexed, Dense;
    var first := Delivery(Whole(1), now);
    ReplayIsHealthy(w, []);
    Absorb(w, EMPTY, Whole(1), now);
    assert [first][..0] == [];
    s := Replay([first]);
    assert s == Ingested(EMPTY, Whole(1), now);
    StrangersRedactByMisnaming(w, s, Whole(2), now, 1);
  }

  // ── Whole histories ──────────────────────────────────────────────────

  lemma SeenIsDelivered(w: World, ds: seq<Delivery>)
    requires Deliverable(w, ds)
    ensures forall a | a in Seen(ds) :: Genuine(w, a)
  {
    forall a | a in Seen(ds)
      ensures Genuine(w, a)
    {
      var d :| d in ds && d.art == a;
      var i :| 0 <= i < |ds| && ds[i] == d;
    }
  }

  lemma RedactorIsHeld(w: World, ds: seq<Delivery>, x: Artifact)
    requires Deliverable(w, ds) && x in Seen(ds) && Redacts(x).Some?
    ensures Held(Replay(ds), x.id) && RedactClaim(w, x.id) && Target(w, x.id) == Redacts(x).value
            && w(x.id).log == x.log
  {
    hide Replay, WellKept, RedactorsOf, AllGenuine, RedactClaim, Target, Genuine;
    ReplayConverges(w, ds);
    SeenIsDelivered(w, ds);
    GenuineRedacts(w, x);
    assert x.id in Ids(Seen(ds)) && BodySeen(Seen(ds), x.id);
    var s := Replay(ds);
    assert Held(s, x.id) <==> BodySeen(Seen(ds), x.id) && (RedactClaim(w, x.id) || x.id !in s.redactions);
    assert w(x.id).log == x.log by { assert Genuine(w, x); GenuineIsOfLog(w, x); }
  }

  lemma GenuineIsOfLog(w: World, x: Artifact)
    requires Genuine(w, x)
    ensures w(x.id).log == x.log
  {
  }

  lemma HeldRedactorWasSeen(w: World, ds: seq<Delivery>, id: ClaimHash) returns (x: Artifact)
    requires Deliverable(w, ds) && Held(Replay(ds), id) && RedactClaim(w, id)
    ensures x in Seen(ds) && x.id == id && Redacts(x) == Some(Target(w, id)) && w(id).log == x.log
  {
    hide Replay, WellKept, RedactorsOf, AllGenuine, RedactClaim, Target, Genuine;
    ReplayConverges(w, ds);
    SeenIsDelivered(w, ds);
    var s := Replay(ds);
    assert Held(s, id) <==> BodySeen(Seen(ds), id) && (RedactClaim(w, id) || id !in s.redactions);
    x :| x in Seen(ds) && x.id == id && x.body.Some?;
    GenuineRedacts(w, x);
    GenuineIsOfLog(w, x);
  }

  /** The hypothesis of session convergence, in terms of what was delivered: nothing misnames its target. */
  lemma TruthfulMeans(w: World, ds: seq<Delivery>)
    requires Deliverable(w, ds)
    ensures Truthful(w, Replay(ds)) <==> forall x, id | x in Seen(ds) :: !Misnames(w, x, id)
  {
    hide Replay, Seen, RedactClaim, Target, Deliverable;
    if Truthful(w, Replay(ds)) {
      forall x, id | x in Seen(ds)
        ensures !Misnames(w, x, id)
      {
        if Misnames(w, x, id) {
          RedactorIsHeld(w, ds, x);
        }
      }
    }
    if forall x, id | x in Seen(ds) :: !Misnames(w, x, id) {
      forall id | Held(Replay(ds), id) && RedactClaim(w, id)
        ensures w(Target(w, id)).log == w(id).log
      {
        var x := HeldRedactorWasSeen(w, ds, id);
        assert !Misnames(w, x, Target(w, id));
      }
    }
  }

  // ── Own-log redactions ───────────────────────────────────────────────

  /** Every redaction row names a redactor of its target's log. */
  ghost predicate OwnLogOnly(w: World, s: State) {
    forall t | t in s.redactions :: w(s.redactions[t]).log == w(t).log
  }

  /** Someone of the target's own log redacted it under a lesser id. */
  ghost predicate Forestalled(w: World, seen: set<Artifact>, x: Artifact, t: ClaimHash) {
    exists y :: y in seen && Redacts(y) == Some(t) && y.log == w(t).log && y.id < x.id
  }

  lemma RowsAreLeast(w: World, ds: seq<Delivery>)
    requires Deliverable(w, ds)
    ensures RedactorsOf(Seen(ds), Replay(ds).redactions)
  {
    hide Replay, Seen, WellKept, AllGenuine;
    ReplayConverges(w, ds);
  }

  /**
   The promise that redaction is own-log only, exactly: every redaction a store records
   is by a claim of its target's log if and only if whatever misnamed a target came
   under a greater id than a redaction from the target's own log.
   */
  lemma OwnLogOnlyMeans(w: World, ds: seq<Delivery>)
    requires Deliverable(w, ds)
    ensures OwnLogOnly(w, Replay(ds)) <==>
            forall x, t | x in Seen(ds) && Misnames(w, x, t) :: Forestalled(w, Seen(ds), x, t)
  {
    hide Replay, Seen, Deliverable;
    SeenIsDelivered(w, ds);
    RowsAreLeast(w, ds);
    var seen, m := Seen(ds), Replay(ds).redactions;
    if OwnLogOnly(w, Replay(ds)) {
      forall x, t | x in seen && Misnames(w, x, t)
        ensures Forestalled(w, seen, x, t)
      {
        assert Redacts(x) == Some(t);
        var y :| y in seen && y.id == m[t] && Redacts(y) == Some(t);
        assert w(y.id).log == y.log && w(x.id).log == x.log;
      }
    }
    if forall x, t | x in seen && Misnames(w, x, t) :: Forestalled(w, seen, x, t) {
      forall t | t in m
        ensures w(m[t]).log == w(t).log
      {
        var y :| y in seen && y.id == m[t] && Redacts(y) == Some(t);
        assert w(y.id).log == y.log;
        assert Misnames(w, y, t) ==> Forestalled(w, seen, y, t);
      }
    }
  }
}
