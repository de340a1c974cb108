/**
 The in-memory backend: rows and indexes changed in place, with an undo log
 while a transaction is open.
 */
module Storage {
  import opened Bytes
  import opened Rows

  /** How to take one recorded mutation back. */
  datatype Undo =
    | RestoreClaim(id: ClaimHash, row: Option<Row>)
    | Unlink(target: ClaimHash, source: ClaimHash)
    | Relink(target: ClaimHash, source: ClaimHash)
    | Unrefer(blob: BlobHash, source: ClaimHash)
    | Rerefer(blob: BlobHash, source: ClaimHash)
    | RestoreRedaction(target: ClaimHash, redactor: Option<ClaimHash>)

  function Restored<T>(m: map<nat, T>, k: nat, prior: Option<T>): map<nat, T> {
    if prior.Some? then m[k := prior.value] else m - {k}
  }

  function Lookup<T>(m: map<nat, T>, k: nat): Option<T> {
    if k in m then Some(m[k]) else None
  }

  function Undone(u: Undo, s: State): State {
    match u
    case RestoreClaim(id, row) => s.(claims := Restored(s.claims, id, row))
    case Unlink(t, x) => s.(backlinks := RemoveEdge(s.backlinks, t, x))
    case Relink(t, x) => s.(backlinks := AddEdge(s.backlinks, t, x))
    case Unrefer(b, x) => s.(referrers := RemoveEdge(s.referrers, b, x))
    case Rerefer(b, x) => s.(referrers := AddEdge(s.referrers, b, x))
    case RestoreRedaction(t, redactor) => s.(redactions := Restored(s.redactions, t, redactor))
  }

  /** Replaying an undo log from its end. */
  function Unwind(log: seq<Undo>, s: State): State
    decreases |log|
  {
    if log == [] then s else Unwind(log[..|log| - 1], Undone(log[|log| - 1], s))
  }

  lemma UnwindSnoc(log: seq<Undo>, u: Undo, s: State)
    ensures Unwind(log + [u], s) == Unwind(log, Undone(u, s))
  {
    assert (log + [u])[..|log|] == log;
  }

  lemma RestoredUndoesPut<T>(m: map<nat, T>, k: nat, v: T)
    ensures Restored(m[k := v], k, Lookup(m, k)) == m
  {
  }

  lemma RestoredUndoesRemove<T>(m: map<nat, T>, k: nat)
    requires k in m
    ensures Restored(m - {k}, k, Lookup(m, k)) == m
  {
  }

  lemma RemoveUndoesAdd(m: Edges, k: nat, x: ClaimHash)
    requires NoEmptySets(m) && !Linked(m, k, x)
    ensures RemoveEdge(AddEdge(m, k, x), k, x) == m
  {
    AddEdgeLinks(m, k, x);
    RemoveEdgeUnlinks(AddEdge(m, k, x), k, x);
    SameEdges(RemoveEdge(AddEdge(m, k, x), k, x), m);
  }

  lemma AddUndoesRemove(m: Edges, k: nat, x: ClaimHash)
    requires NoEmptySets(m) && Linked(m, k, x)
    ensures AddEdge(RemoveEdge(m, k, x), k, x) == m
  {
    RemoveEdgeUnlinks(m, k, x);
    AddEdgeLinks(RemoveEdge(m, k, x), k, x);
    SameEdges(AddEdge(RemoveEdge(m, k, x), k, x), m);
  }

  lemma AddLinkedIsNothing(m: Edges, k: nat, x: ClaimHash)
    requires Linked(m, k, x)
    ensures AddEdge(m, k, x) == m
  {
    assert m[k] + {x} == m[k];
  }

  lemma RemoveUnlinkedIsNothing(m: Edges, k: nat, x: ClaimHash)
    requires NoEmptySets(m) && !Linked(m, k, x)
    ensures RemoveEdge(m, k, x) == m
  {
    if k in m {
      assert m[k] - {x} == m[k];
    }
  }

  /** Edges left once every edge from one of `gone` is removed. */
  ghost predicate Scrubbed(m': Edges, m: Edges, gone: set<ClaimHash>) {
    forall k, x :: Linked(m', k, x) <==> Linked(m, k, x) && x !in gone
  }

  lemma ScrubbedNothing(m: Edges)
    ensures Scrubbed(m, m, {})
  {
  }

  lemma ScrubbedMore(m: Edges, m': Edges, m'': Edges, gone: set<ClaimHash>, id: ClaimHash, all: set<ClaimHash>)
    requires Scrubbed(m', m, gone) && Scrubbed(m'', m', {id}) && all == gone + {id}
    ensures Scrubbed(m'', m, all)
  {
  }

  class MemoryClaimStorage {
    var claims: map<ClaimHash, Row>
    var backlinks: Edges
    var referrers: Edges
    var redactions: map<ClaimHash, ClaimHash>
    var undo: Option<seq<Undo>>
    /** The state a rollback must bring back. */
    ghost var base: State

    ghost function View(): State
      reads this
    {
      State(claims, backlinks, referrers, redactions)
    }

    ghost predicate Valid()
      reads this
    {
      && WellKept(View())
      && (undo.Some? ==> WellKept(base) && Unwind(undo.value, View()) == base)
    }

    constructor ()
      ensures Valid() && View() == EMPTY && undo == None
    {
      claims, backlinks, referrers, redactions, undo := map[], map[], map[], map[], None;
      base := EMPTY;
    }

    /** Log how to take back a mutation; nothing to log outside a transaction. */
    method Record(u: Undo)
      requires WellKept(View())
      requires undo.Some? ==> WellKept(base) && Unwind(undo.value, Undone(u, View())) == base
      modifies this`undo
      ensures Valid() && undo.Some? == old(undo).Some?
    {
      if undo.Some? {
        UnwindSnoc(undo.value, u, View());
        undo := Some(undo.value + [u]);
      }
    }

    method PutClaim(row: Row)
      requires Valid()
      modifies this`claims, this`undo
      ensures Valid() && View() == Apply(Write.PutClaim(row), old(View())) && undo.Some? == old(undo).Some?
    {
      var id := row.art.id;
      var prior := Lookup(claims, id);
      RestoredUndoesPut(claims, id, row);
      claims := claims[id := row];
      assert Undone(RestoreClaim(id, prior), View()) == old(View());
      Record(RestoreClaim(id, prior));
    }

    method AddBacklink(target: ClaimHash, source: ClaimHash)
      requires Valid()
      modifies this`backlinks, this`undo
      ensures Valid() && View() == Apply(Write.AddBacklink(target, source), old(View()))
      ensures undo.Some? == old(undo).Some?
    {
      if Linked(backlinks, target, source) {
        AddLinkedIsNothing(backlinks, target, source);
      } else {
        RemoveUndoesAdd(backlinks, target, source);
        AddEdgeLinks(backlinks, target, source);
        backlinks := AddEdge(backlinks, target, source);
        assert Undone(Unlink(target, source), View()) == old(View());
        Record(Unlink(target, source));
      }
    }

    method RemoveBacklink(target: ClaimHash, source: ClaimHash)
      requires Valid()
      modifies this`backlinks, this`undo
      ensures Valid() && View() == Apply(Write.RemoveBacklink(target, source), old(View()))
      ensures undo.Some? == old(undo).Some?
    {
      if !Linked(backlinks, target, source) {
        RemoveUnlinkedIsNothing(backlinks, target, source);
      } else {
        AddUndoesRemove(backlinks, target, source);
        RemoveEdgeUnlinks(backlinks, target, source);
        backlinks := RemoveEdge(backlinks, target, source);
        assert Undone(Relink(target, source), View()) == old(View());
        Record(Relink(target, source));
      }
    }

    method AddReferrer(blob: BlobHash, source: ClaimHash)
      requires Valid()
      modifies this`referrers, this`undo
      ensures Valid() && View() == Apply(Write.AddReferrer(blob, source), old(View()))
      ensures undo.Some? == old(undo).Some?
    {
      if Linked(referrers, blob, source) {
        AddLinkedIsNothing(referrers, blob, source);
      } else {
        RemoveUndoesAdd(referrers, blob, source);
        AddEdgeLinks(referrers, blob, source);
        referrers := AddEdge(referrers, blob, source);
        assert Undone(Unrefer(blob, source), View()) == old(View());
        Record(Unrefer(blob, source));
      }
    }

    method RemoveReferrer(blob: BlobHash, source: ClaimHash)
      requires Valid()
      modifies this`referrers, this`undo
      ensures Valid() && View() == Apply(Write.RemoveReferrer(blob, source), old(View()))
      ensures undo.Some? == old(undo).Some?
    {
      if !Linked(referrers, blob, source) {
        RemoveUnlinkedIsNothing(referrers, blob, source);
      } else {
        AddUndoesRemove(referrers, blob, source);
        RemoveEdgeUnlinks(referrers, blob, source);
        referrers := RemoveEdge(referrers, blob, source);
        assert Undone(Rerefer(blob, source), View()) == old(View());
        Record(Rerefer(blob, source));
      }
    }

    method SetRedaction(target: ClaimHash, redactor: ClaimHash)
      requires Valid()
      modifies this`redactions, this`undo
      ensures Valid() && View() == Apply(Write.SetRedaction(target, redactor), old(View()))
      ensures undo.Some? == old(undo).Some?
    {
      var prior := Lookup(redactions, target);
      RestoredUndoesPut(redactions, target, redactor);
      redactions := redactions[target := redactor];
      assert Undone(RestoreRedaction(target, prior), View()) == old(View());
      Record(RestoreRedaction(target, prior));
    }

    // ── Retention ──────────────────────────────────────────────────────

    /** Every backlink out of `id` goes. */
    method ScrubBacklinks(id: ClaimHash)
      requires Valid()
      modifies this`backlinks, this`undo
      ensures Valid() && Scrubbed(backlinks, old(backlinks), {id}) && undo.Some? == old(undo).Some?
    {
      var targets := set t | t in backlinks && id in backlinks[t];
      while targets != {}
        invariant Valid() && undo.Some? == old(undo).Some?
        invariant forall k, x :: Linked(backlinks, k, x) <==> Linked(old(backlinks), k, x) && (x != id || k in targets)
        invariant unchanged(`claims) && unchanged(`referrers) && unchanged(`redactions) && unchanged(`base)
      {
        var t :| t in targets;
        targets := targets - {t};
        ghost var before := backlinks;
        RemoveBacklink(t, id);
        RemoveEdgeUnlinks(before, t, id);
      }
    }

    /** Every blob edge out of `id` goes. */
    method ScrubReferrers(id: ClaimHash)
      requires Valid()
      modifies this`referrers, this`undo
      ensures Valid() && Scrubbed(referrers, old(referrers), {id}) && undo.Some? == old(undo).Some?
    {
      var blobs := set b | b in referrers && id in referrers[b];
      while blobs != {}
        invariant Valid() && undo.Some? == old(undo).Some?
        invariant forall k, x :: Linked(referrers, k, x) <==> Linked(old(referrers), k, x) && (x != id || k in blobs)
        invariant unchanged(`claims) && unchanged(`backlinks) && unchanged(`redactions) && unchanged(`base)
      {
        var b :| b in blobs;
        blobs := blobs - {b};
        ghost var before := referrers;
        RemoveReferrer(b, id);
        RemoveEdgeUnlinks(before, b, id);
      }
    }

    method DropClaim(id: ClaimHash)
      requires Valid()
      modifies this`claims, this`undo
      ensures Valid() && claims == old(claims) - {id} && undo.Some? == old(undo).Some?
    {
      if id in claims {
        var prior := Lookup(claims, id);
        RestoredUndoesRemove(claims, id);
        claims := claims - {id};
        assert Undone(RestoreClaim(id, prior), View()) == old(View());
        Record(RestoreClaim(id, prior));
      }
    }

    method DropRedaction(id: ClaimHash)
      requires Valid()
      modifies this`redactions, this`undo
      ensures Valid() && redactions == old(redactions) - {id} && undo.Some? == old(undo).Some?
    {
      if id in redactions {
        var prior := Lookup(redactions, id);
        RestoredUndoesRemove(redactions, id);
        redactions := redactions - {id};
        assert Undone(RestoreRedaction(id, prior), View()) == old(View());
        Record(RestoreRedaction(id, prior));
      }
    }

    /**
     Discard every claim received before `cutoff`, its outgoing edges, and the
     redaction row naming it as target.
     */
    method PurgeOlderThan(cutoff: int) returns (purged: set<ClaimHash>)
      requires Valid()
      modifies this`claims, this`backlinks, this`referrers, this`redactions, this`undo
      ensures Valid() && undo.Some? == old(undo).Some?
      ensures purged == set id | id in old(claims) && old(claims)[id].receivedAt < cutoff
      ensures claims == old(claims) - purged && redactions == old(redactions) - purged
      ensures Scrubbed(backlinks, old(backlinks), purged) && Scrubbed(referrers, old(referrers), purged)
    {
      hide Unwind, Undone, WellKept, Scrubbed, Linked;
      purged := set id | id in claims && claims[id].receivedAt < cutoff;
      var left := purged;
      assert purged - left == {};
      ScrubbedNothing(backlinks);
      ScrubbedNothing(referrers);
      while left != {}
        invariant Valid() && undo.Some? == old(undo).Some? && left <= purged && unchanged(`base)
        invariant claims == old(claims) - (purged - left) && redactions == old(redactions) - (purged - left)
        invariant Scrubbed(backlinks, old(backlinks), purged - left)
        invariant Scrubbed(referrers, old(referrers), purged - left)
        decreases left
      {
        var id :| id in left;
        ghost var gone, links, refers := purged - left, backlinks, referrers;
        DropClaim(id);
        ScrubBacklinks(id);
        ScrubReferrers(id);
        DropRedaction(id);
        left := left - {id};
        assert purged - left == gone + {id};
        ScrubbedMore(old(backlinks), links, backlinks, gone, id, purged - left);
        ScrubbedMore(old(referrers), refers, referrers, gone, id, purged - left);
      }
      assert purged - left == purged;
    }

    // ── Transactions ───────────────────────────────────────────────────

    method Begin() returns (ok: bool)
      requires Valid()
      modifies this`undo, this`base
      ensures Valid() && ok == old(undo).None?
      ensures ok ==> undo == Some([]) && base == View()
      ensures !ok ==> undo == old(undo) && base == old(base)
    {
      ok := undo.None?;
      if ok {
        undo := Some([]);
        base := View();
      }
    }

    method Commit() returns (ok: bool)
      requires Valid()
      modifies this`undo
      ensures Valid() && ok == old(undo).Some? && undo == None
    {
      ok := undo.Some?;
      undo := None;
    }

    /** Whatever happened since `Begin`, the state at `Begin` is back. */
    method Rollback() returns (ok: bool)
      requires Valid()
      modifies this`claims, this`backlinks, this`referrers, this`redactions, this`undo
      ensures Valid() && ok == old(undo).Some? && undo == None
      ensures View() == if ok then old(base) else old(View())
    {
      ok := undo.Some?;
      if ok {
        var log := undo.value;
        undo := None;
        while log != []
          invariant Unwind(log, View()) == base && undo == None
          invariant unchanged(`base)
        {
          var u := log[|log| - 1];
          log := log[..|log| - 1];
          ghost var before := View();
          match u {
            case RestoreClaim(id, row) => claims := Restored(claims, id, row);
            case Unlink(t, x) => backlinks := RemoveEdge(backlinks, t, x);
            case Relink(t, x) => backlinks := AddEdge(backlinks, t, x);
            case Unrefer(b, x) => referrers := RemoveEdge(referrers, b, x);
            case Rerefer(b, x) => referrers := AddEdge(referrers, b, x);
            case RestoreRedaction(t, redactor) => redactions := Restored(redactions, t, redactor);
          }
          assert View() == Undone(u, before);
        }
      }
    }
  }
}
