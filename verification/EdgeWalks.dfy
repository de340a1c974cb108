/** The deep walk as it runs: one set of edges appended to on the way through a body. */
module EdgeWalks {
  import opened Bytes
  import opened Values
  import Cbor
  import CborCoder
  import opened Wire

  class EdgeWalk {
    const hash: Digest
    var refs: seq<nat>
    var blobs: seq<nat>
    var skipped: nat

    constructor (hash: Digest)
      ensures this.hash == hash && Found() == NO_EDGES
    {
      this.hash, refs, blobs, skipped := hash, [], [], 0;
    }

    function Found(): Edges
      reads this
    {
      Edges(refs, blobs, skipped)
    }

    static lemma JoinNothing(e: Edges)
      ensures Join(e, NO_EDGES) == e
    {
    }

    static lemma JoinIsAssociative(a: Edges, b: Edges, c: Edges)
      ensures Join(Join(a, b), c) == Join(a, Join(b, c))
    {
      assert (a.refs + b.refs) + c.refs == a.refs + (b.refs + c.refs);
      assert (a.blobs + b.blobs) + c.blobs == a.blobs + (b.blobs + c.blobs);
    }

    /** A quote counts as a reference and is walked through, within the depth bound. */
    method WalkEmbed(e: Event, depth: nat)
      modifies this
      ensures Found() == Join(old(Found()), Collect(hash, Embed(e), depth))
      decreases if depth < MAX_EMBED_DEPTH then MAX_EMBED_DEPTH - depth else 0, Embed(e), 0
    {
      hide Check, Join;
      assert Join(Found(), NO_EDGES.(skipped := 1)) == Edges(refs, blobs, skipped + 1) by { SkipOne(Found()); }
      if depth >= MAX_EMBED_DEPTH {
        skipped := skipped + 1;
        return;
      }
      var claim := Check(hash, e);
      if claim.None? {
        skipped := skipped + 1;
        return;
      }
      ghost var before := Found();
      var id := Name(hash(e.header));
      RefOne(before, id);
      refs := refs + [id];
      if claim.value.body.Some? {
        JoinIsAssociative(before, Edges([id], [], 0), Collect(hash, claim.value.body.value, depth + 1));
        Walk(claim.value.body.value, depth + 1);
      } else {
        JoinNothing(Edges([id], [], 0));
      }
    }

    static lemma SkipOne(e: Edges)
      ensures Join(e, NO_EDGES.(skipped := 1)) == Edges(e.refs, e.blobs, e.skipped + 1)
    {
    }

    static lemma RefOne(e: Edges, id: nat)
      ensures Join(e, Edges([id], [], 0)) == Edges(e.refs + [id], e.blobs, e.skipped)
    {
    }

    static lemma BlobOne(e: Edges, id: nat)
      ensures Join(e, Edges([], [id], 0)) == Edges(e.refs, e.blobs + [id], e.skipped)
    {
    }

    method Walk(v: Value, depth: nat)
      modifies this
      ensures Found() == Join(old(Found()), Collect(hash, v, depth))
      decreases if depth < MAX_EMBED_DEPTH then MAX_EMBED_DEPTH - depth else 0, v, 1
    {
      JoinNothing(Found());
      match v {
        case ClaimRef(_, claim) =>
          RefOne(Found(), Name(claim));
          refs := refs + [Name(claim)];
        case BlobRef(blob, _, _) =>
          BlobOne(Found(), Name(blob));
          blobs := blobs + [Name(blob)];
        case Embed(e) => WalkEmbed(e, depth);
        case Array(items) => WalkItems(v, depth);
        case Map(m) => WalkEntries(v, depth);
        case Tagged(_, inner) => Walk(inner, depth);
        case _ =>
      }
    }

    static lemma ItemsNext(hash: Digest, items: seq<Value>, i: nat, depth: nat)
      requires i < |items|
      ensures CollectItems(hash, items[i..], depth) ==
              Join(Collect(hash, items[i], depth), CollectItems(hash, items[i + 1..], depth))
    {
      assert items[i..][0] == items[i] && items[i..][1..] == items[i + 1..];
    }

    static lemma NoItems(hash: Digest, items: seq<Value>, depth: nat)
      ensures CollectItems(hash, items[|items|..], depth) == NO_EDGES
    {
    }

    method WalkItems(v: Value, depth: nat)
      requires v.Array?
      modifies this
      ensures Found() == Join(old(Found()), Collect(hash, v, depth))
      decreases if depth < MAX_EMBED_DEPTH then MAX_EMBED_DEPTH - depth else 0, v, 0
    {
      var items := v.items;
      assert Collect(hash, v, depth) == CollectItems(hash, items, depth);
      hide Collect, CollectItems, Join;
      assert items[0..] == items;
      for i := 0 to |items|
        invariant Join(Found(), CollectItems(hash, items[i..], depth)) == Join(old(Found()), Collect(hash, v, depth))
      {
        ItemsNext(hash, items, i, depth);
        JoinIsAssociative(Found(), Collect(hash, items[i], depth), CollectItems(hash, items[i + 1..], depth));
        Walk(items[i], depth);
      }
      NoItems(hash, items, depth);
      JoinNothing(Found());
    }

    static lemma EntriesNext(hash: Digest, v: Value, ks: seq<Bytes>, i: nat, depth: nat)
      requires v.Map? && Cbor.Within(ks, v.entries) && i < |ks|
      ensures Cbor.Within(ks[i..], v.entries) && Cbor.Within(ks[i + 1..], v.entries)
      ensures CollectEntries(hash, v, ks[i..], depth) ==
              Join(Collect(hash, v.entries[ks[i]], depth), CollectEntries(hash, v, ks[i + 1..], depth))
    {
      assert ks[i..][0] == ks[i] && ks[i..][1..] == ks[i + 1..];
    }

    static lemma NoEntries(hash: Digest, v: Value, ks: seq<Bytes>, depth: nat)
      requires v.Map?
      ensures Cbor.Within(ks[|ks|..], v.entries) && CollectEntries(hash, v, ks[|ks|..], depth) == NO_EDGES
    {
    }

    method WalkEntries(v: Value, depth: nat)
      requires v.Map?
      modifies this
      ensures Found() == Join(old(Found()), Collect(hash, v, depth))
      decreases if depth < MAX_EMBED_DEPTH then MAX_EMBED_DEPTH - depth else 0, v, 0
    {
      var m := v.entries;
      CborCoder.Encoder.SortedWithin(m);
      assert Collect(hash, v, depth) == CollectEntries(hash, v, Cbor.SortKeys(m.Keys), depth);
      hide Collect, CollectEntries, Join, Cbor.SortKeys, Cbor.Within;
      var ks := CborCoder.Order(m.Keys);
      assert ks[0..] == ks;
      for i := 0 to |ks|
        invariant Cbor.Within(ks[i..], m)
        invariant Join(Found(), CollectEntries(hash, v, ks[i..], depth)) == Join(old(Found()), Collect(hash, v, depth))
      {
        EntriesNext(hash, v, ks, i, depth);
        CborCoder.Encoder.KeyIsThere(ks, m, i);
        JoinIsAssociative(Found(), Collect(hash, m[ks[i]], depth), CollectEntries(hash, v, ks[i + 1..], depth));
        Walk(m[ks[i]], depth);
      }
      NoEntries(hash, v, ks, depth);
      JoinNothing(Found());
    }
  }
}
