/**
 What the deep walk finds besides claims: the blobs a body refers to, directly or
 inside a quote it can enter, and how many quotes it had to leave alone.
 */
module Walks {
  import opened Bytes
  import opened Values
  import Cbor
  import opened Wire

  // ── Blobs ────────────────────────────────────────────────────────────

  /** `v` refers to a blob: itself, or inside a quote that checks, within the depth bound. */
  ghost predicate MentionsBlob(h: Digest, v: Value, depth: nat, blob: nat)
    decreases if depth < 64 then 64 - depth else 0, v
  {
    match v
    case BlobRef(hash, _, _) => FromBigEndian(hash) == blob
    case Embed(e) =>
      depth < 64 && Check(h, e).Some? && Check(h, e).value.body.Some?
      && MentionsBlob(h, Check(h, e).value.body.value, depth + 1, blob)
    case Array(items) => exists i :: 0 <= i < |items| && MentionsBlob(h, items[i], depth, blob)
    case Map(m) => exists k :: k in m && MentionsBlob(h, m[k], depth, blob)
    case Tagged(_, inner) => MentionsBlob(h, inner, depth, blob)
    case _ => false
  }

  lemma {:induction false} WalkFindsBlobsOfItems(h: Digest, items: seq<Value>, depth: nat, blob: nat)
    ensures blob in CollectItems(h, items, depth).blobs <==>
            exists i :: 0 <= i < |items| && MentionsBlob(h, items[i], depth, blob)
    decreases if depth < 64 then 64 - depth else 0, items
  {
    hide MentionsBlob, Collect;
    if items != [] {
      var rest := items[1..];
      WalkFindsBlobs(h, items[0], depth, blob);
      WalkFindsBlobsOfItems(h, rest, depth, blob);
      if i :| 0 <= i < |rest| && MentionsBlob(h, rest[i], depth, blob) {
        assert MentionsBlob(h, items[i + 1], depth, blob);
      }
      if i :| 0 <= i < |items| && MentionsBlob(h, items[i], depth, blob) {
        assert i > 0 ==> MentionsBlob(h, rest[i - 1], depth, blob);
      }
    }
  }

  lemma {:induction false} WalkFindsBlobsOfEntries(h: Digest, v: Value, ks: seq<Bytes>, depth: nat, blob: nat)
    requires v.Map? && Cbor.Within(ks, v.entries)
    ensures blob in CollectEntries(h, v, ks, depth).blobs <==>
            exists i :: 0 <= i < |ks| && MentionsBlob(h, v.entries[ks[i]], depth, blob)
    decreases if depth < 64 then 64 - depth else 0, v, |ks|
  {
    hide MentionsBlob, Collect;
    if ks != [] {
      var rest := ks[1..];
      WalkFindsBlobs(h, v.entries[ks[0]], depth, blob);
      WalkFindsBlobsOfEntries(h, v, rest, depth, blob);
      if i :| 0 <= i < |rest| && MentionsBlob(h, v.entries[rest[i]], depth, blob) {
        assert MentionsBlob(h, v.entries[ks[i + 1]], depth, blob);
      }
      if i :| 0 <= i < |ks| && MentionsBlob(h, v.entries[ks[i]], depth, blob) {
        assert i > 0 ==> MentionsBlob(h, v.entries[rest[i - 1]], depth, blob);
      }
    }
  }

  /** The blobs on record are exactly the blobs a body refers to. */
  lemma {:induction false} WalkFindsBlobs(h: Digest, v: Value, depth: nat, blob: nat)
    ensures blob in Collect(h, v, depth).blobs <==> MentionsBlob(h, v, depth, blob)
    decreases if depth < 64 then 64 - depth else 0, v
  {
    hide Check, Cbor.SortKeys, CollectItems, CollectEntries;
    match v
    case Embed(e) =>
      if depth < 64 && Check(h, e).Some? && Check(h, e).value.body.Some? {
        WalkFindsBlobs(h, Check(h, e).value.body.value, depth + 1, blob);
      }
    case Array(items) => WalkFindsBlobsOfItems(h, items, depth, blob);
    case Map(m) =>
      var ks := Cbor.SortKeys(m.Keys);
      Cbor.SortKeysLists(m.Keys);
      WalkFindsBlobsOfEntries(h, v, ks, depth, blob);
      if k :| k in m && MentionsBlob(h, m[k], depth, blob) {
        assert k in ks;
      }
      assert forall i | 0 <= i < |ks| :: ks[i] in ks;
    case Tagged(_, inner) => WalkFindsBlobs(h, inner, depth, blob);
    case _ =>
  }

  // ── Quotes left alone ────────────────────────────────────────────────

  /** The quotes a value holds, not those inside them. */
  ghost function Quotes(v: Value): seq<Event>
    decreases v
  {
    match v
    case Embed(e) => [e]
    case Array(items) => QuotesOfItems(items)
    case Map(m) =>
      Cbor.SortKeysLists(m.Keys);
      QuotesOfEntries(v, Cbor.SortKeys(m.Keys))
    case Tagged(_, inner) => Quotes(inner)
    case _ => []
  }

  ghost function QuotesOfItems(items: seq<Value>): seq<Event>
    decreases items
  {
    if items == [] then [] else Quotes(items[0]) + QuotesOfItems(items[1..])
  }

  ghost function QuotesOfEntries(v: Value, ks: seq<Bytes>): seq<Event>
    requires v.Map? && Cbor.Within(ks, v.entries)
    decreases v, |ks|
  {
    if ks == [] then [] else Quotes(v.entries[ks[0]]) + QuotesOfEntries(v, ks[1..])
  }

  /** How many quotes cannot be entered: too deep, or failing their check. */
  ghost function Refused(h: Digest, quotes: seq<Event>, depth: nat): nat
    decreases if depth < 64 then 64 - depth else 0, |quotes|
  {
    if quotes == [] then 0
    else
      var claim := Check(h, quotes[0]);
      (if depth >= 64 || claim.None? then 1
       else if claim.value.body.Some? then Refused(h, Quotes(claim.value.body.value), depth + 1)
       else 0)
      + Refused(h, quotes[1..], depth)
  }

  lemma {:induction false} RefusedAdds(h: Digest, a: seq<Event>, b: seq<Event>, depth: nat)
    ensures Refused(h, a + b, depth) == Refused(h, a, depth) + Refused(h, b, depth)
    decreases |a|
  {
    if a == [] {
      assert a + b == b;
    } else {
      assert (a + b)[1..] == a[1..] + b;
      RefusedAdds(h, a[1..], b, depth);
    }
  }

  lemma {:induction false} WalkCountsItems(h: Digest, items: seq<Value>, depth: nat)
    ensures CollectItems(h, items, depth).skipped == Refused(h, QuotesOfItems(items), depth)
    decreases if depth < 64 then 64 - depth else 0, items
  {
    hide Collect, Quotes, Refused;
    if items == [] {
      RefusesNone(h, depth);
    } else {
      WalkCountsRefused(h, items[0], depth);
      WalkCountsItems(h, items[1..], depth);
      RefusedAdds(h, Quotes(items[0]), QuotesOfItems(items[1..]), depth);
    }
  }

  lemma RefusesNone(h: Digest, depth: nat)
    ensures Refused(h, [], depth) == 0
  {
  }

  lemma {:induction false} WalkCountsEntries(h: Digest, v: Value, ks: seq<Bytes>, depth: nat)
    requires v.Map? && Cbor.Within(ks, v.entries)
    ensures CollectEntries(h, v, ks, depth).skipped == Refused(h, QuotesOfEntries(v, ks), depth)
    decreases if depth < 64 then 64 - depth else 0, v, |ks|
  {
    hide Collect, Quotes, Refused;
    if ks == [] {
      RefusesNone(h, depth);
    } else {
      WalkCountsRefused(h, v.entries[ks[0]], depth);
      WalkCountsEntries(h, v, ks[1..], depth);
      RefusedAdds(h, Quotes(v.entries[ks[0]]), QuotesOfEntries(v, ks[1..]), depth);
    }
  }

  /** A quote is skipped for each one that cannot be entered, at whatever depth the walk meets it. */
  lemma {:induction false} WalkCountsRefused(h: Digest, v: Value, depth: nat)
    ensures Collect(h, v, depth).skipped == Refused(h, Quotes(v), depth)
    decreases if depth < 64 then 64 - depth else 0, v
  {
    hide Check, Cbor.SortKeys, CollectItems, CollectEntries, QuotesOfItems, QuotesOfEntries;
    match v
    case Embed(e) =>
      assert [e][1..] == [];
      if depth < 64 && Check(h, e).Some? && Check(h, e).value.body.Some? {
        WalkCountsRefused(h, Check(h, e).value.body.value, depth + 1);
      }
    case Array(items) => WalkCountsItems(h, items, depth);
    case Map(m) =>
      Cbor.SortKeysLists(m.Keys);
      WalkCountsEntries(h, v, Cbor.SortKeys(m.Keys), depth);
    case Tagged(_, inner) => WalkCountsRefused(h, inner, depth);
    case _ =>
  }
}
