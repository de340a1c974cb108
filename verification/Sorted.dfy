/** Sets of ids listed in ascending order of a rank, ties broken by id. */
module Sorted {

  type Rank = nat -> int

  predicate Before(rank: Rank, a: nat, b: nat) {
    rank(a) < rank(b) || (rank(a) == rank(b) && a < b)
  }

  predicate Ascending(rank: Rank, xs: seq<nat>) {
    |xs| <= 1 || (Before(rank, xs[0], xs[1]) && Ascending(rank, xs[1..]))
  }

  lemma AscendsCons(rank: Rank, x: nat, xs: seq<nat>)
    ensures Ascending(rank, [x] + xs) <==> (xs != [] ==> Before(rank, x, xs[0])) && Ascending(rank, xs)
  {
    hide Before;
    assert ([x] + xs)[1..] == xs;
  }

  lemma {:induction false} AscendsThroughout(rank: Rank, xs: seq<nat>, i: nat, j: nat)
    requires Ascending(rank, xs) && i < j < |xs|
    ensures Before(rank, xs[i], xs[j])
    decreases |xs|
  {
    if i > 0 {
      AscendsThroughout(rank, xs[1..], i - 1, j - 1);
    } else if j > 1 {
      AscendsThroughout(rank, xs[1..], 0, j - 1);
    }
  }

  ghost predicate IsFirst(rank: Rank, ids: set<nat>, m: nat) {
    m in ids && forall x | x in ids :: x == m || Before(rank, m, x)
  }

  lemma {:induction false} FirstExists(rank: Rank, ids: set<nat>)
    requires ids != {}
    ensures exists m :: IsFirst(rank, ids, m)
  {
    var x :| x in ids;
    var rest := ids - {x};
    if rest == {} {
      assert ids == {x};
      assert IsFirst(rank, ids, x);
    } else {
      FirstExists(rank, rest);
      var m :| IsFirst(rank, rest, m);
      assert forall y | y in ids :: y == x || y in rest;
      assert IsFirst(rank, ids, if Before(rank, x, m) then x else m);
    }
  }

  /** What sorting yields. */
  ghost function SortIds(rank: Rank, ids: set<nat>): seq<nat> {
    if ids == {} then []
    else
      FirstExists(rank, ids);
      var m :| IsFirst(rank, ids, m);
      [m] + SortIds(rank, ids - {m})
  }

  ghost predicate Lists(xs: seq<nat>, ids: set<nat>) {
    |xs| == |ids| && forall x :: x in xs <==> x in ids
  }

  /** Some first element leads, and the rest follows sorted. */
  lemma SortIdsSplits(rank: Rank, ids: set<nat>) returns (m: nat)
    requires ids != {}
    ensures IsFirst(rank, ids, m) && SortIds(rank, ids) == [m] + SortIds(rank, ids - {m})
  {
    FirstExists(rank, ids);
    m := SortIds(rank, ids)[0];
  }

  lemma {:induction false} SortIdsLists(rank: Rank, ids: set<nat>)
    ensures Lists(SortIds(rank, ids), ids) && Ascending(rank, SortIds(rank, ids))
  {
    hide Before;
    if ids != {} {
      hide SortIds, Ascending;
      var m := SortIdsSplits(rank, ids);
      var rest := SortIds(rank, ids - {m});
      SortIdsLists(rank, ids - {m});
      if rest != [] {
        assert rest[0] in rest;
      }
      AscendsCons(rank, m, rest);
    }
  }

  lemma {:induction false} HeadIsFirst(rank: Rank, xs: seq<nat>)
    requires xs != [] && Ascending(rank, xs)
    ensures forall x | x in xs[1..] :: Before(rank, xs[0], x)
  {
    if |xs| > 1 {
      HeadIsFirst(rank, xs[1..]);
      assert xs[1..] == [xs[1]] + xs[1..][1..];
    }
  }

  /** Two ascending listings of the same ids are equal. */
  lemma {:induction false} AscendingIsUnique(rank: Rank, xs: seq<nat>, ys: seq<nat>)
    requires Ascending(rank, xs) && Ascending(rank, ys) && forall x :: x in xs <==> x in ys
    ensures xs == ys
  {
    if xs != [] { assert xs[0] in ys; }
    if ys != [] { assert ys[0] in xs; }
    if xs != [] {
      HeadIsFirst(rank, xs);
      HeadIsFirst(rank, ys);
      assert xs == [xs[0]] + xs[1..] && ys == [ys[0]] + ys[1..];
      assert xs[0] == ys[0];
      assert xs[0] !in xs[1..] && ys[0] !in ys[1..];
      forall x
        ensures x in xs[1..] <==> x in ys[1..]
      {
        assert x in xs <==> x == xs[0] || x in xs[1..];
        assert x in ys <==> x == ys[0] || x in ys[1..];
      }
      AscendingIsUnique(rank, xs[1..], ys[1..]);
    }
  }

  /** An ascending listing is the sorted one. */
  lemma SortIdsIs(rank: Rank, ids: set<nat>, xs: seq<nat>)
    requires Ascending(rank, xs) && forall x :: x in xs <==> x in ids
    ensures SortIds(rank, ids) == xs
  {
    SortIdsLists(rank, ids);
    AscendingIsUnique(rank, SortIds(rank, ids), xs);
  }

  lemma {:induction false} AscendsAlike(rank: Rank, rank': Rank, xs: seq<nat>)
    requires (forall x | x in xs :: rank(x) == rank'(x)) && Ascending(rank, xs)
    ensures Ascending(rank', xs)
  {
    if |xs| > 1 {
      assert xs[0] in xs && xs[1] in xs;
      AscendsAlike(rank, rank', xs[1..]);
    }
  }

  /** Only the ranks of the sorted ids matter. */
  lemma SortIdsAlike(rank: Rank, rank': Rank, ids: set<nat>)
    requires forall x | x in ids :: rank(x) == rank'(x)
    ensures SortIds(rank, ids) == SortIds(rank', ids)
  {
    SortIdsLists(rank, ids);
    AscendsAlike(rank, rank', SortIds(rank, ids));
    SortIdsIs(rank', ids, SortIds(rank, ids));
  }

  /** Inserting into an ascending listing, as an insertion sort does. */
  method Insert(rank: Rank, xs: seq<nat>, x: nat) returns (ys: seq<nat>)
    requires Ascending(rank, xs) && x !in xs
    ensures Ascending(rank, ys) && |ys| == |xs| + 1 && forall y :: y in ys <==> y in xs || y == x
  {
    var i := 0;
    while i < |xs| && Before(rank, xs[i], x)
      invariant i <= |xs| && (i > 0 ==> Before(rank, xs[i - 1], x))
    {
      i := i + 1;
    }
    ys := xs[..i] + [x] + xs[i..];
    if i < |xs| {
      assert xs[i] in xs;
    }
    InsertAscends(rank, xs, i, x);
    assert xs == xs[..i] + xs[i..];
  }

  lemma {:induction false} InsertAscends(rank: Rank, xs: seq<nat>, i: nat, x: nat)
    requires Ascending(rank, xs) && i <= |xs|
    requires (i > 0 ==> Before(rank, xs[i - 1], x)) && (i < |xs| ==> Before(rank, x, xs[i]))
    ensures Ascending(rank, xs[..i] + [x] + xs[i..])
  {
    hide Before, Ascending;
    var ys := xs[..i] + [x] + xs[i..];
    if i == 0 {
      assert ys == [x] + xs;
      AscendsCons(rank, x, xs);
    } else {
      var tail := xs[1..];
      var rest := tail[..i - 1] + [x] + tail[i - 1..];
      assert xs == [xs[0]] + tail && ys == [xs[0]] + rest;
      AscendsCons(rank, xs[0], tail);
      InsertAscends(rank, tail, i - 1, x);
      assert rest[0] == if i == 1 then x else tail[0];
      AscendsCons(rank, xs[0], rest);
    }
  }

  /** Sorting a set by insertion. */
  method Sort(rank: Rank, ids: set<nat>) returns (xs: seq<nat>)
    ensures xs == SortIds(rank, ids)
  {
    xs := [];
    var left := ids;
    while left != {}
      invariant left <= ids && Ascending(rank, xs) && forall x :: x in xs <==> x in ids - left
      decreases left
    {
      var x :| x in left;
      xs := Insert(rank, xs, x);
      left := left - {x};
    }
    SortIdsIs(rank, ids, xs);
  }
}
