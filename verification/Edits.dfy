/**
 A new edit: how it changes what reaches what, what it does to the fields it sets,
 and that it changes nothing else.
 */
module Edits {
  import opened Bytes
  import opened Rows
  import opened Sorted
  import opened Queries
  import opened Graphs
  import opened Folding
  import opened FoldLaws

  function Added(nodes: Nodes, e: ClaimView): Nodes { nodes[e.id := e] }

  /** Nothing names the edit yet: its id is the hash of what it names. */
  ghost predicate Unnamed(nodes: Nodes, e: ClaimView) {
    e.id !in nodes && e.id !in e.refs && forall id | id in nodes :: e.id !in nodes[id].refs
  }

  /** What the edit references of the kept claims lies in one component. */
  ghost predicate Within(nodes: Nodes, ids: set<ClaimHash>, e: ClaimView) {
    && ids in Classes(EdgesOf(nodes))
    && (exists r :: r in e.refs && r in ids)
    && forall r | r in e.refs && r in nodes :: r in ids
  }

  // ── The graph with the edit in it ────────────────────────────────────

  lemma NewRefs(nodes: Nodes, e: ClaimView, a: ClaimHash, b: ClaimHash)
    requires Unnamed(nodes, e)
    ensures Refs(EdgesOf(Added(nodes, e)), a, b) <==>
            Refs(EdgesOf(nodes), a, b) || (a == e.id && b in e.refs && b in nodes)
  {
  }

  /** Old claims reach what they reached. */
  lemma OldReach(nodes: Nodes, e: ClaimView, a: ClaimHash, b: ClaimHash)
    requires Unnamed(nodes, e) && a != e.id
    ensures Reaches(EdgesOf(Added(nodes, e)), a, b) <==> Reaches(EdgesOf(nodes), a, b)
  {
    hide EdgesOf;
    var g, g' := EdgesOf(nodes), EdgesOf(Added(nodes, e));
    if Reaches(g', a, b) {
      var p :| WalkFromTo(g', p, a, b);
      forall i | 0 <= i < |p| - 1
        ensures Refs(g, p[i], p[i + 1])
      {
        NewRefs(nodes, e, p[i], p[i + 1]);
        if i > 0 {
          NewRefs(nodes, e, p[i - 1], p[i]);
          assert Refs(g', p[i - 1], p[i]);
          NeverNamed(nodes, e, p[i - 1]);
        }
      }
      assert WalkFromTo(g, p, a, b);
    }
    if Reaches(g, a, b) {
      var p :| WalkFromTo(g, p, a, b);
      forall i | 0 <= i < |p| - 1
        ensures Refs(g', p[i], p[i + 1])
      {
        NewRefs(nodes, e, p[i], p[i + 1]);
      }
      assert WalkFromTo(g', p, a, b);
    }
  }

  lemma NeverNamed(nodes: Nodes, e: ClaimView, a: ClaimHash)
    requires Unnamed(nodes, e)
    ensures !Refs(EdgesOf(Added(nodes, e)), a, e.id)
  {
    NewRefs(nodes, e, a, e.id);
  }

  /** The edit reaches what it references and their histories. */
  lemma EditReach(nodes: Nodes, e: ClaimView, b: ClaimHash)
    requires Unnamed(nodes, e)
    ensures Reaches(EdgesOf(Added(nodes, e)), e.id, b) <==>
            exists r :: r in e.refs && r in nodes && (r == b || Reaches(EdgesOf(nodes), r, b))
  {
    hide EdgesOf;
    var g, g' := EdgesOf(nodes), EdgesOf(Added(nodes, e));
    if Reaches(g', e.id, b) {
      var p :| WalkFromTo(g', p, e.id, b);
      assert Refs(g', p[0], p[1]);
      NewRefs(nodes, e, e.id, p[1]);
      NotANode(nodes, e, p[1]);
      if |p| > 2 {
        forall i | 0 <= i < |p[1..]| - 1
          ensures Refs(g', p[1..][i], p[1..][i + 1])
        {
          var j := i + 1;
          assert Refs(g', p[j], p[j + 1]);
        }
        assert WalkFromTo(g', p[1..], p[1], b);
        OldReach(nodes, e, p[1], b);
      }
    }
    if r :| r in e.refs && r in nodes && (r == b || Reaches(g, r, b)) {
      NewRefs(nodes, e, e.id, r);
      RefsReach(g', e.id, r);
      if r != b {
        OldReach(nodes, e, r, b);
        ReachesIsTransitive(g', e.id, r, b);
      }
    }
  }

  lemma NotANode(nodes: Nodes, e: ClaimView, b: ClaimHash)
    requires Unnamed(nodes, e)
    ensures !Refs(EdgesOf(nodes), e.id, b)
  {
  }

  /** The graph stays acyclic. */
  lemma StaysAcyclic(nodes: Nodes, e: ClaimView)
    requires Unnamed(nodes, e) && Acyclic(EdgesOf(nodes))
    ensures Acyclic(EdgesOf(Added(nodes, e)))
  {
    hide Reaches, EdgesOf;
    forall a
      ensures !Reaches(EdgesOf(Added(nodes, e)), a, a)
    {
      if a != e.id {
        OldReach(nodes, e, a, a);
      } else {
        EditReach(nodes, e, e.id);
        forall r | r in e.refs && r in nodes
          ensures !Reaches(EdgesOf(nodes), r, e.id)
        {
          NeverReached(nodes, e, r);
        }
      }
    }
  }

  lemma NeverReached(nodes: Nodes, e: ClaimView, a: ClaimHash)
    requires Unnamed(nodes, e)
    ensures !Reaches(EdgesOf(nodes), a, e.id)
  {
    if Reaches(EdgesOf(nodes), a, e.id) {
      ReachedIsNode(EdgesOf(nodes), a, e.id);
    }
  }

  // ── Components ───────────────────────────────────────────────────────

  lemma NewAdjacent(nodes: Nodes, e: ClaimView, a: ClaimHash, b: ClaimHash)
    requires Unnamed(nodes, e)
    ensures Adjacent(EdgesOf(Added(nodes, e)), a, b) <==>
            || Adjacent(EdgesOf(nodes), a, b)
            || (a == e.id && b in e.refs && b in nodes) || (b == e.id && a in e.refs && a in nodes)
  {
    NewRefs(nodes, e, a, b);
    NewRefs(nodes, e, b, a);
  }

  lemma StillJoined(nodes: Nodes, e: ClaimView, a: ClaimHash, b: ClaimHash)
    requires Unnamed(nodes, e) && Joined(EdgesOf(nodes), a, b)
    ensures Joined(EdgesOf(Added(nodes, e)), a, b)
  {
    hide EdgesOf, Adjacent;
    var p :| TrailFromTo(EdgesOf(nodes), p, a, b);
    forall i | 0 <= i < |p| - 1
      ensures Adjacent(EdgesOf(Added(nodes, e)), p[i], p[i + 1])
    {
      NewAdjacent(nodes, e, p[i], p[i + 1]);
    }
    assert TrailFromTo(EdgesOf(Added(nodes, e)), p, a, b);
  }

  lemma AdjacentIsNode(g: Graph, a: ClaimHash, b: ClaimHash)
    requires Closed(g) && Adjacent(g, a, b)
    ensures a in g && b in g
  {
  }

  /** A component the edit does not touch is closed still. */
  lemma OtherStaysClosed(nodes: Nodes, e: ClaimView, ids: set<ClaimHash>, a: ClaimHash, x: ClaimHash, y: ClaimHash)
    requires Unnamed(nodes, e) && Within(nodes, ids, e) && a in nodes && a !in ids
    requires x in ClassOf(EdgesOf(nodes), a) && Adjacent(EdgesOf(Added(nodes, e)), x, y)
    ensures y in ClassOf(EdgesOf(nodes), a)
  {
    hide EdgesOf, Adjacent, Joined;
    var g := EdgesOf(nodes);
    NewAdjacent(nodes, e, x, y);
    ApartFrom(nodes, ids, a);
    if Adjacent(g, x, y) {
      AdjacentIsNode(g, x, y);
      JoinedStep(g, a, x, y);
    }
  }

  lemma ApartFrom(nodes: Nodes, ids: set<ClaimHash>, a: ClaimHash)
    requires ids in Classes(EdgesOf(nodes)) && a in nodes && a !in ids
    ensures ids !! ClassOf(EdgesOf(nodes), a)
  {
    hide EdgesOf, Joined;
    var g := EdgesOf(nodes);
    ClassesPartition(g, a, a);
    assert ClassOf(g, a) in Classes(g);
    ClassesAreDisjoint(g, ids, ClassOf(g, a));
  }

  lemma OtherClass(nodes: Nodes, e: ClaimView, ids: set<ClaimHash>, a: ClaimHash)
    requires Unnamed(nodes, e) && Within(nodes, ids, e) && a in nodes && a !in ids
    ensures ClassOf(EdgesOf(Added(nodes, e)), a) == ClassOf(EdgesOf(nodes), a)
  {
    hide EdgesOf, Adjacent, Joined;
    var g, g' := EdgesOf(nodes), EdgesOf(Added(nodes, e));
    var block := ClassOf(g, a);
    JoinedToItself(g, a);
    forall b | Joined(g', a, b)
      ensures b in block
    {
      var p := TrailOf(g', a, b);
      forall x, y | x in block && Adjacent(g', x, y)
        ensures y in block
      {
        OtherStaysClosed(nodes, e, ids, a, x, y);
      }
      ClosedHoldsTrail(g', block, p, a, b);
    }
    forall b | b in block
      ensures Joined(g', a, b)
    {
      StillJoined(nodes, e, a, b);
    }
  }

  lemma TrailOf(g: Graph, a: ClaimHash, b: ClaimHash) returns (p: seq<ClaimHash>)
    requires Joined(g, a, b)
    ensures TrailFromTo(g, p, a, b)
  {
    p :| TrailFromTo(g, p, a, b);
  }

  lemma ClassMeans(nodes: Nodes, ids: set<ClaimHash>, a: ClaimHash)
    requires ids in Classes(EdgesOf(nodes)) && a in ids
    ensures a in nodes && ids == ClassOf(EdgesOf(nodes), a)
  {
    hide EdgesOf, Joined;
    var g := EdgesOf(nodes);
    var b :| b in g && ids == ClassOf(g, b);
    ClassesPartition(g, b, a);
  }

  lemma OwnStaysClosed(nodes: Nodes, e: ClaimView, ids: set<ClaimHash>, x: ClaimHash, y: ClaimHash)
    requires Unnamed(nodes, e) && Within(nodes, ids, e)
    requires x in ids + {e.id} && Adjacent(EdgesOf(Added(nodes, e)), x, y)
    ensures y in ids + {e.id}
  {
    hide EdgesOf, Adjacent, Joined, Classes;
    var g := EdgesOf(nodes);
    NewAdjacent(nodes, e, x, y);
    if Adjacent(g, x, y) {
      AdjacentIsNode(g, x, y);
      ClassMeans(nodes, ids, x);
      JoinedStep(g, x, x, y) by { JoinedToItself(g, x); }
    }
  }

  /** The edit joins the one component it references. */
  lemma OwnClass(nodes: Nodes, e: ClaimView, ids: set<ClaimHash>, a: ClaimHash)
    requires Unnamed(nodes, e) && Within(nodes, ids, e) && a in ids + {e.id}
    ensures ClassOf(EdgesOf(Added(nodes, e)), a) == ids + {e.id}
  {
    hide EdgesOf, Adjacent, Joined, Classes;
    var g, g' := EdgesOf(nodes), EdgesOf(Added(nodes, e));
    var r :| r in e.refs && r in ids;
    ClassMeans(nodes, ids, r);
    NewAdjacent(nodes, e, e.id, r);
    NewAdjacent(nodes, e, r, e.id);
    JoinedToItself(g', r);
    JoinedStep(g', r, r, e.id);
    forall x | x in ids + {e.id}
      ensures Joined(g', r, x)
    {
      if x in ids {
        StillJoined(nodes, e, r, x);
      }
    }
    JoinedIsSymmetric(g', r, a);
    forall b | Joined(g', a, b)
      ensures b in ids + {e.id}
    {
      var p := TrailOf(g', a, b);
      forall x, y | x in ids + {e.id} && Adjacent(g', x, y)
        ensures y in ids + {e.id}
      {
        OwnStaysClosed(nodes, e, ids, x, y);
      }
      ClosedHoldsTrail(g', ids + {e.id}, p, a, b);
    }
    forall b | b in ids + {e.id}
      ensures Joined(g', a, b) && b in g'
    {
      JoinedIsTransitive(g', a, r, b);
    }
  }

  lemma NewClasses(nodes: Nodes, e: ClaimView, ids: set<ClaimHash>)
    requires Unnamed(nodes, e) && Within(nodes, ids, e)
    ensures Classes(EdgesOf(Added(nodes, e))) == Classes(EdgesOf(nodes)) - {ids} + {ids + {e.id}}
  {
    hide EdgesOf, Joined, ClassOf;
    var g, g' := EdgesOf(nodes), EdgesOf(Added(nodes, e));
    forall c
      ensures c in Classes(g') <==> c in Classes(g) - {ids} + {ids + {e.id}}
    {
      if c in Classes(g') {
        var a :| a in g' && c == ClassOf(g', a);
        if a in ids + {e.id} {
          OwnClass(nodes, e, ids, a);
        } else {
          OtherClass(nodes, e, ids, a);
          ClassesPartition(g, a, a);
        }
      }
      if c in Classes(g) && c != ids {
        var a :| a in g && c == ClassOf(g, a);
        if a in ids {
          ClassMeans(nodes, ids, a);
        } else {
          OtherClass(nodes, e, ids, a);
        }
      }
      if c == ids + {e.id} {
        OwnClass(nodes, e, ids, e.id);
      }
    }
  }

  // ── Fields ───────────────────────────────────────────────────────────

  predicate IsEdit(schema: Schema, e: ClaimView) { RoleOf(schema, e) == Some(Edit) }

  /** The edit is entitled in the component it joins, and names the field. */
  predicate SetsIn(schema: Schema, nodes: Nodes, ids: set<ClaimHash>, e: ClaimView, field: Bytes) {
    IsField(field) && field in e.body && e.author in RootAuthors(schema, nodes, ids)
  }

  lemma SameAuthors(schema: Schema, nodes: Nodes, e: ClaimView, ids: set<ClaimHash>, ids': set<ClaimHash>)
    requires e.id !in nodes && IsEdit(schema, e) && ids <= nodes.Keys && (ids' == ids || ids' == ids + {e.id})
    ensures RootAuthors(schema, Added(nodes, e), ids') == RootAuthors(schema, nodes, ids)
  {
    var nodes' := Added(nodes, e);
    forall id | id in ids && RoleOf(schema, nodes[id]) == Some(Root)
      ensures nodes[id].author in RootAuthors(schema, nodes', ids')
    {
      assert id in ids' && nodes'[id] == nodes[id];
    }
  }

  lemma NewCandidates(schema: Schema, nodes: Nodes, e: ClaimView, ids: set<ClaimHash>, ids': set<ClaimHash>,
                      field: Bytes)
    requires e.id !in nodes && IsEdit(schema, e) && ids <= nodes.Keys && (ids' == ids || ids' == ids + {e.id})
    ensures Candidates(schema, Added(nodes, e), ids', field) ==
            Candidates(schema, nodes, ids, field)
              + (if e.id in ids' && SetsIn(schema, nodes, ids, e, field) then {e.id} else {})
  {
    SameAuthors(schema, nodes, e, ids, ids');
    hide RootAuthors, RoleOf;
  }

  /** Among old claims nothing changes hands. */
  lemma SameDominated(nodes: Nodes, e: ClaimView, candidates: set<ClaimHash>)
    requires Unnamed(nodes, e) && candidates <= nodes.Keys
    ensures Dominated(Added(nodes, e), candidates) == Dominated(nodes, candidates)
  {
    hide Reaches, EdgesOf;
    forall a | a in candidates
      ensures DominatedBy(Added(nodes, e), candidates, a) <==> DominatedBy(nodes, candidates, a)
    {
      forall d | d in candidates
        ensures Reaches(EdgesOf(Added(nodes, e)), d, a) <==> Reaches(EdgesOf(nodes), d, a)
      {
        OldReach(nodes, e, d, a);
      }
    }
  }

  /** With the edit among them, it leads, and what it reaches no longer does. */
  lemma NewFrontier(nodes: Nodes, e: ClaimView, candidates: set<ClaimHash>)
    requires Unnamed(nodes, e) && candidates <= nodes.Keys
    ensures FrontierOf(Added(nodes, e), candidates + {e.id}) ==
            {e.id} + (FrontierOf(nodes, candidates) - Ancestors(EdgesOf(Added(nodes, e)), e.id))
  {
    hide Reaches, EdgesOf;
    var nodes' := Added(nodes, e);
    var g' := EdgesOf(nodes');
    forall a | a in candidates + {e.id}
      ensures a in Dominated(nodes', candidates + {e.id}) <==>
              a != e.id && (a in Dominated(nodes, candidates) || Reaches(g', e.id, a))
    {
      if a == e.id {
        forall d | d in candidates + {e.id}
          ensures !Reaches(g', d, e.id)
        {
          Unreached(nodes, e, d);
        }
      } else {
        forall d | d in candidates
          ensures Reaches(g', d, a) <==> Reaches(EdgesOf(nodes), d, a)
        {
          OldReach(nodes, e, d, a);
        }
        DominatedOrReached(nodes', candidates, e.id, a);
        SameDominated(nodes, e, candidates);
      }
    }
  }

  lemma DominatedOrReached(nodes: Nodes, candidates: set<ClaimHash>, top: ClaimHash, a: ClaimHash)
    ensures DominatedBy(nodes, candidates + {top}, a) <==>
            DominatedBy(nodes, candidates, a) || Reaches(EdgesOf(nodes), top, a)
  {
    hide Reaches, EdgesOf;
    if Reaches(EdgesOf(nodes), top, a) {
      assert top in candidates + {top};
    }
  }

  lemma Unreached(nodes: Nodes, e: ClaimView, d: ClaimHash)
    requires Unnamed(nodes, e)
    ensures !Reaches(EdgesOf(Added(nodes, e)), d, e.id)
  {
    hide Reaches, EdgesOf;
    if d != e.id {
      OldReach(nodes, e, d, e.id);
      NeverReached(nodes, e, d);
    } else {
      EditReach(nodes, e, e.id);
      forall r | r in e.refs && r in nodes
        ensures !Reaches(EdgesOf(nodes), r, e.id)
      {
        NeverReached(nodes, e, r);
      }
    }
  }

  lemma SameOrder(nodes: Nodes, e: ClaimView, field: Bytes, ids: set<ClaimHash>)
    requires e.id !in nodes && forall id | id in ids :: id in nodes && field in nodes[id].body
    ensures InOrder(Added(nodes, e), field, ids) == InOrder(nodes, field, ids)
  {
    SortIdsAlike(ByTime(nodes), ByTime(Added(nodes, e)), ids);
    HistoryIsSorted(nodes, field, ids);
    HistoryIsSorted(Added(nodes, e), field, ids);
    hide SortIds, InOrder;
  }

  /** A field the edit does not set is as it was. */
  lemma SameState(schema: Schema, nodes: Nodes, e: ClaimView, ids: set<ClaimHash>, ids': set<ClaimHash>, field: Bytes)
    requires Unnamed(nodes, e) && IsEdit(schema, e) && ids <= nodes.Keys && (ids' == ids || ids' == ids + {e.id})
    requires e.id in ids' ==> !SetsIn(schema, nodes, ids, e, field)
    ensures StateOf(schema, Added(nodes, e), ids', field) == StateOf(schema, nodes, ids, field)
  {
    var candidates := Candidates(schema, nodes, ids, field);
    CandidatesSetIt(schema, nodes, ids, field);
    NewCandidates(schema, nodes, e, ids, ids', field);
    hide Candidates, Dominated, InOrder;
    SameDominated(nodes, e, candidates);
    assert candidates + {} == candidates;
    SameOrder(nodes, e, field, candidates);
    SameOrder(nodes, e, field, candidates - Dominated(nodes, candidates));
  }

  lemma FieldsAre(schema: Schema, nodes: Nodes, ids: set<ClaimHash>, field: Bytes)
    ensures field in FieldNames(schema, nodes, ids) <==> Candidates(schema, nodes, ids, field) != {}
  {
    hide Entitled;
    CandidatesSetIt(schema, nodes, ids, field);
    if field in FieldNames(schema, nodes, ids) {
      var id :| id in ids && id in nodes && field in nodes[id].body && Contributes(schema, nodes, ids, field, id);
      assert id in Candidates(schema, nodes, ids, field);
    }
    if Candidates(schema, nodes, ids, field) != {} {
      var id :| id in Candidates(schema, nodes, ids, field);
      assert id in nodes && field in nodes[id].body && Contributes(schema, nodes, ids, field, id);
    }
  }

  lemma SameName(schema: Schema, nodes: Nodes, e: ClaimView, ids: set<ClaimHash>, ids': set<ClaimHash>, field: Bytes)
    requires e.id !in nodes && IsEdit(schema, e) && ids <= nodes.Keys && (ids' == ids || ids' == ids + {e.id})
    ensures field in FieldNames(schema, Added(nodes, e), ids') <==>
            field in FieldNames(schema, nodes, ids) || (e.id in ids' && SetsIn(schema, nodes, ids, e, field))
  {
    FieldsAre(schema, nodes, ids, field);
    FieldsAre(schema, Added(nodes, e), ids', field);
    NewCandidates(schema, nodes, e, ids, ids', field);
    hide Candidates, FieldNames;
  }

  // ── Comments ─────────────────────────────────────────────────────────

  function RemarkIds(schema: Schema, nodes: Nodes, ids: set<ClaimHash>): set<ClaimHash> {
    set id | id in ids && Remarks(schema, nodes, ids, id)
  }

  function RemarksOf(nodes: Nodes, listed: seq<ClaimHash>): seq<Remark>
    requires forall i | 0 <= i < |listed| :: listed[i] in nodes && TextOf(nodes[listed[i]].body, TEXT).Some?
  {
    seq(|listed|, i requires 0 <= i < |listed| => RemarkOf(nodes[listed[i]]))
  }

  lemma {:induction false} RemarksAreKept(schema: Schema, nodes: Nodes, ids: set<ClaimHash>, listed: seq<ClaimHash>,
                                          gone: set<ClaimHash>)
    requires (forall x | x in listed :: x in ids) && gone == ids - RemarkIds(schema, nodes, ids)
    ensures var kept := Left(listed, gone);
            && (forall i | 0 <= i < |kept| :: kept[i] in nodes && TextOf(nodes[kept[i]].body, TEXT).Some?)
            && RemarksIn(schema, nodes, ids, listed) == RemarksOf(nodes, kept)
  {
    hide RoleOf, TextOf;
    if listed != [] {
      var n := |listed| - 1;
      assert listed == listed[..n] + [listed[n]];
      RemarksAreKept(schema, nodes, ids, listed[..n], gone);
      LeftSnoc(listed, gone);
      assert listed[n] in listed;
      assert listed[n] in gone <==> !Remarks(schema, nodes, ids, listed[n]);
    }
  }

  /** Comments are the commenting claims, by hash. */
  lemma CommentsAre(schema: Schema, nodes: Nodes, ids: set<ClaimHash>)
    ensures var listed := SortIds(ById(), RemarkIds(schema, nodes, ids));
            && (forall i | 0 <= i < |listed| :: listed[i] in nodes && TextOf(nodes[listed[i]].body, TEXT).Some?)
            && RemarksIn(schema, nodes, ids, SortIds(ById(), ids)) == RemarksOf(nodes, listed)
  {
    hide RoleOf, TextOf;
    var all := SortIds(ById(), ids);
    SortIdsLists(ById(), ids);
    var gone := ids - RemarkIds(schema, nodes, ids);
    hide SortIds;
    RemarksAreKept(schema, nodes, ids, all, gone);
    LeftAscends(ById(), all, gone);
    SortIdsIs(ById(), RemarkIds(schema, nodes, ids), Left(all, gone));
  }

  lemma SameComments(schema: Schema, nodes: Nodes, e: ClaimView, ids: set<ClaimHash>, ids': set<ClaimHash>)
    requires e.id !in nodes && IsEdit(schema, e) && ids <= nodes.Keys && (ids' == ids || ids' == ids + {e.id})
    ensures RemarksIn(schema, Added(nodes, e), ids', SortIds(ById(), ids')) ==
            RemarksIn(schema, nodes, ids, SortIds(ById(), ids))
  {
    CommentsAre(schema, nodes, ids);
    CommentsAre(schema, Added(nodes, e), ids');
    assert RemarkIds(schema, Added(nodes, e), ids') == RemarkIds(schema, nodes, ids) by { hide SortIds, RemarksIn; }
    hide SortIds, RemarksIn, RemarkIds, TextOf, RoleOf;
  }

  // ── Whole components ─────────────────────────────────────────────────

  lemma BuiltMeans(schema: Schema, nodes: Nodes, ids: set<ClaimHash>)
    requires ids != {}
    ensures var c := Built(schema, nodes, ids);
            && c.claims == ids && c.fields.Keys == FieldNames(schema, nodes, ids)
            && (forall field | field in c.fields :: c.fields[field] == StateOf(schema, nodes, ids, field))
            && c.comments == RemarksIn(schema, nodes, ids, SortIds(ById(), ids))
            && |SortIds(ById(), ids)| == |ids| > 0 && c.id == SortIds(ById(), ids)[0]
  {
    hide StateOf, FieldNames, RemarksIn;
    SortIdsLists(ById(), ids);
  }

  /** A component the edit does not reference is unchanged. */
  lemma SameElsewhere(schema: Schema, nodes: Nodes, e: ClaimView, ids: set<ClaimHash>)
    requires Unnamed(nodes, e) && IsEdit(schema, e) && ids != {} && ids <= nodes.Keys
    ensures Built(schema, Added(nodes, e), ids) == Built(schema, nodes, ids)
  {
    hide Built, StateOf, FieldNames, RemarksIn, IsEdit, SetsIn, EdgesOf;
    var nodes' := Added(nodes, e);
    BuiltMeans(schema, nodes, ids);
    BuiltMeans(schema, nodes', ids);
    SameComments(schema, nodes, e, ids, ids);
    var c, c' := Built(schema, nodes, ids), Built(schema, nodes', ids);
    forall field: Bytes
      ensures field in c'.fields <==> field in c.fields
      ensures field in c.fields && field in c'.fields ==> c'.fields[field] == c.fields[field]
    {
      SameName(schema, nodes, e, ids, ids, field);
      SameState(schema, nodes, e, ids, ids, field);
    }
    assert c'.fields == c.fields;
  }

  /** What an edit leaves alone: its component's comments, other fields, and every other component. */
  lemma EditTouchesNothingElse(schema: Schema, nodes: Nodes, e: ClaimView, ids: set<ClaimHash>)
    requires Unnamed(nodes, e) && Within(nodes, ids, e) && IsEdit(schema, e)
    ensures ids != {}
    ensures var c, c' := Built(schema, nodes, ids), Built(schema, Added(nodes, e), ids + {e.id});
            && FoldOf(schema, Added(nodes, e)) == FoldOf(schema, nodes) - {c} + {c'}
            && c'.claims == c.claims + {e.id} && c'.comments == c.comments
            && forall field: Bytes | !SetsIn(schema, nodes, ids, e, field) ::
                 && (field in c'.fields <==> field in c.fields)
                 && (field in c.fields ==> c'.fields[field] == c.fields[field])
  {
    hide Built, StateOf, FieldNames, RemarksIn, IsEdit, SetsIn, EdgesOf, Classes, FoldOf;
    var nodes' := Added(nodes, e);
    ClassesAreInhabited(EdgesOf(nodes), ids);
    BuiltMeans(schema, nodes, ids);
    BuiltMeans(schema, nodes', ids + {e.id});
    SameComments(schema, nodes, e, ids, ids + {e.id});
    forall field: Bytes | !SetsIn(schema, nodes, ids, e, field)
      ensures field in Built(schema, nodes', ids + {e.id}).fields <==> field in Built(schema, nodes, ids).fields
      ensures field in Built(schema, nodes, ids).fields ==>
                Built(schema, nodes', ids + {e.id}).fields[field] == Built(schema, nodes, ids).fields[field]
    {
      SameName(schema, nodes, e, ids, ids + {e.id}, field);
      SameState(schema, nodes, e, ids, ids + {e.id}, field);
    }
    FoldSwaps(schema, nodes, e, ids);
  }

  lemma InFold(schema: Schema, nodes: Nodes, c: Component)
    ensures c in FoldOf(schema, nodes) <==>
            c.claims in Classes(EdgesOf(nodes)) && c.claims != {} && c == Built(schema, nodes, c.claims)
  {
    hide EdgesOf, Built, Classes, FoldOf;
    if c in FoldOf(schema, nodes) {
      var ids := ClassBuilt(schema, nodes, c);
      BuiltClaims(schema, nodes, ids);
    }
    if c.claims in Classes(EdgesOf(nodes)) && c.claims != {} && c == Built(schema, nodes, c.claims) {
      BuiltIsFolded(schema, nodes, c.claims);
    }
  }

  lemma BuiltIsFolded(schema: Schema, nodes: Nodes, ids: set<ClaimHash>)
    requires ids in Classes(EdgesOf(nodes)) && ids != {}
    ensures Built(schema, nodes, ids) in FoldOf(schema, nodes)
  {
    hide EdgesOf, Built, Classes;
  }

  lemma FoldSwaps(schema: Schema, nodes: Nodes, e: ClaimView, ids: set<ClaimHash>)
    requires Unnamed(nodes, e) && Within(nodes, ids, e) && IsEdit(schema, e) && ids != {}
    ensures FoldOf(schema, Added(nodes, e)) ==
            FoldOf(schema, nodes) - {Built(schema, nodes, ids)} + {Built(schema, Added(nodes, e), ids + {e.id})}
  {
    hide Built, EdgesOf, Classes, FoldOf, IsEdit;
    var nodes' := Added(nodes, e);
    NewClasses(nodes, e, ids);
    BuiltClaims(schema, nodes, ids);
    BuiltClaims(schema, nodes', ids + {e.id});
    forall c
      ensures c in FoldOf(schema, nodes') <==>
              c in FoldOf(schema, nodes) - {Built(schema, nodes, ids)} + {Built(schema, nodes', ids + {e.id})}
    {
      InFold(schema, nodes, c);
      InFold(schema, nodes', c);
      if c.claims in Classes(EdgesOf(nodes)) && c.claims != {} {
        ClassesAreInhabited(EdgesOf(nodes), c.claims);
        SameElsewhere(schema, nodes, e, c.claims);
      }
    }
  }

  /** The contribution the edit makes to a field. */
  function ContributionOf(e: ClaimView, field: Bytes): Contribution
    requires field in e.body
  {
    Contribution(e.id, e.author, e.body[field], TimeOf(e))
  }

  lemma AloneInOrder(nodes: Nodes, e: ClaimView, field: Bytes)
    requires field in e.body
    ensures InOrder(Added(nodes, e), field, {e.id}) == [ContributionOf(e, field)]
  {
    var nodes' := Added(nodes, e);
    HistoryIsSorted(nodes', field, {e.id});
    SortIdsLists(ByTime(nodes'), {e.id});
    var sorted := SortIds(ByTime(nodes'), {e.id});
    assert |sorted| == 1 && sorted[0] in sorted;
  }

  /** The field's state once the edit sets it. */
  lemma EditState(schema: Schema, nodes: Nodes, e: ClaimView, ids: set<ClaimHash>, field: Bytes)
    requires Unnamed(nodes, e) && IsEdit(schema, e) && ids <= nodes.Keys && SetsIn(schema, nodes, ids, e, field)
    ensures var nodes' := Added(nodes, e);
            var leads := {e.id} + (FrontierOf(nodes, Candidates(schema, nodes, ids, field)) - Ancestors(EdgesOf(nodes'),
              e.id));
            var state := StateOf(schema, nodes', ids + {e.id}, field);
            && (forall id | id in leads :: id in nodes' && field in nodes'[id].body)
            && Names(state.history, Candidates(schema, nodes, ids, field) + {e.id})
            && Names(state.frontier, leads) && state.frontier == InOrder(nodes', field, leads)
  {
    var candidates := Candidates(schema, nodes, ids, field);
    CandidatesSetIt(schema, nodes, ids, field);
    CandidatesSetIt(schema, Added(nodes, e), ids + {e.id}, field);
    NewCandidates(schema, nodes, e, ids, ids + {e.id}, field);
    StateLists(schema, Added(nodes, e), ids + {e.id}, field);
    hide Candidates, InOrder, EdgesOf, Ancestors, Dominated, IsEdit, Names;
    NewFrontier(nodes, e, candidates);
  }

  lemma AloneOrNot(nodes: Nodes, e: ClaimView, field: Bytes, others: set<ClaimHash>, frontier: seq<Contribution>)
    requires field in e.body && forall id | id in {e.id} + others ::
             id in Added(nodes, e) && field in Added(nodes, e)[id].body
    requires e.id !in others && Names(frontier, {e.id} + others)
             && frontier == InOrder(Added(nodes, e), field, {e.id} + others)
    ensures others == {} <==> frontier == [ContributionOf(e, field)]
  {
    hide InOrder;
    AloneInOrder(nodes, e, field);
    if others == {} {
      assert {e.id} + others == {e.id};
    } else {
      var a :| a in others;
      assert exists i :: 0 <= i < |frontier| && frontier[i].claim == a;
    }
  }

  lemma NewIsNoCandidate(schema: Schema, nodes: Nodes, e: ClaimView, ids: set<ClaimHash>, field: Bytes)
    requires e.id !in nodes
    ensures e.id !in FrontierOf(nodes, Candidates(schema, nodes, ids, field))
  {
  }

  /** The edit is on record, and leads alone exactly when it reaches the whole frontier. */
  lemma EditSets(schema: Schema, nodes: Nodes, e: ClaimView, ids: set<ClaimHash>, field: Bytes)
    requires Unnamed(nodes, e) && IsEdit(schema, e) && ids <= nodes.Keys && SetsIn(schema, nodes, ids, e, field)
    ensures var before := FrontierOf(nodes, Candidates(schema, nodes, ids, field));
            var reached := Ancestors(EdgesOf(Added(nodes, e)), e.id);
            var state := StateOf(schema, Added(nodes, e), ids + {e.id}, field);
            && Names(state.history, Candidates(schema, nodes, ids, field) + {e.id})
            && Names(state.frontier, {e.id} + (before - reached))
            && (before <= reached <==> state.frontier == [ContributionOf(e, field)])
  {
    assert e.id !in nodes && field in e.body;
    hide Candidates, StateOf, EdgesOf, Ancestors, FrontierOf, IsEdit, SetsIn, Unnamed, InOrder, Names;
    EditState(schema, nodes, e, ids, field);
    NewIsNoCandidate(schema, nodes, e, ids, field);
    var before := FrontierOf(nodes, Candidates(schema, nodes, ids, field));
    var reached := Ancestors(EdgesOf(Added(nodes, e)), e.id);
    AloneOrNot(nodes, e, field, before - reached, StateOf(schema, Added(nodes, e), ids + {e.id}, field).frontier);
    assert before <= reached <==> before - reached == {};
  }

  /** Referencing everything on a field's frontier is enough. */
  lemma ReferencesReach(nodes: Nodes, e: ClaimView, ids: set<ClaimHash>)
    requires Unnamed(nodes, e) && ids <= nodes.Keys && forall id | id in ids :: id in e.refs
    ensures ids <= Ancestors(EdgesOf(Added(nodes, e)), e.id)
  {
    hide EdgesOf, Reaches;
    forall id | id in ids
      ensures id in Ancestors(EdgesOf(Added(nodes, e)), e.id)
    {
      NewRefs(nodes, e, e.id, id);
      RefsReach(EdgesOf(Added(nodes, e)), e.id, id);
    }
  }

  /**
   A reconciling edit: a root author's, referencing only one component's claims and
   all of a field's frontier, setting the field. The frontier becomes that edit.
   */
  lemma ReconcilingEdit(schema: Schema, nodes: Nodes, e: ClaimView, ids: set<ClaimHash>, field: Bytes)
    requires Unnamed(nodes, e) && Within(nodes, ids, e) && IsEdit(schema, e) && SetsIn(schema, nodes, ids, e, field)
    requires forall id | id in FrontierOf(nodes, Candidates(schema, nodes, ids, field)) :: id in e.refs
    ensures ids != {} && field in Built(schema, Added(nodes, e), ids + {e.id}).fields
    ensures Built(schema, Added(nodes, e), ids + {e.id}).fields[field].frontier == [ContributionOf(e, field)]
  {
    hide EdgesOf, Built, Candidates, StateOf, SetsIn, IsEdit, Classes, Dominated, Ancestors, FieldNames;
    ClassesAreInhabited(EdgesOf(nodes), ids);
    BuiltMeans(schema, Added(nodes, e), ids + {e.id});
    SameName(schema, nodes, e, ids, ids + {e.id}, field);
    CandidatesSetIt(schema, nodes, ids, field);
    ReferencesReach(nodes, e, FrontierOf(nodes, Candidates(schema, nodes, ids, field)));
    EditSets(schema, nodes, e, ids, field);
  }

  /** An edit by anyone but a root's author sets nothing. */
  lemma StrayEditIsInert(schema: Schema, nodes: Nodes, e: ClaimView, ids: set<ClaimHash>)
    requires Unnamed(nodes, e) && Within(nodes, ids, e) && IsEdit(schema, e)
             && e.author !in RootAuthors(schema, nodes, ids)
    ensures ids != {} && Built(schema, Added(nodes, e), ids + {e.id}).fields == Built(schema, nodes, ids).fields
  {
    hide EdgesOf, Built, IsEdit, RootAuthors, Classes, FoldOf;
    EditTouchesNothingElse(schema, nodes, e, ids);
    forall field: Bytes
      ensures !SetsIn(schema, nodes, ids, e, field)
    {
    }
    assert Built(schema, Added(nodes, e), ids + {e.id}).fields == Built(schema, nodes, ids).fields;
  }

  // ── The frontier laws, edit after edit ───────────────────────────────

  /** Whatever the edit reconciles or leaves open, every frontier is causal again. */
  lemma FrontierStaysCausal(schema: Schema, nodes: Nodes, e: ClaimView, c: Component, field: Bytes)
    requires Unnamed(nodes, e) && Acyclic(EdgesOf(nodes)) && c in FoldOf(schema, Added(nodes, e)) && field in c.fields
    ensures var state := c.fields[field];
            && state.frontier != [] && Antichain(Added(nodes, e), state.frontier)
            && forall i | 0 <= i < |state.history| :: CoveredBy(Added(nodes, e), state.frontier, state.history[i].claim)
  {
    hide *;
    StaysAcyclic(nodes, e);
    FrontierIsCausal(schema, Added(nodes, e), c, field);
  }

  /** Claims entered one after the other. */
  function Entered(views: seq<ClaimView>): Nodes {
    if views == [] then map[] else Added(Entered(views[..|views| - 1]), views[|views| - 1])
  }

  /** Each claim is new, and named by nothing entered before it: an id is a hash of what it names. */
  ghost predicate InTime(views: seq<ClaimView>) {
    views == [] || (InTime(views[..|views| - 1]) && Unnamed(Entered(views[..|views| - 1]), views[|views| - 1]))
  }

  lemma NothingIsAcyclic()
    ensures Acyclic(EdgesOf(map[]))
  {
    forall a
      ensures !Reaches(EdgesOf(map[]), a, a)
    {
      if p :| WalkFromTo(EdgesOf(map[]), p, a, a) {
        assert Refs(EdgesOf(map[]), p[0], p[1]);
      }
    }
  }

  lemma {:induction false} EnteredIsAcyclic(views: seq<ClaimView>)
    requires InTime(views)
    ensures Acyclic(EdgesOf(Entered(views)))
  {
    hide Acyclic, EdgesOf, Unnamed;
    if views == [] {
      NothingIsAcyclic();
    } else {
      EnteredIsAcyclic(views[..|views| - 1]);
      StaysAcyclic(Entered(views[..|views| - 1]), views[|views| - 1]);
    }
  }

  /** A history of claims in which nothing is named before it exists has causal frontiers throughout. */
  lemma HistoriesAreCausal(schema: Schema, views: seq<ClaimView>, c: Component, field: Bytes)
    requires InTime(views) && c in FoldOf(schema, Entered(views)) && field in c.fields
    ensures var state := c.fields[field];
            && state.frontier != [] && Antichain(Entered(views), state.frontier)
            && forall i | 0 <= i < |state.history| :: CoveredBy(Entered(views), state.frontier, state.history[i].claim)
  {
    hide *;
    EnteredIsAcyclic(views);
    FrontierIsCausal(schema, Entered(views), c, field);
  }
}
