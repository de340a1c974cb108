/**
 What the fold promises: components are the blocks of the reference graph whatever
 the order of arrival, each field's frontier is its causal frontier, and an edit
 that references a conflict settles it and touches nothing else.
 */
module FoldLaws {
  import opened Bytes
  import opened Rows
  import opened Graphs
  import opened Folding

  // ── Components ───────────────────────────────────────────────────────

  /** Every kept claim is in a component, and shares it with exactly the claims it is joined to. */
  lemma ComponentsAreBlocks(schema: Schema, nodes: Nodes, a: ClaimHash) returns (c: Component)
    requires a in nodes
    ensures c in FoldOf(schema, nodes) && a in c.claims
    ensures forall b :: b in c.claims <==> b in nodes && Joined(EdgesOf(nodes), a, b)
    ensures forall d | d in FoldOf(schema, nodes) && a in d.claims :: d == c
  {
    hide EdgesOf, Joined;
    var g := EdgesOf(nodes);
    var ids := ClassOf(g, a);
    ClassesPartition(g, a, a);
    assert ids in Classes(g);
    c := Built(schema, nodes, ids);
    BuiltClaims(schema, nodes, ids);
    forall d | d in FoldOf(schema, nodes) && a in d.claims
      ensures d == c
    {
      var other :| other in Classes(g) && other != {} && d == Built(schema, nodes, other);
      BuiltClaims(schema, nodes, other);
      if other != ids {
        ClassesAreDisjoint(g, other, ids);
      }
    }
  }

  /** A view whose repeated ids repeat the same claim. */
  ghost predicate Addressed(view: seq<ClaimView>) {
    forall i, j | 0 <= i < |view| && 0 <= j < |view| && view[i].id == view[j].id :: view[i] == view[j]
  }

  predicate Keeps(nodes: Nodes, c: ClaimView) { c.id in nodes && nodes[c.id] == c }

  lemma {:induction false} KeptIs(view: seq<ClaimView>, schema: Schema, accept: ClaimView -> bool, c: ClaimView)
    requires Addressed(view)
    ensures Keeps(Kept(view, schema, accept), c) <==> c in view && accept(c) && RoleOf(schema, c).Some?
  {
    hide RoleOf;
    if view != [] {
      var n := |view| - 1;
      assert view == view[..n] + [view[n]];
      KeptIs(view[..n], schema, accept, c);
      if c in view && c.id == view[n].id {
        var i :| 0 <= i < |view| && view[i] == c;
      }
    }
  }

  lemma {:induction false} KeptById(view: seq<ClaimView>, schema: Schema, accept: ClaimView -> bool, id: ClaimHash)
    requires id in Kept(view, schema, accept)
    ensures Keeps(Kept(view, schema, accept), Kept(view, schema, accept)[id]) && Kept(view, schema, accept)[id].id == id
  {
    hide RoleOf;
    var n := |view| - 1;
    if id in Kept(view[..n], schema, accept) {
      KeptById(view[..n], schema, accept, id);
    }
  }

  /** Arrival order, and how often a claim arrived, do not matter. */
  lemma OrderDoesNotMatter(view: seq<ClaimView>, view': seq<ClaimView>, schema: Schema, accept: ClaimView -> bool)
    requires Addressed(view) && Addressed(view') && forall c :: c in view <==> c in view'
    ensures FoldOf(schema, Kept(view, schema, accept)) == FoldOf(schema, Kept(view', schema, accept))
  {
    hide RoleOf, FoldOf, Kept;
    var nodes, nodes' := Kept(view, schema, accept), Kept(view', schema, accept);
    forall id
      ensures id in nodes ==> id in nodes' && nodes'[id] == nodes[id]
      ensures id in nodes' ==> id in nodes
    {
      if id in nodes {
        KeptById(view, schema, accept, id);
        KeptIs(view, schema, accept, nodes[id]);
        KeptIs(view', schema, accept, nodes[id]);
      }
      if id in nodes' {
        KeptById(view', schema, accept, id);
        KeptIs(view, schema, accept, nodes'[id]);
        KeptIs(view', schema, accept, nodes'[id]);
      }
    }
    assert nodes == nodes';
  }

  // ── The causal frontier ──────────────────────────────────────────────

  ghost function FrontierOf(nodes: Nodes, candidates: set<ClaimHash>): set<ClaimHash> {
    candidates - Dominated(nodes, candidates)
  }

  ghost function Dominators(nodes: Nodes, candidates: set<ClaimHash>, a: ClaimHash): set<ClaimHash> {
    set d | d in candidates && Reaches(EdgesOf(nodes), d, a)
  }

  lemma FewerDominators(nodes: Nodes, candidates: set<ClaimHash>, a: ClaimHash, d: ClaimHash)
    requires Acyclic(EdgesOf(nodes)) && d in Dominators(nodes, candidates, a)
    ensures Dominators(nodes, candidates, d) < Dominators(nodes, candidates, a)
  {
    hide Reaches, EdgesOf;
    var g := EdgesOf(nodes);
    forall x | x in Dominators(nodes, candidates, d)
      ensures x in Dominators(nodes, candidates, a)
    {
      ReachesIsTransitive(g, x, d, a);
    }
    assert d !in Dominators(nodes, candidates, d);
  }

  /** Every contribution is on the frontier or in the history of one that is. */
  lemma {:induction false} FrontierCovers(nodes: Nodes, candidates: set<ClaimHash>, a: ClaimHash) returns (f: ClaimHash)
    requires Acyclic(EdgesOf(nodes)) && a in candidates
    ensures f in FrontierOf(nodes, candidates) && (f == a || Reaches(EdgesOf(nodes), f, a))
    decreases |Dominators(nodes, candidates, a)|
  {
    hide Reaches, EdgesOf, Acyclic;
    f := a;
    if a in Dominated(nodes, candidates) {
      var d :| d in candidates && Reaches(EdgesOf(nodes), d, a);
      FewerDominators(nodes, candidates, a, d);
      SmallerSet(Dominators(nodes, candidates, d), Dominators(nodes, candidates, a));
      f := FrontierCovers(nodes, candidates, d);
      if f != d {
        ReachesIsTransitive(EdgesOf(nodes), f, d, a);
      }
    }
  }

  ghost predicate Names(cs: seq<Contribution>, ids: set<ClaimHash>) {
    |cs| == |ids| && forall id :: (exists i :: 0 <= i < |cs| && cs[i].claim == id) <==> id in ids
  }

  lemma OrderNames(nodes: Nodes, field: Bytes, ids: set<ClaimHash>)
    requires forall id | id in ids :: id in nodes && field in nodes[id].body
    ensures Names(InOrder(nodes, field, ids), ids)
  {
    hide InOrder;
  }

  lemma StateLists(schema: Schema, nodes: Nodes, ids: set<ClaimHash>, field: Bytes)
    ensures var candidates := Candidates(schema, nodes, ids, field);
            var state := StateOf(schema, nodes, ids, field);
            Names(state.history, candidates) && Names(state.frontier, FrontierOf(nodes, candidates))
  {
    CandidatesSetIt(schema, nodes, ids, field);
    hide Dominated, InOrder, Candidates, Names;
    var candidates := Candidates(schema, nodes, ids, field);
    OrderNames(nodes, field, candidates);
    OrderNames(nodes, field, FrontierOf(nodes, candidates));
  }

  ghost predicate Antichain(nodes: Nodes, frontier: seq<Contribution>) {
    forall i, j | 0 <= i < |frontier| && 0 <= j < |frontier| ::
      !Reaches(EdgesOf(nodes), frontier[i].claim, frontier[j].claim)
  }

  lemma FrontierIsAntichain(nodes: Nodes, candidates: set<ClaimHash>, frontier: seq<Contribution>)
    requires Names(frontier, FrontierOf(nodes, candidates))
    ensures Antichain(nodes, frontier)
  {
    hide Reaches, EdgesOf;
    forall i, j | 0 <= i < |frontier| && 0 <= j < |frontier|
      ensures !Reaches(EdgesOf(nodes), frontier[i].claim, frontier[j].claim)
    {
      assert frontier[i].claim in FrontierOf(nodes, candidates) && frontier[j].claim in FrontierOf(nodes, candidates);
    }
  }

  lemma FrontierCoversAll(nodes: Nodes, candidates: set<ClaimHash>, state: FieldState)
    requires Acyclic(EdgesOf(nodes)) && Names(state.frontier, FrontierOf(nodes, candidates))
             && Names(state.history, candidates)
    ensures forall i | 0 <= i < |state.history| :: CoveredBy(nodes, state.frontier, state.history[i].claim)
  {
    hide Reaches, EdgesOf, Acyclic, FrontierOf;
    forall i | 0 <= i < |state.history|
      ensures CoveredBy(nodes, state.frontier, state.history[i].claim)
    {
      assert state.history[i].claim in candidates;
      var top := FrontierCovers(nodes, candidates, state.history[i].claim);
      var k :| 0 <= k < |state.frontier| && state.frontier[k].claim == top;
    }
  }

  /**
   On an acyclic claim set every field has a non-empty frontier, no member of which
   is in another's history, and which covers everything ever contributed.
   */
  lemma FrontierIsCausal(schema: Schema, nodes: Nodes, c: Component, field: Bytes)
    requires c in FoldOf(schema, nodes) && Acyclic(EdgesOf(nodes)) && field in c.fields
    ensures var state := c.fields[field];
            && state.frontier != [] && Antichain(nodes, state.frontier)
            && forall i | 0 <= i < |state.history| :: CoveredBy(nodes, state.frontier, state.history[i].claim)
  {
    hide Reaches, EdgesOf, Acyclic, StateOf, Classes, Built, FrontierOf, Candidates, FieldNames, Antichain, CoveredBy;
    var ids := ClassBuilt(schema, nodes, c);
    var candidates := Candidates(schema, nodes, ids, field);
    BuiltField(schema, nodes, ids, field);
    StateLists(schema, nodes, ids, field);
    var state := StateOf(schema, nodes, ids, field);
    var id := SomeContributor(schema, nodes, ids, field);
    var f := FrontierCovers(nodes, candidates, id);
    assert exists i :: 0 <= i < |state.frontier| && state.frontier[i].claim == f;
    FrontierIsAntichain(nodes, candidates, state.frontier);
    FrontierCoversAll(nodes, candidates, state);
  }

  lemma ClassBuilt(schema: Schema, nodes: Nodes, c: Component) returns (ids: set<ClaimHash>)
    requires c in FoldOf(schema, nodes)
    ensures ids in Classes(EdgesOf(nodes)) && ids != {} && c == Built(schema, nodes, ids)
  {
    hide Classes, EdgesOf, Built;
    ids :| ids in Classes(EdgesOf(nodes)) && (ClassesAreInhabited(EdgesOf(nodes), ids); c == Built(schema, nodes, ids));
    ClassesAreInhabited(EdgesOf(nodes), ids);
  }

  ghost predicate CoveredBy(nodes: Nodes, frontier: seq<Contribution>, id: ClaimHash) {
    exists k :: 0 <= k < |frontier| && (frontier[k].claim == id || Reaches(EdgesOf(nodes), frontier[k].claim, id))
  }

  lemma BuiltField(schema: Schema, nodes: Nodes, ids: set<ClaimHash>, field: Bytes)
    requires ids != {}
    ensures field in Built(schema, nodes, ids).fields <==> field in FieldNames(schema, nodes, ids)
    ensures field in FieldNames(schema, nodes, ids) ==>
            Built(schema, nodes, ids).fields[field] == StateOf(schema, nodes, ids, field)
  {
    hide StateOf, FieldNames;
  }

  lemma SomeContributor(schema: Schema, nodes: Nodes, ids: set<ClaimHash>, field: Bytes) returns (id: ClaimHash)
    requires field in FieldNames(schema, nodes, ids)
    ensures id in Candidates(schema, nodes, ids, field)
  {
    id :| id in ids && id in nodes && field in nodes[id].body && Contributes(schema, nodes, ids, field, id);
  }
}
