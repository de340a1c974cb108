/**
 Folding claims into things: the components of the reference graph, each with the
 causal frontier and history of every field its root and edit claims set.
 */
module Folding {
  import opened Bytes
  import opened Values
  import opened Rows
  import opened Sorted
  import opened Queries
  import opened Graphs

  /** A claim as the fold sees it: body resolved, references recomputed from it. */
  datatype ClaimView = ClaimView(id: ClaimHash, author: LogId, receivedAt: int, body: map<Bytes, Value>,
    refs: seq<ClaimHash>)

  datatype Role = Root | Edit | Comment

  /** The three vocabulary tags that take part. */
  datatype Schema = Schema(root: Bytes, edit: Bytes, comment: Bytes)

  datatype Contribution = Contribution(claim: ClaimHash, author: LogId, value: Value, at: int)

  datatype FieldState = FieldState(frontier: seq<Contribution>, history: seq<Contribution>)

  datatype Remark = Remark(claim: ClaimHash, author: LogId, text: Bytes, at: int)

  datatype Component = Component(
    id: ClaimHash, claims: set<ClaimHash>, fields: map<Bytes, FieldState>, comments: seq<Remark>)

  type Nodes = map<ClaimHash, ClaimView>

  const TYPE: Bytes := [0x74, 0x79, 0x70, 0x65]
  const AT: Bytes := [0x61, 0x74]
  const OF: Bytes := [0x6f, 0x66]
  const TEXT: Bytes := [0x74, 0x65, 0x78, 0x74]

  function TextOf(body: map<Bytes, Value>, key: Bytes): Option<Bytes> {
    if key in body && body[key].Text? then Some(body[key].text) else None
  }

  /** The claimed time, or when it was received. */
  function TimeOf(c: ClaimView): int {
    if AT in c.body && c.body[AT].Int? then c.body[AT].i else c.receivedAt
  }

  function RoleOf(schema: Schema, c: ClaimView): Option<Role> {
    var t := TextOf(c.body, TYPE);
    if t == Some(schema.root) then Some(Root)
    else if t == Some(schema.edit) then Some(Edit)
    else if t == Some(schema.comment) then Some(Comment)
    else None
  }

  // ── What is kept ─────────────────────────────────────────────────────

  /** Claims the viewer accepts, of one of the three roles; a repeated id keeps its last view. */
  function Kept(view: seq<ClaimView>, schema: Schema, accept: ClaimView -> bool): Nodes {
    if view == [] then map[]
    else
      var c := view[|view| - 1];
      var rest := Kept(view[..|view| - 1], schema, accept);
      if accept(c) && RoleOf(schema, c).Some? then rest[c.id := c] else rest
  }

  function KeptRefs(keys: set<ClaimHash>, refs: seq<ClaimHash>): (out: seq<ClaimHash>)
    ensures forall x :: x in out <==> x in refs && x in keys
  {
    if refs == [] then []
    else (if refs[0] in keys then [refs[0]] else []) + KeptRefs(keys, refs[1..])
  }

  /** Only references that land on another kept claim. */
  function EdgesOf(nodes: Nodes): (g: Graph)
    ensures Closed(g) && g.Keys == nodes.Keys
    ensures forall a, b :: Refs(g, a, b) <==> a in nodes && b in nodes && b in nodes[a].refs
  {
    map id | id in nodes :: KeptRefs(nodes.Keys, nodes[id].refs)
  }

  // ── One component ────────────────────────────────────────────────────

  function RootAuthors(schema: Schema, nodes: Nodes, ids: set<ClaimHash>): set<LogId> {
    set id | id in ids && id in nodes && RoleOf(schema, nodes[id]) == Some(Root) :: nodes[id].author
  }

  /** Roots may set fields, and edits by a root's author; comments never do. */
  predicate Entitled(schema: Schema, nodes: Nodes, ids: set<ClaimHash>, id: ClaimHash) {
    && id in ids && id in nodes
    && match RoleOf(schema, nodes[id])
       case Some(Root) => true
       case Some(Edit) => nodes[id].author in RootAuthors(schema, nodes, ids)
       case _ => false
  }

  predicate IsField(key: Bytes) { key != AT && key != OF && key != TYPE }

  predicate Contributes(schema: Schema, nodes: Nodes, ids: set<ClaimHash>, field: Bytes, id: ClaimHash) {
    Entitled(schema, nodes, ids, id) && IsField(field) && field in nodes[id].body
  }

  function Candidates(schema: Schema, nodes: Nodes, ids: set<ClaimHash>, field: Bytes): set<ClaimHash> {
    set id | id in ids && Contributes(schema, nodes, ids, field, id)
  }

  function FieldNames(schema: Schema, nodes: Nodes, ids: set<ClaimHash>): set<Bytes> {
    set id, key | id in ids && id in nodes && key in nodes[id].body && Contributes(schema, nodes, ids, key, id) :: key
  }

  /** Contributions some other contribution to the same field has in its history. */
  ghost function Dominated(nodes: Nodes, candidates: set<ClaimHash>): set<ClaimHash> {
    set a | a in candidates && DominatedBy(nodes, candidates, a)
  }

  ghost predicate DominatedBy(nodes: Nodes, candidates: set<ClaimHash>, a: ClaimHash) {
    exists d :: d in candidates && Reaches(EdgesOf(nodes), d, a)
  }

  function ByTime(nodes: Nodes): Rank { id => if id in nodes then TimeOf(nodes[id]) else 0 }

  function Contribute(nodes: Nodes, field: Bytes, ids: seq<ClaimHash>): (cs: seq<Contribution>)
    requires forall i | 0 <= i < |ids| :: ids[i] in nodes && field in nodes[ids[i]].body
    ensures |cs| == |ids| && forall i | 0 <= i < |ids| ::
              cs[i] == Contribution(ids[i], nodes[ids[i]].author, nodes[ids[i]].body[field], TimeOf(nodes[ids[i]]))
  {
    seq(|ids|, i requires 0 <= i < |ids| =>
      Contribution(ids[i], nodes[ids[i]].author, nodes[ids[i]].body[field], TimeOf(nodes[ids[i]])))
  }

  /** Claims in claimed-time order, ties by hash. */
  ghost function InOrder(nodes: Nodes, field: Bytes, ids: set<ClaimHash>): (cs: seq<Contribution>)
    requires forall id | id in ids :: id in nodes && field in nodes[id].body
    ensures forall id :: (exists i :: 0 <= i < |cs| && cs[i].claim == id) <==> id in ids
    ensures |cs| == |ids|
  {
    SortIdsLists(ByTime(nodes), ids);
    var sorted := SortIds(ByTime(nodes), ids);
    assert forall i | 0 <= i < |sorted| :: sorted[i] in sorted;
    Contribute(nodes, field, sorted)
  }

  /** The frontier is what nothing dominates; the history is everything. */
  ghost function StateOf(schema: Schema, nodes: Nodes, ids: set<ClaimHash>, field: Bytes): FieldState {
    var candidates := Candidates(schema, nodes, ids, field);
    FieldState(InOrder(nodes, field, candidates - Dominated(nodes, candidates)), InOrder(nodes, field, candidates))
  }

  predicate Remarks(schema: Schema, nodes: Nodes, ids: set<ClaimHash>, id: ClaimHash) {
    id in ids && id in nodes && RoleOf(schema, nodes[id]) == Some(Comment) && TextOf(nodes[id].body, TEXT).Some?
  }

  function RemarkOf(c: ClaimView): Remark
    requires TextOf(c.body, TEXT).Some?
  {
    Remark(c.id, c.author, TextOf(c.body, TEXT).value, TimeOf(c))
  }

  /** The comments among some ids, in their order. */
  function RemarksIn(schema: Schema, nodes: Nodes, ids: set<ClaimHash>, listed: seq<ClaimHash>): seq<Remark> {
    if listed == [] then []
    else
      var id := listed[|listed| - 1];
      RemarksIn(schema, nodes, ids, listed[..|listed| - 1])
      + (if Remarks(schema, nodes, ids, id) then [RemarkOf(nodes[id])] else [])
  }

  ghost function Built(schema: Schema, nodes: Nodes, ids: set<ClaimHash>): Component
    requires ids != {}
  {
    SortIdsLists(ById(), ids);
    Component(
      SortIds(ById(), ids)[0],
      ids,
      map field | field in FieldNames(schema, nodes, ids) :: StateOf(schema, nodes, ids, field),
      RemarksIn(schema, nodes, ids, SortIds(ById(), ids)))
  }

  lemma ClassesAreInhabited(g: Graph, ids: set<ClaimHash>)
    requires ids in Classes(g)
    ensures ids != {} && ids <= g.Keys
  {
    var a :| a in g && ids == ClassOf(g, a);
    JoinedToItself(g, a);
    assert a in ids;
  }

  /** Every component of what is kept, built. */
  ghost function FoldOf(schema: Schema, nodes: Nodes): set<Component> {
    set ids | ids in Classes(EdgesOf(nodes)) :: (ClassesAreInhabited(EdgesOf(nodes), ids); Built(schema, nodes, ids))
  }

  // ── In place ─────────────────────────────────────────────────────────

  predicate Under(m: map<Bytes, set<ClaimHash>>, field: Bytes, id: ClaimHash) { field in m && id in m[field] }

  ghost predicate Gathered(schema: Schema, nodes: Nodes, ids: set<ClaimHash>, done: set<ClaimHash>,
                           candidates: map<Bytes, set<ClaimHash>>) {
    forall field: Bytes, id: ClaimHash :: Under(candidates, field, id) <==>
      id in done && Contributes(schema, nodes, ids, field, id)
  }

  /** `more` is `candidates` with one claim entered under some fields. */
  ghost predicate Added(more: map<Bytes, set<ClaimHash>>, candidates: map<Bytes, set<ClaimHash>>, id: ClaimHash,
                        fields: set<Bytes>) {
    forall field: Bytes, x: ClaimHash :: Under(more, field, x) <==>
      Under(candidates, field, x) || (x == id && field in fields)
  }

  lemma AddedOne(more: map<Bytes, set<ClaimHash>>, candidates: map<Bytes, set<ClaimHash>>, id: ClaimHash,
                 fields: set<Bytes>, key: Bytes)
    requires Added(more, candidates, id, fields)
    ensures Added(more[key := (if key in more then more[key] else {}) + {id}], candidates, id, fields + {key})
  {
    var next := more[key := (if key in more then more[key] else {}) + {id}];
    forall field: Bytes, x: ClaimHash
      ensures Under(next, field, x) <==> Under(candidates, field, x) || (x == id && field in fields + {key})
    {
      assert Under(more, field, x) <==> Under(candidates, field, x) || (x == id && field in fields);
    }
  }

  function FieldsOf(body: map<Bytes, Value>): set<Bytes> { set key | key in body && IsField(key) }

  /** Enter one claim under each field it sets. */
  method AddFields(candidates: map<Bytes, set<ClaimHash>>, id: ClaimHash, body: map<Bytes, Value>)
    returns (more: map<Bytes, set<ClaimHash>>)
    requires forall field | field in candidates :: candidates[field] != {}
    ensures Added(more, candidates, id, FieldsOf(body)) && forall field | field in more :: more[field] != {}
  {
    hide IsField, Added;
    more := candidates;
    NothingAdded(candidates, id);
    ghost var done: set<Bytes> := {};
    var keys := body.Keys;
    while keys != {}
      invariant keys <= body.Keys && Added(more, candidates, id, done) && forall field | field in more ::
                more[field] != {}
      invariant done == set key | key in body && key !in keys && IsField(key)
      decreases keys
    {
      var key :| key in keys;
      if IsField(key) {
        AddedOne(more, candidates, id, done, key);
        more := more[key := (if key in more then more[key] else {}) + {id}];
        done := done + {key};
      }
      keys := keys - {key};
    }
    assert done == FieldsOf(body);
  }

  lemma NothingAdded(candidates: map<Bytes, set<ClaimHash>>, id: ClaimHash)
    ensures Added(candidates, candidates, id, {})
  {
  }

  lemma GatheredMore(schema: Schema, nodes: Nodes, ids: set<ClaimHash>, done: set<ClaimHash>, id: ClaimHash,
                     candidates: map<Bytes, set<ClaimHash>>, more: map<Bytes, set<ClaimHash>>)
    requires id in ids && id in nodes && Gathered(schema, nodes, ids, done, candidates)
    requires if Entitled(schema, nodes, ids, id) then Added(more, candidates, id, FieldsOf(nodes[id].body))
             else more == candidates
    ensures Gathered(schema, nodes, ids, done + {id}, more)
  {
    hide Entitled, IsField;
  }

  /** field name -> every claim of the component entitled to set it that does. */
  method GatherCandidates(schema: Schema, nodes: Nodes, ids: set<ClaimHash>) returns (candidates: map<Bytes,
                          set<ClaimHash>>)
    requires ids <= nodes.Keys
    ensures candidates.Keys == FieldNames(schema, nodes, ids)
    ensures forall field | field in candidates :: candidates[field] == Candidates(schema, nodes, ids, field)
  {
    hide Gathered;
    var rootAuthors := RootAuthors(schema, nodes, ids);
    candidates := map[];
    NothingGathered(schema, nodes, ids);
    var left := ids;
    assert ids - left == {};
    while left != {}
      invariant left <= ids && Gathered(schema, nodes, ids, ids - left, candidates)
      invariant forall field | field in candidates :: candidates[field] != {}
      decreases left
    {
      var id :| id in left;
      var role := RoleOf(schema, nodes[id]);
      var more := candidates;
      if role == Some(Root) || (role == Some(Edit) && nodes[id].author in rootAuthors) {
        more := AddFields(candidates, id, nodes[id].body);
      }
      GatheredMore(schema, nodes, ids, ids - left, id, candidates, more);
      assert ids - (left - {id}) == ids - left + {id};
      candidates := more;
      left := left - {id};
    }
    assert ids - left == ids;
    GatheredAll(schema, nodes, ids, candidates);
  }

  lemma NothingGathered(schema: Schema, nodes: Nodes, ids: set<ClaimHash>)
    ensures Gathered(schema, nodes, ids, {}, map[])
  {
  }

  lemma GatheredAll(schema: Schema, nodes: Nodes, ids: set<ClaimHash>, candidates: map<Bytes, set<ClaimHash>>)
    requires ids <= nodes.Keys && Gathered(schema, nodes, ids, ids, candidates)
    requires forall field | field in candidates :: candidates[field] != {}
    ensures candidates.Keys == FieldNames(schema, nodes, ids)
    ensures forall field | field in candidates :: candidates[field] == Candidates(schema, nodes, ids, field)
  {
    hide Entitled;
    forall field | field in candidates
      ensures candidates[field] == Candidates(schema, nodes, ids, field) && field in FieldNames(schema, nodes, ids)
    {
      var x :| x in candidates[field];
      assert Under(candidates, field, x) && Contributes(schema, nodes, ids, field, x);
      forall id: ClaimHash
        ensures id in candidates[field] <==> id in Candidates(schema, nodes, ids, field)
      {
        assert Under(candidates, field, id) <==> id in ids && Contributes(schema, nodes, ids, field, id);
      }
    }
    forall field | field in FieldNames(schema, nodes, ids)
      ensures field in candidates
    {
      var id :| id in ids && id in nodes && field in nodes[id].body && Contributes(schema, nodes, ids, field, id);
      assert Under(candidates, field, id);
    }
  }

  /** The causal history of every claim of the component. */
  method Histories(g: Graph, ids: set<ClaimHash>) returns (ancestors: map<ClaimHash, set<ClaimHash>>)
    requires Closed(g) && ids <= g.Keys
    ensures ancestors == map id | id in ids :: Ancestors(g, id)
  {
    ancestors := map[];
    var left := ids;
    while left != {}
      invariant left <= ids && ancestors == map id | id in ids - left :: Ancestors(g, id)
      decreases left
    {
      var id :| id in left;
      var seen := History(g, id);
      ancestors := ancestors[id := seen];
      left := left - {id};
    }
  }

  /** Candidates in the history of another. */
  function Overtaken(candidates: set<ClaimHash>, ancestors: map<ClaimHash, set<ClaimHash>>): set<ClaimHash>
    requires candidates <= ancestors.Keys
  {
    set d, a | d in candidates && a in candidates && a in ancestors[d] :: a
  }

  lemma DominatedIs(nodes: Nodes, ids: set<ClaimHash>, candidates: set<ClaimHash>, ancestors: map<ClaimHash,
                    set<ClaimHash>>)
    requires candidates <= ids <= nodes.Keys && ancestors == map id | id in ids :: Ancestors(EdgesOf(nodes), id)
    ensures Overtaken(candidates, ancestors) == Dominated(nodes, candidates)
            && Dominated(nodes, candidates) <= candidates
  {
    hide Reaches, EdgesOf;
    forall a
      ensures a in Dominated(nodes, candidates) <==> exists d :: d in candidates && a in candidates && a in ancestors[d]
    {
      if a in Dominated(nodes, candidates) {
        var d :| d in candidates && Reaches(EdgesOf(nodes), d, a);
        assert a in ancestors[d];
      }
    }
  }

  /** Keep what is not dominated, in the order of the history. */
  method Undominated(history: seq<Contribution>, dominated: set<ClaimHash>) returns (frontier: seq<Contribution>)
    ensures frontier == Survivors(history, dominated)
  {
    frontier := [];
    for i := 0 to |history|
      invariant frontier == Survivors(history[..i], dominated)
    {
      assert history[..i + 1][..i] == history[..i];
      if history[i].claim !in dominated {
        frontier := frontier + [history[i]];
      }
    }
    assert history[..|history|] == history;
  }

  function Survivors(history: seq<Contribution>, dominated: set<ClaimHash>): seq<Contribution> {
    if history == [] then []
    else
      var c := history[|history| - 1];
      Survivors(history[..|history| - 1], dominated) + (if c.claim in dominated then [] else [c])
  }

  function Left(xs: seq<ClaimHash>, gone: set<ClaimHash>): seq<ClaimHash> {
    if xs == [] then [] else (if xs[0] in gone then [] else [xs[0]]) + Left(xs[1..], gone)
  }

  lemma {:induction false} LeftAscends(rank: Rank, xs: seq<ClaimHash>, gone: set<ClaimHash>)
    requires Ascending(rank, xs)
    ensures Ascending(rank, Left(xs, gone)) && forall x :: x in Left(xs, gone) <==> x in xs && x !in gone
  {
    hide Before;
    if xs != [] {
      var rest := Left(xs[1..], gone);
      LeftAscends(rank, xs[1..], gone);
      HeadIsFirst(rank, xs);
      hide Ascending;
      assert xs == [xs[0]] + xs[1..];
      if xs[0] !in gone {
        if rest != [] { assert rest[0] in rest; }
        AscendsCons(rank, xs[0], rest);
      } else {
        assert Left(xs, gone) == rest;
      }
    }
  }

  lemma {:induction false} SurvivorsAre(nodes: Nodes, field: Bytes, xs: seq<ClaimHash>, gone: set<ClaimHash>)
    requires forall i | 0 <= i < |xs| :: xs[i] in nodes && field in nodes[xs[i]].body
    ensures forall i | 0 <= i < |Left(xs, gone)| :: Left(xs, gone)[i] in nodes && field in nodes[Left(xs, gone)[i]].body
    ensures Survivors(Contribute(nodes, field, xs), gone) == Contribute(nodes, field, Left(xs, gone))
  {
    if xs != [] {
      var n := |xs| - 1;
      SurvivorsAre(nodes, field, xs[..n], gone);
      LeftSnoc(xs, gone);
      assert Contribute(nodes, field, xs)[..n] == Contribute(nodes, field, xs[..n]);
    }
  }

  lemma {:induction false} LeftSnoc(xs: seq<ClaimHash>, gone: set<ClaimHash>)
    requires xs != []
    ensures var n := |xs| - 1; Left(xs, gone) == Left(xs[..n], gone) + (if xs[n] in gone then [] else [xs[n]])
  {
    if |xs| > 1 {
      LeftSnoc(xs[1..], gone);
      assert xs[..|xs| - 1][1..] == xs[1..][..|xs| - 2];
    }
  }

  /** Filtering the sorted history sorts the frontier. */
  lemma FrontierIsSorted(nodes: Nodes, field: Bytes, candidates: set<ClaimHash>, gone: set<ClaimHash>)
    requires gone <= candidates && forall id | id in candidates :: id in nodes && field in nodes[id].body
    ensures Survivors(InOrder(nodes, field, candidates), gone) == InOrder(nodes, field, candidates - gone)
  {
    var rank := ByTime(nodes);
    var sorted := SortIds(rank, candidates);
    SortIdsLists(rank, candidates);
    assert forall i | 0 <= i < |sorted| :: sorted[i] in sorted;
    LeftAscends(rank, sorted, gone);
    SortIdsIs(rank, candidates - gone, Left(sorted, gone));
    SurvivorsAre(nodes, field, sorted, gone);
  }

  /** Contributions of the sorted candidates are the history. */
  lemma HistoryIsSorted(nodes: Nodes, field: Bytes, candidates: set<ClaimHash>)
    requires forall id | id in candidates :: id in nodes && field in nodes[id].body
    ensures var sorted := SortIds(ByTime(nodes), candidates);
            (forall i | 0 <= i < |sorted| :: sorted[i] in nodes && field in nodes[sorted[i]].body)
            && Contribute(nodes, field, sorted) == InOrder(nodes, field, candidates)
  {
    hide Contribute;
    SortIdsLists(ByTime(nodes), candidates);
    var sorted := SortIds(ByTime(nodes), candidates);
    assert forall i | 0 <= i < |sorted| :: sorted[i] in sorted;
  }

  lemma CandidatesSetIt(schema: Schema, nodes: Nodes, ids: set<ClaimHash>, field: Bytes)
    ensures forall id | id in Candidates(schema, nodes, ids, field) ::
            id in ids && id in nodes && field in nodes[id].body
  {
  }

  method FoldField(schema: Schema, nodes: Nodes, ids: set<ClaimHash>, field: Bytes, candidates: set<ClaimHash>,
                   ancestors: map<ClaimHash, set<ClaimHash>>) returns (state: FieldState)
    requires ids <= nodes.Keys && candidates == Candidates(schema, nodes, ids, field)
    requires ancestors == map id | id in ids :: Ancestors(EdgesOf(nodes), id)
    ensures state == StateOf(schema, nodes, ids, field)
  {
    hide EdgesOf, Reaches, Ancestors, Candidates, SortIds, InOrder, Survivors, Contribute, Dominated, Overtaken;
    CandidatesSetIt(schema, nodes, ids, field);
    var dominated := Overtaken(candidates, ancestors);
    DominatedIs(nodes, ids, candidates, ancestors);
    var sorted := Sort(ByTime(nodes), candidates);
    HistoryIsSorted(nodes, field, candidates);
    var history := Contribute(nodes, field, sorted);
    var frontier := Undominated(history, dominated);
    FrontierIsSorted(nodes, field, candidates, dominated);
    state := FieldState(frontier, history);
  }

  method CollectRemarks(schema: Schema, nodes: Nodes, ids: set<ClaimHash>,
                        listed: seq<ClaimHash>) returns (comments: seq<Remark>)
    ensures comments == RemarksIn(schema, nodes, ids, listed)
  {
    comments := [];
    for i := 0 to |listed|
      invariant comments == RemarksIn(schema, nodes, ids, listed[..i])
    {
      assert listed[..i + 1][..i] == listed[..i];
      if Remarks(schema, nodes, ids, listed[i]) {
        comments := comments + [RemarkOf(nodes[listed[i]])];
      }
    }
    assert listed[..|listed|] == listed;
  }

  method BuildComponent(schema: Schema, nodes: Nodes, edges: Graph, ids: set<ClaimHash>) returns (c: Component)
    requires edges == EdgesOf(nodes) && ids <= nodes.Keys && ids != {}
    ensures c == Built(schema, nodes, ids)
  {
    hide EdgesOf, Candidates, FieldNames, StateOf;
    var ancestors := Histories(edges, ids);
    var candidates := GatherCandidates(schema, nodes, ids);
    var fields: map<Bytes, FieldState> := map[];
    var left := candidates.Keys;
    while left != {}
      invariant left <= candidates.Keys
      invariant fields == map field | field in candidates.Keys - left :: StateOf(schema, nodes, ids, field)
      decreases left
    {
      var field :| field in left;
      var state := FoldField(schema, nodes, ids, field, candidates[field], ancestors);
      fields := fields[field := state];
      left := left - {field};
    }
    var listed := Sort(ById(), ids);
    SortIdsLists(ById(), ids);
    var comments := CollectRemarks(schema, nodes, ids, listed);
    c := Component(listed[0], ids, fields, comments);
  }

  method Keep(view: seq<ClaimView>, schema: Schema, accept: ClaimView -> bool) returns (nodes: Nodes)
    ensures nodes == Kept(view, schema, accept)
  {
    nodes := map[];
    for i := 0 to |view|
      invariant nodes == Kept(view[..i], schema, accept)
    {
      assert view[..i + 1][..i] == view[..i];
      if accept(view[i]) && RoleOf(schema, view[i]).Some? {
        nodes := nodes[view[i].id := view[i]];
      }
    }
    assert view[..|view|] == view;
  }

  /** Fold every kept claim into its component, once. */
  method Fold(view: seq<ClaimView>, schema: Schema, accept: ClaimView -> bool) returns (components: seq<Component>)
    ensures (set c | c in components) == FoldOf(schema, Kept(view, schema, accept))
    ensures forall i, j | 0 <= i < j < |components| :: components[i].claims !! components[j].claims
  {
    hide Built, Classes, Joined, ClassOf;
    var nodes := Keep(view, schema, accept);
    var edges := EdgesOf(nodes);
    hide EdgesOf, Kept;
    var classes := ConnectedComponents(edges);
    EachOnce(classes, Classes(edges));
    components := [];
    for i := 0 to |classes|
      invariant |components| == i
      invariant forall j | 0 <= j < i ::
                  && classes[j] in Classes(edges) && classes[j] != {}
                  && components[j] == Built(schema, nodes, classes[j])
    {
      assert classes[i] in classes;
      ClassesAreInhabited(edges, classes[i]);
      var c := BuildComponent(schema, nodes, edges, classes[i]);
      components := components + [c];
    }
    BuiltAll(schema, nodes, classes, components);
    forall i, j | 0 <= i < j < |components|
      ensures components[i].claims !! components[j].claims
    {
      BuiltClaims(schema, nodes, classes[i]);
      BuiltClaims(schema, nodes, classes[j]);
      ClassesAreDisjoint(edges, classes[i], classes[j]);
    }
  }

  lemma BuiltClaims(schema: Schema, nodes: Nodes, ids: set<ClaimHash>)
    requires ids != {}
    ensures Built(schema, nodes, ids).claims == ids
  {
  }

  lemma ClassesAreDisjoint(g: Graph, c: set<ClaimHash>, d: set<ClaimHash>)
    requires c in Classes(g) && d in Classes(g) && c != d
    ensures c !! d
  {
    var a :| a in g && c == ClassOf(g, a);
    var b :| b in g && d == ClassOf(g, b);
    ClassesPartition(g, a, b);
  }

  lemma BuiltAll(schema: Schema, nodes: Nodes, classes: seq<set<ClaimHash>>, components: seq<Component>)
    requires (set c | c in classes) == Classes(EdgesOf(nodes)) && |components| == |classes|
    requires forall j | 0 <= j < |classes| :: classes[j] != {} && components[j] == Built(schema, nodes, classes[j])
    ensures (set c | c in components) == FoldOf(schema, nodes)
  {
    hide Built, Classes, EdgesOf;
    forall c
      ensures c in components <==> c in FoldOf(schema, nodes)
    {
      if c in components {
        var j :| 0 <= j < |components| && components[j] == c;
        assert classes[j] in classes;
      }
      if c in FoldOf(schema, nodes) {
        var ids :| ids in Classes(EdgesOf(nodes)) && ids != {} && c == Built(schema, nodes, ids);
        assert ids in classes;
        var j :| 0 <= j < |classes| && classes[j] == ids;
        assert components[j] == c;
      }
    }
  }

  /** A list with as many entries as distinct ones repeats none. */
  lemma {:induction false} EachOnce<T>(xs: seq<T>, s: set<T>)
    requires (set x | x in xs) == s && |xs| == |s|
    ensures forall i, j | 0 <= i < j < |xs| :: xs[i] != xs[j]
  {
    if xs != [] {
      var n := |xs| - 1;
      var front := set x | x in xs[..n];
      assert xs == xs[..n] + [xs[n]];
      assert s == front + {xs[n]};
      FrontIsSmall(xs[..n], front);
      EachOnce(xs[..n], front);
    }
  }

  lemma {:induction false} FrontIsSmall<T>(xs: seq<T>, s: set<T>)
    requires (set x | x in xs) == s
    ensures |s| <= |xs|
  {
    if xs != [] {
      var n := |xs| - 1;
      var front := set x | x in xs[..n];
      assert xs == xs[..n] + [xs[n]];
      assert s == front + {xs[n]};
      FrontIsSmall(xs[..n], front);
    }
  }
}
