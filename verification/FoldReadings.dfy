/**
 What a component shows, said of the bodies of its claims alone: whose words set a
 field, in which order they are listed, and what is listed as a comment.
 */
module FoldReadings {
  import opened Bytes
  import opened Values
  import opened Rows
  import opened Sorted
  import opened Queries
  import opened Graphs
  import opened Folding
  import opened FoldLaws

  // ── Reading one claim ────────────────────────────────────────────────

  /** The claim's `type` is this word. */
  predicate Says(c: ClaimView, word: Bytes) {
    [0x74, 0x79, 0x70, 0x65] in c.body && c.body[[0x74, 0x79, 0x70, 0x65]] == Text(word)
  }

  /** The time a claim goes by: its `at` if that is an integer, else when it came. */
  predicate GoesBy(c: ClaimView, t: int) {
    if [0x61, 0x74] in c.body && c.body[[0x61, 0x74]].Int? then c.body[[0x61, 0x74]] == Int(t) else t == c.receivedAt
  }

  /** `at`, `of` and `type` are not fields. */
  predicate NamesField(key: Bytes) { key != [0x61, 0x74] && key != [0x6f, 0x66] && key != [0x74, 0x79, 0x70, 0x65] }

  ghost predicate WroteRoot(schema: Schema, nodes: Nodes, ids: set<ClaimHash>, author: LogId) {
    exists r :: r in ids && r in nodes && Says(nodes[r], schema.root) && nodes[r].author == author
  }

  /** A root, or an edit by someone who wrote a root of the same component, that sets the field. */
  ghost predicate Sets(schema: Schema, nodes: Nodes, ids: set<ClaimHash>, id: ClaimHash, field: Bytes) {
    && id in ids && id in nodes && NamesField(field) && field in nodes[id].body
    && (|| Says(nodes[id], schema.root)
        || (Says(nodes[id], schema.edit) && WroteRoot(schema, nodes, ids, nodes[id].author)))
  }

  /** A comment that is neither root nor edit, with a `text`. */
  predicate Comments(schema: Schema, c: ClaimView, text: Bytes) {
    && Says(c, schema.comment) && !Says(c, schema.root) && !Says(c, schema.edit)
    && [0x74, 0x65, 0x78, 0x74] in c.body && c.body[[0x74, 0x65, 0x78, 0x74]] == Text(text)
  }

  lemma KeysSpelled()
    ensures TYPE == [0x74, 0x79, 0x70, 0x65] && AT == [0x61, 0x74] && OF == [0x6f, 0x66]
            && TEXT == [0x74, 0x65, 0x78, 0x74]
  {
  }

  lemma RoleIs(schema: Schema, c: ClaimView)
    ensures RoleOf(schema, c) ==
            if Says(c, schema.root) then Some(Root)
            else if Says(c, schema.edit) then Some(Edit)
            else if Says(c, schema.comment) then Some(Comment)
            else None
  {
    KeysSpelled();
  }

  lemma TimeIs(c: ClaimView)
    ensures forall t :: GoesBy(c, t) <==> t == TimeOf(c)
  {
    KeysSpelled();
  }

  lemma SetsIs(schema: Schema, nodes: Nodes, ids: set<ClaimHash>, id: ClaimHash, field: Bytes)
    ensures Sets(schema, nodes, ids, id, field) <==> Contributes(schema, nodes, ids, field, id)
  {
    KeysSpelled();
    hide RoleOf, Says;
    if id in nodes {
      RoleIs(schema, nodes[id]);
      forall r | r in ids && r in nodes
        ensures Says(nodes[r], schema.root) <==> RoleOf(schema, nodes[r]) == Some(Root)
      {
        RoleIs(schema, nodes[r]);
      }
    }
  }

  /** What is kept of a view: accepted claims that say one of the three words. */
  lemma KeptSays(view: seq<ClaimView>, schema: Schema, accept: ClaimView -> bool, c: ClaimView)
    requires Addressed(view)
    ensures Keeps(Kept(view, schema, accept), c) <==>
            c in view && accept(c) && (Says(c, schema.root) || Says(c, schema.edit) || Says(c, schema.comment))
  {
    hide RoleOf, Says, Keeps, Kept, Addressed;
    KeptIs(view, schema, accept, c);
    RoleIs(schema, c);
  }

  // ── Fields ───────────────────────────────────────────────────────────

  /** A contribution as the claim made it. */
  predicate Quotes(nodes: Nodes, field: Bytes, x: Contribution) {
    && x.claim in nodes && x.author == nodes[x.claim].author
    && field in nodes[x.claim].body && x.value == nodes[x.claim].body[field] && GoesBy(nodes[x.claim], x.at)
  }

  /** Oldest first by the time claims go by, ties by hash. */
  ghost predicate InTimeOrder(cs: seq<Contribution>) {
    forall i, j | 0 <= i < j < |cs| :: cs[i].at < cs[j].at || (cs[i].at == cs[j].at && cs[i].claim < cs[j].claim)
  }

  /** Every listed contribution is quoted. */
  ghost predicate AllQuoted(nodes: Nodes, field: Bytes, cs: seq<Contribution>) {
    forall i | 0 <= i < |cs| :: Quotes(nodes, field, cs[i])
  }

  lemma SortedReads(nodes: Nodes, field: Bytes, sorted: seq<ClaimHash>)
    requires (forall i | 0 <= i < |sorted| :: sorted[i] in nodes && field in nodes[sorted[i]].body)
    requires Ascending(ByTime(nodes), sorted)
    ensures InTimeOrder(Contribute(nodes, field, sorted)) && AllQuoted(nodes, field, Contribute(nodes, field, sorted))
  {
    hide TimeOf, GoesBy, Ascending;
    var cs := Contribute(nodes, field, sorted);
    forall i, j | 0 <= i < j < |cs|
      ensures cs[i].at < cs[j].at || (cs[i].at == cs[j].at && cs[i].claim < cs[j].claim)
    {
      AscendsThroughout(ByTime(nodes), sorted, i, j);
    }
    forall i | 0 <= i < |cs|
      ensures Quotes(nodes, field, cs[i])
    {
      TimeIs(nodes[sorted[i]]);
    }
  }

  lemma OrderReads(nodes: Nodes, field: Bytes, ids: set<ClaimHash>)
    requires forall id | id in ids :: id in nodes && field in nodes[id].body
    ensures InTimeOrder(InOrder(nodes, field, ids)) && AllQuoted(nodes, field, InOrder(nodes, field, ids))
  {
    hide InTimeOrder, AllQuoted, InOrder, Ascending, SortIds, Contribute, ByTime;
    HistoryIsSorted(nodes, field, ids);
    SortIdsLists(ByTime(nodes), ids);
    SortedReads(nodes, field, SortIds(ByTime(nodes), ids));
  }

  /**
   A field is shown exactly when some claim of the component may set it and does. Its
   history quotes each such claim once, in the order of the times they go by, and its
   frontier quotes those of them no other has in its history, in the same order.
   */
  lemma FieldReads(schema: Schema, nodes: Nodes, c: Component, field: Bytes)
    requires c in FoldOf(schema, nodes)
    ensures field in c.fields <==> exists id :: Sets(schema, nodes, c.claims, id, field)
    ensures field in c.fields ==>
              var h, f := c.fields[field].history, c.fields[field].frontier;
              && InTimeOrder(h) && InTimeOrder(f) && AllQuoted(nodes, field, h)
                 && (forall i | 0 <= i < |f| :: f[i] in h)
              && (forall id :: (exists i :: 0 <= i < |h| && h[i].claim == id) <==>
                 Sets(schema, nodes, c.claims, id, field))
              && (forall i | 0 <= i < |h| :: h[i] in f <==> !Surpassed(schema, nodes, c.claims, field, h[i].claim))
  {
    hide Classes, EdgesOf, Built, FieldNames, StateOf, Sets, Candidates, Dominated, InTimeOrder, AllQuoted, Surpassed,
         Named;
    var ids := ClassBuilt(schema, nodes, c);
    assert c.claims == ids by { BuiltClaims(schema, nodes, ids); }
    BuiltField(schema, nodes, ids, field);
    FieldIsSet(schema, nodes, ids, field);
    if field in c.fields {
      var h, f := c.fields[field].history, c.fields[field].frontier;
      var candidates := Candidates(schema, nodes, ids, field);
      StateReads(schema, nodes, ids, field);
      SharedQuotes(nodes, field, h, f, candidates, candidates - Dominated(nodes, candidates));
      NamedMeans(h, candidates);
      forall id
        ensures id in candidates <==> Sets(schema, nodes, ids, id, field)
        ensures id in candidates ==> (id in Dominated(nodes, candidates) <==> Surpassed(schema, nodes, ids, field, id))
      {
        CandidateReads(schema, nodes, ids, field, id);
      }
    }
  }

  /** Some claim that sets the field has this one in its history. */
  ghost predicate Surpassed(schema: Schema, nodes: Nodes, ids: set<ClaimHash>, field: Bytes, id: ClaimHash) {
    exists d :: Sets(schema, nodes, ids, d, field) && Reaches(EdgesOf(nodes), d, id)
  }

  lemma NamedMeans(cs: seq<Contribution>, ids: set<ClaimHash>)
    requires Named(cs, ids)
    ensures forall id :: (exists i :: 0 <= i < |cs| && cs[i].claim == id) <==> id in ids
    ensures forall i | 0 <= i < |cs| :: cs[i].claim in ids
  {
  }

  lemma CandidateReads(schema: Schema, nodes: Nodes, ids: set<ClaimHash>, field: Bytes, id: ClaimHash)
    ensures var candidates := Candidates(schema, nodes, ids, field);
            && (id in candidates <==> Sets(schema, nodes, ids, id, field))
            && (id in candidates ==> (id in Dominated(nodes, candidates) <==> Surpassed(schema, nodes, ids, field, id)))
  {
    hide EdgesOf, Reaches;
    forall x: ClaimHash
      ensures x in Candidates(schema, nodes, ids, field) <==> Sets(schema, nodes, ids, x, field)
    {
      SetsIs(schema, nodes, ids, x, field);
      InCandidates(schema, nodes, ids, field, x);
    }
    hide Candidates, Sets;
  }

  lemma InCandidates(schema: Schema, nodes: Nodes, ids: set<ClaimHash>, field: Bytes, x: ClaimHash)
    ensures x in Candidates(schema, nodes, ids, field) <==> Contributes(schema, nodes, ids, field, x)
  {
    hide RoleOf, IsField;
  }

  lemma FieldIsSet(schema: Schema, nodes: Nodes, ids: set<ClaimHash>, field: Bytes)
    ensures field in FieldNames(schema, nodes, ids) <==> exists id :: Sets(schema, nodes, ids, id, field)
  {
    hide FieldNames, Contributes, Sets;
    FieldIsContributed(schema, nodes, ids, field);
    if id :| Contributes(schema, nodes, ids, field, id) {
      SetsIs(schema, nodes, ids, id, field);
    }
    if id :| Sets(schema, nodes, ids, id, field) {
      SetsIs(schema, nodes, ids, id, field);
    }
  }

  lemma FieldIsContributed(schema: Schema, nodes: Nodes, ids: set<ClaimHash>, field: Bytes)
    ensures field in FieldNames(schema, nodes, ids) <==> exists id :: Contributes(schema, nodes, ids, field, id)
  {
    hide RoleOf, IsField;
  }

  lemma StateReads(schema: Schema, nodes: Nodes, ids: set<ClaimHash>, field: Bytes)
    ensures var h, f := StateOf(schema, nodes, ids, field).history, StateOf(schema, nodes, ids, field).frontier;
            var candidates := Candidates(schema, nodes, ids, field);
            && InTimeOrder(h) && InTimeOrder(f) && AllQuoted(nodes, field, h) && AllQuoted(nodes, field, f)
            && Named(h, candidates) && Named(f, candidates - Dominated(nodes, candidates))
  {
    CandidatesSetIt(schema, nodes, ids, field);
    hide Candidates, Dominated, InOrder, InTimeOrder, AllQuoted;
    var candidates := Candidates(schema, nodes, ids, field);
    var leads := candidates - Dominated(nodes, candidates);
    OrderReads(nodes, field, candidates);
    OrderReads(nodes, field, leads);
  }

  ghost predicate Named(cs: seq<Contribution>, ids: set<ClaimHash>) {
    forall id :: (exists i :: 0 <= i < |cs| && cs[i].claim == id) <==> id in ids
  }

  /** Lists that quote the same claims share the quotes. */
  lemma SharedQuotes(nodes: Nodes, field: Bytes, h: seq<Contribution>, f: seq<Contribution>, all: set<ClaimHash>,
                     some: set<ClaimHash>)
    requires AllQuoted(nodes, field, h) && AllQuoted(nodes, field, f) && Named(h, all) && Named(f, some) && some <= all
    ensures forall i | 0 <= i < |f| :: f[i] in h
    ensures forall i | 0 <= i < |h| :: h[i] in f <==> h[i].claim in some
  {
    hide Quotes;
    forall i | 0 <= i < |f|
      ensures f[i] in h
    {
      assert f[i].claim in some;
      var k :| 0 <= k < |h| && h[k].claim == f[i].claim;
      SameQuote(nodes, field, h[k], f[i]);
    }
    forall i | 0 <= i < |h|
      ensures h[i] in f <==> h[i].claim in some
    {
      if h[i].claim in some {
        var k :| 0 <= k < |f| && f[k].claim == h[i].claim;
        SameQuote(nodes, field, h[i], f[k]);
      }
    }
  }

  lemma SameQuote(nodes: Nodes, field: Bytes, x: Contribution, y: Contribution)
    requires Quotes(nodes, field, x) && Quotes(nodes, field, y) && x.claim == y.claim
    ensures x == y
  {
  }

  // ── Comments ─────────────────────────────────────────────────────────

  /** A remark as the claim made it. */
  predicate Remarking(schema: Schema, nodes: Nodes, x: Remark) {
    && x.claim in nodes && x.author == nodes[x.claim].author
    && Comments(schema, nodes[x.claim], x.text) && GoesBy(nodes[x.claim], x.at)
  }

  ghost predicate Keyed(nodes: Nodes) { forall id | id in nodes :: nodes[id].id == id }

  lemma RemarkReads(schema: Schema, nodes: Nodes, ids: set<ClaimHash>, id: ClaimHash)
    requires Keyed(nodes) && id in ids && id in nodes
    ensures Remarks(schema, nodes, ids, id) <==> exists text :: Comments(schema, nodes[id], text)
    ensures Remarks(schema, nodes, ids, id) ==>
            Remarking(schema, nodes, RemarkOf(nodes[id])) && RemarkOf(nodes[id]).claim == id
  {
    RoleIs(schema, nodes[id]);
    TimeIs(nodes[id]);
    KeysSpelled();
    hide RoleOf, Says, TimeOf;
    if Remarks(schema, nodes, ids, id) {
      assert Comments(schema, nodes[id], RemarkOf(nodes[id]).text);
    }
  }

  /** One remark for each listed id that comments, in the order listed. */
  ghost predicate RemarksListed(schema: Schema, nodes: Nodes, ids: set<ClaimHash>, listed: seq<ClaimHash>,
                                rs: seq<Remark>) {
    && (forall k | 0 <= k < |rs| :: Remarking(schema, nodes, rs[k]) && rs[k].claim in listed)
    && (forall i, j | 0 <= i < j < |rs| :: rs[i].claim < rs[j].claim)
    && (forall id | id in listed && Remarks(schema, nodes, ids, id) :: exists k :: 0 <= k < |rs| && rs[k].claim == id)
  }

  lemma RemarkAppended(schema: Schema, nodes: Nodes, ids: set<ClaimHash>, front: seq<ClaimHash>, rest: seq<Remark>,
                       id: ClaimHash,
                       r: Remark)
    requires RemarksListed(schema, nodes, ids, front, rest) && (forall x | x in front :: x < id)
    requires Remarking(schema, nodes, r) && r.claim == id
    ensures RemarksListed(schema, nodes, ids, front + [id], rest + [r])
  {
    hide Remarking, Remarks;
    var rs := rest + [r];
    forall x | x in front + [id] && Remarks(schema, nodes, ids, x)
      ensures exists k :: 0 <= k < |rs| && rs[k].claim == x
    {
      if x in front {
        var k :| 0 <= k < |rest| && rest[k].claim == x;
        assert rs[k].claim == x;
      } else {
        assert rs[|rest|].claim == x;
      }
    }
  }

  lemma NoRemarkAppended(schema: Schema, nodes: Nodes, ids: set<ClaimHash>, front: seq<ClaimHash>, rest: seq<Remark>,
                         id: ClaimHash)
    requires RemarksListed(schema, nodes, ids, front, rest) && !Remarks(schema, nodes, ids, id)
    ensures RemarksListed(schema, nodes, ids, front + [id], rest)
  {
    hide Remarking, Remarks;
  }

  ghost predicate KeptIncreasing(nodes: Nodes, ids: set<ClaimHash>, listed: seq<ClaimHash>) {
    && (forall i | 0 <= i < |listed| :: listed[i] in ids && listed[i] in nodes)
    && (forall i, j | 0 <= i < j < |listed| :: listed[i] < listed[j])
  }

  lemma FrontIncreases(nodes: Nodes, ids: set<ClaimHash>, listed: seq<ClaimHash>)
    requires KeptIncreasing(nodes, ids, listed) && listed != []
    ensures var front, id := listed[..|listed| - 1], listed[|listed| - 1];
            && KeptIncreasing(nodes, ids, front) && id in ids && id in nodes && (forall x | x in front :: x < id)
            && listed == front + [id]
  {
  }

  lemma NothingListed(schema: Schema, nodes: Nodes, ids: set<ClaimHash>)
    ensures RemarksListed(schema, nodes, ids, [], [])
  {
    hide Remarks, Remarking;
  }

  lemma {:induction false} ListedRemarks(schema: Schema, nodes: Nodes, ids: set<ClaimHash>, listed: seq<ClaimHash>)
    requires Keyed(nodes) && KeptIncreasing(nodes, ids, listed)
    ensures RemarksListed(schema, nodes, ids, listed, RemarksIn(schema, nodes, ids, listed))
  {
    hide Remarks, RemarkOf, Remarking, Keyed, KeptIncreasing, RemarksListed;
    if listed == [] {
      NothingListed(schema, nodes, ids);
    } else {
      FrontIncreases(nodes, ids, listed);
      var front, id := listed[..|listed| - 1], listed[|listed| - 1];
      ListedRemarks(schema, nodes, ids, front);
      RemarkReads(schema, nodes, ids, id);
      var rest := RemarksIn(schema, nodes, ids, front);
      if Remarks(schema, nodes, ids, id) {
        RemarkAppended(schema, nodes, ids, front, rest, id, RemarkOf(nodes[id]));
      } else {
        NoRemarkAppended(schema, nodes, ids, front, rest, id);
        assert rest + [] == rest;
      }
    }
  }

  /**
   A component is keyed by its least claim, and lists exactly the claims of it that
   comment, each once, by hash, as they were written.
   */
  lemma ComponentReads(schema: Schema, nodes: Nodes, c: Component)
    requires Keyed(nodes) && c in FoldOf(schema, nodes)
    ensures c.id in c.claims && forall id | id in c.claims :: c.id <= id
    ensures forall k | 0 <= k < |c.comments| ::
            Remarking(schema, nodes, c.comments[k]) && c.comments[k].claim in c.claims
    ensures forall i, j | 0 <= i < j < |c.comments| :: c.comments[i].claim < c.comments[j].claim
    ensures forall id, text | id in c.claims && id in nodes && Comments(schema, nodes[id], text) ::
              exists k :: 0 <= k < |c.comments| && c.comments[k].claim == id
  {
    hide Classes, EdgesOf, Remarks, Remarking, Comments, StateOf, FieldNames, Ascending;
    var ids := ClassBuilt(schema, nodes, c);
    ClassesAreInhabited(EdgesOf(nodes), ids);
    var listed := SortIds(ById(), ids);
    SortIdsLists(ById(), ids);
    hide SortIds;
    assert c.claims == ids && c.id == listed[0] && c.comments == RemarksIn(schema, nodes, ids, listed);
    forall i, j | 0 <= i < j < |listed|
      ensures listed[i] < listed[j]
    {
      AscendsThroughout(ById(), listed, i, j);
    }
    forall i | 0 <= i < |listed|
      ensures listed[i] in ids && listed[i] in nodes
    {
      assert listed[i] in listed;
    }
    ListedRemarks(schema, nodes, ids, listed);
    forall id, text | id in c.claims && id in nodes && Comments(schema, nodes[id], text)
      ensures exists k :: 0 <= k < |c.comments| && c.comments[k].claim == id
    {
      RemarkReads(schema, nodes, ids, id);
      assert id in listed;
    }
    forall id | id in c.claims
      ensures c.id <= id
    {
      assert id in listed;
      var i :| 0 <= i < |listed| && listed[i] == id;
    }
  }
}
