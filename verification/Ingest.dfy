/**
 What one ingest does to the rows: the writes it performs, in order, and the
 effect they add up to.
 */
module Ingest {
  import opened Bytes
  import opened Rows

  datatype Report = Report(
    newlyStored: Option<ClaimHash>,
    duplicates: nat,
    skippedEmbeds: nat,
    redactedSkips: nat,
    bodiesAttached: nat,
    redactionsApplied: nat)

  const NOTHING := Report(None, 0, 0, 0, 0, 0)

  // ── The writes, in order ─────────────────────────────────────────────

  /** A body a redaction may drop: held, and not itself a redact claim's. */
  predicate Droppable(s: State, target: ClaimHash) {
    && target in s.claims
    && s.claims[target].art.body.Some?
    && RedactTarget(s.claims[target].art.log, s.claims[target].art.body).None?
  }

  function Stripped(row: Row): Row {
    row.(art := row.art.(body := None), refs := [], blobs := [])
  }

  predicate TakesOver(s: State, target: ClaimHash, redactor: ClaimHash) {
    target !in s.redactions || redactor < s.redactions[target]
  }

  function RecordWrites(s: State, target: ClaimHash, redactor: ClaimHash): seq<Write> {
    if TakesOver(s, target, redactor) then [SetRedaction(target, redactor)] else []
  }

  function Unlinks(refs: seq<ClaimHash>, source: ClaimHash): (ws: seq<Write>)
    ensures |ws| == |refs|
  {
    seq(|refs|, i requires 0 <= i < |refs| => RemoveBacklink(refs[i], source))
  }

  function Unrefers(blobs: seq<BlobHash>, source: ClaimHash): (ws: seq<Write>)
    ensures |ws| == |blobs|
  {
    seq(|blobs|, i requires 0 <= i < |blobs| => RemoveReferrer(blobs[i], source))
  }

  function Links(refs: seq<ClaimHash>, source: ClaimHash): (ws: seq<Write>)
    ensures |ws| == |refs|
  {
    seq(|refs|, i requires 0 <= i < |refs| => AddBacklink(refs[i], source))
  }

  function Refers(blobs: seq<BlobHash>, source: ClaimHash): (ws: seq<Write>)
    ensures |ws| == |blobs|
  {
    seq(|blobs|, i requires 0 <= i < |blobs| => AddReferrer(blobs[i], source))
  }

  /** Edges go before the body does. */
  function DropWrites(s: State, target: ClaimHash): seq<Write> {
    if !Droppable(s, target) then []
    else
      var row := s.claims[target];
      Unlinks(row.refs, target) + Unrefers(row.blobs, target) + [PutClaim(Stripped(row))]
  }

  function RedactionWrites(s: State, a: Artifact): seq<Write> {
    match RedactTarget(a.log, a.body)
    case None => []
    case Some(target) => RecordWrites(s, target, a.id) + DropWrites(s, target)
  }

  function LogIds(s: State, log: LogId): set<ClaimHash> {
    set id | id in s.claims && s.claims[id].art.log == log
  }

  function LogLen(s: State, log: LogId): nat { |LogIds(s, log)| }

  /** A redact claim's own body is never suppressed. */
  predicate Suppressed(s: State, a: Artifact) {
    RedactTarget(a.log, a.body).None? && a.id in s.redactions
  }

  function KeptBody(s: State, a: Artifact): Option<Body> {
    if Suppressed(s, a) then None else a.body
  }

  predicate Duplicate(s: State, a: Artifact) {
    a.id in s.claims && (s.claims[a.id].art.body.Some? || KeptBody(s, a).None?)
  }

  function RefsOf(body: Option<Body>): seq<ClaimHash> { if body.Some? then body.value.refs else [] }

  function BlobsOf(body: Option<Body>): seq<BlobHash> { if body.Some? then body.value.blobs else [] }

  /** The row put last: the first tag seen stays, a new claim arrives at the count. */
  function NewRow(s: State, a: Artifact, now: int): Row {
    var body := KeptBody(s, a);
    if a.id in s.claims then
      var row := s.claims[a.id];
      row.(art := row.art.(body := body), refs := RefsOf(body), blobs := BlobsOf(body))
    else
      Row(a.(body := body), RefsOf(body), BlobsOf(body), LogLen(s, a.log), now)
  }

  function StoreWrites(s: State, a: Artifact, now: int): seq<Write> {
    if Duplicate(s, a) then []
    else
      var body := KeptBody(s, a);
      Links(RefsOf(body), a.id) + Refers(BlobsOf(body), a.id) + [PutClaim(NewRow(s, a, now))]
  }

  function AfterRedaction(s: State, a: Artifact): State { ApplyAll(RedactionWrites(s, a), s) }

  function IngestWrites(s: State, a: Artifact, now: int): seq<Write> {
    RedactionWrites(s, a) + StoreWrites(AfterRedaction(s, a), a, now)
  }

  function Ingested(s: State, a: Artifact, now: int): State { ApplyAll(IngestWrites(s, a, now), s) }

  function ReportOf(s: State, a: Artifact): Report {
    var s1 := AfterRedaction(s, a);
    var body := KeptBody(s1, a);
    var target := RedactTarget(a.log, a.body);
    var base := NOTHING.(
      redactionsApplied := if target.Some? && (target.value !in s.redactions || Droppable(s, target.value)) then 1
        else 0,
      redactedSkips := if Suppressed(s1, a) && a.body.Some? then 1 else 0);
    if Duplicate(s1, a) then base.(duplicates := 1)
    else
      var counted := base.(skippedEmbeds := if body.Some? then body.value.skipped else 0);
      if a.id in s1.claims then counted.(bodiesAttached := 1) else counted.(newlyStored := Some(a.id))
  }

  /** An event that fails its check changes nothing. */
  function Accepted(s: State, e: Event, now: int): State {
    if e.Checked? then Ingested(s, e.art, now) else s
  }

  function Answer(s: State, e: Event): Option<Report> {
    if e.Checked? then Some(ReportOf(s, e.art)) else None
  }

  lemma IngestedInTwoSteps(s: State, a: Artifact, now: int)
    ensures Ingested(s, a, now) == ApplyAll(StoreWrites(AfterRedaction(s, a), a, now), AfterRedaction(s, a))
  {
    ApplyConcat(RedactionWrites(s, a), StoreWrites(AfterRedaction(s, a), a, now), s);
  }

  // ── Effects of edge writes ───────────────────────────────────────────

  /** `m'` is `m` less the edges `source` has to the members of `keys`. */
  ghost predicate Without(m': Edges, m: Edges, keys: seq<nat>, source: ClaimHash) {
    NoEmptySets(m') && forall k, x :: Linked(m', k, x) <==> Linked(m, k, x) && !(x == source && k in keys)
  }

  ghost predicate With(m': Edges, m: Edges, keys: seq<nat>, source: ClaimHash) {
    NoEmptySets(m') && forall k, x :: Linked(m', k, x) <==> Linked(m, k, x) || (x == source && k in keys)
  }

  lemma {:induction false} UnlinksEffect(refs: seq<ClaimHash>, source: ClaimHash, s: State)
    requires NoEmptySets(s.backlinks)
    ensures var s' := ApplyAll(Unlinks(refs, source), s);
            s' == s.(backlinks := s'.backlinks) && Without(s'.backlinks, s.backlinks, refs, source)
  {
    hide RemoveEdge, Linked, NoEmptySets;
    if refs == [] {
    } else {
      var s1 := Apply(RemoveBacklink(refs[0], source), s);
      RemoveEdgeUnlinks(s.backlinks, refs[0], source);
      assert Unlinks(refs, source)[1..] == Unlinks(refs[1..], source);
      UnlinksEffect(refs[1..], source, s1);
    }
  }

  lemma {:induction false} UnrefersEffect(blobs: seq<BlobHash>, source: ClaimHash, s: State)
    requires NoEmptySets(s.referrers)
    ensures var s' := ApplyAll(Unrefers(blobs, source), s);
            s' == s.(referrers := s'.referrers) && Without(s'.referrers, s.referrers, blobs, source)
  {
    hide RemoveEdge, Linked, NoEmptySets;
    if blobs == [] {
    } else {
      var s1 := Apply(RemoveReferrer(blobs[0], source), s);
      RemoveEdgeUnlinks(s.referrers, blobs[0], source);
      assert Unrefers(blobs, source)[1..] == Unrefers(blobs[1..], source);
      UnrefersEffect(blobs[1..], source, s1);
    }
  }

  lemma {:induction false} LinksEffect(refs: seq<ClaimHash>, source: ClaimHash, s: State)
    requires NoEmptySets(s.backlinks)
    ensures var s' := ApplyAll(Links(refs, source), s);
            s' == s.(backlinks := s'.backlinks) && With(s'.backlinks, s.backlinks, refs, source)
  {
    hide AddEdge, Linked, NoEmptySets;
    if refs == [] {
    } else {
      var s1 := Apply(AddBacklink(refs[0], source), s);
      AddEdgeLinks(s.backlinks, refs[0], source);
      assert Links(refs, source)[1..] == Links(refs[1..], source);
      LinksEffect(refs[1..], source, s1);
    }
  }

  lemma {:induction false} RefersEffect(blobs: seq<BlobHash>, source: ClaimHash, s: State)
    requires NoEmptySets(s.referrers)
    ensures var s' := ApplyAll(Refers(blobs, source), s);
            s' == s.(referrers := s'.referrers) && With(s'.referrers, s.referrers, blobs, source)
  {
    hide AddEdge, Linked, NoEmptySets;
    if blobs == [] {
    } else {
      var s1 := Apply(AddReferrer(blobs[0], source), s);
      AddEdgeLinks(s.referrers, blobs[0], source);
      assert Refers(blobs, source)[1..] == Refers(blobs[1..], source);
      RefersEffect(blobs[1..], source, s1);
    }
  }

  // ── Effects of the two phases ────────────────────────────────────────

  /** What an applied redaction leaves behind. */
  ghost predicate Redacted(s': State, s: State, target: ClaimHash, redactor: ClaimHash) {
    && WellKept(s')
    && s'.claims == (if Droppable(s, target) then s.claims[target := Stripped(s.claims[target])] else s.claims)
    && s'.redactions == (if TakesOver(s, target, redactor) then s.redactions[target := redactor] else s.redactions)
    && (if Droppable(s, target)
        then Without(s'.backlinks, s.backlinks, s.claims[target].refs, target)
             && Without(s'.referrers, s.referrers, s.claims[target].blobs, target)
        else s'.backlinks == s.backlinks && s'.referrers == s.referrers)
  }

  lemma DropEffect(s: State, target: ClaimHash)
    requires WellKept(s)
    ensures var s' := ApplyAll(DropWrites(s, target), s);
            && WellKept(s') && s'.redactions == s.redactions
            && s'.claims == (if Droppable(s, target) then s.claims[target := Stripped(s.claims[target])] else s.claims)
            && (if Droppable(s, target)
                then Without(s'.backlinks, s.backlinks, s.claims[target].refs, target)
                     && Without(s'.referrers, s.referrers, s.claims[target].blobs, target)
                else s' == s)
  {
    if Droppable(s, target) {
      var row := s.claims[target];
      var us, rs := Unlinks(row.refs, target), Unrefers(row.blobs, target);
      hide Unlinks, Unrefers;
      var s1 := ApplyAll(us, s);
      var s2 := ApplyAll(rs, s1);
      UnlinksEffect(row.refs, target, s);
      UnrefersEffect(row.blobs, target, s1);
      ApplyConcat(us, rs, s);
      ApplySnoc(us + rs, PutClaim(Stripped(row)), s);
    }
  }

  lemma DroppableIgnoresRedactions(s: State, target: ClaimHash, m: map<ClaimHash, ClaimHash>)
    ensures DropWrites(s.(redactions := m), target) == DropWrites(s, target)
  {
  }

  lemma RedactionEffect(s: State, a: Artifact)
    requires WellKept(s)
    ensures var s' := AfterRedaction(s, a);
            match RedactTarget(a.log, a.body)
            case None => s' == s
            case Some(target) => Redacted(s', s, target, a.id)
  {
    var target := RedactTarget(a.log, a.body);
    if target.Some? {
      hide DropWrites;
      var record, drop := RecordWrites(s, target.value, a.id), DropWrites(s, target.value);
      var s1 := ApplyAll(record, s);
      assert s1 == s.(redactions := if TakesOver(s, target.value, a.id) then s.redactions[target.value := a.id]
             else s.redactions) by {
        if record != [] {
          assert record[1..] == [];
          assert s1 == ApplyAll(record[1..], Apply(record[0], s));
        }
      }
      ApplyConcat(record, drop, s);
      DroppableIgnoresRedactions(s, target.value, s1.redactions);
      DropEffect(s1, target.value);
    }
  }

  /** What storing a claim that is not a duplicate leaves behind. */
  ghost predicate Stored(s': State, s: State, a: Artifact, now: int) {
    && WellKept(s')
    && s'.claims == s.claims[a.id := NewRow(s, a, now)]
    && s'.redactions == s.redactions
    && With(s'.backlinks, s.backlinks, RefsOf(KeptBody(s, a)), a.id)
    && With(s'.referrers, s.referrers, BlobsOf(KeptBody(s, a)), a.id)
  }

  lemma StoreEffect(s: State, a: Artifact, now: int)
    requires WellKept(s)
    ensures var s' := ApplyAll(StoreWrites(s, a, now), s);
            if Duplicate(s, a) then s' == s else Stored(s', s, a, now)
  {
    if !Duplicate(s, a) {
      var body := KeptBody(s, a);
      var row := NewRow(s, a, now);
      assert row.art.id == a.id;
      var ls, rs := Links(RefsOf(body), a.id), Refers(BlobsOf(body), a.id);
      assert StoreWrites(s, a, now) == ls + rs + [PutClaim(row)];
      hide Links, Refers, NewRow, KeptBody, StoreWrites;
      var s1 := ApplyAll(ls, s);
      var s2 := ApplyAll(rs, s1);
      LinksEffect(RefsOf(body), a.id, s);
      RefersEffect(BlobsOf(body), a.id, s1);
      ApplyConcat(ls, rs, s);
      ApplySnoc(ls + rs, PutClaim(row), s);
    }
  }

  function IngestAll(s: State, arts: seq<Artifact>, now: int): State
    decreases |arts|
  {
    if arts == [] then s else IngestAll(Ingested(s, arts[0], now), arts[1..], now)
  }
}
