/** What each line of the fsck means of the rows, on any store whatever, damaged ones included. */
module Fsck {
  import opened Bytes
  import opened Rows
  import opened Queries

  /** The row is under its own id and its event passes its check. */
  predicate Passing(check: RowCheck, s: State, id: ClaimHash) {
    id in s.claims && s.claims[id].art.id == id && check(s.claims[id].art)
  }

  /** What is wrong, in terms of the rows; a row that fails its check is looked at no further. */
  ghost predicate Wrong(check: RowCheck, s: State, p: Problem) {
    match p
    case FailsCheck(id) => id in s.claims && !Passing(check, s, id)
    case RedactedButHeld(id) => Passing(check, s, id) && s.claims[id].art.body.Some? && id in s.redactions
    case RefsDisagree(id) =>
      Passing(check, s, id)
      && s.claims[id].refs != (if s.claims[id].art.body.Some? then s.claims[id].art.body.value.refs else [])
    case BlobsDisagree(id) =>
      Passing(check, s, id)
      && s.claims[id].blobs != (if s.claims[id].art.body.Some? then s.claims[id].art.body.value.blobs else [])
    case MissingBacklink(id, t) =>
      Passing(check, s, id) && t in s.claims[id].refs && !(t in s.backlinks && id in s.backlinks[t])
    case MissingReferrer(id, b) =>
      Passing(check, s, id) && b in s.claims[id].blobs && !(b in s.referrers && id in s.referrers[b])
    case DuplicateArrival(log, n) => exists x, y :: SharesArrival(s, log, n, x, y)
    case PhantomBacklink(t, x) => t in s.backlinks && x in s.backlinks[t] && !(x in s.claims && t in s.claims[x].refs)
    case PhantomReferrer(b, x) => b in s.referrers && x in s.referrers[b] && !(x in s.claims && b in s.claims[x].blobs)
    case Unbacked(t, r) => t in s.redactions && s.redactions[t] == r && !Authorised(s, t, r)
  }

  predicate SharesArrival(s: State, log: LogId, n: nat, x: ClaimHash, y: ClaimHash) {
    && x != y && x in s.claims && y in s.claims && s.claims[x].art.log == log && s.claims[y].art.log == log
    && s.claims[x].arrival == n && s.claims[y].arrival == n
  }

  /** The redactor is here with a body that names the target as of its own log. */
  predicate Authorised(s: State, t: ClaimHash, r: ClaimHash) {
    && r in s.claims && s.claims[r].art.body.Some?
    && s.claims[r].art.body.value.redacts == Some(ClaimRef(s.claims[r].art.log, t))
  }

  predicate OfRow(p: Problem) {
    p.FailsCheck? || p.RedactedButHeld? || p.RefsDisagree? || p.BlobsDisagree? || p.MissingBacklink?
      || p.MissingReferrer?
  }

  lemma RowProblemMeans(check: RowCheck, s: State, id: ClaimHash, p: Problem)
    requires id in s.claims
    ensures p in RowProblems(check, s, id) ==> OfRow(p) && p.id == id
    ensures OfRow(p) && p.id == id ==> (p in RowProblems(check, s, id) <==> Wrong(check, s, p))
  {
  }

  lemma ArrivalProblemMeans(s: State, p: Problem)
    ensures p in ArrivalProblems(s) <==> p.DuplicateArrival? && exists x, y :: SharesArrival(s, p.log, p.arrival, x, y)
  {
    if p in ArrivalProblems(s) {
      var x, y :| x in s.claims && y in s.claims && x != y && s.claims[x].art.log == s.claims[y].art.log
                  && s.claims[x].arrival == s.claims[y].arrival
                  && p == DuplicateArrival(s.claims[x].art.log, s.claims[x].arrival);
      assert SharesArrival(s, p.log, p.arrival, x, y);
    }
    if p.DuplicateArrival? && exists x, y :: SharesArrival(s, p.log, p.arrival, x, y) {
      var x, y :| SharesArrival(s, p.log, p.arrival, x, y);
      assert p == DuplicateArrival(s.claims[x].art.log, s.claims[x].arrival);
    }
  }

  /**
   The fsck reports exactly what is wrong, line by line: nothing it reports is right,
   and nothing wrong goes unreported.
   */
  lemma ProblemMeans(check: RowCheck, s: State, p: Problem)
    ensures p in Problems(check, s) <==> Wrong(check, s, p)
  {
    hide RowProblems, ArrivalProblems;
    if OfRow(p) && p.id in s.claims {
      RowProblemMeans(check, s, p.id, p);
    }
    if id :| id in s.claims && p in RowProblems(check, s, id) {
      RowProblemMeans(check, s, id, p);
    }
    ArrivalProblemMeans(s, p);
    if p.Unbacked? {
      BackedIsAuthorised(s, p.target);
    }
  }

  lemma BackedIsAuthorised(s: State, t: ClaimHash)
    ensures t in s.redactions ==> (Backed(s, t) <==> Authorised(s, t, s.redactions[t]))
  {
  }
}
