/** The stub network: it keeps what it was seeded with until it is told an answer for it. */
module StubNetwork {
  import opened Domain
  import opened Protocol

  /** What was asked of the stub, oldest first. */
  datatype Call = Seeded(demands: seq<Demand>) | Submitted(ref: string, accepted: bool)

  /** The demands of other refs, in order. */
  function Others(pending: seq<Demand>, ref: string): seq<Demand> {
    if pending == [] then []
    else
      var n := |pending| - 1;
      Others(pending[..n], ref) + (if pending[n].ref != ref then [pending[n]] else [])
  }

  function PendingAfter(calls: seq<Call>): seq<Demand> {
    if calls == [] then []
    else
      var before := PendingAfter(calls[..|calls| - 1]);
      match calls[|calls| - 1]
      case Seeded(demands) => before + demands
      case Submitted(ref, _) => Others(before, ref)
  }

  function AnswersAfter(calls: seq<Call>): map<string, bool> {
    if calls == [] then map[]
    else
      var before := AnswersAfter(calls[..|calls| - 1]);
      match calls[|calls| - 1]
      case Seeded(_) => before
      case Submitted(ref, accepted) => before[ref := accepted]
  }

  class StubGateway {
    var pending: seq<Demand>
    var acknowledged: map<string, bool>
    ghost var calls: seq<Call>

    ghost predicate Valid()
      reads this
    {
      pending == PendingAfter(calls) && acknowledged == AnswersAfter(calls)
    }

    constructor ()
      ensures Valid() && calls == []
    {
      pending, acknowledged, calls := [], map[], [];
    }

    method Seed(demands: seq<Demand>)
      requires Valid()
      modifies this
      ensures Valid() && calls == old(calls) + [Seeded(demands)]
    {
      pending := pending + demands;
      calls := calls + [Seeded(demands)];
    }

    /** A copy of everything pending, whatever the watermark; polling retires nothing. */
    method PollDemand(since: Time) returns (out: seq<Demand>)
      requires Valid()
      ensures out == PendingAfter(calls)
    {
      out := pending;
    }

    method SubmitAcknowledgement(ref: string, accepted: bool)
      requires Valid()
      modifies this
      ensures Valid() && calls == old(calls) + [Submitted(ref, accepted)]
    {
      acknowledged := acknowledged[ref := accepted];
      pending := RemoveByRef(pending, ref);
      calls := calls + [Submitted(ref, accepted)];
    }

    method RemoveByRef(pending: seq<Demand>, ref: string) returns (out: seq<Demand>)
      ensures out == Others(pending, ref)
    {
      out := [];
      for i := 0 to |pending|
        invariant out == Others(pending[..i], ref)
      {
        assert pending[..i + 1][..i] == pending[..i];
        if pending[i].ref != ref { out := out + [pending[i]]; }
      }
      assert pending[..|pending|] == pending;
    }
  }

  lemma {:induction false} OthersExactly(pending: seq<Demand>, ref: string, d: Demand)
    ensures d in Others(pending, ref) <==> d in pending && d.ref != ref
  {
    if pending != [] {
      var n := |pending| - 1;
      OthersExactly(pending[..n], ref, d);
      assert pending == pending[..n] + [pending[n]];
    }
  }

  /** The demand was seeded and no answer for its ref came afterwards. */
  ghost predicate Waiting(calls: seq<Call>, d: Demand) {
    exists i :: SeededAt(calls, i, d) && forall j :: i < j < |calls| && calls[j].Submitted? ==> calls[j].ref != d.ref
  }

  ghost predicate SeededAt(calls: seq<Call>, i: int, d: Demand) {
    0 <= i < |calls| && calls[i].Seeded? && d in calls[i].demands
  }

  lemma WaitingSnoc(calls: seq<Call>, d: Demand)
    requires calls != []
    ensures var n := |calls| - 1;
      Waiting(calls, d) <==>
        SeededAt(calls, n, d) || (Waiting(calls[..n], d) && (calls[n].Submitted? ==> calls[n].ref != d.ref))
  {
    var n := |calls| - 1;
    if i :| SeededAt(calls[..n], i, d)
            && forall j :: i < j < n && calls[..n][j].Submitted? ==> calls[..n][j].ref != d.ref {
      assert SeededAt(calls, i, d);
      assert forall j :: i < j < n ==> calls[..n][j] == calls[j];
    }
    if i :| SeededAt(calls, i, d) && forall j :: i < j < |calls| && calls[j].Submitted? ==> calls[j].ref != d.ref {
      if i < n { assert SeededAt(calls[..n], i, d); }
    }
  }

  /** Pending is exactly what was seeded and not answered since; in particular an answer retires every unit of
      its ref, and a unit seeded again after its answer stays pending for good unless it is answered again. */
  lemma {:induction false} PendingExactly(calls: seq<Call>, d: Demand)
    ensures d in PendingAfter(calls) <==> Waiting(calls, d)
  {
    if calls != [] {
      var n := |calls| - 1;
      PendingExactly(calls[..n], d);
      WaitingSnoc(calls, d);
      match calls[n]
      case Seeded(demands) =>
      case Submitted(ref, _) => OthersExactly(PendingAfter(calls[..n]), ref, d);
    }
  }

  // ----- the stub as the network of the running system -----

  /** The answers the stub was sent, oldest first. */
  function Submissions(calls: seq<Call>): seq<Answer> {
    if calls == [] then []
    else
      Submissions(calls[..|calls| - 1])
      + match calls[|calls| - 1]
        case Seeded(_) => []
        case Submitted(ref, accepted) => [Answer(ref, accepted)]
  }

  /** The stub was seeded with all demand that arrived, and was sent exactly the answers that were submitted. */
  ghost predicate Mirrors(calls: seq<Call>, arrived: set<Arrival>, answers: seq<Answer>) {
    && Submissions(calls) == answers
    && forall a :: a in arrived ==> exists i :: SeededAt(calls, i, a.d)
  }

  lemma MirrorsSubmit(calls: seq<Call>, arrived: set<Arrival>, answers: seq<Answer>, ref: string, accepted: bool)
    requires Mirrors(calls, arrived, answers)
    ensures Mirrors(calls + [Submitted(ref, accepted)], arrived, answers + [Answer(ref, accepted)])
  {
    var calls' := calls + [Submitted(ref, accepted)];
    assert calls'[..|calls|] == calls;
    forall a | a in arrived ensures exists i :: SeededAt(calls', i, a.d) {
      var i :| SeededAt(calls, i, a.d);
      assert SeededAt(calls', i, a.d);
    }
  }

  lemma MirrorsSeed(calls: seq<Call>, arrived: set<Arrival>, answers: seq<Answer>, demands: seq<Demand>, now: Time)
    requires Mirrors(calls, arrived, answers)
    ensures Mirrors(calls + [Seeded(demands)], arrived + (set d | d in demands :: Arrival(d, now)), answers)
  {
    var calls' := calls + [Seeded(demands)];
    var arrived' := arrived + (set d | d in demands :: Arrival(d, now));
    assert calls'[..|calls|] == calls;
    forall a | a in arrived' ensures exists i :: SeededAt(calls', i, a.d) {
      if a in arrived {
        var i :| SeededAt(calls, i, a.d);
        assert SeededAt(calls', i, a.d);
      } else {
        assert SeededAt(calls', |calls|, a.d);
      }
    }
  }

  lemma {:induction false} SubmissionSent(calls: seq<Call>, j: nat)
    requires j < |calls| && calls[j].Submitted?
    ensures Answer(calls[j].ref, calls[j].accepted) in Submissions(calls)
  {
    if j < |calls| - 1 { SubmissionSent(calls[..|calls| - 1], j); }
  }

  /** Whatever arrived and was not answered is pending. */
  lemma UnansweredIsPending(calls: seq<Call>, arrived: set<Arrival>, answers: seq<Answer>, a: Arrival)
    requires Mirrors(calls, arrived, answers) && a in arrived
    requires forall i :: 0 <= i < |answers| ==> answers[i].ref != a.d.ref
    ensures a.d in PendingAfter(calls)
  {
    var i :| SeededAt(calls, i, a.d);
    forall j | i < j < |calls| && calls[j].Submitted? ensures calls[j].ref != a.d.ref {
      SubmissionSent(calls, j);
    }
    assert Waiting(calls, a.d);
    PendingExactly(calls, a.d);
  }

  /** The stub holds the verdict of every ref whose submitted answers all agree. */
  lemma {:induction false} VerdictHeld(calls: seq<Call>, ref: string, accepted: bool)
    requires Answer(ref, accepted) in Submissions(calls)
    requires forall a :: a in Submissions(calls) && a.ref == ref ==> a.accepted == accepted
    ensures ref in AnswersAfter(calls) && AnswersAfter(calls)[ref] == accepted
  {
    var n := |calls| - 1;
    var before := Submissions(calls[..n]);
    assert forall a :: a in before ==> a in Submissions(calls);
    if calls[n].Submitted? && calls[n].ref == ref {
      assert Answer(ref, calls[n].accepted) in Submissions(calls);
    } else {
      VerdictHeld(calls[..n], ref, accepted);
    }
  }
}
