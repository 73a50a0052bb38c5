/** The outbox relay's code: one pass over the unpublished rows on the running system. */
module RelayWorker {
  import opened Protocol
  import opened Relay
  import opened Pipeline
  import opened Guarantees
  import opened World

  lemma UnpublishedPrefix(outbox: seq<Slot>, published: set<nat>, i: nat)
    requires i <= |outbox|
    ensures Unpublished(outbox[..i], published) <= Unpublished(outbox, published)
    decreases |outbox|
  {
    if i == |outbox| {
      assert outbox[..i] == outbox;
    } else {
      var n := |outbox| - 1;
      UnpublishedPrefix(outbox[..n], published, i);
      assert outbox[..n][..i] == outbox[..i];
    }
  }

  /** What a pass reports: how many rows it published, and whether it ended in an error. */
  datatype PassResult = PassResult(published: nat, failed: bool)

  /** What a pass without an error does to an outbox it saw: it takes min(pending, batch size) rows off the front. */
  predicate TookBatch(outbox: seq<Slot>, published: set<nat>, published': set<nat>, batchSize: nat) {
    var pending := Unpublished(outbox, published);
    Unpublished(outbox, published') == pending[Min(|pending|, batchSize)..]
  }

  /** Exactly the rows claimed before the failed send were added to what is published. */
  predicate KeepsMarks(published: set<nat>, published': set<nat>, claimed: seq<nat>, marked: nat)
    requires marked <= |claimed|
  {
    published' == published + set k | 0 <= k < marked :: claimed[k]
  }

  class OutboxRelay {
    const w: Runtime
    const batchSize: nat

    constructor (w: Runtime, batchSize: nat)
      ensures this.w == w && this.batchSize == batchSize
    {
      this.w, this.batchSize := w, batchSize;
    }

    /** Pass after pass, at once after a full batch without an error and otherwise after a pause, until we are
        stopped; `passes` bounds how many. What is published stays published. When nothing fails and nothing is
        added, every pass takes a batch off what is pending, and there is no pause before it is empty. */
    method Run(passes: nat) returns (ghost pauses: nat)
      requires w.Valid() && w.s.r.pass.NoPass?
      modifies w
      ensures w.Valid() && old(w.trace) <= w.trace && w.s.r.pass.NoPass?
      ensures old(w.s.r.published) <= w.s.r.published
      ensures w.calm && w.s.p.outbox == old(w.s.p.outbox) ==>
                && (pauses > 0 ==> Unpublished(w.s.p.outbox, w.s.r.published) == [])
                && (batchSize > 0 && passes >= |Unpublished(w.s.p.outbox, old(w.s.r.published))| ==>
                      Unpublished(w.s.p.outbox, w.s.r.published) == [])
    {
      pauses := 0;
      ghost var k := |w.trace| - 1;
      for i := 0 to passes
        invariant w.Valid() && old(w.trace) <= w.trace && w.s.r.pass.NoPass?
        invariant old(w.s.r.published) <= w.s.r.published
        invariant w.calm && w.s.p.outbox == old(w.s.p.outbox) ==>
                    Draining(w.s.p.outbox, old(w.s.r.published), w.s.r.published, batchSize, i, pauses)
      {
        ghost var m, published := |w.trace| - 1, w.s.r.published;
        var paused := PassAndPause();
        if w.s.p.outbox == old(w.s.p.outbox) {
          NothingAdded(w.bound, w.trace, k, m, |w.trace| - 1);
          if w.calm {
            DrainOn(w.s.p.outbox, old(w.s.r.published), published, w.s.r.published, batchSize, i, pauses);
          }
        }
        if paused { pauses := pauses + 1; }
      }
    }

    /** One pass; the pause after it is left out exactly after a full batch without an error. */
    method PassAndPause() returns (ghost paused: bool)
      requires w.Valid() && w.s.r.pass.NoPass?
      modifies w
      ensures w.Valid() && old(w.trace) <= w.trace && w.s.r.pass.NoPass?
      ensures old(w.s.r.published) <= w.s.r.published
      ensures w.calm && w.s.p.outbox == old(w.s.p.outbox) ==>
                && TookBatch(w.s.p.outbox, old(w.s.r.published), w.s.r.published, batchSize)
                && (paused <==> |Unpublished(w.s.p.outbox, old(w.s.r.published))| < batchSize)
    {
      ghost var k := |w.trace| - 1;
      var res, _, _ := RelayOnce();
      if res.published == batchSize && !res.failed { return false; }
      ghost var m := |w.trace| - 1;
      w.Interfere(Relayer);
      if w.s.p.outbox == old(w.s.p.outbox) { NothingAdded(w.bound, w.trace, k, m, |w.trace| - 1); }
      return true;
    }

    /** One pass over the oldest unpublished rows of the outbox in some state the pass went through. Without an
        error all of them were sent and are now marked published, so what was pending then loses exactly them.
        With one, the marks made durable are none, or exactly those of the rows before the failure, and the rest
        stays unpublished; a pass that never got to its claim has claimed nothing. When nothing fails there is no
        error. When commits land, a failed send costs nothing but its own row and those behind it: the marks before
        it are durable. */
    method RelayOnce() returns (res: PassResult, ghost claimed: seq<nat>, ghost at: nat)
      requires w.Valid() && w.s.r.pass.NoPass?
      modifies w
      ensures w.Valid() && old(w.trace) <= w.trace && w.s.r.pass.NoPass?
      ensures |old(w.trace)| - 1 <= at < |w.trace|
      ensures |claimed| <= batchSize && res.published <= |claimed|
      ensures || claimed == ClaimedIds(w.trace[at].p.outbox, old(w.s.r.published), batchSize)
              || (res.failed && claimed == [])
      ensures if !res.failed then
                && res.published == |claimed|
                && w.s.r.published == old(w.s.r.published) + MarkedIds(claimed, |claimed|)
                && TookBatch(w.trace[at].p.outbox, old(w.s.r.published), w.s.r.published, batchSize)
                && (w.s.p.outbox == old(w.s.p.outbox) ==>
                      TookBatch(w.s.p.outbox, old(w.s.r.published), w.s.r.published, batchSize)
                      && res.published == Min(|Unpublished(w.s.p.outbox, old(w.s.r.published))|, batchSize))
              else
                || w.s.r.published == old(w.s.r.published)
                || w.s.r.published == old(w.s.r.published) + MarkedIds(claimed, res.published)
      ensures old(w.s.r.stops) <= w.s.r.stops <= old(w.s.r.stops) + 1
      ensures w.landing && w.s.r.stops > old(w.s.r.stops) ==>
                && res.failed && claimed == ClaimedIds(w.trace[at].p.outbox, old(w.s.r.published), batchSize)
                && res.published < |claimed|
                && KeepsMarks(old(w.s.r.published), w.s.r.published, claimed, res.published)
      ensures MarkedIds(claimed, res.published) <= w.s.r.sent
      ensures |w.s.r.log| >= |old(w.s.r.log)| + res.published
      ensures w.calm ==> !res.failed
    {
      claimed, at := [], |w.trace| - 1;
      ghost var k := |w.trace| - 1;
      var begun: bool := *;
      if !begun && !w.calm { return PassResult(0, true), claimed, at; }
      var ok, batch := ClaimOutboxRows();
      if !ok { return PassResult(0, true), claimed, at; }
      claimed, at := batch, |w.trace| - 1;
      res := PublishBatch(batch);
      if !res.failed { BatchTaken(k, at, old(w.s.r.published), batch); }
    }

    /** A batch claimed at one point of the trace was taken off what was pending there, and off what is pending if
        nothing was added meanwhile. */
    lemma BatchTaken(k: nat, at: nat, published: set<nat>, claimed: seq<nat>)
      requires w.Valid() && k <= at < |w.trace|
      requires claimed == ClaimedIds(w.trace[at].p.outbox, published, batchSize)
      requires w.s.r.published == published + MarkedIds(claimed, |claimed|)
      ensures TookBatch(w.trace[at].p.outbox, published, w.s.r.published, batchSize)
      ensures w.s.p.outbox == w.trace[k].p.outbox ==>
                && TookBatch(w.s.p.outbox, published, w.s.r.published, batchSize)
                && |claimed| == Min(|Unpublished(w.s.p.outbox, published)|, batchSize)
    {
      PassDrains(w.trace[at].p.outbox, published, batchSize);
      if w.s.p.outbox == w.trace[k].p.outbox { NothingAdded(w.bound, w.trace, k, at, |w.trace| - 1); }
    }

    /** The oldest unpublished rows, at most a batch of them. */
    method ClaimOutboxRows() returns (ok: bool, batch: seq<nat>)
      requires w.Valid() && w.s.r.pass.NoPass?
      modifies w
      ensures w.Valid() && old(w.trace) <= w.trace
      ensures |batch| <= batchSize
      ensures w.s.r == if ok then old(w.s.r).(pass := Passing(batch, 0, false)) else old(w.s.r)
      ensures ok ==> batch == ClaimedIds(w.s.p.outbox, w.s.r.published, batchSize)
      ensures w.calm ==> ok
    {
      w.Interfere(Relayer);
      ok := *;
      ok := ok || w.calm;
      batch := [];
      if !ok { return; }
      batch := SelectRows(w.s.p.outbox, w.s.r.published);
      w.Do(OfRelay(Claim(batchSize)));
    }

    /** The rows that are visible and unpublished, by id, at most a batch of them. */
    method SelectRows(outbox: seq<Slot>, published: set<nat>) returns (batch: seq<nat>)
      ensures batch == ClaimedIds(outbox, published, batchSize)
    {
      batch := [];
      var i := 0;
      while i < |outbox| && |batch| < batchSize
        invariant 0 <= i <= |outbox| && |batch| <= batchSize
        invariant batch == Unpublished(outbox[..i], published)
      {
        assert outbox[..i + 1][..i] == outbox[..i];
        if Unsettled(outbox, published, i) { batch := batch + [i]; }
        i := i + 1;
      }
      UnpublishedPrefix(outbox, published, i);
      assert outbox[..|outbox|] == outbox;
    }

    /** Sends each claimed row in order and marks it; the first failed send ends the pass. */
    method PublishBatch(batch: seq<nat>) returns (res: PassResult)
      requires w.Valid() && w.s.r.pass == Passing(batch, 0, false)
      modifies w
      ensures w.Valid() && old(w.trace) <= w.trace && w.s.r.pass.NoPass?
      ensures res.published <= |batch|
      ensures if !res.failed then
                res.published == |batch| && w.s.r.published == old(w.s.r.published) + MarkedIds(batch, |batch|)
              else
                || w.s.r.published == old(w.s.r.published)
                || w.s.r.published == old(w.s.r.published) + MarkedIds(batch, res.published)
      ensures old(w.s.r.stops) <= w.s.r.stops <= old(w.s.r.stops) + 1
      ensures w.landing && w.s.r.stops > old(w.s.r.stops) ==>
                && res.failed && res.published < |batch|
                && KeepsMarks(old(w.s.r.published), w.s.r.published, batch, res.published)
      ensures MarkedIds(batch, res.published) <= w.s.r.sent
      ensures |w.s.r.log| >= |old(w.s.r.log)| + res.published
      ensures w.calm ==> !res.failed
    {
      for published := 0 to |batch|
        invariant w.Valid() && old(w.trace) <= w.trace
        invariant w.s.r.pass == Passing(batch, published, false)
        invariant w.s.r.published == old(w.s.r.published) && w.s.r.stops == old(w.s.r.stops)
        invariant MarkedIds(batch, published) <= w.s.r.sent
        invariant |w.s.r.log| >= |old(w.s.r.log)| + published
      {
        var ok := Send();
        if !ok {
          RecordSendFailure();
          return PassResult(published, true);
        }
        ok := MarkPublished();
        if !ok { return PassResult(published, true); }
      }
      w.Interfere(Relayer);
      var out: Outcome := *;
      if w.calm { out := Done; }
      if w.landing && out.FailedNotDone? { out := FailedDone; }
      w.Do(OfRelay(CommitPass(out)));
      res := PassResult(|batch|, !out.Done?);
    }

    method Send() returns (ok: bool)
      requires w.Valid() && w.s.r.pass.Passing? && !w.s.r.pass.sent && w.s.r.pass.marked < |w.s.r.pass.claimed|
      modifies w
      ensures w.Valid() && old(w.trace) <= w.trace && w.s.r.published == old(w.s.r.published)
      ensures old(w.s.r.log) <= w.s.r.log && old(w.s.r.sent) <= w.s.r.sent
      ensures var v := old(w.s.r.pass);
        if ok then
          && w.s.r.pass == v.(sent := true) && v.claimed[v.marked] in w.s.r.sent
          && |w.s.r.log| == |old(w.s.r.log)| + 1 && w.s.r.log[|old(w.s.r.log)|].id == v.claimed[v.marked]
        else w.s.r.pass == Stopping(v.claimed, v.marked)
      ensures w.s.r.stops == old(w.s.r.stops) + (if ok then 0 else 1)
      ensures w.calm ==> ok
    {
      w.Interfere(Relayer);
      NextExists();
      var out: Outcome := *;
      if w.calm { out := Done; }
      w.Do(OfRelay(Relay.Send(out)));
      ok := out.Done?;
    }

    /** The mark is part of the pass's transaction; if it fails, the whole pass is rolled back. */
    method MarkPublished() returns (ok: bool)
      requires w.Valid() && w.s.r.pass.Passing? && w.s.r.pass.sent && w.s.r.pass.marked < |w.s.r.pass.claimed|
      modifies w
      ensures w.Valid() && old(w.trace) <= w.trace
      ensures var v := old(w.s.r.pass);
        w.s.r == old(w.s.r).(pass := if ok then Passing(v.claimed, v.marked + 1, false) else NoPass)
      ensures w.calm ==> ok
    {
      w.Interfere(Relayer);
      ok := *;
      ok := ok || w.calm;
      w.Do(OfRelay(Mark(ok)));
    }

    /** After a failed send the pass commits, so that the marks before it are kept; and they are, when commits
        land. */
    method RecordSendFailure()
      requires w.Valid() && w.s.r.pass.Stopping? && w.s.r.pass.marked <= |w.s.r.pass.claimed|
      modifies w
      ensures w.Valid() && old(w.trace) <= w.trace && w.s.r.pass.NoPass?
      ensures w.s.r.log == old(w.s.r.log) && w.s.r.sent == old(w.s.r.sent) && w.s.r.stops == old(w.s.r.stops)
      ensures var v := old(w.s.r.pass);
        || w.s.r.published == old(w.s.r.published)
        || w.s.r.published == old(w.s.r.published) + MarkedIds(v.claimed, v.marked)
      ensures var v := old(w.s.r.pass);
        w.landing ==> KeepsMarks(old(w.s.r.published), w.s.r.published, v.claimed, v.marked)
    {
      w.Interfere(Relayer);
      var out: Outcome := *;
      if w.calm { out := Done; }
      if w.landing && out.FailedNotDone? { out := FailedDone; }
      w.Do(OfRelay(CommitStopped(out)));
    }

    /** The row to be sent next is in the outbox. */
    lemma NextExists()
      requires w.Valid() && w.s.r.pass.Passing? && w.s.r.pass.marked < |w.s.r.pass.claimed|
      ensures w.s.r.pass.claimed[w.s.r.pass.marked] < |w.s.p.outbox|
    {
      w.StateOk();
      assert Unsettled(w.s.p.outbox, w.s.r.published, w.s.r.pass.claimed[w.s.r.pass.marked]);
    }
  }

  function Min(a: nat, b: nat): nat { if a <= b then a else b }

  /** With no new rows, a pass without an error takes min(pending, batch size) off what is pending, from the
      front; so passes that follow each other immediately come to an end whenever the batch size is positive. */
  lemma PassDrains(outbox: seq<Slot>, published: set<nat>, batchSize: nat)
    ensures var before := Unpublished(outbox, published);
            var claimed := ClaimedIds(outbox, published, batchSize);
            var after := Unpublished(outbox, published + MarkedIds(claimed, |claimed|));
      && after == before[Min(|before|, batchSize)..]
      && (|claimed| == batchSize && batchSize > 0 ==> |after| < |before|)
      && (|claimed| < batchSize ==> after == [])
  {
    var before := Unpublished(outbox, published);
    var k := Min(|before|, batchSize);
    PublishPrefix(outbox, published, k);
    assert MarkedIds(before, k) == MarkedIds(ClaimedIds(outbox, published, batchSize), k);
  }

  /** The marks after n passes without an error over an outbox nobody adds to. */
  function PublishedAfter(outbox: seq<Slot>, published: set<nat>, batchSize: nat, n: nat): set<nat> {
    if n == 0 then published
    else
      var before := PublishedAfter(outbox, published, batchSize, n - 1);
      var claimed := ClaimedIds(outbox, before, batchSize);
      before + MarkedIds(claimed, |claimed|)
  }

  /** Whatever waits in the outbox, that many passes empty it, as long as the batch size is positive. */
  lemma {:induction false} Drained(outbox: seq<Slot>, published: set<nat>, batchSize: nat, n: nat)
    requires batchSize > 0
    ensures var before := |Unpublished(outbox, published)|;
            var after := |Unpublished(outbox, PublishedAfter(outbox, published, batchSize, n))|;
      if n < before then after <= before - n else after == 0
  {
    if n > 0 {
      Drained(outbox, published, batchSize, n - 1);
      PassDrains(outbox, PublishedAfter(outbox, published, batchSize, n - 1), batchSize);
    }
  }

  /** Where i passes without an error over an outbox nobody adds to have got. */
  predicate Draining(outbox: seq<Slot>, start: set<nat>, published: set<nat>, batchSize: nat, i: nat, pauses: nat) {
    var before, after := |Unpublished(outbox, start)|, |Unpublished(outbox, published)|;
    && (pauses > 0 ==> after == 0)
    && (batchSize > 0 ==> after <= if i < before then before - i else 0)
  }

  lemma DrainOn(outbox: seq<Slot>, start: set<nat>, published: set<nat>, published': set<nat>, batchSize: nat,
                i: nat, pauses: nat)
    requires Draining(outbox, start, published, batchSize, i, pauses)
    requires TookBatch(outbox, published, published', batchSize)
    ensures Draining(outbox, start, published', batchSize, i + 1, pauses)
    ensures |Unpublished(outbox, published)| < batchSize ==>
              Draining(outbox, start, published', batchSize, i + 1, pauses + 1)
  {
  }
}
