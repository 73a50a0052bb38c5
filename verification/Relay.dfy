/** The outbox relay as a transition system: passes claim unpublished rows in id order, send each, mark it and
    commit; sends, marks and commits can fail, with or without effect, and a pass can be lost at any point. */
module Relay {
  import opened Protocol

  /** One message the broker holds: the outbox row it came from and its encoded content. */
  datatype Delivery = Delivery(id: nat, row: OutRow)

  /** A pass in progress: the claimed ids, how many of them are marked inside the transaction, and whether
      the next one has been sent; Stopping is a pass that ends on a failed send. */
  datatype Pass =
    | NoPass
    | Passing(claimed: seq<nat>, marked: nat, sent: bool)
    | Stopping(claimed: seq<nat>, marked: nat)

  /** `published` are the committed marks; `sent` remembers every row whose send ever reported success, `stops` how
      many sends reported a failure. */
  datatype RelayState = RelayState(published: set<nat>, sent: set<nat>, log: seq<Delivery>, stops: nat, pass: Pass)

  const INITIAL_RELAY := RelayState({}, {}, [], 0, NoPass)

  datatype RelayAction =
    | Claim(limit: nat)
    | Send(out: Outcome)
    | Mark(ok: bool)
    | CommitPass(out: Outcome)
    | CommitStopped(out: Outcome)
    | LosePass

  predicate Unsettled(outbox: seq<Slot>, published: set<nat>, i: nat) {
    i < |outbox| && outbox[i].committed && i !in published
  }

  /** The committed rows not yet marked published, oldest id first. */
  function Unpublished(outbox: seq<Slot>, published: set<nat>): (ids: seq<nat>)
    ensures forall k :: 0 <= k < |ids| ==> ids[k] < |outbox|
  {
    if outbox == [] then []
    else
      var n := |outbox| - 1;
      Unpublished(outbox[..n], published) + (if Unsettled(outbox, published, n) then [n] else [])
  }

  function ClaimedIds(outbox: seq<Slot>, published: set<nat>, limit: nat): seq<nat> {
    var ids := Unpublished(outbox, published);
    if |ids| <= limit then ids else ids[..limit]
  }

  predicate RelayEnabled(outbox: seq<Slot>, r: RelayState, a: RelayAction) {
    match a
    case Claim(_) => r.pass.NoPass?
    case Send(_) => r.pass.Passing? && !r.pass.sent && r.pass.marked < |r.pass.claimed|
                    && r.pass.claimed[r.pass.marked] < |outbox|
    case Mark(_) => r.pass.Passing? && r.pass.sent && r.pass.marked < |r.pass.claimed|
    case CommitPass(_) => r.pass.Passing? && !r.pass.sent && r.pass.marked == |r.pass.claimed|
    case CommitStopped(_) => r.pass.Stopping? && r.pass.marked <= |r.pass.claimed|
    case LosePass => true
  }

  function MarkedIds(claimed: seq<nat>, marked: nat): set<nat>
    requires marked <= |claimed|
  {
    set k | 0 <= k < marked :: claimed[k]
  }

  function RelayApply(outbox: seq<Slot>, r: RelayState, a: RelayAction): RelayState
    requires RelayEnabled(outbox, r, a)
  {
    match a
    case Claim(limit) => r.(pass := Passing(ClaimedIds(outbox, r.published, limit), 0, false))
    case Send(out) =>
      var id := r.pass.claimed[r.pass.marked];
      var r1 := if out.Effective() then r.(log := r.log + [Delivery(id, outbox[id].row)]) else r;
      if out.Done? then r1.(sent := r1.sent + {id}, pass := r.pass.(sent := true))
      else r1.(stops := r.stops + 1, pass := Stopping(r.pass.claimed, r.pass.marked))
    case Mark(ok) =>
      if ok then r.(pass := Passing(r.pass.claimed, r.pass.marked + 1, false)) else r.(pass := NoPass)
    case CommitPass(out) =>
      r.(published := if out.Effective() then r.published + MarkedIds(r.pass.claimed, r.pass.marked) else r.published,
         pass := NoPass)
    case CommitStopped(out) =>
      r.(published := if out.Effective() then r.published + MarkedIds(r.pass.claimed, r.pass.marked) else r.published,
         pass := NoPass)
    case LosePass => r.(pass := NoPass)
  }

  // ----- what the outbox's writers guarantee the relay -----

  predicate SameKey(outbox: seq<Slot>, i: nat, j: nat)
    requires i < |outbox| && j < |outbox|
  {
    outbox[i].row.ev.ref == outbox[j].row.ev.ref
  }

  /** Rows never change or disappear, and a row never commits below a committed row of its own key. */
  ghost predicate Grows(a: seq<Slot>, b: seq<Slot>) {
    && |a| <= |b|
    && (forall i :: 0 <= i < |a| ==> b[i].row == a[i].row && (a[i].committed ==> b[i].committed))
    && (forall i, j :: 0 <= i < j < |a| && a[j].committed && b[i].committed && SameKey(a, i, j) ==> a[i].committed)
    && (forall i :: |a| <= i < |b| ==> !b[i].committed)
  }

  // ----- invariant -----

  ghost predicate Delivered(log: seq<Delivery>, id: nat) {
    exists q :: 0 <= q < |log| && log[q].id == id
  }

  /** Every committed row of the same key below id has been sent. */
  ghost predicate PredecessorsSent(outbox: seq<Slot>, sent: set<nat>, id: nat)
    requires id < |outbox|
  {
    forall i :: 0 <= i < id && outbox[i].committed && SameKey(outbox, i, id) ==> i in sent
  }

  ghost predicate LogOk(outbox: seq<Slot>, r: RelayState) {
    && (forall i :: i in r.sent ==> Delivered(r.log, i))
    && (forall p :: 0 <= p < |r.log| ==>
          && r.log[p].id < |outbox|
          && outbox[r.log[p].id] == Slot(r.log[p].row, true)
          && PredecessorsSent(outbox, r.sent, r.log[p].id))
  }

  /** First deliveries of a key follow enqueue order. */
  ghost predicate InOrder(outbox: seq<Slot>, log: seq<Delivery>) {
    forall p, i | 0 <= p < |log| && 0 <= i < log[p].id < |outbox| && outbox[i].committed
                  && SameKey(outbox, i, log[p].id) ::
      Delivered(log[..p], i)
  }

  ghost predicate ClaimOk(outbox: seq<Slot>, r: RelayState, claimed: seq<nat>, marked: nat) {
    && marked <= |claimed|
    && (forall m :: 0 <= m < |claimed| ==> Unsettled(outbox, r.published, claimed[m]))
    && (forall m, n :: 0 <= m < n < |claimed| ==> claimed[m] < claimed[n])
    && (forall m :: 0 <= m < marked ==> claimed[m] in r.sent)
    && (forall m, i | 0 <= m < |claimed| && 0 <= i < claimed[m] && Unsettled(outbox, r.published, i)
                      && SameKey(outbox, i, claimed[m]) :: i in claimed[..m])
  }

  ghost predicate PassOk(outbox: seq<Slot>, r: RelayState) {
    match r.pass
    case NoPass => true
    case Passing(claimed, marked, sent) =>
      && ClaimOk(outbox, r, claimed, marked)
      && (sent ==> marked < |claimed| && claimed[marked] in r.sent)
    case Stopping(claimed, marked) => ClaimOk(outbox, r, claimed, marked)
  }

  ghost predicate RelayOk(outbox: seq<Slot>, r: RelayState) {
    && r.published <= r.sent
    && (forall i :: i in r.sent ==> i < |outbox| && outbox[i].committed)
    && LogOk(outbox, r)
    && InOrder(outbox, r.log)
    && PassOk(outbox, r)
  }

  lemma {:induction false} UnpublishedExactly(outbox: seq<Slot>, published: set<nat>)
    ensures var ids := Unpublished(outbox, published);
      && (forall i: nat :: i in ids <==> Unsettled(outbox, published, i))
      && (forall k, l :: 0 <= k < l < |ids| ==> ids[k] < ids[l])
  {
    if outbox != [] {
      var n := |outbox| - 1;
      UnpublishedExactly(outbox[..n], published);
      var ids := Unpublished(outbox[..n], published);
      forall i: nat ensures i in Unpublished(outbox, published) <==> Unsettled(outbox, published, i) {
        if i < n {
          assert i in ids <==> Unsettled(outbox[..n], published, i);
        } else {
          assert i !in ids;
        }
      }
    }
  }

  /** Other processes' inserts and commits do not disturb the relay. */
  lemma RelayFrame(a: seq<Slot>, b: seq<Slot>, r: RelayState)
    requires RelayOk(a, r) && Grows(a, b)
    ensures RelayOk(b, r)
  {
    forall p | 0 <= p < |r.log| ensures PredecessorsSent(b, r.sent, r.log[p].id) {
      assert PredecessorsSent(a, r.sent, r.log[p].id);
    }
    if !r.pass.NoPass? {
      ClaimFrame(a, b, r, r.pass.claimed, r.pass.marked);
    }
  }

  lemma ClaimFrame(a: seq<Slot>, b: seq<Slot>, r: RelayState, claimed: seq<nat>, marked: nat)
    requires ClaimOk(a, r, claimed, marked) && Grows(a, b)
    ensures ClaimOk(b, r, claimed, marked)
  {
    forall m, i | 0 <= m < |claimed| && 0 <= i < claimed[m] && Unsettled(b, r.published, i) && SameKey(b, i, claimed[m])
      ensures i in claimed[..m]
    {
      assert Unsettled(a, r.published, claimed[m]);
      assert Unsettled(a, r.published, i);
    }
  }

  lemma ClaimKeeps(outbox: seq<Slot>, r: RelayState, limit: nat)
    requires RelayOk(outbox, r) && RelayEnabled(outbox, r, Claim(limit))
    ensures RelayOk(outbox, RelayApply(outbox, r, Claim(limit)))
  {
    UnpublishedExactly(outbox, r.published);
    var ids := Unpublished(outbox, r.published);
    var claimed := ClaimedIds(outbox, r.published, limit);
    forall m, i | 0 <= m < |claimed| && 0 <= i < claimed[m] && Unsettled(outbox, r.published, i)
      ensures i in claimed[..m]
    {
      assert i in ids;
      var k :| 0 <= k < |ids| && ids[k] == i;
      assert k < m;
      assert claimed[..m][k] == i;
    }
    forall m | 0 <= m < |claimed| ensures Unsettled(outbox, r.published, claimed[m]) {
      assert claimed[m] in ids;
    }
  }

  /** Whatever row a pass is about to send, every earlier row of its key was already sent successfully. */
  lemma SendOrder(outbox: seq<Slot>, r: RelayState, out: Outcome)
    requires RelayOk(outbox, r) && RelayEnabled(outbox, r, Send(out))
    ensures PredecessorsSent(outbox, r.sent, r.pass.claimed[r.pass.marked])
  {
    var claimed, m := r.pass.claimed, r.pass.marked;
    forall i | 0 <= i < claimed[m] && outbox[i].committed && SameKey(outbox, i, claimed[m])
      ensures i in r.sent
    {
      if i !in r.published {
        assert Unsettled(outbox, r.published, i);
        assert i in claimed[..m];
      }
    }
  }

  lemma SendKeeps(outbox: seq<Slot>, r: RelayState, out: Outcome)
    requires RelayOk(outbox, r) && RelayEnabled(outbox, r, Send(out))
    ensures RelayOk(outbox, RelayApply(outbox, r, Send(out)))
  {
    SendOrder(outbox, r, out);
    var r' := RelayApply(outbox, r, Send(out));
    var id := r.pass.claimed[r.pass.marked];
    assert Unsettled(outbox, r.published, id);
    if out.Effective() {
      assert r'.log[..|r.log|] == r.log;
      forall i | Delivered(r.log, i) ensures Delivered(r'.log, i) {
        var q :| 0 <= q < |r.log| && r.log[q].id == i;
        assert r'.log[q].id == i;
      }
      assert r'.log[|r.log|].id == id;
      forall p, i | 0 <= p < |r'.log| && 0 <= i < r'.log[p].id && outbox[i].committed
                    && SameKey(outbox, i, r'.log[p].id)
        ensures Delivered(r'.log[..p], i)
      {
        if p < |r.log| {
          assert r'.log[..p] == r.log[..p];
        }
      }
    }
  }

  lemma RelayStepKeeps(outbox: seq<Slot>, r: RelayState, a: RelayAction)
    requires RelayOk(outbox, r) && RelayEnabled(outbox, r, a)
    ensures RelayOk(outbox, RelayApply(outbox, r, a))
  {
    match a
    case Claim(limit) => ClaimKeeps(outbox, r, limit);
    case Send(out) => SendKeeps(outbox, r, out);
    case _ =>
  }

  // ----- a pass that a failed send stopped -----

  lemma MarkedAreFirst(claimed: seq<nat>, marked: nat, i: nat)
    requires marked <= |claimed|
    ensures i in MarkedIds(claimed, marked) <==> i in claimed[..marked]
  {
    if k :| 0 <= k < marked && claimed[..marked][k] == i { assert claimed[k] == i; }
  }

  lemma RestApart(claimed: seq<nat>, marked: nat, i: nat)
    requires marked <= |claimed| && i in claimed[marked..]
    requires forall m, n :: 0 <= m < n < |claimed| ==> claimed[m] < claimed[n]
    ensures i !in claimed[..marked] && i in claimed
  {
    var k :| 0 <= k < |claimed[marked..]| && claimed[marked..][k] == i;
    assert claimed[marked + k] == i;
  }

  /** Once the commit of a stopped pass took effect, exactly the rows marked before the failure have become
      published: they are the ones what is pending loses, each of them was sent, and the row whose send failed is
      still pending with all that were claimed behind it. If the commit was lost, nothing has changed. */
  lemma StoppedPassKeepsMarks(outbox: seq<Slot>, r: RelayState, out: Outcome)
    requires RelayOk(outbox, r) && RelayEnabled(outbox, r, CommitStopped(out))
    ensures var r' := RelayApply(outbox, r, CommitStopped(out));
      var kept := if out.Effective() then r.pass.claimed[..r.pass.marked] else [];
      && r'.pass.NoPass? && r'.log == r.log
      && (forall i: nat :: i in r'.published <==> i in r.published || i in kept)
      && (forall i: nat :: i in Unpublished(outbox, r'.published) <==>
            i in Unpublished(outbox, r.published) && i !in kept)
      && (forall i: nat :: i in kept ==> i in Unpublished(outbox, r.published) && i in r.sent)
      && (forall i: nat :: i in r.pass.claimed[r.pass.marked..] ==> i in Unpublished(outbox, r'.published))
  {
    var claimed, marked := r.pass.claimed, r.pass.marked;
    var r' := RelayApply(outbox, r, CommitStopped(out));
    UnpublishedExactly(outbox, r.published);
    UnpublishedExactly(outbox, r'.published);
    forall i: nat ensures i in MarkedIds(claimed, marked) <==> i in claimed[..marked] {
      MarkedAreFirst(claimed, marked, i);
    }
    forall i: nat | i in claimed[marked..] ensures i !in claimed[..marked] && i in claimed {
      RestApart(claimed, marked, i);
    }
  }

  // ----- drain -----

  lemma {:induction false} SameIncreasing(a: seq<nat>, b: seq<nat>)
    requires forall k, l :: 0 <= k < l < |a| ==> a[k] < a[l]
    requires forall k, l :: 0 <= k < l < |b| ==> b[k] < b[l]
    requires forall i: nat :: i in a <==> i in b
    ensures a == b
  {
    if a != [] { assert a[|a| - 1] in b; }
    if b != [] { assert b[|b| - 1] in a; }
    if a != [] && b != [] {
      var a', b' := a[..|a| - 1], b[..|b| - 1];
      forall i: nat ensures i in a' <==> i in b' {
        assert i in a' <==> i in a && i != a[|a| - 1];
        assert i in b' <==> i in b && i != b[|b| - 1];
      }
      SameIncreasing(a', b');
    }
  }

  /** Publishing the first k unpublished rows leaves exactly the others, in the same order. */
  lemma PublishPrefix(outbox: seq<Slot>, published: set<nat>, k: nat)
    requires k <= |Unpublished(outbox, published)|
    ensures var ids := Unpublished(outbox, published);
      Unpublished(outbox, published + MarkedIds(ids, k)) == ids[k..]
  {
    var ids := Unpublished(outbox, published);
    var published' := published + MarkedIds(ids, k);
    UnpublishedExactly(outbox, published);
    UnpublishedExactly(outbox, published');
    forall i: nat ensures i in Unpublished(outbox, published') <==> i in ids[k..] {
      if i in ids {
        var j :| 0 <= j < |ids| && ids[j] == i;
        if j >= k { assert ids[k..][j - k] == i; }
      }
    }
    SameIncreasing(Unpublished(outbox, published'), ids[k..]);
  }
}
