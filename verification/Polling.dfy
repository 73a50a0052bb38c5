/** The poller: it asks the network for demand from a watermark on, hands each unit to the receive use case, and
    moves the watermark only after a pass in which everything went through. */
module Polling {
  import opened Domain
  import opened Protocol
  import opened ProtocolInvariant
  import opened History
  import opened Pipeline
  import opened Guarantees
  import opened Convergence
  import opened World
  import opened StubNetwork
  import opened ReceiveDemand

  // ----- time and arrivals along a run -----

  /** Time does not go back, demand that arrived stays arrived, and what arrives later arrives at a later time. */
  predicate Later(a: Proto, b: Proto) {
    && a.now <= b.now
    && a.arrived <= b.arrived
    && forall x | x in b.arrived :: x in a.arrived || a.now <= x.at
  }

  lemma ActionLater(bound: Time, p: Proto, a: Action)
    requires Enabled(bound, p, a)
    ensures Later(p, Apply(bound, p, a))
  {
  }

  lemma StepLater(bound: Time, s: Sys, s': Sys)
    requires Follows(bound, s, s')
    ensures Later(s.p, s'.p)
  {
    var st :| CanStep(bound, s, st) && s' == TakeStep(bound, s, st);
    if st.OfProtocol? { ActionLater(bound, s.p, st.a); }
  }

  lemma {:induction false} LaterThrough(ps: seq<Proto>, i: nat, j: nat)
    requires forall k :: 0 <= k < |ps| - 1 ==> Later(ps[k], ps[k + 1])
    requires i <= j < |ps|
    ensures Later(ps[i], ps[j])
  {
    if i < j {
      LaterThrough(ps, i, j - 1);
      assert Later(ps[j - 1], ps[j - 1 + 1]);
    }
  }

  lemma RunLater(bound: Time, tr: seq<Sys>, i: nat, j: nat)
    requires Run(bound, tr) && i <= j < |tr|
    ensures Later(tr[i].p, tr[j].p)
  {
    var ps := seq(|tr|, k requires 0 <= k < |tr| => tr[k].p);
    forall k | 0 <= k < |ps| - 1 ensures Later(ps[k], ps[k + 1]) {
      assert Follows(bound, tr[k], tr[k + 1]);
      StepLater(bound, tr[k], tr[k + 1]);
    }
    LaterThrough(ps, i, j);
  }

  /** Every unit that arrived in [start, since) has a row. */
  predicate WatermarkSafe(p: Proto, start: Time, since: Time) {
    forall a | a in p.arrived :: start <= a.at < since ==> a.d.ref in p.table
  }

  /** A watermark that is not ahead of the clock stays safe whatever happens. */
  lemma SafeLater(bound: Time, tr: seq<Sys>, i: nat, j: nat, start: Time, since: Time)
    requires Run(bound, tr) && bound <= ACKNOWLEDGEMENT_WINDOW && i <= j < |tr|
    requires WatermarkSafe(tr[i].p, start, since) && (since <= tr[i].p.now || since <= start)
    ensures WatermarkSafe(tr[j].p, start, since)
  {
    RunLater(bound, tr, i, j);
    forall a | a in tr[j].p.arrived && start <= a.at < since ensures a.d.ref in tr[j].p.table {
      RowsStand(bound, tr, i, j, a.d.ref);
    }
  }

  // ----- what a gateway must return -----

  /** The unit is due: it arrived at or after the watermark and was not answered yet. */
  predicate Due(p: Proto, since: Time, a: Arrival) {
    a in p.arrived && since <= a.at && !HasAnswer(p.network, a.d.ref)
  }

  predicate Complete(p: Proto, since: Time, demands: seq<Demand>) {
    forall a | a in p.arrived :: Due(p, since, a) ==> a.d in demands
  }

  /** The stub never withholds a unit that is due. */
  lemma StubIsComplete(p: Proto, since: Time, calls: seq<Call>)
    requires Mirrors(calls, p.arrived, p.network.answers)
    ensures Complete(p, since, PendingAfter(calls))
  {
    forall a | Due(p, since, a) ensures a.d in PendingAfter(calls) {
      UnansweredIsPending(calls, p.arrived, p.network.answers, a);
    }
  }

  /** The network's inbound side: the stub, or any network that may return anything as long as nothing that is due
      is missing. */
  class Gateway {
    const w: Runtime
    const stub: StubGateway?
    /** What it returned, oldest first. */
    ghost var returned: seq<Result<seq<Demand>>>

    constructor (w: Runtime, stub: StubGateway?)
      ensures this.w == w && this.stub == stub && returned == []
    {
      this.w, this.stub, returned := w, stub, [];
    }

    method PollDemand(since: Time) returns (r: Result<seq<Demand>>)
      requires w.Valid() && w.s.p.exec.Idle?
      requires stub != null ==> w.calm && stub.Valid() && Mirrors(stub.calls, w.s.p.arrived, w.s.p.network.answers)
      modifies w, this
      ensures w.Valid() && old(w.trace) <= w.trace && Kept(Receiver, old(w.s), w.s)
      ensures w.calm ==> w.s.p.arrived == old(w.s.p.arrived) && r.Ok?
      ensures Quiet(old(w.s.p)) ==> SameFacts(old(w.s.p), w.s.p)
      ensures r.Ok? ==> Complete(w.s.p, since, r.value)
      ensures stub != null ==> r == Ok(stub.pending)
      ensures returned == old(returned) + [r]
    {
      w.Interfere(Receiver);
      if stub != null {
        StubIsComplete(w.s.p, since, stub.calls);
        var pending := stub.PollDemand(since);
        r := Ok(pending);
      } else {
        r := Poll(since);
      }
      returned := returned + [r];
    }

    /** Demand enters the closed loop: it arrives, and the stub has it pending. */
    method Seed(demands: seq<Demand>)
      requires w.Valid() && stub != null && w.calm && w.s.p.exec.Idle?
      requires stub.Valid() && Mirrors(stub.calls, w.s.p.arrived, w.s.p.network.answers)
      modifies w, stub
      ensures w.Valid() && old(w.trace) <= w.trace && Kept(Receiver, old(w.s), w.s)
      ensures SameFacts(old(w.s.p), w.s.p)
      ensures stub.Valid() && Mirrors(stub.calls, w.s.p.arrived, w.s.p.network.answers)
      ensures stub.calls == old(stub.calls) + [Seeded(demands)]
    {
      for i := 0 to |demands|
        modifies w
        invariant w.Valid() && old(w.trace) <= w.trace && SameFacts(old(w.s.p), w.s.p)
        invariant w.s.p.now == old(w.s.p.now)
        invariant w.s.p.arrived == old(w.s.p.arrived) + (set d | d in demands[..i] :: Arrival(d, w.s.p.now))
      {
        assert demands[..i + 1] == demands[..i] + [demands[i]];
        w.Do(OfProtocol(Arrive(demands[i])));
      }
      assert demands[..|demands|] == demands;
      MirrorsSeed(stub.calls, old(w.s.p.arrived), w.s.p.network.answers, demands, w.s.p.now);
      stub.Seed(demands);
    }

    /** Some network's answer. */
    method Poll(since: Time) returns (r: Result<seq<Demand>>)
      ensures r.Ok? ==> Complete(w.s.p, since, r.value)
      ensures w.calm ==> r.Ok?
    {
      var ok: bool := *;
      if !ok && !w.calm { return Err(PortFailure); }
      var demands: seq<Demand> := *;
      if Complete(w.s.p, since, demands) { return Ok(demands); }
      demands := [];
      var rest := w.s.p.arrived;
      while rest != {}
        invariant rest <= w.s.p.arrived
        invariant forall a :: a in w.s.p.arrived - rest ==> a.d in demands
        decreases rest
      {
        var a :| a in rest;
        rest := rest - {a};
        demands := demands + [a.d];
      }
      return Ok(demands);
    }
  }

  // ----- one unit, and a batch of them -----

  function Refs(demands: seq<Demand>): set<string> { set d | d in demands :: d.ref }

  /** What handling one unit does: it records at most its ref, and when it succeeds the unit's row is there, found
      without touching anything, or answered for good and announced to the network. */
  ghost predicate HandledUnit(p: Proto, p': Proto, calls: seq<Call>, calls': seq<Call>, stubbed: bool, ref: string,
                              ok: bool) {
    && p.table.Keys <= p'.table.Keys <= p.table.Keys + {ref}
    && SentFor(p.network.answers, p'.network.answers, calls, calls', stubbed, ref)
    && (ok ==> ref in p'.table)
    && (ok ==>
          || (p'.table.Keys == p.table.Keys && p'.network == p.network && p'.planner == p.planner && calls' == calls)
          || (DoneIn(p', ref) && p'.network.answers != p.network.answers))
  }

  /** The units pending at the stub are these, and none of them is recorded. */
  ghost predicate Unmet(p: Proto, calls: seq<Call>, demands: seq<Demand>) {
    PendingAfter(calls) == demands && forall d :: d in demands ==> d.ref !in p.table
  }

  /** How far a batch of unmet units has come: the rows added are those of the units handled, each of them is
      done, and only units that are not recorded are pending. */
  ghost predicate Progress(before: set<string>, p: Proto, calls: seq<Call>, demands: seq<Demand>, i: nat)
    requires i <= |demands|
  {
    && p.table.Keys == before + Refs(demands[..i])
    && (forall r :: r in p.table && r !in before ==> DoneIn(p, r))
    && (forall d :: d in PendingAfter(calls) ==> d in demands && d.ref !in p.table)
  }

  lemma ProgressStarts(p: Proto, calls: seq<Call>, demands: seq<Demand>)
    requires Unmet(p, calls, demands)
    ensures Progress(p.table.Keys, p, calls, demands, 0)
  {
  }

  lemma PendingAfterUnit(p: Proto, p': Proto, calls: seq<Call>, calls': seq<Call>, ref: string)
    requires HandledUnit(p, p', calls, calls', true, ref, true)
    requires forall d :: d in PendingAfter(calls) ==> d.ref !in p.table
    ensures forall d :: d in PendingAfter(calls') ==> d in PendingAfter(calls) && d.ref !in p'.table
  {
    if calls' != calls {
      assert calls'[..|calls|] == calls;
      forall d | d in PendingAfter(calls') ensures d in PendingAfter(calls) && d.ref !in p'.table {
        OthersExactly(PendingAfter(calls), ref, d);
      }
    }
  }

  lemma ProgressOn(before: set<string>, p: Proto, p': Proto, calls: seq<Call>, calls': seq<Call>,
                   demands: seq<Demand>, i: nat)
    requires i < |demands| && Progress(before, p, calls, demands, i)
    requires HandledUnit(p, p', calls, calls', true, demands[i].ref, true)
    requires forall d :: d in demands ==> d.ref !in before
    requires forall r :: DoneIn(p, r) ==> DoneIn(p', r)
    ensures Progress(before, p', calls', demands, i + 1)
  {
    var ref := demands[i].ref;
    PendingAfterUnit(p, p', calls, calls', ref);
    assert demands[..i + 1] == demands[..i] + [demands[i]];
    assert Refs(demands[..i + 1]) == Refs(demands[..i]) + {ref};
    assert demands[i] in demands;
  }

  lemma RefIn(demands: seq<Demand>, d: Demand)
    ensures d in demands ==> d.ref in Refs(demands)
  {
  }

  lemma BatchDone(before: set<string>, p: Proto, calls: seq<Call>, demands: seq<Demand>)
    requires Progress(before, p, calls, demands, |demands|)
    requires forall d :: d in demands ==> d.ref !in before
    ensures PendingAfter(calls) == []
    ensures p.table.Keys == before + Refs(demands)
    ensures forall d :: d in demands ==> DoneIn(p, d.ref)
  {
    assert demands[..|demands|] == demands;
    if PendingAfter(calls) != [] {
      RefIn(demands, PendingAfter(calls)[0]);
      assert false;
    }
  }

  // ----- the poller -----

  /** How a pass went: the gateway failed, or it returned demands of which some were handled. */
  datatype Pass =
    | GatewayFailed
    | Handled(demands: seq<Demand>, succeeded: nat, failures: nat)

  /** Every unit was handled, and none failed. */
  predicate Clean(pass: Pass) {
    pass.Handled? && pass.succeeded == |pass.demands|
  }

  predicate Abandoned(pass: Pass) {
    pass.Handled? && pass.succeeded + pass.failures < |pass.demands|
  }

  /** How many of the calls returned an order. */
  function Successes(endings: seq<Ending>): nat {
    if endings == [] then 0
    else Successes(endings[..|endings| - 1]) + (if endings[|endings| - 1] in {Existing, Answered} then 1 else 0)
  }

  lemma SuccessesOn(before: seq<Ending>, after: seq<Ending>, calls: nat)
    requires calls <= |before| && |after| == |before| + 1 && before <= after
    ensures Successes(after[calls..]) ==
            Successes(before[calls..]) + (if after[|before|] in {Existing, Answered} then 1 else 0)
  {
    assert after[calls..][..|before| - calls] == before[calls..];
  }

  /** How many of the calls ended failed. */
  function Failures(endings: seq<Ending>): nat {
    if endings == [] then 0
    else Failures(endings[..|endings| - 1]) + (if endings[|endings| - 1] == Failed then 1 else 0)
  }

  lemma FailuresOn(before: seq<Ending>, after: seq<Ending>, calls: nat)
    requires calls <= |before| && |after| == |before| + 1 && before <= after
    ensures Failures(after[calls..]) == Failures(before[calls..]) + (if after[|before|] == Failed then 1 else 0)
  {
    assert after[calls..][..|before| - calls] == before[calls..];
  }

  /** What i calls, one for each of the first units of a batch, have done: so many of them ended failed, the
      well-formed units have rows when no call to the outside fails, and all units have when no call failed. */
  ghost predicate TriedUpTo(calm: bool, dictionary: map<string, string>, p: Proto, before: seq<Ending>,
                            demands: seq<Demand>, i: nat, failures: nat)
    requires i <= |demands|
  {
    && before <= p.endings && |p.endings| == |before| + i
    && failures == Failures(p.endings[|before|..])
    && (calm ==> forall d :: d in demands[..i] && WellFormed(dictionary, d) ==> d.ref in p.table)
    && (failures == 0 ==> ClearSince(p.endings, |before|) && forall d :: d in demands[..i] ==> d.ref in p.table)
    && (calm && AllWellFormed(dictionary, demands) ==> failures == 0)
  }

  lemma TriedOn(calm: bool, dictionary: map<string, string>, p: Proto, p': Proto, before: seq<Ending>,
                demands: seq<Demand>, i: nat, failures: nat, ok: bool)
    requires i < |demands| && TriedUpTo(calm, dictionary, p, before, demands, i, failures)
    requires |p'.endings| == |p.endings| + 1 && p.endings <= p'.endings
    requires p'.endings[|p.endings|] in (if ok then {Existing, Answered} else {Failed})
    requires p.table.Keys <= p'.table.Keys && (ok ==> demands[i].ref in p'.table)
    requires calm && WellFormed(dictionary, demands[i]) ==> ok
    ensures TriedUpTo(calm, dictionary, p', before, demands, i + 1, failures + if ok then 0 else 1)
  {
    FailuresOn(p.endings, p'.endings, |before|);
    assert demands[..i + 1] == demands[..i] + [demands[i]];
    assert demands[i] in demands;
    if failures == 0 && ok {
      forall j | |before| <= j < |p'.endings| ensures p'.endings[j] in {Existing, Answered} {
        if j < |p.endings| { assert p'.endings[j] == p.endings[j]; }
      }
    }
  }

  /** One bad unit does not cost the others: unless we are told to stop every unit is tried; the failures are exactly
      the calls since then that ended failed; and when no call to the outside fails, every well-formed unit has its
      row, whatever the other units are. */
  ghost predicate AllTried(w: Runtime, dictionary: map<string, string>, calls: nat, pass: Pass)
    requires pass.Handled?
    reads w
  {
    && (w.patient ==> !Abandoned(pass))
    && calls <= |w.s.p.endings| && pass.failures == Failures(w.s.p.endings[calls..])
    && (w.calm ==> forall d :: d in pass.demands && WellFormed(dictionary, d) ==> d.ref in w.s.p.table)
  }

  /** No hold that a call since then raised is outstanding. */
  ghost predicate NoneLeft(p: Proto, calls: nat) {
    forall id :: Outstanding(p.planner, id) ==> p.planner.raised[id].call < calls
  }

  predicate ClearSince(endings: seq<Ending>, calls: nat) {
    forall i :: calls <= i < |endings| ==> endings[i] in {Existing, Answered}
  }

  predicate AllWellFormed(dictionary: map<string, string>, demands: seq<Demand>) {
    forall d | d in demands :: WellFormed(dictionary, d)
  }

  /** The batch is met: nothing is pending, every unit's order is done, and no other order was recorded. */
  ghost predicate Met(p: Proto, p': Proto, calls: seq<Call>, demands: seq<Demand>) {
    && PendingAfter(calls) == []
    && p'.table.Keys == p.table.Keys + Refs(demands)
    && forall d :: d in demands ==> DoneIn(p', d.ref)
  }

  lemma NothingToMeet(p: Proto, p': Proto, calls: seq<Call>, demands: seq<Demand>)
    requires demands == [] && p'.table.Keys == p.table.Keys
    ensures PendingAfter(calls) == demands ==> Met(p, p', calls, demands)
  {
  }

  class Poller {
    const w: Runtime
    const gateway: Gateway
    const receiver: ReceiveNetworkDemand
    var since: Time
    var polls: nat
    var received: nat
    var failed: nat
    /** The watermark we were configured with, and how many calls had ended when we started. */
    ghost const start: Time
    ghost const base: nat

    ghost predicate Valid()
      reads this, w, gateway.stub
    {
      && gateway.w == w && receiver.ports.w == w && receiver.ports.stub == gateway.stub
      && w.Valid() && w.s.p.exec.Idle? && receiver.ports.Linked()
      && (since <= w.s.p.now || since <= start)
      && WatermarkSafe(w.s.p, start, since)
      && base <= |w.s.p.endings|
      && received == Successes(w.s.p.endings[base..])
    }

    constructor (gateway: Gateway, receiver: ReceiveNetworkDemand, since: Time)
      requires gateway.w == receiver.ports.w && gateway.stub == receiver.ports.stub
      requires gateway.w.Valid() && gateway.w.s.p.exec.Idle? && receiver.ports.Linked()
      ensures Valid() && this.gateway == gateway && this.receiver == receiver && this.w == gateway.w
      ensures this.since == since && start == since && polls == 0 && received == 0 && failed == 0
    {
      this.w, this.gateway, this.receiver := gateway.w, gateway, receiver;
      this.since, this.start, this.base := since, since, |gateway.w.s.p.endings|;
      polls, received, failed := 0, 0, 0;
    }

    ghost function Calls(): seq<Call>
      reads gateway.stub
    {
      if gateway.stub == null then [] else gateway.stub.calls
    }

    /** Every unit of demand from before the watermark has its row, and its receipt on every topic. */
    lemma NoDemandLost(a: Arrival, topic: Topic)
      requires Valid() && a in w.s.p.arrived && start <= a.at < since
      ensures a.d.ref in w.s.p.table
      ensures var es := Events(w.s.p.outbox, a.d.ref, topic); |es| > 0 && IsReceived(es[0], w.s.p.table[a.d.ref])
    {
      assert Reachable(w.s);
      RowAndHistoryAgree(w.s, a.d.ref, topic);
    }

    /** Polls at once, then on every tick until we are stopped; the other processes run in between. */
    method Run(ticks: nat)
      requires Valid()
      modifies this, w, gateway, gateway.stub
      ensures Valid() && old(w.trace) <= w.trace && polls == old(polls) + 1 + ticks
      ensures |gateway.returned| == |old(gateway.returned)| + 1 + ticks && old(gateway.returned) <= gateway.returned
    {
      var _ := PollOnce();
      for i := 0 to ticks
        invariant Valid() && old(w.trace) <= w.trace && polls == old(polls) + 1 + i
        invariant |gateway.returned| == |old(gateway.returned)| + 1 + i && old(gateway.returned) <= gateway.returned
      {
        Wait();
        var _ := PollOnce();
      }
    }

    /** Between two passes the other processes run. */
    method Wait()
      requires Valid()
      modifies w
      ensures Valid() && old(w.trace) <= w.trace && Kept(Receiver, old(w.s), w.s)
      ensures Quiet(old(w.s.p)) ==> SameFacts(old(w.s.p), w.s.p)
    {
      ghost var k := |w.trace| - 1;
      w.Interfere(Receiver);
      StaysGood(k);
    }

    /** One pass. It asks the gateway once and goes by what that returned. The watermark moves to the instant read
        before the call after a pass without a failure, and nowhere otherwise; failures are added up only at the
        end of a pass; a pass without a failure leaves no hold behind. When nothing fails and all units returned
        are well formed, the pass is clean. */
    method PollOnce() returns (ghost pass: Pass)
      requires Valid()
      modifies this, w, gateway, gateway.stub
      ensures Valid() && old(w.trace) <= w.trace
      ensures polls == old(polls) + 1
      ensures |gateway.returned| == |old(gateway.returned)| + 1 && old(gateway.returned) <= gateway.returned
      ensures match gateway.returned[|old(gateway.returned)|]
        case Err(_) => pass == GatewayFailed && !w.calm
        case Ok(demands) => pass.Handled? && pass.demands == demands
      ensures since == if Clean(pass) then old(w.s.p.now) else old(since)
      ensures received == old(received) + (if pass.Handled? then pass.succeeded else 0)
      ensures failed == old(failed) + (if pass.Handled? && !Abandoned(pass) then pass.failures else 0)
      ensures |w.s.p.endings| ==
              old(|w.s.p.endings|) + (if pass.Handled? then pass.succeeded + pass.failures else 0)
      ensures pass.Handled? ==> pass.succeeded + pass.failures <= |pass.demands|
      ensures pass.Handled? ==> AllTried(w, receiver.ports.dictionary, old(|w.s.p.endings|), pass)
      ensures Clean(pass) ==> forall d :: d in pass.demands ==> d.ref in w.s.p.table
      ensures Clean(pass) ==> NoneLeft(w.s.p, old(|w.s.p.endings|))
      ensures w.calm && pass.Handled? && AllWellFormed(receiver.ports.dictionary, pass.demands) ==> Clean(pass)
      ensures gateway.stub != null ==> pass.Handled? && pass.demands == old(gateway.stub.pending)
      ensures gateway.stub != null && Clean(pass) && old(Unmet(w.s.p, Calls(), gateway.stub.pending)) ==>
                Met(old(w.s.p), w.s.p, Calls(), pass.demands)
      ensures pass.Handled? && pass.demands == [] && Quiet(old(w.s.p)) ==>
                SameFacts(old(w.s.p), w.s.p) && Calls() == old(Calls())
    {
      polls := polls + 1;
      var pollStartedAt := w.s.p.now;
      ghost var k := |w.trace| - 1;

      var polled := Ask();
      if polled.Err? { return GatewayFailed; }
      pass := HandleReturned(polled.value, pollStartedAt, k);
    }

    /** The rest of a pass, for what the gateway just returned. */
    method HandleReturned(demands: seq<Demand>, pollStartedAt: Time, ghost k: nat) returns (ghost pass: Pass)
      requires Valid() && k < |w.trace| && w.trace[k].p.now == pollStartedAt
      requires Complete(w.s.p, since, demands)
      modifies this`since, this`received, this`failed, w, gateway.stub
      ensures Valid() && old(w.trace) <= w.trace
      ensures pass.Handled? && pass.demands == demands
      ensures since == if Clean(pass) then pollStartedAt else old(since)
      ensures received == old(received) + pass.succeeded
      ensures failed == old(failed) + (if Abandoned(pass) then 0 else pass.failures)
      ensures |w.s.p.endings| == old(|w.s.p.endings|) + pass.succeeded + pass.failures
      ensures pass.succeeded + pass.failures <= |demands|
      ensures AllTried(w, receiver.ports.dictionary, old(|w.s.p.endings|), pass)
      ensures Clean(pass) ==> forall d :: d in demands ==> d.ref in w.s.p.table
      ensures Clean(pass) ==> NoneLeft(w.s.p, old(|w.s.p.endings|))
      ensures w.calm && AllWellFormed(receiver.ports.dictionary, demands) ==> Clean(pass)
      ensures gateway.stub != null && Clean(pass) && old(Unmet(w.s.p, Calls(), demands)) ==>
                Met(old(w.s.p), w.s.p, Calls(), demands)
      ensures demands == [] ==> w.s == old(w.s) && Calls() == old(Calls())
    {
      ghost var answered := |w.trace| - 1;
      if |demands| == 0 {
        if gateway.stub != null { NothingToMeet(w.s.p, w.s.p, Calls(), demands); }
        HandleNothing(pollStartedAt, k, answered);
        return Handled([], 0, 0);
      }
      pass := HandleBatch(demands, pollStartedAt, k, answered);
    }

    /** The rest of a pass that got nothing to do. */
    method HandleNothing(pollStartedAt: Time, ghost k: nat, ghost answered: nat)
      requires Valid() && k <= answered == |w.trace| - 1 && w.trace[k].p.now == pollStartedAt
      requires Complete(w.s.p, since, [])
      modifies this`since
      ensures Valid() && since == pollStartedAt && NoneLeft(w.s.p, |w.s.p.endings|)
    {
      ClearLeavesNone(|w.s.p.endings|);
      AdvanceSafely(pollStartedAt, k, answered, []);
    }

    /** The rest of a pass that got something to do. */
    method HandleBatch(demands: seq<Demand>, pollStartedAt: Time, ghost k: nat, ghost answered: nat)
      returns (ghost pass: Pass)
      requires Valid() && k <= answered == |w.trace| - 1 && w.trace[k].p.now == pollStartedAt
      requires Complete(w.s.p, since, demands)
      modifies this`since, this`received, this`failed, w, gateway.stub
      ensures Valid() && old(w.trace) <= w.trace
      ensures pass.Handled? && pass.demands == demands
      ensures since == if Clean(pass) then pollStartedAt else old(since)
      ensures received == old(received) + pass.succeeded
      ensures failed == old(failed) + (if Abandoned(pass) then 0 else pass.failures)
      ensures |w.s.p.endings| == old(|w.s.p.endings|) + pass.succeeded + pass.failures
      ensures pass.succeeded + pass.failures <= |demands|
      ensures AllTried(w, receiver.ports.dictionary, old(|w.s.p.endings|), pass)
      ensures Clean(pass) ==> forall d :: d in demands ==> d.ref in w.s.p.table
      ensures Clean(pass) ==> NoneLeft(w.s.p, old(|w.s.p.endings|))
      ensures w.calm && AllWellFormed(receiver.ports.dictionary, demands) ==> Clean(pass)
      ensures gateway.stub != null && Clean(pass) && old(Unmet(w.s.p, Calls(), demands)) ==>
                Met(old(w.s.p), w.s.p, Calls(), demands)
    {
      var failures, done := HandleAll(demands);
      pass := Handled(demands, received - old(received), failures);
      if !done { return; }
      if failures > 0 {
        failed := failed + failures;
        return;
      }
      ClearLeavesNone(old(|w.s.p.endings|));
      AdvanceSafely(pollStartedAt, k, answered, demands);
    }

    /** After a clean pass the watermark may move to the instant read before the call. */
    method AdvanceSafely(to: Time, ghost k: nat, ghost answered: nat, ghost demands: seq<Demand>)
      requires Valid() && k <= answered < |w.trace| && w.trace[k].p.now == to
      requires Complete(w.trace[answered].p, since, demands) && forall d :: d in demands ==> d.ref in w.s.p.table
      modifies this`since
      ensures Valid() && since == to
    {
      NothingMissed(w.bound, w.trace, k, answered, start, since, demands);
      Advance(to);
    }

    /** The gateway's answer for the current watermark. */
    method Ask() returns (polled: Result<seq<Demand>>)
      requires Valid()
      modifies w, gateway
      ensures Valid() && old(w.trace) <= w.trace && Kept(Receiver, old(w.s), w.s)
      ensures gateway.returned == old(gateway.returned) + [polled]
      ensures polled.Ok? ==> Complete(w.s.p, since, polled.value)
      ensures w.calm ==> polled.Ok?
      ensures gateway.stub != null ==> polled == Ok(gateway.stub.pending)
      ensures Quiet(old(w.s.p)) ==> SameFacts(old(w.s.p), w.s.p)
    {
      ghost var k := |w.trace| - 1;
      polled := gateway.PollDemand(since);
      StaysGood(k);
    }

    /** Calls that returned an order left no hold. */
    lemma ClearLeavesNone(calls: nat)
      requires Valid() && ClearSince(w.s.p.endings, calls)
      ensures NoneLeft(w.s.p, calls)
    {
      w.StateOk();
    }

    /** Hands every unit to the use case until we are told to stop between two of them. */
    method HandleAll(demands: seq<Demand>) returns (failures: nat, done: bool)
      requires Valid()
      modifies this`received, w, gateway.stub
      ensures Valid() && old(w.trace) <= w.trace
      ensures old(received) <= received
      ensures |w.s.p.endings| == old(|w.s.p.endings|) + (received - old(received)) + failures
      ensures received - old(received) + failures <= |demands|
      ensures done <==> received - old(received) + failures == |demands|
      ensures old(received) <= received && AllTried(w, receiver.ports.dictionary, old(|w.s.p.endings|),
                                                    Handled(demands, received - old(received), failures))
      ensures done && failures == 0 ==> forall d :: d in demands ==> d.ref in w.s.p.table
      ensures failures == 0 ==> ClearSince(w.s.p.endings, old(|w.s.p.endings|))
      ensures w.calm && AllWellFormed(receiver.ports.dictionary, demands) ==> done && failures == 0
      ensures gateway.stub != null && done && failures == 0 && old(Unmet(w.s.p, Calls(), demands)) ==>
                Met(old(w.s.p), w.s.p, Calls(), demands)
    {
      failures := 0;
      ghost var endings, keys := w.s.p.endings, w.s.p.table.Keys;
      ghost var closed := gateway.stub != null && Unmet(w.s.p, Calls(), demands);
      if closed { ProgressStarts(w.s.p, Calls(), demands); }
      for i := 0 to |demands|
        invariant Valid() && old(w.trace) <= w.trace
        invariant TriedUpTo(w.calm, receiver.ports.dictionary, w.s.p, endings, demands, i, failures)
        invariant old(received) <= received && received - old(received) + failures == i
        invariant closed && failures == 0 ==> Progress(keys, w.s.p, Calls(), demands, i)
      {
        var stopped: bool := *;
        if stopped && !w.patient { return failures, false; }
        var ok := HandleNext(demands, i, endings, failures, keys, closed && failures == 0);
        if !ok { failures := failures + 1; }
      }
      assert demands[..|demands|] == demands;
      if closed && failures == 0 { BatchDone(keys, w.s.p, Calls(), demands); }
      return failures, true;
    }

    /** The next unit of a batch. */
    method HandleNext(demands: seq<Demand>, i: nat, ghost endings: seq<Ending>, ghost failures: nat,
                      ghost keys: set<string>, ghost closed: bool) returns (ok: bool)
      requires Valid() && i < |demands|
      requires TriedUpTo(w.calm, receiver.ports.dictionary, w.s.p, endings, demands, i, failures)
      requires closed ==>
                 && gateway.stub != null && Progress(keys, w.s.p, Calls(), demands, i)
                 && forall d :: d in demands ==> d.ref !in keys
      modifies this`received, w, gateway.stub
      ensures Valid() && old(w.trace) <= w.trace
      ensures received == old(received) + (if ok then 1 else 0)
      ensures TriedUpTo(w.calm, receiver.ports.dictionary, w.s.p, endings, demands, i + 1,
                        failures + if ok then 0 else 1)
      ensures ok && closed ==> Progress(keys, w.s.p, Calls(), demands, i + 1)
    {
      ghost var p, calls := w.s.p, Calls();
      ok := HandleOne(demands[i]);
      TriedOn(w.calm, receiver.ports.dictionary, p, w.s.p, endings, demands, i, failures, ok);
      if ok && closed { ProgressOn(keys, p, w.s.p, calls, Calls(), demands, i); }
    }

    /** One unit; an order that comes back, whatever its answer, counts as received. */
    method HandleOne(d: Demand) returns (ok: bool)
      requires Valid()
      modifies this`received, w, gateway.stub
      ensures Valid() && old(w.trace) <= w.trace
      ensures received == old(received) + (if ok then 1 else 0)
      ensures |w.s.p.endings| == old(|w.s.p.endings|) + 1 && old(w.s.p.endings) <= w.s.p.endings
      ensures w.s.p.endings[old(|w.s.p.endings|)] in (if ok then {Existing, Answered} else {Failed})
      ensures HandledUnit(old(w.s.p), w.s.p, old(Calls()), Calls(), gateway.stub != null, d.ref, ok)
      ensures forall r :: DoneIn(old(w.s.p), r) ==> DoneIn(w.s.p, r)
      ensures w.calm && WellFormed(receiver.ports.dictionary, d) ==> ok
    {
      ghost var k := |w.trace| - 1;
      ghost var before := w.s.p;
      var r := receiver.Execute(d);
      StaysGood(k);
      SuccessesOn(before.endings, w.s.p.endings, base);
      if r.Err? { return false; }
      received := received + 1;
      return true;
    }

    /** The watermark stays safe while a unit is handled, and orders that are done stay done. */
    lemma StaysGood(k: nat)
      requires w.Valid() && k < |w.trace|
      requires WatermarkSafe(w.trace[k].p, start, since) && (since <= w.trace[k].p.now || since <= start)
      ensures WatermarkSafe(w.s.p, start, since) && (since <= w.s.p.now || since <= start)
      ensures forall r :: DoneIn(w.trace[k].p, r) ==> DoneIn(w.s.p, r)
    {
      SafeLater(w.bound, w.trace, k, |w.trace| - 1, start, since);
      RunLater(w.bound, w.trace, k, |w.trace| - 1);
      DoneSince(k);
    }

    lemma DoneSince(k: nat)
      requires w.Valid() && k < |w.trace|
      ensures forall r :: DoneIn(w.trace[k].p, r) ==> DoneIn(w.s.p, r)
    {
      forall r | DoneIn(w.trace[k].p, r) ensures DoneIn(w.s.p, r) {
        DoneStays(w.bound, w.trace, k, |w.trace| - 1, r);
      }
    }

    method Advance(to: Time)
      modifies this`since
      ensures since == to
    {
      since := to;
    }
  }

  /** After a pass whose every returned unit has a row, everything from before the pass began has one. */
  lemma NothingMissed(bound: Time, tr: seq<Sys>, k: nat, q: nat, start: Time, since: Time, demands: seq<Demand>)
    requires Run(bound, tr) && bound <= ACKNOWLEDGEMENT_WINDOW && k <= q < |tr|
    requires var p := tr[|tr| - 1].p;
      WatermarkSafe(p, start, since) && forall d :: d in demands ==> d.ref in p.table
    requires Complete(tr[q].p, since, demands)
    ensures WatermarkSafe(tr[|tr| - 1].p, start, tr[k].p.now) && tr[k].p.now <= tr[|tr| - 1].p.now
  {
    var n := |tr| - 1;
    RunLater(bound, tr, k, q);
    RunLater(bound, tr, q, n);
    RunReaches(bound, tr, q);
    forall a | a in tr[n].p.arrived && start <= a.at < tr[k].p.now ensures a.d.ref in tr[n].p.table {
      if since <= a.at && !Due(tr[q].p, since, a) {
        var i :| 0 <= i < |tr[q].p.network.answers| && tr[q].p.network.answers[i].ref == a.d.ref;
        OneAnswerPerOrder(tr[q], i);
        RowsStand(bound, tr, q, n, a.d.ref);
      }
    }
  }

  lemma RunReaches(bound: Time, tr: seq<Sys>, q: nat)
    requires Run(bound, tr) && bound <= ACKNOWLEDGEMENT_WINDOW && q < |tr|
    ensures Reachable(tr[q])
  {
    var head := tr[..q + 1];
    forall i | 0 <= i < |head| - 1 ensures Follows(bound, head[i], head[i + 1]) {
      assert Follows(bound, tr[i], tr[i + 1]);
    }
    assert Run(bound, head) && head[|head| - 1] == tr[q];
  }

  // ----- the closed loop -----

  /** The verdict the stub holds for the ref is the one its row shows. */
  ghost predicate Agreed(p: Proto, calls: seq<Call>, ref: string) {
    && ref in p.table && p.table[ref].state in {Acknowledged, Rejected}
    && ref in AnswersAfter(calls) && AnswersAfter(calls)[ref] == (p.table[ref].state == Acknowledged)
  }

  lemma DoneIsAgreed(s: Sys, calls: seq<Call>, ref: string)
    requires SysOk(s) && Submissions(calls) == s.p.network.answers && DoneIn(s.p, ref)
    ensures Agreed(s.p, calls, ref)
  {
    VerdictHeld(calls, ref, s.p.table[ref].state == Acknowledged);
  }

  lemma AllAgreed(s: Sys, calls: seq<Call>, demands: seq<Demand>)
    requires SysOk(s) && Submissions(calls) == s.p.network.answers
    requires forall d :: d in demands ==> DoneIn(s.p, d.ref)
    ensures forall d :: d in demands ==> Agreed(s.p, calls, d.ref)
  {
    forall d | d in demands ensures Agreed(s.p, calls, d.ref) {
      DoneIsAgreed(s, calls, d.ref);
    }
  }

  /** Two passes in a closed loop where nothing fails: units are pending that were never recorded, all well
      formed, and every row is answered. The first pass empties what is pending, records exactly their refs, each
      acknowledged or rejected with the same verdict at the stub, and leaves no hold of its own outstanding; the
      second changes nothing but the poller's counters and watermark. */
  method PassTwice(poller: Poller) returns (ghost first: Proto)
    requires poller.Valid() && poller.w.calm && poller.gateway.stub != null && Quiet(poller.w.s.p)
    requires Unmet(poller.w.s.p, poller.Calls(), poller.gateway.stub.pending)
    requires AllWellFormed(poller.receiver.ports.dictionary, poller.gateway.stub.pending)
    modifies poller, poller.w, poller.gateway, poller.gateway.stub
    ensures poller.Valid() && old(poller.w.trace) <= poller.w.trace
    ensures poller.gateway.stub.pending == []
    ensures first.table.Keys == old(poller.w.s.p.table.Keys) + Refs(old(poller.gateway.stub.pending))
    ensures forall d :: d in old(poller.gateway.stub.pending) ==> Agreed(first, poller.Calls(), d.ref)
    ensures NoneLeft(first, old(|poller.w.s.p.endings|))
    ensures SameFacts(first, poller.w.s.p)
    ensures poller.polls == old(poller.polls) + 2 && poller.failed == old(poller.failed)
    ensures poller.received == old(poller.received) + |old(poller.gateway.stub.pending)|
  {
    ghost var k := |poller.w.trace| - 1;
    ghost var demands := poller.gateway.stub.pending;
    var pass := poller.PollOnce();
    first := poller.w.s.p;
    AgreedAfter(poller, demands);
    QuietAfter(poller, k, demands);
    poller.Wait();
    var again := poller.PollOnce();
  }

  lemma AgreedAfter(poller: Poller, demands: seq<Demand>)
    requires poller.Valid() && poller.gateway.stub != null
    requires forall d :: d in demands ==> DoneIn(poller.w.s.p, d.ref)
    ensures forall d :: d in demands ==> Agreed(poller.w.s.p, poller.Calls(), d.ref)
  {
    poller.w.StateOk();
    AllAgreed(poller.w.s, poller.Calls(), demands);
  }

  lemma QuietAfter(poller: Poller, k: nat, demands: seq<Demand>)
    requires poller.Valid() && k < |poller.w.trace| && Quiet(poller.w.trace[k].p)
    requires poller.w.s.p.table.Keys == poller.w.trace[k].p.table.Keys + Refs(demands)
    requires forall d :: d in demands ==> DoneIn(poller.w.s.p, d.ref)
    ensures Quiet(poller.w.s.p)
  {
    forall r | r in poller.w.s.p.table ensures poller.w.s.p.table[r].state != New {
      if r in poller.w.trace[k].p.table { poller.w.StandsSince(k, r); }
    }
  }

  /** A system with nothing in it yet, whose network is the stub and where nothing fails, seeded with demand. */
  method EmptySystem(bound: Time, dictionary: map<string, string>, demands: seq<Demand>, since: Time)
    returns (poller: Poller)
    requires 0 <= bound <= ACKNOWLEDGEMENT_WINDOW
    ensures poller.Valid() && poller.w.calm && poller.gateway.stub != null
    ensures fresh(poller) && fresh(poller.w) && fresh(poller.gateway) && fresh(poller.gateway.stub)
    ensures poller.w.s.p.table == map[] && poller.w.s.p.endings == [] && poller.gateway.stub.pending == demands
    ensures poller.receiver.ports.dictionary == dictionary
    ensures poller.polls == 0 && poller.received == 0 && poller.failed == 0 && poller.since == since
  {
    var w := new Runtime(bound, true, true, true);
    var stub := new StubGateway();
    var ports := new Ports(w, dictionary, stub);
    var receiver := new ReceiveNetworkDemand(ports);
    var gateway := new Gateway(w, stub);
    gateway.Seed(demands);
    assert stub.calls == [Seeded(demands)] && stub.calls[..0] == [];
    poller := new Poller(gateway, receiver, since);
  }

  /** From an empty repository and well-formed demand, with every call succeeding: one pass answers each ref once
      and for all and empties what is pending, and another finds nothing to do. */
  method ClosedLoop(bound: Time, dictionary: map<string, string>, demands: seq<Demand>, since: Time)
    returns (poller: Poller)
    requires 0 <= bound <= ACKNOWLEDGEMENT_WINDOW && AllWellFormed(dictionary, demands)
    ensures fresh(poller) && poller.Valid() && poller.gateway.stub != null && poller.gateway.stub.pending == []
    ensures poller.w.s.p.table.Keys == Refs(demands)
    ensures forall d :: d in demands ==> Agreed(poller.w.s.p, poller.Calls(), d.ref)
    ensures forall id :: !Outstanding(poller.w.s.p.planner, id)
    ensures poller.polls == 2 && poller.received == |demands| && poller.failed == 0
  {
    poller := EmptySystem(bound, dictionary, demands, since);
    var _ := PassTwice(poller);
  }
}
