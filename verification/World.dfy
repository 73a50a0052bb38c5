/** The running system as the application code sees it: every port call first lets the other processes take any
    number of steps, then takes its own step with whatever outcome the outside world chooses. */
module World {
  import opened Domain
  import opened Translation
  import opened Protocol
  import opened History
  import opened ProtocolInvariant
  import opened ProtocolWrites
  import opened Pipeline
  import opened Guarantees

  // ----- a calm world -----

  predicate CalmAction(bound: Time, p: Proto, a: Action) {
    match a
    case Tick(t) => p.exec.Running? ==> t <= p.exec.t0 + bound
    case Crash => false
    case FindByRef(ok) => ok
    case Translated(lookups) => LookupFailed !in lookups
    case TxFails => false
    case Commit(out) => out.Done?
    case CallRaise(raise) => raise.Raised?
    case CallCancel(out) => out.Done?
    case CallSubmit(out) => out.Done?
    case CallRelease(out) => out.Done?
    case SweepList(ok, _) => ok
    case SweepLoad(ok) => ok
    case SweepCancel(out) => out.Done?
    case SweepTxFails => false
    case SweepCommit(out) => out.Done?
    case _ => true
  }

  /** No call fails, no process is lost, and the clock does not leave the call in progress behind. */
  predicate CalmStep(bound: Time, s: Sys, st: Step) {
    match st
    case OfProtocol(a) => CalmAction(bound, s.p, a)
    case OfRelay(ra) =>
      (match ra
       case Claim(_) => true
       case Send(out) => out.Done?
       case Mark(ok) => ok
       case CommitPass(out) => out.Done?
       case CommitStopped(out) => out.Done?
       case LosePass => false)
    case OfConsumer(ca) =>
      (match ca
       case Fetch(_) => true
       case CallMark(ok, _) => ok
       case CallApply(out, _) => out.Done?
       case CallBury(out) => out.Done?
       case CommitOffset(ok) => ok
       case LoseCall => false)
  }

  /** No commit of a relay pass is lost: it takes effect, though it may be reported as failed. */
  predicate LandingStep(st: Step) {
    st.OfRelay? && (st.ra.CommitPass? || st.ra.CommitStopped?) ==> st.ra.out.Effective()
  }

  /** Nobody makes a process give up between two attempts. */
  predicate PatientStep(st: Step) {
    st.OfConsumer? && (st.ca.CallMark? || st.ca.CallApply?) ==> !st.ca.giveUp
  }

  /** The call in progress is not late. */
  predicate Prompt(bound: Time, p: Proto) {
    p.exec.Running? ==> p.now <= p.exec.t0 + bound
  }

  lemma CalmIsPrompt(bound: Time, s: Sys, st: Step)
    requires CanStep(bound, s, st) && CalmStep(bound, s, st) && 0 <= bound && Prompt(bound, s.p)
    ensures Prompt(bound, TakeStep(bound, s, st).p)
  {
  }

  // ----- the other processes -----

  /** The process on whose behalf a call is made; the others may step in between, it may not be lost. */
  datatype Who = Receiver | Sweeper | Relayer | Projector

  predicate Foreign(who: Who, st: Step) {
    match who
    case Receiver => !(st.OfProtocol? && (OfExec(st.a) || st.a.Start? || st.a.Crash?))
    case Sweeper => !(st.OfProtocol? && (OfSweep(st.a) || st.a.Crash?))
    case Relayer => !st.OfRelay?
    case Projector => !st.OfConsumer?
  }

  /** What foreign steps leave to a process: its own progress, and for the receive call also the holds, the
      network, and which orders are recorded. */
  predicate Kept(who: Who, s: Sys, s': Sys) {
    match who
    case Receiver =>
      && s'.p.exec == s.p.exec && s'.p.endings == s.p.endings
      && s'.p.planner == s.p.planner && s'.p.network == s.p.network
      && s'.p.table.Keys == s.p.table.Keys
    case Sweeper => s'.p.sweep == s.p.sweep
    case Relayer => s'.r == s.r
    case Projector => s'.c == s.c
  }

  lemma ProgressKept(bound: Time, who: Who, s: Sys, st: Step)
    requires CanStep(bound, s, st) && Foreign(who, st)
    ensures var s' := TakeStep(bound, s, st);
      match who
      case Receiver => s'.p.exec == s.p.exec && s'.p.endings == s.p.endings
      case _ => Kept(who, s, s')
  {
  }

  lemma KeysKept(bound: Time, s: Sys, st: Step)
    requires SysOk(s) && CanStep(bound, s, st) && Foreign(Receiver, st)
    ensures TakeStep(bound, s, st).p.table.Keys == s.p.table.Keys
  {
    if st.OfProtocol? {
      Writes(bound, s.p, st.a);
      if st.a.SweepCommit? { HeadIsOverdue(s.p); }
    }
  }

  lemma ForeignKeeps(bound: Time, who: Who, s: Sys, st: Step)
    requires SysOk(s) && CanStep(bound, s, st) && Foreign(who, st)
    ensures Kept(who, s, TakeStep(bound, s, st))
  {
    ProgressKept(bound, who, s, st);
    if who.Receiver? {
      KeysKept(bound, s, st);
      if st.OfProtocol? {
        if st.a.SweepCancel? { SweepNeverCancels(bound, s.p, st.a.out); }
        OutsideFrame(bound, s.p, st.a);
      }
    }
  }

  predicate IsArrival(st: Step) { st.OfProtocol? && st.a.Arrive? }

  lemma ArrivalsKept(bound: Time, s: Sys, st: Step)
    requires CanStep(bound, s, st) && !IsArrival(st)
    ensures TakeStep(bound, s, st).p.arrived == s.p.arrived
  {
  }

  // ----- a quiet table -----

  /** Nobody waits for an answer, and no call is about to record anything. */
  predicate Quiet(p: Proto) {
    p.exec.Idle? && forall r | r in p.table :: p.table[r].state != New
  }

  /** Nothing anybody outside could notice changed. */
  predicate SameFacts(p: Proto, p': Proto) {
    && p'.table == p.table && p'.outbox == p.outbox && p'.planner == p.planner && p'.network == p.network
    && p'.exec == p.exec && p'.endings == p.endings
  }

  /** With every row answered and no call running, the sweep has nothing to do either. */
  lemma QuietStays(bound: Time, s: Sys, st: Step)
    requires SysOk(s) && CanStep(bound, s, st) && Foreign(Receiver, st) && Quiet(s.p)
    ensures SameFacts(s.p, TakeStep(bound, s, st).p)
  {
    ForeignKeeps(bound, Receiver, s, st);
    if st.OfProtocol? {
      Writes(bound, s.p, st.a);
      if s.p.sweep.Missing? && s.p.sweep.todo != [] { HeadIsOverdue(s.p); }
    }
  }

  // ----- the sweep's view -----

  lemma OverdueStaysForeign(bound: Time, s: Sys, st: Step, t: Time, r: string)
    requires SysOk(s) && CanStep(bound, s, st) && bound <= ACKNOWLEDGEMENT_WINDOW
    requires Foreign(Sweeper, st) && OverdueRow(s.p, t, r)
    ensures OverdueRow(TakeStep(bound, s, st).p, t, r)
  {
    if st.OfProtocol? { OverdueStays(bound, s.p, st.a, t, r); }
  }

  class Runtime {
    /** How late after its first clock read a call's answer may commit. */
    const bound: Time
    /** Whether from now on no call fails and no process is lost. */
    const calm: bool
    /** Whether from now on every commit of a relay pass takes effect. */
    const landing: bool
    /** Whether from now on nobody tells a process to stop what it is doing. */
    const patient: bool
    var s: Sys
    ghost var trace: seq<Sys>

    /** The current state is the last of a run of the transition system. */
    ghost predicate Valid()
      reads this
    {
      && bound <= ACKNOWLEDGEMENT_WINDOW && Run(bound, trace) && trace[|trace| - 1] == s
      && (calm ==> landing && patient && 0 <= bound && Prompt(bound, s.p))
    }

    /** What the world is like from now on allows the step. */
    predicate Permits(st: Step)
      reads this
    {
      (calm ==> CalmStep(bound, s, st)) && (landing ==> LandingStep(st)) && (patient ==> PatientStep(st))
    }

    constructor (bound: Time, calm: bool, landing: bool, patient: bool)
      requires bound <= ACKNOWLEDGEMENT_WINDOW && (calm ==> landing && patient && 0 <= bound)
      ensures Valid() && s == START && this.bound == bound
      ensures this.calm == calm && this.landing == landing && this.patient == patient
    {
      this.bound, this.calm, this.landing, this.patient := bound, calm, landing, patient;
      s := START;
      trace := [START];
    }

    /** The world becomes calm after whatever happened before, between two calls. */
    constructor Calmed(w: Runtime)
      requires w.Valid() && 0 <= w.bound && w.s.p.exec.Idle?
      ensures Valid() && calm && s == w.s && trace == w.trace && bound == w.bound
    {
      bound, calm, landing, patient := w.bound, true, true, true;
      s, trace := w.s, w.trace;
    }

    lemma StateOk()
      requires Valid()
      ensures SysOk(s)
    {
      RunOk(bound, trace, |trace| - 1);
    }

    /** Whatever was answered or fixed at an earlier point of the trace still is. */
    lemma StandsSince(k: nat, ref: string)
      requires Valid() && k < |trace|
      ensures Stands(trace[k].p.table, s.p.table, ref)
    {
      RowsStand(bound, trace, k, |trace| - 1, ref);
    }

    lemma OverdueStaysAll(st: Step)
      requires Valid() && CanStep(bound, s, st) && Foreign(Sweeper, st)
      ensures forall t, r :: OverdueRow(s.p, t, r) ==> OverdueRow(TakeStep(bound, s, st).p, t, r)
    {
      StateOk();
      forall t, r | OverdueRow(s.p, t, r) ensures OverdueRow(TakeStep(bound, s, st).p, t, r) {
        OverdueStaysForeign(bound, s, st, t, r);
      }
    }

    method Do(st: Step)
      requires Valid() && CanStep(bound, s, st) && Permits(st)
      modifies this
      ensures Valid() && s == TakeStep(bound, old(s), st) && trace == old(trace) + [s]
    {
      RunExtends(bound, trace, st);
      if calm { CalmIsPrompt(bound, s, st); }
      s := TakeStep(bound, s, st);
      trace := trace + [s];
    }

    /** One step of another process. */
    method StepAside(who: Who, st: Step)
      requires Valid() && Foreign(who, st) && CanStep(bound, s, st)
      requires Permits(st) && (calm ==> !IsArrival(st))
      modifies this
      ensures Valid() && trace == old(trace) + [s] && Kept(who, old(s), s)
      ensures calm ==> s.p.arrived == old(s).p.arrived
      ensures who == Receiver && Quiet(old(s).p) ==> SameFacts(old(s).p, s.p)
      ensures who == Sweeper ==> forall t, r :: OverdueRow(old(s).p, t, r) ==> OverdueRow(s.p, t, r)
    {
      StateOk();
      ForeignKeeps(bound, who, s, st);
      if !IsArrival(st) { ArrivalsKept(bound, s, st); }
      if who == Receiver && Quiet(s.p) { QuietStays(bound, s, st); }
      if who == Sweeper { OverdueStaysAll(st); }
      Do(st);
    }

    /** The other processes take any steps they can, any number of times; in a calm world none of their calls
        fails either, and no demand arrives meanwhile. */
    method Interfere(who: Who)
      requires Valid()
      modifies this
      ensures Valid() && old(trace) <= trace && Kept(who, old(s), s)
      ensures calm ==> s.p.arrived == old(s).p.arrived
      ensures who == Receiver && Quiet(old(s).p) ==> SameFacts(old(s).p, s.p)
      ensures who == Sweeper ==> forall t, r :: OverdueRow(old(s).p, t, r) ==> OverdueRow(s.p, t, r)
    {
      var n: nat := *;
      while n > 0
        invariant Valid() && old(trace) <= trace && Kept(who, old(s), s)
        invariant calm ==> s.p.arrived == old(s).p.arrived
        invariant who == Receiver && Quiet(old(s).p) ==> SameFacts(old(s).p, s.p)
        invariant who == Sweeper ==> forall t, r :: OverdueRow(old(s).p, t, r) ==> OverdueRow(s.p, t, r)
      {
        var st: Step := *;
        if Foreign(who, st) && CanStep(bound, s, st) && Permits(st) && (calm ==> !IsArrival(st)) {
          StepAside(who, st);
        }
        n := n - 1;
      }
    }

    /** What the outbox says about an order that was answered at an earlier point of the trace, it still says. */
    lemma HistorySince(k: nat, ref: string, topic: Topic)
      requires Valid() && k < |trace| && ref in trace[k].p.table && trace[k].p.table[ref].state != New
      ensures ref in s.p.table && s.p.table[ref] == trace[k].p.table[ref]
      ensures Events(s.p.outbox, ref, topic) == Events(trace[k].p.outbox, ref, topic)
    {
      HistoryClosed(bound, trace, k, |trace| - 1, ref, topic);
    }

    /** An id no outbox row carries. */
    method NewId() returns (eid: nat)
      ensures FreshEvent(s.p.outbox, eid)
    {
      eid := 0;
      for i := 0 to |s.p.outbox|
        invariant forall j :: 0 <= j < i ==> s.p.outbox[j].row.eid < eid
      {
        if s.p.outbox[i].row.eid >= eid {
          eid := s.p.outbox[i].row.eid + 1;
        }
      }
    }

    /** An id order-management has not used yet. */
    method NewHoldId() returns (id: string)
      ensures id !in s.p.planner.raised
    {
      id := "hold";
      var used := s.p.planner.raised.Keys;
      while used != {}
        invariant used <= s.p.planner.raised.Keys
        invariant forall x :: x in s.p.planner.raised.Keys - used ==> |x| < |id|
        decreases used
      {
        var x :| x in used;
        used := used - {x};
        if |x| >= |id| { id := x + "-"; }
      }
      assert forall x :: x in s.p.planner.raised.Keys ==> |x| < |id|;
    }
  }
}
