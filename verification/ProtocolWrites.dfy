/** The only ways the protocol writes durable state, and what follows for every reader of it. */
module ProtocolWrites {
  import opened Domain
  import opened Protocol
  import opened History
  import opened ProtocolInvariant
  import Relay

  /** The transaction an action commits, if it commits one. */
  function Committed(s: Proto, a: Action): Option<Tx> {
    match a
    case Commit(out) => if out.Effective() && s.exec.Running? && InTx(s.exec.ph) then Some(s.exec.ph.tx) else None
    case SweepCommit(out) => if out.Effective() && s.sweep.Missing? then Some(s.sweep.tx) else None
    case _ => None
  }

  lemma CommitsAreCommittable(bound: Time, s: Proto, a: Action)
    requires Inv(s) && Enabled(bound, s, a) && bound <= ACKNOWLEDGEMENT_WINDOW && Committed(s, a).Some?
    ensures Committable(s.table, s.outbox, Committed(s, a).value)
  {
    if a.Commit? {
      if s.exec.ph.Recording? { RecordingCommittable(s); }
    } else {
      assert LoadedOk(s.table, s.sweep.t, s.sweep.todo[0]);
    }
  }

  /** A step that commits a transaction upserts its order and reveals its rows together; any other step leaves
      the table alone and at most takes one more outbox id. */
  lemma Writes(bound: Time, s: Proto, a: Action)
    requires Enabled(bound, s, a)
    ensures var s' := Apply(bound, s, a);
      match Committed(s, a)
      case Some(tx) => s'.table == Upsert(s.table, tx.o) && s'.outbox == CommitRows(s.outbox, tx.slots)
      case None =>
        && s'.table == s.table
        && (s'.outbox == s.outbox
            || (exists sl: Slot :: s'.outbox == s.outbox + [sl] && !sl.committed && FreshEvent(s.outbox, sl.row.eid)))
  {
    var s' := Apply(bound, s, a);
    if a.Insert? || a.SweepInsert? {
      var sl := s'.outbox[|s.outbox|];
      assert s'.outbox == s.outbox + [sl] && !sl.committed && FreshEvent(s.outbox, sl.row.eid);
    }
  }

  /** An answered row is never touched again, and nothing the network fixed at intake is ever moved. */
  lemma AnswersStand(bound: Time, s: Proto, a: Action, r: string)
    requires Inv(s) && Enabled(bound, s, a) && bound <= ACKNOWLEDGEMENT_WINDOW
    requires r in s.table
    ensures var s' := Apply(bound, s, a);
      && r in s'.table && Intake(s'.table[r]) == Intake(s.table[r])
      && (s.table[r].state != New ==> s'.table[r] == s.table[r])
  {
    Writes(bound, s, a);
    if Committed(s, a).Some? {
      CommitsAreCommittable(bound, s, a);
    }
  }

  lemma CommitGrows(table: Table, outbox: seq<Slot>, tx: Tx)
    requires Committable(table, outbox, tx)
    ensures Relay.Grows(outbox, CommitRows(outbox, tx.slots))
  {
    assert tx.slots == [tx.slots[0], tx.slots[1]];
  }

  /** No step makes a row visible below a visible row of the same order. */
  lemma OutboxGrows(bound: Time, s: Proto, a: Action)
    requires Inv(s) && Enabled(bound, s, a) && bound <= ACKNOWLEDGEMENT_WINDOW
    ensures Relay.Grows(s.outbox, Apply(bound, s, a).outbox)
  {
    Writes(bound, s, a);
    match Committed(s, a)
    case Some(tx) =>
      CommitsAreCommittable(bound, s, a);
      CommitGrows(s.table, s.outbox, tx);
    case None =>
  }

  /** A row appears only by the commit of a receive call, about the demand that call was given: with the site and
      the ship-by deadline the network sent, received at the call's first clock read, and due 24 hours later. */
  lemma RecordsDemand(bound: Time, s: Proto, a: Action, r: string)
    requires Inv(s) && Enabled(bound, s, a) && bound <= ACKNOWLEDGEMENT_WINDOW
    requires r !in s.table && r in Apply(bound, s, a).table
    ensures s.exec.Running? && r == s.exec.d.ref
    ensures var o, d := Apply(bound, s, a).table[r], s.exec.d;
      && o.ref == r && o.site == d.site && o.shipBy == d.shipBy
      && o.receivedAt == s.exec.t0 && o.ackBy == s.exec.t0 + 86_400_000_000_000
      && o.state == New && o.local == None
  {
    Writes(bound, s, a);
    if a.SweepCommit? { HeadIsOverdue(s); }
  }

  // ----- the sweep's report -----

  ghost predicate EndsMissed(outbox: seq<Slot>, r: string, t: Topic) {
    var es := Events(outbox, r, t);
    |es| == 2 && es[1].OrderRejected? && es[1].reason == DeadlineMissed
  }

  ghost predicate MovedOk(table: Table, outbox: seq<Slot>, moved: set<string>) {
    forall r :: r in moved ==> r in table && table[r].state == Rejected && forall t :: EndsMissed(outbox, r, t)
  }

  /** The orders whose miss a pass has recorded, whether it knows or not. */
  function Reported(w: Sweep): set<string> {
    if w.Looping? || w.Missing? then w.rep.moved + w.rep.landed else {}
  }

  /** The row's window had closed by t, and still nobody has answered it. */
  predicate OverdueRow(p: Proto, t: Time, r: string) {
    t <= p.now && r in p.table && p.table[r].state == New && p.table[r].ackBy < t
  }

  /** An order for which a call of the pass failed without its commit landing is as overdue as before. */
  ghost predicate LeftOk(s: Proto) {
    var w := s.sweep;
    w.Looping? || w.Missing? ==>
      && w.rep.landed <= w.rep.failed
      && (forall r :: r in w.rep.failed - w.rep.landed ==> OverdueRow(s, w.t, r))
      && (forall r, i :: r in w.rep.failed && 0 <= i < |w.todo| ==> w.todo[i].ref != r)
  }

  ghost predicate ReportOk(s: Proto) { MovedOk(s.table, s.outbox, Reported(s.sweep)) && LeftOk(s) }

  /** Whether the action is a sweep's commit that takes effect on the order. */
  predicate Refuses(s: Proto, a: Action, r: string) {
    a.SweepCommit? && a.out.Effective() && s.sweep.Missing? && s.sweep.tx.o.ref == r
  }

  /** Nothing but the sweep's own commit answers an order whose window has closed. */
  lemma OverdueStays(bound: Time, s: Proto, a: Action, t: Time, r: string)
    requires Inv(s) && Enabled(bound, s, a) && bound <= ACKNOWLEDGEMENT_WINDOW
    requires OverdueRow(s, t, r) && !Refuses(s, a, r)
    ensures OverdueRow(Apply(bound, s, a), t, r)
  {
    Writes(bound, s, a);
    match Committed(s, a)
    case Some(tx) =>
      CommitsAreCommittable(bound, s, a);
      assert RowOk(s.planner, r, s.table[r]);
    case None =>
  }

  lemma ReportFrame(bound: Time, s: Proto, a: Action, r: string, t: Topic)
    requires Inv(s) && Enabled(bound, s, a) && bound <= ACKNOWLEDGEMENT_WINDOW
    requires r in s.table && s.table[r].state != New
    ensures Events(Apply(bound, s, a).outbox, r, t) == Events(s.outbox, r, t)
  {
    Writes(bound, s, a);
    if Committed(s, a).Some? {
      CommitsAreCommittable(bound, s, a);
      CommitEvents(s.table, s.outbox, Committed(s, a).value, r, t);
    } else {
      var outbox' := Apply(bound, s, a).outbox;
      if outbox' != s.outbox {
        EventsInsert(s.outbox, outbox'[|s.outbox|], r, t);
      }
    }
  }

  lemma MovedNow(bound: Time, s: Proto, a: Action)
    requires Inv(s) && Enabled(bound, s, a) && bound <= ACKNOWLEDGEMENT_WINDOW && a.SweepCommit? && a.out.Effective()
    ensures var s' := Apply(bound, s, a); var r := s.sweep.tx.o.ref;
      && r in s'.table && s'.table[r].state == Rejected
      && forall t :: EndsMissed(s'.outbox, r, t)
  {
    var s', tx := Apply(bound, s, a), s.sweep.tx;
    CommitsAreCommittable(bound, s, a);
    forall t ensures EndsMissed(s'.outbox, tx.o.ref, t) {
      CommitEvents(s.table, s.outbox, tx, tx.o.ref, t);
      assert Story(s.table, tx.o.ref, Events(s.outbox, tx.o.ref, t));
    }
  }

  lemma MovedStays(bound: Time, s: Proto, a: Action, r: string)
    requires Inv(s) && Enabled(bound, s, a) && bound <= ACKNOWLEDGEMENT_WINDOW
    requires r in s.table && s.table[r].state == Rejected && forall t :: EndsMissed(s.outbox, r, t)
    ensures var s' := Apply(bound, s, a);
      r in s'.table && s'.table[r].state == Rejected && forall t :: EndsMissed(s'.outbox, r, t)
  {
    var s' := Apply(bound, s, a);
    AnswersStand(bound, s, a, r);
    forall t ensures EndsMissed(s'.outbox, r, t) {
      assert EndsMissed(s.outbox, r, t);
      ReportFrame(bound, s, a, r, t);
    }
  }

  lemma SweepReports(s: Proto, a: Action)
    requires SweepEnabled(s, a)
    ensures Reported(SweepApply(s, a).sweep) <=
            Reported(s.sweep)
            + if a.SweepCommit? && a.out.Effective() then {s.sweep.tx.o.ref, s.sweep.todo[0].ref} else {}
  {
  }

  lemma SweepReportsMore(s: Proto, a: Action)
    requires Inv(s) && SweepEnabled(s, a)
    ensures Reported(SweepApply(s, a).sweep) <=
            Reported(s.sweep) + if a.SweepCommit? && a.out.Effective() then {s.sweep.tx.o.ref} else {}
  {
    SweepReports(s, a);
    if a.SweepCommit? { HeadIsOverdue(s); }
  }

  lemma ReportedGrows(bound: Time, s: Proto, a: Action)
    requires Inv(s) && Enabled(bound, s, a)
    ensures Reported(Apply(bound, s, a).sweep) <=
            Reported(s.sweep) + if a.SweepCommit? && a.out.Effective() then {s.sweep.tx.o.ref} else {}
  {
    if OfSweep(a) { SweepReportsMore(s, a); } else { PassFrame(bound, s, a); }
  }

  /** Every order a pass counts as missed, or whose failed commit landed, is rejected, with a deadline-missed
      event last. */
  lemma MovedKeeps(bound: Time, s: Proto, a: Action)
    requires Inv(s) && ReportOk(s) && Enabled(bound, s, a) && bound <= ACKNOWLEDGEMENT_WINDOW
    ensures var s' := Apply(bound, s, a); MovedOk(s'.table, s'.outbox, Reported(s'.sweep))
  {
    var s' := Apply(bound, s, a);
    ReportedGrows(bound, s, a);
    forall r | r in Reported(s'.sweep)
      ensures r in s'.table && s'.table[r].state == Rejected && forall t :: EndsMissed(s'.outbox, r, t)
    {
      if r in Reported(s.sweep) {
        MovedStays(bound, s, a, r);
      } else {
        MovedNow(bound, s, a);
      }
    }
  }

  /** The head of the list is overdue in the table too. */
  lemma HeadIsOverdue(s: Proto)
    requires Inv(s) && (HeadOverdue(s.sweep) || (s.sweep.Missing? && s.sweep.todo != []))
    ensures OverdueRow(s, s.sweep.t, s.sweep.todo[0].ref)
    ensures s.sweep.Missing? ==> s.sweep.tx.o.ref == s.sweep.todo[0].ref
    ensures forall i :: 0 < i < |s.sweep.todo| ==> s.sweep.todo[i].ref != s.sweep.todo[0].ref
  {
    assert LoadedOk(s.table, s.sweep.t, s.sweep.todo[0]);
  }

  lemma FailLeft(s: Proto)
    requires Inv(s) && LeftOk(s) && (HeadOverdue(s.sweep) || (s.sweep.Missing? && s.sweep.todo != []))
    ensures LeftOk(s.(sweep := Fail(s.sweep)))
  {
    HeadIsOverdue(s);
    var s' := s.(sweep := Fail(s.sweep));
    forall r | r in s'.sweep.rep.failed - s'.sweep.rep.landed ensures OverdueRow(s', s'.sweep.t, r) {
      if r in s.sweep.rep.failed { assert OverdueRow(s, s.sweep.t, r); }
    }
  }

  lemma SweepLeft(s: Proto, a: Action)
    requires Inv(s) && LeftOk(s) && OfSweep(a) && SweepEnabled(s, a) && !(a.SweepCommit? && a.out.Effective())
    ensures LeftOk(SweepApply(s, a))
  {
    if a.SweepTxFails? || a.SweepCommit? {
      FailLeft(s);
    } else if a.SweepCancel? {
      SweepNeverCancels(0, s, a.out);
    }
  }

  lemma CommitLeft(bound: Time, s: Proto, a: Action)
    requires Inv(s) && LeftOk(s) && Enabled(bound, s, a) && bound <= ACKNOWLEDGEMENT_WINDOW
    requires a.SweepCommit? && a.out.Effective()
    ensures LeftOk(Apply(bound, s, a))
  {
    var s' := Apply(bound, s, a);
    HeadIsOverdue(s);
    forall r | r in s'.sweep.rep.failed - s'.sweep.rep.landed ensures OverdueRow(s', s'.sweep.t, r) {
      OverdueStays(bound, s, a, s.sweep.t, r);
    }
  }

  lemma OthersLeave(bound: Time, s: Proto, a: Action)
    requires Inv(s) && LeftOk(s) && Enabled(bound, s, a) && bound <= ACKNOWLEDGEMENT_WINDOW
    requires !OfSweep(a) && (s.sweep.Looping? || s.sweep.Missing?)
    ensures forall r :: r in s.sweep.rep.failed - s.sweep.rep.landed ==>
              OverdueRow(Apply(bound, s, a), s.sweep.t, r)
  {
    forall r | r in s.sweep.rep.failed - s.sweep.rep.landed ensures OverdueRow(Apply(bound, s, a), s.sweep.t, r) {
      OverdueStays(bound, s, a, s.sweep.t, r);
    }
  }

  /** Only sweep actions and crashes touch the pass. */
  lemma PassFrame(bound: Time, s: Proto, a: Action)
    requires Enabled(bound, s, a) && !OfSweep(a)
    ensures Apply(bound, s, a).sweep == if a.Crash? then Resting else s.sweep
  {
  }

  lemma SweepKeepsLeft(bound: Time, s: Proto, a: Action)
    requires Inv(s) && LeftOk(s) && Enabled(bound, s, a) && bound <= ACKNOWLEDGEMENT_WINDOW && OfSweep(a)
    ensures LeftOk(Apply(bound, s, a))
  {
    if a.SweepCommit? && a.out.Effective() {
      CommitLeft(bound, s, a);
    } else {
      SweepLeft(s, a);
    }
  }

  lemma LeftKeeps(bound: Time, s: Proto, a: Action)
    requires Inv(s) && LeftOk(s) && Enabled(bound, s, a) && bound <= ACKNOWLEDGEMENT_WINDOW
    ensures LeftOk(Apply(bound, s, a))
  {
    if OfSweep(a) {
      SweepKeepsLeft(bound, s, a);
    } else {
      PassFrame(bound, s, a);
      if s.sweep.Looping? || s.sweep.Missing? { OthersLeave(bound, s, a); }
    }
  }

  lemma ReportKeeps(bound: Time, s: Proto, a: Action)
    requires Inv(s) && ReportOk(s) && Enabled(bound, s, a) && bound <= ACKNOWLEDGEMENT_WINDOW
    ensures ReportOk(Apply(bound, s, a))
  {
    MovedKeeps(bound, s, a);
    LeftKeeps(bound, s, a);
  }

  // ----- what the outside sees -----

  predicate Plans(a: Action) { a.CallRaise? || a.CallCancel? || a.CallRelease? || a.SweepCancel? }

  /** Order-management's ledger and the network change only by the calls made to them. */
  lemma OutsideFrame(bound: Time, s: Proto, a: Action)
    requires Enabled(bound, s, a)
    ensures !Plans(a) ==> Apply(bound, s, a).planner == s.planner
    ensures !a.CallSubmit? ==> Apply(bound, s, a).network == s.network
  {
  }

  lemma EndingsGrow(bound: Time, s: Proto, a: Action)
    requires Enabled(bound, s, a)
    ensures s.endings <= Apply(bound, s, a).endings
  {
  }

  /** An outstanding hold of a call that has ended. */
  ghost predicate Orphan(s: Proto, id: string) {
    Outstanding(s.planner, id) && s.planner.raised[id].call < |s.endings|
  }

  ghost predicate LeavesOrphan(s: Proto, s': Proto, id: string) {
    && Outstanding(s.planner, id) && Outstanding(s'.planner, id)
    && s'.planner.raised[id] == s.planner.raised[id]
  }

  lemma RaiseLeaves(s: Proto, raise: RaiseOutcome, id: string)
    requires Orphan(s, id) && s.exec.Running? && s.exec.ph.Raise?
    requires raise.RaiseFailed? || raise.id !in s.planner.raised
    ensures LeavesOrphan(s, AfterRaise(s, raise), id)
  {
  }

  lemma CancelLeaves(s: Proto, out: Outcome, id: string)
    requires Inv(s) && Orphan(s, id) && s.exec.Running? && s.exec.ph.Cancel?
    ensures LeavesOrphan(s, AfterCancel(s, out), id)
  {
  }

  lemma ReleaseLeaves(s: Proto, out: Outcome, id: string)
    requires Inv(s) && Orphan(s, id) && s.exec.Running? && s.exec.ph.Release? && s.exec.ph.o.local.Some?
    ensures LeavesOrphan(s, AfterRelease(s, out), id)
  {
  }

  lemma CallLeaves(bound: Time, s: Proto, a: Action, id: string)
    requires Inv(s) && Orphan(s, id) && s.exec.Running? && OfExec(a) && ExecEnabled(bound, s, a) && Plans(a)
    ensures LeavesOrphan(s, ExecApply(bound, s, a), id)
  {
    match a
    case CallRaise(raise) => RaiseLeaves(s, raise, id);
    case CallCancel(out) => CancelLeaves(s, out, id);
    case CallRelease(out) => ReleaseLeaves(s, out, id);
  }

  /** A call that has ended settles nothing any more, and no other call settles its hold. */
  lemma HoldStays(bound: Time, s: Proto, a: Action, id: string)
    requires Inv(s) && Enabled(bound, s, a) && Orphan(s, id)
    ensures var s' := Apply(bound, s, a); LeavesOrphan(s, s', id) && |s.endings| <= |s'.endings|
  {
    EndingsGrow(bound, s, a);
    if !Plans(a) {
      OutsideFrame(bound, s, a);
    } else if a.SweepCancel? {
      SweepNeverCancels(bound, s, a.out);
    } else {
      CallLeaves(bound, s, a, id);
    }
  }
}
