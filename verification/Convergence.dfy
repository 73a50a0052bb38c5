/** Convergence: as long as every receive call went through, every recorded order is answered for good, the
    network was sent that answer, and no hold is left; failures are the only thing that can leave more to do. */
module Convergence {
  import opened Domain
  import opened Translation
  import opened Protocol
  import opened ProtocolInvariant
  import opened Pipeline
  import opened Guarantees

  /** The order is answered, the network was sent the same answer, and the hold of a yes is released. */
  ghost predicate RowDone(table: Table, planner: Planner, network: Network, r: string) {
    && r in table && table[r].state in {Acknowledged, Rejected}
    && Answer(r, table[r].state == Acknowledged) in network.answers
    && (table[r].local.Some? ==> table[r].local.value in planner.released)
  }

  /** Every call so far returned an order. */
  predicate Clear(endings: seq<Ending>) {
    forall i :: 0 <= i < |endings| ==> endings[i] in {Existing, Answered}
  }

  /** The call in progress recorded the order and is still answering it. */
  predicate InHand(e: Exec, r: string) {
    && e.Running? && e.d.ref == r
    && (e.ph.Raise? || e.ph.Cancel? || e.ph.Answering? || e.ph.Committing? || e.ph.Submit? || e.ph.Release?)
  }

  ghost predicate AllDone(s: Proto) {
    Clear(s.endings) ==>
      forall r :: r in s.table ==> RowDone(s.table, s.planner, s.network, r) || InHand(s.exec, r)
  }

  lemma FailureClouds(endings: seq<Ending>, e: Ending)
    ensures Clear(endings + [e]) <==> Clear(endings) && e in {Existing, Answered}
  {
    assert (endings + [e])[|endings|] == e;
    if Clear(endings + [e]) {
      forall i | 0 <= i < |endings| ensures endings[i] in {Existing, Answered} {
        assert (endings + [e])[i] == endings[i];
      }
    }
  }

  /** Saving one order leaves every other row as done as it was. */
  lemma OthersStayDone(s: Proto, s': Proto, o: Order)
    requires AllDone(s) && Clear(s.endings)
    requires s'.table == Upsert(s.table, o) && s'.planner == s.planner && s'.network == s.network
    requires forall r :: r != o.ref && InHand(s.exec, r) ==> InHand(s'.exec, r)
    requires InHand(s'.exec, o.ref)
    ensures AllDone(s')
  {
    forall r | r in s'.table ensures RowDone(s'.table, s'.planner, s'.network, r) || InHand(s'.exec, r) {
      if r != o.ref { assert RowDone(s.table, s.planner, s.network, r) || InHand(s.exec, r); }
    }
  }

  lemma CommitDone(s: Proto, out: Outcome)
    requires Inv(s) && AllDone(s) && s.exec.Running? && InTx(s.exec.ph) && Full(s.exec.ph.tx)
    ensures AllDone(AfterCommit(s, out))
  {
    var s' := AfterCommit(s, out);
    if out.Done? {
      if Clear(s.endings) { OthersStayDone(s, s', s.exec.ph.tx.o); }
    } else {
      FailureClouds(s.endings, Failed);
    }
  }

  lemma SubmitDone(s: Proto, out: Outcome)
    requires Inv(s) && AllDone(s) && s.exec.Running? && s.exec.ph.Submit?
    ensures AllDone(AfterSubmit(s, out))
  {
    var s', o := AfterSubmit(s, out), s.exec.ph.o;
    FailureClouds(s.endings, Failed);
    FailureClouds(s.endings, Answered);
    if Clear(s'.endings) {
      assert s'.network.answers[|s.network.answers|] == Answer(o.ref, o.state == Acknowledged);
      forall r | r in s'.table ensures RowDone(s'.table, s'.planner, s'.network, r) || InHand(s'.exec, r) {
        assert RowDone(s.table, s.planner, s.network, r) || InHand(s.exec, r);
      }
    }
  }

  lemma ReleaseDone(s: Proto, out: Outcome)
    requires Inv(s) && AllDone(s) && s.exec.Running? && s.exec.ph.Release? && s.exec.ph.o.local.Some?
    ensures AllDone(AfterRelease(s, out))
  {
    var s', o := AfterRelease(s, out), s.exec.ph.o;
    FailureClouds(s.endings, Failed);
    FailureClouds(s.endings, Answered);
    if Clear(s'.endings) {
      forall r | r in s'.table ensures RowDone(s'.table, s'.planner, s'.network, r) {
        assert RowDone(s.table, s.planner, s.network, r) || InHand(s.exec, r);
      }
    }
  }

  lemma FindDone(s: Proto, ok: bool)
    requires AllDone(s) && s.exec.Running? && s.exec.ph.Gate?
    ensures AllDone(AfterFind(s, ok))
  {
    FailureClouds(s.endings, Failed);
    FailureClouds(s.endings, Existing);
    var s' := AfterFind(s, ok);
    if Clear(s'.endings) {
      forall r | r in s'.table ensures RowDone(s'.table, s'.planner, s'.network, r) {
        assert RowDone(s.table, s.planner, s.network, r) || InHand(s.exec, r);
      }
    }
  }

  /** A step that leaves rows and answers alone keeps rows done; it may only end the call as failed. */
  lemma QuietDone(s: Proto, s': Proto)
    requires AllDone(s) && s'.table == s.table && s'.network == s.network
    requires s.planner.released <= s'.planner.released
    requires Clear(s'.endings) ==> Clear(s.endings) && forall r :: InHand(s.exec, r) ==> InHand(s'.exec, r)
    ensures AllDone(s')
  {
    if Clear(s'.endings) {
      forall r | r in s'.table ensures RowDone(s'.table, s'.planner, s'.network, r) || InHand(s'.exec, r) {
        assert RowDone(s.table, s.planner, s.network, r) || InHand(s.exec, r);
      }
    }
  }

  lemma TranslatedDone(s: Proto, lookups: seq<Lookup>)
    requires AllDone(s) && s.exec.Running? && s.exec.ph.Translate? && |lookups| == |s.exec.d.lines|
    ensures AllDone(AfterTranslation(s, lookups))
  {
    FailureClouds(s.endings, Failed);
    QuietDone(s, AfterTranslation(s, lookups));
  }

  lemma RaiseDone(s: Proto, raise: RaiseOutcome)
    requires AllDone(s) && s.exec.Running? && s.exec.ph.Raise?
    ensures AllDone(AfterRaise(s, raise))
  {
    FailureClouds(s.endings, Failed);
    QuietDone(s, AfterRaise(s, raise));
  }

  lemma CancelDone(s: Proto, out: Outcome)
    requires AllDone(s) && s.exec.Running? && s.exec.ph.Cancel?
    ensures AllDone(AfterCancel(s, out))
  {
    FailureClouds(s.endings, Failed);
    QuietDone(s, AfterCancel(s, out));
  }

  lemma FailedDone(s: Proto)
    requires AllDone(s) && s.exec.Running?
    ensures AllDone(End(s, Failed))
  {
    FailureClouds(s.endings, Failed);
    QuietDone(s, End(s, Failed));
  }

  lemma ExecStepDone(bound: Time, s: Proto, a: Action)
    requires Inv(s) && AllDone(s) && OfExec(a) && s.exec.Running? && ExecEnabled(bound, s, a)
    ensures AllDone(ExecApply(bound, s, a))
  {
    match a
    case FindByRef(ok) => FindDone(s, ok);
    case Translated(lookups) => TranslatedDone(s, lookups);
    case Insert(eid) => QuietDone(s, AfterInsert(s, eid));
    case TxFails => FailedDone(s);
    case Commit(out) => CommitDone(s, out);
    case CallRaise(raise) => RaiseDone(s, raise);
    case CallCancel(out) => CancelDone(s, out);
    case OpenAnswer => QuietDone(s, AfterOpen(s));
    case CallSubmit(out) => SubmitDone(s, out);
    case CallRelease(out) => ReleaseDone(s, out);
  }

  lemma SweepStepDone(bound: Time, s: Proto, a: Action)
    requires Inv(s) && AllDone(s) && OfSweep(a) && SweepEnabled(s, a)
    ensures AllDone(SweepApply(s, a))
  {
    if a.SweepCommit? && a.out.Effective() {
      assert LoadedOk(s.table, s.sweep.t, s.sweep.todo[0]);
      assert !RowDone(s.table, s.planner, s.network, s.sweep.tx.o.ref);
      if Clear(s.endings) { OthersStayDone(s, SweepApply(s, a), s.sweep.tx.o); }
    } else {
      QuietDone(s, SweepApply(s, a));
    }
  }

  lemma StepDone(bound: Time, s: Proto, a: Action)
    requires Inv(s) && AllDone(s) && Enabled(bound, s, a)
    ensures AllDone(Apply(bound, s, a))
  {
    if OfExec(a) {
      ExecStepDone(bound, s, a);
    } else if OfSweep(a) {
      SweepStepDone(bound, s, a);
    } else {
      FailureClouds(s.endings, Crashed);
      QuietDone(s, Apply(bound, s, a));
    }
  }

  lemma NextAllDone(bound: Time, tr: seq<Sys>, i: nat)
    requires Run(bound, tr) && bound <= ACKNOWLEDGEMENT_WINDOW && i + 1 < |tr| && AllDone(tr[i].p)
    ensures AllDone(tr[i + 1].p)
  {
    RunOk(bound, tr, i);
    assert Follows(bound, tr[i], tr[i + 1]);
    var st :| CanStep(bound, tr[i], st) && tr[i + 1] == TakeStep(bound, tr[i], st);
    if st.OfProtocol? { StepDone(bound, tr[i].p, st.a); }
  }

  lemma {:induction false} AllDoneThrough(ps: seq<Proto>, i: nat)
    requires forall k :: 0 <= k < |ps| - 1 && AllDone(ps[k]) ==> AllDone(ps[k + 1])
    requires i < |ps| && AllDone(ps[0])
    ensures AllDone(ps[i])
  {
    if i > 0 {
      AllDoneThrough(ps, i - 1);
      assert AllDone(ps[i - 1]) ==> AllDone(ps[i - 1 + 1]);
    }
  }

  lemma RunDone(bound: Time, tr: seq<Sys>, i: nat)
    requires Run(bound, tr) && bound <= ACKNOWLEDGEMENT_WINDOW && i < |tr|
    ensures AllDone(tr[i].p)
  {
    var ps := seq(|tr|, k requires 0 <= k < |tr| => tr[k].p);
    forall k | 0 <= k < |ps| - 1 && AllDone(ps[k]) ensures AllDone(ps[k + 1]) {
      NextAllDone(bound, tr, k);
    }
    AllDoneThrough(ps, i);
  }

  /** When every receive call so far returned an order and none is running, whatever the sweep did meanwhile:
      every recorded order is acknowledged or rejected, the network was sent exactly those answers, and no hold
      is outstanding. */
  lemma Converged(s: Sys)
    requires Reachable(s) && Clear(s.p.endings) && s.p.exec.Idle?
    ensures forall r :: r in s.p.table ==> RowDone(s.p.table, s.p.planner, s.p.network, r)
    ensures forall ans :: ans in s.p.network.answers ==> ans.ref in s.p.table
    ensures forall id :: !Outstanding(s.p.planner, id)
  {
    var bound, tr :| bound <= ACKNOWLEDGEMENT_WINDOW && Run(bound, tr) && tr[|tr| - 1] == s;
    RunDone(bound, tr, |tr| - 1);
    ReachableOk(s);
    forall ans | ans in s.p.network.answers ensures ans.ref in s.p.table {
      var i :| 0 <= i < |s.p.network.answers| && s.p.network.answers[i] == ans;
    }
  }

  // ----- what is done stays done -----

  ghost predicate DoneIn(p: Proto, r: string) { RowDone(p.table, p.planner, p.network, r) }

  lemma OutsideGrows(bound: Time, s: Proto, a: Action)
    requires Enabled(bound, s, a)
    ensures s.network.answers <= Apply(bound, s, a).network.answers
    ensures s.planner.released <= Apply(bound, s, a).planner.released
  {
  }

  lemma NextDone(bound: Time, tr: seq<Sys>, i: nat, r: string)
    requires Run(bound, tr) && bound <= ACKNOWLEDGEMENT_WINDOW && i + 1 < |tr|
    requires DoneIn(tr[i].p, r)
    ensures DoneIn(tr[i + 1].p, r)
  {
    NextStands(bound, tr, i, r);
    assert Follows(bound, tr[i], tr[i + 1]);
    var st :| CanStep(bound, tr[i], st) && tr[i + 1] == TakeStep(bound, tr[i], st);
    if st.OfProtocol? { OutsideGrows(bound, tr[i].p, st.a); }
  }

  lemma {:induction false} DoneThrough(ps: seq<Proto>, i: nat, j: nat, r: string)
    requires forall k :: 0 <= k < |ps| - 1 && DoneIn(ps[k], r) ==> DoneIn(ps[k + 1], r)
    requires i <= j < |ps| && DoneIn(ps[i], r)
    ensures DoneIn(ps[j], r)
  {
    if i < j {
      DoneThrough(ps, i, j - 1, r);
      assert DoneIn(ps[j - 1], r) ==> DoneIn(ps[j - 1 + 1], r);
    }
  }

  /** Along a run an order that is answered for good stays so. */
  lemma DoneStays(bound: Time, tr: seq<Sys>, i: nat, j: nat, r: string)
    requires Run(bound, tr) && bound <= ACKNOWLEDGEMENT_WINDOW && i <= j < |tr| && DoneIn(tr[i].p, r)
    ensures DoneIn(tr[j].p, r)
  {
    var ps := seq(|tr|, k requires 0 <= k < |tr| => tr[k].p);
    forall k | 0 <= k < |ps| - 1 && DoneIn(ps[k], r) ensures DoneIn(ps[k + 1], r) {
      NextDone(bound, tr, k, r);
    }
    DoneThrough(ps, i, j, r);
  }
}
