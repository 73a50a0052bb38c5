/** What holds in every state of every run of the whole system. */
module Guarantees {
  import opened Domain
  import opened Sums
  import opened Protocol
  import opened History
  import opened ProtocolInvariant
  import opened ProtocolWrites
  import opened Relay
  import opened Projection
  import opened Consumer
  import opened Tallies
  import opened Pipeline

  /** A state some run reaches in which no answer of a call committed after the window the call opened. */
  ghost predicate Reachable(s: Sys) {
    exists bound, tr :: bound <= ACKNOWLEDGEMENT_WINDOW && Run(bound, tr) && tr[|tr| - 1] == s
  }

  lemma ReachableOk(s: Sys)
    requires Reachable(s)
    ensures SysOk(s)
  {
    var bound, tr :| bound <= ACKNOWLEDGEMENT_WINDOW && Run(bound, tr) && tr[|tr| - 1] == s;
    RunOk(bound, tr, |tr| - 1);
  }

  // ----- row and history -----

  /** On each topic the events of an order are exactly: none without a row; its receipt while it is unanswered;
      its receipt and then the one answer its row shows, a yes inside the 24 hours. A refusal says the deadline was
      missed exactly when it came after that; before, it says untranslatable exactly when the order has no lines, and
      infeasible exactly when order-management called a hold of the order infeasible and had it cancelled. */
  lemma RowAndHistoryAgree(s: Sys, ref: string, topic: Topic)
    requires Reachable(s)
    ensures var es := Events(s.p.outbox, ref, topic);
      if ref !in s.p.table then es == []
      else
        var o := s.p.table[ref];
        && o.ackBy == o.receivedAt + 86_400_000_000_000
        && match o.state
           case New => |es| == 1 && IsReceived(es[0], o)
           case Acknowledged =>
             && |es| == 2 && IsReceived(es[0], o) && IsAnswer(es[1], o)
             && es[1].OrderAcknowledged? && o.receivedAt <= es[1].at <= o.ackBy
           case Rejected =>
             && |es| == 2 && IsReceived(es[0], o) && IsAnswer(es[1], o)
             && es[1].OrderRejected? && o.receivedAt <= es[1].at
             && (es[1].reason == DeadlineMissed <==> es[1].at > o.ackBy)
             && (es[1].at <= o.ackBy ==>
                   && (es[1].reason == UntranslatableSku <==> o.lines == [])
                   && (es[1].reason == InfeasibleDeadline <==> Declined(s.p.planner, ref)))
           case Confirmed => false
  {
    ReachableOk(s);
    assert Story(s.p.table, ref, Events(s.p.outbox, ref, topic));
    if ref in s.p.table {
      assert RowOk(s.p.planner, ref, s.p.table[ref]);
      var es := Events(s.p.outbox, ref, topic);
      if |es| == 2 { EventsAreCaused(s.p.planner, s.p.outbox, ref, topic, 1); }
    }
  }

  lemma {:induction false} EventsAreCaused(planner: Planner, outbox: seq<Slot>, ref: string, topic: Topic, k: nat)
    requires CausesOk(planner, outbox) && k < |Events(outbox, ref, topic)|
    ensures Caused(planner, Events(outbox, ref, topic)[k])
  {
    var n := |outbox| - 1;
    if k < |Events(outbox[..n], ref, topic)| {
      EventsAreCaused(planner, outbox[..n], ref, topic, k);
    }
  }

  // ----- an answered order's history is closed -----

  ghost predicate Closed(a: Proto, b: Proto, ref: string, topic: Topic) {
    ref in a.table && a.table[ref].state != New ==>
      && ref in b.table && b.table[ref] == a.table[ref]
      && Events(b.outbox, ref, topic) == Events(a.outbox, ref, topic)
  }

  lemma NextClosed(bound: Time, tr: seq<Sys>, i: nat, ref: string, topic: Topic)
    requires Run(bound, tr) && bound <= ACKNOWLEDGEMENT_WINDOW && i + 1 < |tr|
    ensures Closed(tr[i].p, tr[i + 1].p, ref, topic)
  {
    RunOk(bound, tr, i);
    assert Follows(bound, tr[i], tr[i + 1]);
    var st :| CanStep(bound, tr[i], st) && tr[i + 1] == TakeStep(bound, tr[i], st);
    if st.OfProtocol? && ref in tr[i].p.table && tr[i].p.table[ref].state != New {
      AnswersStand(bound, tr[i].p, st.a, ref);
      ReportFrame(bound, tr[i].p, st.a, ref, topic);
    }
  }

  lemma {:induction false} ClosedThrough(ps: seq<Proto>, i: nat, j: nat, ref: string, topic: Topic)
    requires forall k :: 0 <= k < |ps| - 1 ==> Closed(ps[k], ps[k + 1], ref, topic)
    requires i <= j < |ps|
    ensures Closed(ps[i], ps[j], ref, topic)
  {
    if i < j {
      ClosedThrough(ps, i, j - 1, ref, topic);
      assert Closed(ps[j - 1], ps[j - 1 + 1], ref, topic);
    }
  }

  /** Once a row is answered, neither it nor what the outbox says about it ever changes again. */
  lemma HistoryClosed(bound: Time, tr: seq<Sys>, i: nat, j: nat, ref: string, topic: Topic)
    requires Run(bound, tr) && bound <= ACKNOWLEDGEMENT_WINDOW && i <= j < |tr|
    requires ref in tr[i].p.table && tr[i].p.table[ref].state != New
    ensures ref in tr[j].p.table && tr[j].p.table[ref] == tr[i].p.table[ref]
    ensures Events(tr[j].p.outbox, ref, topic) == Events(tr[i].p.outbox, ref, topic)
  {
    var ps := seq(|tr|, k requires 0 <= k < |tr| => tr[k].p);
    forall k | 0 <= k < |ps| - 1 ensures Closed(ps[k], ps[k + 1], ref, topic) {
      NextClosed(bound, tr, k, ref, topic);
    }
    ClosedThrough(ps, i, j, ref, topic);
  }

  // ----- nothing answered is overwritten -----

  ghost predicate Stands(a: Table, b: Table, ref: string) {
    ref in a ==>
      && ref in b && Intake(b[ref]) == Intake(a[ref])
      && (a[ref].state != New ==> b[ref] == a[ref])
  }

  lemma StepStands(bound: Time, s: Sys, s': Sys, ref: string)
    requires SysOk(s) && bound <= ACKNOWLEDGEMENT_WINDOW && Follows(bound, s, s')
    ensures Stands(s.p.table, s'.p.table, ref)
  {
    var st :| CanStep(bound, s, st) && s' == TakeStep(bound, s, st);
    if st.OfProtocol? && ref in s.p.table {
      AnswersStand(bound, s.p, st.a, ref);
    }
  }

  lemma NextStands(bound: Time, tr: seq<Sys>, i: nat, ref: string)
    requires Run(bound, tr) && bound <= ACKNOWLEDGEMENT_WINDOW && i + 1 < |tr|
    ensures Stands(tr[i].p.table, tr[i + 1].p.table, ref)
  {
    RunOk(bound, tr, i);
    assert Follows(bound, tr[i], tr[i + 1]);
    StepStands(bound, tr[i], tr[i + 1], ref);
  }

  lemma {:induction false} StandThrough(tables: seq<Table>, i: nat, j: nat, ref: string)
    requires forall k :: 0 <= k < |tables| - 1 ==> Stands(tables[k], tables[k + 1], ref)
    requires i <= j < |tables|
    ensures Stands(tables[i], tables[j], ref)
  {
    if i < j {
      StandThrough(tables, i, j - 1, ref);
      assert Stands(tables[j - 1], tables[j - 1 + 1], ref);
    }
  }

  /** From any state of a run to any later one, through failures, crashes, stale lists and ambiguous commits: a
      row stays, what the network fixed stays, and an answer once recorded is never overwritten. */
  lemma RowsStand(bound: Time, tr: seq<Sys>, i: nat, j: nat, ref: string)
    requires Run(bound, tr) && bound <= ACKNOWLEDGEMENT_WINDOW && i <= j < |tr|
    ensures Stands(tr[i].p.table, tr[j].p.table, ref)
  {
    var tables := seq(|tr|, k requires 0 <= k < |tr| => tr[k].p.table);
    forall k | 0 <= k < |tr| - 1 ensures Stands(tables[k], tables[k + 1], ref) {
      NextStands(bound, tr, k, ref);
    }
    StandThrough(tables, i, j, ref);
  }

  // ----- one answer -----

  /** The network is told at most one answer per order, the one the row durably shows, after the event that
      says the same was enqueued on every topic. */
  lemma OneAnswerPerOrder(s: Sys, i: nat)
    requires Reachable(s) && i < |s.p.network.answers|
    ensures var ans := s.p.network.answers[i];
      && (forall j :: 0 <= j < |s.p.network.answers| && j != i ==> s.p.network.answers[j].ref != ans.ref)
      && ans.ref in s.p.table
      && s.p.table[ans.ref].state == (if ans.accepted then Acknowledged else Rejected)
      && (forall t :: var es := Events(s.p.outbox, ans.ref, t);
            |es| == 2 && (if ans.accepted then es[1].OrderAcknowledged? else es[1].OrderRejected?))
  {
    ReachableOk(s);
    forall t ensures Story(s.p.table, s.p.network.answers[i].ref, Events(s.p.outbox, s.p.network.answers[i].ref, t)) {
    }
  }

  // ----- the hold ledger -----

  /** Every raised hold is for a recorded order whose every line was translated, and it is released, cancelled or
      outstanding, only one of them. Only holds called infeasible are cancelled. A released hold was called
      feasible, its order's durable yes is linked to it, and the network confirmed that yes; no hold serves two
      orders. An outstanding hold is carried by the call in progress or was left by one that failed or was lost. */
  lemma HoldLedger(s: Sys, id: string)
    requires Reachable(s) && id in s.p.planner.raised
    ensures var pl := s.p.planner; var h := pl.raised[id];
      && h.ref in s.p.table && s.p.table[h.ref].lines != []
      && !(id in pl.released && id in pl.cancelled)
      && (id in pl.cancelled ==> !h.feasible)
      && (id in pl.released ==>
            && h.feasible
            && h.ref in s.p.table && s.p.table[h.ref].state == Acknowledged && s.p.table[h.ref].local == Some(id)
            && h.ref in s.p.network.told && Answer(h.ref, true) in s.p.network.answers)
      && (forall r :: r in s.p.table && s.p.table[r].local == Some(id) ==> r == h.ref)
      && (Outstanding(pl, id) ==>
            if h.call < |s.p.endings| then s.p.endings[h.call] in {Failed, Crashed}
            else s.p.exec.Running? && Carried(s.p.exec) == Some(id))
  {
    ReachableOk(s);
    forall r | r in s.p.table && s.p.table[r].local == Some(id) ensures r == s.p.planner.raised[id].ref {
      assert RowOk(s.p.planner, r, s.p.table[r]);
    }
    if id in s.p.planner.released {
      assert RowOk(s.p.planner, s.p.planner.raised[id].ref, s.p.table[s.p.planner.raised[id].ref]);
    }
  }

  lemma NextOrphaned(bound: Time, tr: seq<Sys>, i: nat, id: string)
    requires Run(bound, tr) && bound <= ACKNOWLEDGEMENT_WINDOW && i + 1 < |tr| && Orphan(tr[i].p, id)
    ensures Orphan(tr[i + 1].p, id)
  {
    RunOk(bound, tr, i);
    assert Follows(bound, tr[i], tr[i + 1]);
    var st :| CanStep(bound, tr[i], st) && tr[i + 1] == TakeStep(bound, tr[i], st);
    if st.OfProtocol? { HoldStays(bound, tr[i].p, st.a, id); }
  }

  lemma {:induction false} OrphanThrough(ps: seq<Proto>, i: nat, j: nat, id: string)
    requires forall k :: 0 <= k < |ps| - 1 && Orphan(ps[k], id) ==> Orphan(ps[k + 1], id)
    requires i <= j < |ps| && Orphan(ps[i], id)
    ensures Orphan(ps[j], id)
  {
    if i < j {
      OrphanThrough(ps, i, j - 1, id);
      assert Orphan(ps[j - 1], id) ==> Orphan(ps[j - 1 + 1], id);
    }
  }

  /** Nobody ever settles a hold that a failed or lost call left behind: it is outstanding in every later state,
      whatever is redelivered, swept or restarted. */
  lemma OrphansStay(bound: Time, tr: seq<Sys>, i: nat, j: nat, id: string)
    requires Run(bound, tr) && bound <= ACKNOWLEDGEMENT_WINDOW && i <= j < |tr| && Orphan(tr[i].p, id)
    ensures Orphan(tr[j].p, id)
  {
    var ps := seq(|tr|, k requires 0 <= k < |tr| => tr[k].p);
    forall k | 0 <= k < |ps| - 1 && Orphan(ps[k], id) ensures Orphan(ps[k + 1], id) {
      NextOrphaned(bound, tr, k, id);
    }
    OrphanThrough(ps, i, j, id);
  }

  /** A released or cancelled ledger never names a hold that was not raised. */
  lemma LedgerClosed(s: Sys)
    requires Reachable(s)
    ensures s.p.planner.released + s.p.planner.cancelled <= s.p.planner.raised.Keys
    ensures forall out, bound :: !Enabled(bound, s.p, SweepCancel(out))
  {
    ReachableOk(s);
    forall out, bound ensures !Enabled(bound, s.p, SweepCancel(out)) {
      SweepNeverCancels(bound, s.p, out);
    }
  }

  // ----- the relay -----

  /** However sends, marks, commits and passes fail, the first delivery of a row comes after a delivery of every
      earlier row of its key; a marked row was sent successfully; what is delivered is what was enqueued. */
  lemma RelayOrder(s: Sys)
    requires Reachable(s)
    ensures forall p, i | 0 <= p < |s.r.log| && 0 <= i < s.r.log[p].id < |s.p.outbox|
                          && s.p.outbox[i].committed && SameKey(s.p.outbox, i, s.r.log[p].id) ::
              i in s.r.sent && Delivered(s.r.log[..p], i)
    ensures forall i :: i in s.r.published ==> i in s.r.sent
    ensures forall i :: i in s.r.sent ==> Delivered(s.r.log, i)
    ensures forall p :: 0 <= p < |s.r.log| ==>
              s.r.log[p].id < |s.p.outbox| && s.p.outbox[s.r.log[p].id] == Slot(s.r.log[p].row, true)
  {
    ReachableOk(s);
    forall p, i | 0 <= p < |s.r.log| && 0 <= i < s.r.log[p].id && s.p.outbox[i].committed
                  && SameKey(s.p.outbox, i, s.r.log[p].id)
      ensures i in s.r.sent && Delivered(s.r.log[..p], i)
    {
      assert PredecessorsSent(s.p.outbox, s.r.sent, s.r.log[p].id);
    }
  }

  /** The outbox of a later state: rows never change, disappear or become invisible. */
  ghost predicate Extends(a: seq<Slot>, b: seq<Slot>) {
    |a| <= |b| && forall i :: 0 <= i < |a| ==> b[i].row == a[i].row && (a[i].committed ==> b[i].committed)
  }

  lemma NextExtends(bound: Time, tr: seq<Sys>, i: nat)
    requires Run(bound, tr) && bound <= ACKNOWLEDGEMENT_WINDOW && i + 1 < |tr|
    ensures Extends(tr[i].p.outbox, tr[i + 1].p.outbox)
  {
    RunOk(bound, tr, i);
    assert Follows(bound, tr[i], tr[i + 1]);
    var st :| CanStep(bound, tr[i], st) && tr[i + 1] == TakeStep(bound, tr[i], st);
    if st.OfProtocol? { OutboxGrows(bound, tr[i].p, st.a); }
  }

  lemma {:induction false} ExtendsThrough(outboxes: seq<seq<Slot>>, i: nat, j: nat)
    requires forall k :: 0 <= k < |outboxes| - 1 ==> Extends(outboxes[k], outboxes[k + 1])
    requires i <= j < |outboxes|
    ensures Extends(outboxes[i], outboxes[j])
  {
    if i < j {
      ExtendsThrough(outboxes, i, j - 1);
      assert Extends(outboxes[j - 1], outboxes[j - 1 + 1]);
    }
  }

  lemma RunExtendsOutbox(bound: Time, tr: seq<Sys>, i: nat, j: nat)
    requires Run(bound, tr) && bound <= ACKNOWLEDGEMENT_WINDOW && i <= j < |tr|
    ensures Extends(tr[i].p.outbox, tr[j].p.outbox)
  {
    var outboxes := seq(|tr|, k requires 0 <= k < |tr| => tr[k].p.outbox);
    forall k | 0 <= k < |tr| - 1 ensures Extends(outboxes[k], outboxes[k + 1]) {
      NextExtends(bound, tr, k);
    }
    ExtendsThrough(outboxes, i, j);
  }

  /** If nothing was added from one state of a run to a later one, nothing was in between. */
  lemma NothingAdded(bound: Time, tr: seq<Sys>, i: nat, k: nat, j: nat)
    requires Run(bound, tr) && bound <= ACKNOWLEDGEMENT_WINDOW && i <= k <= j < |tr|
    requires tr[i].p.outbox == tr[j].p.outbox
    ensures tr[k].p.outbox == tr[i].p.outbox
  {
    RunExtendsOutbox(bound, tr, i, k);
    RunExtendsOutbox(bound, tr, k, j);
  }

  // ----- end to end -----

  ghost predicate AllApplied(s: Sys) {
    forall i :: 0 <= i < |s.p.outbox| && ForAnalytics(s.p.outbox[i]) ==> s.p.outbox[i].row.eid in s.c.store.seen
  }

  function FigureOf(ev: Event): Figure {
    match ev
    case OrderReceived(_, _, _, _, _, _) => Receipts
    case OrderAcknowledged(_, _, _, _, _) => Acknowledgements
    case OrderRejected(_, _, _, _) => Rejections
  }

  lemma FigureBalance(s: Sys, f: Figure)
    requires SysOk(s) && Counting(f)
    ensures TableTotal(s.p.table, f) == Total(s.c.store.rows, f) + Tally(s.p.outbox, f, s.c.store.seen.Keys)
    ensures Tally(s.p.outbox, f, s.c.store.seen.Keys) >= 0
  {
    assert Balance(s.p.table, s.p.outbox, s.c.store.seen, f);
    TallyNonnegative(s.p.outbox, f, s.c.store.seen.Keys);
  }

  /** Every figure of the report, the latencies and each cause too, is what the announced events count, but for those
      that still wait to be applied. */
  lemma ReportAgreesWithHistory(s: Sys, f: Figure)
    requires Reachable(s)
    ensures Total(s.c.store.rows, f) + Tally(s.p.outbox, f, s.c.store.seen.Keys) == Tally(s.p.outbox, f, {})
    ensures AllApplied(s) ==> Total(s.c.store.rows, f) == Tally(s.p.outbox, f, {})
  {
    ReachableOk(s);
    assert Balance(s.p.table, s.p.outbox, s.c.store.seen, f);
    if AllApplied(s) { TallyNothing(s.p.outbox, f, s.c.store.seen.Keys); }
  }

  /** What an event on the analytics topic counts is what its order's row shows: a receipt of the order; a yes with
      the time it took, at most 24 hours; a no under untranslatable, infeasible or missed as the row's lines, the
      declined hold and the deadline say. */
  lemma EventCountsItsOrder(s: Sys, i: nat)
    requires Reachable(s) && i < |s.p.outbox| && ForAnalytics(s.p.outbox[i])
    ensures var ev := s.p.outbox[i].row.ev; var c := Delta(PayloadOf(ev).kind);
      && ev.ref in s.p.table
      && var o := s.p.table[ev.ref];
         match ev
         case OrderReceived(_, _, _, _, _, _) => c == Counts(1, 0, 0, 0, 0, 0, 0) && ev.at == o.receivedAt
         case OrderAcknowledged(_, _, _, _, _) =>
           && o.state == Acknowledged
           && c == Counts(0, 1, ev.at - o.receivedAt, 1, 0, 0, 0) && 0 <= ev.at - o.receivedAt <= 86_400_000_000_000
         case OrderRejected(_, _, _, _) =>
           && o.state == Rejected
           && c == (if ev.at > o.receivedAt + 86_400_000_000_000 then Counts(0, 0, 0, 0, 0, 0, 1)
                    else if o.lines == [] then Counts(0, 0, 0, 0, 1, 0, 0)
                    else Counts(0, 0, 0, 0, 0, 1, 0))
           && (c.domain == 1 ==> Declined(s.p.planner, ev.ref))
  {
    var ev := s.p.outbox[i].row.ev;
    ReachableOk(s);
    EventsNonempty(s.p.outbox, i);
    RowAndHistoryAgree(s, ev.ref, Analytics);
    EventCounts(ev);
  }

  lemma NothingWaiting(s: Sys, f: Figure)
    requires SysOk(s) && AllApplied(s) && Counting(f)
    ensures Total(s.c.store.rows, f) == TableTotal(s.p.table, f)
  {
    FigureBalance(s, f);
    TallyNothing(s.p.outbox, f, s.c.store.seen.Keys);
  }

  /** An enqueued event that was not applied still waits in its figure's tally. */
  lemma SomethingWaiting(outbox: seq<Slot>, seen: set<nat>, i: nat)
    requires i < |outbox| && ForAnalytics(outbox[i]) && outbox[i].row.eid !in seen
    ensures var f := FigureOf(outbox[i].row.ev); Counting(f) && Tally(outbox, f, seen) > 0
  {
    var f := FigureOf(outbox[i].row.ev);
    TallyNonnegative(outbox, f, seen);
    assert Share(outbox[i], f) == 1;
  }

  /** Over all days the report never counts more receipts, acknowledgements or rejections than the order table
      holds, and it counts exactly as many when, and only when, every enqueued event has been applied. */
  lemma ReportAgreesWithTable(s: Sys)
    requires Reachable(s)
    ensures forall f :: Counting(f) ==> Total(s.c.store.rows, f) <= TableTotal(s.p.table, f)
    ensures (forall f :: Counting(f) ==> Total(s.c.store.rows, f) == TableTotal(s.p.table, f)) <==> AllApplied(s)
  {
    ReachableOk(s);
    forall f | Counting(f) ensures Total(s.c.store.rows, f) <= TableTotal(s.p.table, f) {
      FigureBalance(s, f);
    }
    if AllApplied(s) {
      forall f | Counting(f) ensures Total(s.c.store.rows, f) == TableTotal(s.p.table, f) {
        NothingWaiting(s, f);
      }
    } else {
      var i :| 0 <= i < |s.p.outbox| && ForAnalytics(s.p.outbox[i]) && s.p.outbox[i].row.eid !in s.c.store.seen;
      SomethingWaiting(s.p.outbox, s.c.store.seen.Keys, i);
      FigureBalance(s, FigureOf(s.p.outbox[i].row.ev));
    }
  }

  /** The table's figures are counts of rows. */
  lemma TableFiguresCountRows(table: Table)
    ensures TableTotal(table, Receipts) == |table|
    ensures TableTotal(table, Acknowledgements) == |set r | r in table && table[r].state == Acknowledged|
    ensures TableTotal(table, Rejections) == |set r | r in table && table[r].state == Rejected|
  {
    SumCounts(TableShares(table, Receipts), table.Keys);
    SumCounts(TableShares(table, Acknowledgements), set r | r in table && table[r].state == Acknowledged);
    SumCounts(TableShares(table, Rejections), set r | r in table && table[r].state == Rejected);
  }

  lemma {:induction false} WireHas(log: seq<Delivery>, q: nat)
    requires q < |log| && log[q].row.topic == Analytics
    ensures OnTopic(Wire(log), log[q].row.eid, PayloadOf(log[q].row.ev))
  {
    var n := |log| - 1;
    var w := Wire(log);
    if q == n {
      assert w[|w| - 1] == Recognized(log[n].row.eid, PayloadOf(log[n].row.ev));
    } else {
      WireHas(log[..n], q);
      var i :| 0 <= i < |Wire(log[..n])|
               && Wire(log[..n])[i] == Recognized(log[q].row.eid, PayloadOf(log[q].row.ev));
      assert w[i] == Wire(log[..n])[i];
    }
  }

  /** Everything enqueued was marked published, and every message on the topic was handled. */
  ghost predicate Settled(s: Sys) {
    && Unpublished(s.p.outbox, s.r.published) == []
    && s.c.call.Waiting?
    && forall pos :: 0 <= pos < |Wire(s.r.log)| ==> pos in s.c.handled
  }

  /** Once the outbox is drained and the consumer has caught up, with nothing dead-lettered and no marking call
      cut short, the report and the table agree exactly. */
  lemma SettledReportIsExact(s: Sys, f: Figure)
    requires Reachable(s) && Settled(s) && s.c.dead == {} && s.c.unfinished == {} && Counting(f)
    ensures Total(s.c.store.rows, f) == TableTotal(s.p.table, f)
  {
    ReachableOk(s);
    forall i | 0 <= i < |s.p.outbox| && ForAnalytics(s.p.outbox[i]) ensures s.p.outbox[i].row.eid in s.c.store.seen {
      AppliedWhenSettled(s, i);
    }
    ReportAgreesWithTable(s);
  }

  lemma AppliedWhenSettled(s: Sys, i: nat)
    requires SysOk(s) && Settled(s) && s.c.dead == {} && s.c.unfinished == {}
    requires i < |s.p.outbox| && ForAnalytics(s.p.outbox[i])
    ensures s.p.outbox[i].row.eid in s.c.store.seen
  {
    UnpublishedExactly(s.p.outbox, s.r.published);
    assert !Unsettled(s.p.outbox, s.r.published, i);
    assert i in s.r.published && i in s.r.sent && Delivered(s.r.log, i);
    var q :| 0 <= q < |s.r.log| && s.r.log[q].id == i;
    assert s.p.outbox[s.r.log[q].id] == Slot(s.r.log[q].row, true);
    WireHas(s.r.log, q);
    var pos :| 0 <= pos < |Wire(s.r.log)|
               && Wire(s.r.log)[pos] == Recognized(s.r.log[q].row.eid, PayloadOf(s.r.log[q].row.ev));
    CaughtUp(Wire(s.r.log), s.c, pos);
  }

  /** Each day's figures are the sums over the distinct events applied, so no retry, replay or restart ever
      counts an event twice; and a marked event is applied, dead-lettered, or had its marking call cut short. */
  lemma ConsumerAccounting(s: Sys)
    requires Reachable(s)
    ensures RowsAreSums(s.c.store)
    ensures forall e :: e in s.c.store.seen ==> e in s.c.marked
    ensures forall e :: e in s.c.marked ==> Accounted(s.c, e)
    ensures forall e :: e in s.c.store.seen ==> exists i ::
              0 <= i < |s.p.outbox| && ForAnalytics(s.p.outbox[i]) && s.p.outbox[i].row.eid == e
              && PayloadOf(s.p.outbox[i].row.ev) == s.c.store.seen[e]
  {
    ReachableOk(s);
    forall e | e in s.c.store.seen
      ensures exists i :: 0 <= i < |s.p.outbox| && ForAnalytics(s.p.outbox[i]) && s.p.outbox[i].row.eid == e
                          && PayloadOf(s.p.outbox[i].row.ev) == s.c.store.seen[e]
    {
      WireFromRows(s.p.outbox, s.r, s.r.log, e, s.c.store.seen[e]);
    }
  }
}
