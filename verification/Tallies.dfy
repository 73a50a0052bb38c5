/** Counting the committed analytics rows of the outbox against the order table. */
module Tallies {
  import opened Domain
  import opened Sums
  import opened Protocol
  import opened ProtocolInvariant
  import opened Projection
  import opened Consumer
  import opened Relay

  function ReasonName(r: Reason): string {
    match r
    case UntranslatableSku => "UNTRANSLATABLE_SKU"
    case InfeasibleDeadline => "INFEASIBLE_DEADLINE"
    case DeadlineMissed => "ACKNOWLEDGEMENT_DEADLINE_MISSED"
  }

  /** What the projection reads out of an event: its kind with the latency clamped at zero, and its time. */
  function PayloadOf(ev: Event): Payload {
    match ev
    case OrderReceived(_, _, _, _, _, at) => Payload(Receipt, at)
    case OrderAcknowledged(_, _, _, receivedAt, at) =>
      Payload(Acknowledgement(if at - receivedAt < 0 then 0 else at - receivedAt), at)
    case OrderRejected(_, _, reason, at) => Payload(Rejection(ReasonName(reason)), at)
  }

  /** What each event counts: a receipt one order received; a yes one order acknowledged and one latency, the time
      since its receipt or zero if it claims to be from before it; a no one order under its cause. */
  lemma EventCounts(ev: Event)
    ensures PayloadOf(ev).at == ev.at
    ensures var c := Delta(PayloadOf(ev).kind);
      match ev
      case OrderReceived(_, _, _, _, _, _) => c == Counts(1, 0, 0, 0, 0, 0, 0)
      case OrderAcknowledged(_, _, _, receivedAt, at) =>
        c == Counts(0, 1, if receivedAt < at then at - receivedAt else 0, 1, 0, 0, 0)
      case OrderRejected(_, _, reason, _) =>
        (match reason
         case UntranslatableSku => c == Counts(0, 0, 0, 0, 1, 0, 0)
         case InfeasibleDeadline => c == Counts(0, 0, 0, 0, 0, 1, 0)
         case DeadlineMissed => c == Counts(0, 0, 0, 0, 0, 0, 1))
  {
  }

  /** The messages of the analytics topic, in delivery order. */
  function Wire(log: seq<Delivery>): seq<Msg> {
    if log == [] then []
    else
      var n := |log| - 1;
      var row := log[n].row;
      Wire(log[..n]) + (if row.topic == Analytics then [Recognized(row.eid, PayloadOf(row.ev))] else [])
  }

  predicate ForAnalytics(sl: Slot) { sl.committed && sl.row.topic == Analytics }

  function Share(sl: Slot, f: Figure): int { Get(Delta(PayloadOf(sl.row.ev).kind), f) }

  predicate Counting(f: Figure) { f.Receipts? || f.Acknowledgements? || f.Rejections? }

  /** A figure summed over the committed analytics rows whose event id is not excluded. */
  function Tally(outbox: seq<Slot>, f: Figure, except: set<nat>): int {
    if outbox == [] then 0
    else
      var n := |outbox| - 1;
      Tally(outbox[..n], f, except)
      + (if ForAnalytics(outbox[n]) && outbox[n].row.eid !in except then Share(outbox[n], f) else 0)
  }

  lemma TallyInsert(outbox: seq<Slot>, sl: Slot, f: Figure, except: set<nat>)
    requires !sl.committed
    ensures Tally(outbox + [sl], f, except) == Tally(outbox, f, except)
  {
    assert (outbox + [sl])[..|outbox|] == outbox;
  }

  lemma {:induction false} TallySame(a: seq<Slot>, b: seq<Slot>, f: Figure, except: set<nat>)
    requires |a| == |b|
    requires forall i :: 0 <= i < |a| ==> a[i].row == b[i].row && ForAnalytics(a[i]) == ForAnalytics(b[i])
    ensures Tally(a, f, except) == Tally(b, f, except)
  {
    if a != [] {
      TallySame(a[..|a| - 1], b[..|b| - 1], f, except);
    }
  }

  lemma {:induction false} TallyCommitOne(a: seq<Slot>, b: seq<Slot>, f: Figure, except: set<nat>, c: nat)
    requires |a| == |b| && c < |a|
    requires forall i :: 0 <= i < |a| ==> a[i].row == b[i].row && (i != c ==> ForAnalytics(a[i]) == ForAnalytics(b[i]))
    requires !a[c].committed && ForAnalytics(b[c]) && a[c].row.eid !in except
    ensures Tally(b, f, except) == Tally(a, f, except) + Share(a[c], f)
  {
    var n := |a| - 1;
    if c == n {
      TallySame(a[..n], b[..n], f, except);
    } else {
      TallyCommitOne(a[..n], b[..n], f, except, c);
    }
  }

  lemma TallyCommit(table: Table, outbox: seq<Slot>, tx: Tx, f: Figure, except: set<nat>)
    requires Committable(table, outbox, tx)
    requires outbox[tx.slots[1]].row.eid !in except
    ensures Tally(CommitRows(outbox, tx.slots), f, except) ==
            Tally(outbox, f, except) + Get(Delta(PayloadOf(tx.ev).kind), f)
  {
    assert tx.slots == [tx.slots[0], tx.slots[1]];
    TallyCommitOne(outbox, CommitRows(outbox, tx.slots), f, except, tx.slots[1]);
  }

  lemma {:induction false} TallyUnseen(outbox: seq<Slot>, f: Figure, except: set<nat>, eid: nat)
    requires forall i :: 0 <= i < |outbox| && ForAnalytics(outbox[i]) ==> outbox[i].row.eid != eid
    ensures Tally(outbox, f, except + {eid}) == Tally(outbox, f, except)
  {
    if outbox != [] {
      TallyUnseen(outbox[..|outbox| - 1], f, except, eid);
    }
  }

  /** Excluding the event of one committed analytics row takes exactly its share away. */
  lemma {:induction false} TallyExclude(outbox: seq<Slot>, f: Figure, except: set<nat>, c: nat)
    requires EidsOk(outbox) && c < |outbox| && ForAnalytics(outbox[c]) && outbox[c].row.eid !in except
    ensures Tally(outbox, f, except + {outbox[c].row.eid}) == Tally(outbox, f, except) - Share(outbox[c], f)
  {
    var n := |outbox| - 1;
    if c == n {
      TallyUnseen(outbox[..n], f, except, outbox[n].row.eid);
    } else {
      TallyExclude(outbox[..n], f, except, c);
    }
  }

  lemma {:induction false} TallyNonnegative(outbox: seq<Slot>, f: Figure, except: set<nat>)
    requires Counting(f)
    ensures Tally(outbox, f, except) >= 0
    ensures forall i :: 0 <= i < |outbox| && ForAnalytics(outbox[i]) && outbox[i].row.eid !in except
                        ==> Tally(outbox, f, except) >= Share(outbox[i], f)
  {
    if outbox != [] {
      var n := |outbox| - 1;
      TallyNonnegative(outbox[..n], f, except);
      assert Share(outbox[n], f) >= 0;
      forall i | 0 <= i < |outbox| && ForAnalytics(outbox[i]) && outbox[i].row.eid !in except
        ensures Tally(outbox, f, except) >= Share(outbox[i], f)
      {
        if i < n { assert outbox[..n][i] == outbox[i]; }
      }
    }
  }

  lemma {:induction false} TallyNothing(outbox: seq<Slot>, f: Figure, except: set<nat>)
    requires forall i :: 0 <= i < |outbox| && ForAnalytics(outbox[i]) ==> outbox[i].row.eid in except
    ensures Tally(outbox, f, except) == 0
  {
    if outbox != [] {
      TallyNothing(outbox[..|outbox| - 1], f, except);
    }
  }

  // ----- the order table -----

  /** What one row stands for: it was received, and it may have been acknowledged or rejected. */
  function RowShare(o: Order, f: Figure): int {
    match f
    case Receipts => 1
    case Acknowledgements => if o.state == Acknowledged then 1 else 0
    case Rejections => if o.state == Rejected then 1 else 0
    case _ => 0
  }

  function TableShares(table: Table, f: Figure): map<string, int> {
    map r | r in table :: RowShare(table[r], f)
  }

  ghost function TableTotal(table: Table, f: Figure): int { Sum(TableShares(table, f)) }

  /** A committable transaction adds to the table's figures what its event adds to the topic's. */
  lemma TableCommit(table: Table, outbox: seq<Slot>, tx: Tx, f: Figure)
    requires Committable(table, outbox, tx) && Counting(f)
    ensures TableTotal(Upsert(table, tx.o), f) == TableTotal(table, f) + Get(Delta(PayloadOf(tx.ev).kind), f)
  {
    var table' := Upsert(table, tx.o);
    var r := tx.o.ref;
    assert TableShares(table', f) == TableShares(table, f)[r := RowShare(table'[r], f)];
    SumPut(TableShares(table, f), r, RowShare(table'[r], f));
  }
}
