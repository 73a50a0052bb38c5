/** The events an order has in the outbox on one topic, and how insertions and commits change them. */
module History {
  import opened Domain
  import opened Protocol

  predicate On(sl: Slot, ref: string, topic: Topic) {
    sl.row.ev.ref == ref && sl.row.topic == topic
  }

  /** The committed events of one order on one topic, in outbox order. */
  function Events(outbox: seq<Slot>, ref: string, topic: Topic): seq<Event> {
    if outbox == [] then []
    else
      var n := |outbox| - 1;
      Events(outbox[..n], ref, topic)
      + (if outbox[n].committed && On(outbox[n], ref, topic) then [outbox[n].row.ev] else [])
  }

  predicate IsReceived(e: Event, o: Order) {
    e == OrderReceived(o.ref, o.site, o.shipBy, o.ackBy, |o.lines|, o.receivedAt)
  }

  /** Why an order is refused at an instant: after its deadline because that was missed; before, because it has no
      lines, which is when a product of it could not be translated, and otherwise because it is infeasible. */
  predicate ReasonFits(reason: Reason, o: Order, at: Time) {
    match reason
    case UntranslatableSku => at <= o.ackBy && o.lines == []
    case InfeasibleDeadline => at <= o.ackBy && o.lines != []
    case DeadlineMissed => o.ackBy < at
  }

  predicate IsAnswer(e: Event, o: Order) {
    match o.state
    case Acknowledged =>
      && o.local.Some? && o.lines != []
      && e.OrderAcknowledged? && o.receivedAt <= e.at <= o.ackBy
      && e == OrderAcknowledged(o.ref, o.site, o.local.value, o.receivedAt, e.at)
    case Rejected =>
      && o.local.None?
      && e.OrderRejected? && o.receivedAt <= e.at && ReasonFits(e.reason, o, e.at)
      && e == OrderRejected(o.ref, o.site, e.reason, e.at)
    case _ => false
  }

  /** The story a row and its events must tell together. */
  predicate Story(table: Table, ref: string, es: seq<Event>) {
    if ref !in table then es == []
    else if table[ref].state == New then |es| == 1 && IsReceived(es[0], table[ref])
    else |es| == 2 && IsReceived(es[0], table[ref]) && IsAnswer(es[1], table[ref])
  }

  lemma EventsInsert(outbox: seq<Slot>, sl: Slot, ref: string, topic: Topic)
    requires !sl.committed
    ensures Events(outbox + [sl], ref, topic) == Events(outbox, ref, topic)
  {
    assert (outbox + [sl])[..|outbox|] == outbox;
  }

  /** Committing rows none of which is this order's on this topic changes nothing for it. */
  lemma {:induction false} EventsOthers(a: seq<Slot>, b: seq<Slot>, ref: string, topic: Topic)
    requires |a| == |b|
    requires forall i :: 0 <= i < |a| ==> a[i].row == b[i].row
    requires forall i :: 0 <= i < |a| && On(a[i], ref, topic) ==> a[i].committed == b[i].committed
    ensures Events(a, ref, topic) == Events(b, ref, topic)
  {
    if a != [] {
      EventsOthers(a[..|a| - 1], b[..|b| - 1], ref, topic);
    }
  }

  /** Committing one row after which the order has no committed row on the topic puts its event last. */
  lemma {:induction false} EventsCommit(a: seq<Slot>, b: seq<Slot>, ref: string, topic: Topic, c: nat)
    requires |a| == |b| && c < |a|
    requires forall i :: 0 <= i < |a| ==> a[i].row == b[i].row
    requires forall i :: 0 <= i < |a| && i != c && On(a[i], ref, topic) ==> a[i].committed == b[i].committed
    requires On(a[c], ref, topic) && !a[c].committed && b[c].committed
    requires forall i :: c <= i < |a| && On(a[i], ref, topic) ==> !a[i].committed
    ensures Events(b, ref, topic) == Events(a, ref, topic) + [a[c].row.ev]
  {
    var n := |a| - 1;
    if c == n {
      EventsOthers(a[..n], b[..n], ref, topic);
    } else {
      EventsCommit(a[..n], b[..n], ref, topic, c);
    }
  }

  /** A committed row is one of its order's events. */
  lemma {:induction false} EventsNonempty(outbox: seq<Slot>, i: nat)
    requires i < |outbox| && outbox[i].committed
    ensures outbox[i].row.ev in Events(outbox, outbox[i].row.ev.ref, outbox[i].row.topic)
  {
    var n := |outbox| - 1;
    if i < n {
      EventsNonempty(outbox[..n], i);
    }
  }
}
