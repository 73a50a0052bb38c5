/** What every step of the protocol keeps. */
module ProtocolInvariant {
  import opened Domain
  import opened Translation
  import opened Protocol
  import opened History

  /** An order without its mutable facts: what the network fixed at intake. */
  function Intake(o: Order): Order { o.(state := New, local := None) }

  // ----- rows, events and ids -----

  ghost predicate RowOk(planner: Planner, r: string, o: Order) {
    && o.ref == r
    && o.ackBy == o.receivedAt + ACKNOWLEDGEMENT_WINDOW
    && o.state != Confirmed
    && (o.local.Some? <==> o.state == Acknowledged)
    && (o.local.Some? ==>
          && o.local.value in planner.raised
          && planner.raised[o.local.value].ref == r && planner.raised[o.local.value].feasible)
  }

  ghost predicate RowsOk(table: Table, planner: Planner) {
    forall r :: r in table ==> RowOk(planner, r, table[r])
  }

  ghost predicate StoriesOk(table: Table, outbox: seq<Slot>) {
    forall r, t :: Story(table, r, Events(outbox, r, t))
  }

  ghost predicate EidsOk(outbox: seq<Slot>) {
    forall i, j :: 0 <= i < j < |outbox| ==> outbox[i].row.eid != outbox[j].row.eid
  }

  // ----- open transactions -----

  ghost predicate TxRows(outbox: seq<Slot>, tx: Tx) {
    && tx.ev.ref == tx.o.ref
    && |tx.slots| <= |TOPICS|
    && (forall k :: 0 <= k < |tx.slots| ==>
          && tx.slots[k] < |outbox|
          && !outbox[tx.slots[k]].committed
          && outbox[tx.slots[k]].row.topic == TOPICS[k]
          && outbox[tx.slots[k]].row.ev == tx.ev)
    && (|tx.slots| == 2 ==> tx.slots[0] < tx.slots[1])
  }

  /** No row of the order was committed at an id above those the transaction already took. */
  ghost predicate TxLast(outbox: seq<Slot>, tx: Tx) {
    tx.slots != [] ==>
      forall j :: tx.slots[0] <= j < |outbox| && outbox[j].committed ==> outbox[j].row.ev.ref != tx.o.ref
  }

  ghost predicate SlotsApart(exec: Exec, sweep: Sweep) {
    exec.Running? && InTx(exec.ph) && sweep.Missing? ==>
      forall i :: i in exec.ph.tx.slots ==> i !in sweep.tx.slots
  }

  // ----- the receive call -----

  predicate HasAnswer(network: Network, ref: string) {
    exists i :: 0 <= i < |network.answers| && network.answers[i].ref == ref
  }

  /** Still inside the window that started at t0. */
  predicate Timely(now: Time, t0: Time) {
    now <= t0 + ACKNOWLEDGEMENT_WINDOW
  }

  /** Order-management called a hold of the order infeasible, and had it cancelled. */
  ghost predicate Declined(planner: Planner, ref: string) {
    exists id :: id in planner.cancelled && id in planner.raised && planner.raised[id].ref == ref
                 && !planner.raised[id].feasible
  }

  /** Whoever announces an order as infeasible has had it declined. */
  ghost predicate Caused(planner: Planner, ev: Event) {
    ev.OrderRejected? && ev.reason == InfeasibleDeadline ==> Declined(planner, ev.ref)
  }

  ghost predicate CausesOk(planner: Planner, outbox: seq<Slot>) {
    forall i :: 0 <= i < |outbox| ==> Caused(planner, outbox[i].row.ev)
  }

  /** The call wrote the row of the order it holds, and inside the window nobody has answered it. */
  ghost predicate Mine(now: Time, table: Table, network: Network, e: Exec, o: Order)
    requires e.Running?
  {
    && CarriesDemand(o, e.d, e.t0)
    && o.ref in table
    && Intake(table[o.ref]) == Intake(o)
    && (Timely(now, e.t0) ==> table[o.ref].state == New)
    && !HasAnswer(network, o.ref)
  }

  ghost predicate Outstanding(planner: Planner, id: string) {
    id in planner.raised && id !in planner.released && id !in planner.cancelled
  }

  ghost predicate HoldMine(planner: Planner, calls: nat, ref: string, id: string, feasible: bool) {
    Outstanding(planner, id) && planner.raised[id] == Hold(ref, calls, feasible)
  }

  /** The call raised a hold for the order that could not keep the deadline, and had it cancelled. */
  ghost predicate TurnedDown(planner: Planner, calls: nat, ref: string) {
    exists id :: id in planner.cancelled && id in planner.raised && planner.raised[id] == Hold(ref, calls, false)
  }

  /** An order the call has decided about: yes with the hold it raised, or no without any. */
  ghost predicate Decided(planner: Planner, calls: nat, o: Order) {
    match o.state
    case Acknowledged => o.local.Some? && HoldMine(planner, calls, o.ref, o.local.value, true)
    case Rejected => o.local.None? && (o.lines != [] ==> TurnedDown(planner, calls, o.ref))
    case _ => false
  }

  /** The cause a call gives for its own refusal: no lines, or an infeasible deadline. */
  predicate RefusedFor(reason: Reason, o: Order) {
    reason == if o.lines == [] then UntranslatableSku else InfeasibleDeadline
  }

  ghost predicate Recordable(table: Table, outbox: seq<Slot>, e: Exec, tx: Tx)
    requires e.Running?
  {
    && tx.o == Intake(tx.o)
    && CarriesDemand(tx.o, e.d, e.t0) && tx.o.ref !in table
    && IsReceived(tx.ev, tx.o)
    && TxRows(outbox, tx)
  }

  ghost predicate ExecOk(now: Time, table: Table, outbox: seq<Slot>, planner: Planner, network: Network,
                         calls: nat, e: Exec) {
    e.Running? ==>
      && e.t0 <= now
      && match e.ph
         case Gate => true
         case Translate => e.d.ref !in table
         case Recording(tx, untranslatable) =>
           Recordable(table, outbox, e, tx) && (untranslatable <==> tx.o.lines == [])
         case Raise(o) => Mine(now, table, network, e, o) && o == Intake(o) && o.lines != []
         case Cancel(o, id) =>
           && Mine(now, table, network, e, o) && o == Intake(o) && o.lines != []
           && HoldMine(planner, calls, o.ref, id, false)
         case Answering(o, reason) =>
           && Mine(now, table, network, e, o) && Decided(planner, calls, o)
           && (if o.state == Rejected then RefusedFor(reason, o) else o.lines != [])
         case Committing(tx) =>
           && Mine(now, table, network, e, tx.o) && Decided(planner, calls, tx.o)
           && (tx.o.state == Acknowledged ==> tx.o.lines != [])
           && TxRows(outbox, tx) && Caused(planner, tx.ev)
           && (Timely(now, e.t0) ==> IsAnswer(tx.ev, tx.o) && TxLast(outbox, tx))
         case Submit(o) =>
           && CarriesDemand(o, e.d, e.t0) && o.ref in table && table[o.ref] == o
           && Decided(planner, calls, o) && !HasAnswer(network, o.ref)
         case Release(o) =>
           && CarriesDemand(o, e.d, e.t0) && o.ref in table && table[o.ref] == o
           && Decided(planner, calls, o) && o.ref in network.told
  }

  // ----- the sweep pass -----

  /** A loaded order that was overdue when the pass read the clock is still unanswered. */
  ghost predicate LoadedOk(table: Table, t: Time, o: Order) {
    && o.ref in table
    && Intake(table[o.ref]) == Intake(o)
    && (o.state == New ==> o.local.None?)
    && (AcknowledgementOverdue(o, t) ==> table[o.ref].state == New)
  }

  ghost predicate AllLoadedOk(table: Table, t: Time, os: seq<Order>) {
    && (forall i :: 0 <= i < |os| ==> LoadedOk(table, t, os[i]))
    && (forall i, j :: 0 <= i < j < |os| ==> os[i].ref != os[j].ref)
  }

  ghost predicate LoadingOk(table: Table, refs: seq<string>, loaded: seq<Order>) {
    && (forall i, j :: 0 <= i < j < |refs| ==> refs[i] != refs[j])
    && (forall i, j :: 0 <= i < |refs| && 0 <= j < |loaded| ==> refs[i] != loaded[j].ref)
    && (forall i :: 0 <= i < |refs| ==> refs[i] in table)
  }

  ghost predicate MissingOk(outbox: seq<Slot>, t: Time, todo: seq<Order>, tx: Tx) {
    && todo != [] && AcknowledgementOverdue(todo[0], t)
    && tx.o == RefusedOrder(todo[0])
    && tx.ev.OrderRejected? && tx.ev.reason == DeadlineMissed && IsAnswer(tx.ev, tx.o)
    && TxRows(outbox, tx) && TxLast(outbox, tx)
  }

  ghost predicate SweepOk(now: Time, table: Table, outbox: seq<Slot>, w: Sweep) {
    match w
    case Resting => true
    case Listing(t) => t <= now
    case Loading(t, refs, loaded) => t <= now && AllLoadedOk(table, t, loaded) && LoadingOk(table, refs, loaded)
    case Looping(t, todo, rep, freed) => t <= now && AllLoadedOk(table, t, todo) && !freed
    case Missing(t, todo, rep, tx) => t <= now && AllLoadedOk(table, t, todo) && MissingOk(outbox, t, todo, tx)
  }

  // ----- answers and holds -----

  ghost predicate AnswersOk(table: Table, network: Network) {
    var answers := network.answers;
    && (forall i, j :: 0 <= i < j < |answers| ==> answers[i].ref != answers[j].ref)
    && (forall i :: 0 <= i < |answers| ==>
          && answers[i].ref in table
          && table[answers[i].ref].state == (if answers[i].accepted then Acknowledged else Rejected))
    && (forall r :: r in network.told ==>
          r in table && table[r].state == Acknowledged && Answer(r, true) in answers)
  }

  /** The hold a phase of the call still has to release or cancel. */
  function Carried(e: Exec): Option<string> {
    if e.Idle? then None
    else
      match e.ph
      case Cancel(_, id) => Some(id)
      case Answering(o, _) => o.local
      case Committing(tx) => tx.o.local
      case Submit(o) => o.local
      case Release(o) => o.local
      case _ => None
  }

  ghost predicate LedgerOk(table: Table, planner: Planner, network: Network) {
    && planner.released <= planner.raised.Keys
    && planner.cancelled <= planner.raised.Keys
    && planner.released !! planner.cancelled
    && (forall id :: id in planner.cancelled ==> !planner.raised[id].feasible)
    && (forall id :: id in planner.raised ==> var r := planner.raised[id].ref; r in table && table[r].lines != [])
    && (forall id :: id in planner.released ==> var r := planner.raised[id].ref;
          r in network.told && r in table && table[r].local == Some(id))
  }

  ghost predicate HoldsOk(planner: Planner, endings: seq<Ending>, e: Exec) {
    && (forall id :: id in planner.raised ==> planner.raised[id].call <= |endings|)
    && (forall id :: Outstanding(planner, id) ==>
          if planner.raised[id].call < |endings| then endings[planner.raised[id].call] in {Failed, Crashed}
          else Carried(e) == Some(id))
  }

  ghost predicate Inv(s: Proto) {
    && RowsOk(s.table, s.planner)
    && StoriesOk(s.table, s.outbox)
    && EidsOk(s.outbox)
    && CausesOk(s.planner, s.outbox)
    && SlotsApart(s.exec, s.sweep)
    && ExecOk(s.now, s.table, s.outbox, s.planner, s.network, |s.endings|, s.exec)
    && SweepOk(s.now, s.table, s.outbox, s.sweep)
    && AnswersOk(s.table, s.network)
    && LedgerOk(s.table, s.planner, s.network)
    && HoldsOk(s.planner, s.endings, s.exec)
  }

  lemma InvInitially()
    ensures Inv(INITIAL)
  {
  }

  // ----- steps outside transactions -----

  lemma EnvironmentKeeps(bound: Time, s: Proto, a: Action)
    requires Inv(s) && Enabled(bound, s, a) && !OfExec(a) && !OfSweep(a)
    ensures Inv(Apply(bound, s, a))
  {
  }

  lemma FindKeeps(s: Proto, ok: bool)
    requires Inv(s) && s.exec.Running? && s.exec.ph.Gate?
    ensures Inv(AfterFind(s, ok))
  {
  }

  lemma FailureKeeps(s: Proto)
    requires Inv(s) && s.exec.Running?
    ensures Inv(End(s, Failed))
  {
  }

  lemma OpenRecordingKeeps(s: Proto, o: Order)
    requires Inv(s) && s.exec.Running? && s.exec.ph.Translate?
    requires o == Intake(o) && CarriesDemand(o, s.exec.d, s.exec.t0)
    ensures Inv(Goto(s, Recording(Tx(o, ReceivedEvent(o, |o.lines|, s.exec.t0), []), o.lines == [])))
  {
  }

  lemma TranslatedKeeps(s: Proto, lookups: seq<Lookup>)
    requires Inv(s) && s.exec.Running? && s.exec.ph.Translate? && |lookups| == |s.exec.d.lines|
    ensures Inv(AfterTranslation(s, lookups))
  {
    var d, t0 := s.exec.d, s.exec.t0;
    FailureKeeps(s);
    match TranslateLines(d.lines, lookups)
    case Ok(lines) =>
      var received := Receive(d.ref, d.site, d.shipBy, lines, t0);
      if received.Ok? { OpenRecordingKeeps(s, received.value); }
    case Err(_) =>
      var received := ReceiveUntranslatable(d.ref, d.site, d.shipBy, t0);
      if received.Ok? { OpenRecordingKeeps(s, received.value); }
  }

  lemma OpenAnswerKeeps(s: Proto)
    requires Inv(s) && s.exec.Running? && s.exec.ph.Answering?
    ensures Inv(AfterOpen(s))
  {
  }

  /** A fresh hold in the ledger disturbs no row and no settled hold. */
  lemma RaiseLedger(s: Proto, ref: string, id: string, feasible: bool)
    requires RowsOk(s.table, s.planner) && LedgerOk(s.table, s.planner, s.network) && id !in s.planner.raised
    requires ref in s.table && s.table[ref].lines != []
    ensures var planner := RaiseHold(s, ref, id, feasible).planner;
      RowsOk(s.table, planner) && LedgerOk(s.table, planner, s.network)
  {
    var planner := RaiseHold(s, ref, id, feasible).planner;
    forall r | r in s.table ensures RowOk(planner, r, s.table[r]) {
      assert RowOk(s.planner, r, s.table[r]);
    }
  }

  lemma RaiseHolds(s: Proto, raise: RaiseOutcome)
    requires HoldsOk(s.planner, s.endings, s.exec) && s.exec.Running? && s.exec.ph.Raise?
    requires raise.RaiseFailed? || raise.id !in s.planner.raised
    requires s.exec.ph.o.local == None && s.exec.ph.o.state == New
    ensures var s' := AfterRaise(s, raise); HoldsOk(s'.planner, s'.endings, s'.exec)
  {
  }

  lemma RaiseKeeps(s: Proto, raise: RaiseOutcome)
    requires Inv(s) && s.exec.Running? && s.exec.ph.Raise?
    requires raise.RaiseFailed? || raise.id !in s.planner.raised
    ensures Inv(AfterRaise(s, raise))
  {
    RaiseHolds(s, raise);
    if !raise.RaiseFailed? {
      RaiseLedger(s, s.exec.ph.o.ref, raise.id, raise.feasible);
    }
  }

  lemma CancelKeeps(s: Proto, out: Outcome)
    requires Inv(s) && s.exec.Running? && s.exec.ph.Cancel?
    ensures Inv(AfterCancel(s, out))
  {
    var s' := AfterCancel(s, out);
    assert HoldsOk(s'.planner, s'.endings, s'.exec);
    assert LedgerOk(s'.table, s'.planner, s'.network);
  }

  lemma ReleaseKeeps(s: Proto, out: Outcome)
    requires Inv(s) && s.exec.Running? && s.exec.ph.Release? && s.exec.ph.o.local.Some?
    ensures Inv(AfterRelease(s, out))
  {
    var s' := AfterRelease(s, out);
    assert HoldsOk(s'.planner, s'.endings, s'.exec);
    assert LedgerOk(s'.table, s'.planner, s'.network);
  }

  lemma SubmitKeeps(s: Proto, out: Outcome)
    requires Inv(s) && s.exec.Running? && s.exec.ph.Submit?
    ensures Inv(AfterSubmit(s, out))
  {
    var s' := AfterSubmit(s, out);
    var n := |s.network.answers|;
    assert s'.network.answers[n] == Answer(s.exec.ph.o.ref, s.exec.ph.o.state == Acknowledged);
  }

  lemma SweepListKeeps(s: Proto, ok: bool, refs: seq<string>)
    requires Inv(s) && s.sweep.Listing? && (ok ==> Unanswered(s.table, refs))
    ensures Inv(AfterList(s, ok, refs))
  {
  }

  lemma SweepLoadKeeps(s: Proto, ok: bool)
    requires Inv(s) && s.sweep.Loading? && s.sweep.refs != []
    ensures Inv(AfterLoad(s, ok))
  {
    var w := s.sweep;
    if ok {
      var o := s.table[w.refs[0]];
      assert RowOk(s.planner, w.refs[0], o);
      assert AllLoadedOk(s.table, w.t, w.loaded + [o]);
      assert LoadingOk(s.table, w.refs[1..], w.loaded + [o]);
    }
  }

  /** Whether the head is skipped, failed or done with, the rest of the list is still good. */
  lemma SweepNextKeeps(s: Proto, rep: Report)
    requires Inv(s) && (s.sweep.Looping? || s.sweep.Missing?) && s.sweep.todo != []
    ensures Inv(s.(sweep := Looping(s.sweep.t, s.sweep.todo[1..], rep, false)))
  {
    assert AllLoadedOk(s.table, s.sweep.t, s.sweep.todo[1..]);
  }

  lemma SweepOpenKeeps(s: Proto)
    requires Inv(s) && HeadOverdue(s.sweep)
    ensures Inv(AfterSweepOpen(s))
  {
    assert LoadedOk(s.table, s.sweep.t, s.sweep.todo[0]);
  }

  /** An unanswered row carries no local order, so the sweep never has a hold to cancel. */
  lemma SweepNeverCancels(bound: Time, s: Proto, out: Outcome)
    requires Inv(s)
    ensures !Enabled(bound, s, SweepCancel(out))
  {
    if HeadOverdue(s.sweep) {
      assert LoadedOk(s.table, s.sweep.t, s.sweep.todo[0]);
    }
  }

  // ----- inserting outbox rows -----

  lemma InsertStories(table: Table, outbox: seq<Slot>, sl: Slot)
    requires StoriesOk(table, outbox) && !sl.committed
    ensures StoriesOk(table, outbox + [sl])
  {
    forall r, t ensures Story(table, r, Events(outbox + [sl], r, t)) {
      EventsInsert(outbox, sl, r, t);
      assert Story(table, r, Events(outbox, r, t));
    }
  }

  /** Appending an uncommitted row with a fresh event id disturbs no transaction. */
  lemma InsertFrame(outbox: seq<Slot>, sl: Slot, tx: Tx)
    requires !sl.committed && TxRows(outbox, tx)
    ensures TxRows(outbox + [sl], tx)
    ensures TxLast(outbox, tx) ==> TxLast(outbox + [sl], tx)
  {
  }

  /** The transaction that appended it now holds it. */
  lemma InsertMine(outbox: seq<Slot>, tx: Tx, eid: nat)
    requires |tx.slots| < |TOPICS| && TxRows(outbox, tx)
    ensures var tx' := tx.(slots := tx.slots + [|outbox|]);
      && TxRows(InsertRow(outbox, tx, eid), tx')
      && (TxLast(outbox, tx) ==> TxLast(InsertRow(outbox, tx, eid), tx'))
  {
  }

  lemma InsertEids(outbox: seq<Slot>, tx: Tx, eid: nat)
    requires EidsOk(outbox) && |tx.slots| < |TOPICS| && FreshEvent(outbox, eid)
    ensures EidsOk(InsertRow(outbox, tx, eid))
  {
  }

  lemma InsertKeeps(s: Proto, eid: nat)
    requires Inv(s) && s.exec.Running? && InTx(s.exec.ph) && CanInsert(s, s.exec.ph.tx, eid)
    ensures Inv(AfterInsert(s, eid))
  {
    var tx, s' := s.exec.ph.tx, AfterInsert(s, eid);
    var sl := s'.outbox[|s.outbox|];
    InsertStories(s.table, s.outbox, sl);
    InsertEids(s.outbox, tx, eid);
    InsertMine(s.outbox, tx, eid);
    if s.sweep.Missing? {
      InsertFrame(s.outbox, sl, s.sweep.tx);
    }
  }

  lemma SweepInsertKeeps(s: Proto, eid: nat)
    requires Inv(s) && s.sweep.Missing? && CanInsert(s, s.sweep.tx, eid)
    ensures Inv(AfterSweepInsert(s, eid))
  {
    var tx, s' := s.sweep.tx, AfterSweepInsert(s, eid);
    var sl := s'.outbox[|s.outbox|];
    InsertStories(s.table, s.outbox, sl);
    InsertEids(s.outbox, tx, eid);
    InsertMine(s.outbox, tx, eid);
    if s.exec.Running? && InTx(s.exec.ph) {
      InsertFrame(s.outbox, sl, s.exec.ph.tx);
    }
  }

  // ----- commits -----

  lemma CommittedHasRow(table: Table, outbox: seq<Slot>, i: nat)
    requires StoriesOk(table, outbox) && i < |outbox| && outbox[i].committed
    ensures outbox[i].row.ev.ref in table
  {
    var ref, topic := outbox[i].row.ev.ref, outbox[i].row.topic;
    EventsNonempty(outbox, i);
    assert Story(table, ref, Events(outbox, ref, topic));
  }

  /** A transaction that may commit: a new row with its receipt, or an answer to an unanswered row. */
  ghost predicate Committable(table: Table, outbox: seq<Slot>, tx: Tx) {
    && Full(tx) && TxRows(outbox, tx) && TxLast(outbox, tx)
    && if tx.o.ref in table then
         table[tx.o.ref].state == New && Intake(table[tx.o.ref]) == Intake(tx.o) && IsAnswer(tx.ev, tx.o)
       else tx.o.state == New && tx.o.local == None && IsReceived(tx.ev, tx.o)
  }

  lemma CommitEvents(table: Table, outbox: seq<Slot>, tx: Tx, r: string, t: Topic)
    requires Committable(table, outbox, tx)
    ensures Events(CommitRows(outbox, tx.slots), r, t) ==
            Events(outbox, r, t) + (if r == tx.o.ref then [tx.ev] else [])
  {
    var b := CommitRows(outbox, tx.slots);
    assert tx.slots == [tx.slots[0], tx.slots[1]];
    if r == tx.o.ref {
      var k := if t == Integration then 0 else 1;
      EventsCommit(outbox, b, r, t, tx.slots[k]);
    } else {
      EventsOthers(outbox, b, r, t);
    }
  }

  lemma CommitStories(table: Table, outbox: seq<Slot>, tx: Tx)
    requires StoriesOk(table, outbox) && Committable(table, outbox, tx)
    ensures StoriesOk(Upsert(table, tx.o), CommitRows(outbox, tx.slots))
  {
    var table', outbox' := Upsert(table, tx.o), CommitRows(outbox, tx.slots);
    forall r, t ensures Story(table', r, Events(outbox', r, t)) {
      CommitEvents(table, outbox, tx, r, t);
      assert Story(table, r, Events(outbox, r, t));
    }
  }

  lemma RecordingCommittable(s: Proto)
    requires Inv(s) && s.exec.Running? && s.exec.ph.Recording? && Full(s.exec.ph.tx)
    ensures Committable(s.table, s.outbox, s.exec.ph.tx)
  {
    forall j | 0 <= j < |s.outbox| && s.outbox[j].committed ensures s.outbox[j].row.ev.ref in s.table {
      CommittedHasRow(s.table, s.outbox, j);
    }
  }

  /** Another transaction's commit leaves a sweep pass as it was, when it is not about an order the pass
      holds as overdue. */
  lemma SweepKeepsItsPlace(s: Proto, tx: Tx)
    requires SweepOk(s.now, s.table, s.outbox, s.sweep) && SlotsApart(s.exec, s.sweep)
    requires s.exec.Running? && InTx(s.exec.ph) && s.exec.ph.tx == tx
    requires TxRows(s.outbox, tx)
    requires tx.o.ref in s.table ==>
               Intake(s.table[tx.o.ref]) == Intake(tx.o) && s.now <= s.table[tx.o.ref].ackBy
    ensures SweepOk(s.now, Upsert(s.table, tx.o), CommitRows(s.outbox, tx.slots), s.sweep)
  {
    var table', outbox' := Upsert(s.table, tx.o), CommitRows(s.outbox, tx.slots);
    var w := s.sweep;
    if w.Loading? {
      assert AllLoadedOk(table', w.t, w.loaded);
    } else if w.Looping? {
      assert AllLoadedOk(table', w.t, w.todo);
    } else if w.Missing? {
      assert AllLoadedOk(table', w.t, w.todo);
      assert LoadedOk(s.table, w.t, w.todo[0]);
      assert w.tx.o.ref != tx.o.ref;
      assert MissingOk(outbox', w.t, w.todo, w.tx);
    }
  }

  /** Answered rows stay answered rows, and rows stay well formed, through a committable upsert. */
  lemma UpsertRows(s: Proto, tx: Tx)
    requires RowsOk(s.table, s.planner) && AnswersOk(s.table, s.network) && LedgerOk(s.table, s.planner, s.network)
    requires RowOk(s.planner, tx.o.ref, tx.o)
    requires tx.o.ref in s.table ==> s.table[tx.o.ref].state == New && Intake(s.table[tx.o.ref]) == Intake(tx.o)
    ensures var table' := Upsert(s.table, tx.o);
      && RowsOk(table', s.planner) && AnswersOk(table', s.network) && LedgerOk(table', s.planner, s.network)
      && table'[tx.o.ref] == tx.o
  {
    var table' := Upsert(s.table, tx.o);
    assert tx.o.ref in s.table ==> RowOk(s.planner, tx.o.ref, s.table[tx.o.ref]);
    forall r | r in table' ensures RowOk(s.planner, r, table'[r]) {
      if r != tx.o.ref { assert RowOk(s.planner, r, s.table[r]); }
    }
  }

  lemma CommitKeepsIds(outbox: seq<Slot>, slots: seq<nat>)
    requires EidsOk(outbox)
    ensures EidsOk(CommitRows(outbox, slots))
  {
  }

  /** What a commit of the call's own transaction keeps, whatever the call does next. */
  lemma OwnCommitKeeps(s: Proto, tx: Tx)
    requires Inv(s) && s.exec.Running? && InTx(s.exec.ph) && s.exec.ph.tx == tx
    requires Committable(s.table, s.outbox, tx) && RowOk(s.planner, tx.o.ref, tx.o)
    requires tx.o.ref in s.table ==> s.now <= s.table[tx.o.ref].ackBy
    ensures var table', outbox' := Upsert(s.table, tx.o), CommitRows(s.outbox, tx.slots);
      && RowsOk(table', s.planner) && AnswersOk(table', s.network) && LedgerOk(table', s.planner, s.network)
      && StoriesOk(table', outbox') && EidsOk(outbox') && CausesOk(s.planner, outbox')
      && SweepOk(s.now, table', outbox', s.sweep)
      && table'[tx.o.ref] == tx.o
  {
    CommitStories(s.table, s.outbox, tx);
    CommitKeepsIds(s.outbox, tx.slots);
    UpsertRows(s, tx);
    SweepKeepsItsPlace(s, tx);
  }

  /** What is left to show about a call after its commit: the phase it goes on with, and its holds. */
  ghost predicate CallOk(s: Proto) {
    && ExecOk(s.now, s.table, s.outbox, s.planner, s.network, |s.endings|, s.exec)
    && SlotsApart(s.exec, s.sweep)
    && HoldsOk(s.planner, s.endings, s.exec)
  }

  lemma RecordedCallOk(s: Proto, out: Outcome)
    requires Inv(s) && s.exec.Running? && s.exec.ph.Recording? && out.Effective()
    requires Upsert(s.table, s.exec.ph.tx.o)[s.exec.ph.tx.o.ref] == s.exec.ph.tx.o
    ensures CallOk(AfterCommit(s, out))
  {
    var o := s.exec.ph.tx.o;
    assert o.ref !in s.table;
    assert !HasAnswer(s.network, o.ref);
  }

  lemma RecordCommitKeeps(s: Proto, out: Outcome)
    requires Inv(s) && s.exec.Running? && s.exec.ph.Recording? && Full(s.exec.ph.tx)
    ensures Inv(AfterCommit(s, out))
  {
    if out.Effective() {
      RecordingCommittable(s);
      OwnCommitKeeps(s, s.exec.ph.tx);
      RecordedCallOk(s, out);
    } else {
      FailureKeeps(s);
    }
  }

  lemma AnsweredCallOk(s: Proto, out: Outcome)
    requires Inv(s) && s.exec.Running? && s.exec.ph.Committing? && out.Effective()
    requires Upsert(s.table, s.exec.ph.tx.o)[s.exec.ph.tx.o.ref] == s.exec.ph.tx.o
    ensures CallOk(AfterCommit(s, out))
  {
  }

  lemma AnswerCommitKeeps(s: Proto, out: Outcome)
    requires Inv(s) && s.exec.Running? && s.exec.ph.Committing? && Full(s.exec.ph.tx)
    requires out.Effective() ==> Timely(s.now, s.exec.t0)
    ensures Inv(AfterCommit(s, out))
  {
    if out.Effective() {
      AnswerCommittable(s);
      OwnCommitKeeps(s, s.exec.ph.tx);
      AnsweredCallOk(s, out);
    } else {
      FailureKeeps(s);
    }
  }

  lemma AnswerCommittable(s: Proto)
    requires Inv(s) && s.exec.Running? && s.exec.ph.Committing? && Full(s.exec.ph.tx) && Timely(s.now, s.exec.t0)
    ensures var tx := s.exec.ph.tx;
      && Committable(s.table, s.outbox, tx) && RowOk(s.planner, tx.o.ref, tx.o)
      && tx.o.ref in s.table && s.now <= s.table[tx.o.ref].ackBy
  {
    assert RowOk(s.planner, s.exec.ph.tx.o.ref, s.table[s.exec.ph.tx.o.ref]);
  }

  /** A sweep's commit is about an order whose window closed, so it leaves a timely call as it was. */
  lemma ExecKeepsItsPlace(s: Proto, tx: Tx)
    requires ExecOk(s.now, s.table, s.outbox, s.planner, s.network, |s.endings|, s.exec)
    requires SlotsApart(s.exec, s.sweep) && s.sweep.Missing? && s.sweep.tx == tx && TxRows(s.outbox, tx)
    requires tx.o.ref in s.table && Intake(s.table[tx.o.ref]) == Intake(tx.o) && s.table[tx.o.ref].state == New
    requires s.table[tx.o.ref].receivedAt + ACKNOWLEDGEMENT_WINDOW < s.now
    ensures ExecOk(s.now, Upsert(s.table, tx.o), CommitRows(s.outbox, tx.slots), s.planner, s.network,
                   |s.endings|, s.exec)
  {
    var outbox' := CommitRows(s.outbox, tx.slots);
    if s.exec.Running? && InTx(s.exec.ph) {
      assert TxRows(outbox', s.exec.ph.tx);
    }
  }

  lemma SweepCommitKeeps(s: Proto, out: Outcome)
    requires Inv(s) && s.sweep.Missing? && s.sweep.todo != [] && Full(s.sweep.tx)
    ensures Inv(AfterSweepCommit(s, out))
  {
    if out.Effective() {
      var tx := s.sweep.tx;
      assert LoadedOk(s.table, s.sweep.t, s.sweep.todo[0]);
      assert RowOk(s.planner, tx.o.ref, s.table[tx.o.ref]);
      CommitStories(s.table, s.outbox, tx);
      UpsertRows(s, tx);
      ExecKeepsItsPlace(s, tx);
      RestKeepsPlace(s.table, s.sweep.t, s.sweep.todo, tx.o);
    } else {
      SweepNextKeeps(s, Fail(s.sweep).rep);
    }
  }

  lemma RestKeepsPlace(table: Table, t: Time, todo: seq<Order>, o: Order)
    requires todo != [] && AllLoadedOk(table, t, todo) && o.ref == todo[0].ref && Intake(o) == Intake(todo[0])
    ensures AllLoadedOk(Upsert(table, o), t, todo[1..])
  {
    assert LoadedOk(table, t, todo[0]);
    forall i | 0 <= i < |todo[1..]| ensures LoadedOk(Upsert(table, o), t, todo[1..][i]) {
      assert LoadedOk(table, t, todo[i + 1]);
    }
  }

  // ----- every step -----

  lemma ExecStepKeeps(bound: Time, s: Proto, a: Action)
    requires Inv(s) && bound <= ACKNOWLEDGEMENT_WINDOW && OfExec(a) && s.exec.Running? && ExecEnabled(bound, s, a)
    ensures Inv(ExecApply(bound, s, a))
  {
    match a
    case FindByRef(ok) => FindKeeps(s, ok);
    case Translated(lookups) => TranslatedKeeps(s, lookups);
    case Insert(eid) => InsertKeeps(s, eid);
    case TxFails => FailureKeeps(s);
    case Commit(out) =>
      if s.exec.ph.Recording? { RecordCommitKeeps(s, out); } else { AnswerCommitKeeps(s, out); }
    case CallRaise(raise) => RaiseKeeps(s, raise);
    case CallCancel(out) => CancelKeeps(s, out);
    case OpenAnswer => OpenAnswerKeeps(s);
    case CallSubmit(out) => SubmitKeeps(s, out);
    case CallRelease(out) => ReleaseKeeps(s, out);
  }

  lemma SweepStepKeeps(bound: Time, s: Proto, a: Action)
    requires Inv(s) && OfSweep(a) && SweepEnabled(s, a)
    ensures Inv(SweepApply(s, a))
  {
    match a
    case SweepStart =>
    case SweepList(ok, refs) => SweepListKeeps(s, ok, refs);
    case SweepLoad(ok) => SweepLoadKeeps(s, ok);
    case SweepSkip => SweepNextKeeps(s, s.sweep.rep);
    case SweepCancel(out) => SweepNeverCancels(bound, s, out);
    case SweepOpen => SweepOpenKeeps(s);
    case SweepInsert(eid) => SweepInsertKeeps(s, eid);
    case SweepTxFails => SweepNextKeeps(s, Fail(s.sweep).rep);
    case SweepCommit(out) => SweepCommitKeeps(s, out);
  }

  /** Every step keeps the invariant, as long as no answer of a call commits after the window the call opened. */
  lemma StepKeeps(bound: Time, s: Proto, a: Action)
    requires Inv(s) && Enabled(bound, s, a) && bound <= ACKNOWLEDGEMENT_WINDOW
    ensures Inv(Apply(bound, s, a))
  {
    if OfExec(a) {
      ExecStepKeeps(bound, s, a);
    } else if OfSweep(a) {
      SweepStepKeeps(bound, s, a);
    } else {
      EnvironmentKeeps(bound, s, a);
    }
  }
}
