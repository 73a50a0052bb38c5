/** The answer protocol as a transition system: one receive call and one sweep pass interleave over the durable
    order table, the outbox, the planner's ledger and the network. One action is one port call with its outcome,
    one statement of a transaction, or a change of the environment. */
module Protocol {
  import opened Domain
  import opened Translation

  // ----- durable tables -----

  datatype Topic = Integration | Analytics

  /** The encoders every event is fanned out to, in order. */
  const TOPICS: seq<Topic> := [Integration, Analytics]

  /** One encoded event as the outbox stores it; its key is the ref of the aggregate that raised it. */
  datatype OutRow = OutRow(eid: nat, topic: Topic, ev: Event)

  /** Outbox ids come from a sequence when a row is inserted and are never given back, so a row is addressed
      by its position; a row that never commits leaves its position unused. */
  datatype Slot = Slot(row: OutRow, committed: bool)

  type Table = map<string, Order>

  /** The upsert: on conflict only the mutable facts of the stored row change. */
  function Upsert(table: Table, o: Order): Table {
    if o.ref in table then table[o.ref := table[o.ref].(state := o.state, local := o.local)]
    else table[o.ref := o]
  }

  /** The table's check that a local order is only ever stored with an answer. */
  predicate LocalOrderRequiresAnswer(o: Order) {
    o.local == None || o.state in {Acknowledged, Confirmed}
  }

  /** A transaction in progress: the order it upserts, the event it publishes, and the outbox ids of the
      rows inserted so far, one per encoder. Nothing of it is visible before it commits. */
  datatype Tx = Tx(o: Order, ev: Event, slots: seq<nat>)

  predicate Full(tx: Tx) { |tx.slots| == |TOPICS| }

  // ----- processes -----

  /** How far a receive call has come; each phase names the next thing it does. */
  datatype Phase =
    | Gate
    | Translate
    | Recording(tx: Tx, untranslatable: bool)
    | Raise(o: Order)
    | Cancel(o: Order, id: string)
    | Answering(o: Order, reason: Reason)
    | Committing(tx: Tx)
    | Submit(o: Order)
    | Release(o: Order)

  datatype Exec = Idle | Running(d: Demand, t0: Time, ph: Phase)

  datatype Ending = Existing | Answered | Failed | Crashed

  /** What a sweep pass has done so far: the refs it moved and counted; those for which one of its calls failed;
      and, among these, those whose commit was reported as failed after it took effect. */
  datatype Report = Report(examined: nat, moved: set<string>, failed: set<string>, landed: set<string>)

  datatype Sweep =
    | Resting
    | Listing(t: Time)
    | Loading(t: Time, refs: seq<string>, loaded: seq<Order>)
    | Looping(t: Time, todo: seq<Order>, rep: Report, freed: bool)
    | Missing(t: Time, todo: seq<Order>, rep: Report, tx: Tx)

  /** A held order: for which order, raised by which call, and whether order-management can keep the deadline. */
  datatype Hold = Hold(ref: string, call: nat, feasible: bool)

  /** Order-management's ledger of held orders: which were raised, for which order by which call, and which
      of them were released to the floor or cancelled. */
  datatype Planner = Planner(raised: map<string, Hold>, released: set<string>, cancelled: set<string>)

  datatype Answer = Answer(ref: string, accepted: bool)

  /** The network's side: every answer we attempted to submit, and the refs whose yes it confirmed. */
  datatype Network = Network(answers: seq<Answer>, told: set<string>)

  datatype Arrival = Arrival(d: Demand, at: Time)

  datatype Proto = Proto(
    now: Time,
    arrived: set<Arrival>,
    table: Table,
    outbox: seq<Slot>,
    planner: Planner,
    network: Network,
    endings: seq<Ending>,
    exec: Exec,
    sweep: Sweep)

  const INITIAL := Proto(0, {}, map[], [], Planner(map[], {}, {}), Network([], {}), [], Idle, Resting)

  // ----- actions -----

  /** The outcome of a call that has an effect elsewhere: it can fail without or after its effect. */
  datatype Outcome = Done | FailedDone | FailedNotDone {
    predicate Effective() { !FailedNotDone? }
  }

  datatype RaiseOutcome =
    | RaiseFailed
    | RaiseLost(id: string, feasible: bool)
    | Raised(id: string, feasible: bool)

  datatype Action =
    | Tick(t: Time)
    | Arrive(d: Demand)
    | Crash
    | Start(d: Demand)
    | FindByRef(ok: bool)
    | Translated(lookups: seq<Lookup>)
    | Insert(eid: nat)
    | TxFails
    | Commit(out: Outcome)
    | CallRaise(raise: RaiseOutcome)
    | CallCancel(out: Outcome)
    | OpenAnswer
    | CallSubmit(out: Outcome)
    | CallRelease(out: Outcome)
    | SweepStart
    | SweepList(ok: bool, refs: seq<string>)
    | SweepLoad(ok: bool)
    | SweepSkip
    | SweepCancel(out: Outcome)
    | SweepOpen
    | SweepInsert(eid: nat)
    | SweepTxFails
    | SweepCommit(out: Outcome)

  // ----- transactions -----

  predicate FreshEvent(outbox: seq<Slot>, eid: nat) {
    forall i :: 0 <= i < |outbox| ==> outbox[i].row.eid != eid
  }

  predicate CanInsert(s: Proto, tx: Tx, eid: nat) {
    |tx.slots| < |TOPICS| && LocalOrderRequiresAnswer(tx.o) && FreshEvent(s.outbox, eid)
  }

  function InsertRow(outbox: seq<Slot>, tx: Tx, eid: nat): seq<Slot>
    requires |tx.slots| < |TOPICS|
  {
    outbox + [Slot(OutRow(eid, TOPICS[|tx.slots|], tx.ev), false)]
  }

  function CommitRows(outbox: seq<Slot>, slots: seq<nat>): (r: seq<Slot>)
    ensures |r| == |outbox|
  {
    seq(|outbox|, i requires 0 <= i < |outbox| => if i in slots then outbox[i].(committed := true) else outbox[i])
  }

  function CommitTx(s: Proto, tx: Tx): Proto {
    s.(table := Upsert(s.table, tx.o), outbox := CommitRows(s.outbox, tx.slots))
  }

  // ----- the receive call -----

  predicate InTx(ph: Phase) { ph.Recording? || ph.Committing? }

  function End(s: Proto, e: Ending): Proto
    requires s.exec.Running?
  {
    s.(exec := Idle, endings := s.endings + [e])
  }

  function Goto(s: Proto, ph: Phase): Proto
    requires s.exec.Running?
  {
    s.(exec := s.exec.(ph := ph))
  }

  function RaiseHold(s: Proto, ref: string, id: string, feasible: bool): Proto {
    s.(planner := s.planner.(raised := s.planner.raised[id := Hold(ref, |s.endings|, feasible)]))
  }

  function CancelHold(s: Proto, id: string): Proto {
    s.(planner := s.planner.(cancelled := s.planner.cancelled + {id}))
  }

  function ReleaseHold(s: Proto, id: string): Proto {
    s.(planner := s.planner.(released := s.planner.released + {id}))
  }

  function AnswerEvent(o: Order, reason: Reason, at: Time): Event {
    if o.state == Acknowledged && o.local.Some? then
      OrderAcknowledged(o.ref, o.site, o.local.value, o.receivedAt, at)
    else OrderRejected(o.ref, o.site, reason, at)
  }

  function ReceivedEvent(o: Order, lineCount: nat, at: Time): Event {
    OrderReceived(o.ref, o.site, o.shipBy, o.ackBy, lineCount, at)
  }

  /** The value Acknowledge followed by LinkLocalOrder gives. */
  function AcceptedOrder(o: Order, id: string): Order {
    After(After(o, DoAcknowledge), DoLink(id))
  }

  function RefusedOrder(o: Order): Order {
    After(o, DoReject)
  }

  /** `bound` limits how late, after the first clock read of the call, its answer may still commit. */
  predicate ExecEnabled(bound: Time, s: Proto, a: Action)
    requires s.exec.Running?
  {
    var ph := s.exec.ph;
    match a
    case FindByRef(_) => ph.Gate?
    case Translated(lookups) => ph.Translate? && |lookups| == |s.exec.d.lines|
    case Insert(eid) => InTx(ph) && CanInsert(s, ph.tx, eid)
    case TxFails => InTx(ph) || ph.Answering?
    case Commit(out) =>
      InTx(ph) && Full(ph.tx) && (ph.Committing? && out.Effective() ==> s.now <= s.exec.t0 + bound)
    case CallRaise(raise) => ph.Raise? && (raise.RaiseFailed? || raise.id !in s.planner.raised)
    case CallCancel(_) => ph.Cancel?
    case OpenAnswer => ph.Answering?
    case CallSubmit(_) => ph.Submit?
    case CallRelease(_) => ph.Release? && ph.o.local.Some?
    case _ => false
  }

  function AfterTranslation(s: Proto, lookups: seq<Lookup>): Proto
    requires s.exec.Running? && |lookups| == |s.exec.d.lines|
  {
    var d, t0 := s.exec.d, s.exec.t0;
    match TranslateLines(d.lines, lookups)
    case Ok(lines) =>
      (match Receive(d.ref, d.site, d.shipBy, lines, t0)
       case Ok(o) => Goto(s, Recording(Tx(o, ReceivedEvent(o, |lines|, t0), []), false))
       case Err(_) => End(s, Failed))
    case Err(e) =>
      if e != UnknownProduct then End(s, Failed)
      else
        match ReceiveUntranslatable(d.ref, d.site, d.shipBy, t0)
        case Ok(o) => Goto(s, Recording(Tx(o, ReceivedEvent(o, 0, t0), []), true))
        case Err(_) => End(s, Failed)
  }

  function AfterCommit(s: Proto, out: Outcome): Proto
    requires s.exec.Running? && InTx(s.exec.ph)
  {
    var ph := s.exec.ph;
    var s1 := if out.Effective() then CommitTx(s, ph.tx) else s;
    if !out.Done? then End(s1, Failed)
    else if ph.Committing? then Goto(s1, Submit(ph.tx.o))
    else if ph.untranslatable then Goto(s1, Answering(RefusedOrder(ph.tx.o), UntranslatableSku))
    else Goto(s1, Raise(ph.tx.o))
  }

  function AfterRaise(s: Proto, raise: RaiseOutcome): Proto
    requires s.exec.Running? && s.exec.ph.Raise?
  {
    var o := s.exec.ph.o;
    match raise
    case RaiseFailed => End(s, Failed)
    case RaiseLost(id, feasible) => End(RaiseHold(s, o.ref, id, feasible), Failed)
    case Raised(id, feasible) =>
      var s1 := RaiseHold(s, o.ref, id, feasible);
      if feasible then Goto(s1, Answering(AcceptedOrder(o, id), InfeasibleDeadline))
      else Goto(s1, Cancel(o, id))
  }

  function AfterSubmit(s: Proto, out: Outcome): Proto
    requires s.exec.Running? && s.exec.ph.Submit?
  {
    var o := s.exec.ph.o;
    var yes := o.state == Acknowledged;
    var attempts := s.network.answers + [Answer(o.ref, yes)];
    var confirmed := if out.Done? && yes then s.network.told + {o.ref} else s.network.told;
    var s1 := s.(network := Network(attempts, confirmed));
    if !out.Done? then End(s1, Failed)
    else if yes then Goto(s1, Release(o))
    else End(s1, Answered)
  }

  function AfterFind(s: Proto, ok: bool): Proto
    requires s.exec.Running?
  {
    if !ok then End(s, Failed) else if s.exec.d.ref in s.table then End(s, Existing) else Goto(s, Translate)
  }

  function AfterInsert(s: Proto, eid: nat): Proto
    requires s.exec.Running? && InTx(s.exec.ph) && |s.exec.ph.tx.slots| < |TOPICS|
  {
    var ph := s.exec.ph;
    var tx' := ph.tx.(slots := ph.tx.slots + [|s.outbox|]);
    Goto(s.(outbox := InsertRow(s.outbox, ph.tx, eid)), ph.(tx := tx'))
  }

  function AfterCancel(s: Proto, out: Outcome): Proto
    requires s.exec.Running? && s.exec.ph.Cancel?
  {
    var ph := s.exec.ph;
    var s1 := if out.Effective() then CancelHold(s, ph.id) else s;
    if out.Done? then Goto(s1, Answering(RefusedOrder(ph.o), InfeasibleDeadline)) else End(s1, Failed)
  }

  function AfterOpen(s: Proto): Proto
    requires s.exec.Running? && s.exec.ph.Answering?
  {
    var o := s.exec.ph.o;
    Goto(s, Committing(Tx(o, AnswerEvent(o, s.exec.ph.reason, s.now), [])))
  }

  function AfterRelease(s: Proto, out: Outcome): Proto
    requires s.exec.Running? && s.exec.ph.Release? && s.exec.ph.o.local.Some?
  {
    var s1 := if out.Effective() then ReleaseHold(s, s.exec.ph.o.local.value) else s;
    End(s1, if out.Done? then Answered else Failed)
  }

  function ExecApply(bound: Time, s: Proto, a: Action): Proto
    requires s.exec.Running? && ExecEnabled(bound, s, a)
  {
    match a
    case FindByRef(ok) => AfterFind(s, ok)
    case Translated(lookups) => AfterTranslation(s, lookups)
    case Insert(eid) => AfterInsert(s, eid)
    case TxFails => End(s, Failed)
    case Commit(out) => AfterCommit(s, out)
    case CallRaise(raise) => AfterRaise(s, raise)
    case CallCancel(out) => AfterCancel(s, out)
    case OpenAnswer => AfterOpen(s)
    case CallSubmit(out) => AfterSubmit(s, out)
    case CallRelease(out) => AfterRelease(s, out)
  }

  // ----- the sweep pass -----

  predicate Unanswered(table: Table, refs: seq<string>) {
    && (forall i, j :: 0 <= i < j < |refs| ==> refs[i] != refs[j])
    && (forall r | r in refs :: r in table && table[r].state == New)
    && (forall r | r in table && table[r].state == New :: r in refs)
    && (forall i, j | 0 <= i < j < |refs| :: table[refs[i]].ackBy <= table[refs[j]].ackBy)
  }

  /** The order the loop is looking at, when it is overdue at the instant the pass read. */
  predicate HeadOverdue(w: Sweep) {
    w.Looping? && w.todo != [] && AcknowledgementOverdue(w.todo[0], w.t)
  }

  predicate SweepEnabled(s: Proto, a: Action) {
    var w := s.sweep;
    match a
    case SweepStart => w.Resting? || (w.Looping? && w.todo == [])
    case SweepList(ok, refs) => w.Listing? && (ok ==> Unanswered(s.table, refs))
    case SweepLoad(ok) => w.Loading? && w.refs != []
    case SweepSkip => w.Looping? && w.todo != [] && !HeadOverdue(w)
    case SweepCancel(_) => HeadOverdue(w) && w.todo[0].local.Some? && !w.freed
    case SweepOpen => HeadOverdue(w) && (w.todo[0].local.None? || w.freed)
    case SweepInsert(eid) => w.Missing? && CanInsert(s, w.tx, eid)
    case SweepTxFails => (w.Missing? && w.todo != []) || HeadOverdue(w)
    case SweepCommit(_) => w.Missing? && w.todo != [] && Full(w.tx)
    case _ => false
  }

  function Fail(w: Sweep): Sweep
    requires (w.Looping? || w.Missing?) && w.todo != []
  {
    Looping(w.t, w.todo[1..], w.rep.(failed := w.rep.failed + {w.todo[0].ref}), false)
  }

  /** The head's commit failed; it may have landed. */
  function FailCommit(w: Sweep, landed: bool): Sweep
    requires w.Missing? && w.todo != []
  {
    var refs := {w.todo[0].ref};
    var landed' := if landed then w.rep.landed + refs else w.rep.landed;
    Looping(w.t, w.todo[1..], w.rep.(failed := w.rep.failed + refs, landed := landed'), false)
  }

  function AfterList(s: Proto, ok: bool, refs: seq<string>): Proto
    requires s.sweep.Listing?
  {
    var t := s.sweep.t;
    s.(sweep :=
         if !ok then Resting
         else if refs == [] then Looping(t, [], Report(0, {}, {}, {}), false)
         else Loading(t, refs, []))
  }

  function AfterLoad(s: Proto, ok: bool): Proto
    requires s.sweep.Loading? && s.sweep.refs != []
  {
    var w := s.sweep;
    var loaded := if w.refs[0] in s.table then w.loaded + [s.table[w.refs[0]]] else w.loaded;
    s.(sweep :=
         if !ok then Resting
         else if |w.refs| == 1 then Looping(w.t, loaded, Report(|loaded|, {}, {}, {}), false)
         else Loading(w.t, w.refs[1..], loaded))
  }

  function AfterSweepCancel(s: Proto, out: Outcome): Proto
    requires HeadOverdue(s.sweep) && s.sweep.todo[0].local.Some?
  {
    var w := s.sweep;
    var s1 := if out.Effective() then CancelHold(s, w.todo[0].local.value) else s;
    s1.(sweep := if out.Done? then w.(freed := true) else Fail(w))
  }

  function AfterSweepOpen(s: Proto): Proto
    requires HeadOverdue(s.sweep)
  {
    var w := s.sweep;
    var o := RefusedOrder(w.todo[0]);
    s.(sweep := Missing(w.t, w.todo, w.rep, Tx(o, OrderRejected(o.ref, o.site, DeadlineMissed, s.now), [])))
  }

  function AfterSweepInsert(s: Proto, eid: nat): Proto
    requires s.sweep.Missing? && |s.sweep.tx.slots| < |TOPICS|
  {
    var w := s.sweep;
    s.(outbox := InsertRow(s.outbox, w.tx, eid), sweep := w.(tx := w.tx.(slots := w.tx.slots + [|s.outbox|])))
  }

  function AfterSweepCommit(s: Proto, out: Outcome): Proto
    requires s.sweep.Missing? && s.sweep.todo != []
  {
    var w := s.sweep;
    var s1 := if out.Effective() then CommitTx(s, w.tx) else s;
    s1.(sweep :=
          if out.Done? then Looping(w.t, w.todo[1..], w.rep.(moved := w.rep.moved + {w.tx.o.ref}), false)
          else FailCommit(w, out.Effective()))
  }

  function SweepApply(s: Proto, a: Action): Proto
    requires SweepEnabled(s, a)
  {
    match a
    case SweepStart => s.(sweep := Listing(s.now))
    case SweepList(ok, refs) => AfterList(s, ok, refs)
    case SweepLoad(ok) => AfterLoad(s, ok)
    case SweepSkip => s.(sweep := Looping(s.sweep.t, s.sweep.todo[1..], s.sweep.rep, false))
    case SweepCancel(out) => AfterSweepCancel(s, out)
    case SweepOpen => AfterSweepOpen(s)
    case SweepInsert(eid) => AfterSweepInsert(s, eid)
    case SweepTxFails => s.(sweep := Fail(s.sweep))
    case SweepCommit(out) => AfterSweepCommit(s, out)
  }

  // ----- the whole system -----

  predicate OfExec(a: Action) {
    a.FindByRef? || a.Translated? || a.Insert? || a.TxFails? || a.Commit? || a.CallRaise? || a.CallCancel?
    || a.OpenAnswer? || a.CallSubmit? || a.CallRelease?
  }

  predicate OfSweep(a: Action) {
    a.SweepStart? || a.SweepList? || a.SweepLoad? || a.SweepSkip? || a.SweepCancel? || a.SweepOpen?
    || a.SweepInsert? || a.SweepTxFails? || a.SweepCommit?
  }

  predicate Enabled(bound: Time, s: Proto, a: Action) {
    if OfExec(a) then s.exec.Running? && ExecEnabled(bound, s, a)
    else if OfSweep(a) then SweepEnabled(s, a)
    else
      match a
      case Tick(t) => s.now <= t
      case Start(_) => s.exec.Idle?
      case _ => true
  }

  /** What an enabled action does; a crash loses the processes and everything they had not committed. */
  function Apply(bound: Time, s: Proto, a: Action): Proto
    requires Enabled(bound, s, a)
  {
    if OfExec(a) then ExecApply(bound, s, a)
    else if OfSweep(a) then SweepApply(s, a)
    else
      match a
      case Tick(t) => s.(now := t)
      case Arrive(d) => s.(arrived := s.arrived + {Arrival(d, s.now)})
      case Start(d) => s.(exec := Running(d, s.now, Gate))
      case Crash =>
        (if s.exec.Running? then End(s, Crashed) else s).(sweep := Resting)
  }
}
