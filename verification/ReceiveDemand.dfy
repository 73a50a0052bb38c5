/** The receive use case: the code that answers one unit of demand, call by call, on the running system. */
module ReceiveDemand {
  import opened Domain
  import opened Translation
  import opened Protocol
  import opened History
  import opened ProtocolInvariant
  import opened ProtocolWrites
  import opened Pipeline
  import opened World
  import opened StubNetwork

  /** The call in progress stands at the given phase, with nothing ended since. */
  predicate At(s: Sys, d: Demand, t0: Time, ph: Phase) {
    s.p.exec == Running(d, t0, ph)
  }

  /** The call has ended. */
  predicate Over(s: Sys, before: seq<Ending>, e: Ending) {
    s.p.exec.Idle? && s.p.endings == before + [e]
  }

  /** The transaction the phase has open, or is about to open, upserts this order. */
  predicate Saving(ph: Phase, o: Order) {
    (ph.Recording? && ph.tx.o == o && ph.tx.slots == []) || (ph.Answering? && ph.o == o)
  }

  // ----- what a call leaves alone -----

  /** A step of a call that sends the network nothing and records nothing. */
  predicate Steady(calm: bool, p: Proto, p': Proto) {
    p'.network == p.network && p'.table.Keys == p.table.Keys && (calm ==> p'.arrived == p.arrived)
  }

  /** A call on one ref records nothing for any other. */
  predicate Beside(calm: bool, p: Proto, p': Proto, ref: string) {
    p.table.Keys <= p'.table.Keys <= p.table.Keys + {ref} && (calm ==> p'.arrived == p.arrived)
  }

  /** The network was sent nothing meanwhile, or one answer for the ref; and so was the stub, if it stands for the
      network. */
  predicate SentFor(a: seq<Answer>, a': seq<Answer>, calls: seq<Call>, calls': seq<Call>, stubbed: bool, ref: string) {
    || (a' == a && calls' == calls)
    || (&& |a'| == |a| + 1 && a' == a + [a'[|a|]] && a'[|a|].ref == ref
        && calls' == calls + if stubbed then [Submitted(ref, a'[|a|].accepted)] else [])
  }

  // ----- what a call records -----

  /** If the ref was not recorded before and is now, its row is about the demand: the site and the ship-by deadline
      the network sent, these lines, received at this instant and due 24 hours later. */
  predicate Recorded(p: Proto, p': Proto, d: Demand, at: Time, lines: seq<Line>) {
    d.ref !in p.table && d.ref in p'.table ==>
      var o := p'.table[d.ref];
      && o.site == d.site && o.shipBy == d.shipBy && o.lines == lines
      && o.receivedAt == at && o.ackBy == at + 86_400_000_000_000
  }

  /** The order has so many events on every topic, and this one is the last. */
  ghost predicate Last(outbox: seq<Slot>, ref: string, n: nat, ev: Event) {
    forall t :: var es := Events(outbox, ref, t); |es| == n && n > 0 && es[n - 1] == ev
  }

  /** The event tells the order's answer: the yes with its local order, or the no with this cause. */
  predicate Tells(ev: Event, o: Order, reason: Reason) {
    && ev.ref == o.ref && ev.site == o.site
    && match o.state
       case Acknowledged => ev.OrderAcknowledged? && o.local == Some(ev.local) && ev.receivedAt == o.receivedAt
       case Rejected => ev.OrderRejected? && ev.reason == reason
       case _ => false
  }

  /** On every topic the order has its receipt and then its answer, recorded inside the 24 hours, with this cause if
      it is a no. */
  ghost predicate Announced(outbox: seq<Slot>, o: Order, reason: Reason) {
    forall t :: var es := Events(outbox, o.ref, t);
      && |es| == 2 && IsReceived(es[0], o)
      && Tells(es[1], o, reason) && o.receivedAt <= es[1].at <= o.ackBy
  }

  /** The cause a call gives when it says no. */
  function Cause(o: Order): Reason { if o.lines == [] then UntranslatableSku else InfeasibleDeadline }

  // ----- the dictionary -----

  function Entry(dictionary: map<string, string>, product: string): Lookup {
    if product in dictionary then Sku(dictionary[product]) else NotFound
  }

  function Entries(dictionary: map<string, string>, lines: seq<InboundLine>): (r: seq<Lookup>)
    ensures |r| == |lines|
  {
    seq(|lines|, i requires 0 <= i < |lines| => Entry(dictionary, lines[i].product))
  }

  /** What the dictionary makes of a demand. */
  function Verdict(dictionary: map<string, string>, d: Demand): Result<seq<Line>> {
    TranslateLines(d.lines, Entries(dictionary, d.lines))
  }

  /** The lines an order for the demand gets: all of them, or none when one of them cannot be translated. */
  function LinesFor(dictionary: map<string, string>, d: Demand): seq<Line> {
    match Verdict(dictionary, d) case Ok(lines) => lines case Err(_) => []
  }

  /** A demand that is answered, one way or the other, when nothing fails. */
  predicate WellFormed(dictionary: map<string, string>, d: Demand) {
    && d.ref != ""
    && match Verdict(dictionary, d)
       case Ok(lines) => lines != []
       case Err(e) => e == UnknownProduct
  }

  /** Lookups that failed or told the truth give the dictionary's verdict, or fail. */
  lemma {:induction false} LookupsAgree(lines: seq<InboundLine>, lookups: seq<Lookup>, truth: seq<Lookup>)
    requires |lookups| == |truth| == |lines|
    requires forall i :: 0 <= i < |lines| ==> lookups[i] in {LookupFailed, truth[i]}
    ensures TranslateLines(lines, lookups) in {TranslateLines(lines, truth), Err(PortFailure)}
  {
    if lines != [] && lookups[0] != LookupFailed {
      LookupsAgree(lines[1..], lookups[1..], truth[1..]);
    }
  }

  /** Lookups that told the truth, or failed in a world where calls fail. */
  predicate Truthful(dictionary: map<string, string>, lines: seq<InboundLine>, lookups: seq<Lookup>, calm: bool) {
    && |lookups| == |lines|
    && forall i | 0 <= i < |lines| ::
         lookups[i] == Entry(dictionary, lines[i].product) || (lookups[i] == LookupFailed && !calm)
  }

  lemma Told(dictionary: map<string, string>, d: Demand, lookups: seq<Lookup>, calm: bool)
    requires Truthful(dictionary, d.lines, lookups, calm)
    ensures TranslateLines(d.lines, lookups) in {Verdict(dictionary, d), Err(PortFailure)}
    ensures calm ==> LookupFailed !in lookups && TranslateLines(d.lines, lookups) == Verdict(dictionary, d)
  {
    var truth := Entries(dictionary, d.lines);
    LookupsAgree(d.lines, lookups, truth);
    if calm { assert lookups == truth; }
  }

  /** A line that cannot be translated decides, whatever the lines after it are. */
  lemma StopsAt(dictionary: map<string, string>, d: Demand, i: nat, lookups: seq<Lookup>, e: Error, calm: bool)
    requires i < |d.lines| && Truthful(dictionary, d.lines[..i + 1], lookups, calm)
    requires TranslateLines(d.lines[..i + 1], lookups) == Err(e)
    ensures var all := lookups + Entries(dictionary, d.lines[i + 1..]);
      && Truthful(dictionary, d.lines, all, calm)
      && TranslateLines(d.lines, all) == Err(e)
      && Err(e) in {Verdict(dictionary, d), Err(PortFailure)}
      && (calm ==> LookupFailed !in all && Err(e) == Verdict(dictionary, d))
  {
    var rest, unasked := d.lines[i + 1..], Entries(dictionary, d.lines[i + 1..]);
    TranslatePrefix(d.lines[..i + 1], lookups, rest, unasked);
    assert d.lines == d.lines[..i + 1] + rest;
    Told(dictionary, d, lookups + unasked, calm);
  }

  lemma CommittedShows(table: Table, outbox: seq<Slot>, tx: Tx)
    requires Committable(table, outbox, tx) && StoriesOk(table, outbox)
    ensures Upsert(table, tx.o)[tx.o.ref] == tx.o
    ensures Last(CommitRows(outbox, tx.slots), tx.o.ref, if tx.o.ref in table then 2 else 1, tx.ev)
  {
    forall t ensures var es := Events(CommitRows(outbox, tx.slots), tx.o.ref, t);
        |es| == (if tx.o.ref in table then 2 else 1) && es[|es| - 1] == tx.ev
    {
      CommitEvents(table, outbox, tx, tx.o.ref, t);
      assert Story(table, tx.o.ref, Events(outbox, tx.o.ref, t));
    }
  }

  // ----- the ends of a call -----

  /** A submitted refusal concludes its order. */
  lemma RefusalConcludes(p: Proto)
    requires Inv(p) && p.exec.Running? && p.exec.ph.Submit? && p.exec.ph.o.state == Rejected
    ensures Concluded(AfterSubmit(p, Done), p.exec.ph.o)
  {
    var p' := AfterSubmit(p, Done);
    assert p'.network.answers[|p.network.answers|] == Answer(p.exec.ph.o.ref, false);
  }

  /** A released hold concludes its order. */
  lemma ReleaseConcludes(p: Proto)
    requires Inv(p) && p.exec.Running? && p.exec.ph.Release? && p.exec.ph.o.local.Some?
    ensures Concluded(AfterRelease(p, Done), p.exec.ph.o)
  {
  }

  /** The outgoing ports of the receive use case. Each call can fail, before or after its effect. */
  class Ports {
    const w: Runtime
    /** The product dictionary, fixed at boot. */
    const dictionary: map<string, string>
    /** The stub, when it stands for the network. */
    const stub: StubGateway?

    constructor (w: Runtime, dictionary: map<string, string>, stub: StubGateway?)
      ensures this.w == w && this.dictionary == dictionary && this.stub == stub
    {
      this.w, this.dictionary, this.stub := w, dictionary, stub;
    }

    /** With the stub as the network nothing fails, and stub and system agree on what arrived and was answered. */
    ghost predicate Linked()
      reads w, stub
    {
      stub != null ==> w.calm && stub.Valid() && Mirrors(stub.calls, w.s.p.arrived, w.s.p.network.answers)
    }

    ghost function Calls(): seq<Call>
      reads stub
    {
      if stub == null then [] else stub.calls
    }

    /** A row is stored under its own ref. */
    lemma FoundUnderItsRef(ref: string)
      requires w.Valid() && ref in w.s.p.table
      ensures w.s.p.table[ref].ref == ref
    {
      w.StateOk();
      assert RowOk(w.s.p.planner, ref, w.s.p.table[ref]);
    }

    lemma IsStorable(o: Order)
      requires w.Valid() && w.s.p.exec.Running? && Saving(w.s.p.exec.ph, o)
      ensures LocalOrderRequiresAnswer(o)
    {
      w.StateOk();
    }

    lemma SubmitWillConclude()
      requires w.Valid() && w.s.p.exec.Running? && w.s.p.exec.ph.Submit? && w.s.p.exec.ph.o.state != Acknowledged
      ensures Concluded(AfterSubmit(w.s.p, Done), w.s.p.exec.ph.o)
    {
      w.StateOk();
      RefusalConcludes(w.s.p);
    }

    lemma ReleaseWillConclude()
      requires w.Valid() && w.s.p.exec.Running? && w.s.p.exec.ph.Release? && w.s.p.exec.ph.o.local.Some?
      ensures Concluded(AfterRelease(w.s.p, Done), w.s.p.exec.ph.o)
    {
      w.StateOk();
      ReleaseConcludes(w.s.p);
    }

    /** A commit that takes effect leaves the order's row as the transaction has it, and its event last. */
    lemma CommitShows()
      requires w.Valid() && w.s.p.exec.Running? && InTx(w.s.p.exec.ph) && Full(w.s.p.exec.ph.tx)
      requires ExecEnabled(w.bound, w.s.p, Action.Commit(Done))
      ensures var tx, p' := w.s.p.exec.ph.tx, CommitTx(w.s.p, w.s.p.exec.ph.tx);
        && tx.o.ref in p'.table && p'.table[tx.o.ref] == tx.o
        && Last(p'.outbox, tx.o.ref, if w.s.p.exec.ph.Committing? then 2 else 1, tx.ev)
    {
      IsCommittable();
      CommittedShows(w.s.p.table, w.s.p.outbox, w.s.p.exec.ph.tx);
    }

    lemma IsCommittable()
      requires w.Valid() && w.s.p.exec.Running? && InTx(w.s.p.exec.ph) && Full(w.s.p.exec.ph.tx)
      requires ExecEnabled(w.bound, w.s.p, Action.Commit(Done))
      ensures Committable(w.s.p.table, w.s.p.outbox, w.s.p.exec.ph.tx) && StoriesOk(w.s.p.table, w.s.p.outbox)
      ensures w.s.p.exec.ph.tx.o.ref in w.s.p.table <==> w.s.p.exec.ph.Committing?
    {
      w.StateOk();
      CommitsAreCommittable(w.bound, w.s.p, Action.Commit(Done));
    }

    /** An answer of the call itself that was just recorded was recorded inside the 24 hours. */
    lemma JustAnnounced(o: Order, reason: Reason, ev: Event)
      requires w.Valid() && o.ref in w.s.p.table && w.s.p.table[o.ref] == o && o.state in {Acknowledged, Rejected}
      requires Last(w.s.p.outbox, o.ref, 2, ev) && Tells(ev, o, reason)
      requires o.state == Rejected ==> reason != DeadlineMissed
      ensures Announced(w.s.p.outbox, o, reason)
    {
      w.StateOk();
      forall t ensures Story(w.s.p.table, o.ref, Events(w.s.p.outbox, o.ref, t)) {
      }
    }

    /** What was announced stays announced. */
    lemma StillAnnounced(k: nat, o: Order, reason: Reason)
      requires w.Valid() && k < |w.trace| && o.ref in w.trace[k].p.table && w.trace[k].p.table[o.ref].state != New
      requires Announced(w.trace[k].p.outbox, o, reason)
      ensures Announced(w.s.p.outbox, o, reason)
    {
      forall t ensures Events(w.s.p.outbox, o.ref, t) == Events(w.trace[k].p.outbox, o.ref, t) {
        w.HistorySince(k, o.ref, t);
      }
    }

    /** A call past the lookup is about a ref nobody recorded. */
    lemma NotRecordedYet()
      requires w.Valid() && w.s.p.exec.Running? && w.s.p.exec.ph.Translate?
      ensures w.s.p.exec.d.ref !in w.s.p.table
    {
      w.StateOk();
    }

    /** The cause a call is about to give is its own. */
    lemma GivesCause()
      requires w.Valid() && w.s.p.exec.Running? && w.s.p.exec.ph.Answering?
      ensures var o := w.s.p.exec.ph.o;
        && o.state in {Acknowledged, Rejected} && (o.state == Acknowledged ==> o.local.Some?)
        && (o.state == Rejected ==> w.s.p.exec.ph.reason == Cause(o))
    {
      w.StateOk();
    }

    /** The clock read that opens a call. */
    method Begin(d: Demand) returns (now: Time)
      requires w.Valid() && w.s.p.exec.Idle?
      modifies w
      ensures w.Valid() && old(w.trace) <= w.trace && w.s.p.endings == old(w.s.p.endings)
      ensures At(w.s, d, now, Gate) && now == old(w.s.p.now)
      ensures Steady(true, old(w.s.p), w.s.p) && w.s.p.planner == old(w.s.p.planner)
    {
      w.Do(OfProtocol(Start(d)));
      now := w.s.p.now;
    }

    method FindByRef(ref: string) returns (r: Result<Option<Order>>)
      requires w.Valid() && w.s.p.exec.Running? && w.s.p.exec.ph == Gate && ref == w.s.p.exec.d.ref
      modifies w
      ensures w.Valid() && old(w.trace) <= w.trace
      ensures match r
        case Err(_) => Over(w.s, old(w.s.p.endings), Failed)
        case Ok(Some(o)) =>
          Over(w.s, old(w.s.p.endings), Existing) && ref in w.s.p.table && w.s.p.table[ref] == o
        case Ok(None) =>
          w.s.p.exec == old(w.s.p.exec).(ph := Translate) && w.s.p.endings == old(w.s.p.endings)
      ensures Steady(w.calm, old(w.s.p), w.s.p) && w.s.p.planner == old(w.s.p.planner)
      ensures w.calm ==> r.Ok?
    {
      w.Interfere(Receiver);
      var ok: bool := *;
      ok := ok || w.calm;
      w.Do(OfProtocol(Action.FindByRef(ok)));
      if !ok { return Err(PortFailure); }
      return Ok(if ref in w.s.p.table then Some(w.s.p.table[ref]) else None);
    }

    /** The product dictionary's answer for one product. */
    method ToSKU(product: string) returns (k: Lookup)
      ensures k == Entry(dictionary, product) || (k == LookupFailed && !w.calm)
    {
      var ok: bool := *;
      k := if ok || w.calm then Entry(dictionary, product) else LookupFailed;
    }

    /** The lines are translated, or not, by these answers; the call moves on accordingly. */
    method Translated(lookups: seq<Lookup>)
      requires w.Valid() && w.s.p.exec.Running? && w.s.p.exec.ph == Translate
      requires |lookups| == |w.s.p.exec.d.lines| && (w.calm ==> LookupFailed !in lookups)
      modifies w
      ensures w.Valid() && old(w.trace) <= w.trace
      ensures Steady(w.calm, old(w.s.p), w.s.p)
      ensures var d, t0 := old(w.s.p.exec.d), old(w.s.p.exec.t0);
        match TranslateLines(d.lines, lookups)
        case Ok(lines) =>
          (match Receive(d.ref, d.site, d.shipBy, lines, t0)
           case Ok(o) =>
             && At(w.s, d, t0, Recording(Tx(o, ReceivedEvent(o, |lines|, t0), []), false))
             && w.s.p.endings == old(w.s.p.endings)
           case Err(_) => Over(w.s, old(w.s.p.endings), Failed))
        case Err(e) =>
          if e != UnknownProduct then Over(w.s, old(w.s.p.endings), Failed)
          else
            match ReceiveUntranslatable(d.ref, d.site, d.shipBy, t0)
            case Ok(o) =>
              && At(w.s, d, t0, Recording(Tx(o, ReceivedEvent(o, 0, t0), []), true))
              && w.s.p.endings == old(w.s.p.endings)
            case Err(_) => Over(w.s, old(w.s.p.endings), Failed)
    {
      w.Interfere(Receiver);
      w.Do(OfProtocol(Action.Translated(lookups)));
    }

    /** The upsert, first statement of a transaction. */
    method Save(o: Order) returns (ok: bool)
      requires w.Valid() && w.s.p.exec.Running? && Saving(w.s.p.exec.ph, o)
      modifies w
      ensures w.Valid() && old(w.trace) <= w.trace
      ensures if ok then
                && w.s.p.exec == old(w.s.p.exec) && w.s.p.endings == old(w.s.p.endings)
                && LocalOrderRequiresAnswer(o)
              else Over(w.s, old(w.s.p.endings), Failed)
      ensures Steady(w.calm, old(w.s.p), w.s.p)
      ensures w.calm ==> ok
    {
      w.Interfere(Receiver);
      IsStorable(o);
      ok := *;
      ok := (ok || w.calm) && LocalOrderRequiresAnswer(o);
      if !ok { w.Do(OfProtocol(TxFails)); }
    }

    /** The clock read for the answer's event. */
    method Now() returns (now: Time)
      requires w.Valid() && w.s.p.exec.Running? && w.s.p.exec.ph.Answering?
      modifies w
      ensures w.Valid() && old(w.trace) <= w.trace && w.s.p.endings == old(w.s.p.endings)
      ensures var ph := old(w.s.p.exec.ph);
        w.s.p.exec == old(w.s.p.exec).(ph := Committing(Tx(ph.o, AnswerEvent(ph.o, ph.reason, now), [])))
      ensures Steady(w.calm, old(w.s.p), w.s.p)
    {
      w.Interfere(Receiver);
      w.Do(OfProtocol(OpenAnswer));
      now := w.s.p.now;
    }

    /** One outbox row per encoder, inside the transaction. */
    method Publish(ev: Event) returns (ok: bool)
      requires w.Valid() && w.s.p.exec.Running? && InTx(w.s.p.exec.ph)
      requires w.s.p.exec.ph.tx.slots == [] && w.s.p.exec.ph.tx.ev == ev
      requires LocalOrderRequiresAnswer(w.s.p.exec.ph.tx.o)
      modifies w
      ensures w.Valid() && old(w.trace) <= w.trace
      ensures if ok then
                && w.s.p.endings == old(w.s.p.endings)
                && Inserted(old(w.s.p.exec), w.s.p.exec, |TOPICS|)
              else Over(w.s, old(w.s.p.endings), Failed)
      ensures Steady(w.calm, old(w.s.p), w.s.p)
      ensures w.calm ==> ok
    {
      for i := 0 to |TOPICS|
        invariant w.Valid() && old(w.trace) <= w.trace && w.s.p.endings == old(w.s.p.endings)
        invariant Inserted(old(w.s.p.exec), w.s.p.exec, i)
        invariant Steady(w.calm, old(w.s.p), w.s.p)
      {
        ok := InsertRow(i);
        if !ok { return; }
      }
      return true;
    }

    method InsertRow(i: nat) returns (ok: bool)
      requires w.Valid() && i < |TOPICS| && w.s.p.exec.Running? && InTx(w.s.p.exec.ph)
      requires |w.s.p.exec.ph.tx.slots| == i && LocalOrderRequiresAnswer(w.s.p.exec.ph.tx.o)
      modifies w
      ensures w.Valid() && old(w.trace) <= w.trace
      ensures if ok then w.s.p.endings == old(w.s.p.endings) && Inserted(old(w.s.p.exec), w.s.p.exec, i + 1)
              else Over(w.s, old(w.s.p.endings), Failed)
      ensures Steady(w.calm, old(w.s.p), w.s.p)
      ensures w.calm ==> ok
    {
      w.Interfere(Receiver);
      ok := *;
      ok := ok || w.calm;
      if !ok {
        w.Do(OfProtocol(TxFails));
        return;
      }
      var eid := w.NewId();
      w.Do(OfProtocol(Insert(eid)));
    }

    method Commit() returns (ok: bool)
      requires w.Valid() && w.s.p.exec.Running? && InTx(w.s.p.exec.ph) && Full(w.s.p.exec.ph.tx)
      modifies w
      ensures w.Valid() && old(w.trace) <= w.trace
      ensures var ph := old(w.s.p.exec.ph);
        if ok then
          && w.s.p.endings == old(w.s.p.endings)
          && w.s.p.exec == old(w.s.p.exec).(ph :=
               if ph.Committing? then Submit(ph.tx.o)
               else if ph.untranslatable then Answering(RefusedOrder(ph.tx.o), UntranslatableSku)
               else Raise(ph.tx.o))
        else Over(w.s, old(w.s.p.endings), Failed)
      ensures var tx := old(w.s.p.exec.ph.tx);
        && (ok ==> tx.o.ref in w.s.p.table)
        && (ok || (tx.o.ref !in old(w.s.p.table) && tx.o.ref in w.s.p.table) ==> w.s.p.table[tx.o.ref] == tx.o)
        && (ok ==> Last(w.s.p.outbox, tx.o.ref, if old(w.s.p.exec.ph.Committing?) then 2 else 1, tx.ev))
      ensures w.s.p.network == old(w.s.p.network)
      ensures Beside(w.calm, old(w.s.p), w.s.p, old(w.s.p.exec.ph.tx.o.ref))
      ensures w.calm ==> ok
    {
      w.Interfere(Receiver);
      var out: Outcome := *;
      if w.calm { out := Done; }
      if !ExecEnabled(w.bound, w.s.p, Action.Commit(out)) { out := FailedNotDone; }
      if out.Effective() { CommitShows(); }
      w.Do(OfProtocol(Action.Commit(out)));
      ok := out.Done?;
    }

    method RaiseHeldOrder(site: string, shipBy: Time, quantities: map<string, int>) returns (r: Result<(string, bool)>)
      requires w.Valid() && w.s.p.exec.Running? && w.s.p.exec.ph.Raise?
      requires var o := w.s.p.exec.ph.o; site == o.site && shipBy == o.shipBy && quantities == Quantities(o.lines)
      modifies w
      ensures w.Valid() && old(w.trace) <= w.trace
      ensures var o := old(w.s.p.exec.ph.o);
        match r
        case Err(_) => Over(w.s, old(w.s.p.endings), Failed)
        case Ok((id, feasible)) =>
          && w.s.p.endings == old(w.s.p.endings)
          && w.s.p.exec == old(w.s.p.exec).(ph :=
               if feasible then Answering(AcceptedOrder(o, id), InfeasibleDeadline) else Cancel(o, id))
      ensures Steady(w.calm, old(w.s.p), w.s.p)
      ensures w.calm ==> r.Ok?
    {
      w.Interfere(Receiver);
      var raise: RaiseOutcome := *;
      if w.calm {
        var id := w.NewHoldId();
        var feasible: bool := *;
        raise := Raised(id, feasible);
      }
      match raise {
        case RaiseFailed =>
        case RaiseLost(id, _) => if id in w.s.p.planner.raised { raise := RaiseFailed; }
        case Raised(id, _) => if id in w.s.p.planner.raised { raise := RaiseFailed; }
      }
      w.Do(OfProtocol(CallRaise(raise)));
      if raise.Raised? { return Ok((raise.id, raise.feasible)); }
      return Err(PortFailure);
    }

    method CancelHeldOrder(id: string) returns (ok: bool)
      requires w.Valid() && w.s.p.exec.Running? && w.s.p.exec.ph.Cancel? && w.s.p.exec.ph.id == id
      modifies w
      ensures w.Valid() && old(w.trace) <= w.trace
      ensures if ok then
                && w.s.p.endings == old(w.s.p.endings)
                && w.s.p.exec == old(w.s.p.exec).(ph :=
                     Answering(RefusedOrder(old(w.s.p.exec.ph.o)), InfeasibleDeadline))
              else Over(w.s, old(w.s.p.endings), Failed)
      ensures Steady(w.calm, old(w.s.p), w.s.p)
      ensures w.calm ==> ok
    {
      w.Interfere(Receiver);
      var out: Outcome := *;
      if w.calm { out := Done; }
      w.Do(OfProtocol(CallCancel(out)));
      ok := out.Done?;
    }

    /** Tells the network; a refusal ends the call, an acceptance leaves the hold to release. */
    method SubmitAcknowledgement(ref: string, accepted: bool) returns (ok: bool)
      requires w.Valid() && w.s.p.exec.Running? && w.s.p.exec.ph.Submit?
      requires ref == w.s.p.exec.ph.o.ref && accepted == (w.s.p.exec.ph.o.state == Acknowledged)
      requires Linked()
      modifies w, stub
      ensures w.Valid() && old(w.trace) <= w.trace
      ensures if !ok then Over(w.s, old(w.s.p.endings), Failed)
              else if accepted then
                && w.s.p.endings == old(w.s.p.endings)
                && w.s.p.exec == old(w.s.p.exec).(ph := Release(old(w.s.p.exec.ph.o)))
              else
                && Over(w.s, old(w.s.p.endings), Answered)
                && Concluded(w.s.p, old(w.s.p.exec.ph.o))
      ensures Linked()
      ensures w.s.p.network.answers == old(w.s.p.network.answers) + [Answer(ref, accepted)]
      ensures stub != null ==> stub.calls == old(stub.calls) + [Submitted(ref, accepted)]
      ensures w.s.p.table.Keys == old(w.s.p.table.Keys) && (w.calm ==> w.s.p.arrived == old(w.s.p.arrived))
      ensures w.calm ==> ok
    {
      w.Interfere(Receiver);
      var out: Outcome := *;
      if w.calm { out := Done; }
      if !accepted { SubmitWillConclude(); }
      w.Do(OfProtocol(CallSubmit(out)));
      if stub != null {
        MirrorsSubmit(stub.calls, w.s.p.arrived, old(w.s.p.network.answers), ref, accepted);
        stub.SubmitAcknowledgement(ref, accepted);
      }
      ok := out.Done?;
    }

    method ReleaseHeldOrder(id: string) returns (ok: bool)
      requires w.Valid() && w.s.p.exec.Running? && w.s.p.exec.ph.Release? && w.s.p.exec.ph.o.local == Some(id)
      modifies w
      ensures w.Valid() && old(w.trace) <= w.trace
      ensures if ok then
                && Over(w.s, old(w.s.p.endings), Answered)
                && Concluded(w.s.p, old(w.s.p.exec.ph.o))
              else Over(w.s, old(w.s.p.endings), Failed)
      ensures Steady(w.calm, old(w.s.p), w.s.p)
      ensures w.calm ==> ok
    {
      w.Interfere(Receiver);
      var out: Outcome := *;
      if w.calm { out := Done; }
      ReleaseWillConclude();
      w.Do(OfProtocol(CallRelease(out)));
      ok := out.Done?;
    }
  }

  /** The call took k outbox ids for its transaction and is otherwise where it was. */
  predicate Inserted(e: Exec, e': Exec, k: nat) {
    && e.Running? && InTx(e.ph) && e'.Running? && InTx(e'.ph)
    && |e'.ph.tx.slots| == k
    && e' == e.(ph := e.ph.(tx := e.ph.tx.(slots := e'.ph.tx.slots)))
  }

  /** The order is answered for good: its row shows the answer, the network was sent the same one, and the call
      that answered left no hold behind. A yes has a released hold that order-management called feasible; a no
      has no line translated, or a hold that was called infeasible and cancelled. */
  ghost predicate Concluded(p: Proto, o: Order) {
    && o.ref in p.table && p.table[o.ref] == o
    && o.state in {Acknowledged, Rejected}
    && Answer(o.ref, o.state == Acknowledged) in p.network.answers
    && |p.endings| > 0
    && (forall id :: id in p.planner.raised && p.planner.raised[id].call == |p.endings| - 1 ==>
          !Outstanding(p.planner, id))
    && (match o.state
        case Acknowledged =>
          && o.lines != [] && o.local.Some? && o.local.value in p.planner.released
          && o.local.value in p.planner.raised && p.planner.raised[o.local.value].feasible
        case _ => o.local.None? && (o.lines != [] ==> TurnedDown(p.planner, |p.endings| - 1, o.ref)))
  }

  /** How a call ended, as its caller sees it. */
  predicate Ended(s: Sys, before: seq<Ending>, r: Result<NetworkOrder>)
    reads if r.Ok? then {r.value} else {}
  {
    && s.p.exec.Idle? && |s.p.endings| == |before| + 1 && before < s.p.endings
    && match s.p.endings[|before|]
       case Existing => r.Ok? && r.value.ref in s.p.table && s.p.table[r.value.ref] == r.value.Value()
       case Answered => r.Ok?
       case Failed => r.Err?
       case Crashed => false
  }

  /** The answered order carries what the dictionary makes of the demand: all of its lines, or none and a no. */
  predicate AsTranslated(dictionary: map<string, string>, d: Demand, o: Order) {
    match Verdict(dictionary, d)
    case Ok(lines) => o.lines == lines
    case Err(e) => e == UnknownProduct && o.lines == [] && o.state == Rejected
  }

  /** The call's answer transaction holds all its rows, and they tell the answer. */
  predicate AnswerOpen(e: Exec, e': Exec, o: Order, reason: Reason) {
    && e.Running? && e'.Running? && e'.ph.Committing? && Full(e'.ph.tx)
    && e'.ph.tx.o == o && Tells(e'.ph.tx.ev, o, reason)
    && e' == e.(ph := e'.ph)
  }

  class ReceiveNetworkDemand {
    const ports: Ports

    constructor (ports: Ports)
      ensures this.ports == ports
    {
      this.ports := ports;
    }

    /** Handles one unit of demand. It returns an order only when the order's row is there: the row it found,
        without touching anything; or the row it wrote, answered, submitted and settled itself. When nothing
        fails, a well-formed demand always comes back as an order. */
    method Execute(d: Demand) returns (r: Result<NetworkOrder>)
      requires ports.w.Valid() && ports.w.s.p.exec.Idle? && ports.Linked()
      modifies ports.w, ports.stub
      ensures ports.w.Valid() && old(ports.w.trace) <= ports.w.trace && ports.Linked()
      ensures Ended(ports.w.s, old(ports.w.s.p.endings), r)
      ensures r.Ok? ==> fresh(r.value) && r.value.ref == d.ref && d.ref in ports.w.s.p.table
      ensures r.Ok? && ports.w.s.p.endings[|old(ports.w.s.p.endings)|] == Existing ==>
                && Steady(ports.w.calm, old(ports.w.s.p), ports.w.s.p) && ports.Calls() == old(ports.Calls())
                && ports.w.s.p.planner == old(ports.w.s.p.planner)
      ensures r.Ok? && ports.w.s.p.endings[|old(ports.w.s.p.endings)|] == Answered ==>
                && Concluded(ports.w.s.p, r.value.Value()) && AsTranslated(ports.dictionary, d, r.value.Value())
                && CarriesDemand(r.value.Value(), d, old(ports.w.s.p.now)) && d.ref !in old(ports.w.s.p.table)
                && Announced(ports.w.s.p.outbox, r.value.Value(), Cause(r.value.Value()))
                && Reported(old(ports.w.s.p), ports.w.s.p, old(ports.Calls()), ports.Calls(), d.ref, r)
      ensures Recorded(old(ports.w.s.p), ports.w.s.p, d, old(ports.w.s.p.now), LinesFor(ports.dictionary, d))
      ensures SentFor(old(ports.w.s.p.network.answers), ports.w.s.p.network.answers, old(ports.Calls()),
                      ports.Calls(), ports.stub != null, d.ref)
      ensures Beside(ports.w.calm, old(ports.w.s.p), ports.w.s.p, d.ref)
      ensures ports.w.calm && WellFormed(ports.dictionary, d) ==> r.Ok?
    {
      var now := ports.Begin(d);

      var found := ports.FindByRef(d.ref);
      if found.Err? { return Err(found.error); }
      if found.value.Some? {
        var existing := new NetworkOrder(found.value.value);
        ports.FoundUnderItsRef(d.ref);
        return Ok(existing);
      }

      r := Handle(d, now);
    }

    /** Execute for a ref without a row, from translation on. */
    method Handle(d: Demand, now: Time) returns (r: Result<NetworkOrder>)
      requires ports.w.Valid() && At(ports.w.s, d, now, Phase.Translate) && ports.Linked()
      modifies ports.w, ports.stub
      ensures ports.w.Valid() && old(ports.w.trace) <= ports.w.trace && ports.Linked()
      ensures Settles(ports.w.s, old(ports.w.s.p.endings), d.ref, r)
      ensures d.ref !in old(ports.w.s.p.table)
      ensures r.Ok? ==> fresh(r.value) && AsTranslated(ports.dictionary, d, r.value.Value())
      ensures r.Ok? ==> CarriesDemand(r.value.Value(), d, now)
      ensures Recorded(old(ports.w.s.p), ports.w.s.p, d, now, LinesFor(ports.dictionary, d))
      ensures Reported(old(ports.w.s.p), ports.w.s.p, old(ports.Calls()), ports.Calls(), d.ref, r)
      ensures Beside(ports.w.calm, old(ports.w.s.p), ports.w.s.p, d.ref)
      ensures ports.w.calm && WellFormed(ports.dictionary, d) ==> r.Ok?
    {
      ports.NotRecordedYet();
      var lines, lookups := Translate(d);
      ports.Translated(lookups);
      if lines.Err? {
        if lines.error != UnknownProduct { return Err(lines.error); }
        r := RejectUntranslatable(d, now);
        return;
      }
      r := Proceed(d, lines.value, now);
    }

    /** What the network was sent when a call has ended: its answer, or when it failed possibly nothing. */
    ghost predicate Reported(p: Proto, p': Proto, calls: seq<Call>, calls': seq<Call>, ref: string,
                             r: Result<NetworkOrder>)
      reads if r.Ok? then {r.value} else {}
    {
      && SentFor(p.network.answers, p'.network.answers, calls, calls', ports.stub != null, ref)
      && (r.Ok? ==> p'.network.answers == p.network.answers + [Answer(ref, r.value.state == Acknowledged)])
    }

    /** The rest of Execute for a demand whose every line was translated. */
    method Proceed(d: Demand, lines: seq<Line>, now: Time) returns (r: Result<NetworkOrder>)
      requires ports.w.Valid() && ports.Linked()
      requires match Receive(d.ref, d.site, d.shipBy, lines, now)
        case Ok(o) => At(ports.w.s, d, now, Recording(Tx(o, ReceivedEvent(o, |lines|, now), []), false))
        case Err(_) => true
      modifies ports.w, ports.stub
      ensures ports.w.Valid() && old(ports.w.trace) <= ports.w.trace && ports.Linked()
      ensures match Receive(d.ref, d.site, d.shipBy, lines, now)
        case Ok(_) => Settles(ports.w.s, old(ports.w.s.p.endings), d.ref, r) && (ports.w.calm ==> r.Ok?)
        case Err(_) => r.Err? && ports.w.s == old(ports.w.s)
      ensures r.Ok? ==> fresh(r.value) && r.value.lines == lines && CarriesDemand(r.value.Value(), d, now)
      ensures Recorded(old(ports.w.s.p), ports.w.s.p, d, now, lines)
      ensures Reported(old(ports.w.s.p), ports.w.s.p, old(ports.Calls()), ports.Calls(), d.ref, r)
      ensures Beside(ports.w.calm, old(ports.w.s.p), ports.w.s.p, d.ref)
    {
      var received := Receive(d.ref, d.site, d.shipBy, lines, now);
      if received.Err? { return Err(received.error); }
      var o := new NetworkOrder(received.value);
      var recorded := SaveAndPublishReceived(o, |lines|, now);
      if recorded.Err? { return Err(recorded.error); }
      ghost var k := |ports.w.trace| - 1;
      r := Settle(o);
      ports.w.StandsSince(k, d.ref);
    }

    /** Raises the order's hold and answers as order-management judges it. */
    method Settle(o: NetworkOrder) returns (r: Result<NetworkOrder>)
      requires ports.w.Valid() && ports.w.s.p.exec.Running? && ports.Linked()
      requires o.state == New && o.local == None && ports.w.s.p.exec.ph == Raise(o.Value())
      modifies ports.w, ports.stub, o
      ensures ports.w.Valid() && old(ports.w.trace) <= ports.w.trace && ports.Linked()
      ensures Settles(ports.w.s, old(ports.w.s.p.endings), o.ref, r)
      ensures r.Ok? ==> r.value == o
      ensures Reported(old(ports.w.s.p), ports.w.s.p, old(ports.Calls()), ports.Calls(), o.ref, r)
      ensures Beside(ports.w.calm, old(ports.w.s.p), ports.w.s.p, o.ref)
      ensures ports.w.calm ==> r.Ok?
    {
      var quantities := o.SKUQuantities();
      var result := ports.RaiseHeldOrder(o.site, o.shipBy, quantities);
      if result.Err? { return Err(result.error); }
      var (id, feasible) := result.value;
      if !feasible {
        r := Reject(o, Some(id), InfeasibleDeadline);
        return;
      }
      r := Acknowledge(o, id);
    }

    /** Records the order and its receipt in one transaction. */
    method SaveAndPublishReceived(o: NetworkOrder, lineCount: nat, now: Time) returns (r: Result<()>)
      requires ports.w.Valid() && ports.w.s.p.exec.Running?
      requires var ph := ports.w.s.p.exec.ph;
        ph.Recording? && ph.tx == Tx(o.Value(), ReceivedEvent(o.Value(), lineCount, now), [])
      modifies ports.w
      ensures ports.w.Valid() && old(ports.w.trace) <= ports.w.trace
      ensures match r
        case Err(_) => Over(ports.w.s, old(ports.w.s.p.endings), Failed)
        case Ok(_) =>
          && ports.w.s.p.endings == old(ports.w.s.p.endings)
          && ports.w.s.p.exec == old(ports.w.s.p.exec).(ph :=
               if old(ports.w.s.p.exec.ph.untranslatable)
               then Answering(RefusedOrder(o.Value()), UntranslatableSku) else Raise(o.Value()))
          && o.ref in ports.w.s.p.table
          && Last(ports.w.s.p.outbox, o.ref, 1, OrderReceived(o.ref, o.site, o.shipBy, o.ackBy, lineCount, now))
      ensures r.Ok? || (o.ref !in old(ports.w.s.p.table) && o.ref in ports.w.s.p.table) ==>
                ports.w.s.p.table[o.ref] == o.Value()
      ensures ports.w.s.p.network == old(ports.w.s.p.network)
      ensures Beside(ports.w.calm, old(ports.w.s.p), ports.w.s.p, o.ref)
      ensures ports.w.calm ==> r.Ok?
    {
      var ok := ports.Save(o.Value());
      if !ok { return Err(PortFailure); }
      ok := ports.Publish(OrderReceived(o.ref, o.site, o.shipBy, o.ackBy, lineCount, now));
      if !ok { return Err(PortFailure); }
      ok := ports.Commit();
      if !ok { return Err(PortFailure); }
      return Ok(());
    }

    /** Every line in our vocabulary, or the error of the first that has none; also what the dictionary said,
        with its entries for the lines that were not asked about. */
    method Translate(d: Demand) returns (r: Result<seq<Line>>, lookups: seq<Lookup>)
      ensures |lookups| == |d.lines| && r == TranslateLines(d.lines, lookups)
      ensures r in {Verdict(ports.dictionary, d), Err(PortFailure)}
      ensures ports.w.calm ==> LookupFailed !in lookups && r == Verdict(ports.dictionary, d)
    {
      var lines: seq<Line> := [];
      lookups := [];
      for i := 0 to |d.lines|
        invariant |lookups| == i && TranslateLines(d.lines[..i], lookups) == Ok(lines)
        invariant Truthful(ports.dictionary, d.lines[..i], lookups, ports.w.calm)
      {
        var l := d.lines[i];
        var k := ports.ToSKU(l.product);
        TranslateSnoc(d.lines[..i], lookups, l, k);
        assert d.lines[..i + 1] == d.lines[..i] + [l];
        lookups := lookups + [k];
        match TranslateLine(l, k) {
          case Err(e) =>
            StopsAt(ports.dictionary, d, i, lookups, e, ports.w.calm);
            return Err(e), lookups + Entries(ports.dictionary, d.lines[i + 1..]);
          case Ok(line) => lines := lines + [line];
        }
      }
      assert d.lines[..|d.lines|] == d.lines;
      r := Ok(lines);
      Told(ports.dictionary, d, lookups, ports.w.calm);
    }

    /** Records and refuses a demand with a product we cannot identify. */
    method RejectUntranslatable(d: Demand, now: Time) returns (r: Result<NetworkOrder>)
      requires ports.w.Valid() && ports.Linked()
      requires match ReceiveUntranslatable(d.ref, d.site, d.shipBy, now)
        case Ok(o) => At(ports.w.s, d, now, Recording(Tx(o, ReceivedEvent(o, 0, now), []), true))
        case Err(_) => true
      modifies ports.w, ports.stub
      ensures ports.w.Valid() && old(ports.w.trace) <= ports.w.trace && ports.Linked()
      ensures match ReceiveUntranslatable(d.ref, d.site, d.shipBy, now)
        case Ok(_) => Settles(ports.w.s, old(ports.w.s.p.endings), d.ref, r) && (ports.w.calm ==> r.Ok?)
        case Err(_) => r.Err? && ports.w.s == old(ports.w.s)
      ensures r.Ok? ==> fresh(r.value) && r.value.lines == [] && r.value.state == Rejected
      ensures r.Ok? ==> CarriesDemand(r.value.Value(), d, now)
      ensures Recorded(old(ports.w.s.p), ports.w.s.p, d, now, [])
      ensures Reported(old(ports.w.s.p), ports.w.s.p, old(ports.Calls()), ports.Calls(), d.ref, r)
      ensures Beside(ports.w.calm, old(ports.w.s.p), ports.w.s.p, d.ref)
    {
      var received := ReceiveUntranslatable(d.ref, d.site, d.shipBy, now);
      if received.Err? { return Err(received.error); }
      var o := new NetworkOrder(received.value);
      var recorded := SaveAndPublishReceived(o, 0, now);
      if recorded.Err? { return Err(recorded.error); }
      ghost var k := |ports.w.trace| - 1;
      r := Reject(o, None, UntranslatableSku);
      ports.w.StandsSince(k, d.ref);
    }

    /** The scope in which both answers record: the order, then the event that announces its answer. */
    method RecordAnswer(o: NetworkOrder, reason: Reason) returns (ok: bool)
      requires ports.w.Valid() && ports.w.s.p.exec.Running? && ports.w.s.p.exec.ph == Answering(o.Value(), reason)
      modifies ports.w
      ensures ports.w.Valid() && old(ports.w.trace) <= ports.w.trace
      ensures if ok then
                && ports.w.s.p.endings == old(ports.w.s.p.endings)
                && ports.w.s.p.exec == old(ports.w.s.p.exec).(ph := Submit(o.Value()))
                && o.ref in ports.w.s.p.table && ports.w.s.p.table[o.ref] == o.Value()
                && Announced(ports.w.s.p.outbox, o.Value(), reason)
              else Over(ports.w.s, old(ports.w.s.p.endings), Failed)
      ensures ports.w.s.p.network == old(ports.w.s.p.network)
      ensures Beside(ports.w.calm, old(ports.w.s.p), ports.w.s.p, o.ref)
      ensures ports.w.calm ==> ok
    {
      ports.GivesCause();
      ok := ports.Save(o.Value());
      if !ok { return; }
      ok := PublishAnswer(o, reason);
      if !ok { return; }
      ghost var ev := ports.w.s.p.exec.ph.tx.ev;
      ok := ports.Commit();
      if ok { ports.JustAnnounced(o.Value(), reason, ev); }
    }

    /** The event that announces the answer, at the instant it is recorded. */
    method PublishAnswer(o: NetworkOrder, reason: Reason) returns (ok: bool)
      requires ports.w.Valid() && ports.w.s.p.exec.Running? && ports.w.s.p.exec.ph == Answering(o.Value(), reason)
      requires LocalOrderRequiresAnswer(o.Value())
      modifies ports.w
      ensures ports.w.Valid() && old(ports.w.trace) <= ports.w.trace
      ensures if ok then
                && ports.w.s.p.endings == old(ports.w.s.p.endings)
                && AnswerOpen(old(ports.w.s.p.exec), ports.w.s.p.exec, o.Value(), reason)
              else Over(ports.w.s, old(ports.w.s.p.endings), Failed)
      ensures Steady(ports.w.calm, old(ports.w.s.p), ports.w.s.p)
      ensures ports.w.calm ==> ok
    {
      ports.GivesCause();
      var now := ports.Now();
      if o.state == Acknowledged && o.local.Some? {
        ok := ports.Publish(OrderAcknowledged(o.ref, o.site, o.local.value, o.receivedAt, now));
      } else {
        ok := ports.Publish(OrderRejected(o.ref, o.site, reason, now));
      }
    }

    /** Refuses the order: the hold, if any, is cancelled first, the refusal is recorded, then submitted. */
    method Reject(o: NetworkOrder, local: Option<string>, reason: Reason) returns (r: Result<NetworkOrder>)
      requires ports.w.Valid() && ports.w.s.p.exec.Running? && o.state == New && o.local == None && ports.Linked()
      requires ports.w.s.p.exec.ph ==
               if local.Some? then Cancel(o.Value(), local.value) else Answering(RefusedOrder(o.Value()), reason)
      requires local.Some? ==> reason == InfeasibleDeadline
      modifies ports.w, ports.stub, o
      ensures ports.w.Valid() && old(ports.w.trace) <= ports.w.trace && ports.Linked()
      ensures Settles(ports.w.s, old(ports.w.s.p.endings), o.ref, r)
      ensures r.Ok? ==> r.value == o && o.state == Rejected
      ensures Reported(old(ports.w.s.p), ports.w.s.p, old(ports.Calls()), ports.Calls(), o.ref, r)
      ensures Beside(ports.w.calm, old(ports.w.s.p), ports.w.s.p, o.ref)
      ensures ports.w.calm ==> r.Ok?
    {
      if local.Some? {
        var cancelled := ports.CancelHeldOrder(local.value);
        if !cancelled { return Err(PortFailure); }
      }
      r := Refuse(o, reason);
    }

    /** Reject once no hold is left: the refusal is recorded, then submitted. */
    method Refuse(o: NetworkOrder, reason: Reason) returns (r: Result<NetworkOrder>)
      requires ports.w.Valid() && ports.w.s.p.exec.Running? && o.state == New && o.local == None && ports.Linked()
      requires ports.w.s.p.exec.ph == Answering(RefusedOrder(o.Value()), reason)
      modifies ports.w, ports.stub, o
      ensures ports.w.Valid() && old(ports.w.trace) <= ports.w.trace && ports.Linked()
      ensures Settles(ports.w.s, old(ports.w.s.p.endings), o.ref, r)
      ensures r.Ok? ==> r.value == o && o.state == Rejected
      ensures Reported(old(ports.w.s.p), ports.w.s.p, old(ports.Calls()), ports.Calls(), o.ref, r)
      ensures Beside(ports.w.calm, old(ports.w.s.p), ports.w.s.p, o.ref)
      ensures ports.w.calm ==> r.Ok?
    {
      var rejected := o.Reject();
      if rejected.Err? { return Err(AlreadyAnswered); }
      ports.GivesCause();
      var ok := RecordAnswer(o, reason);
      if !ok { return Err(PortFailure); }
      r := SubmitRefusal(o);
    }

    /** The recorded no is submitted. */
    method SubmitRefusal(o: NetworkOrder) returns (r: Result<NetworkOrder>)
      requires ports.w.Valid() && ports.w.s.p.exec.Running? && ports.Linked()
      requires ports.w.s.p.exec.ph == Submit(o.Value()) && o.state == Rejected
      requires o.ref in ports.w.s.p.table && ports.w.s.p.table[o.ref] == o.Value()
      requires Announced(ports.w.s.p.outbox, o.Value(), Cause(o.Value()))
      modifies ports.w, ports.stub
      ensures ports.w.Valid() && old(ports.w.trace) <= ports.w.trace && ports.Linked()
      ensures Settles(ports.w.s, old(ports.w.s.p.endings), o.ref, r)
      ensures r.Ok? ==> r.value == o
      ensures Reported(old(ports.w.s.p), ports.w.s.p, old(ports.Calls()), ports.Calls(), o.ref, r)
      ensures Beside(ports.w.calm, old(ports.w.s.p), ports.w.s.p, o.ref)
      ensures ports.w.calm ==> r.Ok?
    {
      ghost var k := |ports.w.trace| - 1;
      var ok := ports.SubmitAcknowledgement(o.ref, false);
      if !ok { return Err(PortFailure); }
      ports.StillAnnounced(k, o.Value(), Cause(o.Value()));
      return Ok(o);
    }

    /** Commits to the order: the acceptance is recorded with its local order, then submitted, and only then is
        the hold released. */
    method Acknowledge(o: NetworkOrder, id: string) returns (r: Result<NetworkOrder>)
      requires ports.w.Valid() && ports.w.s.p.exec.Running? && o.state == New && o.local == None && ports.Linked()
      requires ports.w.s.p.exec.ph == Answering(AcceptedOrder(o.Value(), id), InfeasibleDeadline)
      modifies ports.w, ports.stub, o
      ensures ports.w.Valid() && old(ports.w.trace) <= ports.w.trace && ports.Linked()
      ensures Settles(ports.w.s, old(ports.w.s.p.endings), o.ref, r)
      ensures r.Ok? ==> r.value == o
      ensures Reported(old(ports.w.s.p), ports.w.s.p, old(ports.Calls()), ports.Calls(), o.ref, r)
      ensures Beside(ports.w.calm, old(ports.w.s.p), ports.w.s.p, o.ref)
      ensures ports.w.calm ==> r.Ok?
    {
      var acknowledged := o.Acknowledge();
      if acknowledged.Err? { return Err(AlreadyAnswered); }
      var linked := o.LinkLocalOrder(id);
      if linked.Err? { return Err(NotAcknowledged); }
      var ok := RecordAnswer(o, InfeasibleDeadline);
      if !ok { return Err(PortFailure); }
      r := SubmitAndRelease(o, id);
    }

    /** The recorded yes is submitted, and then the hold is released to the floor. */
    method SubmitAndRelease(o: NetworkOrder, id: string) returns (r: Result<NetworkOrder>)
      requires ports.w.Valid() && ports.w.s.p.exec.Running? && ports.Linked()
      requires ports.w.s.p.exec.ph == Submit(o.Value()) && o.state == Acknowledged && o.local == Some(id)
      requires o.ref in ports.w.s.p.table && ports.w.s.p.table[o.ref] == o.Value()
      requires Announced(ports.w.s.p.outbox, o.Value(), InfeasibleDeadline)
      modifies ports.w, ports.stub
      ensures ports.w.Valid() && old(ports.w.trace) <= ports.w.trace && ports.Linked()
      ensures Settles(ports.w.s, old(ports.w.s.p.endings), o.ref, r)
      ensures r.Ok? ==> r.value == o
      ensures Reported(old(ports.w.s.p), ports.w.s.p, old(ports.Calls()), ports.Calls(), o.ref, r)
      ensures Beside(ports.w.calm, old(ports.w.s.p), ports.w.s.p, o.ref)
      ensures ports.w.calm ==> r.Ok?
    {
      ghost var k := |ports.w.trace| - 1;
      var ok := ports.SubmitAcknowledgement(o.ref, true);
      if !ok { return Err(PortFailure); }
      ok := ports.ReleaseHeldOrder(id);
      if !ok { return Err(PortFailure); }
      ports.StillAnnounced(k, o.Value(), InfeasibleDeadline);
      return Ok(o);
    }
  }

  /** A call that got past recording ends failed, or answered with the order concluded. */
  ghost predicate Settles(s: Sys, before: seq<Ending>, ref: string, r: Result<NetworkOrder>)
    reads if r.Ok? then {r.value} else {}
  {
    match r
    case Err(_) => Over(s, before, Failed)
    case Ok(o) =>
      && Over(s, before, Answered) && o.ref == ref
      && Concluded(s.p, o.Value()) && Announced(s.p.outbox, o.Value(), Cause(o.Value()))
  }

  lemma {:induction false} TranslateSnoc(lines: seq<InboundLine>, lookups: seq<Lookup>, l: InboundLine, k: Lookup)
    requires |lookups| == |lines| && TranslateLines(lines, lookups).Ok?
    ensures TranslateLines(lines + [l], lookups + [k]) ==
            match TranslateLine(l, k)
            case Ok(line) => Ok(TranslateLines(lines, lookups).value + [line])
            case Err(e) => Err(e)
  {
    if lines != [] {
      TranslateSnoc(lines[1..], lookups[1..], l, k);
      assert (lines + [l])[1..] == lines[1..] + [l];
      assert (lookups + [k])[1..] == lookups[1..] + [k];
      if TranslateLine(lines[0], lookups[0]).Ok? && TranslateLine(l, k).Ok? {
        var a, z := TranslateLine(lines[0], lookups[0]).value, TranslateLine(l, k).value;
        var rest := TranslateLines(lines[1..], lookups[1..]).value;
        assert [a] + (rest + [z]) == ([a] + rest) + [z];
      }
    } else {
      assert (lines + [l])[1..] == [] && (lookups + [k])[1..] == [];
      assert TranslateLines((lines + [l])[1..], (lookups + [k])[1..]) == Ok([]);
      if TranslateLine(l, k).Ok? {
        assert [TranslateLine(l, k).value] + [] == [] + [TranslateLine(l, k).value];
      }
    }
  }

  lemma {:induction false} TranslatePrefix(a: seq<InboundLine>, ka: seq<Lookup>, b: seq<InboundLine>, kb: seq<Lookup>)
    requires |a| == |ka| && |b| == |kb|
    requires TranslateLines(a, ka).Err? || b == []
    ensures TranslateLines(a + b, ka + kb) == TranslateLines(a, ka)
  {
    if a == [] || b == [] {
      assert a + b == a || a == [];
      assert ka + kb == ka || a == [];
    } else {
      assert (a + b)[1..] == a[1..] + b;
      assert (ka + kb)[1..] == ka[1..] + kb;
      if TranslateLine(a[0], ka[0]).Ok? {
        TranslatePrefix(a[1..], ka[1..], b, kb);
      }
    }
  }
}
