/** How much the 24 hours matter: nothing in the store keeps a late answer from overwriting the sweep's, so the
    rows are safe for exactly the bounds that do not exceed the window. */
module Window {
  import opened Domain
  import opened Translation
  import opened Protocol
  import opened Pipeline
  import opened Guarantees

  predicate Answered(s: Sys, ref: string) {
    ref in s.p.table && s.p.table[ref].state != New
  }

  /** No run in which answers commit within the bound ever overwrites an answered row. */
  ghost predicate SafeFor(bound: Time) {
    forall tr: seq<Sys>, i, j, ref | Run(bound, tr) && 0 <= i <= j < |tr| && Answered(tr[i], ref) ::
      Answered(tr[j], ref) && tr[j].p.table[ref] == tr[i].p.table[ref]
  }

  ghost predicate Ends(bound: Time, s: Sys) {
    exists tr :: Run(bound, tr) && tr[|tr| - 1] == s
  }

  lemma Extend(bound: Time, s: Sys, st: Step)
    requires Ends(bound, s) && CanStep(bound, s, st)
    ensures Ends(bound, TakeStep(bound, s, st))
  {
    var tr :| Run(bound, tr) && tr[|tr| - 1] == s;
    RunExtends(bound, tr, st);
    assert (tr + [TakeStep(bound, s, st)])[|tr|] == TakeStep(bound, s, st);
  }

  /** One protocol step at the end of a run. */
  lemma Go(bound: Time, p: Proto, a: Action) returns (p': Proto)
    requires Ends(bound, START.(p := p)) && Enabled(bound, p, a)
    ensures p' == Apply(bound, p, a) && Ends(bound, START.(p := p'))
  {
    p' := Apply(bound, p, a);
    Extend(bound, START.(p := p), OfProtocol(a));
    assert TakeStep(bound, START.(p := p), OfProtocol(a)) == START.(p := p');
  }

  lemma GoExec(bound: Time, p: Proto, a: Action) returns (p': Proto)
    requires Ends(bound, START.(p := p)) && OfExec(a) && p.exec.Running? && ExecEnabled(bound, p, a)
    ensures p' == ExecApply(bound, p, a) && Ends(bound, START.(p := p'))
  {
    p' := Go(bound, p, a);
  }

  lemma GoSweep(bound: Time, p: Proto, a: Action) returns (p': Proto)
    requires Ends(bound, START.(p := p)) && OfSweep(a) && SweepEnabled(p, a)
    ensures p' == SweepApply(p, a) && Ends(bound, START.(p := p'))
  {
    p' := Go(bound, p, a);
  }

  // ----- the late answer -----

  const DEMAND := Demand("po-1", "site-1", 0, [InboundLine("1", "product", 1)])
  const LINE := Line("1", "product", "sku", 1)
  const RECEIVED := Order("po-1", "site-1", 0, ACKNOWLEDGEMENT_WINDOW, [LINE], New, None, 0)
  const ACCEPTED := RECEIVED.(state := Acknowledged, local := Some("hold"))
  const REFUSED := RECEIVED.(state := Rejected)
  const RECEIPT := OrderReceived("po-1", "site-1", 0, ACKNOWLEDGEMENT_WINDOW, 1, 0)

  function Missed(late: Time): Event { OrderRejected("po-1", "site-1", DeadlineMissed, late) }

  function Pair(eid: nat, ev: Event, committed: bool): seq<Slot> {
    [Slot(OutRow(eid, Integration, ev), committed), Slot(OutRow(eid + 1, Analytics, ev), committed)]
  }

  /** A call that has recorded its order and is about to raise the hold. */
  const RECORDED := INITIAL.(
    table := map["po-1" := RECEIVED], outbox := Pair(0, RECEIPT, true), exec := Running(DEMAND, 0, Raise(RECEIVED)))

  lemma TwoInserts(base: seq<Slot>, tx: Tx, eid: nat)
    requires tx.slots == []
    ensures var one := InsertRow(base, tx, eid);
      InsertRow(one, tx.(slots := tx.slots + [|base|]), eid + 1) == base + Pair(eid, tx.ev, false)
  {
  }

  const TRANSLATED := INITIAL.(exec := Running(DEMAND, 0, Recording(Tx(RECEIVED, RECEIPT, []), false)))

  lemma TranslateDemand()
    ensures TranslateLines(DEMAND.lines, [Sku("sku")]) == Ok([LINE])
  {
    assert DEMAND.lines[1..] == [] && [Sku("sku")][1..] == [];
    assert TranslateLines(DEMAND.lines[1..], [Sku("sku")][1..]) == Ok([]);
    assert TranslateLine(DEMAND.lines[0], Sku("sku")) == Ok(LINE);
    assert [LINE] + [] == [LINE];
  }

  lemma ReachTranslated(bound: Time)
    ensures Ends(bound, START.(p := TRANSLATED))
  {
    assert Run(bound, [START]) && [START][|[START]| - 1] == START;
    assert START.(p := INITIAL) == START;
    var p := Go(bound, INITIAL, Start(DEMAND));
    p := GoExec(bound, p, FindByRef(true));
    TranslateDemand();
    p := GoExec(bound, p, Translated([Sku("sku")]));
    assert p == TRANSLATED;
  }

  const FILLED := INITIAL.(
    outbox := Pair(0, RECEIPT, false), exec := Running(DEMAND, 0, Recording(Tx(RECEIVED, RECEIPT, [0, 1]), false)))

  lemma CommitFilled(bound: Time)
    requires Ends(bound, START.(p := FILLED))
    ensures Ends(bound, START.(p := RECORDED))
  {
    var p := GoExec(bound, FILLED, Commit(Done));
    assert p.outbox == Pair(0, RECEIPT, true);
    assert p == RECORDED;
  }

  lemma ReachRecorded(bound: Time)
    ensures Ends(bound, START.(p := RECORDED))
  {
    ReachTranslated(bound);
    TwoInserts([], Tx(RECEIVED, RECEIPT, []), 0);
    assert [] + Pair(0, RECEIPT, false) == Pair(0, RECEIPT, false);
    var p := GoExec(bound, TRANSLATED, Insert(0));
    p := GoExec(bound, p, Insert(1));
    assert p.exec.ph.tx.slots == [0, 1];
    assert p == FILLED;
    CommitFilled(bound);
  }

  /** The call has raised its hold and is about to record its yes. */
  const HELD := RECORDED.(
    planner := Planner(map["hold" := Hold("po-1", 0, true)], {}, {}),
    exec := Running(DEMAND, 0, Answering(ACCEPTED, InfeasibleDeadline)))

  lemma ReachHeld(bound: Time)
    ensures Ends(bound, START.(p := HELD))
  {
    ReachRecorded(bound);
    var p := GoExec(bound, RECORDED, CallRaise(Raised("hold", true)));
    assert p == HELD;
  }

  /** Meanwhile the window closes, and a sweep pass has listed and loaded the order. */
  function Loaded(late: Time): Proto {
    HELD.(now := late, sweep := Looping(late, [RECEIVED], Report(1, {}, {}, {}), false))
  }

  lemma ReachLoaded(bound: Time, late: Time)
    requires late >= 0
    ensures Ends(bound, START.(p := Loaded(late)))
  {
    ReachHeld(bound);
    var p := Go(bound, HELD, Tick(late));
    p := GoSweep(bound, p, SweepStart);
    p := GoSweep(bound, p, SweepList(true, ["po-1"]));
    p := GoSweep(bound, p, SweepLoad(true));
    assert p.sweep.todo == [RECEIVED];
    assert p == Loaded(late);
  }

  function Refusing(late: Time, outbox: seq<Slot>, slots: seq<nat>): Proto {
    Loaded(late).(
      outbox := outbox,
      sweep := Missing(late, [RECEIVED], Report(1, {}, {}, {}), Tx(REFUSED, Missed(late), slots)))
  }

  lemma ReachRefusing(bound: Time, late: Time)
    requires late > ACKNOWLEDGEMENT_WINDOW
    ensures Ends(bound, START.(p := Refusing(late, RECORDED.outbox, [])))
  {
    ReachLoaded(bound, late);
    var p := GoSweep(bound, Loaded(late), SweepOpen);
    assert p == Refusing(late, RECORDED.outbox, []);
  }

  function OneRow(late: Time): seq<Slot> { InsertRow(RECORDED.outbox, Tx(REFUSED, Missed(late), []), 2) }

  lemma ReachOneRow(bound: Time, late: Time)
    requires late > ACKNOWLEDGEMENT_WINDOW
    ensures Ends(bound, START.(p := Refusing(late, OneRow(late), [2])))
  {
    ReachRefusing(bound, late);
    var p := GoSweep(bound, Refusing(late, RECORDED.outbox, []), SweepInsert(2));
    assert p.sweep.tx.slots == [2];
    assert p == Refusing(late, OneRow(late), [2]);
  }

  function TwoRows(late: Time): seq<Slot> { Pair(0, RECEIPT, true) + Pair(2, Missed(late), false) }

  lemma ReachTwoRows(bound: Time, late: Time)
    requires late > ACKNOWLEDGEMENT_WINDOW
    ensures Ends(bound, START.(p := Refusing(late, TwoRows(late), [2, 3])))
  {
    ReachOneRow(bound, late);
    TwoInserts(RECORDED.outbox, Tx(REFUSED, Missed(late), []), 2);
    var p := GoSweep(bound, Refusing(late, OneRow(late), [2]), SweepInsert(3));
    assert p.sweep.tx.slots == [2, 3];
    assert p == Refusing(late, TwoRows(late), [2, 3]);
  }

  /** The pass has committed its refusal and is over; only then does the call go on. */
  function Swept(late: Time, ph: Phase, outbox: seq<Slot>): Proto {
    HELD.(
      now := late, table := map["po-1" := REFUSED], outbox := outbox,
      exec := Running(DEMAND, 0, ph),
      sweep := Looping(late, [], Report(1, {"po-1"}, {}, {}), false))
  }

  function SweptRows(late: Time): seq<Slot> { Pair(0, RECEIPT, true) + Pair(2, Missed(late), true) }

  lemma CommitTwoRows(late: Time)
    ensures CommitRows(TwoRows(late), [2, 3]) == SweptRows(late)
  {
  }

  lemma ReachSwept(bound: Time, late: Time)
    requires late > ACKNOWLEDGEMENT_WINDOW
    ensures Ends(bound, START.(p := Swept(late, HELD.exec.ph, SweptRows(late))))
  {
    ReachTwoRows(bound, late);
    CommitTwoRows(late);
    var p := GoSweep(bound, Refusing(late, TwoRows(late), [2, 3]), SweepCommit(Done));
    assert p.table == map["po-1" := REFUSED];
    assert p.sweep.todo == [] && p.sweep.rep.moved == {"po-1"};
    assert p == Swept(late, HELD.exec.ph, SweptRows(late));
  }

  function Yes(late: Time): Event { OrderAcknowledged("po-1", "site-1", "hold", 0, late) }

  function Open(late: Time, slots: seq<nat>): Phase { Committing(Tx(ACCEPTED, Yes(late), slots)) }

  lemma ReachOpen(bound: Time, late: Time)
    requires late > ACKNOWLEDGEMENT_WINDOW
    ensures Ends(bound, START.(p := Swept(late, Open(late, []), SweptRows(late))))
  {
    ReachSwept(bound, late);
    var p := GoExec(bound, Swept(late, HELD.exec.ph, SweptRows(late)), OpenAnswer);
    assert p == Swept(late, Open(late, []), SweptRows(late));
  }

  function HalfYes(late: Time): seq<Slot> { InsertRow(SweptRows(late), Tx(ACCEPTED, Yes(late), []), 4) }

  lemma ReachHalfYes(bound: Time, late: Time)
    requires late > ACKNOWLEDGEMENT_WINDOW
    ensures Ends(bound, START.(p := Swept(late, Open(late, [4]), HalfYes(late))))
  {
    ReachOpen(bound, late);
    var p := GoExec(bound, Swept(late, Open(late, []), SweptRows(late)), Insert(4));
    assert p.exec.ph.tx.slots == [4];
    assert p == Swept(late, Open(late, [4]), HalfYes(late));
  }

  function AboutToCommit(late: Time): Proto {
    Swept(late, Open(late, [4, 5]), SweptRows(late) + Pair(4, Yes(late), false))
  }

  lemma ReachAnswering(bound: Time, late: Time)
    requires late > ACKNOWLEDGEMENT_WINDOW
    ensures Ends(bound, START.(p := AboutToCommit(late)))
  {
    ReachHalfYes(bound, late);
    TwoInserts(SweptRows(late), Tx(ACCEPTED, Yes(late), []), 4);
    var p := GoExec(bound, Swept(late, Open(late, [4]), HalfYes(late)), Insert(5));
    assert p.exec.ph.tx.slots == [4, 5];
    assert p == AboutToCommit(late);
  }

  /** With any bound beyond the window some run turns a recorded no into a yes; in it no two transactions are
      ever open at once. */
  lemma LateAnswerOverwrites(bound: Time)
    requires bound > ACKNOWLEDGEMENT_WINDOW
    ensures !SafeFor(bound)
  {
    ReachAnswering(bound, bound);
    var p := AboutToCommit(bound);
    var s := START.(p := p);
    var tr :| Run(bound, tr) && tr[|tr| - 1] == s;
    var p' := GoExec(bound, p, Commit(Done));
    var s' := START.(p := p');
    assert s' == TakeStep(bound, s, OfProtocol(Commit(Done)));
    assert p'.table["po-1"].state == Acknowledged;
    RunExtends(bound, tr, OfProtocol(Commit(Done)));
    assert Answered((tr + [s'])[|tr| - 1], "po-1");
    assert (tr + [s'])[|tr|] == s';
  }

  /** Answered rows are safe under a bound on how late answers commit exactly when the bound is within the
      24 hours the sweep waits. */
  lemma SafeExactlyWithinWindow(bound: Time)
    ensures SafeFor(bound) <==> bound <= ACKNOWLEDGEMENT_WINDOW
  {
    if bound > ACKNOWLEDGEMENT_WINDOW {
      LateAnswerOverwrites(bound);
    } else {
      forall tr: seq<Sys>, i, j, ref | Run(bound, tr) && 0 <= i <= j < |tr| && Answered(tr[i], ref)
        ensures Answered(tr[j], ref) && tr[j].p.table[ref] == tr[i].p.table[ref]
      {
        RowsStand(bound, tr, i, j, ref);
      }
    }
  }
}
