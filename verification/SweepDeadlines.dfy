/** The deadline sweep: the code of one pass on the running system. */
module SweepDeadlines {
  import opened Domain
  import opened Protocol
  import opened ProtocolInvariant
  import opened ProtocolWrites
  import opened Pipeline
  import opened Guarantees
  import opened World

  datatype SweepResult = SweepResult(examined: nat, missed: nat)

  /** The outgoing ports as one sweep pass sees them. */
  class SweepPorts {
    const w: Runtime

    constructor (w: Runtime)
      ensures this.w == w
    {
      this.w := w;
    }

    method Now() returns (now: Time)
      requires w.Valid() && SweepEnabled(w.s.p, SweepStart)
      modifies w
      ensures w.Valid() && old(w.trace) <= w.trace && w.s.p.sweep == Listing(now)
      ensures w.s.p.table == old(w.s.p.table) && w.s.p.now == now == old(w.s.p.now)
    {
      w.Do(OfProtocol(SweepStart));
      now := w.s.p.now;
    }

    /** The refs that are NEW, in deadline order, as one query sees them. */
    method QueryUnanswered() returns (ok: bool, refs: seq<string>)
      requires w.Valid() && w.s.p.sweep.Listing?
      modifies w
      ensures w.Valid() && old(w.trace) <= w.trace
      ensures var t := old(w.s.p.sweep.t);
        w.s.p.sweep == if !ok then Resting
                       else if refs == [] then Looping(t, [], Report(0, {}, {}, {}), false)
                       else Loading(t, refs, [])
      ensures ok ==> forall t, r :: OverdueRow(old(w.s.p), t, r) ==> r in refs && OverdueRow(w.s.p, t, r)
      ensures w.calm ==> ok
    {
      w.Interfere(Sweeper);
      ok := *;
      ok := ok || w.calm;
      refs := UnansweredRefs(w.s.p.table);
      w.Do(OfProtocol(SweepList(ok, refs)));
    }

    /** One order, loaded after the query; it may have been answered since. */
    method FindByRef(ref: string) returns (r: Result<Option<Order>>)
      requires w.Valid() && w.s.p.sweep.Loading? && w.s.p.sweep.refs != [] && w.s.p.sweep.refs[0] == ref
      modifies w
      ensures w.Valid() && old(w.trace) <= w.trace
      ensures var v := old(w.s.p.sweep);
        match r
        case Err(_) => w.s.p.sweep == Resting
        case Ok(found) => w.s.p.sweep == Advanced(v, found)
      ensures forall t, x :: OverdueRow(old(w.s.p), t, x) ==> OverdueRow(w.s.p, t, x)
      ensures r.Ok? ==> forall t :: OverdueRow(old(w.s.p), t, ref) ==> Finds(r.value, t, ref)
      ensures w.calm ==> r.Ok?
    {
      w.Interfere(Sweeper);
      var ok: bool := *;
      ok := ok || w.calm;
      FoundUnderItsRef(ref);
      r := if !ok then Err(PortFailure) else Ok(if ref in w.s.p.table then Some(w.s.p.table[ref]) else None);
      w.Do(OfProtocol(SweepLoad(ok)));
    }

    /** Every NEW order the query saw, loaded one by one. */
    method ListUnanswered() returns (r: Result<seq<Order>>)
      requires w.Valid() && w.s.p.sweep.Listing?
      modifies w
      ensures w.Valid() && old(w.trace) <= w.trace
      ensures match r
        case Err(_) => w.s.p.sweep == Resting
        case Ok(os) =>
          && w.s.p.sweep == Looping(old(w.s.p.sweep.t), os, Report(|os|, {}, {}, {}), false)
          && StillListed(old(w.s.p), w.s.p, [], os)
      ensures w.calm ==> r.Ok?
    {
      var ok, refs := QueryUnanswered();
      if !ok { return Err(PortFailure); }
      var out: seq<Order> := [];
      for i := 0 to |refs|
        invariant w.Valid() && old(w.trace) <= w.trace
        invariant w.s.p.sweep == if i == |refs| then Looping(old(w.s.p.sweep.t), out, Report(|out|, {}, {}, {}), false)
                                 else Loading(old(w.s.p.sweep.t), refs[i..], out)
        invariant StillListed(old(w.s.p), w.s.p, refs[i..], out)
      {
        assert refs[i..][1..] == refs[i + 1..];
        ghost var p := w.s.p;
        var found := FindByRef(refs[i]);
        if found.Err? { return Err(PortFailure); }
        LoadOne(old(w.s.p), p, w.s.p, refs[i..], out, found.value);
        out := out + Listed(found.value);
      }
      return Ok(out);
    }

    /** The loop passes over an order that is not overdue. */
    method Skip()
      requires w.Valid() && SweepEnabled(w.s.p, SweepSkip)
      modifies w
      ensures w.Valid() && old(w.trace) <= w.trace
      ensures var v := old(w.s.p.sweep); w.s.p.sweep == Looping(v.t, v.todo[1..], v.rep, false)
    {
      w.Interfere(Sweeper);
      w.Do(OfProtocol(SweepSkip));
    }

    method CancelHeldOrder(id: string) returns (ok: bool)
      requires w.Valid() && HeadOverdue(w.s.p.sweep) && !w.s.p.sweep.freed
      requires w.s.p.sweep.todo[0].local == Some(id)
      modifies w
      ensures w.Valid() && old(w.trace) <= w.trace
      ensures var v := old(w.s.p.sweep); w.s.p.sweep == if ok then v.(freed := true) else Fail(v)
      ensures w.calm ==> ok
    {
      w.Interfere(Sweeper);
      var out: Outcome := *;
      if w.calm { out := Done; }
      w.Do(OfProtocol(SweepCancel(out)));
      ok := out.Done?;
    }

    method Save(o: Order) returns (ok: bool)
      requires w.Valid() && HeadOverdue(w.s.p.sweep) && o == RefusedOrder(w.s.p.sweep.todo[0])
      modifies w
      ensures w.Valid() && old(w.trace) <= w.trace
      ensures var v := old(w.s.p.sweep);
        w.s.p.sweep == (if ok then v else Fail(v)) && (ok ==> LocalOrderRequiresAnswer(o))
      ensures w.calm ==> ok
    {
      w.Interfere(Sweeper);
      IsStorable();
      ok := *;
      ok := (ok || w.calm) && LocalOrderRequiresAnswer(o);
      if !ok { w.Do(OfProtocol(SweepTxFails)); }
    }

    method EventTime() returns (now: Time)
      requires w.Valid() && HeadOverdue(w.s.p.sweep) && (w.s.p.sweep.todo[0].local.None? || w.s.p.sweep.freed)
      modifies w
      ensures w.Valid() && old(w.trace) <= w.trace
      ensures var v := old(w.s.p.sweep); var o := RefusedOrder(v.todo[0]);
        w.s.p.sweep == Missing(v.t, v.todo, v.rep, Tx(o, OrderRejected(o.ref, o.site, DeadlineMissed, now), []))
    {
      w.Interfere(Sweeper);
      w.Do(OfProtocol(SweepOpen));
      now := w.s.p.now;
    }

    method Publish(ev: Event) returns (ok: bool)
      requires w.Valid() && w.s.p.sweep.Missing? && w.s.p.sweep.todo != []
      requires w.s.p.sweep.tx.slots == [] && w.s.p.sweep.tx.ev == ev
      requires LocalOrderRequiresAnswer(w.s.p.sweep.tx.o)
      modifies w
      ensures w.Valid() && old(w.trace) <= w.trace
      ensures var v := old(w.s.p.sweep);
        if ok then Filled(v, w.s.p.sweep, |TOPICS|) else w.s.p.sweep == Fail(v)
      ensures w.calm ==> ok
    {
      for i := 0 to |TOPICS|
        invariant w.Valid() && old(w.trace) <= w.trace
        invariant Filled(old(w.s.p.sweep), w.s.p.sweep, i)
      {
        ok := InsertRow(i);
        if !ok { return; }
      }
      return true;
    }

    method InsertRow(i: nat) returns (ok: bool)
      requires w.Valid() && i < |TOPICS| && w.s.p.sweep.Missing? && w.s.p.sweep.todo != []
      requires Filled(w.s.p.sweep, w.s.p.sweep, i) && LocalOrderRequiresAnswer(w.s.p.sweep.tx.o)
      modifies w
      ensures w.Valid() && old(w.trace) <= w.trace
      ensures if ok then Filled(old(w.s.p.sweep), w.s.p.sweep, i + 1) else w.s.p.sweep == Fail(old(w.s.p.sweep))
      ensures w.calm ==> ok
    {
      w.Interfere(Sweeper);
      ok := *;
      ok := ok || w.calm;
      if !ok {
        w.Do(OfProtocol(SweepTxFails));
        return;
      }
      var eid := w.NewId();
      w.Do(OfProtocol(SweepInsert(eid)));
    }

    /** The commit; a failed one may have landed, which the pass does not learn. */
    method Commit() returns (ok: bool)
      requires w.Valid() && w.s.p.sweep.Missing? && w.s.p.sweep.todo != [] && Full(w.s.p.sweep.tx)
      modifies w
      ensures w.Valid() && old(w.trace) <= w.trace
      ensures var v := old(w.s.p.sweep);
        if ok then w.s.p.sweep == Looping(v.t, v.todo[1..], v.rep.(moved := v.rep.moved + {v.tx.o.ref}), false)
        else w.s.p.sweep in {Fail(v), FailCommit(v, true)}
      ensures w.calm ==> ok
    {
      w.Interfere(Sweeper);
      var out: Outcome := *;
      if w.calm { out := Done; }
      w.Do(OfProtocol(SweepCommit(out)));
      ok := out.Done?;
    }

    /** A row is stored under its own ref. */
    lemma FoundUnderItsRef(ref: string)
      requires w.Valid()
      ensures ref in w.s.p.table ==> w.s.p.table[ref].ref == ref
    {
      w.StateOk();
      assert ref in w.s.p.table ==> RowOk(w.s.p.planner, ref, w.s.p.table[ref]);
    }

    lemma IsStorable()
      requires w.Valid() && HeadOverdue(w.s.p.sweep)
      ensures LocalOrderRequiresAnswer(RefusedOrder(w.s.p.sweep.todo[0]))
    {
      w.StateOk();
      assert LoadedOk(w.s.p.table, w.s.p.sweep.t, w.s.p.sweep.todo[0]);
    }

    /** The refs of the NEW rows in the order of their deadlines, ties in any order. */
    method UnansweredRefs(table: Table) returns (refs: seq<string>)
      ensures Unanswered(table, refs)
    {
      refs := *;
      if Unanswered(table, refs) { return; }
      refs := [];
      var rest := set r | r in table && table[r].state == New;
      while rest != {}
        invariant forall r :: r in refs || r in rest <==> r in table && table[r].state == New
        invariant forall i, j :: 0 <= i < j < |refs| ==> refs[i] != refs[j]
        invariant forall i :: 0 <= i < |refs| ==> refs[i] !in rest
        invariant forall i, j :: 0 <= i < j < |refs| ==> table[refs[i]].ackBy <= table[refs[j]].ackBy
        invariant forall i, r :: 0 <= i < |refs| && r in rest ==> table[refs[i]].ackBy <= table[r].ackBy
        decreases rest
      {
        var next := Earliest(table, rest);
        rest := rest - {next};
        refs := refs + [next];
      }
    }

    method Earliest(table: Table, refs: set<string>) returns (next: string)
      requires refs != {} && refs <= table.Keys
      ensures next in refs && forall r :: r in refs ==> table[next].ackBy <= table[r].ackBy
    {
      next :| next in refs;
      var rest := refs - {next};
      while rest != {}
        invariant rest <= refs && next in refs
        invariant forall r :: r in refs - rest ==> table[next].ackBy <= table[r].ackBy
        decreases rest
      {
        var r :| r in rest;
        rest := rest - {r};
        if table[r].ackBy < table[next].ackBy { next := r; }
      }
    }
  }

  /** The transaction took k outbox ids and is otherwise where it was. */
  predicate Filled(v: Sweep, v': Sweep, k: nat) {
    && v.Missing? && v'.Missing? && |v'.tx.slots| == k
    && v' == v.(tx := v.tx.(slots := v'.tx.slots))
  }

  /** The head's own step failed; a commit may have landed all the same. */
  predicate GaveUp(v: Sweep, v': Sweep) {
    && (v.Looping? || v.Missing?) && v.todo != [] && v'.Looping?
    && v' == Looping(v.t, v.todo[1..], v'.rep, false)
    && v'.rep == v.rep.(failed := v.rep.failed + {v.todo[0].ref}, landed := v'.rep.landed)
    && v'.rep.landed in {v.rep.landed, v.rep.landed + {v.todo[0].ref}}
  }

  function OverdueRefs(os: seq<Order>, t: Time): set<string> {
    set i | 0 <= i < |os| && AcknowledgementOverdue(os[i], t) :: os[i].ref
  }

  class SweepAcknowledgementDeadlines {
    const ports: SweepPorts

    constructor (ports: SweepPorts)
      ensures this.ports == ports
    {
      this.ports := ports;
    }

    /** One pass, at the instant its clock read. Of the orders overdue then it leaves exactly those for which one
        of its calls failed without its commit landing; each of the others is durably rejected, with a
        deadline-missed event as its last on every topic. It touches no order before its deadline, counts the
        orders it knows it moved, and when nothing fails misses none. */
    method Execute() returns (r: Result<SweepResult>, ghost rep: Report)
      requires ports.w.Valid() && SweepEnabled(ports.w.s.p, SweepStart)
      modifies ports.w
      ensures ports.w.Valid() && old(ports.w.trace) <= ports.w.trace
      ensures match r
        case Err(_) => ports.w.s.p.sweep == Resting && !ports.w.calm
        case Ok(res) =>
          && ports.w.s.p.sweep == Looping(old(ports.w.s.p.now), [], rep, false)
          && res.missed == |rep.moved| && res.examined == rep.examined
          && PassHolds(old(ports.w.s.p.table), ports.w.s.p, old(ports.w.s.p.now), rep)
          && (ports.w.calm ==> rep.failed == {})
    {
      var now := ports.Now();
      r, rep := Pass(now);
    }

    /** The pass once it has read the clock. */
    method Pass(now: Time) returns (r: Result<SweepResult>, ghost rep: Report)
      requires ports.w.Valid() && ports.w.s.p.sweep == Listing(now) && now <= ports.w.s.p.now
      modifies ports.w
      ensures ports.w.Valid() && old(ports.w.trace) <= ports.w.trace
      ensures match r
        case Err(_) => ports.w.s.p.sweep == Resting && !ports.w.calm
        case Ok(res) =>
          && ports.w.s.p.sweep == Looping(now, [], rep, false)
          && res.missed == |rep.moved| && res.examined == rep.examined
          && PassHolds(old(ports.w.s.p.table), ports.w.s.p, now, rep)
          && (ports.w.calm ==> rep.failed == {})
    {
      rep := Report(0, {}, {}, {});
      ghost var start, k := ports.w.s.p, |ports.w.trace| - 1;
      var unanswered := ports.ListUnanswered();
      if unanswered.Err? { return Err(unanswered.error), rep; }
      StandSince(k);
      var missed: nat;
      missed, rep := Account(unanswered.value, now, start, start.table);
      r := Ok(SweepResult(|unanswered.value|, missed));
    }

    /** The pass from its list on, against the system as it was when the pass read the clock. */
    method Account(unanswered: seq<Order>, t: Time, ghost start: Proto, ghost before: Table)
      returns (missed: nat, ghost rep: Report)
      requires ports.w.Valid() && before == start.table
      requires ports.w.s.p.sweep == Looping(t, unanswered, Report(|unanswered|, {}, {}, {}), false)
      requires StillListed(start, ports.w.s.p, [], unanswered) && t <= start.now
      requires forall ref :: Stands(before, ports.w.s.p.table, ref)
      modifies ports.w
      ensures ports.w.Valid() && old(ports.w.trace) <= ports.w.trace
      ensures ports.w.s.p.sweep == Looping(t, [], rep, false)
      ensures missed == |rep.moved| && rep.examined == |unanswered|
      ensures PassHolds(before, ports.w.s.p, t, rep)
      ensures ports.w.calm ==> rep.failed == {}
    {
      ghost var listed := ports.w.s.p;
      missed, rep := Handle(unanswered, t);
      AllListed(start, listed, unanswered, t, rep);
      PassBalances(before, listed.table, ports.w.s.p.table, t, rep);
    }

    /** The pass from its list on. */
    method Handle(unanswered: seq<Order>, t: Time) returns (missed: nat, ghost rep: Report)
      requires ports.w.Valid()
      requires ports.w.s.p.sweep == Looping(t, unanswered, Report(|unanswered|, {}, {}, {}), false)
      modifies ports.w
      ensures ports.w.Valid() && old(ports.w.trace) <= ports.w.trace
      ensures ports.w.s.p.sweep == Looping(t, [], rep, false)
      ensures Sorted(rep, unanswered, t) && missed == |rep.moved| && rep.examined == |unanswered|
      ensures MovedOk(ports.w.s.p.table, ports.w.s.p.outbox, rep.moved + rep.landed)
      ensures rep.landed <= rep.failed && rep.failed - rep.landed <= Overdue(ports.w.s.p.table, t)
      ensures forall ref :: ref in rep.moved + rep.failed ==> WasOverdue(old(ports.w.s.p.table), t, ref)
      ensures forall ref :: ref in rep.moved + rep.failed ==>
                ref in ports.w.s.p.table && ports.w.s.p.table[ref].ackBy < t
      ensures forall ref :: Stands(old(ports.w.s.p.table), ports.w.s.p.table, ref)
      ensures ports.w.calm ==> rep.failed == {}
    {
      ghost var k, atList := |ports.w.trace| - 1, ports.w.s.p.table;
      AllLoaded(unanswered, t);
      missed, rep := Loop(unanswered, t);
      PassReported(t, rep);
      StandSince(k);
      MovedAreOverdue(atList, ports.w.s.p.table, unanswered, t, rep);
    }

    lemma StandSince(k: nat)
      requires ports.w.Valid() && k < |ports.w.trace|
      ensures forall ref :: Stands(ports.w.trace[k].p.table, ports.w.s.p.table, ref)
    {
      forall ref ensures Stands(ports.w.trace[k].p.table, ports.w.s.p.table, ref) {
        ports.w.StandsSince(k, ref);
      }
    }

    lemma AllLoaded(unanswered: seq<Order>, t: Time)
      requires ports.w.Valid()
      requires ports.w.s.p.sweep == Looping(t, unanswered, Report(|unanswered|, {}, {}, {}), false)
      ensures AllLoadedOk(ports.w.s.p.table, t, unanswered)
    {
      ports.w.StateOk();
    }

    lemma PassReported(t: Time, rep: Report)
      requires ports.w.Valid() && ports.w.s.p.sweep == Looping(t, [], rep, false)
      ensures MovedOk(ports.w.s.p.table, ports.w.s.p.outbox, rep.moved + rep.landed)
      ensures rep.landed <= rep.failed && rep.failed - rep.landed <= Overdue(ports.w.s.p.table, t)
    {
      ports.w.StateOk();
      forall r | r in rep.failed - rep.landed ensures r in Overdue(ports.w.s.p.table, t) {
        assert OverdueRow(ports.w.s.p, t, r);
      }
    }

    /** The loop over the listed orders: exactly those overdue are moved or fail. */
    method Loop(unanswered: seq<Order>, t: Time) returns (missed: nat, ghost rep: Report)
      requires ports.w.Valid()
      requires ports.w.s.p.sweep == Looping(t, unanswered, Report(|unanswered|, {}, {}, {}), false)
      requires forall i, j :: 0 <= i < j < |unanswered| ==> unanswered[i].ref != unanswered[j].ref
      modifies ports.w
      ensures ports.w.Valid() && old(ports.w.trace) <= ports.w.trace
      ensures Sorted(rep, unanswered, t)
      ensures missed == |rep.moved| && rep.examined == |unanswered|
      ensures ports.w.s.p.sweep == Looping(t, [], rep, false)
      ensures ports.w.calm ==> rep.failed == {}
    {
      missed := 0;
      rep := ports.w.s.p.sweep.rep;
      for i := 0 to |unanswered|
        invariant ports.w.Valid() && old(ports.w.trace) <= ports.w.trace
        invariant ports.w.s.p.sweep == Looping(t, unanswered[i..], rep, false)
        invariant Sorted(rep, unanswered[..i], t) && missed == |rep.moved| && rep.examined == |unanswered|
        invariant ports.w.calm ==> rep.failed == {}
      {
        var o := unanswered[i];
        assert unanswered[i..][1..] == unanswered[i + 1..];
        SortedSnoc(rep, unanswered, i, t);
        var ok := Visit(o);
        if ok { missed := missed + 1; }
        rep := ports.w.s.p.sweep.rep;
      }
      assert unanswered[..|unanswered|] == unanswered && unanswered[|unanswered|..] == [];
    }

    /** The loop's body: an order that is not overdue is passed over. */
    method Visit(o: Order) returns (ok: bool)
      requires ports.w.Valid()
      requires ports.w.s.p.sweep.Looping? && !ports.w.s.p.sweep.freed
      requires ports.w.s.p.sweep.todo != [] && ports.w.s.p.sweep.todo[0] == o
      modifies ports.w
      ensures ports.w.Valid() && old(ports.w.trace) <= ports.w.trace
      ensures var v := old(ports.w.s.p.sweep);
        if !AcknowledgementOverdue(o, v.t) then
          !ok && ports.w.s.p.sweep == Looping(v.t, v.todo[1..], v.rep, false)
        else if ok then
          ports.w.s.p.sweep == Looping(v.t, v.todo[1..], v.rep.(moved := v.rep.moved + {o.ref}), false)
        else !ports.w.calm && GaveUp(v, ports.w.s.p.sweep)
    {
      if !AcknowledgementOverdue(o, ports.w.s.p.sweep.t) {
        ports.Skip();
        return false;
      }
      var order := new NetworkOrder(o);
      ok := MissOne(order);
    }

    /** Frees the order's hold if it has one, rejects it, and records the miss with its event. */
    method MissOne(o: NetworkOrder) returns (ok: bool)
      requires ports.w.Valid() && HeadOverdue(ports.w.s.p.sweep) && !ports.w.s.p.sweep.freed
      requires o.Value() == ports.w.s.p.sweep.todo[0]
      modifies ports.w, o
      ensures ports.w.Valid() && old(ports.w.trace) <= ports.w.trace
      ensures var v := old(ports.w.s.p.sweep);
        if ok then
          ports.w.s.p.sweep == Looping(v.t, v.todo[1..], v.rep.(moved := v.rep.moved + {o.ref}), false)
        else !ports.w.calm && GaveUp(v, ports.w.s.p.sweep)
    {
      if o.local.Some? {
        ok := ports.CancelHeldOrder(o.local.value);
        if !ok { return; }
      }
      var rejected := o.Reject();
      if rejected.Err? { return false; }
      ok := ports.Save(o.Value());
      if !ok { return; }
      var now := ports.EventTime();
      ok := ports.Publish(OrderRejected(o.ref, o.site, DeadlineMissed, now));
      if !ok { return; }
      ok := ports.Commit();
    }
  }

  /** The overdue orders among these, and only they, are either moved or failed. */
  ghost predicate Sorted(rep: Report, os: seq<Order>, t: Time) {
    rep.moved + rep.failed == OverdueRefs(os, t) && rep.moved !! rep.failed
  }

  lemma SortedSnoc(rep: Report, os: seq<Order>, i: nat, t: Time)
    requires i < |os| && Sorted(rep, os[..i], t)
    requires forall j, k :: 0 <= j < k < |os| ==> os[j].ref != os[k].ref
    ensures var ref := os[i].ref;
      && ref !in rep.moved
      && if AcknowledgementOverdue(os[i], t) then
           && Sorted(rep.(moved := rep.moved + {ref}), os[..i + 1], t)
           && Sorted(rep.(failed := rep.failed + {ref}), os[..i + 1], t)
         else Sorted(rep, os[..i + 1], t)
  {
    var a, b := os[..i], os[..i + 1];
    assert forall j :: 0 <= j < i ==> a[j] == b[j];
    assert b[i] == os[i];
    assert OverdueRefs(b, t) == OverdueRefs(a, t) + (if AcknowledgementOverdue(os[i], t) then {os[i].ref} else {});
    assert os[i].ref !in OverdueRefs(a, t);
  }

  function Listed(found: Option<Order>): seq<Order> {
    match found case Some(o) => [o] case None => []
  }

  /** The pass after loading its next ref. */
  function Advanced(v: Sweep, found: Option<Order>): Sweep
    requires v.Loading? && v.refs != []
  {
    var loaded := v.loaded + Listed(found);
    if |v.refs| == 1 then Looping(v.t, loaded, Report(|loaded|, {}, {}, {}), false)
    else Loading(v.t, v.refs[1..], loaded)
  }

  predicate Finds(found: Option<Order>, t: Time, ref: string) {
    found.Some? && AcknowledgementOverdue(found.value, t) && found.value.ref == ref
  }

  /** Whatever was overdue at the start still is, and is on the list or still to be loaded. */
  ghost predicate StillListed(p0: Proto, p: Proto, rest: seq<string>, out: seq<Order>) {
    forall t, x :: OverdueRow(p0, t, x) ==> OverdueRow(p, t, x) && (x in rest || x in OverdueRefs(out, t))
  }

  /** Loading one ref puts its order on the list if it is still overdue. */
  lemma LoadOne(p0: Proto, p: Proto, p': Proto, rest: seq<string>, out: seq<Order>, found: Option<Order>)
    requires rest != [] && StillListed(p0, p, rest, out)
    requires forall t, x :: OverdueRow(p, t, x) ==> OverdueRow(p', t, x)
    requires forall t :: OverdueRow(p, t, rest[0]) ==> Finds(found, t, rest[0])
    ensures StillListed(p0, p', rest[1..], out + Listed(found))
  {
    var out' := out + Listed(found);
    forall t, x | OverdueRow(p0, t, x)
      ensures OverdueRow(p', t, x) && (x in rest[1..] || x in OverdueRefs(out', t))
    {
      assert OverdueRow(p, t, x) && (x in rest || x in OverdueRefs(out, t));
      if x in OverdueRefs(out, t) {
        var j :| 0 <= j < |out| && AcknowledgementOverdue(out[j], t) && out[j].ref == x;
        assert out'[j] == out[j];
      } else if x == rest[0] {
        assert out'[|out|] == found.value;
      } else {
        assert rest == [rest[0]] + rest[1..];
      }
    }
  }

  // ----- the pass as a whole -----

  function Overdue(table: Table, t: Time): set<string> {
    set r | r in table && AcknowledgementOverdue(table[r], t)
  }

  predicate WasOverdue(table: Table, t: Time, r: string) {
    r in table && AcknowledgementOverdue(table[r], t)
  }

  lemma MovedAreOverdue(atList: Table, after: Table, os: seq<Order>, t: Time, rep: Report)
    requires AllLoadedOk(atList, t, os) && Sorted(rep, os, t)
    requires forall ref :: Stands(atList, after, ref)
    ensures forall ref :: ref in rep.moved + rep.failed ==>
              WasOverdue(atList, t, ref) && ref in after && after[ref].ackBy < t
  {
    forall ref | ref in rep.moved + rep.failed
      ensures WasOverdue(atList, t, ref) && ref in after && after[ref].ackBy < t
    {
      var j :| 0 <= j < |os| && AcknowledgementOverdue(os[j], t) && os[j].ref == ref;
      assert LoadedOk(atList, t, os[j]);
      assert Stands(atList, after, ref);
    }
  }

  /** What a pass leaves: of the orders overdue at its start exactly those whose failed calls had no effect; and
      it handled no order before its deadline. */
  ghost predicate Swept(before: Table, after: Table, now: Time, rep: Report) {
    && Overdue(before, now) <= rep.moved + rep.failed
    && rep.moved !! rep.failed && rep.landed <= rep.failed
    && Overdue(after, now) * before.Keys == Overdue(before, now) - rep.moved - rep.landed
    && rep.failed - rep.landed <= Overdue(after, now)
    && (forall ref :: ref in rep.moved + rep.failed ==> ref in after && after[ref].ackBy < now)
  }

  /** The orders a pass meets past their deadline that were not recorded yet when it read the clock. */
  function Late(before: Table, after: Table, now: Time, rep: Report): set<string> {
    (Overdue(after, now) + rep.moved + rep.landed) - before.Keys
  }

  /** Every overdue order is accounted for: it is still overdue, or it was missed, or a failed commit landed. */
  ghost predicate Balanced(before: Table, after: Table, now: Time, rep: Report) {
    && |Overdue(after, now)| + |rep.moved| + |rep.landed| == |Overdue(before, now)| + |Late(before, after, now, rep)|
    && (rep.landed == {} && Late(before, after, now, rep) == {} ==>
          |Overdue(after, now)| == |Overdue(before, now)| - |rep.moved|)
  }

  /** What a pass has to show for: what it leaves, what it did to the orders it reached, and the count. */
  ghost predicate PassHolds(before: Table, after: Proto, now: Time, rep: Report) {
    && Swept(before, after.table, now, rep)
    && MovedOk(after.table, after.outbox, rep.moved + rep.landed)
    && Balanced(before, after.table, now, rep)
  }

  /** An order that is overdue later and was recorded before was overdue before. */
  lemma WereOverdue(before: Table, after: Table, now: Time, refs: set<string>)
    requires forall r :: Stands(before, after, r)
    requires forall r :: r in refs ==> WasOverdue(after, now, r)
    ensures refs * before.Keys <= Overdue(before, now)
  {
    forall r | r in refs * before.Keys ensures r in Overdue(before, now) {
      assert Stands(before, after, r);
    }
  }

  lemma AllListed(start: Proto, listed: Proto, os: seq<Order>, now: Time, rep: Report)
    requires StillListed(start, listed, [], os) && Sorted(rep, os, now) && now <= start.now
    ensures Overdue(start.table, now) <= rep.moved + rep.failed
  {
    forall ref | ref in Overdue(start.table, now) ensures ref in rep.moved + rep.failed {
      assert OverdueRow(start, now, ref);
    }
  }

  lemma SetBalance(a: set<string>, b: set<string>, moved: set<string>, landed: set<string>, keys: set<string>)
    requires moved !! landed && a !! moved + landed && b <= keys
    requires a * keys == b - moved - landed && (moved + landed) * keys <= b
    ensures |a| + |moved| + |landed| == |b| + |(a + moved + landed) - keys|
  {
    var all, late := a + moved + landed, (a + moved + landed) - keys;
    forall x ensures x in all <==> x in b + late {
      if x in b && x !in moved + landed { assert x in b - moved - landed; }
      if x in a && x in keys { assert x in a * keys; }
      if x in moved + landed && x in keys { assert x in (moved + landed) * keys; }
    }
    assert all == b + late && b !! late;
    assert |b + late| == |b| + |late|;
    assert |a + moved| == |a| + |moved| && |all| == |a + moved| + |landed|;
  }

  lemma LeftExactly(before: Table, after: Table, now: Time, rep: Report)
    requires forall r :: Stands(before, after, r)
    requires Overdue(before, now) <= rep.moved + rep.failed && rep.failed - rep.landed <= Overdue(after, now)
    requires forall r :: r in rep.moved + rep.landed ==> r in after && after[r].state == Rejected
    ensures Overdue(after, now) * before.Keys == Overdue(before, now) - rep.moved - rep.landed
    ensures Overdue(after, now) !! rep.moved + rep.landed
  {
    WereOverdue(before, after, now, Overdue(after, now));
  }

  lemma PassBalances(before: Table, atList: Table, after: Table, now: Time, rep: Report)
    requires forall r :: Stands(before, atList, r)
    requires forall r :: Stands(atList, after, r)
    requires Overdue(before, now) <= rep.moved + rep.failed && rep.moved !! rep.failed && rep.landed <= rep.failed
    requires rep.failed - rep.landed <= Overdue(after, now)
    requires forall r :: r in rep.moved + rep.landed ==> r in after && after[r].state == Rejected
    requires forall r :: r in rep.moved + rep.failed ==> WasOverdue(atList, now, r)
    requires forall r :: r in rep.moved + rep.failed ==> r in after && after[r].ackBy < now
    ensures Swept(before, after, now, rep) && Balanced(before, after, now, rep)
  {
    StandOn(before, atList, after);
    WereOverdue(before, atList, now, rep.moved + rep.landed);
    LeftExactly(before, after, now, rep);
    CountBalance(before, after, now, rep);
  }

  lemma StandOn(a: Table, b: Table, c: Table)
    requires forall r :: Stands(a, b, r)
    requires forall r :: Stands(b, c, r)
    ensures forall r :: Stands(a, c, r)
  {
    forall r ensures Stands(a, c, r) {
      assert Stands(a, b, r) && Stands(b, c, r);
    }
  }

  lemma CountBalance(before: Table, after: Table, now: Time, rep: Report)
    requires rep.moved !! rep.failed && rep.landed <= rep.failed
    requires Overdue(after, now) * before.Keys == Overdue(before, now) - rep.moved - rep.landed
    requires Overdue(after, now) !! rep.moved + rep.landed
    requires (rep.moved + rep.landed) * before.Keys <= Overdue(before, now)
    ensures Balanced(before, after, now, rep)
  {
    SetBalance(Overdue(after, now), Overdue(before, now), rep.moved, rep.landed, before.Keys);
  }
}
