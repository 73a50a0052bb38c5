/** The whole system: the answer protocol, the relay that drains its outbox, and the consumer that projects the
    analytics topic, each taking steps in any order. */
module Pipeline {
  import opened Domain
  import opened Sums
  import opened Protocol
  import opened ProtocolInvariant
  import opened ProtocolWrites
  import opened Relay
  import opened Projection
  import opened Consumer
  import opened Tallies

  datatype Sys = Sys(p: Proto, r: RelayState, c: ConsumerState)

  datatype Step = OfProtocol(a: Action) | OfRelay(ra: RelayAction) | OfConsumer(ca: ConsumerAction)

  const START := Sys(INITIAL, INITIAL_RELAY, INITIAL_CONSUMER)

  predicate CanStep(bound: Time, s: Sys, st: Step) {
    match st
    case OfProtocol(a) => Enabled(bound, s.p, a)
    case OfRelay(ra) => RelayEnabled(s.p.outbox, s.r, ra)
    case OfConsumer(ca) => ConsumerEnabled(Wire(s.r.log), s.c, ca)
  }

  function TakeStep(bound: Time, s: Sys, st: Step): Sys
    requires CanStep(bound, s, st)
  {
    match st
    case OfProtocol(a) => s.(p := Apply(bound, s.p, a))
    case OfRelay(ra) => s.(r := RelayApply(s.p.outbox, s.r, ra))
    case OfConsumer(ca) => s.(c := ConsumerApply(Wire(s.r.log), s.c, ca))
  }

  // ----- invariant -----

  /** What has been counted and what still waits on the way add up to all that was announced; and the three figures
      that count orders are what the table says. */
  ghost predicate Balance(table: Table, outbox: seq<Slot>, seen: map<nat, Payload>, f: Figure) {
    && (Counting(f) ==> TableTotal(table, f) == Tally(outbox, f, {}))
    && Tally(outbox, f, {}) == Sum(SeenShares(seen, f)) + Tally(outbox, f, seen.Keys)
  }

  ghost predicate BooksBalance(table: Table, outbox: seq<Slot>, seen: map<nat, Payload>) {
    forall f :: Balance(table, outbox, seen, f)
  }

  ghost predicate SysOk(s: Sys) {
    && Inv(s.p)
    && ReportOk(s.p)
    && RelayOk(s.p.outbox, s.r)
    && ConsumerOk(Wire(s.r.log), s.c)
    && BooksBalance(s.p.table, s.p.outbox, s.c.store.seen)
  }

  lemma StartOk()
    ensures SysOk(START)
  {
    InvInitially();
    forall f ensures Balance(map[], [], map[], f) {
      assert TableShares(map[], f) == map[];
      assert SeenShares(map[], f) == map[];
    }
    forall f ensures Total(EMPTY_STORE.rows, f) == Sum(SeenShares(EMPTY_STORE.seen, f)) {
      assert RowShares(map[], f) == map[];
      assert SeenShares(map[], f) == map[];
    }
  }

  /** An event on the analytics topic is the content of a committed analytics row with its id. */
  lemma {:induction false} WireFromRows(outbox: seq<Slot>, r: RelayState, log: seq<Delivery>, eid: nat, p: Payload)
    requires RelayOk(outbox, r) && log <= r.log && OnTopic(Wire(log), eid, p)
    ensures exists i :: 0 <= i < |outbox| && ForAnalytics(outbox[i]) && outbox[i].row.eid == eid
                        && PayloadOf(outbox[i].row.ev) == p
  {
    if log != [] {
      var n := |log| - 1;
      assert log[n] == r.log[n];
      if OnTopic(Wire(log[..n]), eid, p) {
        WireFromRows(outbox, r, log[..n], eid, p);
      } else {
        assert ForAnalytics(outbox[log[n].id]);
      }
    }
  }

  /** An uncommitted row's event cannot have been applied. */
  lemma FreshUnseen(s: Sys, i: nat)
    requires SysOk(s) && i < |s.p.outbox| && !s.p.outbox[i].committed
    ensures s.p.outbox[i].row.eid !in s.c.store.seen
  {
    var eid := s.p.outbox[i].row.eid;
    if eid in s.c.store.seen {
      WireFromRows(s.p.outbox, s.r, s.r.log, eid, s.c.store.seen[eid]);
    }
  }

  lemma ProtocolBooks(bound: Time, s: Sys, a: Action)
    requires SysOk(s) && Enabled(bound, s.p, a) && bound <= ACKNOWLEDGEMENT_WINDOW
    ensures BooksBalance(Apply(bound, s.p, a).table, Apply(bound, s.p, a).outbox, s.c.store.seen)
  {
    Writes(bound, s.p, a);
    match Committed(s.p, a)
    case Some(tx) =>
      CommitsAreCommittable(bound, s.p, a);
      FreshUnseen(s, tx.slots[1]);
      CommitBooks(s.p.table, s.p.outbox, s.c.store.seen, tx);
    case None =>
      if Apply(bound, s.p, a).outbox != s.p.outbox {
        InsertBooks(s.p.table, s.p.outbox, s.c.store.seen, Apply(bound, s.p, a).outbox[|s.p.outbox|]);
      }
  }

  lemma CommitBooks(table: Table, outbox: seq<Slot>, seen: map<nat, Payload>, tx: Tx)
    requires BooksBalance(table, outbox, seen) && Committable(table, outbox, tx)
    requires outbox[tx.slots[1]].row.eid !in seen
    ensures BooksBalance(Upsert(table, tx.o), CommitRows(outbox, tx.slots), seen)
  {
    forall f ensures Balance(Upsert(table, tx.o), CommitRows(outbox, tx.slots), seen, f) {
      TallyCommit(table, outbox, tx, f, {});
      TallyCommit(table, outbox, tx, f, seen.Keys);
      if Counting(f) { TableCommit(table, outbox, tx, f); }
      assert Balance(table, outbox, seen, f);
    }
  }

  lemma InsertBooks(table: Table, outbox: seq<Slot>, seen: map<nat, Payload>, sl: Slot)
    requires BooksBalance(table, outbox, seen) && !sl.committed
    ensures BooksBalance(table, outbox + [sl], seen)
  {
    forall f ensures Balance(table, outbox + [sl], seen, f) {
      TallyInsert(outbox, sl, f, {});
      TallyInsert(outbox, sl, f, seen.Keys);
      assert Balance(table, outbox, seen, f);
    }
  }

  lemma SeeBooks(table: Table, outbox: seq<Slot>, seen: map<nat, Payload>, i: nat, p: Payload)
    requires BooksBalance(table, outbox, seen) && EidsOk(outbox)
    requires i < |outbox| && ForAnalytics(outbox[i]) && outbox[i].row.eid !in seen
    requires PayloadOf(outbox[i].row.ev) == p
    ensures BooksBalance(table, outbox, seen[outbox[i].row.eid := p])
  {
    var eid := outbox[i].row.eid;
    var seen' := seen[eid := p];
    assert seen'.Keys == seen.Keys + {eid};
    forall f ensures Balance(table, outbox, seen', f) {
      TallyExclude(outbox, f, seen.Keys, i);
      SeenPut(seen, eid, p, f);
      assert Balance(table, outbox, seen, f);
    }
  }

  /** Applying an event that is on the topic moves its share from the way to the rows. */
  lemma ApplyBooks(s: Sys, eid: nat, p: Payload)
    requires SysOk(s) && OnTopic(Wire(s.r.log), eid, p)
    ensures BooksBalance(s.p.table, s.p.outbox, ApplyEvent(s.c.store, eid, p).seen)
  {
    if eid !in s.c.store.seen {
      WireFromRows(s.p.outbox, s.r, s.r.log, eid, p);
      var i :| 0 <= i < |s.p.outbox| && ForAnalytics(s.p.outbox[i]) && s.p.outbox[i].row.eid == eid
               && PayloadOf(s.p.outbox[i].row.ev) == p;
      SeeBooks(s.p.table, s.p.outbox, s.c.store.seen, i, p);
    }
  }

  lemma SeenChange(topic: seq<Msg>, c: ConsumerState, ca: ConsumerAction)
    requires ConsumerEnabled(topic, c, ca)
    ensures var store' := ConsumerApply(topic, c, ca).store;
      if ca.CallApply? && ca.out.Effective() then store' == ApplyEvent(c.store, c.call.m.eid, c.call.m.p)
      else store' == c.store
  {
  }

  lemma ConsumerBooks(s: Sys, ca: ConsumerAction)
    requires SysOk(s) && ConsumerEnabled(Wire(s.r.log), s.c, ca)
    ensures BooksBalance(s.p.table, s.p.outbox, ConsumerApply(Wire(s.r.log), s.c, ca).store.seen)
  {
    SeenChange(Wire(s.r.log), s.c, ca);
    if ca.CallApply? {
      assert OnTopic(Wire(s.r.log), s.c.call.m.eid, s.c.call.m.p);
      ApplyBooks(s, s.c.call.m.eid, s.c.call.m.p);
    }
  }

  lemma WireGrows(s: Sys, ra: RelayAction) returns (more: seq<Msg>)
    requires RelayEnabled(s.p.outbox, s.r, ra)
    ensures Wire(RelayApply(s.p.outbox, s.r, ra).log) == Wire(s.r.log) + more
  {
    var log, log' := s.r.log, RelayApply(s.p.outbox, s.r, ra).log;
    more := if log' == log then [] else Wire(log')[|Wire(log)|..];
    if log' != log {
      assert log'[..|log|] == log;
      assert Wire(log') == Wire(log) + more;
    }
  }

  /** Every step of any part keeps the whole system's invariant. */
  lemma StepOk(bound: Time, s: Sys, st: Step)
    requires SysOk(s) && CanStep(bound, s, st) && bound <= ACKNOWLEDGEMENT_WINDOW
    ensures SysOk(TakeStep(bound, s, st))
  {
    match st
    case OfProtocol(a) =>
      StepKeeps(bound, s.p, a);
      ReportKeeps(bound, s.p, a);
      OutboxGrows(bound, s.p, a);
      RelayFrame(s.p.outbox, Apply(bound, s.p, a).outbox, s.r);
      ProtocolBooks(bound, s, a);
    case OfRelay(ra) =>
      RelayStepKeeps(s.p.outbox, s.r, ra);
      var more := WireGrows(s, ra);
      ConsumerFrame(Wire(s.r.log), more, s.c);
    case OfConsumer(ca) =>
      ConsumerStepKeeps(Wire(s.r.log), s.c, ca);
      ConsumerBooks(s, ca);
  }

  // ----- runs -----

  /** A run: states joined by steps, from the empty system. */
  ghost predicate Run(bound: Time, tr: seq<Sys>) {
    && tr != [] && tr[0] == START
    && forall i :: 0 <= i < |tr| - 1 ==> Follows(bound, tr[i], tr[i + 1])
  }

  ghost predicate Follows(bound: Time, s: Sys, s': Sys) {
    exists st :: CanStep(bound, s, st) && s' == TakeStep(bound, s, st)
  }

  lemma {:induction false} RunOk(bound: Time, tr: seq<Sys>, i: nat)
    requires Run(bound, tr) && bound <= ACKNOWLEDGEMENT_WINDOW && i < |tr|
    ensures SysOk(tr[i])
  {
    if i == 0 {
      StartOk();
    } else {
      RunOk(bound, tr, i - 1);
      assert Follows(bound, tr[i - 1], tr[i - 1 + 1]);
      var st :| CanStep(bound, tr[i - 1], st) && tr[i] == TakeStep(bound, tr[i - 1], st);
      StepOk(bound, tr[i - 1], st);
    }
  }

  lemma RunExtends(bound: Time, tr: seq<Sys>, st: Step)
    requires Run(bound, tr) && CanStep(bound, tr[|tr| - 1], st)
    ensures Run(bound, tr + [TakeStep(bound, tr[|tr| - 1], st)])
  {
    var s := tr[|tr| - 1];
    var tr' := tr + [TakeStep(bound, s, st)];
    forall i | 0 <= i < |tr'| - 1 ensures Follows(bound, tr'[i], tr'[i + 1]) {
      if i < |tr| - 1 {
        assert Follows(bound, tr[i], tr[i + 1]);
      } else {
        assert CanStep(bound, s, st) && tr'[i + 1] == TakeStep(bound, s, st);
      }
    }
  }
}
