/** Transaction scopes: code that saves and publishes inside nested scopes, run against tables that only a commit
    of the outermost scope changes. A transaction that had a statement fail can no longer commit. */
module UnitOfWork {
  import opened Domain
  import opened Protocol
  import opened Repository

  // ----- statements -----

  datatype Message = Message(topic: Topic, ev: Event)

  datatype Db = Db(t: Tables, outbox: seq<Message>)

  datatype Write =
    | PutOrder(o: Order)
    | PutLine(ref: string, l: Line)
    | PutMessage(m: Message)

  function Perform(db: Db, w: Write): Db {
    match w
    case PutOrder(o) => db.(t := db.t.(orders := UpsertOrder(db.t.orders, o)))
    case PutLine(ref, l) => db.(t := db.t.(lines := InsertLine(db.t.lines, ref, l)))
    case PutMessage(m) => db.(outbox := db.outbox + [m])
  }

  function Replay(db: Db, log: seq<Write>): Db {
    if log == [] then db else Perform(Replay(db, log[..|log| - 1]), log[|log| - 1])
  }

  lemma {:induction false} ReplayAppend(db: Db, a: seq<Write>, b: seq<Write>)
    ensures Replay(db, a + b) == Replay(Replay(db, a), b)
  {
    if b == [] {
      assert a + b == a;
    } else {
      var n := |b| - 1;
      ReplayAppend(db, a, b[..n]);
      assert (a + b)[..|a + b| - 1] == a + b[..n];
    }
  }

  /** The checks the tables make themselves. */
  predicate Accepts(w: Write) {
    match w
    case PutOrder(o) => LocalOrderRequiresAnswer(o)
    case PutLine(_, l) => l.quantity > 0
    case PutMessage(_) => true
  }

  // ----- code -----

  /** One statement of the code a scope runs: saving an order; publishing an event of which the first few
      encoders can make a message; a nested scope; a call whose error is dropped; returning an error; panicking. */
  datatype Op =
    | Save(o: Order)
    | Publish(ev: Event, encodable: nat)
    | Execute(body: Code)
    | Try(op: Op)
    | Fail
    | Panic

  datatype Code = End | Then(op: Op, rest: Code)

  datatype Status = Nil | Error | Panicked

  /** What code does when no statement fails: its writes in order, and how it ends. */
  datatype Effect = Effect(log: seq<Write>, status: Status)

  function And(a: Effect, b: Effect): Effect {
    if a.status == Nil then Effect(a.log + b.log, b.status) else a
  }

  /** The lines up to the first whose quantity the column cannot hold. */
  function LinesEffect(ref: string, ls: seq<Line>): Effect {
    if ls == [] then Effect([], Nil)
    else
      var n := |ls| - 1;
      And(LinesEffect(ref, ls[..n]),
          if ls[n].quantity > MAX_QUANTITY then Effect([], Error) else Effect([PutLine(ref, ls[n])], Nil))
  }

  function SaveEffect(o: Order): Effect { And(Effect([PutOrder(o)], Nil), LinesEffect(o.ref, o.lines)) }

  /** One message per encoder, up to the first that cannot encode the event. */
  function PublishEffect(ev: Event, encodable: nat, n: nat): Effect
    requires n <= |TOPICS|
  {
    if n == 0 then Effect([], Nil)
    else And(PublishEffect(ev, encodable, n - 1),
             if n - 1 < encodable then Effect([PutMessage(Message(TOPICS[n - 1], ev))], Nil) else Effect([], Error))
  }

  function OpEffect(op: Op): Effect {
    match op
    case Save(o) => SaveEffect(o)
    case Publish(ev, encodable) => PublishEffect(ev, encodable, |TOPICS|)
    case Execute(body) => CodeEffect(body)
    case Try(inner) =>
      var e := OpEffect(inner);
      if e.status == Error then e.(status := Nil) else e
    case Fail => Effect([], Error)
    case Panic => Effect([], Panicked)
  }

  function CodeEffect(code: Code): Effect {
    match code
    case End => Effect([], Nil)
    case Then(op, rest) => And(OpEffect(op), CodeEffect(rest))
  }

  // ----- nested scopes are no-ops -----

  function Append(a: Code, b: Code): Code {
    match a
    case End => b
    case Then(op, rest) => Then(op, Append(rest, b))
  }

  /** The code with every nested scope that is not inside a dropped call replaced by its body. */
  function Flatten(code: Code): Code {
    match code
    case End => End
    case Then(Execute(body), rest) => Append(Flatten(body), Flatten(rest))
    case Then(op, rest) => Then(op, Flatten(rest))
  }

  lemma {:induction false} AppendEffect(a: Code, b: Code)
    ensures CodeEffect(Append(a, b)) == And(CodeEffect(a), CodeEffect(b))
  {
    match a
    case End => assert [] + CodeEffect(b).log == CodeEffect(b).log;
    case Then(op, rest) =>
      AppendEffect(rest, b);
      var x, y, z := OpEffect(op).log, CodeEffect(rest).log, CodeEffect(b).log;
      assert x + (y + z) == (x + y) + z;
  }

  /** Opening and closing scopes inside a scope changes neither what is written nor how the code ends. */
  lemma {:induction false} NestingIrrelevant(code: Code)
    ensures CodeEffect(Flatten(code)) == CodeEffect(code)
  {
    match code
    case End =>
    case Then(op, rest) =>
      NestingIrrelevant(rest);
      match op
      case Execute(body) =>
        NestingIrrelevant(body);
        AppendEffect(Flatten(body), Flatten(rest));
      case _ =>
  }

  // ----- the database -----

  /** How a scope came out for everyone else: with no error all of its effect is there, and the effect is the
      one of code whose every statement succeeded; with an error nothing is, unless the commit itself was
      reported as failed after it took effect; with a panic nothing is. */
  predicate Atomic(before: Db, after: Db, e: Effect, st: Status) {
    match st
    case Nil => e.status == Nil && after == Replay(before, e.log)
    case Error => after == before || (e.status == Nil && after == Replay(before, e.log))
    case Panicked => after == before
  }

  /** What every other session sees, and the transaction in progress: whether there is one, what it sees, and
      whether a statement of it failed. */
  datatype Session = Session(durable: Db, open: bool, tx: Db, aborted: bool)

  predicate AllAccepted(log: seq<Write>) { forall w | w in log :: Accepts(w) }

  /** What running code inside a transaction does: nobody else sees a thing, a failed statement is never
      forgotten, and without one the transaction sees exactly the code's effect. When the database is reliable,
      none fails unless the tables refuse one of the code's writes. */
  predicate Ran(reliable: bool, a: Session, b: Session, e: Effect, st: Status) {
    && a.open && b.open && b.durable == a.durable
    && (a.aborted ==> b.aborted)
    && (!b.aborted ==> b.tx == Replay(a.tx, e.log) && st == e.status)
    && (reliable && !a.aborted && AllAccepted(e.log) ==> !b.aborted)
  }

  lemma RanThen(reliable: bool, a: Session, b: Session, c: Session, e: Effect, f: Effect, st: Status)
    requires Ran(reliable, a, b, e, Nil) && Ran(reliable, b, c, f, st)
    ensures Ran(reliable, a, c, And(e, f), st)
  {
    ReplayAppend(a.tx, e.log, f.log);
  }

  /** Code that stopped does not run the rest. */
  lemma RanStop(reliable: bool, a: Session, b: Session, e: Effect, f: Effect, st: Status)
    requires Ran(reliable, a, b, e, st) && st != Nil
    ensures Ran(reliable, a, b, And(e, f), st)
  {
  }

  lemma RanOne(reliable: bool, a: Session, b: Session, w: Write)
    requires a.open && b == a.(tx := Perform(a.tx, w))
    ensures Ran(reliable, a, b, Effect([w], Nil), Nil)
  {
    assert [w][..0] == [];
  }

  /** Once a line does not fit, the lines after it are not reached. */
  lemma {:induction false} LinesStop(ref: string, ls: seq<Line>, i: nat)
    requires i <= |ls| && LinesEffect(ref, ls[..i]).status == Error
    ensures LinesEffect(ref, ls) == LinesEffect(ref, ls[..i])
    decreases |ls|
  {
    var n := |ls| - 1;
    if i < |ls| {
      assert ls[..n][..i] == ls[..i];
      LinesStop(ref, ls[..n], i);
    } else {
      assert ls[..i] == ls;
    }
  }

  /** A line that is reached and fits is one of the writes. */
  lemma {:induction false} LinesReach(ref: string, ls: seq<Line>, i: nat)
    requires i < |ls| && LinesEffect(ref, ls[..i]).status == Nil && ls[i].quantity <= MAX_QUANTITY
    ensures PutLine(ref, ls[i]) in LinesEffect(ref, ls).log
    decreases |ls|
  {
    var n := |ls| - 1;
    if i < n {
      assert ls[..n][..i] == ls[..i];
      LinesReach(ref, ls[..n], i);
    } else {
      var log := LinesEffect(ref, ls[..n]).log;
      assert (log + [PutLine(ref, ls[n])])[|log|] == PutLine(ref, ls[n]);
    }
  }

  /** What the first lines write is written with more lines too. */
  lemma {:induction false} LinesMore(ref: string, ls: seq<Line>, i: nat)
    requires i <= |ls|
    ensures AllAccepted(LinesEffect(ref, ls).log) ==> AllAccepted(LinesEffect(ref, ls[..i]).log)
    decreases |ls|
  {
    if i < |ls| {
      var n := |ls| - 1;
      assert ls[..n][..i] == ls[..i];
      LinesMore(ref, ls[..n], i);
      forall w | w in LinesEffect(ref, ls[..n]).log ensures w in LinesEffect(ref, ls).log {
      }
    } else {
      assert ls[..i] == ls;
    }
  }

  lemma {:induction false} PublishStop(ev: Event, encodable: nat, i: nat, n: nat)
    requires i <= n <= |TOPICS| && PublishEffect(ev, encodable, i).status == Error
    ensures PublishEffect(ev, encodable, n) == PublishEffect(ev, encodable, i)
  {
    if i < n { PublishStop(ev, encodable, i, n - 1); }
  }

  class Database {
    /** Whether every statement the tables accept succeeds, and every commit does. */
    const reliable: bool
    var durable: Db
    var open: bool
    var tx: Db
    var aborted: bool

    constructor (db: Db, reliable: bool)
      ensures durable == db && !open && this.reliable == reliable
    {
      this.reliable := reliable;
      durable, tx := db, db;
      open, aborted := false, false;
    }

    function Now(): Session
      reads this
    {
      Session(durable, open, tx, aborted)
    }

    method Begin() returns (ok: bool)
      requires !open
      modifies this
      ensures if ok then Now() == Session(old(durable), true, old(durable), false) else Now() == old(Now())
      ensures reliable ==> ok
    {
      ok := *;
      ok := ok || reliable;
      if ok { open, tx, aborted := true, durable, false; }
    }

    method Exec(w: Write) returns (ok: bool)
      requires open
      modifies this
      ensures if ok then Now() == old(Now()).(tx := Perform(old(tx), w)) && !aborted
              else Now() == old(Now()).(aborted := true)
      ensures ok ==> Accepts(w)
      ensures reliable && !old(aborted) && Accepts(w) ==> ok
    {
      ok := *;
      ok := (ok || reliable) && !aborted && Accepts(w);
      if ok { tx := Perform(tx, w); } else { aborted := true; }
    }

    method Commit() returns (ok: bool)
      requires open
      modifies this
      ensures !open
      ensures ok ==> !old(aborted) && durable == old(tx)
      ensures !ok ==> durable == old(durable) || (!old(aborted) && durable == old(tx))
      ensures reliable && !old(aborted) ==> ok
    {
      open := false;
      if aborted { return false; }
      var out: Outcome := *;
      if reliable { out := Done; }
      if out.Effective() { durable := tx; }
      return out.Done?;
    }

    method Rollback()
      requires open
      modifies this
      ensures !open && durable == old(durable)
    {
      open := false;
    }

    /** The transaction the caller is in, or a new one; `own` says whose commit and rollback are real. */
    method BeginOrJoin(inScope: bool) returns (ok: bool, own: bool)
      requires open == inScope
      modifies this
      ensures inScope ==> ok && !own && Now() == old(Now())
      ensures !inScope ==> own
      ensures !inScope && ok ==> Now() == Session(old(durable), true, old(durable), false)
      ensures !inScope && !ok ==> Now() == old(Now())
      ensures reliable ==> ok
    {
      if inScope { return true, false; }
      ok := Begin();
      own := true;
    }

    /** Saves an order in the caller's transaction or in one of its own. */
    method SaveOrder(o: Order, inScope: bool) returns (st: Status)
      requires open == inScope
      modifies this
      ensures inScope ==> Ran(reliable, old(Now()), Now(), SaveEffect(o), st)
      ensures !inScope ==> !open && Atomic(old(durable), durable, SaveEffect(o), st)
      ensures !inScope && reliable && AllAccepted(SaveEffect(o).log) ==> st == SaveEffect(o).status
    {
      var ok, own := BeginOrJoin(inScope);
      if !ok { return Error; }
      st := SaveStatements(o);
      if !own { return; }
      if st != Nil {
        Rollback();
        return;
      }
      ok := Commit();
      st := if ok then Nil else Error;
    }

    /** The row, then its lines. */
    method SaveStatements(o: Order) returns (st: Status)
      requires open
      modifies this
      ensures Ran(reliable, old(Now()), Now(), SaveEffect(o), st) && st in {Nil, Error}
    {
      var ok := Exec(PutOrder(o));
      if !ok { return Error; }
      ghost var mid := Now();
      RanOne(reliable, old(Now()), mid, PutOrder(o));
      st := PutLines(o.ref, o.lines);
      RanThen(reliable, old(Now()), mid, Now(), Effect([PutOrder(o)], Nil), LinesEffect(o.ref, o.lines), st);
    }

    method PutLines(ref: string, ls: seq<Line>) returns (st: Status)
      requires open
      modifies this
      ensures Ran(reliable, old(Now()), Now(), LinesEffect(ref, ls), st) && st in {Nil, Error}
    {
      for i := 0 to |ls|
        invariant Ran(reliable, old(Now()), Now(), LinesEffect(ref, ls[..i]), Nil)
      {
        var l := ls[i];
        assert ls[..i + 1][..i] == ls[..i];
        LinesMore(ref, ls, i);
        if l.quantity > MAX_QUANTITY {
          if !aborted {
            RanThen(reliable, old(Now()), Now(), Now(), LinesEffect(ref, ls[..i]), Effect([], Error), Error);
            LinesStop(ref, ls, i + 1);
          }
          return Error;
        }
        ghost var mid := Now();
        if !aborted { LinesReach(ref, ls, i); }
        var ok := Exec(PutLine(ref, l));
        if !ok { return Error; }
        RanOne(reliable, mid, Now(), PutLine(ref, l));
        RanThen(reliable, old(Now()), mid, Now(), LinesEffect(ref, ls[..i]), Effect([PutLine(ref, l)], Nil), Nil);
      }
      assert ls[..|ls|] == ls;
      return Nil;
    }

    /** One message per encoder. In a scope they are part of its transaction; outside, each is on its own. */
    method PublishEvent(ev: Event, encodable: nat, inScope: bool) returns (st: Status)
      requires open == inScope
      modifies this
      ensures inScope ==> Ran(reliable, old(Now()), Now(), PublishEffect(ev, encodable, |TOPICS|), st)
      ensures !inScope ==>
                && !open
                && (st == Nil ==> durable == Replay(old(durable), PublishEffect(ev, |TOPICS|, |TOPICS|).log))
                && exists k: nat :: k <= |TOPICS| && durable == Replay(old(durable), PublishEffect(ev, |TOPICS|, k).log)
      ensures !inScope && reliable && encodable >= |TOPICS| ==> st == Nil
    {
      if inScope {
        st := PublishInScope(ev, encodable);
      } else {
        st := PublishAlone(ev, encodable);
      }
    }

    method PublishInScope(ev: Event, encodable: nat) returns (st: Status)
      requires open
      modifies this
      ensures Ran(reliable, old(Now()), Now(), PublishEffect(ev, encodable, |TOPICS|), st)
    {
      for i := 0 to |TOPICS|
        invariant Ran(reliable, old(Now()), Now(), PublishEffect(ev, encodable, i), Nil)
        invariant reliable && !old(aborted) ==> !aborted
      {
        if i >= encodable {
          if !aborted { PublishStop(ev, encodable, i + 1, |TOPICS|); }
          return Error;
        }
        var w := PutMessage(Message(TOPICS[i], ev));
        ghost var mid := Now();
        var ok := Exec(w);
        if !ok { return Error; }
        RanOne(reliable, mid, Now(), w);
        RanThen(reliable, old(Now()), mid, Now(), PublishEffect(ev, encodable, i), Effect([w], Nil), Nil);
      }
      return Nil;
    }

    /** Outside a scope every insert commits by itself, so a failure leaves the messages before it. */
    method PublishAlone(ev: Event, encodable: nat) returns (st: Status)
      requires !open
      modifies this
      ensures !open
      ensures st == Nil ==> durable == Replay(old(durable), PublishEffect(ev, |TOPICS|, |TOPICS|).log)
      ensures exists k: nat :: k <= |TOPICS| && durable == Replay(old(durable), PublishEffect(ev, |TOPICS|, k).log)
      ensures reliable && encodable >= |TOPICS| ==> st == Nil
    {
      for i := 0 to |TOPICS|
        invariant !open && durable == Replay(old(durable), PublishEffect(ev, |TOPICS|, i).log)
      {
        if i >= encodable { return Error; }
        var w := PutMessage(Message(TOPICS[i], ev));
        var out: Outcome := *;
        if reliable { out := Done; }
        PublishSnoc(ev, i);
        ReplayAppend(old(durable), PublishEffect(ev, |TOPICS|, i).log, [w]);
        assert [w][..0] == [];
        assert Replay(durable, [w]) == Perform(durable, w);
        if out.Effective() { durable := Perform(durable, w); }
        if !out.Done? { return Error; }
      }
      return Nil;
    }

    /** Runs one statement of a scope's code. */
    method RunOp(op: Op) returns (st: Status)
      requires open
      modifies this
      ensures Ran(reliable, old(Now()), Now(), OpEffect(op), st)
      decreases op, 0
    {
      match op
      case Save(o) => st := SaveOrder(o, true);
      case Publish(ev, encodable) => st := PublishEvent(ev, encodable, true);
      case Execute(body) => st := ExecuteScope(body, true);
      case Try(inner) =>
        st := RunOp(inner);
        if st == Error { st := Nil; }
      case Fail => st := Error;
      case Panic => st := Panicked;
    }

    /** Runs a scope's code up to its end, its first error or its first panic. */
    method RunCode(code: Code) returns (st: Status)
      requires open
      modifies this
      ensures Ran(reliable, old(Now()), Now(), CodeEffect(code), st)
      decreases code, 0
    {
      match code
      case End => return Nil;
      case Then(op, rest) =>
        st := RunOp(op);
        if st != Nil {
          RanStop(reliable, old(Now()), Now(), OpEffect(op), CodeEffect(rest), st);
          return;
        }
        ghost var mid := Now();
        st := RunCode(rest);
        RanThen(reliable, old(Now()), mid, Now(), OpEffect(op), CodeEffect(rest), st);
    }

    /** A scope: joined when there is an outer one; otherwise its own transaction, committed when its code ends
        without error and rolled back when it ends in an error or a panic. */
    method ExecuteScope(body: Code, inScope: bool) returns (st: Status)
      requires open == inScope
      modifies this
      ensures inScope ==> Ran(reliable, old(Now()), Now(), CodeEffect(body), st)
      ensures !inScope ==> !open && Atomic(old(durable), durable, CodeEffect(body), st)
      ensures !inScope && reliable && AllAccepted(CodeEffect(body).log) ==> st == CodeEffect(body).status
      decreases body, 1
    {
      if inScope {
        st := RunCode(body);
        return;
      }
      var ok := Begin();
      if !ok { return Error; }
      st := RunCode(body);
      if st != Nil {
        Rollback();
        return;
      }
      ok := Commit();
      st := if ok then Nil else Error;
    }
  }

  lemma PublishSnoc(ev: Event, i: nat)
    requires i < |TOPICS|
    ensures PublishEffect(ev, |TOPICS|, i + 1).log ==
            PublishEffect(ev, |TOPICS|, i).log + [PutMessage(Message(TOPICS[i], ev))]
    ensures PublishEffect(ev, |TOPICS|, i).status == Nil
  {
    if i > 0 { PublishSnoc(ev, i - 1); }
  }

  // ----- the use cases' scope -----

  /** The scope every step of the use cases runs: the order, then its event. */
  function Recording(o: Order, ev: Event): Code { Then(Save(o), Then(Publish(ev, |TOPICS|), End)) }

  function Fanned(ev: Event): seq<Message> {
    seq(|TOPICS|, i requires 0 <= i < |TOPICS| => Message(TOPICS[i], ev))
  }

  lemma ReplayOneMore(db: Db, log: seq<Write>, w: Write)
    ensures Replay(db, log + [w]) == Perform(Replay(db, log), w)
  {
    assert (log + [w])[..|log|] == log;
  }

  lemma {:induction false} MessagesReplay(db: Db, ev: Event, n: nat)
    requires n <= |TOPICS|
    ensures PublishEffect(ev, |TOPICS|, n).status == Nil
    ensures Replay(db, PublishEffect(ev, |TOPICS|, n).log) == db.(outbox := db.outbox + Fanned(ev)[..n])
  {
    if n > 0 {
      MessagesReplay(db, ev, n - 1);
      var m := Message(TOPICS[n - 1], ev);
      var log, before := PublishEffect(ev, |TOPICS|, n - 1).log, db.(outbox := db.outbox + Fanned(ev)[..n - 1]);
      PublishSnoc(ev, n - 1);
      ReplayOneMore(db, log, PutMessage(m));
      assert Fanned(ev)[..n] == Fanned(ev)[..n - 1] + [m];
      assert db.outbox + Fanned(ev)[..n] == before.outbox + [m];
    }
  }

  lemma SaveReplay(db: Db, o: Order)
    requires forall i :: 0 <= i < |o.lines| ==> o.lines[i].quantity <= MAX_QUANTITY
    ensures SaveEffect(o).status == Nil && Replay(db, SaveEffect(o).log) == db.(t := Saved(db.t, o))
  {
    LinesSaved(Perform(db, PutOrder(o)), o.ref, o.lines);
    ReplayAppend(db, [PutOrder(o)], LinesEffect(o.ref, o.lines).log);
    assert [PutOrder(o)][..0] == [];
    assert Replay(db, [PutOrder(o)]) == Perform(db, PutOrder(o));
  }

  /** When it commits, the order is saved and its event is enqueued once per topic; nothing else changes. */
  lemma RecordingEffect(db: Db, o: Order, ev: Event)
    requires Storable(o)
    ensures CodeEffect(Recording(o, ev)).status == Nil
    ensures Replay(db, CodeEffect(Recording(o, ev)).log) == Db(Saved(db.t, o), db.outbox + Fanned(ev))
  {
    var a, b := SaveEffect(o), PublishEffect(ev, |TOPICS|, |TOPICS|);
    SaveReplay(db, o);
    MessagesReplay(db.(t := Saved(db.t, o)), ev, |TOPICS|);
    assert CodeEffect(Then(Publish(ev, |TOPICS|), End)) == And(b, CodeEffect(End));
    assert b.log + [] == b.log;
    assert CodeEffect(Recording(o, ev)) == And(a, b);
    ReplayAppend(db, a.log, b.log);
  }

  lemma {:induction false} LinesSaved(db: Db, ref: string, ls: seq<Line>)
    requires forall i :: 0 <= i < |ls| ==> ls[i].quantity <= MAX_QUANTITY
    ensures LinesEffect(ref, ls).status == Nil
    ensures Replay(db, LinesEffect(ref, ls).log) == db.(t := db.t.(lines := InsertLines(db.t.lines, ref, ls)))
  {
    if ls != [] {
      var n := |ls| - 1;
      LinesSaved(db, ref, ls[..n]);
      ReplayAppend(db, LinesEffect(ref, ls[..n]).log, [PutLine(ref, ls[n])]);
      assert [PutLine(ref, ls[n])][..0] == [];
    }
  }
}
