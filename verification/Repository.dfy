/** The Postgres repository of network orders: an order row and its line rows, keyed by ref and by ref and line
    ref, and what a sequence of saves leaves for a later load. */
module Repository {
  import opened Domain
  import opened Translation
  import opened Protocol

  // ----- the order of line refs -----

  /** The collation: strings compare character by character, a prefix first. */
  predicate Below(a: string, b: string) {
    b != [] && (a == [] || a[0] < b[0] || (a[0] == b[0] && Below(a[1..], b[1..])))
  }

  lemma {:induction false} BelowTotal(a: string, b: string)
    ensures a == b || Below(a, b) || Below(b, a)
    ensures !Below(a, a)
    ensures !(Below(a, b) && Below(b, a))
  {
    if a != [] {
      BelowTotal(a[1..], a[1..]);
      if b != [] {
        BelowTotal(a[1..], b[1..]);
        assert a[0] == b[0] && a[1..] == b[1..] ==> a == [a[0]] + a[1..] == [b[0]] + b[1..] == b;
      }
    }
  }

  lemma {:induction false} BelowTransitive(a: string, b: string, c: string)
    requires Below(a, b) && Below(b, c)
    ensures Below(a, c)
  {
    if a != [] && a[0] == b[0] && b[0] == c[0] {
      BelowTransitive(a[1..], b[1..], c[1..]);
    }
  }

  // ----- the tables -----

  datatype OrderRow = OrderRow(
    site: string, shipBy: Time, ackBy: Time, state: State, local: Option<string>, receivedAt: Time)

  datatype LineRow = LineRow(product: string, sku: string, quantity: int)

  type Lines = map<(string, string), LineRow>

  datatype Tables = Tables(orders: map<string, OrderRow>, lines: Lines)

  const EMPTY_TABLES := Tables(map[], map[])

  /** The largest quantity the column holds. */
  const MAX_QUANTITY := 0x7fff_ffff

  function RowOf(o: Order): OrderRow { OrderRow(o.site, o.shipBy, o.ackBy, o.state, o.local, o.receivedAt) }

  function LineRowOf(l: Line): LineRow { LineRow(l.product, l.sku, l.quantity) }

  function UpsertOrder(orders: map<string, OrderRow>, o: Order): map<string, OrderRow> {
    if o.ref in orders then orders[o.ref := orders[o.ref].(state := o.state, local := o.local)]
    else orders[o.ref := RowOf(o)]
  }

  function InsertLine(lines: Lines, ref: string, l: Line): Lines {
    if (ref, l.ref) in lines then lines else lines[(ref, l.ref) := LineRowOf(l)]
  }

  function InsertLines(lines: Lines, ref: string, ls: seq<Line>): Lines {
    if ls == [] then lines
    else InsertLine(InsertLines(lines, ref, ls[..|ls| - 1]), ref, ls[|ls| - 1])
  }

  function Saved(t: Tables, o: Order): Tables {
    Tables(UpsertOrder(t.orders, o), InsertLines(t.lines, o.ref, o.lines))
  }

  /** Whether the tables' checks admit the order and its lines. */
  predicate Storable(o: Order) {
    LocalOrderRequiresAnswer(o) && forall i | 0 <= i < |o.lines| :: 0 < o.lines[i].quantity <= MAX_QUANTITY
  }

  /** The lines of a ref as they load: in the order of their refs, each stored line once, nothing else. */
  ghost predicate Loads(lines: Lines, ref: string, out: seq<Line>) {
    && (forall i, j :: 0 <= i < j < |out| ==> Below(out[i].ref, out[j].ref))
    && (forall l :: l in out <==> (ref, l.ref) in lines && lines[(ref, l.ref)] == LineRowOf(l))
  }

  // ----- the repository -----

  /** Every stored line of the ref is one the line constructor takes. */
  predicate Readable(lines: Lines, ref: string) {
    forall k | k in lines && k.0 == ref :: NewLine(k.1, lines[k].product, lines[k].sku, lines[k].quantity).Ok?
  }

  class NetworkOrderRepo {
    /** Whether every statement the tables accept succeeds, and every commit does. */
    const reliable: bool
    var t: Tables

    constructor (reliable: bool)
      ensures t == EMPTY_TABLES && this.reliable == reliable
    {
      this.reliable := reliable;
      t := EMPTY_TABLES;
    }

    /** Upserts the order row and inserts its lines, in one transaction. Any statement may fail, and the commit
        may take effect and still be reported as failed; when the database is reliable, only an order the tables
        refuse is not saved. */
    method Save(o: NetworkOrder) returns (ok: bool)
      modifies this
      ensures ok ==> t == Saved(old(t), o.Value()) && Storable(o.Value())
      ensures !ok ==> t == old(t) || (t == Saved(old(t), o.Value()) && Storable(o.Value()))
      ensures reliable ==> (ok <==> Storable(o.Value())) && (!ok ==> t == old(t))
    {
      var begun: bool := *;
      if !begun && !reliable { return false; }
      var tx := t;
      var upserted: bool := *;
      if !(upserted || reliable) || !LocalOrderRequiresAnswer(o.Value()) { return false; }
      tx := tx.(orders := UpsertOrder(tx.orders, o.Value()));
      for i := 0 to |o.lines|
        invariant tx == Tables(UpsertOrder(t.orders, o.Value()), InsertLines(t.lines, o.ref, o.lines[..i]))
        invariant forall j :: 0 <= j < i ==> 0 < o.lines[j].quantity <= MAX_QUANTITY
      {
        var l := o.lines[i];
        var inserted: bool := *;
        if !(inserted || reliable) || !(0 < l.quantity <= MAX_QUANTITY) { return false; }
        assert o.lines[..i + 1][..i] == o.lines[..i];
        tx := tx.(lines := InsertLine(tx.lines, o.ref, l));
      }
      assert o.lines[..|o.lines|] == o.lines;
      var out: Outcome := *;
      if reliable { out := Done; }
      if out.Effective() { t := tx; }
      return out.Done?;
    }

    /** None for a ref without a row; otherwise the row and its lines as one aggregate. */
    method FindByRef(ref: string) returns (r: Result<Option<NetworkOrder>>)
      ensures r.Ok? ==> (r.value.None? <==> ref !in t.orders)
      ensures r.Ok? && r.value.Some? ==>
                && fresh(r.value.value)
                && var o := r.value.value.Value();
                   o.ref == ref && RowOf(o) == t.orders[ref] && Loads(t.lines, ref, o.lines)
      ensures reliable && Readable(t.lines, ref) ==> r.Ok?
    {
      var ok: bool := *;
      if !ok && !reliable { return Err(PortFailure); }
      if ref !in t.orders { return Ok(None); }
      r := ScanOrder(ref, t.orders[ref]);
    }

    /** Rehydrates one aggregate from its row plus its lines. */
    method ScanOrder(ref: string, row: OrderRow) returns (r: Result<Option<NetworkOrder>>)
      ensures r.Ok? ==>
                && r.value.Some? && fresh(r.value.value)
                && var o := r.value.value.Value();
                   o.ref == ref && RowOf(o) == row && Loads(t.lines, ref, o.lines)
      ensures reliable && Readable(t.lines, ref) ==> r.Ok?
    {
      var lines := FindLines(ref);
      if lines.Err? { return Err(lines.error); }
      var o := new NetworkOrder(
        Order(ref, row.site, row.shipBy, row.ackBy, lines.value, row.state, row.local, row.receivedAt));
      return Ok(Some(o));
    }

    /** Every stored line of the ref, rebuilt through the line constructor; a row it refuses is an error. */
    method FindLines(ref: string) returns (r: Result<seq<Line>>)
      ensures r.Ok? ==> Loads(t.lines, ref, r.value)
      ensures reliable && Readable(t.lines, ref) ==> r.Ok?
    {
      var ok: bool := *;
      if !ok && !reliable { return Err(PortFailure); }
      var refs := SelectLineRefs(ref);
      var lines: seq<Line> := [];
      for i := 0 to |refs|
        invariant |lines| == i
        invariant forall j :: 0 <= j < i ==> lines[j].ref == refs[j] && LineRowOf(lines[j]) == t.lines[(ref, refs[j])]
      {
        assert refs[i] in refs;
        var row := t.lines[(ref, refs[i])];
        var l := NewLine(refs[i], row.product, row.sku, row.quantity);
        if l.Err? { return Err(l.error); }
        lines := lines + [l.value];
      }
      forall l ensures l in lines <==> (ref, l.ref) in t.lines && t.lines[(ref, l.ref)] == LineRowOf(l) {
        if (ref, l.ref) in t.lines && t.lines[(ref, l.ref)] == LineRowOf(l) {
          assert l.ref in refs;
          var j :| 0 <= j < |refs| && refs[j] == l.ref;
          assert lines[j] == l;
        }
        if l in lines {
          var j :| 0 <= j < |lines| && lines[j] == l;
          assert refs[j] in refs;
        }
      }
      return Ok(lines);
    }

    /** The line refs stored for the ref, in order. */
    method SelectLineRefs(ref: string) returns (refs: seq<string>)
      ensures forall x :: x in refs <==> (ref, x) in t.lines
      ensures forall i, j :: 0 <= i < j < |refs| ==> Below(refs[i], refs[j])
    {
      refs := [];
      var rest := set k | k in t.lines && k.0 == ref :: k.1;
      while rest != {}
        invariant forall x :: x in refs || x in rest <==> (ref, x) in t.lines
        invariant forall i, j :: 0 <= i < j < |refs| ==> Below(refs[i], refs[j])
        invariant forall i, x :: 0 <= i < |refs| && x in rest ==> Below(refs[i], x)
        decreases rest
      {
        var m := Least(rest);
        rest := rest - {m};
        refs := refs + [m];
      }
    }

    method Least(s: set<string>) returns (m: string)
      requires s != {}
      ensures m in s && forall x :: x in s && x != m ==> Below(m, x)
    {
      m :| m in s;
      var rest := s - {m};
      while rest != {}
        invariant rest <= s && m in s - rest
        invariant forall x :: x in s - rest && x != m ==> Below(m, x)
        decreases rest
      {
        var y :| y in rest;
        BelowTotal(y, m);
        if Below(y, m) {
          forall x | x in s - rest && x != m ensures Below(y, x) {
            BelowTransitive(y, m, x);
          }
          m := y;
        }
        rest := rest - {y};
      }
    }
  }

  // ----- what a sequence of saves leaves -----

  function SaveAll(t: Tables, saves: seq<Order>): Tables {
    if saves == [] then t else Saved(SaveAll(t, saves[..|saves| - 1]), saves[|saves| - 1])
  }

  /** Save i is the first of its ref. */
  ghost predicate FirstSave(saves: seq<Order>, ref: string, i: nat) {
    i < |saves| && saves[i].ref == ref && forall j :: 0 <= j < i ==> saves[j].ref != ref
  }

  ghost predicate LastSave(saves: seq<Order>, ref: string, i: nat) {
    i < |saves| && saves[i].ref == ref && forall j :: i < j < |saves| ==> saves[j].ref != ref
  }

  /** After any saves of any orders, a ref's row holds what its first save fixed and what its last one answered. */
  lemma {:induction false} FirstIntakeLastAnswer(saves: seq<Order>, ref: string, i: nat, j: nat)
    requires FirstSave(saves, ref, i) && LastSave(saves, ref, j)
    ensures var orders := SaveAll(EMPTY_TABLES, saves).orders;
      ref in orders && orders[ref] == RowOf(saves[i]).(state := saves[j].state, local := saves[j].local)
  {
    var n := |saves| - 1;
    if j < n {
      FirstIntakeLastAnswer(saves[..n], ref, i, j);
    } else if i < n {
      var k := LastBefore(saves, ref, i, n);
      FirstIntakeLastAnswer(saves[..n], ref, i, k);
    } else {
      NotYetSaved(saves[..n], ref);
    }
  }

  lemma {:induction false} LastBefore(saves: seq<Order>, ref: string, i: nat, n: nat) returns (k: nat)
    requires i < n <= |saves| && saves[i].ref == ref
    ensures LastSave(saves[..n], ref, k) && i <= k
  {
    if saves[n - 1].ref == ref {
      k := n - 1;
    } else {
      k := LastBefore(saves, ref, i, n - 1);
    }
  }

  lemma {:induction false} NotYetSaved(saves: seq<Order>, ref: string)
    requires forall i :: 0 <= i < |saves| ==> saves[i].ref != ref
    ensures ref !in SaveAll(EMPTY_TABLES, saves).orders
    ensures forall x :: (ref, x) !in SaveAll(EMPTY_TABLES, saves).lines
  {
    if saves != [] {
      var n := |saves| - 1;
      NotYetSaved(saves[..n], ref);
      var t := SaveAll(EMPTY_TABLES, saves[..n]);
      forall x ensures (ref, x) !in SaveAll(EMPTY_TABLES, saves).lines {
        InsertedLines(t.lines, saves[n].ref, saves[n].lines, (ref, x));
      }
    }
  }

  /** Line i is the first of its line ref. */
  ghost predicate FirstLine(ls: seq<Line>, i: int) {
    0 <= i < |ls| && forall j :: 0 <= j < i ==> ls[j].ref != ls[i].ref
  }

  /** What is stored under the key came from the first of the lines that has its line ref. */
  ghost predicate FromLine(m: Lines, ref: string, ls: seq<Line>, k: (string, string)) {
    exists i :: FirstLine(ls, i) && k == (ref, ls[i].ref) && k in m && m[k] == LineRowOf(ls[i])
  }

  lemma {:induction false} EveryLineIn(lines: Lines, ref: string, ls: seq<Line>, i: nat)
    requires i < |ls|
    ensures (ref, ls[i].ref) in InsertLines(lines, ref, ls)
  {
    var n := |ls| - 1;
    if i < n {
      EveryLineIn(lines, ref, ls[..n], i);
      assert ls[..n][i] == ls[i];
    }
  }

  lemma FromLineStays(before: Lines, ref: string, ls: seq<Line>, k: (string, string))
    requires ls != [] && FromLine(before, ref, ls[..|ls| - 1], k)
    ensures FromLine(InsertLine(before, ref, ls[|ls| - 1]), ref, ls, k)
  {
    var n := |ls| - 1;
    var i :| FirstLine(ls[..n], i) && k == (ref, ls[..n][i].ref) && before[k] == LineRowOf(ls[..n][i]);
    assert ls[..n][i] == ls[i];
    forall j | 0 <= j < i ensures ls[j].ref != ls[i].ref {
      assert ls[..n][j] == ls[j];
    }
    assert FirstLine(ls, i);
  }

  /** Inserting lines never changes a stored one; a new key gets the first line that has its line ref. */
  lemma {:induction false} InsertedLines(lines: Lines, ref: string, ls: seq<Line>, k: (string, string))
    ensures var m := InsertLines(lines, ref, ls);
      if k in lines then k in m && m[k] == lines[k] else k in m <==> FromLine(m, ref, ls, k)
    ensures k.0 == ref && (exists i :: 0 <= i < |ls| && ls[i].ref == k.1) ==> k in InsertLines(lines, ref, ls)
  {
    if i :| 0 <= i < |ls| && ls[i].ref == k.1 && k.0 == ref { EveryLineIn(lines, ref, ls, i); }
    if ls != [] {
      var n := |ls| - 1;
      var before := InsertLines(lines, ref, ls[..n]);
      InsertedLines(lines, ref, ls[..n], k);
      if k !in lines && k in InsertLines(lines, ref, ls) {
        if k in before { FromLineStays(before, ref, ls, k); } else { LastLineNew(lines, ref, ls, k); }
      }
    }
  }

  lemma LastLineNew(lines: Lines, ref: string, ls: seq<Line>, k: (string, string))
    requires ls != [] && k !in InsertLines(lines, ref, ls[..|ls| - 1]) && k in InsertLines(lines, ref, ls)
    ensures FromLine(InsertLines(lines, ref, ls), ref, ls, k)
  {
    var n := |ls| - 1;
    forall j | 0 <= j < n ensures ls[j].ref != ls[n].ref {
      EveryLineIn(lines, ref, ls[..n], j);
      assert ls[..n][j] == ls[j];
    }
    assert FirstLine(ls, n);
  }

  /** What is stored for a ref is, for each line ref, the first of these lines that has it. */
  ghost predicate Holds(lines: Lines, ref: string, ls: seq<Line>) {
    && (forall x :: (ref, x) in lines ==> exists i :: FirstLine(ls, i) && ls[i].ref == x)
    && (forall i :: FirstLine(ls, i) ==> (ref, ls[i].ref) in lines && lines[(ref, ls[i].ref)] == LineRowOf(ls[i]))
  }

  lemma {:induction false} FirstExists(ls: seq<Line>, i: nat) returns (k: nat)
    requires i < |ls|
    ensures FirstLine(ls, k) && ls[k].ref == ls[i].ref
  {
    if FirstLine(ls, i) {
      k := i;
    } else {
      var j :| 0 <= j < i && ls[j].ref == ls[i].ref;
      k := FirstExists(ls, j);
    }
  }

  lemma FirstUnique(ls: seq<Line>, i: nat, j: nat)
    requires FirstLine(ls, i) && FirstLine(ls, j) && ls[i].ref == ls[j].ref
    ensures i == j
  {
  }

  /** Saving an order's lines again changes nothing. */
  lemma InsertHolds(lines: Lines, ref: string, ls: seq<Line>)
    requires Holds(lines, ref, ls) || forall x :: (ref, x) !in lines
    ensures Holds(InsertLines(lines, ref, ls), ref, ls)
  {
    var m := InsertLines(lines, ref, ls);
    forall x | (ref, x) in m ensures exists i :: FirstLine(ls, i) && ls[i].ref == x {
      InsertedLines(lines, ref, ls, (ref, x));
      if (ref, x) !in lines {
        var i :| FirstLine(ls, i) && (ref, x) == (ref, ls[i].ref);
        assert ls[i].ref == x;
      }
    }
    forall i | FirstLine(ls, i) ensures (ref, ls[i].ref) in m && m[(ref, ls[i].ref)] == LineRowOf(ls[i]) {
      InsertedLines(lines, ref, ls, (ref, ls[i].ref));
      assert ls[i].ref == (ref, ls[i].ref).1;
      if (ref, ls[i].ref) !in lines {
        var j :| FirstLine(ls, j) && (ref, ls[i].ref) == (ref, ls[j].ref) && m[(ref, ls[i].ref)] == LineRowOf(ls[j]);
        FirstUnique(ls, i, j);
      }
    }
  }

  lemma OtherRefHolds(lines: Lines, other: string, more: seq<Line>, ref: string, ls: seq<Line>)
    requires Holds(lines, ref, ls) && other != ref
    ensures Holds(InsertLines(lines, other, more), ref, ls)
  {
    var m := InsertLines(lines, other, more);
    forall x | (ref, x) in m ensures (ref, x) in lines {
      InsertedLines(lines, other, more, (ref, x));
    }
    forall i | FirstLine(ls, i) ensures (ref, ls[i].ref) in m && m[(ref, ls[i].ref)] == LineRowOf(ls[i]) {
      InsertedLines(lines, other, more, (ref, ls[i].ref));
    }
  }

  lemma {:induction false} SavesHold(saves: seq<Order>, ref: string, ls: seq<Line>)
    requires exists i :: 0 <= i < |saves| && saves[i].ref == ref
    requires forall i :: 0 <= i < |saves| && saves[i].ref == ref ==> saves[i].lines == ls
    ensures Holds(SaveAll(EMPTY_TABLES, saves).lines, ref, ls)
  {
    var n := |saves| - 1;
    var before := SaveAll(EMPTY_TABLES, saves[..n]).lines;
    if exists i :: 0 <= i < n && saves[i].ref == ref {
      var i :| 0 <= i < n && saves[i].ref == ref;
      assert saves[..n][i].ref == ref;
      SavesHold(saves[..n], ref, ls);
      if saves[n].ref == ref {
        InsertHolds(before, ref, ls);
      } else {
        OtherRefHolds(before, saves[n].ref, saves[n].lines, ref, ls);
      }
    } else {
      NotYetSaved(saves[..n], ref);
      InsertHolds(before, ref, ls);
    }
  }

  // ----- the round trip of lines and quantities -----

  predicate DistinctRefs(ls: seq<Line>) {
    forall i, j :: 0 <= i < j < |ls| ==> ls[i].ref != ls[j].ref
  }

  /** The first line of every line ref, in order. */
  ghost function Firsts(ls: seq<Line>): seq<Line> {
    if ls == [] then []
    else Firsts(ls[..|ls| - 1]) + (if FirstLine(ls, |ls| - 1) then [ls[|ls| - 1]] else [])
  }

  ghost predicate IsFirst(ls: seq<Line>, l: Line) {
    exists i :: FirstLine(ls, i) && ls[i] == l
  }

  lemma FirstInPrefix(ls: seq<Line>, n: nat, i: int)
    requires 0 <= i < n <= |ls|
    ensures FirstLine(ls[..n], i) <==> FirstLine(ls, i)
  {
    assert forall j :: 0 <= j <= i ==> ls[..n][j] == ls[j];
  }

  lemma FirstFrom(ls: seq<Line>, l: Line)
    requires ls != [] && IsFirst(ls, l)
    ensures IsFirst(ls[..|ls| - 1], l) || (FirstLine(ls, |ls| - 1) && ls[|ls| - 1] == l)
  {
    var n := |ls| - 1;
    var i :| FirstLine(ls, i) && ls[i] == l;
    if i < n {
      FirstInPrefix(ls, n, i);
      assert ls[..n][i] == l;
    }
  }

  lemma FirstStays(ls: seq<Line>, l: Line)
    requires ls != [] && IsFirst(ls[..|ls| - 1], l)
    ensures IsFirst(ls, l) && !(FirstLine(ls, |ls| - 1) && ls[|ls| - 1] == l)
  {
    var n := |ls| - 1;
    var i :| FirstLine(ls[..n], i) && ls[..n][i] == l;
    FirstInPrefix(ls, n, i);
    assert ls[i] == l;
  }

  lemma FirstSnoc(ls: seq<Line>, l: Line)
    requires ls != []
    ensures var n := |ls| - 1;
      && (IsFirst(ls, l) <==> IsFirst(ls[..n], l) || (FirstLine(ls, n) && ls[n] == l))
      && !(IsFirst(ls[..n], l) && FirstLine(ls, n) && ls[n] == l)
  {
    if IsFirst(ls, l) { FirstFrom(ls, l); }
    if IsFirst(ls[..|ls| - 1], l) { FirstStays(ls, l); }
  }

  lemma {:induction false} FirstsMembers(ls: seq<Line>, l: Line)
    ensures multiset(Firsts(ls))[l] == if IsFirst(ls, l) then 1 else 0
  {
    if ls != [] {
      FirstsMembers(ls[..|ls| - 1], l);
      FirstSnoc(ls, l);
    }
  }

  lemma {:induction false} SortedOnce(out: seq<Line>, l: Line)
    requires forall i, j :: 0 <= i < j < |out| ==> Below(out[i].ref, out[j].ref)
    ensures multiset(out)[l] == if l in out then 1 else 0
  {
    if out != [] {
      var n := |out| - 1;
      SortedOnce(out[..n], l);
      assert out == out[..n] + [out[n]];
      if l in out[..n] && l == out[n] {
        var i :| 0 <= i < n && out[i] == l;
        BelowTotal(l.ref, l.ref);
      }
    }
  }

  /** What loads is a rearrangement of the first lines. */
  lemma LoadsFirsts(lines: Lines, ref: string, ls: seq<Line>, out: seq<Line>)
    requires Holds(lines, ref, ls) && Loads(lines, ref, out)
    ensures multiset(out) == multiset(Firsts(ls))
  {
    forall l: Line ensures multiset(out)[l] == multiset(Firsts(ls))[l] {
      FirstsMembers(ls, l);
      SortedOnce(out, l);
      if l in out {
        var i :| FirstLine(ls, i) && ls[i].ref == l.ref;
        assert LineRowOf(ls[i]) == LineRowOf(l);
        assert ls[i] == l;
      }
    }
  }

  lemma RepeatedRef(ls: seq<Line>)
    requires ls != []
    ensures DistinctRefs(ls) <==> DistinctRefs(ls[..|ls| - 1]) && FirstLine(ls, |ls| - 1)
  {
    var n := |ls| - 1;
    if DistinctRefs(ls[..n]) && FirstLine(ls, n) {
      forall i, j | 0 <= i < j < |ls| ensures ls[i].ref != ls[j].ref {
        if j < n { assert ls[..n][i].ref != ls[..n][j].ref; }
      }
    }
  }

  lemma UnitsSnoc(ls: seq<Line>, l: Line)
    ensures Units(ls + [l]) == Units(ls) + l.quantity
  {
    assert (ls + [l])[..|ls|] == ls;
  }

  lemma {:induction false} FirstsUnits(ls: seq<Line>)
    requires Positive(ls)
    ensures if DistinctRefs(ls) then Firsts(ls) == ls else Units(Firsts(ls)) < Units(ls)
  {
    if ls != [] {
      var n := |ls| - 1;
      var rest, l := ls[..n], ls[n];
      assert l.quantity > 0 && Units(ls) == Units(rest) + l.quantity && ls == rest + [l];
      FirstsUnits(rest);
      RepeatedRef(ls);
      UnitsSnoc(Firsts(rest), l);
      assert Firsts(ls) == if FirstLine(ls, n) then Firsts(rest) + [l] else Firsts(rest);
    }
  }

  /** After any saves, all of one ref with the same lines: the order that loads carries the intake of the first
      save, the answer of the last, and those lines in the order of their refs. It asks the planner for the same
      quantities exactly when no two lines share a line ref; a line whose ref was taken is lost. */
  lemma RoundTrip(saves: seq<Order>, ref: string, i: nat, j: nat, out: seq<Line>)
    requires FirstSave(saves, ref, i) && LastSave(saves, ref, j)
    requires forall k :: 0 <= k < |saves| && saves[k].ref == ref ==> saves[k].lines == saves[i].lines
    requires Positive(saves[i].lines)
    requires Loads(SaveAll(EMPTY_TABLES, saves).lines, ref, out)
    ensures var orders := SaveAll(EMPTY_TABLES, saves).orders;
      ref in orders && orders[ref] == RowOf(saves[i]).(state := saves[j].state, local := saves[j].local)
    ensures multiset(out) == multiset(saves[i].lines) <==> DistinctRefs(saves[i].lines)
    ensures Quantities(out) == Quantities(saves[i].lines) <==> DistinctRefs(saves[i].lines)
  {
    FirstIntakeLastAnswer(saves, ref, i, j);
    var ls := saves[i].lines;
    SavesHold(saves, ref, ls);
    LoadsFirsts(SaveAll(EMPTY_TABLES, saves).lines, ref, ls, out);
    FirstsUnits(ls);
    QuantitiesPermute(out, Firsts(ls));
    QuantitiesTotal(Firsts(ls));
    QuantitiesTotal(ls);
    if multiset(out) == multiset(ls) { QuantitiesPermute(out, ls); }
  }

  // ----- the protocol's table -----

  /** The two tables hold the protocol's rows: the same refs, the same facts, and of each row's lines the first
      of every line ref. */
  ghost predicate Represents(t: Tables, table: Table) {
    && t.orders.Keys == table.Keys
    && (forall k :: k in t.lines ==> k.0 in table)
    && (forall r :: r in table ==>
          table[r].ref == r && t.orders[r] == RowOf(table[r]) && Holds(t.lines, r, table[r].lines))
  }

  /** Saving an order, whose lines never change once it is stored, is the protocol's upsert. */
  lemma SaveIsUpsert(t: Tables, table: Table, o: Order)
    requires Represents(t, table)
    requires o.ref in table ==> o.lines == table[o.ref].lines
    ensures Represents(Saved(t, o), Upsert(table, o))
  {
    var t', table' := Saved(t, o), Upsert(table, o);
    forall k | k in t'.lines ensures k.0 in table' {
      InsertedLines(t.lines, o.ref, o.lines, k);
    }
    forall r | r in table' ensures Holds(t'.lines, r, table'[r].lines) {
      if r == o.ref {
        InsertHolds(t.lines, o.ref, o.lines);
      } else {
        OtherRefHolds(t.lines, o.ref, o.lines, r, table[r].lines);
      }
    }
  }
}
