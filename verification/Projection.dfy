/** The acknowledgement report's read model: what one event contributes, and what a set of events adds up to. */
module Projection {
  import opened Domain
  import opened Sums

  datatype Kind = Receipt | Acknowledgement(latency: int) | Rejection(reason: string)

  datatype Payload = Payload(kind: Kind, at: Time)

  /** The counters of one UTC day. */
  datatype Counts = Counts(
    received: int, acknowledged: int, latencySum: int, latencyCount: int,
    untranslatable: int, domain: int, missed: int)

  const ZERO := Counts(0, 0, 0, 0, 0, 0, 0)

  function Add(a: Counts, b: Counts): Counts {
    Counts(a.received + b.received, a.acknowledged + b.acknowledged, a.latencySum + b.latencySum,
           a.latencyCount + b.latencyCount, a.untranslatable + b.untranslatable, a.domain + b.domain,
           a.missed + b.missed)
  }

  function Delta(k: Kind): Counts {
    match k
    case Receipt => ZERO.(received := 1)
    case Acknowledgement(latency) => ZERO.(acknowledged := 1, latencySum := latency, latencyCount := 1)
    case Rejection(reason) =>
      if reason == "UNTRANSLATABLE_SKU" then ZERO.(untranslatable := 1)
      else if reason == "INFEASIBLE_DEADLINE" then ZERO.(domain := 1)
      else if reason == "ACKNOWLEDGEMENT_DEADLINE_MISSED" then ZERO.(missed := 1)
      else ZERO
  }

  /** Midnight UTC of the day of t. */
  function DayBucket(t: Time): Time { t - t % DAY }

  /** The instant lies in the UTC day that begins at this midnight. */
  predicate IsDayOf(day: Time, at: Time) {
    day % 86_400_000_000_000 == 0 && day <= at < day + 86_400_000_000_000
  }

  /** The bucket is the one midnight whose day the instant lies in. */
  lemma BucketIsDay(at: Time, day: Time)
    ensures day == DayBucket(at) <==> IsDayOf(day, at)
  {
  }

  type Rows = map<Time, Counts>

  function RowAt(rows: Rows, day: Time): Counts {
    if day in rows then rows[day] else ZERO
  }

  function AddTo(rows: Rows, at: Time, delta: Counts): Rows {
    rows[DayBucket(at) := Add(RowAt(rows, DayBucket(at)), delta)]
  }

  /** A store's abstract state: the payload each applied id brought, and the rows. */
  datatype Store = Store(seen: map<nat, Payload>, rows: Rows)

  const EMPTY_STORE := Store(map[], map[])

  /** Applying one event: the first time an id comes it counts, afterwards it does not. */
  function ApplyEvent(st: Store, eid: nat, p: Payload): Store {
    if eid in st.seen then st
    else Store(st.seen[eid := p], AddTo(st.rows, p.at, Delta(p.kind)))
  }

  datatype Application = Application(eid: nat, p: Payload)

  function ApplyAll(st: Store, es: seq<Application>): Store {
    if es == [] then st else ApplyEvent(ApplyAll(st, es[..|es| - 1]), es[|es| - 1].eid, es[|es| - 1].p)
  }

  // ----- the reference: what a set of distinct events adds up to -----

  /** One figure of the report; Rejections adds the three causes up. */
  datatype Figure =
    | Receipts | Acknowledgements | LatencySum | LatencyCount | Untranslatable | Infeasible | Missed | Rejections

  function Get(c: Counts, f: Figure): int {
    match f
    case Receipts => c.received
    case Acknowledgements => c.acknowledged
    case LatencySum => c.latencySum
    case LatencyCount => c.latencyCount
    case Untranslatable => c.untranslatable
    case Infeasible => c.domain
    case Missed => c.missed
    case Rejections => c.untranslatable + c.domain + c.missed
  }

  /** What each event of a day contributes to a figure. */
  function DayShares(seen: map<nat, Payload>, day: Time, f: Figure): map<nat, int> {
    map e | e in seen && IsDayOf(day, seen[e].at) :: Get(Delta(seen[e].kind), f)
  }

  ghost predicate HasEventOn(seen: map<nat, Payload>, day: Time) {
    exists e :: e in seen && IsDayOf(day, seen[e].at)
  }

  /** The rows are exactly those of the days in which a distinct event lies, and every figure of a day is the sum
      over the events whose instants lie in it. */
  ghost predicate RowsAreSums(st: Store) {
    && (forall day :: day in st.rows <==> HasEventOn(st.seen, day))
    && (forall day, f :: day in st.rows ==> Get(st.rows[day], f) == Sum(DayShares(st.seen, day, f)))
  }

  lemma DaySharesPut(seen: map<nat, Payload>, eid: nat, p: Payload, day: Time, f: Figure)
    requires eid !in seen
    ensures Sum(DayShares(seen[eid := p], day, f)) ==
            Sum(DayShares(seen, day, f)) + (if IsDayOf(day, p.at) then Get(Delta(p.kind), f) else 0)
  {
    var a, b := DayShares(seen, day, f), DayShares(seen[eid := p], day, f);
    if IsDayOf(day, p.at) {
      assert b == a[eid := Get(Delta(p.kind), f)];
      SumPut(a, eid, Get(Delta(p.kind), f));
    } else {
      assert b == a;
    }
  }

  lemma NoShares(seen: map<nat, Payload>, day: Time, f: Figure)
    requires !HasEventOn(seen, day)
    ensures Sum(DayShares(seen, day, f)) == 0
  {
    assert DayShares(seen, day, f) == map[];
  }

  lemma GetAdd(a: Counts, b: Counts, f: Figure)
    ensures Get(Add(a, b), f) == Get(a, f) + Get(b, f)
  {
  }

  lemma RowsPut(rows: Rows, at: Time, delta: Counts, day: Time, f: Figure)
    ensures day in AddTo(rows, at, delta) <==> day in rows || IsDayOf(day, at)
    ensures day in AddTo(rows, at, delta) ==>
              Get(AddTo(rows, at, delta)[day], f) ==
              Get(RowAt(rows, day), f) + (if IsDayOf(day, at) then Get(delta, f) else 0)
  {
    BucketIsDay(at, day);
    GetAdd(RowAt(rows, DayBucket(at)), delta, f);
  }

  lemma EventsPut(seen: map<nat, Payload>, eid: nat, p: Payload, day: Time)
    requires eid !in seen
    ensures HasEventOn(seen[eid := p], day) <==> HasEventOn(seen, day) || IsDayOf(day, p.at)
  {
    var seen' := seen[eid := p];
    if e :| e in seen && IsDayOf(day, seen[e].at) {
      assert e in seen' && IsDayOf(day, seen'[e].at);
    }
    if IsDayOf(day, p.at) {
      assert eid in seen' && IsDayOf(day, seen'[eid].at);
    }
  }

  lemma ApplyFigure(st: Store, eid: nat, p: Payload, day: Time, f: Figure)
    requires eid !in st.seen
    requires day in st.rows <==> HasEventOn(st.seen, day)
    requires day in st.rows ==> Get(st.rows[day], f) == Sum(DayShares(st.seen, day, f))
    requires day in ApplyEvent(st, eid, p).rows
    ensures Get(ApplyEvent(st, eid, p).rows[day], f) == Sum(DayShares(ApplyEvent(st, eid, p).seen, day, f))
  {
    RowsPut(st.rows, p.at, Delta(p.kind), day, f);
    DaySharesPut(st.seen, eid, p, day, f);
    if day !in st.rows {
      NoShares(st.seen, day, f);
    }
  }

  lemma ApplyKeepsSums(st: Store, eid: nat, p: Payload)
    requires RowsAreSums(st)
    ensures RowsAreSums(ApplyEvent(st, eid, p))
  {
    if eid !in st.seen {
      var st' := ApplyEvent(st, eid, p);
      forall day ensures day in st'.rows <==> HasEventOn(st'.seen, day) {
        EventsPut(st.seen, eid, p, day);
        RowsPut(st.rows, p.at, Delta(p.kind), day, Receipts);
      }
      forall day, f | day in st'.rows ensures Get(st'.rows[day], f) == Sum(DayShares(st'.seen, day, f)) {
        ApplyFigure(st, eid, p, day, f);
      }
    }
  }

  lemma {:induction false} ApplyAllIsSums(es: seq<Application>)
    ensures RowsAreSums(ApplyAll(EMPTY_STORE, es))
  {
    if es != [] {
      var n := |es| - 1;
      ApplyAllIsSums(es[..n]);
      ApplyKeepsSums(ApplyAll(EMPTY_STORE, es[..n]), es[n].eid, es[n].p);
    }
  }

  // ----- reading a range of days -----

  lemma KeyIsMidnight(st: Store, day: Time)
    requires RowsAreSums(st) && day in st.rows
    ensures day % 86_400_000_000_000 == 0
  {
    assert HasEventOn(st.seen, day);
  }

  /** What each event whose instant lies in [from, to) contributes to a figure. */
  function RangeShares(seen: map<nat, Payload>, from: Time, to: Time, f: Figure): map<nat, int> {
    map e | e in seen && from <= seen[e].at < to :: Get(Delta(seen[e].kind), f)
  }

  /** What each event of one of these days contributes to a figure. */
  function DaysShares(seen: map<nat, Payload>, days: set<Time>, f: Figure): map<nat, int> {
    map e | e in seen && DayBucket(seen[e].at) in days :: Get(Delta(seen[e].kind), f)
  }

  /** One more day adds the sum over its events. */
  lemma OneMoreDay(seen: map<nat, Payload>, days: set<Time>, day: Time, f: Figure)
    requires day !in days && day % 86_400_000_000_000 == 0
    ensures Sum(DaysShares(seen, days + {day}, f)) == Sum(DaysShares(seen, days, f)) + Sum(DayShares(seen, day, f))
  {
    var a, b := DaysShares(seen, days, f), DayShares(seen, day, f);
    forall e | e in seen ensures DayBucket(seen[e].at) == day <==> IsDayOf(day, seen[e].at) {
      BucketIsDay(seen[e].at, day);
    }
    SumApart(DaysShares(seen, days + {day}, f), a, b);
  }

  /** A range of whole days holds an instant exactly if it holds the midnight of the instant's day. */
  lemma WholeDays(from: Time, to: Time, at: Time)
    requires from % 86_400_000_000_000 == 0 && to % 86_400_000_000_000 == 0
    ensures from <= DayBucket(at) < to <==> from <= at < to
  {
  }

  /** The rows of a range of whole days tell of exactly the events whose instants lie in it. */
  lemma RangeOfDays(st: Store, days: set<Time>, from: Time, to: Time, f: Figure)
    requires RowsAreSums(st) && from % 86_400_000_000_000 == 0 && to % 86_400_000_000_000 == 0
    requires days == set day | day in st.rows && from <= day < to
    ensures DaysShares(st.seen, days, f) == RangeShares(st.seen, from, to, f)
  {
    forall e | e in st.seen ensures DayBucket(st.seen[e].at) in days <==> from <= st.seen[e].at < to {
      WholeDays(from, to, st.seen[e].at);
      BucketIsDay(st.seen[e].at, DayBucket(st.seen[e].at));
      assert HasEventOn(st.seen, DayBucket(st.seen[e].at));
    }
  }

  /** Every row's key is a midnight, and an event is counted in the row of its own day and in no other. */
  lemma EventsInTheirDays(st: Store, eid: nat, day: Time)
    requires RowsAreSums(st) && eid in st.seen
    ensures forall d :: d in st.rows ==> d % 86_400_000_000_000 == 0
    ensures IsDayOf(day, st.seen[eid].at) ==> day in st.rows
    ensures forall f :: eid in DayShares(st.seen, day, f) <==> IsDayOf(day, st.seen[eid].at)
    ensures forall d :: IsDayOf(day, st.seen[eid].at) && IsDayOf(d, st.seen[eid].at) ==> d == day
  {
    if IsDayOf(day, st.seen[eid].at) { assert HasEventOn(st.seen, day); }
  }

  /** Equal ids carry equal payloads. */
  ghost predicate Consistent(es: seq<Application>) {
    forall i, j :: 0 <= i < |es| && 0 <= j < |es| && es[i].eid == es[j].eid ==> es[i].p == es[j].p
  }

  lemma {:induction false} SeenExactly(es: seq<Application>)
    requires Consistent(es)
    ensures forall e :: e in ApplyAll(EMPTY_STORE, es).seen <==> exists i :: 0 <= i < |es| && es[i].eid == e
    ensures forall i :: 0 <= i < |es| ==>
              var seen := ApplyAll(EMPTY_STORE, es).seen; es[i].eid in seen && seen[es[i].eid] == es[i].p
  {
    if es != [] {
      var n := |es| - 1;
      SeenExactly(es[..n]);
      var st := ApplyAll(EMPTY_STORE, es[..n]);
      forall i | 0 <= i < |es|
        ensures var seen := ApplyAll(EMPTY_STORE, es).seen; es[i].eid in seen && seen[es[i].eid] == es[i].p
      {
        if i < n {
          assert es[..n][i] == es[i];
        } else if es[n].eid in st.seen {
          var j :| 0 <= j < n && es[..n][j].eid == es[n].eid;
          assert es[..n][j] == es[j];
        }
      }
      forall e | e in ApplyAll(EMPTY_STORE, es).seen ensures exists i :: 0 <= i < |es| && es[i].eid == e {
        if e in st.seen {
          var i :| 0 <= i < n && es[..n][i].eid == e;
          assert es[i].eid == e;
        } else {
          assert es[n].eid == e;
        }
      }
    }
  }

  lemma SameCounts(x: Counts, y: Counts)
    requires forall f :: Get(x, f) == Get(y, f)
    ensures x == y
  {
    assert Get(x, Receipts) == Get(y, Receipts) && Get(x, Acknowledgements) == Get(y, Acknowledgements);
    assert Get(x, LatencySum) == Get(y, LatencySum) && Get(x, LatencyCount) == Get(y, LatencyCount);
    assert Get(x, Untranslatable) == Get(y, Untranslatable) && Get(x, Infeasible) == Get(y, Infeasible);
    assert Get(x, Missed) == Get(y, Missed);
  }

  lemma SameRow(a: Store, b: Store, day: Time)
    requires RowsAreSums(a) && RowsAreSums(b) && a.seen == b.seen
    ensures day in a.rows <==> day in b.rows
    ensures day in a.rows && day in b.rows ==> a.rows[day] == b.rows[day]
  {
    assert day in a.rows <==> HasEventOn(a.seen, day);
    if day in a.rows && day in b.rows {
      forall f ensures Get(a.rows[day], f) == Get(b.rows[day], f) {
        assert Get(a.rows[day], f) == Sum(DayShares(a.seen, day, f));
      }
      SameCounts(a.rows[day], b.rows[day]);
    }
  }

  lemma SameRows(a: Store, b: Store)
    requires RowsAreSums(a) && RowsAreSums(b) && a.seen == b.seen
    ensures a.rows == b.rows
  {
    forall day ensures day in a.rows <==> day in b.rows
               ensures day in a.rows && day in b.rows ==> a.rows[day] == b.rows[day]
    {
      SameRow(a, b, day);
    }
  }

  /** Only which events were delivered matters: two deliveries of the same events, in any order and with any
      duplicates, give the same rows. */
  lemma DeliveryIrrelevant(a: seq<Application>, b: seq<Application>)
    requires Consistent(a)
    requires forall e :: e in a <==> e in b
    ensures ApplyAll(EMPTY_STORE, a) == ApplyAll(EMPTY_STORE, b)
  {
    assert Consistent(b) by {
      forall i, j | 0 <= i < |b| && 0 <= j < |b| && b[i].eid == b[j].eid ensures b[i].p == b[j].p {
        assert b[i] in a && b[j] in a;
      }
    }
    SeenExactly(a);
    SeenExactly(b);
    var x, y := ApplyAll(EMPTY_STORE, a), ApplyAll(EMPTY_STORE, b);
    forall e ensures e in x.seen <==> e in y.seen
             ensures e in x.seen ==> x.seen[e] == y.seen[e]
    {
      if i :| 0 <= i < |a| && a[i].eid == e { assert a[i] in b; }
      if i :| 0 <= i < |b| && b[i].eid == e { assert b[i] in a; }
    }
    ApplyAllIsSums(a);
    ApplyAllIsSums(b);
    SameRows(x, y);
  }

  // ----- totals over all days -----

  function RowShares(rows: Rows, f: Figure): map<Time, int> { map d | d in rows :: Get(rows[d], f) }

  function SeenShares(seen: map<nat, Payload>, f: Figure): map<nat, int> {
    map e | e in seen :: Get(Delta(seen[e].kind), f)
  }

  /** A figure summed over all days. */
  ghost function Total(rows: Rows, f: Figure): int { Sum(RowShares(rows, f)) }

  ghost predicate TotalsOk(st: Store) {
    forall f :: Total(st.rows, f) == Sum(SeenShares(st.seen, f))
  }

  lemma RowTotals(rows: Rows, day: Time, delta: Counts, f: Figure)
    ensures Total(rows[day := Add(RowAt(rows, day), delta)], f) == Total(rows, f) + Get(delta, f)
  {
    var row := Add(RowAt(rows, day), delta);
    GetAdd(RowAt(rows, day), delta, f);
    assert RowShares(rows[day := row], f) == RowShares(rows, f)[day := Get(row, f)];
    SumPut(RowShares(rows, f), day, Get(row, f));
  }

  lemma SeenPut(seen: map<nat, Payload>, eid: nat, p: Payload, f: Figure)
    requires eid !in seen
    ensures Sum(SeenShares(seen[eid := p], f)) == Sum(SeenShares(seen, f)) + Get(Delta(p.kind), f)
  {
    assert SeenShares(seen[eid := p], f) == SeenShares(seen, f)[eid := Get(Delta(p.kind), f)];
    SumPut(SeenShares(seen, f), eid, Get(Delta(p.kind), f));
  }

  lemma ApplyTotals(st: Store, eid: nat, p: Payload, f: Figure)
    requires eid !in st.seen
    ensures var st' := ApplyEvent(st, eid, p);
      && Total(st'.rows, f) == Total(st.rows, f) + Get(Delta(p.kind), f)
      && Sum(SeenShares(st'.seen, f)) == Sum(SeenShares(st.seen, f)) + Get(Delta(p.kind), f)
  {
    var st' := ApplyEvent(st, eid, p);
    RowTotals(st.rows, DayBucket(p.at), Delta(p.kind), f);
    SeenPut(st.seen, eid, p, f);
  }

  lemma ApplyKeepsTotals(st: Store, eid: nat, p: Payload)
    requires TotalsOk(st)
    ensures TotalsOk(ApplyEvent(st, eid, p))
  {
    if eid !in st.seen {
      forall f ensures Total(ApplyEvent(st, eid, p).rows, f) == Sum(SeenShares(ApplyEvent(st, eid, p).seen, f)) {
        ApplyTotals(st, eid, p, f);
      }
    }
  }
}
