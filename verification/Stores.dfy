/** The two implementations of the report's projection store, and how fresh each says it is. Both refine the one
    abstract store of Projection: they count an event the first time its id comes, and never again. */
module Stores {
  import opened Domain
  import opened Sums
  import opened Protocol
  import opened Projection

  /** The nanoseconds a duration can hold; longer differences saturate. */
  const LONGEST: int := 0x7fff_ffff_ffff_ffff

  /** The instant a store that has seen nothing carries. */
  const ZERO_TIME: Time := 0

  /** The time between two instants, saturating at the longest durations. */
  function Since(now: Time, then_: Time): int {
    var d := now - then_;
    if d > LONGEST then LONGEST else if d < -LONGEST - 1 then -LONGEST - 1 else d
  }

  // ----- the in-memory store -----

  /** One day's row, whose counters are incremented in place. */
  class Row {
    var ordersReceived: int
    var ordersAcknowledged: int
    var latencySum: int
    var latencyCount: int
    var rejectedUntranslatable: int
    var rejectedDomain: int
    var deadlinesMissed: int

    constructor ()
      ensures Value() == ZERO
    {
      ordersReceived, ordersAcknowledged, latencySum, latencyCount := 0, 0, 0, 0;
      rejectedUntranslatable, rejectedDomain, deadlinesMissed := 0, 0, 0;
    }

    function Value(): Counts
      reads this
    {
      Counts(ordersReceived, ordersAcknowledged, latencySum, latencyCount,
             rejectedUntranslatable, rejectedDomain, deadlinesMissed)
    }

    /** Counts one event of a kind; a refusal for a reason outside the known three counts nowhere. */
    method Count(k: Kind)
      modifies this
      ensures Value() == Add(old(Value()), Delta(k))
    {
      match k
      case Receipt => ordersReceived := ordersReceived + 1;
      case Acknowledgement(latency) =>
        ordersAcknowledged := ordersAcknowledged + 1;
        latencySum := latencySum + latency;
        latencyCount := latencyCount + 1;
      case Rejection(reason) =>
        if reason == "UNTRANSLATABLE_SKU" {
          rejectedUntranslatable := rejectedUntranslatable + 1;
        } else if reason == "INFEASIBLE_DEADLINE" {
          rejectedDomain := rejectedDomain + 1;
        } else if reason == "ACKNOWLEDGEMENT_DEADLINE_MISSED" {
          deadlinesMissed := deadlinesMissed + 1;
        }
    }
  }

  datatype ReportRow = ReportRow(day: Time, counts: Counts)

  /** The store's watermark: the latest instant among the applied events, as far as it is after the zero time. */
  ghost predicate IsWatermark(seen: map<nat, Payload>, latest: Time) {
    && ZERO_TIME <= latest
    && (forall e :: e in seen ==> seen[e].at <= latest)
    && (latest == ZERO_TIME || exists e :: e in seen && seen[e].at == latest)
  }

  /** The rows differ in one day, which has the increments on top of what it had. */
  ghost predicate Bumped(before: Rows, after: Rows, day: Time, delta: Counts) {
    && (forall d :: d in after <==> d in before || d == day)
    && after[day] == Add(RowAt(before, day), delta)
    && forall d :: d in before && d != day ==> after[d] == before[d]
  }

  /** The increments went to the row of the day the instant lies in, and to no other. */
  ghost predicate CountedOnItsDay(before: Rows, after: Rows, at: Time, delta: Counts) {
    exists day :: IsDayOf(day, at) && Bumped(before, after, day, delta)
  }

  lemma BumpedOnItsDay(before: Rows, after: Rows, at: Time, delta: Counts)
    requires Bumped(before, after, DayBucket(at), delta)
    ensures CountedOnItsDay(before, after, at, delta)
  {
    BucketIsDay(at, DayBucket(at));
  }

  lemma BumpedIsAdded(before: Rows, after: Rows, at: Time, delta: Counts)
    requires Bumped(before, after, DayBucket(at), delta)
    ensures after == AddTo(before, at, delta)
  {
    var added := AddTo(before, at, delta);
    assert forall d :: d in after <==> d in added;
    forall d | d in after ensures after[d] == added[d] {
      if d != DayBucket(at) { assert d in before; }
    }
  }

  /** The day had its row added first. */
  ghost predicate HasDay(before: Rows, after: Rows, day: Time) {
    && (forall d :: d in after <==> d in before || d == day)
    && after[day] == RowAt(before, day)
    && forall d :: d in before ==> after[d] == before[d]
  }

  lemma BumpedOn(before: Rows, mid: Rows, after: Rows, day: Time, delta: Counts)
    requires HasDay(before, mid, day) && Bumped(mid, after, day, delta)
    ensures Bumped(before, after, day, delta)
  {
  }

  /** A figure summed over the rows of a report. */
  function ReportTotal(out: seq<ReportRow>, f: Figure): int {
    if out == [] then 0 else ReportTotal(out[..|out| - 1], f) + Get(out[|out| - 1].counts, f)
  }

  function DaysOf(out: seq<ReportRow>): set<Time> { set x | x in out :: x.day }

  /** The report has exactly the rows of the range, each once. */
  ghost predicate Selects(rows: Rows, out: seq<ReportRow>, from: Time, to: Time) {
    && (forall x :: x in out <==> x.day in rows && from <= x.day < to && x.counts == rows[x.day])
    && (forall i, j :: 0 <= i < j < |out| ==> out[i].day != out[j].day)
  }

  lemma DaysSnoc(out: seq<ReportRow>)
    requires out != [] && forall i, j :: 0 <= i < j < |out| ==> out[i].day != out[j].day
    ensures var n := |out| - 1;
      DaysOf(out) == DaysOf(out[..n]) + {out[n].day} && out[n].day !in DaysOf(out[..n])
  {
    assert out == out[..|out| - 1] + [out[|out| - 1]];
  }

  lemma {:induction false} ReportSums(st: Store, out: seq<ReportRow>, f: Figure)
    requires RowsAreSums(st)
    requires forall x :: x in out ==> x.day in st.rows && x.counts == st.rows[x.day]
    requires forall i, j :: 0 <= i < j < |out| ==> out[i].day != out[j].day
    ensures ReportTotal(out, f) == Sum(DaysShares(st.seen, DaysOf(out), f))
  {
    if out == [] {
      assert DaysShares(st.seen, DaysOf(out), f) == map[];
    } else {
      var n := |out| - 1;
      ReportSums(st, out[..n], f);
      assert out[n] in out;
      KeyIsMidnight(st, out[n].day);
      DaysSnoc(out);
      OneMoreDay(st.seen, DaysOf(out[..n]), out[n].day, f);
    }
  }

  /** A report over whole days counts exactly the events whose instants lie in the range. */
  lemma ReportTells(st: Store, out: seq<ReportRow>, from: Time, to: Time, f: Figure)
    requires RowsAreSums(st) && Selects(st.rows, out, from, to)
    requires from % 86_400_000_000_000 == 0 && to % 86_400_000_000_000 == 0
    ensures ReportTotal(out, f) == Sum(RangeShares(st.seen, from, to, f))
  {
    ReportSums(st, out, f);
    forall day ensures day in DaysOf(out) <==> day in st.rows && from <= day < to {
      if day in st.rows && from <= day < to { assert ReportRow(day, st.rows[day]) in out; }
    }
    RangeOfDays(st, DaysOf(out), from, to, f);
  }

  /** An event is told of by a row of the report if, and only if, its instant lies in the range. */
  lemma EventReported(st: Store, out: seq<ReportRow>, from: Time, to: Time, e: nat)
    requires RowsAreSums(st) && Selects(st.rows, out, from, to) && e in st.seen
    requires from % 86_400_000_000_000 == 0 && to % 86_400_000_000_000 == 0
    ensures (exists x :: x in out && IsDayOf(x.day, st.seen[e].at)) <==> from <= st.seen[e].at < to
  {
    var at := st.seen[e].at;
    var day := DayBucket(at);
    BucketIsDay(at, day);
    WholeDays(from, to, at);
    assert HasEventOn(st.seen, day);
    if from <= at < to { assert ReportRow(day, st.rows[day]) in out; }
    if x :| x in out && IsDayOf(x.day, at) { BucketIsDay(at, x.day); }
  }

  class MemoryStore {
    var seen: set<nat>
    var rows: map<Time, Row>
    var latest: Time
    /** The payload each id was first applied with. */
    ghost var applied: map<nat, Payload>
    /** What the rows hold, and the row objects. */
    ghost var counts: Rows
    ghost var repr: set<Row>

    ghost predicate Valid()
      reads this, repr
    {
      && seen == applied.Keys
      && IsWatermark(applied, latest)
      && rows.Keys == counts.Keys
      && (forall d :: d in rows ==> rows[d] in repr && rows[d].Value() == counts[d])
      && (forall d, d' :: d in rows && d' in rows && d != d' ==> rows[d] != rows[d'])
    }

    ghost function Abstract(): Store
      reads this
    {
      Store(applied, counts)
    }

    /** The rows are the sums over the events applied. */
    ghost predicate Sound()
      reads this, repr
    {
      Valid() && RowsAreSums(Abstract())
    }

    constructor ()
      ensures Sound() && Abstract() == EMPTY_STORE && repr == {}
    {
      seen, rows, latest := {}, map[], ZERO_TIME;
      applied, counts, repr := map[], map[], {};
    }

    /** Notes the id and moves the watermark; false for an id noted before. */
    method FirstApply(eid: nat, p: Payload) returns (first: bool)
      requires Valid()
      modifies this`seen, this`latest, this`applied
      ensures Valid()
      ensures first <==> eid !in old(applied)
      ensures applied == if first then old(applied)[eid := p] else old(applied)
    {
      if eid in seen { return false; }
      seen := seen + {eid};
      if p.at > latest { latest := p.at; }
      ghost var before := applied;
      applied := applied[eid := p];
      assert latest != ZERO_TIME ==> exists e :: e in applied && applied[e].at == latest by {
        if latest != ZERO_TIME && latest == old(latest) {
          var e :| e in before && before[e].at == latest;
          assert e in applied && applied[e].at == latest;
        } else {
          assert eid in applied && applied[eid].at == p.at;
        }
      }
      return true;
    }

    /** A row for a day that has none. */
    method AddRow(day: Time) returns (ghost added: set<Row>)
      requires Valid() && day !in rows
      modifies this`rows, this`counts, this`repr
      ensures Valid() && fresh(added) && repr == old(repr) + added
      ensures day in rows && fresh(rows[day]) && HasDay(old(counts), counts, day)
    {
      var r := new Row();
      added := {r};
      rows := rows[day := r];
      counts, repr := counts[day := ZERO], repr + {r};
    }

    /** An event whose id is new is counted in the row of the day its instant lies in, and nowhere else. */
    method Mutate(eid: nat, at: Time, k: Kind)
      requires Sound()
      modifies this, repr
      ensures Sound() && fresh(repr - old(repr))
      ensures Abstract() == ApplyEvent(old(Abstract()), eid, Payload(k, at))
      ensures eid in old(applied) ==> counts == old(counts)
      ensures eid !in old(applied) ==> CountedOnItsDay(old(counts), counts, at, Delta(k))
    {
      ghost var before := Abstract();
      ApplyKeepsSums(before, eid, Payload(k, at));
      ApplySplits(before, eid, Payload(k, at));
      var first := FirstApply(eid, Payload(k, at));
      if !first { return; }
      var _ := CountOn(at, k);
    }

    /** Counts the event in the row of its day, which is added if the day has none. */
    method CountOn(at: Time, k: Kind) returns (ghost added: set<Row>)
      requires Valid()
      modifies this`rows, this`counts, this`repr, repr
      ensures Valid() && CountedOnItsDay(old(counts), counts, at, Delta(k))
      ensures counts == AddTo(old(counts), at, Delta(k))
      ensures fresh(added) && repr == old(repr) + added
    {
      var day := DayBucket(at);
      ghost var before := counts;
      added := {};
      if day !in rows { added := AddRow(day); }
      ghost var mid := counts;
      Increment(day, rows[day], k);
      BumpedOn(before, mid, counts, day, Delta(k));
      BumpedOnItsDay(before, counts, at, Delta(k));
      BumpedIsAdded(before, counts, at, Delta(k));
    }

    /** Counts the event in a row of the store; the other rows are other objects. */
    method Increment(ghost day: Time, r: Row, k: Kind)
      requires Valid() && day in rows && rows[day] == r
      modifies r, this`counts
      ensures Valid() && Bumped(old(counts), counts, day, Delta(k))
    {
      r.Count(k);
      counts := counts[day := r.Value()];
    }

    method ApplyNetworkOrderReceived(eid: nat, at: Time)
      requires Sound()
      modifies this, repr
      ensures Sound() && fresh(repr - old(repr))
      ensures Abstract() == ApplyEvent(old(Abstract()), eid, Payload(Receipt, at))
    {
      Mutate(eid, at, Receipt);
    }

    method ApplyNetworkOrderAcknowledged(eid: nat, at: Time, latency: int)
      requires Sound()
      modifies this, repr
      ensures Sound() && fresh(repr - old(repr))
      ensures Abstract() == ApplyEvent(old(Abstract()), eid, Payload(Acknowledgement(latency), at))
    {
      Mutate(eid, at, Acknowledgement(latency));
    }

    method ApplyNetworkOrderRejected(eid: nat, at: Time, reason: string)
      requires Sound()
      modifies this, repr
      ensures Sound() && fresh(repr - old(repr))
      ensures Abstract() == ApplyEvent(old(Abstract()), eid, Payload(Rejection(reason), at))
    {
      Mutate(eid, at, Rejection(reason));
    }

    /** Every row of a day in [from, to), each once. Over a range of whole days an event is in the report if, and
        only if, its instant lies in the range; and every figure adds up over exactly those events. */
    method Query(from: Time, to: Time) returns (out: seq<ReportRow>)
      requires Sound()
      ensures Selects(counts, out, from, to)
      ensures forall x, f :: x in out ==> Get(x.counts, f) == Sum(DayShares(applied, x.day, f))
      ensures from % 86_400_000_000_000 == 0 && to % 86_400_000_000_000 == 0 ==>
                && (forall f :: ReportTotal(out, f) == Sum(RangeShares(applied, from, to, f)))
                && (forall e :: e in applied ==>
                      ((exists x :: x in out && IsDayOf(x.day, applied[e].at)) <==> from <= applied[e].at < to))
    {
      out := SelectRows(from, to);
      if from % 86_400_000_000_000 == 0 && to % 86_400_000_000_000 == 0 {
        forall f ensures ReportTotal(out, f) == Sum(RangeShares(applied, from, to, f)) {
          ReportTells(Abstract(), out, from, to, f);
        }
        forall e | e in applied
          ensures (exists x :: x in out && IsDayOf(x.day, applied[e].at)) <==> from <= applied[e].at < to
        {
          EventReported(Abstract(), out, from, to, e);
        }
      }
    }

    /** The loop over the rows. */
    method SelectRows(from: Time, to: Time) returns (out: seq<ReportRow>)
      requires Valid()
      ensures Selects(counts, out, from, to)
    {
      out := [];
      var todo := rows.Items;
      while todo != {}
        invariant todo <= rows.Items
        invariant forall x :: x in out <==>
                    && x.day in rows && (x.day, rows[x.day]) !in todo
                    && from <= x.day < to && x.counts == counts[x.day]
        invariant forall i, j :: 0 <= i < j < |out| ==> out[i].day != out[j].day
        decreases todo
      {
        var item :| item in todo;
        todo := todo - {item};
        var (k, r) := item;
        if !(k < from || !(k < to)) {
          forall i | 0 <= i < |out| ensures out[i].day != k {
            assert out[i] in out;
          }
          out := out + [ReportRow(k, r.Value())];
        }
      }
    }

    /** How far now is behind the latest applied instant; zero when nothing was applied, when the latest instant
        is not after the zero time, and when it is in the future. */
    method FreshnessLag(now: Time) returns (lag: int)
      requires Valid()
      ensures 0 <= lag <= LONGEST
      ensures applied == map[] ==> lag == 0
      ensures forall newest :: IsNewest(applied, newest) ==> lag == MemoryLag(newest, now)
    {
      forall newest | IsNewest(applied, newest)
        ensures latest == if newest.Some? && newest.value > ZERO_TIME then newest.value else ZERO_TIME
      {
        WatermarkIsNewest(applied, latest, newest);
      }
      if latest == ZERO_TIME { return 0; }
      lag := Since(now, latest);
      if lag < 0 { return 0; }
    }
  }

  // ----- the Postgres store -----

  lemma ApplySplits(st: Store, eid: nat, p: Payload)
    ensures eid in st.seen ==> ApplyEvent(st, eid, p) == st
    ensures eid !in st.seen ==> ApplyEvent(st, eid, p) == Store(st.seen[eid := p], AddTo(st.rows, p.at, Delta(p.kind)))
  {
  }

  /** The writer's tables and the transaction it has open. */
  class PostgresProjection {
    /** Whether no statement and no commit fails. */
    const reliable: bool
    var processed: map<nat, Time>
    var rollup: Rows
    var txProcessed: map<nat, Time>
    var txRollup: Rows
    /** The payload each processed id was first applied with. */
    ghost var applied: map<nat, Payload>

    ghost predicate Valid()
      reads this
    {
      processed.Keys == applied.Keys && forall e :: e in applied ==> processed[e] == applied[e].at
    }

    ghost function Abstract(): Store
      reads this
    {
      Store(applied, rollup)
    }

    constructor (reliable: bool)
      ensures Valid() && Abstract() == EMPTY_STORE && this.reliable == reliable
    {
      this.reliable := reliable;
      processed, rollup, txProcessed, txRollup, applied := map[], map[], map[], map[], map[];
    }

    /** Inserts the id unless it is there; says whether it was new. */
    method Claim(eid: nat, at: Time) returns (r: Result<bool>)
      modifies this`txProcessed
      ensures match r
        case Err(_) => txProcessed == old(txProcessed)
        case Ok(isNew) =>
          && (isNew <==> eid !in old(txProcessed))
          && txProcessed == if isNew then old(txProcessed)[eid := at] else old(txProcessed)
      ensures reliable ==> r.Ok?
    {
      var ok: bool := *;
      if !ok && !reliable { return Err(PortFailure); }
      var isNew := eid !in txProcessed;
      if isNew { txProcessed := txProcessed[eid := at]; }
      return Ok(isNew);
    }

    /** Adds the increments to the day's row, inserting it if it is not there. */
    method UpsertRollup(at: Time, delta: Counts) returns (ok: bool)
      modifies this`txRollup
      ensures ok ==> CountedOnItsDay(old(txRollup), txRollup, at, delta)
      ensures txRollup == if ok then AddTo(old(txRollup), at, delta) else old(txRollup)
      ensures reliable ==> ok
    {
      ok := *;
      ok := ok || reliable;
      if !ok { return; }
      var bucket := DayBucket(at);
      if bucket !in txRollup {
        txRollup := txRollup[bucket := delta];
        assert Add(ZERO, delta) == delta;
      } else {
        txRollup := txRollup[bucket := Add(txRollup[bucket], delta)];
      }
      BumpedOnItsDay(old(txRollup), txRollup, at, delta);
    }

    /** The statements of one transaction: the claim and, for a new id, the increments. */
    method ClaimAndAdd(eid: nat, at: Time, delta: Counts) returns (r: Result<bool>)
      modifies this`txProcessed, this`txRollup
      ensures r.Ok? ==> (r.value <==> eid !in old(txProcessed))
      ensures r.Ok? ==> txProcessed == if r.value then old(txProcessed)[eid := at] else old(txProcessed)
      ensures r.Ok? ==> txRollup == if r.value then AddTo(old(txRollup), at, delta) else old(txRollup)
      ensures reliable ==> r.Ok?
    {
      r := Claim(eid, at);
      if r.Err? || !r.value { return; }
      var upserted := UpsertRollup(at, delta);
      if !upserted { return Err(PortFailure); }
    }

    /** Claims the id and, if it was new, adds the increments, all in one transaction. Any statement may fail,
        and the commit may take effect and still be reported as failed. */
    method Apply(eid: nat, at: Time, delta: Counts, ghost k: Kind) returns (ok: bool)
      requires Valid() && delta == Delta(k)
      modifies this
      ensures Valid()
      ensures ok ==> Abstract() == ApplyEvent(old(Abstract()), eid, Payload(k, at))
      ensures !ok ==> Abstract() == old(Abstract()) || Abstract() == ApplyEvent(old(Abstract()), eid, Payload(k, at))
      ensures reliable ==> ok
    {
      var begun: bool := *;
      if !begun && !reliable { return false; }
      txProcessed, txRollup := processed, rollup;
      var claimed := ClaimAndAdd(eid, at, delta);
      if claimed.Err? { return false; }
      var out: Outcome := *;
      if reliable { out := Done; }
      ghost var before := Abstract();
      ApplySplits(before, eid, Payload(k, at));
      if out.Effective() {
        Land(claimed.value, eid, Payload(k, at));
        assert Abstract() == ApplyEvent(before, eid, Payload(k, at));
      }
      return out.Done?;
    }

    /** The transaction's tables become the durable ones. */
    method Land(isNew: bool, eid: nat, ghost p: Payload)
      requires Valid() && (isNew <==> eid !in applied)
      requires txProcessed == if isNew then processed[eid := p.at] else processed
      modifies this`processed, this`rollup, this`applied
      ensures Valid() && Abstract() == Store(if isNew then old(applied)[eid := p] else old(applied), txRollup)
    {
      processed, rollup := txProcessed, txRollup;
      if isNew { applied := applied[eid := p]; }
    }

    method ApplyNetworkOrderReceived(eid: nat, at: Time) returns (ok: bool)
      requires Valid()
      modifies this
      ensures Valid()
      ensures ok ==> Abstract() == ApplyEvent(old(Abstract()), eid, Payload(Receipt, at))
      ensures !ok ==>
                || Abstract() == old(Abstract())
                || Abstract() == ApplyEvent(old(Abstract()), eid, Payload(Receipt, at))
      ensures reliable ==> ok
    {
      ok := Apply(eid, at, ZERO.(received := 1), Receipt);
    }

    method ApplyNetworkOrderAcknowledged(eid: nat, at: Time, latency: int) returns (ok: bool)
      requires Valid()
      modifies this
      ensures Valid()
      ensures ok ==> Abstract() == ApplyEvent(old(Abstract()), eid, Payload(Acknowledgement(latency), at))
      ensures !ok ==>
                || Abstract() == old(Abstract())
                || Abstract() == ApplyEvent(old(Abstract()), eid, Payload(Acknowledgement(latency), at))
      ensures reliable ==> ok
    {
      var delta := ZERO.(acknowledged := 1, latencySum := latency, latencyCount := 1);
      ok := Apply(eid, at, delta, Acknowledgement(latency));
    }

    method ApplyNetworkOrderRejected(eid: nat, at: Time, reason: string) returns (ok: bool)
      requires Valid()
      modifies this
      ensures Valid()
      ensures ok ==> Abstract() == ApplyEvent(old(Abstract()), eid, Payload(Rejection(reason), at))
      ensures !ok ==>
                || Abstract() == old(Abstract())
                || Abstract() == ApplyEvent(old(Abstract()), eid, Payload(Rejection(reason), at))
      ensures reliable ==> ok
    {
      var delta := ZERO;
      if reason == "UNTRANSLATABLE_SKU" {
        delta := delta.(untranslatable := 1);
      } else if reason == "INFEASIBLE_DEADLINE" {
        delta := delta.(domain := 1);
      } else if reason == "ACKNOWLEDGEMENT_DEADLINE_MISSED" {
        delta := delta.(missed := 1);
      }
      ok := Apply(eid, at, delta, Rejection(reason));
    }

    /** The maximum of the processed instants, if there is any. */
    method MaxOccurredAt() returns (latest: Option<Time>)
      requires Valid()
      ensures IsNewest(applied, latest)
    {
      latest := None;
      var todo := processed.Keys;
      while todo != {}
        invariant todo <= processed.Keys
        invariant latest.None? <==> processed.Keys - todo == {}
        invariant latest.Some? ==> exists e :: e in processed.Keys - todo && processed[e] == latest.value
        invariant forall e :: e in processed.Keys - todo ==> processed[e] <= latest.value
        decreases todo
      {
        var e :| e in todo;
        todo := todo - {e};
        assert e in processed.Keys - todo;
        if latest.None? || processed[e] > latest.value { latest := Some(processed[e]); }
      }
      assert processed.Keys - todo == applied.Keys;
    }

    /** How far now is behind the latest processed instant; zero when nothing was processed, when the latest
        instant is the zero time, and when it is in the future. The query may fail. */
    method FreshnessLag(now: Time) returns (r: Result<int>)
      requires Valid()
      ensures r.Ok? ==> 0 <= r.value <= LONGEST
      ensures r.Ok? && applied == map[] ==> r.value == 0
      ensures r.Ok? ==> forall newest :: IsNewest(applied, newest) ==> r.value == PostgresLag(newest, now)
      ensures reliable ==> r.Ok?
    {
      var ok: bool := *;
      if !ok && !reliable { return Err(PortFailure); }
      var latest := MaxOccurredAt();
      forall newest | IsNewest(applied, newest) ensures newest == latest {
        NewestUnique(applied, newest, latest);
      }
      if latest.None? || latest.value == ZERO_TIME { return Ok(0); }
      var lag := Since(now, latest.value);
      if lag < 0 { return Ok(0); }
      return Ok(lag);
    }
  }

  /** The consumer's own dedupe set. */
  class ConsumedEventsRepo {
    /** Whether no statement fails. */
    const reliable: bool
    var consumed: set<nat>

    constructor (reliable: bool)
      ensures consumed == {} && this.reliable == reliable
    {
      this.reliable := reliable;
      consumed := {};
    }

    /** True exactly for the call that records the id; a failing call records nothing. */
    method MarkProcessed(eid: nat) returns (r: Result<bool>)
      modifies this
      ensures match r
        case Err(_) => consumed == old(consumed)
        case Ok(isNew) => (isNew <==> eid !in old(consumed)) && consumed == old(consumed) + {eid}
      ensures reliable ==> r.Ok?
    {
      var ok: bool := *;
      if !ok && !reliable { return Err(PortFailure); }
      var isNew := eid !in consumed;
      if isNew { consumed := consumed + {eid}; }
      return Ok(isNew);
    }
  }

  // ----- freshness -----

  /** How far now is behind an instant, at most as long as a duration can be. */
  function Behind(now: Time, t: Time): int {
    if now <= t then 0 else if now - t > LONGEST then LONGEST else now - t
  }

  /** The lag the in-memory store reports for the latest applied instant. */
  function MemoryLag(newest: Option<Time>, now: Time): int {
    if newest.Some? && newest.value > ZERO_TIME then Behind(now, newest.value) else 0
  }

  /** The lag the Postgres store reports for it. */
  function PostgresLag(newest: Option<Time>, now: Time): int {
    if newest.Some? && newest.value != ZERO_TIME then Behind(now, newest.value) else 0
  }

  /** The latest instant among the applied events; none when there are none. */
  ghost predicate IsNewest(seen: map<nat, Payload>, newest: Option<Time>) {
    match newest
    case None => seen == map[]
    case Some(t) => (exists e :: e in seen && seen[e].at == t) && forall e :: e in seen ==> seen[e].at <= t
  }

  lemma NewestUnique(seen: map<nat, Payload>, a: Option<Time>, b: Option<Time>)
    requires IsNewest(seen, a) && IsNewest(seen, b)
    ensures a == b
  {
    if a.Some? && b.Some? {
      var e :| e in seen && seen[e].at == a.value;
      var e' :| e' in seen && seen[e'].at == b.value;
    }
  }

  /** Once an event after the zero time was applied, the in-memory watermark is the latest instant applied. */
  lemma WatermarkIsNewest(seen: map<nat, Payload>, latest: Time, newest: Option<Time>)
    requires IsWatermark(seen, latest) && IsNewest(seen, newest)
    ensures latest == if newest.Some? && newest.value > ZERO_TIME then newest.value else ZERO_TIME
  {
    if latest != ZERO_TIME {
      var e :| e in seen && seen[e].at == latest;
    }
    if newest.Some? {
      var e :| e in seen && seen[e].at == newest.value;
    }
  }

  /** There always is a latest instant, or there is no event. */
  lemma {:induction false} NewestExists(seen: map<nat, Payload>) returns (newest: Option<Time>)
    ensures IsNewest(seen, newest)
    decreases |seen|
  {
    if seen == map[] {
      newest := None;
    } else {
      var e :| e in seen;
      var rest := seen - {e};
      newest := NewestExists(rest);
      assert forall x :: x in seen ==> x == e || (x in rest && rest[x] == seen[x]);
      if newest.None? || newest.value <= seen[e].at {
        newest := Some(seen[e].at);
      } else {
        var x :| x in rest && rest[x].at == newest.value;
        assert x in seen && seen[x].at == newest.value;
      }
    }
  }

  /** Two stores that applied the same events report the same lag, unless every event is from before the zero
      time and that is past: the in-memory store, whose watermark starts at the zero time, then still says 0. */
  lemma LagsAgree(seen: map<nat, Payload>, newest: Option<Time>, now: Time)
    requires IsNewest(seen, newest)
    ensures MemoryLag(newest, now) == PostgresLag(newest, now) <==>
            newest.None? || newest.value >= ZERO_TIME || now <= newest.value
  {
  }

  // ----- any list of calls, with failures and retries -----

  /** The calls that took effect. */
  function Effective(es: seq<Application>, outs: seq<Outcome>): seq<Application>
    requires |es| == |outs|
  {
    if es == [] then []
    else
      var n := |es| - 1;
      Effective(es[..n], outs[..n]) + (if outs[n].Effective() then [es[n]] else [])
  }

  lemma {:induction false} EffectiveMembers(es: seq<Application>, outs: seq<Outcome>, a: Application)
    requires |es| == |outs|
    ensures a in Effective(es, outs) <==> exists i :: 0 <= i < |es| && es[i] == a && outs[i].Effective()
  {
    if es != [] {
      var n := |es| - 1;
      EffectiveMembers(es[..n], outs[..n], a);
      if i :| 0 <= i < n && es[..n][i] == a && outs[..n][i].Effective() {
        assert es[i] == a && outs[i].Effective();
      }
      if i :| 0 <= i < |es| && es[i] == a && outs[i].Effective() {
        if i < n { assert es[..n][i] == a && outs[..n][i].Effective(); }
      }
    }
  }

  /** However calls fail, before or after their effect, a store whose every event got through at least once holds
      what one that never failed holds. */
  lemma RetriesConverge(es: seq<Application>, outs: seq<Outcome>)
    requires |es| == |outs| && Consistent(es)
    requires forall i :: 0 <= i < |es| ==> exists j :: 0 <= j < |es| && es[j] == es[i] && outs[j].Effective()
    ensures ApplyAll(EMPTY_STORE, Effective(es, outs)) == ApplyAll(EMPTY_STORE, es)
  {
    forall a ensures a in es <==> a in Effective(es, outs) {
      EffectiveMembers(es, outs, a);
    }
    DeliveryIrrelevant(es, Effective(es, outs));
  }
}
