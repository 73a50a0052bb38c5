/** The analytics consumer's code: handling one message on the running system. */
module ConsumerWorker {
  import opened Domain
  import opened Protocol
  import opened Projection
  import opened Consumer
  import opened Tallies
  import opened Pipeline
  import opened World

  /** After failed attempts the consumer is where it was, except that the write may have had its effect; after
      the last one, or when it gave up, the message is up for the dead-letter topic. */
  predicate Tried(c: ConsumerState, c': ConsumerState, m: Msg, tries: nat, gaveUp: bool)
    requires m.Recognized? && c.call.Applying?
  {
    && c'.store in {c.store, ApplyEvent(c.store, m.eid, m.p)}
    && c' == c.(store := c'.store, failures := c.failures + tries,
                call := if tries < MAX_ATTEMPTS && !gaveUp then Applying(c.call.pos, m, tries)
                        else Burying(c.call.pos, m, true))
  }

  /** The rows are as before, or changed by exactly this event, if it is one. */
  predicate MayApply(store: Store, store': Store, m: Msg) {
    store' == store || (m.Recognized? && store' == ApplyEvent(store, m.eid, m.p))
  }

  lemma AppliedOnce(store: Store, store': Store, eid: nat, p: Payload)
    requires store' == store || store' == ApplyEvent(store, eid, p)
    ensures ApplyEvent(store', eid, p) == ApplyEvent(store, eid, p)
  {
  }

  lemma TriedAgain(c: ConsumerState, c': ConsumerState, m: Msg, tries: nat, out: Outcome, giveUp: bool)
    requires m.Recognized? && c.call.Applying? && tries < MAX_ATTEMPTS && Tried(c, c', m, tries, false)
    ensures var next := AfterApply(c', out, giveUp);
      if out.Done? then
        next == c.(store := ApplyEvent(c.store, m.eid, m.p), failures := c.failures + tries,
                   call := Settling(c.call.pos, m, true, Applied))
      else Tried(c, next, m, tries + 1, giveUp)
  {
    AppliedOnce(c.store, c'.store, m.eid, m.p);
  }

  /** The topic's reader: it gives the position of some message, or fails. */
  class Reader {
    const w: Runtime
    /** What it gave, oldest first. */
    ghost var given: seq<Option<nat>>

    constructor (w: Runtime)
      ensures this.w == w && given == []
    {
      this.w, given := w, [];
    }

    method FetchMessage() returns (r: Option<nat>)
      requires w.Valid()
      modifies w, this
      ensures w.Valid() && old(w.trace) <= w.trace && Kept(Projector, old(w.s), w.s)
      ensures r.Some? ==> r.value < |Wire(w.s.r.log)|
      ensures given == old(given) + [r]
    {
      w.Interfere(Projector);
      var pos: nat := *;
      r := if pos < |Wire(w.s.r.log)| then Some(pos) else None;
      given := given + [r];
    }
  }

  class AnalyticsConsumer {
    const w: Runtime
    const reader: Reader

    constructor (reader: Reader)
      ensures this.reader == reader && this.w == reader.w
    {
      this.w, this.reader := reader.w, reader;
    }

    /** Messages are handled until the reader fails or a message's handling does; `budget` bounds how many. Every
        message fetched before that one is done with, so no message blocks those behind it; and when nothing fails,
        nothing but the reader ends the loop before the budget is used up. */
    method Consume(budget: nat) returns (failed: bool, ghost fetched: seq<nat>)
      requires w.Valid() && w.s.c.call.Waiting? && reader.w == w
      modifies w, reader
      ensures w.Valid() && old(w.trace) <= w.trace && w.s.c.call.Waiting?
      ensures old(w.s.c.handled) <= w.s.c.handled
      ensures if failed then |fetched| < budget else |fetched| == budget
      ensures forall pos :: pos in fetched ==> pos in w.s.c.handled
      ensures old(reader.given) <= reader.given
      ensures |reader.given| == |old(reader.given)| + |fetched| + (if failed then 1 else 0)
      ensures forall i :: 0 <= i < |fetched| ==> reader.given[|old(reader.given)| + i] == Some(fetched[i])
      ensures w.calm && failed ==> reader.given[|old(reader.given)| + |fetched|] == None
    {
      fetched := [];
      for i := 0 to budget
        invariant w.Valid() && old(w.trace) <= w.trace && w.s.c.call.Waiting?
        invariant old(w.s.c.handled) <= w.s.c.handled
        invariant |fetched| == i && forall pos :: pos in fetched ==> pos in w.s.c.handled
        invariant old(reader.given) <= reader.given && |reader.given| == |old(reader.given)| + i
        invariant forall j :: 0 <= j < i ==> reader.given[|old(reader.given)| + j] == Some(fetched[j])
      {
        var msg := reader.FetchMessage();
        if msg.None? { return true, fetched; }
        var ok, _ := HandleMessage(msg.value);
        if !ok { return true, fetched; }
        fetched := fetched + [msg.value];
      }
      return false, fetched;
    }

    /** Handles the message at one position. When it succeeds, the message was of a type we ignore, or was
        marked before this call, or was marked by this call and its effect is in the rows, or is on the
        dead-letter topic; and its position is done with. Whatever happens, the rows are as before but for the
        effect of this one event; unless somebody told it to stop, it buries an event only after three failed
        attempts; and when nothing fails, the call succeeds and buries no event. */
    method HandleMessage(pos: nat) returns (ok: bool, verdict: Verdict)
      requires w.Valid() && w.s.c.call.Waiting? && pos < |Wire(w.s.r.log)|
      modifies w
      ensures w.Valid() && old(w.trace) <= w.trace && w.s.c.call.Waiting?
      ensures old(w.s.c.handled) <= w.s.c.handled
      ensures ok ==> pos in w.s.c.handled && VerdictHolds(w.s.c, old(Wire(w.s.r.log)[pos]), verdict)
      ensures ok && verdict == AlreadyMarked ==>
                old(Wire(w.s.r.log)[pos]).eid in old(w.s.c.marked) && w.s.c.store == old(w.s.c.store)
      ensures ok && verdict == Applied ==>
                var m := old(Wire(w.s.r.log)[pos]);
                m.eid !in old(w.s.c.marked) && w.s.c.store == ApplyEvent(old(w.s.c.store), m.eid, m.p)
      ensures ok && verdict == Unrecognized ==> w.s.c.store == old(w.s.c.store)
      ensures MayApply(old(w.s.c.store), w.s.c.store, old(Wire(w.s.r.log)[pos]))
      ensures ok && verdict == DeadLettered && w.patient && old(Wire(w.s.r.log)[pos]).Recognized? ==>
                w.s.c.failures >= old(w.s.c.failures) + 3
      ensures w.calm ==> ok && (verdict == DeadLettered ==> old(Wire(w.s.r.log)[pos]).NotCloudEvent?)
    {
      var m := Wire(w.s.r.log)[pos];
      w.Do(OfConsumer(Fetch(pos)));
      if m.NotCloudEvent? {
        ok := DeadLetter(m);
        return ok, DeadLettered;
      }
      if m.OtherType? {
        ok := CommitOffset();
        return ok, Unrecognized;
      }
      var marked, isNew := MarkProcessedWithRetry(m);
      if !marked {
        ok := DeadLetter(m);
        return ok, DeadLettered;
      }
      if !isNew {
        ok := CommitOffset();
        return ok, AlreadyMarked;
      }
      var applied := ApplyWithRetry(m);
      if !applied {
        ok := DeadLetter(m);
        return ok, DeadLettered;
      }
      ok := CommitOffset();
      verdict := Applied;
    }

    /** The consume gate, tried up to three times; an attempt that fails marks nothing. */
    method MarkProcessedWithRetry(m: Msg) returns (ok: bool, isNew: bool)
      requires w.Valid() && m.Recognized? && w.s.c.call.Marking? && w.s.c.call.m == m && w.s.c.call.tries == 0
      modifies w
      ensures w.Valid() && old(w.trace) <= w.trace
      ensures isNew ==> ok
      ensures var c, pos := old(w.s.c), old(w.s.c.call.pos);
        var tried := c.(failures := w.s.c.failures);
        w.s.c == if !ok then tried.(call := Burying(pos, m, false))
                 else if isNew then tried.(marked := c.marked + {m.eid}, call := Applying(pos, m, 0))
                 else tried.(call := Settling(pos, m, false, AlreadyMarked))
      ensures old(w.s.c.failures) <= w.s.c.failures <= old(w.s.c.failures) + (if ok then 2 else 3)
      ensures !ok && w.patient ==> w.s.c.failures == old(w.s.c.failures) + 3
      ensures ok ==> (isNew <==> m.eid !in old(w.s.c.marked))
      ensures w.calm ==> ok
    {
      var tries := 0;
      while tries < MAX_ATTEMPTS
        invariant 0 <= tries <= MAX_ATTEMPTS && (w.calm ==> tries == 0)
        invariant w.Valid() && old(w.trace) <= w.trace
        invariant w.s.c == old(w.s.c).(failures := old(w.s.c.failures) + tries,
                                       call := if tries < MAX_ATTEMPTS then Marking(old(w.s.c.call.pos), m, tries)
                                               else Burying(old(w.s.c.call.pos), m, false))
      {
        w.Interfere(Projector);
        var marks: bool := *;
        marks := marks || w.calm;
        var giveUp: bool := *;
        giveUp := giveUp && !w.patient;
        isNew := m.eid !in w.s.c.marked;
        w.Do(OfConsumer(CallMark(marks, giveUp)));
        if marks { return true, isNew; }
        if giveUp { return false, false; }
        tries := tries + 1;
      }
      return false, false;
    }

    /** The projection write, tried up to three times; a failed attempt may have had its effect. */
    method ApplyWithRetry(m: Msg) returns (ok: bool)
      requires w.Valid() && m.Recognized? && w.s.c.call.Applying? && w.s.c.call.m == m && w.s.c.call.tries == 0
      modifies w
      ensures w.Valid() && old(w.trace) <= w.trace
      ensures var c, pos := old(w.s.c), old(w.s.c.call.pos);
        var applied := ApplyEvent(c.store, m.eid, m.p);
        var tried := c.(failures := w.s.c.failures);
        if ok then w.s.c == tried.(store := applied, call := Settling(pos, m, true, Applied))
        else
          || w.s.c == tried.(call := Burying(pos, m, true))
          || w.s.c == tried.(store := applied, call := Burying(pos, m, true))
      ensures old(w.s.c.failures) <= w.s.c.failures <= old(w.s.c.failures) + (if ok then 2 else 3)
      ensures !ok && w.patient ==> w.s.c.failures == old(w.s.c.failures) + 3
      ensures w.calm ==> ok
    {
      var tries := 0;
      while tries < MAX_ATTEMPTS
        invariant 0 <= tries <= MAX_ATTEMPTS && (w.calm ==> tries == 0)
        invariant w.Valid() && old(w.trace) <= w.trace
        invariant Tried(old(w.s.c), w.s.c, m, tries, false)
      {
        var giveUp;
        ok, giveUp := TryApply(m, tries, old(w.s.c));
        if ok { return true; }
        if giveUp { return false; }
        tries := tries + 1;
      }
      return false;
    }

    /** One attempt of the projection write. */
    method TryApply(m: Msg, tries: nat, ghost c: ConsumerState) returns (ok: bool, giveUp: bool)
      requires w.Valid() && m.Recognized? && c.call.Applying? && tries < MAX_ATTEMPTS
      requires Tried(c, w.s.c, m, tries, false)
      modifies w
      ensures w.Valid() && old(w.trace) <= w.trace
      ensures if ok then
                w.s.c == c.(store := ApplyEvent(c.store, m.eid, m.p), failures := c.failures + tries,
                            call := Settling(c.call.pos, m, true, Applied))
              else Tried(c, w.s.c, m, tries + 1, giveUp)
      ensures w.patient ==> !giveUp
      ensures w.calm ==> ok
    {
      w.Interfere(Projector);
      var out: Outcome := *;
      if w.calm { out := Done; }
      giveUp := *;
      giveUp := giveUp && !w.patient;
      TriedAgain(c, w.s.c, m, tries, out, giveUp);
      w.Do(OfConsumer(CallApply(out, giveUp)));
      ok := out.Done?;
    }

    /** Publishes the message to the dead-letter topic and commits past it. */
    method DeadLetter(m: Msg) returns (ok: bool)
      requires w.Valid() && w.s.c.call.Burying? && w.s.c.call.m == m
      modifies w
      ensures w.Valid() && old(w.trace) <= w.trace && w.s.c.call.Waiting?
      ensures old(w.s.c.handled) <= w.s.c.handled
      ensures ok ==> old(w.s.c.call.pos) in w.s.c.handled && m in w.s.c.dead
      ensures w.s.c.store == old(w.s.c.store) && w.s.c.failures == old(w.s.c.failures)
      ensures w.calm ==> ok
    {
      w.Interfere(Projector);
      var out: Outcome := *;
      if w.calm { out := Done; }
      w.Do(OfConsumer(CallBury(out)));
      if !out.Done? { return false; }
      ok := CommitOffset();
    }

    method CommitOffset() returns (ok: bool)
      requires w.Valid() && w.s.c.call.Settling?
      modifies w
      ensures w.Valid() && old(w.trace) <= w.trace && w.s.c.call.Waiting?
      ensures w.s.c.handled == old(w.s.c.handled) + (if ok then {old(w.s.c.call.pos)} else {})
      ensures w.s.c.failures == old(w.s.c.failures)
      ensures w.s.c.store == old(w.s.c.store) && w.s.c.marked == old(w.s.c.marked) && w.s.c.dead == old(w.s.c.dead)
      ensures w.calm ==> ok
    {
      w.Interfere(Projector);
      ok := *;
      ok := ok || w.calm;
      w.Do(OfConsumer(Consumer.CommitOffset(ok)));
    }
  }
}
