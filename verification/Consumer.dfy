/** The analytics consumer as a transition system. Each message is handled by one call: a consume gate that is
    retried, then a projection write that is retried, then the dead-letter topic if either runs out. Messages are
    fetched again after failures and restarts; no order of positions is relied on. */
module Consumer {
  import opened Protocol
  import opened Projection

  datatype Msg =
    | NotCloudEvent
    | OtherType(eid: nat)
    | Recognized(eid: nat, p: Payload)

  const MAX_ATTEMPTS := 3

  /** How a call that returned nil disposed of its message. */
  datatype Verdict = Unrecognized | AlreadyMarked | Applied | DeadLettered

  /** Where the call in progress stands; `newly` says this call is the one that marked the event. */
  datatype Call =
    | Waiting
    | Marking(pos: nat, m: Msg, tries: nat)
    | Applying(pos: nat, m: Msg, tries: nat)
    | Burying(pos: nat, m: Msg, newly: bool)
    | Settling(pos: nat, m: Msg, newly: bool, verdict: Verdict)

  /** `handled` are the positions some call returned nil for; `unfinished` the ids whose newly marking call
      ended in an error or was lost; `failures` counts the attempts at marking and writing that failed. */
  datatype ConsumerState = ConsumerState(
    marked: set<nat>, store: Store, dead: set<Msg>, handled: set<nat>, unfinished: set<nat>, failures: nat, call: Call)

  const INITIAL_CONSUMER := ConsumerState({}, EMPTY_STORE, {}, {}, {}, 0, Waiting)

  datatype ConsumerAction =
    | Fetch(pos: nat)
    | CallMark(ok: bool, giveUp: bool)
    | CallApply(out: Outcome, giveUp: bool)
    | CallBury(out: Outcome)
    | CommitOffset(ok: bool)
    | LoseCall

  predicate ConsumerEnabled(topic: seq<Msg>, c: ConsumerState, a: ConsumerAction) {
    match a
    case Fetch(pos) => c.call.Waiting? && pos < |topic|
    case CallMark(_, _) => c.call.Marking? && c.call.m.Recognized?
    case CallApply(_, _) => c.call.Applying? && c.call.m.Recognized?
    case CallBury(_) => c.call.Burying?
    case CommitOffset(_) => c.call.Settling?
    case LoseCall => true
  }

  predicate Newly(call: Call) {
    match call
    case Applying(_, m, _) => m.Recognized?
    case Burying(_, m, newly) => newly && m.Recognized?
    case Settling(_, m, newly, _) => newly && m.Recognized?
    case _ => false
  }

  /** The call ends without returning nil. */
  function Abandon(c: ConsumerState): ConsumerState {
    c.(unfinished := if Newly(c.call) then c.unfinished + {c.call.m.eid} else c.unfinished, call := Waiting)
  }

  /** One attempt of the projection write; a failed one may have had its effect. */
  function AfterApply(c: ConsumerState, out: Outcome, giveUp: bool): ConsumerState
    requires c.call.Applying? && c.call.m.Recognized?
  {
    var m, tries := c.call.m, c.call.tries + 1;
    var store := if out.Effective() then ApplyEvent(c.store, m.eid, m.p) else c.store;
    var call :=
      if out.Done? then Settling(c.call.pos, m, true, Applied)
      else if tries >= MAX_ATTEMPTS || giveUp then Burying(c.call.pos, m, true)
      else Applying(c.call.pos, m, tries);
    c.(store := store, failures := c.failures + (if out.Done? then 0 else 1), call := call)
  }

  function ConsumerApply(topic: seq<Msg>, c: ConsumerState, a: ConsumerAction): ConsumerState
    requires ConsumerEnabled(topic, c, a)
  {
    match a
    case Fetch(pos) =>
      (match topic[pos]
       case NotCloudEvent => c.(call := Burying(pos, NotCloudEvent, false))
       case OtherType(eid) => c.(call := Settling(pos, topic[pos], false, Unrecognized))
       case Recognized(_, _) => c.(call := Marking(pos, topic[pos], 0)))
    case CallMark(ok, giveUp) =>
      var m, tries := c.call.m, c.call.tries + 1;
      if !ok then
        c.(failures := c.failures + 1,
           call := if tries >= MAX_ATTEMPTS || giveUp then Burying(c.call.pos, m, false)
                   else Marking(c.call.pos, m, tries))
      else if m.eid in c.marked then c.(call := Settling(c.call.pos, m, false, AlreadyMarked))
      else c.(marked := c.marked + {m.eid}, call := Applying(c.call.pos, m, 0))
    case CallApply(out, giveUp) => AfterApply(c, out, giveUp)
    case CallBury(out) =>
      var c1 := if out.Effective() then c.(dead := c.dead + {c.call.m}) else c;
      if out.Done? then c1.(call := Settling(c.call.pos, c.call.m, c.call.newly, DeadLettered)) else Abandon(c1)
    case CommitOffset(ok) =>
      if ok then c.(handled := c.handled + {c.call.pos}, call := Waiting) else Abandon(c)
    case LoseCall => Abandon(c)
  }

  // ----- invariant -----

  ghost predicate OnTopic(topic: seq<Msg>, eid: nat, p: Payload) {
    exists i :: 0 <= i < |topic| && topic[i] == Recognized(eid, p)
  }

  ghost predicate IsDead(dead: set<Msg>, eid: nat) {
    exists m :: m in dead && m.Recognized? && m.eid == eid
  }

  /** What a call that says it is done has to show for it. */
  predicate VerdictHolds(c: ConsumerState, m: Msg, v: Verdict) {
    match v
    case Unrecognized => m.OtherType?
    case AlreadyMarked => m.Recognized? && m.eid in c.marked
    case Applied => m.Recognized? && m.eid in c.store.seen
    case DeadLettered => m in c.dead
  }

  ghost predicate CallOk(topic: seq<Msg>, c: ConsumerState) {
    (!c.call.Waiting? ==> c.call.pos < |topic| && topic[c.call.pos] == c.call.m)
    && match c.call
       case Waiting => true
       case Marking(_, m, tries) => m.Recognized? && tries < MAX_ATTEMPTS
       case Applying(_, m, tries) => m.Recognized? && m.eid in c.marked && tries < MAX_ATTEMPTS
       case Burying(_, m, newly) => !m.OtherType? && (newly ==> m.Recognized? && m.eid in c.marked)
       case Settling(_, m, newly, verdict) =>
         && VerdictHolds(c, m, verdict)
         && (newly ==> m.Recognized? && m.eid in c.marked && verdict in {Applied, DeadLettered})
  }

  /** An event that was marked reached the rows, or the dead-letter topic, or lost its marking call; while the
      marking call is under way it is that call's event. */
  ghost predicate Accounted(c: ConsumerState, eid: nat) {
    eid in c.store.seen || IsDead(c.dead, eid) || eid in c.unfinished || (Newly(c.call) && c.call.m.eid == eid)
  }

  ghost predicate HandledOk(topic: seq<Msg>, c: ConsumerState, pos: nat) {
    && pos < |topic|
    && match topic[pos]
       case NotCloudEvent => NotCloudEvent in c.dead
       case OtherType(_) => true
       case Recognized(eid, _) => eid in c.marked || IsDead(c.dead, eid)
  }

  ghost predicate ConsumerOk(topic: seq<Msg>, c: ConsumerState) {
    && CallOk(topic, c)
    && RowsAreSums(c.store)
    && TotalsOk(c.store)
    && (forall e :: e in c.store.seen ==> e in c.marked && OnTopic(topic, e, c.store.seen[e]))
    && (forall e :: e in c.marked ==> Accounted(c, e))
    && (forall pos :: pos in c.handled ==> HandledOk(topic, c, pos))
  }

  lemma ApplyCallKeeps(topic: seq<Msg>, c: ConsumerState, out: Outcome, giveUp: bool)
    requires ConsumerOk(topic, c) && ConsumerEnabled(topic, c, CallApply(out, giveUp))
    ensures ConsumerOk(topic, ConsumerApply(topic, c, CallApply(out, giveUp)))
  {
    var m := c.call.m;
    ApplyKeepsSums(c.store, m.eid, m.p);
    ApplyKeepsTotals(c.store, m.eid, m.p);
    var c' := ConsumerApply(topic, c, CallApply(out, giveUp));
    assert topic[c.call.pos] == Recognized(m.eid, m.p);
    assert forall e :: e in c.marked ==> Accounted(c, e);
    assert forall pos :: pos in c.handled ==> HandledOk(topic, c, pos);
  }

  lemma BuryKeeps(topic: seq<Msg>, c: ConsumerState, out: Outcome)
    requires ConsumerOk(topic, c) && ConsumerEnabled(topic, c, CallBury(out))
    ensures ConsumerOk(topic, ConsumerApply(topic, c, CallBury(out)))
  {
    var c' := ConsumerApply(topic, c, CallBury(out));
    forall e | IsDead(c.dead, e) ensures IsDead(c'.dead, e) {
      var m :| m in c.dead && m.Recognized? && m.eid == e;
      assert m in c'.dead;
    }
    forall e | e in c'.marked ensures Accounted(c', e) {
      assert Accounted(c, e);
      if Newly(c.call) && c.call.m.eid == e && out.Done? {
        assert c.call.m in c'.dead;
      }
    }
    forall pos | pos in c'.handled ensures HandledOk(topic, c', pos) {
      assert HandledOk(topic, c, pos);
    }
  }

  lemma ConsumerStepKeeps(topic: seq<Msg>, c: ConsumerState, a: ConsumerAction)
    requires ConsumerOk(topic, c) && ConsumerEnabled(topic, c, a)
    ensures ConsumerOk(topic, ConsumerApply(topic, c, a))
  {
    var c' := ConsumerApply(topic, c, a);
    match a
    case CallApply(out, giveUp) => ApplyCallKeeps(topic, c, out, giveUp);
    case CallBury(out) => BuryKeeps(topic, c, out);
    case CommitOffset(ok) =>
      forall e | e in c'.marked ensures Accounted(c', e) {
        assert Accounted(c, e);
        assert c.call.m in c.dead && c.call.m.Recognized? ==> IsDead(c.dead, c.call.m.eid);
      }
      forall pos | pos in c'.handled ensures HandledOk(topic, c', pos) {
        if pos in c.handled { assert HandledOk(topic, c, pos); }
      }
    case _ =>
      forall e | e in c'.marked ensures Accounted(c', e) {
        assert e in c.marked ==> Accounted(c, e);
      }
      forall pos | pos in c'.handled ensures HandledOk(topic, c', pos) {
        assert HandledOk(topic, c, pos);
      }
  }

  /** New messages on the topic do not disturb the consumer. */
  lemma ConsumerFrame(topic: seq<Msg>, more: seq<Msg>, c: ConsumerState)
    requires ConsumerOk(topic, c)
    ensures ConsumerOk(topic + more, c)
  {
    forall e | e in c.store.seen ensures OnTopic(topic + more, e, c.store.seen[e]) {
      var i :| 0 <= i < |topic| && topic[i] == Recognized(e, c.store.seen[e]);
      assert (topic + more)[i] == topic[i];
    }
    forall pos | pos in c.handled ensures HandledOk(topic + more, c, pos) {
      assert HandledOk(topic, c, pos);
    }
  }

  /** Once every message was handled, nothing was dead-lettered and no marking call was cut short, every event
      on the topic has reached the rows. */
  lemma CaughtUp(topic: seq<Msg>, c: ConsumerState, i: nat)
    requires ConsumerOk(topic, c) && c.call.Waiting?
    requires c.dead == {} && c.unfinished == {}
    requires i < |topic| && i in c.handled && topic[i].Recognized?
    ensures topic[i].eid in c.store.seen
  {
    assert HandledOk(topic, c, i);
    assert Accounted(c, topic[i].eid);
  }
}
