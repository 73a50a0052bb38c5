/** The domain vocabulary: identities, errors, lines, the NetworkOrder aggregate and its events.
    Time is an integer count of nanoseconds since the zero instant (midnight UTC, 1 January of year 1). */
module Domain {
  type Time = int

  const DAY: Time := 86_400_000_000_000

  /** How long the network gives us to answer. */
  const ACKNOWLEDGEMENT_WINDOW: Time := DAY

  datatype Error =
    | EmptyNetworkRef
    | EmptyNetworkLineRef
    | EmptyNetworkProductId
    | NonPositiveQuantity
    | NoLines
    | UnknownProduct
    | AlreadyAnswered
    | ConfirmBeforeAcknowledge
    | NotAcknowledged
    | LocalOrderAlreadyLinked
    | PortFailure

  datatype Option<+T> = None | Some(value: T)

  datatype Result<+T> = Ok(value: T) | Err(error: Error) {
    predicate IsFailure() { Err? }
    function PropagateFailure<U>(): Result<U>
      requires Err?
    {
      Err(error)
    }
    function Extract(): T
      requires Ok?
    {
      value
    }
  }

  // ----- inbound demand and translated lines -----

  datatype InboundLine = InboundLine(ref: string, product: string, quantity: int)

  datatype Demand = Demand(ref: string, site: string, shipBy: Time, lines: seq<InboundLine>)

  datatype Line = Line(ref: string, product: string, sku: string, quantity: int)

  function NewLine(ref: string, product: string, sku: string, quantity: int): (r: Result<Line>)
    ensures r.Ok? <==> ref != "" && product != "" && sku != "" && quantity > 0
    ensures r == Err(UnknownProduct) <==> ref != "" && product != "" && sku == ""
  {
    if ref == "" then Err(EmptyNetworkLineRef)
    else if product == "" then Err(EmptyNetworkProductId)
    else if sku == "" then Err(UnknownProduct)
    else if quantity <= 0 then Err(NonPositiveQuantity)
    else Ok(Line(ref, product, sku, quantity))
  }

  // ----- the aggregate's value -----

  datatype State = New | Acknowledged | Rejected | Confirmed

  datatype Order = Order(
    ref: string, site: string, shipBy: Time, ackBy: Time, lines: seq<Line>,
    state: State, local: Option<string>, receivedAt: Time)

  function Receive(ref: string, site: string, shipBy: Time, lines: seq<Line>, receivedAt: Time): Result<Order> {
    if ref == "" then Err(EmptyNetworkRef)
    else if |lines| == 0 then Err(NoLines)
    else Ok(Order(ref, site, shipBy, receivedAt + ACKNOWLEDGEMENT_WINDOW, lines, New, None, receivedAt))
  }

  function ReceiveUntranslatable(ref: string, site: string, shipBy: Time, receivedAt: Time): Result<Order> {
    if ref == "" then Err(EmptyNetworkRef)
    else Ok(Order(ref, site, shipBy, receivedAt + ACKNOWLEDGEMENT_WINDOW, [], New, None, receivedAt))
  }

  /** The order carries what the network sent under its ref, was received at the instant, and has 24 hours from
      then to be answered. */
  predicate CarriesDemand(o: Order, d: Demand, at: Time) {
    && o.ref == d.ref && o.site == d.site && o.shipBy == d.shipBy
    && o.receivedAt == at && o.ackBy == at + 86_400_000_000_000
  }

  predicate AcknowledgementOverdue(o: Order, now: Time) {
    o.state == New && now > o.ackBy
  }

  /** One request to change the aggregate. */
  datatype Change = DoAcknowledge | DoReject | DoLink(id: string) | DoConfirm

  /** What a change does to the aggregate's value: the new value, or the error that leaves it as it was. */
  function ChangeOrder(o: Order, c: Change): Result<Order> {
    match c
    case DoAcknowledge => if o.state != New then Err(AlreadyAnswered) else Ok(o.(state := Acknowledged))
    case DoReject => if o.state != New then Err(AlreadyAnswered) else Ok(o.(state := Rejected))
    case DoLink(id) =>
      if o.state != Acknowledged then Err(NotAcknowledged)
      else if o.local.Some? then Err(LocalOrderAlreadyLinked)
      else Ok(o.(local := Some(id)))
    case DoConfirm => if o.state != Acknowledged then Err(ConfirmBeforeAcknowledge) else Ok(o.(state := Confirmed))
  }

  /** The aggregate as the application holds it: an object whose methods change it in place. */
  class NetworkOrder {
    const ref: string
    const site: string
    const shipBy: Time
    const ackBy: Time
    const lines: seq<Line>
    const receivedAt: Time
    var state: State
    var local: Option<string>

    constructor (o: Order)
      ensures Value() == o
    {
      ref, site, shipBy, ackBy, lines := o.ref, o.site, o.shipBy, o.ackBy, o.lines;
      receivedAt, state, local := o.receivedAt, o.state, o.local;
    }

    function Value(): Order
      reads this
    {
      Order(ref, site, shipBy, ackBy, lines, state, local, receivedAt)
    }

    method Acknowledge() returns (r: Result<()>)
      modifies this
      ensures r.Ok? == ChangeOrder(old(Value()), DoAcknowledge).Ok?
      ensures Value() == After(old(Value()), DoAcknowledge)
      ensures r.Err? ==> r.error == AlreadyAnswered
    {
      if state != New { return Err(AlreadyAnswered); }
      state := Acknowledged;
      return Ok(());
    }

    method Reject() returns (r: Result<()>)
      modifies this
      ensures r.Ok? == ChangeOrder(old(Value()), DoReject).Ok?
      ensures Value() == After(old(Value()), DoReject)
      ensures r.Err? ==> r.error == AlreadyAnswered
    {
      if state != New { return Err(AlreadyAnswered); }
      state := Rejected;
      return Ok(());
    }

    method LinkLocalOrder(id: string) returns (r: Result<()>)
      modifies this
      ensures r.Ok? == ChangeOrder(old(Value()), DoLink(id)).Ok?
      ensures Value() == After(old(Value()), DoLink(id))
      ensures r.Err? ==> r.error == ChangeOrder(old(Value()), DoLink(id)).error
    {
      if state != Acknowledged { return Err(NotAcknowledged); }
      if local != None { return Err(LocalOrderAlreadyLinked); }
      local := Some(id);
      return Ok(());
    }

    method ConfirmShipment() returns (r: Result<()>)
      modifies this
      ensures r.Ok? == ChangeOrder(old(Value()), DoConfirm).Ok?
      ensures Value() == After(old(Value()), DoConfirm)
      ensures r.Err? ==> r.error == ConfirmBeforeAcknowledge
    {
      if state != Acknowledged { return Err(ConfirmBeforeAcknowledge); }
      state := Confirmed;
      return Ok(());
    }

    /** Fills a map line by line; the result is the pure projection below. */
    method SKUQuantities() returns (out: map<string, int>)
      ensures out == Quantities(lines)
    {
      out := map[];
      for i := 0 to |lines|
        invariant out == Quantities(lines[..i])
      {
        var l := lines[i];
        assert lines[..i + 1][..i] == lines[..i];
        out := out[l.sku := (if l.sku in out then out[l.sku] else 0) + l.quantity];
      }
      assert lines[..|lines|] == lines;
    }
  }

  function After(o: Order, c: Change): Order {
    match ChangeOrder(o, c) case Ok(o') => o' case Err(_) => o
  }

  function AfterAll(o: Order, cs: seq<Change>): Order
    decreases |cs|
  {
    if cs == [] then o else AfterAll(After(o, cs[0]), cs[1..])
  }

  /** How many of the requested changes are answers to the network that were accepted by the aggregate. */
  function AnswersGiven(o: Order, cs: seq<Change>): nat
    decreases |cs|
  {
    if cs == [] then 0
    else
      (if (cs[0].DoAcknowledge? || cs[0].DoReject?) && ChangeOrder(o, cs[0]).Ok? then 1 else 0)
      + AnswersGiven(After(o, cs[0]), cs[1..])
  }

  /** Whatever is asked of an order, in whatever order: it is answered at most once, a link is only ever
      on an order we said yes to and is never replaced, and what the network fixed at intake never moves. */
  lemma {:induction false} Lifecycle(o: Order, cs: seq<Change>)
    requires o.local.Some? ==> o.state in {Acknowledged, Confirmed}
    ensures var o' := AfterAll(o, cs);
      && AnswersGiven(o, cs) == (if o.state == New && o'.state != New then 1 else 0)
      && (o'.local.Some? ==> o'.state in {Acknowledged, Confirmed})
      && (o.local.Some? ==> o'.local == o.local)
      && (o.state == Rejected ==> o' == o)
      && (o.state != New ==> o'.state != New)
      && o'.(state := o.state, local := o.local) == o
    decreases |cs|
  {
    if cs != [] {
      Lifecycle(After(o, cs[0]), cs[1..]);
    }
  }

  /** The lines projected to SKUs, later lines of a SKU adding to earlier ones. */
  function Quantities(lines: seq<Line>): map<string, int> {
    if lines == [] then map[]
    else
      var m := Quantities(lines[..|lines| - 1]);
      var l := lines[|lines| - 1];
      m[l.sku := (if l.sku in m then m[l.sku] else 0) + l.quantity]
  }

  // ----- domain events -----

  datatype Reason = UntranslatableSku | InfeasibleDeadline | DeadlineMissed

  datatype Event =
    | OrderReceived(ref: string, site: string, shipBy: Time, ackBy: Time, lineCount: nat, at: Time)
    | OrderAcknowledged(ref: string, site: string, local: string, receivedAt: Time, at: Time)
    | OrderRejected(ref: string, site: string, reason: Reason, at: Time)
}
