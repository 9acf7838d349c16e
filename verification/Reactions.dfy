/**
 What each handler does with a message: the events it records on one stream and the messages it then sends.

 These are functions of the streams the handler reads.  The handler classes are proved to perform them, and the
 protocol is a step relation over them.
 */
module Reactions {
  import opened Messages
  import opened AvailabilityAggregate
  import opened AllocationSaga
  import opened SalesOrderAggregate

  datatype Reaction = Reaction(events: seq<Event>, sends: seq<Message>) | Refusal(error: Error)

  const NOTHING := Reaction([], [])

  function Announcements(r: Reaction): seq<Message>
    requires r.Reaction?
  {
    Published(r.events) + r.sends
  }

  /** The stream a handler of `m` may write to. */
  function Target(m: Message): StreamId {
    match m
    case UpdateAvailabilityDueToProductionOrder(b, _, _) => AvailabilityStream(b)
    case UpdateAvailabilityDueToSalesOrder(b, _, _) => AvailabilityStream(b)
    case CompensateAvailability(b, _, _) => AvailabilityStream(b)
    case CreateSalesOrder(o, _, _) => SalesOrderStream(o)
    case MarkSalesOrderAllocated(o) => SalesOrderStream(o)
    case MarkSalesOrderAllocationRejected(o, _) => SalesOrderStream(o)
    case OrderPlaced(o, _) => SagaStream(o)
    case AllocationCompleted(o) => SalesOrderStream(o)
    case AllocationRejected(o, _) => SalesOrderStream(o)
    case DomainEvent(BeerAvailabilityUpdated(_, _, _, o)) => SagaStream(o)
    case DomainEvent(AvailabilityCompensated(_, _, _, o)) => SagaStream(o)
    case DomainEvent(QuantityNotFound(_, o, _, _)) => SagaStream(o)
    case DomainEvent(e) => HomeOf(e)
  }

  // ---- the saga's messages ----

  function Verdict(s: Saga): seq<Message> {
    if s.status == Completed then [AllocationCompleted(s.order)] else [AllocationRejected(s.order, s.reason)]
  }

  function NextAllocation(s: Saga): seq<Message> {
    match NextPending(s)
    case Some(row) => [UpdateAvailabilityDueToSalesOrder(row.beer, row.quantity, s.order)]
    case None => []
  }

  function Compensations(rows: seq<Row>, order: OrderId): (ms: seq<Message>)
    ensures |ms| == |rows|
    ensures forall i | 0 <= i < |rows| :: ms[i] == CompensateAvailability(rows[i].beer, rows[i].quantity, order)
  {
    seq(|rows|, i requires 0 <= i < |rows| => CompensateAvailability(rows[i].beer, rows[i].quantity, order))
  }

  /** The commands that undo these rows, in this order. */
  predicate Undoes(ms: seq<Message>, o: OrderId, picked: seq<Row>) {
    && |ms| == |picked|
    && forall i | 0 <= i < |ms| :: ms[i] == CompensateAvailability(picked[i].beer, picked[i].quantity, o)
  }

  /** What an in-flight saga is waiting for. */
  function Drive(s: Saga): seq<Message> {
    if s.status == Compensating then Compensations(ToCompensate(s), s.order) else NextAllocation(s)
  }

  // ---- saga handlers ----

  function OnOrderPlaced(es: seq<Event>, order: OrderId, rows: seq<Row>): Reaction {
    if es != [] then NOTHING
    else
      var ds := DecideStart(order, rows);
      var s := SagaOf(ds);
      Reaction(ds, if s.status == Completed then Verdict(s) else NextAllocation(s))
  }

  function OnAllocated(es: seq<Event>, beer: BeerId): Reaction {
    var ds := DecideSucceeded(SagaOf(es), beer);
    var s := SagaOf(es + ds);
    if ds == [] then NOTHING else Reaction(ds, if s.status == Completed then Verdict(s) else NextAllocation(s))
  }

  /** A shortage, or the watchdog giving up on a step. */
  function OnFailed(es: seq<Event>, beer: BeerId, reason: Reason): Reaction {
    var ds := DecideFailed(SagaOf(es), beer, reason);
    var s := SagaOf(es + ds);
    if ds == [] then NOTHING
    else Reaction(ds, if s.status == Rejected then Verdict(s) else Compensations(ToCompensate(s), s.order))
  }

  function OnCompensated(es: seq<Event>, beer: BeerId): Reaction {
    var ds := DecideCompensated(SagaOf(es), beer);
    var s := SagaOf(es + ds);
    if ds == [] then NOTHING else Reaction(ds, if s.status == Rejected then Verdict(s) else [])
  }

  // ---- command handlers ----

  function FromDecision(d: Decision): Reaction {
    match d
    case Accept(events) => Reaction(events, [])
    case Refuse(error) => Refusal(error)
  }

  function OnCreate(es: seq<Event>, order: OrderId, header: Header, rows: seq<Row>): Reaction {
    if es != [] then NOTHING else FromDecision(DecideCreate(order, header, rows))
  }

  function OnSettle(es: seq<Event>, d: Decision): Reaction {
    if es == [] then Refusal(AggregateNotFound) else FromDecision(d)
  }

  function React(ss: Streams, m: Message): Reaction {
    var es := Stream(ss, Target(m));
    match m
    case UpdateAvailabilityDueToProductionOrder(b, n, q) => FromDecision(DecideProduction(es, b, n, q))
    case UpdateAvailabilityDueToSalesOrder(b, q, o) => FromDecision(DecideAllocation(es, b, q, o))
    case CompensateAvailability(b, q, o) => FromDecision(DecideCompensation(es, q, o))
    case CreateSalesOrder(o, h, rows) => OnCreate(es, o, h, rows)
    case MarkSalesOrderAllocated(o) => OnSettle(es, DecideAllocated(OrderOf(es)))
    case MarkSalesOrderAllocationRejected(o, r) => OnSettle(es, DecideRejected(OrderOf(es), r))
    case OrderPlaced(o, rows) => OnOrderPlaced(es, o, rows)
    case AllocationCompleted(o) => Reaction([], [MarkSalesOrderAllocated(o)])
    case AllocationRejected(o, r) => Reaction([], [MarkSalesOrderAllocationRejected(o, r)])
    case DomainEvent(BeerAvailabilityUpdated(b, _, _, o)) => OnAllocated(es, b)
    case DomainEvent(QuantityNotFound(b, o, q, a)) => OnFailed(es, b, Shortage(b, q, a))
    case DomainEvent(AvailabilityCompensated(b, _, _, o)) => OnCompensated(es, b)
    case DomainEvent(SalesOrderCreated(o, _, rows)) => Reaction([], [OrderPlaced(o, rows)])
    case DomainEvent(_) => NOTHING
  }
}
