/**
 The vocabulary shared by every part of the model: identifiers, domain events, bus messages and event streams.

 Identifiers are opaque: the only operation on them is equality.  A rejection reason is a datatype value instead of
 the text rendered from it.
 */
module Messages {

  type BeerId = nat
  type OrderId = nat

  datatype Option<+T> = None | Some(value: T)

  /** One row of an order: how much of which beer. */
  datatype Row = Row(beer: BeerId, quantity: int)

  /** The part of a sales order that only the aggregate factory and the projection look at; date 0 is the zero date. */
  datatype Header = Header(number: string, customer: string, date: nat)

  datatype Reason = NoReason | Shortage(beer: BeerId, requested: int, available: int) | TimedOut

  datatype Event =
    // Availability streams
    | AvailabilityUpdatedDueToProductionOrder(beer: BeerId, name: string, quantity: int)
    | BeerAvailabilityUpdated(beer: BeerId, name: string, quantity: int, order: OrderId)
    | AvailabilityCompensated(beer: BeerId, name: string, quantity: int, order: OrderId)
    | QuantityNotFound(beer: BeerId, order: OrderId, requested: int, available: int)
    // OrderAllocationSaga streams
    | OrderAllocationStarted(order: OrderId, rows: seq<Row>)
    | AllocationStepSucceeded(order: OrderId, beer: BeerId)
    | AllocationStepFailed(order: OrderId, beer: BeerId, reason: Reason)
    | AllocationStepCompensated(order: OrderId, beer: BeerId)
    | OrderAllocationCompleted(order: OrderId)
    | OrderAllocationRejected(order: OrderId, reason: Reason)
    // SalesOrder streams
    | SalesOrderCreated(order: OrderId, header: Header, rows: seq<Row>)
    | SalesOrderAllocated(order: OrderId)
    | SalesOrderAllocationRejected(order: OrderId, reason: Reason)

  datatype StreamId = AvailabilityStream(beer: BeerId) | SagaStream(order: OrderId) | SalesOrderStream(order: OrderId)

  datatype Message =
    // commands
    | UpdateAvailabilityDueToProductionOrder(beer: BeerId, name: string, quantity: int)
    | UpdateAvailabilityDueToSalesOrder(beer: BeerId, quantity: int, order: OrderId)
    | CompensateAvailability(beer: BeerId, quantity: int, order: OrderId)
    | CreateSalesOrder(order: OrderId, header: Header, rows: seq<Row>)
    | MarkSalesOrderAllocated(order: OrderId)
    | MarkSalesOrderAllocationRejected(order: OrderId, reason: Reason)
    // integration events
    | OrderPlaced(order: OrderId, rows: seq<Row>)
    | AllocationCompleted(order: OrderId)
    | AllocationRejected(order: OrderId, reason: Reason)
    // domain events on the bus
    | DomainEvent(event: Event)

  datatype Error = InvalidQuantity | AggregateNotFound | InvalidSalesOrder | AllocationConflict | Concurrency | BusFailure
                 | BrokenSaga

  /** What an aggregate decides to record, or why it refuses. */
  datatype Decision = Accept(events: seq<Event>) | Refuse(error: Error)

  type Streams = map<StreamId, seq<Event>>

  /** Reading a stream that was never written yields no events. */
  function Stream(ss: Streams, id: StreamId): seq<Event> {
    if id in ss then ss[id] else []
  }

  /** The streams after `events` were appended to `id`; nothing is written for an empty batch. */
  function Grow(ss: Streams, id: StreamId, events: seq<Event>): Streams {
    if events == [] then ss else ss[id := Stream(ss, id) + events]
  }

  /** The stream an event belongs to. */
  function HomeOf(e: Event): StreamId {
    match e
    case AvailabilityUpdatedDueToProductionOrder(b, _, _) => AvailabilityStream(b)
    case BeerAvailabilityUpdated(b, _, _, _) => AvailabilityStream(b)
    case AvailabilityCompensated(b, _, _, _) => AvailabilityStream(b)
    case QuantityNotFound(b, _, _, _) => AvailabilityStream(b)
    case OrderAllocationStarted(o, _) => SagaStream(o)
    case AllocationStepSucceeded(o, _) => SagaStream(o)
    case AllocationStepFailed(o, _, _) => SagaStream(o)
    case AllocationStepCompensated(o, _) => SagaStream(o)
    case OrderAllocationCompleted(o) => SagaStream(o)
    case OrderAllocationRejected(o, _) => SagaStream(o)
    case SalesOrderCreated(o, _, _) => SalesOrderStream(o)
    case SalesOrderAllocated(o) => SalesOrderStream(o)
    case SalesOrderAllocationRejected(o, _) => SalesOrderStream(o)
  }

  /** The messages that publish a batch of freshly stored events. */
  function Published(events: seq<Event>): (ms: seq<Message>)
    ensures |ms| == |events|
    ensures forall i | 0 <= i < |events| :: ms[i] == DomainEvent(events[i])
  {
    seq(|events|, i requires 0 <= i < |events| => DomainEvent(events[i]))
  }
}
