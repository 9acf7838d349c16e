/**
 The whole system as a step relation.

 A world is the event streams plus every message ever put on the bus.  Messages never leave that set, so any of them
 can be delivered at any time, any number of times, in any order, or never.  A step delivers one message, lets a
 client place a command, resumes a saga from a snapshot of its stream that may be out of date, or times a step out.
 Whatever a step sends may be lost: a handler that crashes between saving and sending leaves its events stored and any
 part of its messages unsent.
 */
module Protocol {
  import opened Messages
  import opened AvailabilityAggregate
  import opened AllocationSaga
  import opened SagaLaws
  import opened SalesOrderAggregate
  import opened Reactions
  import opened Soundness
  import opened EventStore
  import opened Handlers

  /** `produced` adds up the production commands that were accepted, beer by beer. */
  datatype World = World(streams: Streams, sent: set<Message>, produced: map<BeerId, int>)

  const INITIAL := World(map[], {}, map[])

  datatype Step =
    | Place(m: Message)
    | Deliver(m: Message)
    | Resume(order: OrderId, upTo: nat)
    | TimeOut(order: OrderId)

  function TotalProduced(w: World, beer: BeerId): int {
    if beer in w.produced then w.produced[beer] else 0
  }

  function StockStream(w: World, b: BeerId): seq<Event> {
    Stream(w.streams, AvailabilityStream(b))
  }

  function SagaEvents(w: World, o: OrderId): seq<Event> {
    Stream(w.streams, SagaStream(o))
  }

  function SalesEvents(w: World, o: OrderId): seq<Event> {
    Stream(w.streams, SalesOrderStream(o))
  }

  predicate Enabled(w: World, step: Step) {
    match step
    case Place(m) => m.UpdateAvailabilityDueToProductionOrder? || m.CreateSalesOrder?
    case Deliver(m) => m in w.sent
    case Resume(o, n) => n <= |SagaEvents(w, o)|
    case TimeOut(_) => true
  }

  function StepTarget(step: Step): StreamId {
    match step
    case Place(m) => Target(m)
    case Deliver(m) => Target(m)
    case Resume(o, _) => SagaStream(o)
    case TimeOut(o) => SagaStream(o)
  }

  /** Giving up on the pending step of a running saga, or re-driving a compensating one. */
  function OnTimeOut(es: seq<Event>): Reaction {
    var s := SagaOf(es);
    match NextPending(s)
    case Some(row) => OnFailed(es, row.beer, TimedOut)
    case None => Reaction([], if s.status == Compensating then Drive(s) else [])
  }

  function StepReaction(w: World, step: Step): Reaction {
    match step
    case Place(m) => Reaction([], [m])
    case Deliver(m) => React(w.streams, m)
    case Resume(o, n) => if n <= |SagaEvents(w, o)| then Reaction([], Drive(SagaOf(SagaEvents(w, o)[..n]))) else NOTHING
    case TimeOut(o) => OnTimeOut(SagaEvents(w, o))
  }

  /** The running total of production after a step: an accepted production command counts in full. */
  function ProducedAfter(w: World, step: Step): map<BeerId, int> {
    if step.Deliver? && step.m.UpdateAvailabilityDueToProductionOrder? && StepReaction(w, step).Reaction?
    then w.produced[step.m.beer := TotalProduced(w, step.m.beer) + step.m.quantity]
    else w.produced
  }

  ghost predicate Takes(w: World, step: Step, w': World) {
    && Enabled(w, step)
    && match StepReaction(w, step)
       case Refusal(_) => w' == w
       case Reaction(events, sends) =>
         && w'.streams == Grow(w.streams, StepTarget(step), events)
         && w.sent <= w'.sent
         && (forall m | m in w'.sent :: m in w.sent || m in Announcements(StepReaction(w, step)))
         && w'.produced == ProducedAfter(w, step)
  }

  ghost predicate Next(w: World, w': World) {
    exists step :: Takes(w, step, w')
  }

  ghost predicate Run(ws: seq<World>) {
    && ws != [] && ws[0] == INITIAL
    && forall i | 0 <= i < |ws| - 1 :: Next(ws[i], ws[i + 1])
  }

  ghost predicate Reachable(w: World) {
    exists ws :: Run(ws) && ws[|ws| - 1] == w
  }

  /** A handler that performed its reaction took a step of the protocol, whether or not its sending was cut short. */
  lemma PerformedIsAStep(w: World, w': World, before: seq<Message>, after: seq<Message>, m: Message, r: Outcome)
    requires m in w.sent && w.sent == (set x | x in before)
    requires Performed(w.streams, w'.streams, before, after, Target(m), React(w.streams, m), r)
    requires w'.sent == (set x | x in after) && w'.produced == ProducedAfter(w, Deliver(m))
    ensures Takes(w, Deliver(m), w')
  {
    hide React, Target;
    if React(w.streams, m).Reaction? {
      var all := before + Announcements(React(w.streams, m));
      forall x | x in after ensures x in before || x in Announcements(React(w.streams, m)) {
        var i :| 0 <= i < |after| && after[i] == x;
        assert all[i] == x;
      }
      forall x | x in before ensures x in after {
        var i :| 0 <= i < |before| && before[i] == x;
        assert after[i] == x;
      }
    }
  }

  // ---- what messages and events presuppose ----

  /** After its first `n` events the saga was waiting for this row. */
  predicate Awaited(es: seq<Event>, n: nat, row: Row) {
    n <= |es| && NextPending(SagaOf(es[..n])) == Some(row)
  }

  /** After its first `n` events the saga was undoing this row. */
  predicate Undone(es: seq<Event>, n: nat, row: Row) {
    n <= |es| && row in ToCompensate(SagaOf(es[..n]))
  }

  predicate Created(es: seq<Event>, o: OrderId, h: Header, rows: seq<Row>) {
    SalesOrderCreated(o, h, rows) in es
  }

  /** The history that lets a message be on the bus. */
  ghost predicate Justified(ss: Streams, m: Message) {
    match m
    case UpdateAvailabilityDueToProductionOrder(_, _, _) => true
    case CreateSalesOrder(_, _, _) => true
    case UpdateAvailabilityDueToSalesOrder(b, q, o) => exists n: nat :: Awaited(Stream(ss, SagaStream(o)), n, Row(b, q))
    case CompensateAvailability(b, q, o) => exists n: nat :: Undone(Stream(ss, SagaStream(o)), n, Row(b, q))
    case OrderPlaced(o, rows) => exists h :: Created(Stream(ss, SalesOrderStream(o)), o, h, rows)
    case AllocationCompleted(o) => OrderAllocationCompleted(o) in Stream(ss, SagaStream(o))
    case MarkSalesOrderAllocated(o) => OrderAllocationCompleted(o) in Stream(ss, SagaStream(o))
    case AllocationRejected(o, r) => OrderAllocationRejected(o, r) in Stream(ss, SagaStream(o))
    case MarkSalesOrderAllocationRejected(o, r) => OrderAllocationRejected(o, r) in Stream(ss, SagaStream(o))
    case DomainEvent(e) => e in Stream(ss, HomeOf(e))
  }

  predicate Allocates(e: Event, o: OrderId) {
    e.BeerAvailabilityUpdated? && e.order == o
  }

  predicate Refuses(e: Event, o: OrderId) {
    e.QuantityNotFound? && e.order == o
  }

  predicate Releases(e: Event, o: OrderId) {
    e.AvailabilityCompensated? && e.order == o
  }

  predicate HasAllocation(es: seq<Event>, o: OrderId) {
    exists i | 0 <= i < |es| :: Allocates(es[i], o)
  }

  predicate HasRelease(es: seq<Event>, o: OrderId) {
    exists i | 0 <= i < |es| :: Releases(es[i], o)
  }

  ghost predicate AllocationCause(ss: Streams, b: BeerId, p: seq<Event>, e: Event, o: OrderId, amount: int) {
    Justified(ss, UpdateAvailabilityDueToSalesOrder(b, amount, o)) && DecideAllocation(p, b, amount, o) == Accept([e])
  }

  ghost predicate ReleaseCause(ss: Streams, b: BeerId, p: seq<Event>, e: Event, o: OrderId, amount: int) {
    Justified(ss, CompensateAvailability(b, amount, o)) && DecideCompensation(p, amount, o) == Accept([e])
  }

  /** What made the stock of `b`, with history `p`, record `e`. */
  ghost predicate StockCaused(ss: Streams, b: BeerId, p: seq<Event>, e: Event) {
    match e
    case AvailabilityUpdatedDueToProductionOrder(bb, _, q) => bb == b && q > StockOf(p).quantity
    case BeerAvailabilityUpdated(_, _, _, o) => exists amount :: AllocationCause(ss, b, p, e, o, amount)
    case QuantityNotFound(_, o, amount, _) => AllocationCause(ss, b, p, e, o, amount)
    case AvailabilityCompensated(_, _, _, o) =>
      HasAllocation(p, o) && exists amount :: ReleaseCause(ss, b, p, e, o, amount)
    case _ => false
  }

  /** What made the saga of `o` record `e`. */
  ghost predicate SagaCaused(ss: Streams, o: OrderId, e: Event) {
    match e
    case OrderAllocationStarted(_, rows) => Justified(ss, OrderPlaced(o, rows))
    case AllocationStepSucceeded(_, b) => HasAllocation(Stream(ss, AvailabilityStream(b)), o)
    case AllocationStepFailed(_, b, why) =>
      || why == TimedOut
      || (why.Shortage? && why.beer == b
          && QuantityNotFound(b, o, why.requested, why.available) in Stream(ss, AvailabilityStream(b)))
    case AllocationStepCompensated(_, b) => HasRelease(Stream(ss, AvailabilityStream(b)), o)
    case _ => true
  }

  /** A sales order is created once, by a placed command, and settled at most once, as its saga ended. */
  ghost predicate SalesCaused(w: World, o: OrderId) {
    var es := SalesEvents(w, o);
    && |es| <= 2
    && (es != [] ==> es[0].SalesOrderCreated? && es[0].order == o
                     && Message.CreateSalesOrder(o, es[0].header, es[0].rows) in w.sent)
    && (|es| == 2 ==> || (es[1] == SalesOrderAllocated(o) && Justified(w.streams, MarkSalesOrderAllocated(o)))
                      || (es[1].SalesOrderAllocationRejected? && es[1].order == o
                          && Justified(w.streams, MarkSalesOrderAllocationRejected(o, es[1].reason))))
  }

  /** The increases a beer's production events recorded. */
  function Made(es: seq<Event>): int {
    if es == [] then 0
    else
      var p, e := es[..|es| - 1], es[|es| - 1];
      Made(p) + if e.AvailabilityUpdatedDueToProductionOrder? then e.quantity - StockOf(p).quantity else 0
  }

  ghost predicate Grounded(w: World) {
    forall m | m in w.sent :: Justified(w.streams, m)
  }

  ghost predicate StocksCaused(w: World) {
    forall b, i | 0 <= i < |StockStream(w, b)| ::
      StockCaused(w.streams, b, StockStream(w, b)[..i], StockStream(w, b)[i])
  }

  ghost predicate SagasCaused(w: World) {
    forall o, i | 0 <= i < |SagaEvents(w, o)| :: SagaCaused(w.streams, o, SagaEvents(w, o)[i])
  }

  ghost predicate OrdersCaused(w: World) {
    forall o :: SalesCaused(w, o)
  }

  ghost predicate Accounted(w: World) {
    forall b :: TotalProduced(w, b) == Made(StockStream(w, b))
  }

  ghost predicate Inv(w: World) {
    Sound(w.streams) && Grounded(w) && StocksCaused(w) && SagasCaused(w) && OrdersCaused(w) && Accounted(w)
  }
}
