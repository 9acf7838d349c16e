/** The bus subscriptions: which handler serves which message. */
module Delivery {
  import opened Messages
  import opened Reactions
  import opened EventStore
  import opened Soundness
  import opened Handlers
  import opened SagaHandlers
  import SagaLaws
  import opened Protocol
  import opened Driving

  /** The messages that one context translates for the other. */
  predicate CrossesBorder(m: Message) {
    m.AllocationCompleted? || m.AllocationRejected? || (m.DomainEvent? && m.event.SalesOrderCreated?)
  }

  class Subscriptions {
    const store: InMemoryEventStore
    const bus: ServiceBus
    const commands: CommandHandlers
    const saga: OrderAllocationSagaHandler

    constructor (store: InMemoryEventStore, bus: ServiceBus)
      ensures this.store == store && this.bus == bus && Wired()
    {
      this.store, this.bus := store, bus;
      commands := new CommandHandlers(store, bus);
      saga := new OrderAllocationSagaHandler(store, bus);
    }

    ghost predicate Wired() {
      commands.store == saga.store == store && commands.bus == saga.bus == bus
    }

    /** The saga's own subscriptions. */
    method DeliverToSaga(m: Message) returns (r: Outcome)
      requires Wired() && store.Valid() && Sound(store.Events()) && Target(m).SagaStream?
      modifies store, bus
      ensures store.Valid()
      ensures Performed(old(store.Events()), store.Events(), old(bus.sent), bus.sent, Target(m),
                        React(old(store.Events()), m), r)
    {
      hide OnOrderPlaced, OnAllocated, OnFailed, OnCompensated;
      SoundSaga(store.Events(), Target(m).order);
      hide Sound;
      match m {
        case OrderPlaced(o, rows) => r := saga.HandleOrderPlaced(o, rows);
        case DomainEvent(BeerAvailabilityUpdated(b, _, _, o)) => r := saga.HandleBeerAvailabilityUpdated(o, b);
        case DomainEvent(QuantityNotFound(b, o, q, a)) => r := saga.HandleQuantityNotFound(o, b, q, a);
        case DomainEvent(AvailabilityCompensated(b, _, _, o)) => r := saga.HandleAvailabilityCompensated(o, b);
        case _ => r := Done;
      }
    }

    /** What a message of one context is to the other: an order placed is announced, an outcome is a command to settle. */
    function Translation(m: Message): Message
      requires CrossesBorder(m)
    {
      match m
      case AllocationCompleted(o) => MarkSalesOrderAllocated(o)
      case AllocationRejected(o, why) => MarkSalesOrderAllocationRejected(o, why)
      case DomainEvent(e) => OrderPlaced(e.order, e.rows)
    }

    /** A handler at the border of the sales context: it turns one message into another and records nothing. */
    method Translate(m: Message) returns (r: Outcome)
      requires store.Valid() && CrossesBorder(m)
      modifies bus
      ensures bus.sent == old(bus.sent) + if r.Done? then [Translation(m)] else []
      ensures Performed(old(store.Events()), store.Events(), old(bus.sent), bus.sent, Target(m),
                        React(old(store.Events()), m), r)
    {
      assert Announcements(Reaction([], [Translation(m)])) == [Translation(m)];
      r := bus.Send(Translation(m));
    }

    method Ignore(ghost id: StreamId) returns (r: Outcome)
      ensures Performed(store.Events(), store.Events(), bus.sent, bus.sent, id, NOTHING, r)
    {
      r := Done;
    }

    /** The command handlers, and the two translations at the border of the sales context. */
    method DeliverElsewhere(m: Message) returns (r: Outcome)
      requires Wired() && store.Valid() && Sound(store.Events()) && !Target(m).SagaStream?
      modifies store, bus
      ensures store.Valid()
      ensures Performed(old(store.Events()), store.Events(), old(bus.sent), bus.sent, Target(m),
                        React(old(store.Events()), m), r)
    {
      hide OnCreate, OnSettle, FromDecision, Performed;
      SoundHome(store.Events(), Target(m));
      hide Sound;
      match m {
        case UpdateAvailabilityDueToProductionOrder(b, n, q) => r := commands.HandleProduction(b, n, q);
        case UpdateAvailabilityDueToSalesOrder(b, q, o) => r := commands.HandleAllocation(b, q, o);
        case CompensateAvailability(b, q, o) => r := commands.HandleCompensation(b, q, o);
        case CreateSalesOrder(o, h, rows) => r := commands.HandleCreate(o, h, rows);
        case MarkSalesOrderAllocated(o) => r := commands.HandleMarkAllocated(o);
        case MarkSalesOrderAllocationRejected(o, why) => r := commands.HandleMarkRejected(o, why);
        case AllocationCompleted(_) => r := Translate(m);
        case AllocationRejected(_, _) => r := Translate(m);
        case DomainEvent(SalesOrderCreated(_, _, _)) => r := Translate(m);
        case _ => r := Ignore(Target(m));
      }
    }

    /**
     Delivering any message performs its reaction and keeps the streams sound.  Delivered in a reachable world of the
     protocol, it leaves a reachable one.
     */
    method Deliver(m: Message) returns (r: Outcome)
      requires Wired() && store.Valid() && Sound(store.Events())
      modifies store, bus
      ensures store.Valid() && Sound(store.Events())
      ensures Performed(old(store.Events()), store.Events(), old(bus.sent), bus.sent, Target(m),
                        React(old(store.Events()), m), r)
      ensures forall w | Reachable(w) && Shows(w, old(store.Events()), old(bus.sent)) && m in w.sent ::
                Reachable(World(store.Events(), Sent(bus.sent), ProducedAfter(w, Step.Deliver(m))))
    {
      hide React, Sound, Reachable, ProducedAfter, InMemoryEventStore.Events, InMemoryEventStore.Valid;
      if React(store.Events(), m).Reaction? {
        ReactionsKeepSound(store.Events(), m);
      }
      if Target(m).SagaStream? {
        r := DeliverToSaga(m);
      } else {
        r := DeliverElsewhere(m);
      }
      forall w | Reachable(w) && Shows(w, old(store.Events()), old(bus.sent)) && m in w.sent
        ensures Reachable(World(store.Events(), Sent(bus.sent), ProducedAfter(w, Step.Deliver(m))))
      {
        PerformedIsReachable(w, store.Events(), old(bus.sent), bus.sent, m, r);
      }
    }
  }

  /** The world has these streams, and the bus carried its messages. */
  ghost predicate Shows(w: World, streams: Streams, sent: seq<Message>) {
    w.streams == streams && w.sent == Sent(sent)
  }

  lemma SoundSaga(ss: Streams, o: OrderId)
    requires Sound(ss)
    ensures SagaLaws.Legal(o, Stream(ss, SagaStream(o)))
  {
  }

  lemma SoundHome(ss: Streams, id: StreamId)
    requires Sound(ss)
    ensures Homed(id, Stream(ss, id))
    ensures id.SalesOrderStream? ==> Placed(id.order, Stream(ss, id))
  {
  }
}
