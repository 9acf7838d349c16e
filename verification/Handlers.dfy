/**
 The message handlers: load an aggregate, let it decide, save it, send what comes next.

 Each is proved to perform the reaction to its message: same events, same messages in the same order, and if
 publishing fails part-way, the events stored and a prefix of the messages sent.
 */
module Handlers {
  import opened Messages
  import opened AvailabilityAggregate
  import opened AllocationSaga
  import opened SalesOrderAggregate
  import opened SagaLaws
  import opened Reactions
  import opened EventStore
  import opened Soundness

  ghost predicate Performed(before: Streams, after: Streams, sentBefore: seq<Message>, sentAfter: seq<Message>,
                            id: StreamId, reaction: Reaction, r: Outcome)
  {
    match reaction
    case Refusal(e) => r == Failure(e) && after == before && sentAfter == sentBefore
    case Reaction(events, _) =>
      && r in {Done, Failure(BusFailure)}
      && after == Grow(before, id, events)
      && sentBefore <= sentAfter <= sentBefore + Announcements(reaction)
      && (r.Done? ==> sentAfter == sentBefore + Announcements(reaction))
  }

  /** A sales-order stream that is empty or begins with the order's creation. */
  predicate Placed(order: OrderId, es: seq<Event>) {
    es != [] ==> Homed(SalesOrderStream(order), es) && es[0].SalesOrderCreated?
  }

  lemma SavedIsPerformed(before: Streams, after: Streams, sentBefore: seq<Message>, sentAfter: seq<Message>,
                         id: StreamId, base: nat, batch: seq<Event>, r: Outcome)
    requires Saved(before, after, sentBefore, sentAfter, id, base, batch, r)
    requires base == |Stream(before, id)|
    ensures Performed(before, after, sentBefore, sentAfter, id, Reaction(batch, []), r)
  {
    assert Announcements(Reaction(batch, [])) == Published(batch);
  }

  class CommandHandlers {
    const store: InMemoryEventStore
    const bus: ServiceBus

    constructor (store: InMemoryEventStore, bus: ServiceBus)
      ensures this.store == store && this.bus == bus
    {
      this.store, this.bus := store, bus;
    }

    /** This call performed the reaction on stream `id`, and fails only with the bus or as the reaction says. */
    twostate predicate Does(id: StreamId, reaction: Reaction, r: Outcome)
      reads store, bus
    {
      && Performed(old(store.Events()), store.Events(), old(bus.sent), bus.sent, id, reaction, r)
      && bus.failures >= old(bus.failures) && (r == Failure(BusFailure) <==> bus.failures > old(bus.failures))
    }

    /** How a stock handler ends: hand back the refusal, or save what was decided on top of the loaded stream `es`. */
    method FinishStock(a: Availability, d: Decision, ghost beer: BeerId, ghost es: seq<Event>) returns (r: Outcome)
      requires store.Valid() && a.Valid() && es == Stream(store.Events(), AvailabilityStream(beer))
      requires d != Refuse(BusFailure)
      requires d.Accept? ==> a.beerId == beer && a.uncommitted == d.events && a.history == es + d.events
      modifies store, bus, a
      ensures store.Valid() && Does(AvailabilityStream(beer), FromDecision(d), r)
    {
      if d.Accept? {
        r := SaveAvailability(store, bus, a);
        SavedIsPerformed(old(store.Events()), store.Events(), old(bus.sent), bus.sent, AvailabilityStream(beer),
                         |es|, d.events, r);
      } else {
        r := Failure(d.error);
      }
    }

    method FinishOrder(s: SalesOrder, d: Decision, ghost order: OrderId, ghost es: seq<Event>) returns (r: Outcome)
      requires store.Valid() && s.Valid() && es == Stream(store.Events(), SalesOrderStream(order))
      requires d != Refuse(BusFailure)
      requires d.Accept? ==> s.salesOrderId == order && s.uncommitted == d.events && s.history == es + d.events
      modifies store, bus, s
      ensures store.Valid() && Does(SalesOrderStream(order), FromDecision(d), r)
    {
      if d.Accept? {
        r := SaveSalesOrder(store, bus, s);
        SavedIsPerformed(old(store.Events()), store.Events(), old(bus.sent), bus.sent, SalesOrderStream(order),
                         |es|, d.events, r);
      } else {
        r := Failure(d.error);
      }
    }

    /** Production adds stock, or starts tracking the beer. */
    method HandleProduction(beer: BeerId, name: string, quantity: int) returns (r: Outcome)
      requires store.Valid() && Homed(AvailabilityStream(beer), Stream(store.Events(), AvailabilityStream(beer)))
      modifies store, bus
      ensures store.Valid()
      ensures var id := AvailabilityStream(beer);
              Does(id, FromDecision(DecideProduction(Stream(old(store.Events()), id), beer, name, quantity)), r)
    {
      var found, a := GetAvailability(store, beer);
      ghost var es := a.history;
      var d: Decision;
      if found {
        BeerOfStream(beer, es);
        d := a.UpdateDueToProductionOrder(name, quantity);
      } else {
        d, a := CreateAvailability(beer, name, quantity);
      }
      r := FinishStock(a, d, beer, es);
    }

    /** One saga step; a beer nobody stocks is refused on its own stream. */
    method HandleAllocation(beer: BeerId, quantity: int, order: OrderId) returns (r: Outcome)
      requires store.Valid() && Homed(AvailabilityStream(beer), Stream(store.Events(), AvailabilityStream(beer)))
      modifies store, bus
      ensures store.Valid()
      ensures var id := AvailabilityStream(beer);
              Does(id, FromDecision(DecideAllocation(Stream(old(store.Events()), id), beer, quantity, order)), r)
    {
      var found, a := GetAvailability(store, beer);
      ghost var es := a.history;
      var d: Decision;
      if found {
        BeerOfStream(beer, es);
        d := a.UpdateDueToSalesOrder(quantity, order);
      } else {
        a := RefuseUnknownBeer(beer, quantity, order);
        d := Accept(a.uncommitted);
      }
      r := FinishStock(a, d, beer, es);
    }

    /** The compensating transaction; a missing beer is an error. */
    method HandleCompensation(beer: BeerId, quantity: int, order: OrderId) returns (r: Outcome)
      requires store.Valid() && Homed(AvailabilityStream(beer), Stream(store.Events(), AvailabilityStream(beer)))
      modifies store, bus
      ensures store.Valid()
      ensures var id := AvailabilityStream(beer);
              Does(id, FromDecision(DecideCompensation(Stream(old(store.Events()), id), quantity, order)), r)
    {
      var found, a := GetAvailability(store, beer);
      ghost var es := a.history;
      var d := Refuse(AggregateNotFound);
      if found {
        BeerOfStream(beer, es);
        d := a.CompensateDueToFailedAllocation(quantity, order);
      }
      r := FinishStock(a, d, beer, es);
    }

    /** Creating an order that exists is acknowledged without effect. */
    method HandleCreate(order: OrderId, header: Header, rows: seq<Row>) returns (r: Outcome)
      requires store.Valid()
      modifies store, bus
      ensures store.Valid()
      ensures var id := SalesOrderStream(order);
              Does(id, OnCreate(Stream(old(store.Events()), id), order, header, rows), r)
    {
      var found, _ := GetSalesOrder(store, order);
      if found {
        return Done;
      }
      var d, s := CreateSalesOrderAggregate(order, header, rows);
      r := FinishOrder(s, d, order, []);
    }

    /** Settles an order as allocated. */
    method HandleMarkAllocated(order: OrderId) returns (r: Outcome)
      requires store.Valid() && Placed(order, Stream(store.Events(), SalesOrderStream(order)))
      modifies store, bus
      ensures store.Valid()
      ensures var id := SalesOrderStream(order);
              var es := Stream(old(store.Events()), id);
              Does(id, OnSettle(es, DecideAllocated(OrderOf(es))), r)
    {
      var found, s := GetSalesOrder(store, order);
      ghost var es := s.history;
      var d := Refuse(AggregateNotFound);
      if found {
        OrderOfStream(order, es);
        d := s.MarkAllocated();
      }
      r := FinishOrder(s, d, order, es);
    }

    /** Settles an order as rejected. */
    method HandleMarkRejected(order: OrderId, reason: Reason) returns (r: Outcome)
      requires store.Valid() && Placed(order, Stream(store.Events(), SalesOrderStream(order)))
      modifies store, bus
      ensures store.Valid()
      ensures var id := SalesOrderStream(order);
              var es := Stream(old(store.Events()), id);
              Does(id, OnSettle(es, DecideRejected(OrderOf(es), reason)), r)
    {
      var found, s := GetSalesOrder(store, order);
      ghost var es := s.history;
      var d := Refuse(AggregateNotFound);
      if found {
        OrderOfStream(order, es);
        d := s.MarkAllocationRejected(reason);
      }
      r := FinishOrder(s, d, order, es);
    }
  }
}
