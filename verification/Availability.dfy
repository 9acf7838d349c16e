/**
 The event-sourced stock of one beer.

 `StockOf` replays a stream; the `Decide...` functions say which events each operation records on a stream.  The class
 below updates its fields in place and is proved against them.
 */
module AvailabilityAggregate {
  import opened Messages

  datatype Stock = Stock(beer: BeerId, name: string, quantity: int, held: set<OrderId>)

  const UNTRACKED := Stock(0, "", 0, {})

  function ApplyStock(s: Stock, e: Event): Stock {
    match e
    case AvailabilityUpdatedDueToProductionOrder(b, n, q) => s.(beer := b, name := n, quantity := q)
    case BeerAvailabilityUpdated(b, n, q, o) => Stock(b, n, q, s.held + {o})
    case AvailabilityCompensated(b, n, q, o) => Stock(b, n, q, s.held - {o})
    case QuantityNotFound(b, _, _, _) => s.(beer := b)
    case _ => s
  }

  /** The stock after replaying a stream from the start. */
  function StockOf(es: seq<Event>): Stock {
    if es == [] then UNTRACKED else ApplyStock(StockOf(es[..|es| - 1]), es[|es| - 1])
  }

  function DecideProduction(es: seq<Event>, beer: BeerId, name: string, quantity: int): Decision {
    var s := StockOf(es);
    if quantity <= 0 then Refuse(InvalidQuantity)
    else if es == [] then Accept([AvailabilityUpdatedDueToProductionOrder(beer, name, quantity)])
    else Accept([AvailabilityUpdatedDueToProductionOrder(s.beer, name, s.quantity + quantity)])
  }

  /** A saga step.  A beer that was never stocked is refused without looking at the quantity. */
  function DecideAllocation(es: seq<Event>, beer: BeerId, quantity: int, order: OrderId): Decision {
    var s := StockOf(es);
    if es == [] then Accept([QuantityNotFound(beer, order, quantity, 0)])
    else if quantity <= 0 then Refuse(InvalidQuantity)
    else if order in s.held then Accept([BeerAvailabilityUpdated(s.beer, s.name, s.quantity, order)])
    else if quantity > s.quantity then Accept([QuantityNotFound(s.beer, order, quantity, s.quantity)])
    else Accept([BeerAvailabilityUpdated(s.beer, s.name, s.quantity - quantity, order)])
  }

  function DecideCompensation(es: seq<Event>, quantity: int, order: OrderId): Decision {
    var s := StockOf(es);
    if es == [] then Refuse(AggregateNotFound)
    else if quantity <= 0 then Refuse(InvalidQuantity)
    else if order !in s.held then Accept([AvailabilityCompensated(s.beer, s.name, s.quantity, order)])
    else Accept([AvailabilityCompensated(s.beer, s.name, s.quantity + quantity, order)])
  }

  lemma StockOfNothing()
    ensures StockOf([]) == UNTRACKED
  {
  }

  lemma StockOfSnoc(es: seq<Event>, e: Event)
    ensures StockOf(es + [e]) == ApplyStock(StockOf(es), e)
  {
    assert (es + [e])[..|es|] == es;
  }

  class Availability {
    var version: nat
    var uncommitted: seq<Event>
    var beerId: BeerId
    var beerName: string
    var quantity: int
    var held: set<OrderId>
    ghost var history: seq<Event> // every event applied to this object, oldest first

    ghost function State(): Stock
      reads this
    {
      Stock(beerId, beerName, quantity, held)
    }

    ghost predicate Replayed()
      reads this
    {
      State() == StockOf(history) && version == |history|
    }

    ghost predicate Valid()
      reads this
    {
      && Replayed()
      && |uncommitted| <= |history|
      && uncommitted == history[|history| - |uncommitted|..]
    }

    constructor ()
      ensures Valid() && history == [] && uncommitted == []
    {
      version, uncommitted := 0, [];
      beerId, beerName, quantity, held := 0, "", 0, {};
      history := [];
    }

    method Route(event: Event)
      modifies this`beerId, this`beerName, this`quantity, this`held
      ensures State() == ApplyStock(old(State()), event)
    {
      match event {
        case AvailabilityUpdatedDueToProductionOrder(b, n, q) =>
          ApplyAvailabilityUpdated(b, n, q);
        case BeerAvailabilityUpdated(b, n, q, o) =>
          ApplyAvailabilityUpdated(b, n, q);
          held := held + {o};
        case AvailabilityCompensated(b, n, q, o) =>
          ApplyAvailabilityUpdated(b, n, q);
          held := held - {o};
        case QuantityNotFound(b, _, _, _) =>
          beerId := b;
        case _ =>
      }
    }

    method ApplyAvailabilityUpdated(b: BeerId, n: string, q: int)
      modifies this`beerId, this`beerName, this`quantity
      ensures State() == old(State()).(beer := b, name := n, quantity := q)
    {
      beerId, beerName, quantity := b, n, q;
    }

    method ApplyEvent(event: Event)
      requires Replayed()
      modifies this
      ensures Replayed() && history == old(history) + [event] && uncommitted == old(uncommitted)
    {
      hide StockOf;
      Route(event);
      version := version + 1;
      StockOfSnoc(history, event);
      history := history + [event];
    }

    method RaiseEvent(event: Event)
      requires Valid()
      modifies this
      ensures Valid() && history == old(history) + [event] && uncommitted == old(uncommitted) + [event]
      ensures State() == ApplyStock(old(State()), event)
    {
      hide StockOf;
      StockOfSnoc(history, event);
      ApplyEvent(event);
      uncommitted := uncommitted + [event];
    }

    /** Adds produced units to a beer that is already tracked. */
    method UpdateDueToProductionOrder(name: string, amount: int) returns (d: Decision)
      requires Valid() && history != []
      modifies this
      ensures Valid() && beerId == old(beerId)
      ensures d == DecideProduction(old(history), old(beerId), name, amount)
      ensures history == old(history) + (if d.Accept? then d.events else [])
      ensures uncommitted == old(uncommitted) + (if d.Accept? then d.events else [])
    {
      hide StockOf;
      if amount <= 0 {
        return Refuse(InvalidQuantity);
      }
      var event := AvailabilityUpdatedDueToProductionOrder(beerId, name, quantity + amount);
      RaiseEvent(event);
      return Accept([event]);
    }

    /** One saga step: allocate stock to a sales order, or record the shortage. */
    method UpdateDueToSalesOrder(amount: int, order: OrderId) returns (d: Decision)
      requires Valid() && history != []
      modifies this
      ensures Valid() && beerId == old(beerId)
      ensures d == DecideAllocation(old(history), old(beerId), amount, order)
      ensures history == old(history) + (if d.Accept? then d.events else [])
      ensures uncommitted == old(uncommitted) + (if d.Accept? then d.events else [])
    {
      hide StockOf;
      if amount <= 0 {
        return Refuse(InvalidQuantity);
      }
      var event;
      if order in held {
        event := BeerAvailabilityUpdated(beerId, beerName, quantity, order);
      } else if amount > quantity {
        event := QuantityNotFound(beerId, order, amount, quantity);
      } else {
        event := BeerAvailabilityUpdated(beerId, beerName, quantity - amount, order);
      }
      RaiseEvent(event);
      return Accept([event]);
    }

    /** The compensating transaction: give an allocated quantity back. */
    method CompensateDueToFailedAllocation(amount: int, order: OrderId) returns (d: Decision)
      requires Valid() && history != []
      modifies this
      ensures Valid() && beerId == old(beerId)
      ensures d == DecideCompensation(old(history), amount, order)
      ensures history == old(history) + (if d.Accept? then d.events else [])
      ensures uncommitted == old(uncommitted) + (if d.Accept? then d.events else [])
    {
      hide StockOf;
      if amount <= 0 {
        return Refuse(InvalidQuantity);
      }
      var left := if order in held then quantity + amount else quantity;
      var event := AvailabilityCompensated(beerId, beerName, left, order);
      RaiseEvent(event);
      return Accept([event]);
    }
  }

  /** Starts tracking a beer with its first production output. */
  method CreateAvailability(beer: BeerId, name: string, amount: int) returns (d: Decision, a: Availability)
    ensures fresh(a) && a.Valid()
    ensures d == DecideProduction([], beer, name, amount)
    ensures a.history == a.uncommitted == if d.Accept? then d.events else []
    ensures d.Accept? ==> a.beerId == beer
  {
    a := new Availability();
    if amount <= 0 {
      return Refuse(InvalidQuantity), a;
    }
    var event := AvailabilityUpdatedDueToProductionOrder(beer, name, amount);
    a.RaiseEvent(event);
    d := Accept([event]);
  }

  /** Records the refusal of a beer the warehouse has never stocked. */
  method RefuseUnknownBeer(beer: BeerId, amount: int, order: OrderId) returns (a: Availability)
    ensures fresh(a) && a.Valid() && a.beerId == beer
    ensures DecideAllocation([], beer, amount, order) == Accept(a.history) && a.uncommitted == a.history
  {
    a := new Availability();
    a.RaiseEvent(QuantityNotFound(beer, order, amount, 0));
  }
}
