/** The event-sourced sales order and its one settlement. */
module SalesOrderAggregate {
  import opened Messages

  datatype Allocation = Unset | AllocationPending | AllocationDone | AllocationRefused

  datatype Order = Order(id: OrderId, header: Header, rows: seq<Row>, allocation: Allocation, reason: Reason)

  const UNPLACED := Order(0, Header("", "", 0), [], Unset, NoReason)

  function ApplyOrder(s: Order, e: Event): Order {
    match e
    case SalesOrderCreated(o, h, rows) => Order(o, h, rows, AllocationPending, s.reason)
    case SalesOrderAllocated(_) => s.(allocation := AllocationDone)
    case SalesOrderAllocationRejected(_, r) => s.(allocation := AllocationRefused, reason := r)
    case _ => s
  }

  function OrderOf(es: seq<Event>): Order {
    if es == [] then UNPLACED else ApplyOrder(OrderOf(es[..|es| - 1]), es[|es| - 1])
  }

  lemma OrderOfFirst(e: Event)
    ensures OrderOf([e]) == ApplyOrder(UNPLACED, e)
  {
    OrderOfSnoc([], e);
    assert [] + [e] == [e];
  }

  lemma OrderOfSnoc(es: seq<Event>, e: Event)
    ensures OrderOf(es + [e]) == ApplyOrder(OrderOf(es), e)
  {
    assert (es + [e])[..|es|] == es;
  }

  /** The white space of Unicode, which trimming removes. */
  predicate IsSpace(c: char) {
    || '\U{0009}' <= c <= '\U{000D}' || c == ' ' || c == '\U{0085}' || c == '\U{00A0}' || c == '\U{1680}'
    || '\U{2000}' <= c <= '\U{200A}' || c == '\U{2028}' || c == '\U{2029}' || c == '\U{202F}' || c == '\U{205F}'
    || c == '\U{3000}'
  }

  /** Nothing is left of the text once white space is trimmed. */
  predicate Blank(text: string) {
    forall i | 0 <= i < |text| :: IsSpace(text[i])
  }

  function DecideCreate(order: OrderId, header: Header, rows: seq<Row>): Decision {
    if Blank(header.number) || Blank(header.customer) || header.date == 0 then Refuse(InvalidSalesOrder)
    else Accept([SalesOrderCreated(order, header, rows)])
  }

  function DecideAllocated(s: Order): Decision {
    match s.allocation
    case AllocationDone => Accept([])
    case AllocationRefused => Refuse(AllocationConflict)
    case _ => Accept([SalesOrderAllocated(s.id)])
  }

  function DecideRejected(s: Order, reason: Reason): Decision {
    match s.allocation
    case AllocationRefused => Accept([])
    case AllocationDone => Refuse(AllocationConflict)
    case _ => Accept([SalesOrderAllocationRejected(s.id, reason)])
  }

  class SalesOrder {
    var version: nat
    var uncommitted: seq<Event>
    var salesOrderId: OrderId
    var header: Header
    var rows: seq<Row>
    var allocation: Allocation
    var rejectionReason: Reason
    ghost var history: seq<Event>

    ghost function State(): Order
      reads this
    {
      Order(salesOrderId, header, rows, allocation, rejectionReason)
    }

    ghost predicate Replayed()
      reads this
    {
      State() == OrderOf(history) && version == |history|
    }

    ghost predicate Valid()
      reads this
    {
      && Replayed()
      && |uncommitted| <= |history|
      && uncommitted == history[|history| - |uncommitted|..]
    }

    constructor ()
      ensures Valid() && history == [] && uncommitted == []
    {
      version, uncommitted := 0, [];
      salesOrderId, header, rows, allocation, rejectionReason := 0, Header("", "", 0), [], Unset, NoReason;
      history := [];
    }

    method Route(event: Event)
      modifies this`salesOrderId, this`header, this`rows, this`allocation, this`rejectionReason
      ensures State() == ApplyOrder(old(State()), event)
    {
      match event {
        case SalesOrderCreated(o, h, data) =>
          salesOrderId, header, rows := o, h, data;
          allocation := AllocationPending;
        case SalesOrderAllocated(_) =>
          allocation := AllocationDone;
        case SalesOrderAllocationRejected(_, r) =>
          allocation := AllocationRefused;
          rejectionReason := r;
        case _ =>
      }
    }

    method ApplyEvent(event: Event)
      requires Replayed()
      modifies this
      ensures Replayed() && history == old(history) + [event] && uncommitted == old(uncommitted)
    {
      hide OrderOf;
      Route(event);
      version := version + 1;
      OrderOfSnoc(history, event);
      history := history + [event];
    }

    method RaiseEvent(event: Event)
      requires Valid()
      modifies this
      ensures Valid() && history == old(history) + [event] && uncommitted == old(uncommitted) + [event]
      ensures State() == ApplyOrder(old(State()), event)
    {
      hide OrderOf;
      OrderOfSnoc(history, event);
      ApplyEvent(event);
      uncommitted := uncommitted + [event];
    }

    /** Settles the order as allocated; `Accept([])` is the idempotent case in which nothing changes. */
    method MarkAllocated() returns (d: Decision)
      requires Valid()
      modifies this
      ensures Valid() && salesOrderId == old(salesOrderId)
      ensures d == DecideAllocated(old(State()))
      ensures history == old(history) + (if d.Accept? then d.events else [])
      ensures uncommitted == old(uncommitted) + (if d.Accept? then d.events else [])
    {
      hide OrderOf;
      match allocation {
        case AllocationDone => return Accept([]);
        case AllocationRefused => return Refuse(AllocationConflict);
        case _ =>
      }
      var event := SalesOrderAllocated(salesOrderId);
      RaiseEvent(event);
      return Accept([event]);
    }

    method MarkAllocationRejected(reason: Reason) returns (d: Decision)
      requires Valid()
      modifies this
      ensures Valid() && salesOrderId == old(salesOrderId)
      ensures d == DecideRejected(old(State()), reason)
      ensures history == old(history) + (if d.Accept? then d.events else [])
      ensures uncommitted == old(uncommitted) + (if d.Accept? then d.events else [])
    {
      hide OrderOf;
      match allocation {
        case AllocationRefused => return Accept([]);
        case AllocationDone => return Refuse(AllocationConflict);
        case _ =>
      }
      var event := SalesOrderAllocationRejected(salesOrderId, reason);
      RaiseEvent(event);
      return Accept([event]);
    }
  }

  method CreateSalesOrderAggregate(order: OrderId, header: Header, rows: seq<Row>) returns (d: Decision, s: SalesOrder)
    ensures fresh(s) && s.Valid()
    ensures d == DecideCreate(order, header, rows)
    ensures s.history == s.uncommitted == if d.Accept? then d.events else []
    ensures d.Accept? ==> s.salesOrderId == order
  {
    s := new SalesOrder();
    if Blank(header.number) || Blank(header.customer) || header.date == 0 {
      return Refuse(InvalidSalesOrder), s;
    }
    var event := SalesOrderCreated(order, header, rows);
    s.RaiseEvent(event);
    return Accept([event]), s;
  }
}
