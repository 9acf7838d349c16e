/**
 The sales read model: a table of orders that event handlers keep up to date and a rebuild recreates from the streams.

 Events reach it late, repeatedly and in any order.  It converges nevertheless, because the row of an order depends only
 on which of the order's events have arrived.
 */
module SalesReadModel {
  import opened Messages
  import opened EventStore
  import opened SalesOrderAggregate
  import opened Protocol
  import opened ProtocolInvariant
  import opened Soundness

  datatype Status = NoStatus | PendingStatus | AllocatedStatus | RejectedStatus

  /** One row of the table. */
  datatype View = View(id: OrderId, header: Header, rows: seq<Row>, status: Status, reason: Reason)

  /** What is shown of an order whose creation has not arrived yet. */
  function Stub(o: OrderId): View {
    View(o, Header("", "", 0), [], NoStatus, NoReason)
  }

  predicate Projects(e: Event) {
    e.SalesOrderCreated? || e.SalesOrderAllocated? || e.SalesOrderAllocationRejected?
  }

  predicate IsAbout(e: Event, o: OrderId) {
    Projects(e) && e.order == o
  }

  /** The row of the event's order after the event arrived. */
  function Projected(before: Option<View>, e: Event): View
    requires Projects(e)
  {
    match e
    case SalesOrderCreated(o, h, rows) =>
      if before.Some? && before.value.status in {AllocatedStatus, RejectedStatus}
      then View(o, h, rows, before.value.status, before.value.reason)
      else View(o, h, rows, PendingStatus, NoReason)
    case SalesOrderAllocated(o) =>
      (if before.Some? then before.value else Stub(o)).(status := AllocatedStatus, reason := NoReason)
    case SalesOrderAllocationRejected(o, why) =>
      (if before.Some? then before.value else Stub(o)).(status := RejectedStatus, reason := why)
  }

  /** The row of order `o` after a sequence of events arrived. */
  function ViewAfter(arrived: seq<Event>, o: OrderId): Option<View> {
    if arrived == [] then None
    else
      var before, e := ViewAfter(arrived[..|arrived| - 1], o), arrived[|arrived| - 1];
      if IsAbout(e, o) then Some(Projected(before, e)) else before
  }

  lemma ViewAfterSnoc(arrived: seq<Event>, e: Event, o: OrderId)
    ensures ViewAfter(arrived + [e], o)
            == if IsAbout(e, o) then Some(Projected(ViewAfter(arrived, o), e)) else ViewAfter(arrived, o)
  {
    assert (arrived + [e])[..|arrived|] == arrived;
  }

  // ---- the service ----

  class SalesOrderService {
    var orders: map<OrderId, View>
    var order: seq<OrderId> // in the order of first arrival
    ghost var arrived: seq<Event>

    /** The table shows what arrived, and the list names each order of the table once. */
    ghost predicate Valid()
      reads this
    {
      && (forall o :: ViewAfter(arrived, o) == if o in orders then Some(orders[o]) else None)
      && (forall o :: o in order <==> o in orders)
      && (forall i, j | 0 <= i < j < |order| :: order[i] != order[j])
    }

    constructor ()
      ensures Valid() && arrived == []
    {
      orders, order, arrived := map[], [], [];
    }

    /** Upserts the row of a created order; a status that arrived first is kept. */
    method CreateSalesOrder(o: OrderId, header: Header, rows: seq<Row>)
      requires Valid()
      modifies this
      ensures Valid() && arrived == old(arrived) + [SalesOrderCreated(o, header, rows)]
      ensures old(order) <= order
    {
      hide ViewAfter;
      ghost var e := SalesOrderCreated(o, header, rows);
      forall p ensures ViewAfter(arrived + [e], p) == if IsAbout(e, p) then Some(Projected(ViewAfter(arrived, p), e))
                                                      else ViewAfter(arrived, p)
      {
        ViewAfterSnoc(arrived, e, p);
      }
      var view := View(o, header, rows, NoStatus, NoReason);
      if o !in orders {
        order := order + [o];
      }
      if view.status == NoStatus {
        view := view.(status := PendingStatus);
      }
      if o in orders && orders[o].status != NoStatus && orders[o].status != PendingStatus {
        view := view.(status := orders[o].status, reason := orders[o].reason);
      }
      orders := orders[o := view];
      arrived := arrived + [e];
    }

    /** Records the saga's outcome; if the creation has not arrived yet, a stub row holds the status. */
    method UpdateAllocationStatus(o: OrderId, status: Status, reason: Reason, ghost e: Event)
      requires Valid()
      requires e == if status == AllocatedStatus then SalesOrderAllocated(o)
                    else SalesOrderAllocationRejected(o, reason)
      requires status == RejectedStatus || (status == AllocatedStatus && reason == NoReason)
      modifies this
      ensures Valid() && arrived == old(arrived) + [e]
      ensures old(order) <= order
    {
      hide ViewAfter;
      forall p ensures ViewAfter(arrived + [e], p) == if IsAbout(e, p) then Some(Projected(ViewAfter(arrived, p), e))
                                                      else ViewAfter(arrived, p)
      {
        ViewAfterSnoc(arrived, e, p);
      }
      var view := Stub(o);
      if o in orders {
        view := orders[o];
      } else {
        order := order + [o];
      }
      view := view.(status := status, reason := reason);
      orders := orders[o := view];
      arrived := arrived + [e];
    }

    /** The projection handlers. */
    method Handle(e: Event)
      requires Valid()
      modifies this
      ensures Valid() && arrived == old(arrived) + [e]
      ensures old(order) <= order
    {
      match e {
        case SalesOrderCreated(o, h, rows) => CreateSalesOrder(o, h, rows);
        case SalesOrderAllocated(o) => UpdateAllocationStatus(o, AllocatedStatus, NoReason, e);
        case SalesOrderAllocationRejected(o, why) => UpdateAllocationStatus(o, RejectedStatus, why, e);
        case _ => IgnoreEvent(e);
      }
    }

    method IgnoreEvent(ghost e: Event)
      requires Valid() && !Projects(e)
      modifies this`arrived
      ensures Valid() && arrived == old(arrived) + [e]
    {
      hide ViewAfter;
      forall p ensures ViewAfter(arrived + [e], p) == ViewAfter(arrived, p) {
        ViewAfterSnoc(arrived, e, p);
      }
      arrived := arrived + [e];
    }
  }

  // ---- convergence ----

  /** An order's stream: its creation, then at most its settlement. */
  predicate WellFormed(es: seq<Event>, o: OrderId) {
    && |es| <= 2 && (forall i | 0 <= i < |es| :: IsAbout(es[i], o))
    && (es != [] ==> es[0].SalesOrderCreated?)
    && (|es| == 2 ==> !es[1].SalesOrderCreated?)
  }

  /** Of this order, only events of its stream arrived. */
  predicate OnlyFrom(arrived: seq<Event>, es: seq<Event>, o: OrderId) {
    forall i | 0 <= i < |arrived| && IsAbout(arrived[i], o) :: arrived[i] in es
  }

  /** The row that a set of arrived events amounts to, whatever their order and number. */
  function Summary(es: seq<Event>, o: OrderId, created: bool, settled: bool): Option<View>
    requires WellFormed(es, o) && (created ==> es != []) && (settled ==> |es| == 2)
  {
    if !created && !settled then None
    else
      var base := if created then View(o, es[0].header, es[0].rows, PendingStatus, NoReason) else Stub(o);
      Some(if !settled then base
           else if es[1].SalesOrderAllocated? then base.(status := AllocatedStatus, reason := NoReason)
           else base.(status := RejectedStatus, reason := es[1].reason))
  }

  /** Order and repetition of the arrivals do not matter. */
  lemma {:induction false} ArrivalOrderIsIrrelevant(arrived: seq<Event>, es: seq<Event>, o: OrderId)
    requires WellFormed(es, o) && OnlyFrom(arrived, es, o)
    ensures ViewAfter(arrived, o) == Summary(es, o, es != [] && es[0] in arrived, |es| == 2 && es[1] in arrived)
  {
    if arrived == [] {
      NothingArrived(o);
    } else {
      hide ViewAfter;
      var p, e := arrived[..|arrived| - 1], arrived[|arrived| - 1];
      assert arrived == p + [e];
      assert forall i | 0 <= i < |p| :: p[i] == arrived[i];
      ArrivalOrderIsIrrelevant(p, es, o);
      ViewAfterSnoc(p, e, o);
      if IsAbout(e, o) {
        assert arrived[|arrived| - 1] in es;
      }
    }
  }

  lemma NothingArrived(o: OrderId)
    ensures ViewAfter([], o) == None
  {
  }

  /** Once each event of the stream arrived, however often and in whatever order, the row is that of a replay. */
  lemma Converges(arrived: seq<Event>, es: seq<Event>, o: OrderId)
    requires WellFormed(es, o) && OnlyFrom(arrived, es, o)
    requires forall i | 0 <= i < |es| :: es[i] in arrived
    ensures ViewAfter(arrived, o) == ViewAfter(es, o)
  {
    hide ViewAfter;
    ArrivalOrderIsIrrelevant(arrived, es, o);
    ArrivalOrderIsIrrelevant(es, es, o);
  }

  /** The streams of every reachable world are well-formed. */
  lemma ReachableStreamsAreWellFormed(w: World, o: OrderId)
    requires Reachable(w)
    ensures WellFormed(SalesEvents(w, o), o)
  {
    hide Justified, Reachable;
    ReachableInv(w);
    assert SalesCaused(w, o);
  }

  /**
   The read model converges: in every reachable world, if the events of the sales streams arrived at least once each, in
   any order, repeatedly, mixed with events of other streams, then the table is the one that replaying the streams gives.
   */
  lemma ReadModelConverges(w: World, arrived: seq<Event>, o: OrderId)
    requires Reachable(w)
    requires OnlyFrom(arrived, SalesEvents(w, o), o)
    requires forall i | 0 <= i < |SalesEvents(w, o)| :: SalesEvents(w, o)[i] in arrived
    ensures ViewAfter(arrived, o) == ViewAfter(SalesEvents(w, o), o)
  {
    hide Reachable, ViewAfter, WellFormed;
    ReachableStreamsAreWellFormed(w, o);
    Converges(arrived, SalesEvents(w, o), o);
  }

  /** The rebuilt row is the settled order. */
  function StatusOf(a: Allocation): Status {
    match a
    case Unset => NoStatus
    case AllocationPending => PendingStatus
    case AllocationDone => AllocatedStatus
    case AllocationRefused => RejectedStatus
  }

  lemma RebuiltRowIsTheOrder(w: World, o: OrderId)
    requires Reachable(w) && SalesEvents(w, o) != []
    ensures var s := OrderOf(SalesEvents(w, o));
            ViewAfter(SalesEvents(w, o), o) == Some(View(s.id, s.header, s.rows, StatusOf(s.allocation), s.reason))
  {
    hide Reachable, ViewAfter, OrderOf;
    var es := SalesEvents(w, o);
    ReachableStreamsAreWellFormed(w, o);
    ArrivalOrderIsIrrelevant(es, es, o);
    OrderOfFirst(es[0]);
    if |es| == 2 {
      OrderOfSnoc([es[0]], es[1]);
      assert es == [es[0]] + [es[1]];
    } else {
      assert es == [es[0]];
    }
  }

  // ---- the rebuild ----

  lemma {:induction false} StrangersDoNotMatter(arrived: seq<Event>, es: seq<Event>, o: OrderId)
    requires forall i | 0 <= i < |es| :: !IsAbout(es[i], o)
    ensures ViewAfter(arrived + es, o) == ViewAfter(arrived, o)
  {
    hide ViewAfter;
    if es == [] {
      assert arrived + es == arrived;
    } else {
      var n := |es| - 1;
      StrangersDoNotMatter(arrived, es[..n], o);
      assert arrived + es == arrived + es[..n] + [es[n]];
      ViewAfterSnoc(arrived + es[..n], es[n], o);
    }
  }

  lemma {:induction false} FirstArrivals(arrived: seq<Event>, es: seq<Event>, o: OrderId)
    requires ViewAfter(arrived, o) == None
    ensures ViewAfter(arrived + es, o) == ViewAfter(es, o)
  {
    if es == [] {
      assert arrived + es == arrived;
    } else {
      hide ViewAfter;
      var n := |es| - 1;
      FirstArrivals(arrived, es[..n], o);
      assert arrived + es == arrived + es[..n] + [es[n]];
      ViewAfterSnoc(arrived + es[..n], es[n], o);
      assert es == es[..n] + [es[n]];
      ViewAfterSnoc(es[..n], es[n], o);
    }
  }

  /** Every sales stream holds only events of its own order. */
  ghost predicate SalesHomed(ss: Streams) {
    forall o :: Homed(SalesOrderStream(o), Stream(ss, SalesOrderStream(o)))
  }

  /** After replaying the streams `ids`, exactly their orders have rows, each as its own stream gives it. */
  ghost predicate Rebuilt(ss: Streams, ids: seq<StreamId>, arrived: seq<Event>) {
    forall o :: ViewAfter(arrived, o)
                == if SalesOrderStream(o) in ids then ViewAfter(Stream(ss, SalesOrderStream(o)), o) else None
  }

  lemma ReplayedOneMore(ss: Streams, ids: seq<StreamId>, id: StreamId, arrived: seq<Event>)
    requires SalesHomed(ss) && Rebuilt(ss, ids, arrived) && id !in ids && id.SalesOrderStream?
    ensures Rebuilt(ss, ids + [id], arrived + Stream(ss, id))
  {
    hide ViewAfter;
    var es := Stream(ss, id);
    assert Homed(SalesOrderStream(id.order), es);
    forall o
      ensures ViewAfter(arrived + es, o)
              == if SalesOrderStream(o) in ids + [id] then ViewAfter(Stream(ss, SalesOrderStream(o)), o) else None
    {
      if o == id.order {
        FirstArrivals(arrived, es, o);
      } else {
        StrangersDoNotMatter(arrived, es, o);
      }
    }
  }

  lemma NothingRebuilt(ss: Streams)
    ensures Rebuilt(ss, [], [])
  {
  }

  lemma AllRebuilt(ss: Streams, ids: seq<StreamId>, arrived: seq<Event>, o: OrderId)
    requires Rebuilt(ss, ids, arrived) && (SalesOrderStream(o) in ss ==> SalesOrderStream(o) in ids)
    ensures ViewAfter(arrived, o) == ViewAfter(Stream(ss, SalesOrderStream(o)), o)
  {
  }

  /** Replays one stream through the projection handlers. */
  method ReplayStream(store: InMemoryEventStore, service: SalesOrderService, id: StreamId) returns (n: nat)
    requires service.Valid()
    modifies service
    ensures service.Valid() && n == |Stream(store.Events(), id)|
    ensures service.arrived == old(service.arrived) + Stream(store.Events(), id)
  {
    hide SalesOrderService.Valid;
    var stored := store.ReadStream(id);
    n := 0;
    for j := 0 to |stored|
      invariant service.Valid() && n == j && service.arrived == old(service.arrived) + Payloads(stored)[..j]
    {
      service.Handle(stored[j].event);
      n := n + 1;
    }
    assert Payloads(stored)[..|stored|] == Payloads(stored);
  }

  /** Replays every sales stream through the projection handlers; the caller has emptied the table. */
  method RebuildReadModel(store: InMemoryEventStore, service: SalesOrderService) returns (replayed: nat)
    requires service.Valid() && service.arrived == [] && SalesHomed(store.Events())
    modifies service
    ensures service.Valid() && replayed == |service.arrived|
    ensures forall o :: ViewAfter(service.arrived, o) == ViewAfter(Stream(store.Events(), SalesOrderStream(o)), o)
  {
    hide ViewAfter, Rebuilt, SalesHomed, SalesOrderService.Valid, InMemoryEventStore.Events;
    var ids := store.ListStreams(SalesOrderKind);
    replayed := 0;
    NothingRebuilt(store.Events());
    assert ids[..0] == [];
    for i := 0 to |ids|
      invariant service.Valid() && replayed == |service.arrived|
      invariant Rebuilt(store.Events(), ids[..i], service.arrived)
    {
      ghost var before := service.arrived;
      assert ids[i] in ids && ids[i] !in ids[..i];
      var n := ReplayStream(store, service, ids[i]);
      replayed := replayed + n;
      ReplayedOneMore(store.Events(), ids[..i], ids[i], before);
      assert ids[..i + 1] == ids[..i] + [ids[i]];
    }
    assert ids[..|ids|] == ids;
    forall o ensures ViewAfter(service.arrived, o) == ViewAfter(Stream(store.Events(), SalesOrderStream(o)), o) {
      StoredStreamsAreListed(store, ids, o);
      AllRebuilt(store.Events(), ids, service.arrived, o);
    }
  }

  lemma StoredStreamsAreListed(store: InMemoryEventStore, ids: seq<StreamId>, o: OrderId)
    requires forall id :: id in ids <==> id in store.streams && KindOf(id) == SalesOrderKind
    ensures SalesOrderStream(o) in store.Events() ==> SalesOrderStream(o) in ids
  {
  }
}
