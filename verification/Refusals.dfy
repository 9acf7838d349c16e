/** Which messages a handler refuses as an error, told by what is stored and what the message asks for. */
module Refusals {
  import opened Messages
  import opened AvailabilityAggregate
  import opened AllocationSaga
  import opened SalesOrderAggregate
  import opened Reactions
  import opened Soundness
  import opened Protocol
  import opened ProtocolInvariant
  import opened Agreement

  /** The text has a character that is not white space. */
  predicate Says(text: string) {
    exists i | 0 <= i < |text| :: !IsSpace(text[i])
  }

  predicate SettledAs(es: seq<Event>, done: bool) {
    exists i | 0 <= i < |es| :: if done then es[i].SalesOrderAllocated? else es[i].SalesOrderAllocationRejected?
  }

  /**
   The errors: a quantity that is not positive, of a beer that is tracked or is to be produced; a compensation of a beer
   that is not tracked; a new order without number, customer or date; a settlement of an order that is not there, or that
   is settled the other way.
   */
  predicate IsRefused(w: World, m: Message, error: Error) {
    match m
    case UpdateAvailabilityDueToProductionOrder(_, _, q) => q <= 0 && error == InvalidQuantity
    case UpdateAvailabilityDueToSalesOrder(b, q, _) => StockStream(w, b) != [] && q <= 0 && error == InvalidQuantity
    case CompensateAvailability(b, q, _) =>
      if StockStream(w, b) == [] then error == AggregateNotFound else q <= 0 && error == InvalidQuantity
    case CreateSalesOrder(o, h, _) =>
      SalesEvents(w, o) == [] && !(Says(h.number) && Says(h.customer) && h.date != 0) && error == InvalidSalesOrder
    case MarkSalesOrderAllocated(o) =>
      if SalesEvents(w, o) == [] then error == AggregateNotFound
      else SettledAs(SalesEvents(w, o), false) && error == AllocationConflict
    case MarkSalesOrderAllocationRejected(o, _) =>
      if SalesEvents(w, o) == [] then error == AggregateNotFound
      else SettledAs(SalesEvents(w, o), true) && error == AllocationConflict
    case _ => false
  }

  /** In every reachable world any message at all is refused exactly so; everything else is handled. */
  lemma {:induction false} RefusedIff(w: World, m: Message, error: Error)
    requires Reachable(w)
    ensures React(w.streams, m) == Refusal(error) <==> IsRefused(w, m, error)
  {
    hide Reachable, Inv, SagaOf, StockOf, OrderOf, Justified;
    hide DecideStart, DecideSucceeded, DecideFailed, DecideCompensated, NextAllocation, Compensations, ToCompensate;
    ReachableInv(w);
    match m {
      case CreateSalesOrder(_, h, _) =>
        BlankSaysNothing(h.number);
        BlankSaysNothing(h.customer);
      case MarkSalesOrderAllocated(o) => SettlementShows(w, o);
      case MarkSalesOrderAllocationRejected(o, _) => SettlementShows(w, o);
      case _ =>
    }
  }

  lemma BlankSaysNothing(text: string)
    ensures Blank(text) <==> !Says(text)
  {
  }

  /** The replayed order shows what was recorded: as it was created, and how it was settled. */
  lemma {:induction false} SettlementShows(w: World, o: OrderId)
    requires Inv(w)
    ensures var es, s := SalesEvents(w, o), OrderOf(SalesEvents(w, o));
            es != [] ==>
              && es[0].SalesOrderCreated? && s.id == o && s.header == es[0].header && s.rows == es[0].rows
              && (s.allocation == AllocationDone <==> SettledAs(es, true))
              && (s.allocation == AllocationRefused <==> SettledAs(es, false))
              && s.allocation != Unset
              && (forall e | e in es && e.SalesOrderAllocationRejected? :: s.reason == e.reason)
              && (!SettledAs(es, false) ==> s.reason == NoReason)
  {
    hide OrderOf, Justified;
    var es := SalesEvents(w, o);
    assert SalesCaused(w, o);
    hide Inv;
    if es != [] {
      OrderOfFirst(es[0]);
      if |es| == 2 {
        OrderOfSnoc([es[0]], es[1]);
        assert es == [es[0]] + [es[1]];
      } else {
        assert es == [es[0]];
      }
    }
  }
}
