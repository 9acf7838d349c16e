/**
 What the events of a beer say, told by the events before them.

 A shortage says what was in stock, and that figure reaches the customer as the reason of the rejection.  Each event names
 the beer as the last production before it did.
 */
module StockRecords {
  import opened Messages
  import opened AvailabilityAggregate
  import opened AllocationSaga
  import opened SagaLaws
  import opened Reactions
  import opened Soundness
  import opened Protocol
  import opened ProtocolInvariant
  import opened StockTheorems
  import opened Agreement

  /** The quantity that the newest event with one gave the beer; it starts with none. */
  function LastQuantity(es: seq<Event>): int {
    if es == [] then 0
    else match es[|es| - 1]
         case AvailabilityUpdatedDueToProductionOrder(_, _, q) => q
         case BeerAvailabilityUpdated(_, _, q, _) => q
         case AvailabilityCompensated(_, _, q, _) => q
         case _ => LastQuantity(es[..|es| - 1])
  }

  /** The name that the newest production gave the beer; it starts without one. */
  function LastName(es: seq<Event>): string {
    if es == [] then ""
    else if es[|es| - 1].AvailabilityUpdatedDueToProductionOrder? then es[|es| - 1].name
    else LastName(es[..|es| - 1])
  }

  lemma {:induction false} ReplayHasLastQuantity(es: seq<Event>)
    ensures StockOf(es).quantity == LastQuantity(es)
  {
    if es != [] {
      ReplayHasLastQuantity(es[..|es| - 1]);
    }
  }

  /** The beer had less than the order asked for; a beer without history had nothing. */
  predicate ShortAt(st: seq<Event>, i: nat, b: BeerId, o: OrderId, q: int, a: int) {
    && i < |st| && st[i] == QuantityNotFound(b, o, q, a)
    && a == LastQuantity(st[..i]) && (i > 0 ==> 0 <= a < q) && (i == 0 ==> a == 0)
  }

  /** In every run a recorded shortage tells what the beer had, which was less than what was asked for. */
  lemma {:induction false} ShortagesAreTrue(w: World, b: BeerId, i: nat)
    requires Reachable(w) && i < |StockStream(w, b)| && StockStream(w, b)[i].QuantityNotFound?
    ensures var e := StockStream(w, b)[i]; ShortAt(StockStream(w, b), i, b, e.order, e.requested, e.available)
  {
    hide Reachable, Justified, StockOf;
    ReachableInv(w);
    var st := StockStream(w, b);
    assert SoundStream(AvailabilityStream(b), st);
    NeverNegativeSoFar(w, b, i);
    ReplayHasLastQuantity(st[..i]);
    assert StockCaused(w.streams, b, st[..i], st[i]);
    if i > 0 {
      BeerOfStream(b, st[..i]);
      assert HomeOf(st[i]) == AvailabilityStream(b);
    }
  }

  /** A reason given for a rejection: the watchdog gave up, or one of the order's beers really was short. */
  ghost predicate TrueReason(w: World, o: OrderId, why: Reason) {
    || why == TimedOut
    || (why.Shortage? && exists i: nat :: ShortAt(StockStream(w, why.beer), i, why.beer, o, why.requested, why.available))
  }

  lemma {:induction false} FailuresHaveTrueReasons(w: World, o: OrderId, i: nat)
    requires Reachable(w) && i < |SagaEvents(w, o)| && SagaEvents(w, o)[i].AllocationStepFailed?
    ensures TrueReason(w, o, SagaEvents(w, o)[i].reason)
  {
    hide Reachable, ShortAt;
    ReachableInv(w);
    var e := SagaEvents(w, o)[i];
    assert SagaCaused(w.streams, o, e);
    if e.reason != TimedOut {
      var st := StockStream(w, e.beer);
      var j :| 0 <= j < |st| && st[j] == QuantityNotFound(e.beer, o, e.reason.requested, e.reason.available);
      ShortagesAreTrue(w, e.beer, j);
    }
  }

  /** So the reason that a rejected order carries, in the warehouse and in sales, is true. */
  lemma {:induction false} RejectionReasonIsTrue(w: World, o: OrderId)
    requires Reachable(w)
    ensures SagaOf(SagaEvents(w, o)).status == Rejected ==> TrueReason(w, o, SagaOf(SagaEvents(w, o)).reason)
    ensures forall e | e in SalesEvents(w, o) && e.SalesOrderAllocationRejected? :: TrueReason(w, o, e.reason)
  {
    hide Reachable, SagaOf, TrueReason, Inv;
    if SagaOf(SagaEvents(w, o)).status == Rejected {
      var i := RejectionHasOneCause(w, o);
      FailuresHaveTrueReasons(w, o, i);
    }
    forall e | e in SalesEvents(w, o) && e.SalesOrderAllocationRejected? ensures TrueReason(w, o, e.reason) {
      var i :| 0 <= i < |SalesEvents(w, o)| && SalesEvents(w, o)[i] == e;
      SettlementsAgree(w, o, i);
    }
  }

  // ---- names ----

  predicate Named(e: Event) {
    e.BeerAvailabilityUpdated? || e.AvailabilityCompensated?
  }

  /** Allocations and compensations carry the name of the last production before them. */
  lemma {:induction false} NamesAreKept(w: World, b: BeerId, i: nat)
    requires Inv(w) && i <= |StockStream(w, b)|
    ensures StockOf(StockStream(w, b)[..i]).name == LastName(StockStream(w, b)[..i])
    ensures i < |StockStream(w, b)| && Named(StockStream(w, b)[i]) ==>
              StockStream(w, b)[i].name == LastName(StockStream(w, b)[..i])
  {
    hide Justified, StockOf;
    var st := StockStream(w, b);
    if i == 0 {
      assert st[..0] == [];
      StockOfNothing();
    } else {
      NamesAreKept(w, b, i - 1);
      PrefixGrows(st, i - 1);
      StockOfSnoc(st[..i - 1], st[i - 1]);
      assert StockCaused(w.streams, b, st[..i - 1], st[i - 1]);
      assert st[..i][..i - 1] == st[..i - 1];
    }
    if i < |st| {
      assert StockCaused(w.streams, b, st[..i], st[i]);
      EventIsNamed(w, b, i);
    }
  }

  lemma EventIsNamed(w: World, b: BeerId, i: nat)
    requires i < |StockStream(w, b)| && StockCaused(w.streams, b, StockStream(w, b)[..i], StockStream(w, b)[i])
    ensures var p, e := StockStream(w, b)[..i], StockStream(w, b)[i]; Named(e) ==> e.name == StockOf(p).name
  {
    hide Justified, StockOf;
    var p, e := StockStream(w, b)[..i], StockStream(w, b)[i];
    match e {
      case BeerAvailabilityUpdated(_, _, _, o) =>
        var q :| AllocationCause(w.streams, b, p, e, o, q);
      case AvailabilityCompensated(_, _, _, o) =>
        var q :| ReleaseCause(w.streams, b, p, e, o, q);
      case _ =>
    }
  }

  // ---- production ----

  lemma StockStreamIsOfItsBeer(w: World, b: BeerId)
    requires Inv(w)
    ensures StockStream(w, b) != [] ==> StockOf(StockStream(w, b)).beer == b
  {
    hide StockOf;
    if StockStream(w, b) != [] {
      assert SoundStream(AvailabilityStream(b), StockStream(w, b));
      BeerOfStream(b, StockStream(w, b));
    }
  }

  lemma ZeroAtFirst()
    ensures LastQuantity([]) == 0
  {
  }

  /** Every positive production is accepted, adds exactly its units, and names the beer. */
  lemma {:induction false} ProductionIsAdded(w: World, b: BeerId, name: string, q: int)
    requires Reachable(w) && q > 0
    ensures var r := React(w.streams, UpdateAvailabilityDueToProductionOrder(b, name, q));
            r == Reaction([AvailabilityUpdatedDueToProductionOrder(b, name, LastQuantity(StockStream(w, b)) + q)], [])
  {
    hide Reachable, Inv, StockOf, LastQuantity;
    ReachableInv(w);
    var st := StockStream(w, b);
    ReplayHasLastQuantity(st);
    StockStreamIsOfItsBeer(w, b);
    ZeroAtFirst();
  }
}
