/**
 Where the guarantees end, by example.

 A rejected order is said to hold nothing.  It can hold stock all the same: when the watchdog stopped waiting for an
 allocation command that is handled later, when it stopped waiting for the answer to one that was handled in time, and
 when a command is delivered again after its compensation.  A compensation only gives back what was taken if it names
 the charged quantity, which an order that lists a beer twice with different quantities breaks.
 */
module Limits {
  import opened Messages
  import opened AvailabilityAggregate
  import opened AllocationSaga
  import opened SagaLaws
  import opened SalesOrderAggregate
  import opened Reactions
  import opened Soundness
  import opened Protocol
  import opened ProtocolInvariant
  import opened StockTheorems
  import opened Driving
  import opened Progress
  import opened AllOrNothing
  import opened DurableExecution
  import opened SampleWorlds

  /**
   Whatever the saga's state, even settled: an allocation command still on the bus takes stock for its order when it is
   delivered, exactly if the order does not hold the beer yet and the quantity is positive and in stock.
   */
  lemma DeliveredAllocationTakesStock(w: World, b: BeerId, q: int, o: OrderId)
    requires Reachable(w) && UpdateAvailabilityDueToSalesOrder(b, q, o) in w.sent && StockStream(w, b) != []
    requires o !in StockOf(StockStream(w, b)).held
    ensures var w' := After(w, Deliver(UpdateAvailabilityDueToSalesOrder(b, q, o)));
            && Reachable(w') && SagaEvents(w', o) == SagaEvents(w, o)
            && (0 < q <= StockOf(StockStream(w, b)).quantity ==>
                  && DecideAllocation(StockStream(w, b), b, q, o).Accept?
                  && StockStream(w', b) == StockStream(w, b) + DecideAllocation(StockStream(w, b), b, q, o).events)
            && (o in StockOf(StockStream(w', b)).held <==> 0 < q <= StockOf(StockStream(w, b)).quantity)
  {
    hide Reachable, StockOf, SagaOf;
    var step := Deliver(UpdateAvailabilityDueToSalesOrder(b, q, o));
    AfterIsTaken(w, step);
    assert Next(w, After(w, step));
    ReachableGoesOn(w, After(w, step));
    var st := StockStream(w, b);
    var d := DecideAllocation(st, b, q, o);
    if d.Accept? {
      StockOfSnoc(st, d.events[0]);
      GrowExtends(w.streams, AvailabilityStream(b), d.events);
    }
  }

  /** The step hands the stock of `b` an allocation command for `o` that it can meet. */
  predicate TakesFor(w: World, step: Step, o: OrderId, b: BeerId) {
    && step.Deliver? && step.m.UpdateAvailabilityDueToSalesOrder? && step.m.beer == b && step.m.order == o
    && 0 < step.m.quantity <= Available(w, b)
  }

  /** In any world and by any step, an order that does not hold a beer comes to hold it exactly by such a delivery. */
  lemma OrderComesToHoldIff(w: World, step: Step, w': World, o: OrderId, b: BeerId)
    requires Takes(w, step, w') && o !in StockOf(StockStream(w, b)).held
    ensures o in StockOf(StockStream(w', b)).held <==> TakesFor(w, step, o, b)
  {
    var st := StockStream(w, b);
    StockOfNothing();
    if StepReaction(w, step).Reaction? {
      GrowExtends(w.streams, StepTarget(step), StepReaction(w, step).events);
      if StepTarget(step) == AvailabilityStream(b) {
        StockTakesIff(w, step, o, b);
      }
    }
    hide StockOf, React, OnTimeOut, Drive;
  }

  lemma StockTakesIff(w: World, step: Step, o: OrderId, b: BeerId)
    requires StepTarget(step) == AvailabilityStream(b) && StepReaction(w, step).Reaction?
    requires o !in StockOf(StockStream(w, b)).held
    ensures o in StockOf(StockStream(w, b) + StepReaction(w, step).events).held <==> TakesFor(w, step, o, b)
  {
    hide StockOf;
    var st, events := StockStream(w, b), StepReaction(w, step).events;
    StockOfNothing();
    if events == [] {
      assert st + events == st;
    } else {
      assert events == [events[0]];
      StockOfSnoc(st, events[0]);
    }
  }

  /** A compensation keeps the books of a beer balanced exactly if it gives back what the order was charged. */
  lemma CompensationBalancesIff(w: World, b: BeerId, p: seq<Event>, q: int, o: OrderId)
    requires Balanced(w, b, p) && p != [] && o in StockOf(p).held && q > 0
    ensures DecideCompensation(p, q, o).Accept?
    ensures Balanced(w, b, p + DecideCompensation(p, q, o).events) <==> q == QuantityFor(RowsOf(w, o), b)
  {
    hide StockOf, HeldSum, Made, QuantityFor, RowsOf;
    var e := DecideCompensation(p, q, o).events[0];
    assert DecideCompensation(p, q, o).events == [e];
    StockOfSnoc(p, e);
    MadeSnoc(p, e);
    HoldChange(w, b, StockOf(p), e);
  }

  // ---- rejected orders that hold stock ----

  lemma {:induction false} SentStays(w: World, steps: seq<Step>)
    ensures w.sent <= AfterAll(w, steps).sent
    decreases |steps|
  {
    if steps == [] {
      NoSteps(w);
    } else {
      hide StepReaction, ProducedAfter, Announcements;
      SentStays(After(w, steps[0]), steps[1..]);
    }
  }

  /** The watchdog's step on a saga that has just started rejects it at once. */
  lemma TimeOutRejects(w: World, o: OrderId, rows: seq<Row>)
    requires rows != [] && SagaEvents(w, o) == [OrderAllocationStarted(o, rows)]
    requires NextPending(SagaOf(SagaEvents(w, o))) == Some(rows[0])
    ensures var w' := After(w, TimeOut(o));
            && SagaOf(SagaEvents(w', o)).status == Rejected && w.sent <= w'.sent
            && forall b :: StockStream(w', b) == StockStream(w, b)
  {
    hide SagaOf, Verdict, NextPending, Legal;
    var es := SagaEvents(w, o);
    FirstIsLegal(o, rows);
    assert SagaOf(es).rows[0].state == Pending;
    FirstPendingFailed(o, es, TimedOut);
    FirstPendingFails(o, es, TimedOut);
  }

  /**
   An order whose first row is in stock, given up by the watchdog before its command was handled: it is rejected, and
   when the command is handled after all, it holds the beer.
   */
  lemma {:induction false} TimedOutOrderCanHoldStock(v: World, o: OrderId, rows: seq<Row>) returns (steps: seq<Step>)
    requires Reachable(v) && OrderPlaced(o, rows) in v.sent && SagaEvents(v, o) == []
    requires rows != [] && 0 < rows[0].quantity <= Available(v, rows[0].beer)
    ensures Possible(v, steps) && Reachable(AfterAll(v, steps))
    ensures SagaOf(SagaEvents(AfterAll(v, steps), o)).status == Rejected
    ensures o in StockOf(StockStream(AfterAll(v, steps), rows[0].beer)).held
    ensures AnsweredOnce(StockStream(AfterAll(v, steps), rows[0].beer), o)
  {
    hide Reachable, SagaOf, StockOf, React, NextPending, Clean, Inv, DecideStart, OnTimeOut, AnsweredOnce;
    var b, q := rows[0].beer, rows[0].quantity;
    var ask := UpdateAvailabilityDueToSalesOrder(b, q, o);
    steps := [Deliver(OrderPlaced(o, rows)), TimeOut(o), Deliver(ask)];
    var w1 := After(v, steps[0]);
    StartingAsks(v, o, rows);
    StartingIsClean(v, o, rows);
    var w2 := After(w1, steps[1]);
    TimeOutRejects(w1, o, rows);
    ThreeAtOnce(v, steps);
    PossibleIsReachable(v, steps);
    TwoStepsReach(v, steps);
    ReachableInv(v);
    NotHeldBeforeStart(v, o, b);
    assert StockStream(w2, b) == StockStream(v, b);
    StockOfNothing();
    DeliveredAllocationTakesStock(w2, b, q, o);
    UnansweredBeforeStart(v, o, b);
    OneAnswerAtMost(StockStream(v, b), DecideAllocation(StockStream(v, b), b, q, o).events[0], o);
  }

  lemma UnansweredBeforeStart(v: World, o: OrderId, b: BeerId)
    requires Reachable(v) && SagaEvents(v, o) == []
    ensures Unanswered(StockStream(v, b), o) && AnsweredOnce(StockStream(v, b), o)
  {
    hide Reachable, Inv;
    ReachableInv(v);
    forall i | 0 <= i < |StockStream(v, b)| ensures !About(StockStream(v, b)[i], o) {
      NoTraceBeforeStart(v, o, b, i);
    }
  }

  lemma {:induction false} TwoStepsReach(v: World, steps: seq<Step>)
    requires Reachable(v) && |steps| == 3 && Possible(v, steps)
    ensures Reachable(After(After(v, steps[0]), steps[1]))
  {
    hide Reachable, After, Enabled;
    ThreeAtOnce(v, steps);
    AfterIsTaken(v, steps[0]);
    assert Next(v, After(v, steps[0]));
    ReachableGoesOn(v, After(v, steps[0]));
    AfterIsTaken(After(v, steps[0]), steps[1]);
    assert Next(After(v, steps[0]), After(After(v, steps[0]), steps[1]));
    ReachableGoesOn(After(v, steps[0]), After(After(v, steps[0]), steps[1]));
  }

  /**
   An order whose first row is in stock and allocated in time, but whose answer is late or lost: the watchdog fails the
   row, nothing is left to compensate, and the order is rejected while it holds the beer.
   */
  lemma {:induction false} UnheardOrderHoldsStock(v: World, o: OrderId, rows: seq<Row>) returns (steps: seq<Step>)
    requires Reachable(v) && OrderPlaced(o, rows) in v.sent && SagaEvents(v, o) == []
    requires rows != [] && 0 < rows[0].quantity <= Available(v, rows[0].beer)
    ensures |steps| == 3 && steps[2] == TimeOut(o) && Possible(v, steps) && Reachable(AfterAll(v, steps))
    ensures SagaOf(SagaEvents(AfterAll(v, steps), o)).status == Rejected
    ensures o in StockOf(StockStream(AfterAll(v, steps), rows[0].beer)).held
    ensures AnsweredOnce(StockStream(AfterAll(v, steps), rows[0].beer), o)
  {
    hide Reachable, SagaOf, StockOf, React, NextPending, Clean, Inv, DecideStart, OnTimeOut, AnsweredOnce;
    var b, q := rows[0].beer, rows[0].quantity;
    var ask := UpdateAvailabilityDueToSalesOrder(b, q, o);
    steps := [Deliver(OrderPlaced(o, rows)), Deliver(ask), TimeOut(o)];
    var w1 := After(v, steps[0]);
    StartingAsks(v, o, rows);
    StartingIsClean(v, o, rows);
    FirstStepIsPossible(v, steps[0]);
    PossibleIsReachable(v, [steps[0]]);
    ReachableInv(v);
    NotHeldBeforeStart(v, o, b);
    assert StockStream(w1, b) == StockStream(v, b);
    StockOfNothing();
    DeliveredAllocationTakesStock(w1, b, q, o);
    var w2 := After(w1, steps[1]);
    TimeOutRejects(w2, o, rows);
    ThreeAtOnce(v, steps);
    PossibleIsReachable(v, steps);
    UnansweredBeforeStart(v, o, b);
    OneAnswerAtMost(StockStream(v, b), DecideAllocation(StockStream(v, b), b, q, o).events[0], o);
  }

  /**
   An order whose first row is in stock but not all of whose rows are, served without a single failure: it is rejected
   and holds nothing, and when its first command is delivered a second time, it holds the beer again.
   */
  lemma {:induction false} RepeatedCommandReTakesStock(v: World, o: OrderId, rows: seq<Row>) returns (steps: seq<Step>)
    requires Reachable(v) && OrderPlaced(o, rows) in v.sent && SagaEvents(v, o) == [] && !Stuck(v, rows)
    requires rows != [] && !Fits(v, rows) && 0 < rows[0].quantity <= Available(v, rows[0].beer)
    ensures Possible(v, steps) && Reachable(AfterAll(v, steps)) && NeverTimedOut(SagaEvents(AfterAll(v, steps), o))
    ensures SagaOf(SagaEvents(AfterAll(v, steps), o)).status == Rejected
    ensures o in StockOf(StockStream(AfterAll(v, steps), rows[0].beer)).held
  {
    hide Reachable, SagaOf, StockOf, React, Inv, DecideStart, Fits, QuantityFor, Stuck, Settled, NeverTimedOut;
    hide AfterAll, Possible, After;
    var b, q := rows[0].beer, rows[0].quantity;
    var served := ServedAndAsked(v, o, rows);
    var w := AfterAll(v, served);
    PossibleIsReachable(v, served);
    ReachableInv(v);
    NotHeldBeforeStart(v, o, b);
    var again := Deliver(UpdateAvailabilityDueToSalesOrder(b, q, o));
    DeliveredAllocationTakesStock(w, b, q, o);
    FirstStepIsPossible(w, again);
    StepsCompose(v, served, [again]);
    steps := served + [again];
    PossibleIsReachable(v, steps);
  }

  lemma {:induction false} ServedAndAsked(v: World, o: OrderId, rows: seq<Row>) returns (steps: seq<Step>)
    requires Reachable(v) && OrderPlaced(o, rows) in v.sent && SagaEvents(v, o) == [] && !Stuck(v, rows)
    requires rows != [] && !Fits(v, rows) && 0 < rows[0].quantity <= Available(v, rows[0].beer)
    ensures Possible(v, steps)
    ensures var w, b := AfterAll(v, steps), rows[0].beer;
            && SagaOf(SagaEvents(w, o)).status == Rejected && NeverTimedOut(SagaEvents(w, o))
            && UpdateAvailabilityDueToSalesOrder(b, rows[0].quantity, o) in w.sent
            && StockStream(w, b) != [] && Available(w, b) == Available(v, b)
            && StockOf(StockStream(w, b)).held == StockOf(StockStream(v, b)).held
  {
    hide Reachable, SagaOf, StockOf, React, Inv, DecideStart, Fits, QuantityFor, Stuck, NeverTimedOut;
    hide AfterAll, Possible, After;
    steps := PlacedOrderIsAllOrNothing(v, o, rows);
    StartingAsks(v, o, rows);
    FirstStepIsPossible(v, steps[0]);
    SentStays(After(v, steps[0]), steps[1..]);
    StepsCompose(v, [steps[0]], steps[1..]);
    assert steps == [steps[0]] + steps[1..];
    StockOfNothing();
  }

  // ---- and there are such worlds ----

  /** So rejected orders that hold stock are reachable, in three ways: a late command, a late answer, a repeated command. */
  lemma {:induction false} RejectedOrdersDoHoldStock() returns (late: World, unheard: World, repeated: World)
    ensures Reachable(late) && SagaOf(SagaEvents(late, 1)).status == Rejected
    ensures 1 in StockOf(StockStream(late, 7)).held && AnsweredOnce(StockStream(late, 7), 1)
    ensures Reachable(unheard) && SagaOf(SagaEvents(unheard, 1)).status == Rejected
    ensures 1 in StockOf(StockStream(unheard, 7)).held && AnsweredOnce(StockStream(unheard, 7), 1)
    ensures exists before :: Reachable(before) && unheard == After(before, TimeOut(1))
                             && 1 in StockOf(StockStream(before, 7)).held
    ensures Reachable(repeated) && SagaOf(SagaEvents(repeated, 1)).status == Rejected
    ensures 1 in StockOf(StockStream(repeated, 7)).held && NeverTimedOut(SagaEvents(repeated, 1))
  {
    hide Reachable, SagaOf, StockOf, NeverTimedOut, AnsweredOnce, AfterAll, Possible, Available, After;
    var v := OrderCanBePlaced([Row(7, 5)]);
    var steps := TimedOutOrderCanHoldStock(v, 1, [Row(7, 5)]);
    late := AfterAll(v, steps);
    var slow := UnheardOrderHoldsStock(v, 1, [Row(7, 5)]);
    unheard := AfterAll(v, slow);
    ThreeAtOnce(v, slow);
    TwoStepsReach(v, slow);
    var before := After(After(v, slow[0]), slow[1]);
    TimingOutMovesNoStock(before, 1, 7);
    assert Reachable(before) && unheard == After(before, TimeOut(1));
    var rows := [Row(7, 5), Row(8, 1)];
    var u := OrderCanBePlaced(rows);
    assert rows[1].quantity > Available(u, rows[1].beer);
    var more := RepeatedCommandReTakesStock(u, 1, rows);
    repeated := AfterAll(u, more);
  }

  lemma TimingOutMovesNoStock(w: World, o: OrderId, b: BeerId)
    ensures StockStream(After(w, TimeOut(o)), b) == StockStream(w, b)
  {
    hide OnTimeOut;
  }
}
