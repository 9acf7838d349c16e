/**
 When a running saga needs the watchdog.

 Sales accepts rows that ask for nothing.  A beer that is tracked refuses such a row as an error, so nobody ever answers
 the saga.  It is then stuck, exactly as `Blocked` says, until the watchdog gives the row up.
 */
module Blocking {
  import opened Messages
  import opened AvailabilityAggregate
  import opened AllocationSaga
  import opened SagaLaws
  import opened Reactions
  import opened Soundness
  import opened Protocol
  import opened ProtocolInvariant
  import opened StockTheorems
  import opened Driving
  import opened Progress
  import opened SampleWorlds

  /** A step that is not the watchdog's on this order. */
  ghost predicate QuietlyNext(w: World, w': World, o: OrderId) {
    exists step :: step != TimeOut(o) && Takes(w, step, w')
  }

  ghost predicate QuietPath(ws: seq<World>, w: World, o: OrderId) {
    && ws != [] && ws[0] == w
    && forall i | 0 <= i < |ws| - 1 :: QuietlyNext(ws[i], ws[i + 1], o)
  }

  /** Without the watchdog, something may still happen to the saga. */
  ghost predicate CanMove(w: World, o: OrderId) {
    exists ws :: QuietPath(ws, w, o) && SagaEvents(ws[|ws| - 1], o) != SagaEvents(w, o)
  }

  // ---- a blocked saga stays blocked ----

  lemma SendsNoDomainEvents(w: World, step: Step, m: Message)
    requires step != Place(m) && StepReaction(w, step).Reaction? && m in StepReaction(w, step).sends
    ensures !m.DomainEvent?
  {
    hide SagaOf, DecideStart, DecideSucceeded, DecideFailed, DecideCompensated, ToCompensate, NextPending;
    hide DecideProduction, DecideAllocation, DecideCompensation;
  }

  /** A stock's answer about a pending row is about the row that the saga waits for, and an allocation needs a quantity. */
  lemma {:induction false} AnswersConcernTheAwaitedRow(w: World, o: OrderId, b: BeerId, i: nat)
    requires Inv(w) && i < |StockStream(w, b)| && (Allocates(StockStream(w, b)[i], o) || Refuses(StockStream(w, b)[i], o))
    requires SagaEvents(w, o) != [] && SagaOf(SagaEvents(w, o)).status == Running
    requires RowIn(SagaOf(SagaEvents(w, o)).rows, b, Pending)
    ensures NextPending(SagaOf(SagaEvents(w, o))).Some? && NextPending(SagaOf(SagaEvents(w, o))).value.beer == b
    ensures Allocates(StockStream(w, b)[i], o) ==> NextPending(SagaOf(SagaEvents(w, o))).value.quantity > 0
  {
    hide SagaOf, Inv, Legal, StockOf, Rested;
    var es, st := SagaEvents(w, o), StockStream(w, b);
    SagaIsRested(w, o);
    RestedRunWaits(SagaOf(es));
    var row := NextPending(SagaOf(es)).value;
    assert es[..|es|] == es;
    var n', q := AnswerWasAwaited(w, o, b, i);
    WaitsInOrder(o, es, |es|, n', row, Row(b, q));
  }

  lemma {:induction false} AnswerWasAwaited(w: World, o: OrderId, b: BeerId, i: nat) returns (n: nat, q: int)
    requires Inv(w) && i < |StockStream(w, b)| && (Allocates(StockStream(w, b)[i], o) || Refuses(StockStream(w, b)[i], o))
    ensures 0 < n && Awaited(SagaEvents(w, o), n, Row(b, q))
    ensures Allocates(StockStream(w, b)[i], o) ==> q > 0
  {
    hide SagaOf, StockOf;
    var es, st := SagaEvents(w, o), StockStream(w, b);
    assert StockCaused(w.streams, b, st[..i], st[i]);
    if Allocates(st[i], o) {
      q :| AllocationCause(w.streams, b, st[..i], st[i], o, q);
    } else {
      q := st[i].requested;
    }
    n :| Awaited(es, n, Row(b, q));
    assert es[..0] == [];
    NothingIsLegal(o);
  }

  lemma DeliveredEventIsStored(w: World, e: Event)
    requires Inv(w) && DomainEvent(e) in w.sent
    ensures e in Stream(w.streams, HomeOf(e))
  {
    assert Justified(w.streams, DomainEvent(e));
  }

  /** No delivery and no resumption makes a blocked saga record anything. */
  lemma {:induction false} BlockedRecordsNothing(w: World, step: Step, o: OrderId)
    requires Inv(w) && Blocked(w, o) && SagaEvents(w, o) != [] && Enabled(w, step) && step != TimeOut(o)
    requires StepTarget(step) == SagaStream(o) && StepReaction(w, step).Reaction?
    ensures StepReaction(w, step).events == []
  {
    hide SagaOf, Inv, Verdict, NextAllocation, Compensations, ToCompensate, AllIn;
    if step.Deliver? && step.m.DomainEvent? {
      var e := step.m.event;
      DeliveredEventIsStored(w, e);
      var st := Stream(w.streams, HomeOf(e));
      var i :| 0 <= i < |st| && st[i] == e;
      var s := SagaOf(SagaEvents(w, o));
      if (Allocates(e, o) || Refuses(e, o)) && RowIn(s.rows, e.beer, Pending) {
        AnswersConcernTheAwaitedRow(w, o, e.beer, i);
      }
    }
  }

  /** A recorded shortage comes from delivering the allocation command it answers. */
  lemma ShortageAnswersACommand(w: World, step: Step, b: BeerId, o: OrderId, q: int, a: int)
    requires Sound(w.streams) && Enabled(w, step) && StepReaction(w, step).Reaction?
    requires QuantityNotFound(b, o, q, a) in StepReaction(w, step).events
    ensures step == Deliver(UpdateAvailabilityDueToSalesOrder(b, q, o))
    ensures StockStream(w, b) != [] ==> q > 0
  {
    hide SagaOf, StockOf, Legal, ToCompensate, AllIn, RowIn, NextPending, Drive, Verdict, NextAllocation, Compensations;
    if step.Deliver? && Target(step.m).AvailabilityStream? {
      var es := Stream(w.streams, Target(step.m));
      if es != [] {
        BeerOfStream(Target(step.m).beer, es);
      }
    }
  }

  /** Nor does a stock answer it. */
  lemma {:induction false} BlockedIsNotAnswered(w: World, step: Step, o: OrderId, row: Row, q: int, a: int)
    requires Inv(w) && SagaEvents(w, o) != [] && Enabled(w, step) && StepReaction(w, step).Reaction?
    requires NextPending(SagaOf(SagaEvents(w, o))) == Some(row)
    requires row.quantity <= 0 && StockStream(w, row.beer) != []
    ensures DomainEvent(QuantityNotFound(row.beer, o, q, a)) !in Announcements(StepReaction(w, step))
  {
    hide SagaOf, StockOf, StepReaction, RowsOf, Legal, QuantityFor;
    var r, e := StepReaction(w, step), QuantityNotFound(row.beer, o, q, a);
    if i :| 0 <= i < |Announcements(r)| && Announcements(r)[i] == DomainEvent(e) {
      if i >= |r.events| {
        assert r.sends[i - |r.events|] == DomainEvent(e);
        NoPlacedEvents(w, step);
        SendsNoDomainEvents(w, step, DomainEvent(e));
      } else {
        assert r.events[i] == e;
        ShortageAnswersACommand(w, step, row.beer, o, q, a);
        CommandAsksForTheRow(w, o, row, q);
      }
    }
  }

  lemma NoPlacedEvents(w: World, step: Step)
    requires Enabled(w, step)
    ensures forall e :: step != Place(DomainEvent(e))
  {
  }

  /** A command for the beer that a saga waits for carries the quantity it waits for. */
  lemma {:induction false} CommandAsksForTheRow(w: World, o: OrderId, row: Row, q: int)
    requires Inv(w) && SagaEvents(w, o) != [] && NextPending(SagaOf(SagaEvents(w, o))) == Some(row)
    requires UpdateAvailabilityDueToSalesOrder(row.beer, q, o) in w.sent
    ensures q == row.quantity
  {
    hide SagaOf, RowsOf, QuantityFor;
    assert Justified(w.streams, UpdateAvailabilityDueToSalesOrder(row.beer, q, o));
    hide Inv, Justified;
    AllocationsCarryTheRow(w, row.beer, o, q);
    var es := SagaEvents(w, o);
    assert es[..|es|] == es;
    var k := AwaitedIsFirst(w, o, |es|, row);
    QuantityOfFirst(RowsOf(w, o), k);
  }

  lemma {:induction false} BlockedStays(w: World, w': World, o: OrderId)
    requires Inv(w) && SagaEvents(w, o) != [] && Blocked(w, o) && QuietlyNext(w, w', o)
    ensures SagaEvents(w', o) == SagaEvents(w, o) && Blocked(w', o)
  {
    hide SagaOf, Inv, StepReaction, NextPending, StepTarget, Enabled;
    var step :| step != TimeOut(o) && Takes(w, step, w');
    if StepReaction(w, step).Reaction? {
      var r := StepReaction(w, step);
      GrowExtends(w.streams, StepTarget(step), r.events);
      if StepTarget(step) == SagaStream(o) {
        BlockedRecordsNothing(w, step, o);
      }
      assert SagaEvents(w, o) + [] == SagaEvents(w, o);
      var row, told := NextPending(SagaOf(SagaEvents(w, o))).value, Announcements(r);
      var b := row.beer;
      assert Stream(w.streams, AvailabilityStream(b)) <= Stream(w'.streams, AvailabilityStream(b));
      forall q, a ensures DomainEvent(QuantityNotFound(b, o, q, a)) !in w'.sent {
        BlockedIsNotAnswered(w, step, o, row, q, a);
        var m := DomainEvent(QuantityNotFound(b, o, q, a));
        assert m !in w.sent && m !in told;
        assert m in w'.sent ==> m in w.sent || m in told;
      }
    }
  }

  lemma {:induction false} BlockedForever(ws: seq<World>, w: World, o: OrderId, i: nat)
    requires Reachable(w) && SagaEvents(w, o) != [] && Blocked(w, o) && QuietPath(ws, w, o) && i < |ws|
    ensures Reachable(ws[i]) && SagaEvents(ws[i], o) == SagaEvents(w, o) && Blocked(ws[i], o)
  {
    hide Reachable, Inv, Blocked, Takes;
    if i > 0 {
      BlockedForever(ws, w, o, i - 1);
      ReachableInv(ws[i - 1]);
      assert QuietlyNext(ws[i - 1], ws[i - 1 + 1], o);
      BlockedStays(ws[i - 1], ws[i], o);
      var step :| step != TimeOut(o) && Takes(ws[i - 1], step, ws[i]);
      assert Next(ws[i - 1], ws[i]);
      ReachableGoesOn(ws[i - 1], ws[i]);
    }
  }

  // ---- and any other running saga can move ----

  predicate Quiet(steps: seq<Step>, o: OrderId) {
    forall i | 0 <= i < |steps| :: steps[i] != TimeOut(o)
  }

  lemma {:induction false} QuietStepsArePath(w: World, steps: seq<Step>, o: OrderId) returns (ws: seq<World>)
    requires Possible(w, steps) && Quiet(steps, o)
    ensures QuietPath(ws, w, o) && ws[|ws| - 1] == AfterAll(w, steps)
    decreases |steps|
  {
    hide Takes, Enabled, After;
    if steps == [] {
      ws := [w];
      NoSteps(w);
    } else {
      var w1 := After(w, steps[0]);
      AfterIsTaken(w, steps[0]);
      assert QuietlyNext(w, w1, o);
      var rest := QuietStepsArePath(w1, steps[1..], o);
      ws := [w] + rest;
      forall i | 0 <= i < |ws| - 1 ensures QuietlyNext(ws[i], ws[i + 1], o) {
        if i > 0 {
          assert QuietlyNext(rest[i - 1], rest[i - 1 + 1], o);
        }
      }
    }
  }

  /** A running saga that is not blocked records something in a few steps, none of them the watchdog's. */
  lemma {:induction false} UnblockedMoves(w: World, o: OrderId) returns (steps: seq<Step>)
    requires Reachable(w) && SagaEvents(w, o) != [] && SagaOf(SagaEvents(w, o)).status == Running && !Blocked(w, o)
    ensures Possible(w, steps) && Quiet(steps, o) && SagaEvents(AfterAll(w, steps), o) != SagaEvents(w, o)
  {
    hide Reachable, SagaOf, Inv, Possible, AfterAll, After, Enabled, Recorded, Reply, OnFailed;
    ReachableInv(w);
    if Answerable(w, o) {
      steps := AskAndAnswer(w, o);
    } else {
      var step, b, why := FailingRound(w, o);
      steps := [step];
      FirstStepIsPossible(w, step);
    }
  }

  lemma {:induction false} AskAndAnswer(w: World, o: OrderId) returns (steps: seq<Step>)
    requires Reachable(w) && SagaEvents(w, o) != [] && SagaOf(SagaEvents(w, o)).status == Running && Answerable(w, o)
    ensures Possible(w, steps) && Quiet(steps, o) && SagaEvents(AfterAll(w, steps), o) != SagaEvents(w, o)
  {
    hide Reachable, SagaOf, Inv, Possible, AfterAll, After, Enabled, Recorded, Reply, Prompted, Drive, NextPending;
    var first := Resume(o, |SagaEvents(w, o)|);
    ResumingPrompts(w, o);
    FirstStepIsPossible(w, first);
    PossibleIsReachable(w, [first]);
    var w1 := After(w, first);
    ReachableInv(w1);
    var rest, b, q, e := ForwardRound(w1, o);
    steps := [first] + rest;
    StepsCompose(w, [first], rest);
  }

  /** A running saga is stuck without the watchdog exactly if it is blocked. */
  lemma {:induction false} StuckIffBlocked(w: World, o: OrderId)
    requires Reachable(w) && SagaEvents(w, o) != [] && SagaOf(SagaEvents(w, o)).status == Running
    ensures !CanMove(w, o) <==> Blocked(w, o)
  {
    hide Reachable, SagaOf, Blocked, QuietlyNext, AfterAll, Possible;
    if Blocked(w, o) {
      forall ws | QuietPath(ws, w, o) ensures SagaEvents(ws[|ws| - 1], o) == SagaEvents(w, o) {
        BlockedForever(ws, w, o, |ws| - 1);
      }
    } else {
      var steps := UnblockedMoves(w, o);
      var ws := QuietStepsArePath(w, steps, o);
    }
  }

  // ---- and there are such worlds ----

  /** Five units of beer 7 are brewed, and an order asks for none of it. */
  lemma {:induction false} SomeSagaIsBlocked() returns (w: World)
    ensures Reachable(w) && SagaOf(SagaEvents(w, 1)).status == Running && Blocked(w, 1)
  {
    hide Reachable, SagaOf, React, NextPending, StockOf, Inv;
    var rows := [Row(7, 0)];
    var v := OrderCanBePlaced(rows);
    w := StepReaches(v, Deliver(OrderPlaced(1, rows)));
    StartingIsClean(v, 1, rows);
    StartingAsks(v, 1, rows);
    SagaOfFirst(OrderAllocationStarted(1, rows));
    StockOfNothing();
    assert StockStream(w, 7) == StockStream(v, 7) != [];
    assert SagaOf(SagaEvents(w, 1)).rows[0] == SagaRow(Row(7, 0), Pending);
    NothingOnItsWay(w, 1, 7);
  }

  lemma {:induction false} NothingOnItsWay(w: World, o: OrderId, b: BeerId)
    requires Reachable(w) && Clean(w, o) && RowIn(SagaOf(SagaEvents(w, o)).rows, b, Pending)
    ensures !ShortageOnItsWay(w, o, b)
  {
    hide Reachable, Inv, SagaOf;
    ReachableInv(w);
    assert CleanBeer(w, o, b);
    if q, a :| DomainEvent(QuantityNotFound(b, o, q, a)) in w.sent {
      DeliveredEventIsStored(w, QuantityNotFound(b, o, q, a));
    }
  }
}
