/**
 Which sales orders can still be settled.

 The message that starts a saga can get lost, and so can the one that announces how it ended.  Neither is ever sent again:
 an unfinished saga is resumed, but one that has not started is not known, and one that is settled is not in flight.
 These are the only ways in which a created order can be left without a settlement.

 The start is lost only where events are published directly: their publication can fail after they were stored.  Where an
 outbox publishes every stored event, the announcement can still get lost, because it is not an event of any stream.
 */
module LostOutcomes {
  import opened Messages
  import opened AvailabilityAggregate
  import opened AllocationSaga
  import opened SagaLaws
  import opened SalesOrderAggregate
  import opened Reactions
  import opened Soundness
  import opened Protocol
  import opened ProtocolInvariant
  import opened StockTheorems
  import opened Agreement
  import opened Driving
  import opened AllOrNothing
  import opened Progress
  import opened SampleWorlds

  /** What tells the warehouse of the order. */
  predicate Triggers(m: Message, o: OrderId) {
    (m.OrderPlaced? && m.order == o) || (m.DomainEvent? && m.event.SalesOrderCreated? && m.event.order == o)
  }

  /** What tells sales how the saga ended. */
  predicate Announces(m: Message, o: OrderId) {
    (m.AllocationCompleted? || m.AllocationRejected?) && m.order == o
  }

  predicate Settles(m: Message, o: OrderId) {
    (m.MarkSalesOrderAllocated? || m.MarkSalesOrderAllocationRejected?) && m.order == o
  }

  /** The saga is under way, or the message that is to bring it on is on the bus. */
  ghost predicate Alive(w: World, o: OrderId) {
    match SagaOf(SagaEvents(w, o)).status
    case Unstarted => exists m :: m in w.sent && Triggers(m, o)
    case Running => true
    case Compensating => true
    case _ => exists m :: m in w.sent && (Announces(m, o) || Settles(m, o))
  }

  /** Some course of events settles the order. */
  ghost predicate CanBeSettled(w: World, o: OrderId) {
    exists w' :: LeadsTo(w, w') && |SalesEvents(w', o)| == 2
  }

  // ---- a dead order stays dead ----

  lemma UnstartedIsEmpty(w: World, o: OrderId)
    requires Inv(w)
    ensures SagaOf(SagaEvents(w, o)).status == Unstarted <==> SagaEvents(w, o) == []
  {
    hide Inv, SagaOf, Legal, Shaped;
    SagaIsLegal(w, o);
    LegalShaped(o, SagaEvents(w, o));
  }

  /** A saga that has ended records nothing, and one that has not started records only its start. */
  lemma {:induction false} IdleSagaRecordsNothing(w: World, step: Step, o: OrderId)
    requires Inv(w) && Enabled(w, step) && StepReaction(w, step).Reaction? && StepTarget(step) == SagaStream(o)
    requires var s := SagaOf(SagaEvents(w, o)); s.status == Unstarted || Settled(s)
    ensures StepReaction(w, step).events != [] ==> SagaEvents(w, o) == [] && step.Deliver? && Triggers(step.m, o)
  {
    hide Inv, SagaOf, Verdict, ToCompensate, RowIn, AllIn, FirstPending;
  }

  /** A sales order that was created records only what a settling command asks for. */
  lemma CreatedOrderRecords(w: World, step: Step, o: OrderId)
    requires Inv(w) && Enabled(w, step) && StepReaction(w, step).Reaction? && StepTarget(step) == SalesOrderStream(o)
    requires |SalesEvents(w, o)| == 1 && StepReaction(w, step).events != []
    ensures step.Deliver? && Settles(step.m, o) && SagaEvents(w, o) != []
  {
    assert SalesCaused(w, o) && Justified(w.streams, step.m);
    hide React, Inv;
    SalesReaction(w.streams, step.m, o);
  }

  /** Where a message that the order depends on can come from. */
  lemma {:induction false} SourcesOf(w: World, step: Step, o: OrderId, m: Message)
    requires StepReaction(w, step).Reaction? && m in StepReaction(w, step).sends && Enabled(w, step)
    ensures Triggers(m, o) ==> step.Deliver? && Triggers(step.m, o)
    ensures Settles(m, o) ==> step.Deliver? && Announces(step.m, o)
    ensures Announces(m, o) ==> StepTarget(step).SagaStream? && !step.Resume? && StepReaction(w, step).events != []
  {
    hide SagaOf, DecideSucceeded, DecideFailed, DecideCompensated, ToCompensate, NextPending;
    hide DecideProduction, DecideAllocation, DecideCompensation, DecideAllocated, DecideRejected, DecideCreate;
  }

  /** A saga announces only its own end. */
  lemma AnnouncesItself(w: World, step: Step, o: OrderId, m: Message)
    requires Inv(w) && Enabled(w, step) && StepTarget(step).SagaStream? && !step.Resume? && !step.Place?
    requires StepReaction(w, step).Reaction? && m in StepReaction(w, step).sends && Announces(m, o)
    ensures StepTarget(step) == SagaStream(o)
  {
    hide StepReaction, SagaOf, Legal, Shaped;
    SagaStepIsSound(w, step);
    var t := StepTarget(step).order;
    var es' := SagaEvents(w, t) + StepReaction(w, step).events;
    LegalShaped(t, es');
    VerdictNamesTheOrder(SagaOf(es'), m);
  }

  lemma VerdictNamesTheOrder(s: Saga, m: Message)
    requires m.AllocationCompleted? || m.AllocationRejected?
    ensures m !in Drive(s)
    ensures m in Verdict(s) ==> m.order == s.order
  {
  }

  /** A created order that no message and no running saga can bring on. */
  ghost predicate Dead(w: World, o: OrderId) {
    |SalesEvents(w, o)| == 1 && !Alive(w, o)
  }

  lemma DeadIsIdle(w: World, o: OrderId)
    requires Dead(w, o)
    ensures SagaOf(SagaEvents(w, o)).status == Unstarted || Settled(SagaOf(SagaEvents(w, o)))
  {
    hide SagaOf;
  }

  /** Its two streams stay as they are. */
  lemma DeadRecordsNothing(w: World, step: Step, w': World, o: OrderId)
    requires Inv(w) && Dead(w, o) && Takes(w, step, w')
    ensures SagaEvents(w', o) == SagaEvents(w, o) && SalesEvents(w', o) == SalesEvents(w, o)
  {
    hide Inv, SagaOf, StepReaction, Triggers, Announces, Settles;
    DeadIsIdle(w, o);
    UnstartedIsEmpty(w, o);
    if StepReaction(w, step).Reaction? && StepReaction(w, step).events != [] {
      GrowExtends(w.streams, StepTarget(step), StepReaction(w, step).events);
      if StepTarget(step) == SagaStream(o) {
        IdleSagaRecordsNothing(w, step, o);
        assert false;
      } else if StepTarget(step) == SalesOrderStream(o) {
        CreatedOrderRecords(w, step, o);
        assert false;
      }
    }
  }

  lemma DeadAnnouncesNothing(w: World, step: Step, w': World, o: OrderId, m: Message)
    requires Inv(w) && Dead(w, o) && Takes(w, step, w') && SagaOf(SagaEvents(w, o)).status != Unstarted
    requires StepReaction(w, step).Reaction? && m in StepReaction(w, step).sends
    ensures !Announces(m, o)
  {
    hide Inv, SagaOf, StepReaction, Triggers, Announces, Settles;
    if Announces(m, o) {
      DeadIsIdle(w, o);
      UnstartedIsEmpty(w, o);
      SourcesOf(w, step, o, m);
      AnnouncesItself(w, step, o, m);
      IdleSagaRecordsNothing(w, step, o);
      assert false;
    }
  }

  /** The events are not about the creation of a sales order. */
  predicate CreatesNothing(es: seq<Event>) {
    forall i | 0 <= i < |es| :: !es[i].SalesOrderCreated?
  }

  lemma SagasCreateNothing(s: Saga, o: OrderId, rows: seq<Row>, b: BeerId, why: Reason)
    ensures CreatesNothing(DecideStart(o, rows)) && CreatesNothing(DecideSucceeded(s, b))
    ensures CreatesNothing(DecideFailed(s, b, why)) && CreatesNothing(DecideCompensated(s, b))
  {
    hide ToCompensate, RowIn, AllIn;
  }

  lemma StocksCreateNothing(es: seq<Event>, b: BeerId, name: string, q: int, o: OrderId)
    ensures var d := DecideProduction(es, b, name, q); d.Accept? ==> CreatesNothing(d.events)
    ensures var d := DecideAllocation(es, b, q, o); d.Accept? ==> CreatesNothing(d.events)
    ensures var d := DecideCompensation(es, q, o); d.Accept? ==> CreatesNothing(d.events)
  {
    hide StockOf;
  }

  /** Only creating an order records its creation. */
  lemma {:induction false} CreationIsCommanded(w: World, step: Step, i: nat)
    requires StepReaction(w, step).Reaction? && i < |StepReaction(w, step).events|
    ensures var e := StepReaction(w, step).events[i];
            e.SalesOrderCreated? ==> step.Deliver? && step.m.CreateSalesOrder? && step.m.order == e.order
  {
    hide SagaOf, StockOf, OrderOf, Verdict, NextAllocation, Compensations, ToCompensate, NextPending, Drive;
    hide DecideStart, DecideSucceeded, DecideFailed, DecideCompensated;
    hide DecideProduction, DecideAllocation, DecideCompensation;
    var es := Stream(w.streams, StepTarget(step));
    match step {
      case Deliver(UpdateAvailabilityDueToProductionOrder(b, n, q)) => StocksCreateNothing(es, b, n, q, 0);
      case Deliver(UpdateAvailabilityDueToSalesOrder(b, q, o)) => StocksCreateNothing(es, b, "", q, o);
      case Deliver(CompensateAvailability(b, q, o)) => StocksCreateNothing(es, b, "", q, o);
      case Deliver(OrderPlaced(o, rows)) => SagasCreateNothing(SagaOf(es), o, rows, 0, NoReason);
      case Deliver(DomainEvent(BeerAvailabilityUpdated(b, _, _, o))) => SagasCreateNothing(SagaOf(es), o, [], b, NoReason);
      case Deliver(DomainEvent(AvailabilityCompensated(b, _, _, o))) => SagasCreateNothing(SagaOf(es), o, [], b, NoReason);
      case Deliver(DomainEvent(QuantityNotFound(b, o, q, a))) => SagasCreateNothing(SagaOf(es), o, [], b, Shortage(b, q, a));
      case TimeOut(o) =>
        if NextPending(SagaOf(es)).Some? {
          SagasCreateNothing(SagaOf(es), o, [], NextPending(SagaOf(es)).value.beer, TimedOut);
        }
      case _ =>
    }
  }

  lemma NothingIsCreatedAgain(w: World, step: Step, o: OrderId, i: nat)
    requires Inv(w) && |SalesEvents(w, o)| == 1 && Enabled(w, step)
    requires StepReaction(w, step).Reaction? && i < |StepReaction(w, step).events|
    ensures !Triggers(DomainEvent(StepReaction(w, step).events[i]), o)
  {
    hide Inv, StepReaction;
    CreationIsCommanded(w, step, i);
    if StepReaction(w, step).events[i].SalesOrderCreated? && StepReaction(w, step).events[i].order == o {
      CreatedOrderRecords(w, step, o);
      assert false;
    }
  }

  /** And nothing is sent that could bring it on. */
  lemma {:induction false} DeadIsNotRevived(w: World, step: Step, w': World, o: OrderId, m: Message)
    requires Inv(w) && Dead(w, o) && Takes(w, step, w') && m in w'.sent && m !in w.sent
    ensures SagaOf(SagaEvents(w, o)).status == Unstarted ==> !Triggers(m, o)
    ensures SagaOf(SagaEvents(w, o)).status != Unstarted ==> !Announces(m, o) && !Settles(m, o)
  {
    hide Inv, SagaOf, StepReaction, SagaEvents, SalesEvents, ProducedAfter;
    var r := StepReaction(w, step);
    if m in r.sends {
      SourcesOf(w, step, o, m);
      if Announces(m, o) && SagaOf(SagaEvents(w, o)).status != Unstarted {
        DeadAnnouncesNothing(w, step, w', o, m);
      }
    } else {
      var i :| 0 <= i < |r.events| && Published(r.events)[i] == m;
      if Triggers(m, o) {
        NothingIsCreatedAgain(w, step, o, i);
      }
    }
  }

  lemma DeadStaysDead(w: World, step: Step, w': World, o: OrderId)
    requires Inv(w) && Dead(w, o) && Takes(w, step, w')
    ensures Dead(w', o)
  {
    hide Inv, SagaOf, Takes, Triggers, Announces, Settles, SagaEvents, SalesEvents;
    DeadRecordsNothing(w, step, w', o);
    if Alive(w', o) {
      var unstarted := SagaOf(SagaEvents(w, o)).status == Unstarted;
      DeadIsIdle(w, o);
      var m :| m in w'.sent && if unstarted then Triggers(m, o) else Announces(m, o) || Settles(m, o);
      if m !in w.sent {
        DeadIsNotRevived(w, step, w', o, m);
      }
      assert false;
    }
  }

  /** So an order that is dead in a reachable world is never settled. */
  lemma {:induction false} DeadForever(w: World, w': World, o: OrderId, ws: seq<World>)
    requires Reachable(w) && Dead(w, o) && IsPath(ws, w, w')
    ensures Dead(w', o)
    decreases |ws|
  {
    hide Reachable, Takes, Dead, Inv;
    if |ws| > 1 {
      var n := |ws| - 1;
      forall i | 0 <= i < n - 1 ensures Next(ws[..n][i], ws[..n][i + 1]) {
        assert Next(ws[i], ws[i + 1]);
      }
      var p := ws[n - 1];
      DeadForever(w, p, o, ws[..n]);
      PathIsReachable(w, p, ws[..n]);
      ReachableInv(p);
      assert Next(ws[n - 1], ws[n - 1 + 1]);
      var step :| Takes(p, step, w');
      DeadStaysDead(p, step, w', o);
    }
  }

  // ---- an order that is alive can be settled ----

  lemma DeliveriesLead(w: World, w': World, steps: seq<Step>)
    requires Reachable(w) && LeadsTo(w, w') && Possible(w', steps)
    ensures LeadsTo(w, AfterAll(w', steps))
  {
    hide Possible, AfterAll, LeadsTo, Reachable;
    PossibleLeads(w', steps);
    LeadsAllTheWay(w, w', AfterAll(w', steps));
  }

  /** Once the saga has ended and said so, sales settles the order. */
  lemma ToldOrderCanBeSettled(w: World, w': World, o: OrderId)
    requires Reachable(w) && LeadsTo(w, w') && Reachable(w')
    requires Settled(SagaOf(SagaEvents(w', o))) && Prompted(w', o) && |SalesEvents(w', o)| == 1
    ensures CanBeSettled(w, o)
  {
    hide Possible, AfterAll, LeadsTo, Reachable, SagaOf, Settled, Prompted;
    var steps := OutcomeSettlesTheOrder(w', o);
    DeliveriesLead(w, w', steps);
  }

  lemma RunningOrderCanBeSettled(w: World, w': World, o: OrderId)
    requires Reachable(w) && LeadsTo(w, w') && Reachable(w') && |SalesEvents(w', o)| == 1
    requires SagaEvents(w', o) != [] && !Settled(SagaOf(SagaEvents(w', o)))
    ensures CanBeSettled(w, o)
  {
    hide Possible, AfterAll, LeadsTo, Reachable, SagaOf, Settled, Prompted, Needed, Positive, Undisturbed, After;
    hide SalesEvents;
    var steps := EverySagaCanSettle(w', o);
    DeliveriesLead(w, w', steps);
    ToldOrderCanBeSettled(w, AfterAll(w', steps), o);
  }

  /** An order that was placed can have its saga started. */
  lemma PlacedOrderCanBeSettled(w: World, w': World, o: OrderId, rows: seq<Row>)
    requires Reachable(w) && LeadsTo(w, w') && Reachable(w') && |SalesEvents(w', o)| == 1
    requires SagaEvents(w', o) == [] && OrderPlaced(o, rows) in w'.sent
    ensures CanBeSettled(w, o)
  {
    hide Possible, AfterAll, LeadsTo, Reachable, SagaOf, Prompted, After;
    var step := Deliver(OrderPlaced(o, rows));
    StartingIsClean(w', o, rows);
    StartingPrompts(w', o, rows);
    FirstStepIsPossible(w', step);
    PossibleIsReachable(w', [step]);
    DeliveriesLead(w, w', [step]);
    var w'' := After(w', step);
    assert SalesEvents(w'', o) == SalesEvents(w', o);
    if Settled(SagaOf(SagaEvents(w'', o))) {
      ToldOrderCanBeSettled(w, w'', o);
    } else {
      RunningOrderCanBeSettled(w, w'', o);
    }
  }

  lemma CreatedOrderCanBeSettled(w: World, o: OrderId, h: Header, rows: seq<Row>)
    requires Reachable(w) && |SalesEvents(w, o)| == 1 && SagaEvents(w, o) == []
    requires DomainEvent(SalesOrderCreated(o, h, rows)) in w.sent
    ensures CanBeSettled(w, o)
  {
    hide Possible, AfterAll, LeadsTo, Reachable, CanBeSettled;
    var m := DomainEvent(SalesOrderCreated(o, h, rows));
    var w' := StepReaches(w, Deliver(m));
    assert Announcements(Reaction([], [OrderPlaced(o, rows)])) == [OrderPlaced(o, rows)];
    FirstStepIsPossible(w, Deliver(m));
    PossibleLeads(w, [Deliver(m)]);
    PlacedOrderCanBeSettled(w, w', o, rows);
  }

  /** A settling command that is on the bus settles the order. */
  lemma MarkedOrderCanBeSettled(w: World, o: OrderId, m: Message)
    requires Reachable(w) && |SalesEvents(w, o)| == 1 && m in w.sent && Settles(m, o)
    ensures CanBeSettled(w, o)
  {
    hide Reachable, Possible, AfterAll, LeadsTo, OrderOf, Inv;
    ReachableInv(w);
    OrderIsCreated(w, o);
    OrderStreamState(o, SalesEvents(w, o));
    var step := Deliver(m);
    FirstStepIsPossible(w, step);
    PossibleLeads(w, [step]);
    assert |SalesEvents(After(w, step), o)| == 2;
  }

  /** An announced outcome is the saga's own. */
  lemma AnnouncedSagaIsPrompted(w: World, o: OrderId, m: Message)
    requires Inv(w) && m in w.sent && Announces(m, o)
    ensures Settled(SagaOf(SagaEvents(w, o))) && Prompted(w, o)
  {
    hide SagaOf, Drive, Legal, Shaped;
    assert Justified(w.streams, m);
    OutcomeMessagesAreTrue(w, o, if m.AllocationCompleted? then NoReason else m.reason);
    SagaIsLegal(w, o);
    LegalShaped(o, SagaEvents(w, o));
    EndedSagaIsIdle(SagaOf(SagaEvents(w, o)));
  }

  lemma AliveOrderCanBeSettled(w: World, o: OrderId)
    requires Reachable(w) && |SalesEvents(w, o)| == 1 && Alive(w, o)
    ensures CanBeSettled(w, o)
  {
    hide Reachable, Inv, SagaOf, CanBeSettled, LeadsTo, Prompted;
    ReachableInv(w);
    UnstartedIsEmpty(w, o);
    StayingLeads(w);
    match SagaOf(SagaEvents(w, o)).status {
      case Unstarted =>
        var m :| m in w.sent && Triggers(m, o);
        match m {
          case OrderPlaced(_, rows) => PlacedOrderCanBeSettled(w, w, o, rows);
          case DomainEvent(SalesOrderCreated(_, h, rows)) => CreatedOrderCanBeSettled(w, o, h, rows);
        }
      case Running => RunningOrderCanBeSettled(w, w, o);
      case Compensating => RunningOrderCanBeSettled(w, w, o);
      case _ =>
        var m :| m in w.sent && (Announces(m, o) || Settles(m, o));
        if Settles(m, o) {
          MarkedOrderCanBeSettled(w, o, m);
        } else {
          AnnouncedSagaIsPrompted(w, o, m);
          ToldOrderCanBeSettled(w, w, o);
        }
    }
  }

  /**
   In every reachable world a created order that is not settled can still be settled exactly if it is alive.  Nothing but
   the loss of its own placing, or of the announcement of how its saga ended, leaves it open for good.
   */
  lemma CanBeSettledIffAlive(w: World, o: OrderId)
    requires Reachable(w) && |SalesEvents(w, o)| == 1
    ensures CanBeSettled(w, o) <==> Alive(w, o)
  {
    hide Reachable, Alive, LeadsTo;
    if Alive(w, o) {
      AliveOrderCanBeSettled(w, o);
    } else if CanBeSettled(w, o) {
      var w' :| LeadsTo(w, w') && |SalesEvents(w', o)| == 2;
      PathIsDead(w, w', o);
    }
  }

  lemma PathIsDead(w: World, w': World, o: OrderId)
    requires Reachable(w) && Dead(w, o) && LeadsTo(w, w')
    ensures |SalesEvents(w', o)| == 1
  {
    hide Reachable, Alive, IsPath;
    var ws :| IsPath(ws, w, w');
    DeadForever(w, w', o, ws);
  }

  /** With direct publishing orders get lost at their start: creating one and failing to publish its event. */
  lemma SomeOrderIsLost() returns (w: World)
    ensures Reachable(w) && |SalesEvents(w, 1)| == 1 && !CanBeSettled(w, 1)
  {
    hide Reachable, OnCreate, CanBeSettled;
    var create := Message.CreateSalesOrder(1, HEADER, [Row(7, 2)]);
    InitialIsReachable();
    var v := SendingStep(INITIAL, Place(create), create);
    OrderIsAccepted([Row(7, 2)]);
    w := v.(streams := Grow(v.streams, SalesOrderStream(1), [SalesOrderCreated(1, HEADER, [Row(7, 2)])]));
    assert Takes(v, Deliver(create), w);
    assert Next(v, w);
    ReachableGoesOn(v, w);
    assert SagaEvents(w, 1) == [] && w.sent == {create};
    CanBeSettledIffAlive(w, 1);
  }

  // ---- when no stored event is lost ----

  ghost predicate AllPublished(w: World, es: seq<Event>) {
    forall e | e in es :: DomainEvent(e) in w.sent
  }

  /** Some message tells sales how the saga ended. */
  ghost predicate Told(w: World, o: OrderId) {
    exists m :: m in w.sent && (Announces(m, o) || Settles(m, o))
  }

  /** An order whose events are all published can be settled exactly if its saga has not ended, or sales was told. */
  lemma PublishedOrderCanBeSettledIff(w: World, o: OrderId)
    requires Reachable(w) && |SalesEvents(w, o)| == 1 && AllPublished(w, SalesEvents(w, o))
    ensures CanBeSettled(w, o) <==> (Settled(SagaOf(SagaEvents(w, o))) ==> Told(w, o))
  {
    hide Reachable, Inv, SagaOf, CanBeSettled;
    CanBeSettledIffAlive(w, o);
    ReachableInv(w);
    OrderIsCreated(w, o);
    var m := DomainEvent(SalesEvents(w, o)[0]);
    assert m in w.sent && Triggers(m, o);
  }

  /** Before its saga has ended nobody is told that it has, and the order is not settled. */
  lemma NothingToldBeforeTheEnd(w: World, o: OrderId)
    requires Inv(w) && !Settled(SagaOf(SagaEvents(w, o)))
    ensures !Told(w, o) && |SalesEvents(w, o)| <= 1
  {
    hide SagaOf;
    assert SalesCaused(w, o);
    forall m | m in w.sent && (Announces(m, o) || Settles(m, o)) ensures false {
      assert Justified(w.streams, m);
      var why := if m.AllocationRejected? || m.MarkSalesOrderAllocationRejected? then m.reason else NoReason;
      OutcomeMessagesAreTrue(w, o, why);
    }
    var es := SalesEvents(w, o);
    if |es| == 2 {
      OutcomeMessagesAreTrue(w, o, if es[1].SalesOrderAllocationRejected? then es[1].reason else NoReason);
    }
  }

  /** The order is on its way: everything recorded about it is published. */
  ghost predicate OnItsWay(w: World, o: OrderId) {
    && Reachable(w) && |SalesEvents(w, o)| == 1
    && AllPublished(w, SalesEvents(w, o)) && AllPublished(w, SagaEvents(w, o))
  }

  lemma {:induction false} StepPublishes(w: World, step: Step, o: OrderId, id: StreamId)
    requires AllPublished(w, Stream(w.streams, id))
    ensures var w' := After(w, step); AllPublished(w', Stream(w'.streams, id))
  {
    hide StepReaction, ProducedAfter, StepTarget;
    var r, w' := StepReaction(w, step), After(w, step);
    if r.Reaction? {
      GrowExtends(w.streams, StepTarget(step), r.events);
      forall e | e in Stream(w'.streams, id) ensures DomainEvent(e) in w'.sent {
        if e !in Stream(w.streams, id) {
          var i :| 0 <= i < |r.events| && r.events[i] == e;
          assert Announcements(r)[i] == DomainEvent(e);
        }
      }
    }
  }

  /** The same world with nobody told. */
  ghost function Untold(w: World, o: OrderId): World {
    w.(sent := set m | m in w.sent && !Announces(m, o) && !Settles(m, o))
  }

  /** A step that ends the saga may stop after publishing its events and before telling how. */
  lemma {:induction false} TheEndCanBeLost(w: World, step: Step, o: OrderId) returns (w': World)
    requires OnItsWay(w, o) && !Settled(SagaOf(SagaEvents(w, o))) && Enabled(w, step)
    requires Settled(SagaOf(SagaEvents(After(w, step), o)))
    ensures OnItsWay(w', o) && SagaEvents(w', o) == SagaEvents(After(w, step), o)
    ensures !Told(w', o) && w.sent <= w'.sent
  {
    hide Reachable, Inv, SagaOf, StepReaction, ProducedAfter, StepTarget, Takes;
    ReachableInv(w);
    NothingToldBeforeTheEnd(w, o);
    StepPublishes(w, step, o, SagaStream(o));
    StepPublishes(w, step, o, SalesOrderStream(o));
    var all := After(w, step);
    w' := Untold(all, o);
    AfterIsTaken(w, step);
    UntoldIsTaken(w, step, o);
    assert Next(w, w');
    ReachableGoesOn(w, w');
    TargetIsTheSaga(w, step, o);
  }

  lemma UntoldIsTaken(w: World, step: Step, o: OrderId)
    requires Enabled(w, step) && !Told(w, o)
    ensures Takes(w, step, Untold(After(w, step), o))
  {
    hide StepReaction, ProducedAfter, StepTarget, Announces, Settles;
    assert Untold(w, o) == w;
  }

  lemma TargetIsTheSaga(w: World, step: Step, o: OrderId)
    requires SagaEvents(After(w, step), o) != SagaEvents(w, o)
    ensures SalesEvents(After(w, step), o) == SalesEvents(w, o)
  {
    hide StepReaction, StepTarget;
  }

  /** Nothing is recorded about a saga that has ended. */
  lemma {:induction false} EndedStays(w: World, steps: seq<Step>, o: OrderId)
    requires Reachable(w) && Settled(SagaOf(SagaEvents(w, o))) && Possible(w, steps)
    ensures SagaEvents(AfterAll(w, steps), o) == SagaEvents(w, o)
    decreases |steps|
  {
    hide Reachable, Inv, SagaOf, Enabled, After, Takes;
    if steps == [] {
      NoSteps(w);
    } else {
      var w1 := After(w, steps[0]);
      EndedRecordsNothing(w, steps[0], o);
      AfterIsTaken(w, steps[0]);
      assert Next(w, w1);
      ReachableGoesOn(w, w1);
      EndedStays(w1, steps[1..], o);
    }
  }

  lemma EndedRecordsNothing(w: World, step: Step, o: OrderId)
    requires Reachable(w) && Settled(SagaOf(SagaEvents(w, o))) && Enabled(w, step)
    ensures SagaEvents(After(w, step), o) == SagaEvents(w, o)
  {
    hide Reachable, Inv, SagaOf, StepReaction, StepTarget;
    ReachableInv(w);
    UnstartedIsEmpty(w, o);
    if StepReaction(w, step).Reaction? && StepTarget(step) == SagaStream(o) {
      IdleSagaRecordsNothing(w, step, o);
    }
  }

  /** In any run in which the saga ends, the announcement of its end can be lost instead. */
  lemma {:induction false} SomeEndCanBeLost(w: World, steps: seq<Step>, o: OrderId) returns (w': World)
    requires OnItsWay(w, o) && !Settled(SagaOf(SagaEvents(w, o))) && Possible(w, steps)
    requires Settled(SagaOf(SagaEvents(AfterAll(w, steps), o)))
    ensures OnItsWay(w', o) && SagaEvents(w', o) == SagaEvents(AfterAll(w, steps), o)
    ensures !Told(w', o) && w.sent <= w'.sent
    decreases |steps|
  {
    hide Reachable, Inv, SagaOf, Settled, Enabled, After, Takes, Told, AllPublished;
    if steps == [] {
      NoSteps(w);
    } else {
      var w1 := After(w, steps[0]);
      if Settled(SagaOf(SagaEvents(w1, o))) {
        w' := TheEndCanBeLost(w, steps[0], o);
        AfterIsTaken(w, steps[0]);
        assert Next(w, w1);
        ReachableGoesOn(w, w1);
        EndedStays(w1, steps[1..], o);
      } else {
        StillOnItsWay(w, steps[0], o);
        w' := SomeEndCanBeLost(w1, steps[1..], o);
      }
    }
  }

  lemma StillOnItsWay(w: World, step: Step, o: OrderId)
    requires OnItsWay(w, o) && Enabled(w, step) && !Settled(SagaOf(SagaEvents(After(w, step), o)))
    ensures OnItsWay(After(w, step), o) && w.sent <= After(w, step).sent
  {
    hide Inv, SagaOf, Settled, StepReaction, ProducedAfter, StepTarget, AllPublished, Told, Announcements;
    var w1 := After(w, step);
    AfterIsTaken(w, step);
    assert Next(w, w1);
    ReachableGoesOn(w, w1);
    hide Reachable;
    ReachableInv(w1);
    NothingToldBeforeTheEnd(w1, o);
    StepPublishes(w, step, o, SagaStream(o));
    StepPublishes(w, step, o, SalesOrderStream(o));
    if StepReaction(w, step).Reaction? {
      GrowExtends(w.streams, StepTarget(step), StepReaction(w, step).events);
    }
  }

  /**
   Although every event is published, each placed order can be lost at its end: its saga settles, and the handler stops
   before it tells sales.  The order then stays open for good.
   */
  lemma {:induction false} AnyOrderCanBeLost(v: World, o: OrderId, rows: seq<Row>) returns (w: World)
    requires OnItsWay(v, o) && SagaEvents(v, o) == [] && OrderPlaced(o, rows) in v.sent
    ensures OnItsWay(w, o) && v.sent <= w.sent && Settled(SagaOf(SagaEvents(w, o))) && !CanBeSettled(w, o)
  {
    hide Reachable, Inv, SagaOf, Settled, After, Takes, Told, AllPublished, AfterAll, Possible, CanBeSettled;
    hide Prompted, Needed, Positive, Undisturbed;
    ReachableInv(v);
    UnstartedIsEmpty(v, o);
    var first := Deliver(OrderPlaced(o, rows));
    var v1 := After(v, first);
    FirstStepIsPossible(v, first);
    StartingIsClean(v, o, rows);
    UnstartedIsNotSettled(v, o);
    if Settled(SagaOf(SagaEvents(v1, o))) {
      w := SomeEndCanBeLost(v, [first], o);
    } else {
      StillOnItsWay(v, first, o);
      var rest := EverySagaCanSettle(v1, o);
      w := SomeEndCanBeLost(v1, rest, o);
    }
    PublishedOrderCanBeSettledIff(w, o);
  }

  lemma UnstartedIsNotSettled(w: World, o: OrderId)
    requires SagaOf(SagaEvents(w, o)).status == Unstarted
    ensures !Settled(SagaOf(SagaEvents(w, o)))
  {
    hide SagaOf;
  }

  /** For instance an order for all the beer there is, which is allocated and never told. */
  lemma {:induction false} SomeEndIsLost() returns (w: World)
    ensures Reachable(w) && AllPublished(w, SalesEvents(w, 1)) && AllPublished(w, SagaEvents(w, 1))
    ensures OrderPlaced(1, [Row(7, 5)]) in w.sent && SagaOf(SagaEvents(w, 1)).status == Completed
    ensures !Told(w, 1) && !CanBeSettled(w, 1)
  {
    hide Reachable, SagaOf, CanBeSettled, Told, ServedAlone, AfterAll, Possible, Available, StockOf, Inv;
    var rows := [Row(7, 5)];
    var v := OrderCanBePlaced(rows);
    PositiveIsNotStuck(v, rows);
    assert Fits(v, rows);
    ReachableInv(v);
    UnstartedIsEmpty(v, 1);
    var steps := PlacedOrderIsAllOrNothing(v, 1, rows);
    w := SomeEndCanBeLost(v, steps, 1);
    PublishedOrderCanBeSettledIff(w, 1);
  }
}
