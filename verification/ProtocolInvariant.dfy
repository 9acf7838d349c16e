/** The protocol's invariant holds in every reachable world. */
module ProtocolInvariant {
  import opened Messages
  import opened AvailabilityAggregate
  import opened AllocationSaga
  import opened SagaLaws
  import opened SalesOrderAggregate
  import opened Reactions
  import opened Soundness
  import opened Protocol

  /** Streams are only ever appended to. */
  ghost predicate Extends(ss: Streams, ss': Streams) {
    forall id :: Stream(ss, id) <= Stream(ss', id)
  }

  lemma GrowExtends(ss: Streams, id: StreamId, events: seq<Event>)
    ensures Extends(ss, Grow(ss, id, events))
    ensures Stream(Grow(ss, id, events), id) == Stream(ss, id) + events
    ensures forall other | other != id :: Stream(Grow(ss, id, events), other) == Stream(ss, other)
  {
    assert Stream(ss, id) + [] == Stream(ss, id);
  }

  /** Justification is never lost. */
  lemma JustifiedForever(ss: Streams, ss': Streams, m: Message)
    requires Extends(ss, ss') && Justified(ss, m)
    ensures Justified(ss', m)
  {
    hide SagaOf, NextPending, ToCompensate, HomeOf;
    match m {
      case UpdateAvailabilityDueToSalesOrder(b, q, o) =>
        var es, es' := Stream(ss, SagaStream(o)), Stream(ss', SagaStream(o));
        var n: nat :| Awaited(es, n, Row(b, q));
        assert es'[..n] == es[..n];
        assert Awaited(es', n, Row(b, q));
      case CompensateAvailability(b, q, o) =>
        var es, es' := Stream(ss, SagaStream(o)), Stream(ss', SagaStream(o));
        var n: nat :| Undone(es, n, Row(b, q));
        assert es'[..n] == es[..n];
        assert Undone(es', n, Row(b, q));
      case OrderPlaced(o, rows) =>
        var es, es' := Stream(ss, SalesOrderStream(o)), Stream(ss', SalesOrderStream(o));
        var h :| Created(es, o, h, rows);
        assert Created(es', o, h, rows);
      case _ =>
    }
  }

  lemma StockCauseLasts(ss: Streams, ss': Streams, b: BeerId, p: seq<Event>, e: Event)
    requires Extends(ss, ss') && StockCaused(ss, b, p, e)
    ensures StockCaused(ss', b, p, e)
  {
    hide DecideAllocation, DecideCompensation, StockOf, Justified;
    match e {
      case BeerAvailabilityUpdated(_, _, _, o) =>
        var amount :| AllocationCause(ss, b, p, e, o, amount);
        JustifiedForever(ss, ss', UpdateAvailabilityDueToSalesOrder(b, amount, o));
        assert AllocationCause(ss', b, p, e, o, amount);
      case QuantityNotFound(_, o, amount, _) =>
        JustifiedForever(ss, ss', UpdateAvailabilityDueToSalesOrder(b, amount, o));
      case AvailabilityCompensated(_, _, _, o) =>
        var amount :| ReleaseCause(ss, b, p, e, o, amount);
        JustifiedForever(ss, ss', CompensateAvailability(b, amount, o));
        assert ReleaseCause(ss', b, p, e, o, amount);
      case _ =>
    }
  }

  lemma SagaCauseLasts(ss: Streams, ss': Streams, o: OrderId, e: Event)
    requires Extends(ss, ss') && SagaCaused(ss, o, e)
    ensures SagaCaused(ss', o, e)
  {
    hide Justified;
    match e {
      case OrderAllocationStarted(_, rows) => JustifiedForever(ss, ss', OrderPlaced(o, rows));
      case AllocationStepSucceeded(_, b) =>
        var es, es' := Stream(ss, AvailabilityStream(b)), Stream(ss', AvailabilityStream(b));
        var i :| 0 <= i < |es| && Allocates(es[i], o);
        assert Allocates(es'[i], o);
      case AllocationStepCompensated(_, b) =>
        var es, es' := Stream(ss, AvailabilityStream(b)), Stream(ss', AvailabilityStream(b));
        var i :| 0 <= i < |es| && Releases(es[i], o);
        assert Releases(es'[i], o);
      case _ =>
    }
  }

  // ---- new messages ----

  /** The messages a saga sends are justified by its own stream. */
  lemma DriveIsJustified(ss: Streams, o: OrderId, n: nat, m: Message)
    requires n <= |Stream(ss, SagaStream(o))| && Legal(o, Stream(ss, SagaStream(o)))
    requires m in Drive(SagaOf(Stream(ss, SagaStream(o))[..n]))
    ensures Justified(ss, m)
  {
    var es := Stream(ss, SagaStream(o));
    var s := SagaOf(es[..n]);
    LegalPrefix(o, es, n);
    LegalShaped(o, es[..n]);
    hide SagaOf, Legal;
    if s.status == Compensating {
      var i :| 0 <= i < |ToCompensate(s)|
        && m == CompensateAvailability(ToCompensate(s)[i].beer, ToCompensate(s)[i].quantity, s.order);
      assert ToCompensate(s) != [];
      assert Undone(es, n, ToCompensate(s)[i]);
      assert es[..n] != [] by {
        UnstartedSagaIsIdle();
      }
    } else {
      var row := NextPending(s).value;
      assert Awaited(es, n, row);
      assert es[..n] != [] by {
        UnstartedSagaIsIdle();
      }
    }
  }

  lemma UnstartedSagaIsIdle()
    ensures SagaOf([]).status == Unstarted
  {
  }

  lemma VerdictIsJustified(ss: Streams, o: OrderId, m: Message)
    requires Legal(o, Stream(ss, SagaStream(o))) && Settled(SagaOf(Stream(ss, SagaStream(o))))
    requires m in Verdict(SagaOf(Stream(ss, SagaStream(o))))
    ensures Justified(ss, m)
  {
    FinalStatusWasRecorded(o, Stream(ss, SagaStream(o)));
    LegalShaped(o, Stream(ss, SagaStream(o)));
  }

  /** Every message a saga handler sends announces the new state or drives it on. */
  ghost predicate SagaSends(es: seq<Event>, r: Reaction) {
    r.Reaction? && forall m | m in r.sends ::
      var s := SagaOf(es + r.events); (Settled(s) && m in Verdict(s)) || m in Drive(s)
  }

  lemma SagaHandlersSend(es: seq<Event>, o: OrderId, rows: seq<Row>, b: BeerId, why: Reason)
    ensures SagaSends(es, OnOrderPlaced(es, o, rows))
    ensures SagaSends(es, OnAllocated(es, b))
    ensures SagaSends(es, OnFailed(es, b, why))
    ensures SagaSends(es, OnCompensated(es, b))
  {
    hide SagaOf, DecideStart, DecideSucceeded, DecideFailed, DecideCompensated;
    assert [] + DecideStart(o, rows) == DecideStart(o, rows);
  }

  lemma SagaSendsAreJustified(ss: Streams, o: OrderId, r: Reaction, m: Message)
    requires SagaSends(Stream(ss, SagaStream(o)), r) && Legal(o, Stream(ss, SagaStream(o)) + r.events)
    requires m in r.sends
    ensures Justified(Grow(ss, SagaStream(o), r.events), m)
  {
    hide SagaOf, Verdict, Drive, Settled, Legal;
    var es', ss' := Stream(ss, SagaStream(o)) + r.events, Grow(ss, SagaStream(o), r.events);
    GrowExtends(ss, SagaStream(o), r.events);
    assert es'[..|es'|] == es';
    if m in Drive(SagaOf(es')) {
      DriveIsJustified(ss', o, |es'|, m);
    } else {
      VerdictIsJustified(ss', o, m);
    }
  }

  /** A step on a saga, other than a resumption, is one of the saga's handlers. */
  lemma {:induction false} SagaStepIsSound(w: World, step: Step)
    requires Sound(w.streams) && Enabled(w, step) && StepTarget(step).SagaStream? && !step.Resume? && !step.Place?
    ensures var es, r := SagaEvents(w, StepTarget(step).order), StepReaction(w, step);
            SagaSends(es, r) && Legal(StepTarget(step).order, es + r.events) && Rested(SagaOf(es + r.events))
  {
    var o := StepTarget(step).order;
    var es := SagaEvents(w, o);
    assert es == [] || SoundStream(SagaStream(o), es);
    assert es + [] == es;
    hide SagaOf, Legal, Rested, Drive, Sound, SoundStream;
    match step {
      case Deliver(m) =>
        SagaReactionKeepsLaws(es, m);
        DeliveriesSend(w, m);
      case TimeOut(_) =>
        match NextPending(SagaOf(es)) {
          case Some(row) =>
            SagaHandlersSend(es, o, [], row.beer, TimedOut);
            FailedKeepsLaws(o, es, row.beer, TimedOut);
          case None =>
        }
    }
  }

  lemma DeliveriesSend(w: World, m: Message)
    requires Target(m).SagaStream?
    ensures SagaSends(Stream(w.streams, Target(m)), React(w.streams, m))
  {
    var es := Stream(w.streams, Target(m));
    hide SagaSends, SagaOf, OnOrderPlaced, OnAllocated, OnFailed, OnCompensated;
    SagaHandlersSend(es, 0, [], 0, NoReason);
    match m {
      case OrderPlaced(o, rows) => SagaHandlersSend(es, o, rows, 0, NoReason);
      case DomainEvent(BeerAvailabilityUpdated(b, _, _, _)) => SagaHandlersSend(es, 0, [], b, NoReason);
      case DomainEvent(QuantityNotFound(b, _, q, a)) => SagaHandlersSend(es, 0, [], b, Shortage(b, q, a));
      case DomainEvent(AvailabilityCompensated(b, _, _, _)) => SagaHandlersSend(es, 0, [], b, NoReason);
      case _ => NothingSends(es);
    }
  }

  lemma NothingSends(es: seq<Event>)
    ensures SagaSends(es, NOTHING)
  {
  }

  lemma SendsAreJustified(w: World, step: Step, m: Message)
    requires Sound(w.streams) && Grounded(w) && Enabled(w, step)
    requires StepReaction(w, step).Reaction? && m in StepReaction(w, step).sends
    ensures Justified(Grow(w.streams, StepTarget(step), StepReaction(w, step).events), m)
  {
    var r, id := StepReaction(w, step), StepTarget(step);
    if id.SagaStream? && !step.Resume? {
      SagaStepIsSound(w, step);
      SagaSendsAreJustified(w.streams, id.order, r, m);
    } else if step.Resume? {
      assert SagaEvents(w, id.order) == [] || SoundStream(id, SagaEvents(w, id.order));
      DriveIsJustified(w.streams, step.order, step.upTo, m);
    } else if step.Deliver? {
      TranslationIsJustified(w, step.m, m);
    }
  }

  lemma TranslationIsJustified(w: World, m: Message, sent: Message)
    requires Grounded(w) && m in w.sent && !Target(m).SagaStream?
    requires React(w.streams, m).Reaction? && sent in React(w.streams, m).sends
    ensures React(w.streams, m).events == [] && Justified(w.streams, sent)
  {
    assert Justified(w.streams, m);
    match m {
      case DomainEvent(SalesOrderCreated(o, h, rows)) =>
        assert Created(Stream(w.streams, SalesOrderStream(o)), o, h, rows);
      case _ =>
    }
  }

  // ---- each part of the invariant survives each step ----

  /** The step ran its handler to the point of storing its events. */
  ghost predicate Moves(w: World, step: Step, w': World) {
    Inv(w) && Takes(w, step, w') && StepReaction(w, step).Reaction?
  }

  lemma {:induction false} StepKeepsSound(w: World, step: Step, w': World)
    requires Moves(w, step, w')
    ensures Sound(w'.streams) && Extends(w.streams, w'.streams)
  {
    hide React, OnTimeOut, Sound, Legal, SagaOf;
    GrowExtends(w.streams, StepTarget(step), StepReaction(w, step).events);
    match step {
      case Deliver(m) => ReactionsKeepSound(w.streams, m);
      case TimeOut(o) =>
        SagaStepIsSound(w, step);
        LegalIsHomed(o, SagaEvents(w, o) + StepReaction(w, step).events);
        GrownStreamsAreSound(w.streams, SagaStream(o), StepReaction(w, step).events);
      case _ =>
    }
  }

  lemma GrownStreamsAreSound(ss: Streams, id: StreamId, events: seq<Event>)
    requires Sound(ss) && id.SagaStream?
    requires Legal(id.order, Stream(ss, id) + events) && Rested(SagaOf(Stream(ss, id) + events))
    requires Homed(id, Stream(ss, id) + events)
    ensures Sound(Grow(ss, id, events))
  {
  }

  lemma {:induction false} StepKeepsGrounded(w: World, step: Step, w': World)
    requires Moves(w, step, w') && Sound(w'.streams)
    ensures Grounded(w')
  {
    var r, id := StepReaction(w, step), StepTarget(step);
    GrowExtends(w.streams, id, r.events);
    hide React, OnTimeOut, Drive, Legal, SagaOf, StockCaused, SagaCaused, SalesCaused, Justified;
    forall m | m in w'.sent ensures Justified(w'.streams, m) {
      if m in w.sent {
        JustifiedForever(w.streams, w'.streams, m);
      } else if m in r.sends {
        SendsAreJustified(w, step, m);
      } else {
        var i :| 0 <= i < |r.events| && Published(r.events)[i] == m;
        PublishedIsJustified(w.streams, id, r.events, i);
      }
    }
  }

  lemma PublishedIsJustified(ss: Streams, id: StreamId, events: seq<Event>, i: nat)
    requires i < |events| && Sound(Grow(ss, id, events))
    ensures Justified(Grow(ss, id, events), DomainEvent(events[i]))
  {
    hide Legal, SagaOf, Rested;
    var es := Stream(ss, id) + events;
    assert Grow(ss, id, events)[id] == es && es[|Stream(ss, id)| + i] == events[i];
    assert SoundStream(id, es);
    assert HomeOf(events[i]) == id;
  }

  /** A compensation is only ever asked for where the saga had seen the allocation. */
  lemma {:induction false} CompensationFollowsAllocation(w: World, b: BeerId, q: int, o: OrderId)
    requires Inv(w) && CompensateAvailability(b, q, o) in w.sent
    ensures HasAllocation(StockStream(w, b), o)
  {
    var es := SagaEvents(w, o);
    assert Justified(w.streams, CompensateAvailability(b, q, o));
    var n: nat :| Undone(es, n, Row(b, q));
    assert es == [] || SoundStream(SagaStream(o), es);
    LegalPrefix(o, es, n);
    var s := SagaOf(es[..n]);
    AllocatedRowsAre(s.rows, Row(b, q));
    var k :| 0 <= k < |s.rows| && s.rows[k] == SagaRow(Row(b, q), Allocated);
    SuccessesWereRecorded(o, es[..n], k);
    var i :| 0 <= i < n && es[i] == AllocationStepSucceeded(o, b);
    assert SagaCaused(w.streams, o, es[i]);
  }

  lemma ProductionIsCaused(ss: Streams, b: BeerId, es: seq<Event>, name: string, q: int)
    requires es == [] || StockOf(es).beer == b
    requires DecideProduction(es, b, name, q).Accept?
    ensures |DecideProduction(es, b, name, q).events| == 1
    ensures StockCaused(ss, b, es, DecideProduction(es, b, name, q).events[0])
  {
  }

  lemma AllocationIsCaused(ss: Streams, b: BeerId, es: seq<Event>, q: int, o: OrderId)
    requires Justified(ss, UpdateAvailabilityDueToSalesOrder(b, q, o))
    requires DecideAllocation(es, b, q, o).Accept?
    ensures |DecideAllocation(es, b, q, o).events| == 1
    ensures StockCaused(ss, b, es, DecideAllocation(es, b, q, o).events[0])
  {
    hide StockOf, Justified;
    assert AllocationCause(ss, b, es, DecideAllocation(es, b, q, o).events[0], o, q);
  }

  lemma CompensationIsCaused(ss: Streams, b: BeerId, es: seq<Event>, q: int, o: OrderId)
    requires Justified(ss, CompensateAvailability(b, q, o)) && HasAllocation(es, o)
    requires DecideCompensation(es, q, o).Accept?
    ensures |DecideCompensation(es, q, o).events| == 1
    ensures StockCaused(ss, b, es, DecideCompensation(es, q, o).events[0])
  {
    hide StockOf, Justified;
    assert ReleaseCause(ss, b, es, DecideCompensation(es, q, o).events[0], o, q);
  }

  /** Each event a stock handler records has its cause. */
  lemma {:induction false} StockEventsAreCaused(w: World, step: Step, i: nat)
    requires Inv(w) && Enabled(w, step) && StepTarget(step).AvailabilityStream?
    requires StepReaction(w, step).Reaction? && i < |StepReaction(w, step).events|
    ensures |StepReaction(w, step).events| == 1
    ensures var b := StepTarget(step).beer;
            StockCaused(w.streams, b, StockStream(w, b), StepReaction(w, step).events[0])
  {
    var b, m := StepTarget(step).beer, step.m;
    var es := StockStream(w, b);
    assert es == [] || SoundStream(AvailabilityStream(b), es);
    if es != [] {
      BeerOfStream(b, es);
    }
    assert Justified(w.streams, m);
    hide StockOf, Justified, StockCaused, SagaCaused, SalesCaused, Sound;
    hide DecideProduction, DecideAllocation, DecideCompensation;
    match m {
      case UpdateAvailabilityDueToProductionOrder(_, n, q) => ProductionIsCaused(w.streams, b, es, n, q);
      case UpdateAvailabilityDueToSalesOrder(_, q, o) => AllocationIsCaused(w.streams, b, es, q, o);
      case CompensateAvailability(_, q, o) =>
        CompensationFollowsAllocation(w, b, q, o);
        CompensationIsCaused(w.streams, b, es, q, o);
      case _ =>
    }
  }

  lemma StepKeepsStocks(w: World, step: Step, w': World)
    requires Moves(w, step, w') && Extends(w.streams, w'.streams)
    ensures StocksCaused(w')
  {
    hide Takes, Justified, StockCaused, SagaCaused, SalesCaused, Sound, React, OnTimeOut;
    forall b, i | 0 <= i < |StockStream(w', b)|
      ensures StockCaused(w'.streams, b, StockStream(w', b)[..i], StockStream(w', b)[i])
    {
      var es, es' := StockStream(w, b), StockStream(w', b);
      assert es <= es';
      if i < |es| {
        assert es'[..i] == es[..i] && es'[i] == es[i];
        StockCauseLasts(w.streams, w'.streams, b, es[..i], es[i]);
      } else {
        NewEventsAreTheReaction(w, step, w', AvailabilityStream(b), i);
        StockEventsAreCaused(w, step, i - |es|);
        assert es'[..i] == es;
        StockCauseLasts(w.streams, w'.streams, b, es, es'[i]);
      }
    }
  }

  /** Only the target stream gains events, and only those of the reaction. */
  lemma NewEventsAreTheReaction(w: World, step: Step, w': World, id: StreamId, i: nat)
    requires Moves(w, step, w') && |Stream(w.streams, id)| <= i < |Stream(w'.streams, id)|
    ensures id == StepTarget(step) && Enabled(w, step)
    ensures Stream(w'.streams, id) == Stream(w.streams, id) + StepReaction(w, step).events
    ensures Stream(w'.streams, id)[i] == StepReaction(w, step).events[i - |Stream(w.streams, id)|]
  {
    hide Inv, StepReaction, StepTarget, ProducedAfter, Announcements;
    GrowExtends(w.streams, StepTarget(step), StepReaction(w, step).events);
  }

  /** Each event a saga handler records has its cause. */
  lemma {:induction false} SagaEventsAreCaused(w: World, step: Step, i: nat)
    requires Inv(w) && Enabled(w, step) && StepTarget(step).SagaStream?
    requires StepReaction(w, step).Reaction? && i < |StepReaction(w, step).events|
    ensures SagaCaused(w.streams, StepTarget(step).order, StepReaction(w, step).events[i])
  {
    var o := StepTarget(step).order;
    if step.Deliver? {
      hide React, SagaCaused;
      DeliveredEventsAreCaused(w, step.m, i);
    } else {
      hide Inv, Drive, SagaOf, OnTimeOut, SagaCaused;
      TimeOutIsCaused(w.streams, o, SagaEvents(w, o));
    }
  }

  lemma TimeOutIsCaused(ss: Streams, o: OrderId, es: seq<Event>)
    ensures OnTimeOut(es).Reaction? && forall e | e in OnTimeOut(es).events :: SagaCaused(ss, o, e)
  {
    hide SagaOf, ToCompensate, Drive, NextPending, RowIn, Compensations, Verdict;
  }

  lemma StepDecisionsAreCaused(ss: Streams, o: OrderId, s: Saga, b: BeerId)
    ensures HasAllocation(Stream(ss, AvailabilityStream(b)), o) ==>
              forall e | e in DecideSucceeded(s, b) :: SagaCaused(ss, o, e)
    ensures HasRelease(Stream(ss, AvailabilityStream(b)), o) ==>
              forall e | e in DecideCompensated(s, b) :: SagaCaused(ss, o, e)
  {
    hide HasAllocation, HasRelease, ToCompensate, RowIn, AllIn;
  }

  lemma FailureDecisionIsCaused(ss: Streams, o: OrderId, s: Saga, b: BeerId, q: int, a: int)
    requires QuantityNotFound(b, o, q, a) in Stream(ss, AvailabilityStream(b))
    ensures forall e | e in DecideFailed(s, b, Shortage(b, q, a)) :: SagaCaused(ss, o, e)
  {
    hide ToCompensate, RowIn;
  }

  lemma DeliveredEventsAreCaused(w: World, m: Message, i: nat)
    requires Grounded(w) && m in w.sent && Target(m).SagaStream?
    requires React(w.streams, m).Reaction? && i < |React(w.streams, m).events|
    ensures SagaCaused(w.streams, Target(m).order, React(w.streams, m).events[i])
  {
    assert Justified(w.streams, m);
    match m {
      case OrderPlaced(_, _) =>
      case DomainEvent(e) =>
        var s := SagaOf(Stream(w.streams, Target(m)));
        var es := Stream(w.streams, HomeOf(e));
        var j :| 0 <= j < |es| && es[j] == e;
        hide SagaOf, SagaCaused, DecideSucceeded, DecideCompensated, DecideFailed;
        match e {
          case BeerAvailabilityUpdated(b, _, _, o) =>
            assert Allocates(es[j], o);
            StepDecisionsAreCaused(w.streams, o, s, b);
          case AvailabilityCompensated(b, _, _, o) =>
            assert Releases(es[j], o);
            StepDecisionsAreCaused(w.streams, o, s, b);
          case QuantityNotFound(b, o, q, a) => FailureDecisionIsCaused(w.streams, o, s, b, q, a);
          case _ =>
        }
    }
  }

  lemma {:induction false} StepKeepsSagas(w: World, step: Step, w': World)
    requires Moves(w, step, w') && Extends(w.streams, w'.streams)
    ensures SagasCaused(w')
  {
    hide Takes, Justified, StockCaused, SagaCaused, SalesCaused, Sound, React, OnTimeOut;
    forall o, i | 0 <= i < |SagaEvents(w', o)| ensures SagaCaused(w'.streams, o, SagaEvents(w', o)[i]) {
      var es, es' := SagaEvents(w, o), SagaEvents(w', o);
      assert es <= es';
      if i < |es| {
        assert es'[i] == es[i];
        SagaCauseLasts(w.streams, w'.streams, o, es[i]);
      } else {
        NewEventsAreTheReaction(w, step, w', SagaStream(o), i);
        SagaEventsAreCaused(w, step, i - |es|);
        SagaCauseLasts(w.streams, w'.streams, o, es'[i]);
      }
    }
  }

  lemma {:induction false} StepKeepsOrders(w: World, step: Step, w': World)
    requires Moves(w, step, w') && Extends(w.streams, w'.streams)
    ensures OrdersCaused(w')
  {
    forall o ensures SalesCaused(w', o) {
      var es, es' := SalesEvents(w, o), SalesEvents(w', o);
      assert SalesCaused(w, o) && es <= es';
      if es' == es {
        SalesCauseLasts(w, w', o);
      } else {
        NewEventsAreTheReaction(w, step, w', SalesOrderStream(o), |es|);
        OrderEventsAreCaused(w, step, w', o);
      }
    }
  }

  lemma SalesCauseLasts(w: World, w': World, o: OrderId)
    requires SalesCaused(w, o) && Extends(w.streams, w'.streams) && w.sent <= w'.sent
    requires SalesEvents(w, o) == SalesEvents(w', o)
    ensures SalesCaused(w', o)
  {
    var es := SalesEvents(w, o);
    hide Justified;
    if |es| == 2 {
      if es[1] == SalesOrderAllocated(o) {
        JustifiedForever(w.streams, w'.streams, MarkSalesOrderAllocated(o));
      } else {
        JustifiedForever(w.streams, w'.streams, MarkSalesOrderAllocationRejected(o, es[1].reason));
      }
    }
  }

  /** An order stream holds its creation, and its settlement just when its state says so. */
  lemma OrderStreamState(o: OrderId, es: seq<Event>)
    requires 1 <= |es| <= 2 && es[0].SalesOrderCreated? && es[0].order == o
    requires |es| == 2 ==> es[1] == SalesOrderAllocated(o) || (es[1].SalesOrderAllocationRejected? && es[1].order == o)
    ensures OrderOf(es).id == o
    ensures |es| == 1 ==> OrderOf(es).allocation == AllocationPending
    ensures |es| == 2 ==>
              OrderOf(es).allocation == if es[1].SalesOrderAllocated? then AllocationDone else AllocationRefused
  {
    hide OrderOf;
    OrderOfFirst(es[0]);
    if |es| == 2 {
      OrderOfSnoc([es[0]], es[1]);
      assert es == [es[0]] + [es[1]];
    } else {
      assert es == [es[0]];
    }
  }

  /** A sales order stream is created, then settled, and takes nothing after that. */
  lemma SalesReaction(ss: Streams, m: Message, o: OrderId)
    requires Target(m) == SalesOrderStream(o) && React(ss, m).Reaction? && React(ss, m).events != []
    requires var es := Stream(ss, SalesOrderStream(o));
             && |es| <= 2
             && (es != [] ==> es[0].SalesOrderCreated? && es[0].order == o)
             && (|es| == 2 ==>
                   es[1] == SalesOrderAllocated(o) || (es[1].SalesOrderAllocationRejected? && es[1].order == o))
    ensures var n, events := |Stream(ss, SalesOrderStream(o))|, React(ss, m).events;
            || (m.CreateSalesOrder? && n == 0 && events == [SalesOrderCreated(o, m.header, m.rows)])
            || (m.MarkSalesOrderAllocated? && n == 1 && events == [SalesOrderAllocated(o)])
            || (m.MarkSalesOrderAllocationRejected? && n == 1 && events == [SalesOrderAllocationRejected(o, m.reason)])
  {
    var es := Stream(ss, SalesOrderStream(o));
    if es != [] {
      OrderStreamState(o, es);
    }
    hide OrderOf;
  }

  lemma OrderEventsAreCaused(w: World, step: Step, w': World, o: OrderId)
    requires Moves(w, step, w') && Extends(w.streams, w'.streams) && StepTarget(step) == SalesOrderStream(o)
    requires StepReaction(w, step).events != []
    requires SalesEvents(w', o) == SalesEvents(w, o) + StepReaction(w, step).events
    ensures SalesCaused(w', o)
  {
    var m, es, es' := step.m, SalesEvents(w, o), SalesEvents(w', o);
    assert SalesCaused(w, o) && m in w'.sent && Justified(w.streams, m);
    hide React, Justified, SagaCaused, StockCaused, Sound, Grounded, Inv;
    JustifiedForever(w.streams, w'.streams, m);
    SalesReaction(w.streams, m, o);
    assert m.CreateSalesOrder? || es'[0] == es[0];
    assert es'[|es|] == React(w.streams, m).events[0];
  }

  lemma MadeSnoc(es: seq<Event>, e: Event)
    ensures Made(es + [e])
            == Made(es) + if e.AvailabilityUpdatedDueToProductionOrder? then e.quantity - StockOf(es).quantity else 0
  {
    assert (es + [e])[..|es|] == es;
  }

  /** What a stock event adds to the production total is what its command added. */
  lemma GrownStockAccounts(w: World, step: Step, w': World, b: BeerId)
    requires Moves(w, step, w') && StockStream(w', b) != StockStream(w, b)
    ensures TotalProduced(w', b) - TotalProduced(w, b) == Made(StockStream(w', b)) - Made(StockStream(w, b))
  {
    hide Inv, StepReaction, StepTarget, ProducedAfter, Made, StockOf, StockCaused;
    var es, es', r := StockStream(w, b), StockStream(w', b), StepReaction(w, step);
    GrowExtends(w.streams, StepTarget(step), r.events);
    assert StepTarget(step) == AvailabilityStream(b) && es' == es + r.events && r.events != [];
    StockEventsAreCaused(w, step, 0);
    var e := r.events[0];
    assert es' == es + [e];
    MadeSnoc(es, e);
    StockEventAccounts(w, step, b);
  }

  lemma StockEventAccounts(w: World, step: Step, b: BeerId)
    requires Enabled(w, step) && StepTarget(step) == AvailabilityStream(b)
    requires StepReaction(w, step).Reaction? && |StepReaction(w, step).events| == 1
    ensures var e := StepReaction(w, step).events[0];
            (if b in ProducedAfter(w, step) then ProducedAfter(w, step)[b] else 0)
            == TotalProduced(w, b)
               + if e.AvailabilityUpdatedDueToProductionOrder? then e.quantity - StockOf(StockStream(w, b)).quantity else 0
  {
  }

  lemma UnchangedStockAccounts(w: World, step: Step, w': World, b: BeerId)
    requires Moves(w, step, w') && StockStream(w', b) == StockStream(w, b)
    ensures TotalProduced(w', b) == TotalProduced(w, b)
  {
    GrowExtends(w.streams, StepTarget(step), StepReaction(w, step).events);
    hide Inv, StockOf;
  }

  lemma StepKeepsAccounts(w: World, step: Step, w': World)
    requires Moves(w, step, w')
    ensures Accounted(w')
  {
    assert Accounted(w);
    hide Moves, Made, TotalProduced;
    forall b ensures TotalProduced(w', b) == Made(StockStream(w', b)) {
      assert TotalProduced(w, b) == Made(StockStream(w, b));
      if StockStream(w', b) != StockStream(w, b) {
        GrownStockAccounts(w, step, w', b);
      } else {
        UnchangedStockAccounts(w, step, w', b);
      }
    }
  }

  /** The invariant is inductive. */
  lemma StepKeepsInv(w: World, step: Step, w': World)
    requires Inv(w) && Takes(w, step, w')
    ensures Inv(w')
  {
    hide StepReaction, Sound, Grounded, StocksCaused, SagasCaused, OrdersCaused, Accounted;
    if StepReaction(w, step).Reaction? {
      StepKeepsSound(w, step, w');
      StepKeepsGrounded(w, step, w');
      StepKeepsStocks(w, step, w');
      StepKeepsSagas(w, step, w');
      StepKeepsOrders(w, step, w');
      StepKeepsAccounts(w, step, w');
    }
  }

  lemma {:induction false} RunKeepsInv(ws: seq<World>)
    requires Run(ws)
    ensures Inv(ws[|ws| - 1])
  {
    hide Inv, Takes;
    if |ws| == 1 {
      InitialInv();
    } else {
      var n := |ws| - 1;
      assert ws[..n][n - 1] == ws[n - 1] && Next(ws[n - 1], ws[n]);
      assert Run(ws[..n]);
      RunKeepsInv(ws[..n]);
      var step :| Takes(ws[n - 1], step, ws[n]);
      StepKeepsInv(ws[n - 1], step, ws[n]);
    }
  }

  lemma InitialInv()
    ensures Inv(INITIAL)
  {
  }

  /** Every reachable world satisfies the invariant. */
  lemma ReachableInv(w: World)
    requires Reachable(w)
    ensures Inv(w)
  {
    hide Inv;
    var ws :| Run(ws) && ws[|ws| - 1] == w;
    RunKeepsInv(ws);
  }
}
