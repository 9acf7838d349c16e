/**
 When a rejected order holds stock.

 A rejection is meant to leave nothing held.  There are two ways in which that goes wrong, and no third: an order that is
 rejected already is handed a beer by an allocation command that is handled late or again; or the step that rejects the
 order is taken while a beer still holds for it, because the beer's allocation never reached the saga or came after its
 release.
 */
module Rejections {
  import opened Messages
  import opened AvailabilityAggregate
  import opened AllocationSaga
  import opened SagaLaws
  import opened SagaBounds
  import opened Reactions
  import opened Soundness
  import opened Protocol
  import opened ProtocolInvariant
  import opened DurableExecution
  import opened StockTheorems
  import opened AllOrNothing
  import opened Driving
  import opened Progress
  import opened Limits

  predicate IsRejected(w: World, o: OrderId) {
    SagaOf(SagaEvents(w, o)).status == Rejected
  }

  predicate Holds(w: World, o: OrderId, b: BeerId) {
    o in StockOf(StockStream(w, b)).held
  }

  /**
   The step rejects the order: the watchdog or a shortage fails a row while the saga has no allocation recorded, or the
   release of the only beer it has recorded comes in.
   */
  predicate Rejects(w: World, step: Step, o: OrderId) {
    var s := SagaOf(SagaEvents(w, o));
    match step
    case TimeOut(p) => p == o && s.status == Running && NoneIn(s.rows, Allocated)
    case Deliver(DomainEvent(QuantityNotFound(c, p, _, _))) =>
      p == o && s.status == Running && RowIn(s.rows, c, Pending) && NoneIn(s.rows, Allocated)
    case Deliver(DomainEvent(AvailabilityCompensated(c, _, _, p))) =>
      && p == o && s.status == Compensating && RowIn(s.rows, c, Allocated)
      && forall i | 0 <= i < |s.rows| && s.rows[i].state == Allocated :: s.rows[i].data.beer == c
    case _ => false
  }

  // ---- which steps reject ----

  /** Failing a pending row rejects a running saga exactly if nothing is recorded as allocated. */
  lemma {:induction false} FailureRejectsIff(o: OrderId, es: seq<Event>, b: BeerId, why: Reason)
    requires Legal(o, es) && SagaOf(es).status != Rejected
    ensures var s := SagaOf(es);
            SagaOf(es + DecideFailed(s, b, why)).status == Rejected
            <==> s.status == Running && RowIn(s.rows, b, Pending) && NoneIn(s.rows, Allocated)
  {
    hide SagaOf, Legal, AllocatedRows;
    var s, ds := SagaOf(es), DecideFailed(SagaOf(es), b, why);
    LegalShaped(o, es);
    if ds == [] {
      assert es + ds == es;
    } else {
      var e := AllocationStepFailed(s.order, b, why);
      var t := ApplySaga(s, e);
      SagaOfSnoc(es, e);
      AllocatedRowsEmpty(t.rows);
      FailingKeepsAllocated(s, b);
      if |ds| == 2 {
        SagaOfSnoc(es + [e], ds[1]);
        assert es + ds == es + [e] + [ds[1]];
      } else {
        assert ds == [e];
      }
    }
  }

  lemma FailingKeepsAllocated(s: Saga, b: BeerId)
    requires InStep(s.rows) && RowIn(s.rows, b, Pending)
    ensures NoneIn(SetRow(s.rows, b, Failed), Allocated) <==> NoneIn(s.rows, Allocated)
  {
    var t := SetRow(s.rows, b, Failed);
    forall i | 0 <= i < |s.rows| ensures s.rows[i].state == Allocated <==> t[i].state == Allocated {
    }
  }

  /** A release rejects a compensating saga exactly if it is of the only beer recorded as allocated. */
  lemma {:induction false} ReleaseRejectsIff(o: OrderId, es: seq<Event>, b: BeerId)
    requires Legal(o, es) && SagaOf(es).status != Rejected
    ensures var s := SagaOf(es);
            SagaOf(es + DecideCompensated(s, b)).status == Rejected
            <==> && s.status == Compensating && RowIn(s.rows, b, Allocated)
                 && forall i | 0 <= i < |s.rows| && s.rows[i].state == Allocated :: s.rows[i].data.beer == b
  {
    hide SagaOf, Legal, AllocatedRows;
    var s, ds := SagaOf(es), DecideCompensated(SagaOf(es), b);
    if ds == [] {
      assert es + ds == es;
    } else {
      var e := AllocationStepCompensated(s.order, b);
      var t := ApplySaga(s, e);
      SagaOfSnoc(es, e);
      AllocatedRowsEmpty(t.rows);
      ReleasingLeaves(s.rows, b);
      if |ds| == 2 {
        SagaOfSnoc(es + [e], ds[1]);
        assert es + ds == es + [e] + [ds[1]];
      } else {
        assert ds == [e];
      }
    }
  }

  lemma ReleasingLeaves(rows: seq<SagaRow>, b: BeerId)
    ensures NoneIn(SetRow(rows, b, Compensated), Allocated)
            <==> forall i | 0 <= i < |rows| && rows[i].state == Allocated :: rows[i].data.beer == b
  {
    var t := SetRow(rows, b, Compensated);
    forall i | 0 <= i < |rows| ensures t[i].state == Allocated <==> rows[i].state == Allocated && rows[i].data.beer != b {
    }
  }

  lemma {:induction false} SuccessDoesNotReject(es: seq<Event>, b: BeerId)
    ensures SagaOf(es + DecideSucceeded(SagaOf(es), b)).status == Rejected ==> SagaOf(es).status == Rejected
  {
    hide SagaOf, AllIn, RowIn;
    var s, ds := SagaOf(es), DecideSucceeded(SagaOf(es), b);
    if ds == [] {
      assert es + ds == es;
    } else {
      SagaOfSnoc(es, ds[0]);
      if |ds| == 2 {
        SagaOfSnoc(es + [ds[0]], ds[1]);
        assert es + ds == es + [ds[0]] + [ds[1]];
      } else {
        assert ds == [ds[0]];
      }
    }
  }

  lemma {:induction false} StartDoesNotReject(o: OrderId, rows: seq<Row>)
    ensures SagaOf(DecideStart(o, rows)).status != Rejected
  {
    hide SagaOf;
    var e := OrderAllocationStarted(o, rows);
    SagaOfFirst(e);
    if rows == [] {
      SagaOfSnoc([e], OrderAllocationCompleted(o));
      assert DecideStart(o, rows) == [e] + [OrderAllocationCompleted(o)];
    } else {
      assert DecideStart(o, rows) == [e];
    }
  }

  /** What a step makes of the saga of `o`. */
  function SagaAfter(w: World, step: Step, o: OrderId): seq<Event> {
    SagaEvents(w, o)
    + if StepTarget(step) == SagaStream(o) && StepReaction(w, step).Reaction? then StepReaction(w, step).events else []
  }

  /** A step rejects an order that is not rejected exactly as `Rejects` says. */
  lemma {:induction false} StepRejectsIff(w: World, step: Step, o: OrderId)
    requires Inv(w) && Enabled(w, step) && !IsRejected(w, o)
    ensures SagaOf(SagaAfter(w, step, o)).status == Rejected <==> Rejects(w, step, o)
  {
    hide SagaOf, Inv, Legal, DecideStart, DecideSucceeded, DecideFailed, DecideCompensated, Drive, Verdict;
    hide NextAllocation, Compensations, ToCompensate;
    var es := SagaEvents(w, o);
    assert es + [] == es && [] + es == es;
    SagaIsLegal(w, o);
    LegalShaped(o, es);
    match step {
      case TimeOut(p) =>
        if p == o {
          WatchdogFails(w, o);
        }
      case Deliver(OrderPlaced(p, rows)) =>
        StartDoesNotReject(p, rows);
        assert es == [] ==> es + DecideStart(p, rows) == DecideStart(p, rows);
      case Deliver(DomainEvent(BeerAvailabilityUpdated(b, _, _, p))) => SuccessDoesNotReject(es, b);
      case Deliver(DomainEvent(QuantityNotFound(b, p, q, a))) => FailureRejectsIff(o, es, b, Shortage(b, q, a));
      case Deliver(DomainEvent(AvailabilityCompensated(b, _, _, p))) => ReleaseRejectsIff(o, es, b);
      case _ =>
    }
  }

  lemma {:induction false} WatchdogFails(w: World, o: OrderId)
    requires Inv(w) && !IsRejected(w, o)
    ensures var es := SagaEvents(w, o);
            OnTimeOut(es).Reaction?
            && (SagaOf(es + OnTimeOut(es).events).status == Rejected
                <==> SagaOf(es).status == Running && NoneIn(SagaOf(es).rows, Allocated))
  {
    hide SagaOf, Inv, Legal, DecideFailed, Drive, Verdict, Compensations, ToCompensate, NextPending, FirstPending;
    var es := SagaEvents(w, o);
    assert es + [] == es;
    SagaIsLegal(w, o);
    match NextPending(SagaOf(es)) {
      case Some(row) =>
        PendingRowWaits(SagaOf(es));
        FailureRejectsIff(o, es, row.beer, TimedOut);
      case None =>
        if es != [] && SagaOf(es).status == Running {
          SagaIsRested(w, o);
          RestedRunWaits(SagaOf(es));
        }
        NothingIsLegal(o);
    }
  }

  lemma PendingRowWaits(s: Saga)
    requires NextPending(s).Some?
    ensures s.status == Running && RowIn(s.rows, NextPending(s).value.beer, Pending)
  {
    assert s.rows[FirstPending(s.rows)].state == Pending;
  }

  // ---- when a rejected order holds stock ----

  /** The step makes the order a rejected one that holds beer `b`. */
  predicate Breaks(w: World, step: Step, o: OrderId, b: BeerId) {
    (IsRejected(w, o) && TakesFor(w, step, o, b)) || (Rejects(w, step, o) && Holds(w, o, b))
  }

  lemma {:induction false} RejectedStays(w: World, step: Step, w': World, o: OrderId)
    requires Inv(w) && Inv(w') && Takes(w, step, w')
    ensures SagaEvents(w', o) == SagaAfter(w, step, o)
    ensures IsRejected(w, o) ==> IsRejected(w', o)
  {
    hide SagaOf, Inv, Legal, StepReaction, StepTarget;
    var es, es' := SagaEvents(w, o), SagaEvents(w', o);
    assert es + [] == es;
    if StepReaction(w, step).Reaction? {
      GrowExtends(w.streams, StepTarget(step), StepReaction(w, step).events);
    }
    if IsRejected(w, o) {
      NothingIsLegal(o);
      SagaIsLegal(w', o);
      assert es'[..|es|] == es;
      Forward(o, es', |es|);
    }
  }

  lemma {:induction false} RejectingLeavesStock(w: World, step: Step, w': World, o: OrderId, b: BeerId)
    requires Takes(w, step, w') && Rejects(w, step, o)
    ensures StockStream(w', b) == StockStream(w, b)
  {
    hide SagaOf, StepReaction;
    if StepReaction(w, step).Reaction? {
      GrowExtends(w.streams, StepTarget(step), StepReaction(w, step).events);
    }
  }

  /**
   The exact condition, step by step: as long as the order is not both rejected and holding the beer, the next step makes
   it so exactly if it hands a rejected order the beer, or rejects an order that holds it.
   */
  lemma {:induction false} RejectedOrderHoldsIff(w: World, step: Step, w': World, o: OrderId, b: BeerId)
    requires Reachable(w) && Takes(w, step, w') && !(IsRejected(w, o) && Holds(w, o, b))
    ensures IsRejected(w', o) && Holds(w', o, b) <==> Breaks(w, step, o, b)
  {
    hide Reachable, SagaOf, StockOf, Inv, Takes, TakesFor, SagaAfter, Rejects;
    ReachableInv(w);
    assert Next(w, w');
    ReachableGoesOn(w, w');
    ReachableInv(w');
    TakenIsEnabled(w, step, w');
    RejectedStays(w, step, w', o);
    if IsRejected(w, o) {
      OrderComesToHoldIff(w, step, w', o, b);
      RejectedIsNotRejectedAgain(w, step, o);
    } else {
      StepRejectsIff(w, step, o);
      if Rejects(w, step, o) {
        RejectingLeavesStock(w, step, w', o, b);
      }
    }
  }

  lemma TakenIsEnabled(w: World, step: Step, w': World)
    requires Takes(w, step, w')
    ensures Enabled(w, step)
  {
  }

  lemma RejectedIsNotRejectedAgain(w: World, step: Step, o: OrderId)
    requires IsRejected(w, o)
    ensures !Rejects(w, step, o)
  {
    hide SagaOf;
  }

  /** And over whole runs: no rejected order ever holds the beer exactly if no step of the run breaks it. */
  lemma {:induction false} RejectedOrderNeverHoldsIff(ws: seq<World>, o: OrderId, b: BeerId)
    requires Run(ws)
    ensures (forall i | 0 <= i < |ws| :: !(IsRejected(ws[i], o) && Holds(ws[i], o, b)))
            <==> forall i, step | 0 <= i < |ws| - 1 && Takes(ws[i], step, ws[i + 1]) :: !Breaks(ws[i], step, o, b)
  {
    hide IsRejected, Holds, Breaks, Takes, Reachable;
    if forall i | 0 <= i < |ws| :: !(IsRejected(ws[i], o) && Holds(ws[i], o, b)) {
      forall i, step | 0 <= i < |ws| - 1 && Takes(ws[i], step, ws[i + 1]) ensures !Breaks(ws[i], step, o, b) {
        RunReaches(ws, i);
        RejectedOrderHoldsIff(ws[i], step, ws[i + 1], o, b);
      }
    }
    if forall i, step | 0 <= i < |ws| - 1 && Takes(ws[i], step, ws[i + 1]) :: !Breaks(ws[i], step, o, b) {
      forall i | 0 <= i < |ws| ensures !(IsRejected(ws[i], o) && Holds(ws[i], o, b)) {
        UnbrokenSoFar(ws, o, b, i);
      }
    }
  }

  lemma RunReaches(ws: seq<World>, i: nat)
    requires Run(ws) && i < |ws|
    ensures Reachable(ws[i])
  {
    hide Next;
    var p := ws[..i + 1];
    forall k | 0 <= k < |p| - 1 ensures Next(p[k], p[k + 1]) {
      assert Next(ws[k], ws[k + 1]);
    }
    assert Run(p) && p[|p| - 1] == ws[i];
  }

  lemma {:induction false} UnbrokenSoFar(ws: seq<World>, o: OrderId, b: BeerId, i: nat)
    requires Run(ws) && i < |ws|
    requires forall k, step | 0 <= k < |ws| - 1 && Takes(ws[k], step, ws[k + 1]) :: !Breaks(ws[k], step, o, b)
    ensures !(IsRejected(ws[i], o) && Holds(ws[i], o, b))
  {
    hide IsRejected, Holds, Breaks, Takes, Reachable;
    if i == 0 {
      NothingRejectedAtFirst(o);
    } else {
      UnbrokenSoFar(ws, o, b, i - 1);
      assert Next(ws[i - 1], ws[i - 1 + 1]);
      var step :| Takes(ws[i - 1], step, ws[i]);
      RunReaches(ws, i - 1);
      RejectedOrderHoldsIff(ws[i - 1], step, ws[i], o, b);
    }
  }

  lemma NothingRejectedAtFirst(o: OrderId)
    ensures !IsRejected(INITIAL, o)
  {
  }

  /** What a saga that is rejected without compensation holds, it does not know of. */
  lemma {:induction false} UnheardAllocation(w: World, step: Step, o: OrderId, b: BeerId)
    requires Reachable(w) && Rejects(w, step, o) && SagaOf(SagaEvents(w, o)).status == Running && Holds(w, o, b)
    ensures HasAllocation(StockStream(w, b), o) && AllocationStepSucceeded(o, b) !in SagaEvents(w, o)
  {
    hide Reachable, SagaOf, StockOf, Inv, Legal;
    ReachableInv(w);
    SagaIsLegal(w, o);
    var i := HeldSince(StockStream(w, b), o);
    var es := SagaEvents(w, o);
    if x :| 0 <= x < |es| && es[x] == AllocationStepSucceeded(o, b) {
      var k := RowOfStep(o, es, x);
      SuccessesWereRecorded(o, es, k);
      LegalShaped(o, es);
    }
  }
}
