/** The two contexts agree: what sales settles is how the warehouse's saga ended. */
module Agreement {
  import opened Messages
  import opened AllocationSaga
  import opened SagaLaws
  import opened SalesOrderAggregate
  import opened Reactions
  import opened Soundness
  import opened Protocol
  import opened ProtocolInvariant

  /** The outcome that the saga of `o` recorded, if any. */
  ghost predicate EndedCompleted(w: World, o: OrderId) {
    SagaOf(SagaEvents(w, o)).status == Completed
  }

  ghost predicate EndedRejected(w: World, o: OrderId, reason: Reason) {
    SagaOf(SagaEvents(w, o)).status == Rejected && SagaOf(SagaEvents(w, o)).reason == reason
  }

  /** A message about an outcome tells the outcome the saga recorded. */
  lemma {:induction false} OutcomeMessagesAreTrue(w: World, o: OrderId, reason: Reason)
    requires Inv(w)
    ensures Justified(w.streams, MarkSalesOrderAllocated(o)) ==> EndedCompleted(w, o)
    ensures Justified(w.streams, MarkSalesOrderAllocationRejected(o, reason)) ==> EndedRejected(w, o, reason)
  {
    var es := SagaEvents(w, o);
    assert es == [] || SoundStream(SagaStream(o), es);
    if OrderAllocationCompleted(o) in es {
      var i :| 0 <= i < |es| && es[i] == OrderAllocationCompleted(o);
      SettlesOnce(o, es, i);
    }
    if OrderAllocationRejected(o, reason) in es {
      var i :| 0 <= i < |es| && es[i] == OrderAllocationRejected(o, reason);
      SettlesOnce(o, es, i);
    }
  }

  /** A rejected saga failed in exactly one step, and its reason is that step's. */
  lemma RejectionHasOneCause(w: World, o: OrderId) returns (i: nat)
    requires Reachable(w) && SagaOf(SagaEvents(w, o)).status == Rejected
    ensures i < |SagaEvents(w, o)| && SagaEvents(w, o)[i].AllocationStepFailed?
    ensures SagaEvents(w, o)[i].reason == SagaOf(SagaEvents(w, o)).reason
    ensures forall j | 0 <= j < |SagaEvents(w, o)| && SagaEvents(w, o)[j].AllocationStepFailed? :: j == i
  {
    ReachableInv(w);
    var es := SagaEvents(w, o);
    assert SoundStream(SagaStream(o), es);
    LegalShaped(o, es);
    var k :| 0 <= k < |SagaOf(es).rows| && SagaOf(es).rows[k].state == Failed;
    var why := FailureWasRecorded(o, es, k);
    i :| 0 <= i < |es| && es[i] == AllocationStepFailed(o, SagaOf(es).rows[k].data.beer, why);
    FailsOnce(o, es, i, i);
    forall j | 0 <= j < |es| && es[j].AllocationStepFailed? ensures j == i {
      if i <= j {
        FailsOnce(o, es, i, j);
      } else {
        FailsOnce(o, es, j, i);
      }
    }
  }

  /**
   In every run an order is settled at most once, as its last event, and the settlement is the saga's own outcome: a
   rejection carries the reason of the one step that failed.
   */
  lemma SettlementsAgree(w: World, o: OrderId, i: nat)
    requires Reachable(w) && i < |SalesEvents(w, o)|
    ensures SalesEvents(w, o)[i].SalesOrderCreated? <==> i == 0
    ensures i > 0 ==> i == 1 == |SalesEvents(w, o)| - 1
    ensures SalesEvents(w, o)[i].SalesOrderAllocated? ==> EndedCompleted(w, o)
    ensures SalesEvents(w, o)[i].SalesOrderAllocationRejected? ==>
              && EndedRejected(w, o, SalesEvents(w, o)[i].reason)
              && exists k :: 0 <= k < |SagaEvents(w, o)| && SagaEvents(w, o)[k].AllocationStepFailed?
                             && SagaEvents(w, o)[k].reason == SalesEvents(w, o)[i].reason
  {
    ReachableInv(w);
    var e := SalesEvents(w, o)[i];
    assert SalesCaused(w, o);
    if e.SalesOrderAllocated? {
      OutcomeMessagesAreTrue(w, o, NoReason);
    } else if e.SalesOrderAllocationRejected? {
      OutcomeMessagesAreTrue(w, o, e.reason);
      var k := RejectionHasOneCause(w, o);
    }
  }

  lemma OnlySettlementsConflict(ss: Streams, m: Message)
    requires React(ss, m) == Refusal(AllocationConflict)
    ensures m.MarkSalesOrderAllocated? || m.MarkSalesOrderAllocationRejected?
    ensures var es := Stream(ss, Target(m));
            && es != []
            && OrderOf(es).allocation == if m.MarkSalesOrderAllocated? then AllocationRefused else AllocationDone
  {
    hide OrderOf;
  }

  /** Whatever is delivered, however often and in whatever order, no handler ever meets a conflicting settlement. */
  lemma ConflictIsUnreachable(w: World, m: Message)
    requires Reachable(w) && m in w.sent
    ensures React(w.streams, m) != Refusal(AllocationConflict)
  {
    if React(w.streams, m) == Refusal(AllocationConflict) {
      OnlySettlementsConflict(w.streams, m);
      hide React, OrderOf;
      ReachableInv(w);
      assert Justified(w.streams, m) && SalesCaused(w, m.order);
      SettlementCommandsAgree(w, m);
      hide Inv, Justified;
      OrderStreamState(m.order, SalesEvents(w, m.order));
    }
  }

  lemma SettlementCommandsAgree(w: World, m: Message)
    requires Inv(w) && Justified(w.streams, m)
    requires m.MarkSalesOrderAllocated? || m.MarkSalesOrderAllocationRejected? ==> SalesCaused(w, m.order)
    ensures var es := Stream(w.streams, Target(m));
            && (m.MarkSalesOrderAllocated? && |es| == 2 ==> es[1] == SalesOrderAllocated(m.order))
            && (m.MarkSalesOrderAllocationRejected? && |es| == 2 ==>
                  es[1] == SalesOrderAllocationRejected(m.order, m.reason))
  {
    if m.MarkSalesOrderAllocated? || m.MarkSalesOrderAllocationRejected? {
      var o, es := m.order, SalesEvents(w, m.order);
      OutcomeMessagesAreTrue(w, o, if m.MarkSalesOrderAllocated? then NoReason else m.reason);
      if |es| == 2 && es[1].SalesOrderAllocationRejected? {
        OutcomeMessagesAreTrue(w, o, es[1].reason);
      }
    }
  }
}
