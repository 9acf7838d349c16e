/**
 Laws of saga streams.

 `Legal` says which events may follow which state.  Every stream that the aggregate's own operations write is legal
 and rests at a point where a running saga has a pending row and a compensating one still holds stock.
 */
module SagaLaws {
  import opened Messages
  import opened AllocationSaga

  /** Event `e` may be recorded by the saga of `order` in state `s`. */
  predicate LegalNext(order: OrderId, s: Saga, e: Event) {
    match e
    case OrderAllocationStarted(o, _) => s.status == Unstarted && o == order
    case AllocationStepSucceeded(o, b) => s.status == Running && o == order && RowIn(s.rows, b, Pending)
    case AllocationStepFailed(o, b, _) => s.status == Running && o == order && RowIn(s.rows, b, Pending)
    case AllocationStepCompensated(o, b) => s.status == Compensating && o == order && RowIn(s.rows, b, Allocated)
    case OrderAllocationCompleted(o) => s.status == Running && o == order && AllIn(s.rows, Allocated)
    case OrderAllocationRejected(o, r) =>
      s.status == Compensating && o == order && NoneIn(s.rows, Allocated) && r == s.reason
    case _ => false
  }

  predicate Legal(order: OrderId, es: seq<Event>) {
    forall i | 0 <= i < |es| :: LegalNext(order, SagaOf(es[..i]), es[i])
  }

  /** Between two handlers a running saga waits for a pending row and a compensating one for an allocated row. */
  predicate Rested(s: Saga) {
    && (s.status == Running ==> !NoneIn(s.rows, Pending))
    && (s.status == Compensating ==> !NoneIn(s.rows, Allocated))
  }

  /** What each status says about the rows. */
  predicate Shaped(s: Saga) {
    match s.status
    case Unstarted => s == UNSTARTED
    case Running => forall i | 0 <= i < |s.rows| :: s.rows[i].state in {Pending, Allocated}
    case Compensating => !NoneIn(s.rows, Failed)
    case Completed => AllIn(s.rows, Allocated)
    case Rejected => NoneIn(s.rows, Allocated) && !NoneIn(s.rows, Failed)
  }

  /** Rows of the same beer are always in the same state. */
  predicate InStep(rows: seq<SagaRow>) {
    forall i, j | 0 <= i < |rows| && 0 <= j < |rows| && rows[i].data.beer == rows[j].data.beer ::
      rows[i].state == rows[j].state
  }

  lemma {:induction false} LegalSnoc(order: OrderId, es: seq<Event>, e: Event)
    requires Legal(order, es) && LegalNext(order, SagaOf(es), e)
    ensures Legal(order, es + [e])
  {
    forall i | 0 <= i < |es + [e]| ensures LegalNext(order, SagaOf((es + [e])[..i]), (es + [e])[i]) {
      assert (es + [e])[..i] == if i == |es| then es else es[..i];
    }
  }

  lemma LegalPrefix(order: OrderId, es: seq<Event>, n: nat)
    requires Legal(order, es) && n <= |es|
    ensures Legal(order, es[..n])
  {
    forall i | 0 <= i < n ensures LegalNext(order, SagaOf(es[..n][..i]), es[..n][i]) {
      assert es[..n][..i] == es[..i];
    }
  }

  /** The state after a non-empty legal stream, in terms of the state before its last event. */
  lemma LegalLast(order: OrderId, es: seq<Event>)
    requires Legal(order, es) && es != []
    ensures Legal(order, es[..|es| - 1]) && LegalNext(order, SagaOf(es[..|es| - 1]), es[|es| - 1])
    ensures es == es[..|es| - 1] + [es[|es| - 1]]
  {
    LegalPrefix(order, es, |es| - 1);
  }

  lemma StepKeepsShape(order: OrderId, s: Saga, e: Event)
    requires Shaped(s) && InStep(s.rows) && LegalNext(order, s, e)
    requires s.status != Unstarted ==> s.order == order
    ensures var t := ApplySaga(s, e); Shaped(t) && InStep(t.rows) && t.order == order && t.status != Unstarted
  {
    var t := ApplySaga(s, e);
    if e.AllocationStepFailed? {
      var i :| 0 <= i < |s.rows| && s.rows[i].data.beer == e.beer && s.rows[i].state == Pending;
      assert t.rows[i].state == Failed;
    } else if e.AllocationStepCompensated? {
      var i :| 0 <= i < |s.rows| && s.rows[i].state == Failed;
      var j :| 0 <= j < |s.rows| && s.rows[j].data.beer == e.beer && s.rows[j].state == Allocated;
      assert t.rows[i].state == Failed;
    }
  }

  lemma {:induction false} LegalShaped(order: OrderId, es: seq<Event>)
    requires Legal(order, es)
    ensures Shaped(SagaOf(es)) && InStep(SagaOf(es).rows)
    ensures es != [] ==> SagaOf(es).order == order
    ensures es == [] <==> SagaOf(es).status == Unstarted
  {
    if es != [] {
      hide Legal, Shaped, InStep, LegalNext;
      var p, e := es[..|es| - 1], es[|es| - 1];
      LegalLast(order, es);
      LegalShaped(order, p);
      StepKeepsShape(order, SagaOf(p), e);
    }
  }

  lemma NothingIsLegal(order: OrderId)
    ensures Legal(order, []) && SagaOf([]) == UNSTARTED
  {
  }

  lemma FirstIsLegal(order: OrderId, rows: seq<Row>)
    ensures var e := OrderAllocationStarted(order, rows);
            Legal(order, [e]) && SagaOf([e]) == ApplySaga(UNSTARTED, e)
  {
    hide Legal, SagaOf;
    var e := OrderAllocationStarted(order, rows);
    NothingIsLegal(order);
    LegalSnoc(order, [], e);
    SagaOfFirst(e);
    assert [] + [e] == [e];
  }

  /** Every operation of the aggregate keeps the stream legal and leaves the saga at rest. */
  lemma StartKeepsLaws(order: OrderId, rows: seq<Row>)
    ensures Legal(order, DecideStart(order, rows)) && Rested(SagaOf(DecideStart(order, rows)))
  {
    hide Legal, SagaOf;
    var e := OrderAllocationStarted(order, rows);
    FirstIsLegal(order, rows);
    if rows == [] {
      assert DecideStart(order, rows) == [e] + [OrderAllocationCompleted(order)];
      SagaOfSnoc([e], OrderAllocationCompleted(order));
      LegalSnoc(order, [e], OrderAllocationCompleted(order));
    } else {
      assert DecideStart(order, rows) == [e];
      assert SagaOf([e]).rows[0].state == Pending;
    }
  }

  lemma {:induction false} SucceededKeepsLaws(order: OrderId, es: seq<Event>, beer: BeerId)
    requires Legal(order, es) && Rested(SagaOf(es))
    ensures var es' := es + DecideSucceeded(SagaOf(es), beer); Legal(order, es') && Rested(SagaOf(es'))
  {
    hide SagaOf, Legal;
    var s, ds := SagaOf(es), DecideSucceeded(SagaOf(es), beer);
    LegalShaped(order, es);
    if ds == [] {
      assert es + ds == es;
    } else {
      var e := AllocationStepSucceeded(s.order, beer);
      SagaOfSnoc(es, e);
      LegalSnoc(order, es, e);
      if |ds| == 2 {
        assert es + ds == es + [e] + [ds[1]];
        SagaOfSnoc(es + [e], ds[1]);
        LegalSnoc(order, es + [e], ds[1]);
      }
    }
  }

  /** A compensating saga with nothing left to undo is rejected, which settles it. */
  lemma RejectingKeepsLaws(order: OrderId, es: seq<Event>)
    requires Legal(order, es) && SagaOf(es).status == Compensating && SagaOf(es).order == order
    ensures var s := SagaOf(es);
            var es' := es + if ToCompensate(s) == [] then [OrderAllocationRejected(order, s.reason)] else [];
            Legal(order, es') && Rested(SagaOf(es'))
  {
    hide SagaOf, Legal, AllocatedRows;
    var s := SagaOf(es);
    AllocatedRowsEmpty(s.rows);
    if ToCompensate(s) == [] {
      SagaOfSnoc(es, OrderAllocationRejected(order, s.reason));
      LegalSnoc(order, es, OrderAllocationRejected(order, s.reason));
    } else {
      assert es + [] == es;
    }
  }

  lemma FailedKeepsLaws(order: OrderId, es: seq<Event>, beer: BeerId, reason: Reason)
    requires Legal(order, es) && Rested(SagaOf(es))
    ensures var es' := es + DecideFailed(SagaOf(es), beer, reason); Legal(order, es') && Rested(SagaOf(es'))
  {
    hide SagaOf, Legal, ToCompensate;
    var s, ds := SagaOf(es), DecideFailed(SagaOf(es), beer, reason);
    if ds == [] {
      assert es + ds == es;
    } else {
      var e := AllocationStepFailed(s.order, beer, reason);
      assert s.order == order by { LegalShaped(order, es); }
      SagaOfSnoc(es, e);
      LegalSnoc(order, es, e);
      RejectingKeepsLaws(order, es + [e]);
      assert ds == [e] + ds[1..];
      assert es + ds == es + [e] + ds[1..];
    }
  }

  lemma {:induction false} CompensatedKeepsLaws(order: OrderId, es: seq<Event>, beer: BeerId)
    requires Legal(order, es) && Rested(SagaOf(es))
    ensures var es' := es + DecideCompensated(SagaOf(es), beer); Legal(order, es') && Rested(SagaOf(es'))
  {
    hide SagaOf, Legal, ToCompensate;
    var s, ds := SagaOf(es), DecideCompensated(SagaOf(es), beer);
    if ds == [] {
      assert es + ds == es;
    } else {
      var e := AllocationStepCompensated(s.order, beer);
      assert s.order == order by { LegalShaped(order, es); }
      SagaOfSnoc(es, e);
      LegalSnoc(order, es, e);
      RejectingKeepsLaws(order, es + [e]);
      assert ds == [e] + ds[1..];
      assert es + ds == es + [e] + ds[1..];
    }
  }

  // ---- what a stream remembers about its past ----

  predicate Settled(s: Saga) {
    s.status in {Completed, Rejected}
  }

  /** How far a status is along its one-way path; two different final statuses share the last rank. */
  function Rank(st: Status): nat {
    match st
    case Unstarted => 0
    case Running => 1
    case Compensating => 2
    case Completed => 3
    case Rejected => 3
  }

  /** How far a row is along its one-way path. */
  function RowRank(st: RowState): nat {
    match st
    case Pending => 0
    case Allocated => 1
    case Failed => 2
    case Compensated => 2
  }

  /** The rows stay the same rows, and each of them and the status only move forward. */
  predicate RowAhead(a: SagaRow, b: SagaRow) {
    a.data == b.data && (a.state == b.state || RowRank(a.state) < RowRank(b.state))
  }

  predicate Ahead(s: Saga, t: Saga) {
    && s.status != Unstarted && t.status != Unstarted
    && Rank(s.status) <= Rank(t.status)
    && (s.status == Compensating ==> t.status in {Compensating, Rejected} && t.reason == s.reason)
    && |s.rows| == |t.rows|
    && forall i | 0 <= i < |s.rows| :: RowAhead(s.rows[i], t.rows[i])
  }

  lemma AheadThrough(s: Saga, m: Saga, t: Saga)
    requires Ahead(s, m) && Ahead(m, t)
    ensures Settled(m) || Ahead(s, t)
  {
    forall i | 0 <= i < |s.rows| ensures RowAhead(s.rows[i], t.rows[i]) {
      assert RowAhead(s.rows[i], m.rows[i]) && RowAhead(m.rows[i], t.rows[i]);
    }
  }

  /** A legal event moves a started saga forward, and a settled saga has none. */
  lemma StepIsAhead(order: OrderId, s: Saga, e: Event)
    requires Shaped(s) && InStep(s.rows) && s.status != Unstarted && LegalNext(order, s, e)
    ensures Ahead(s, ApplySaga(s, e)) && !Settled(s)
  {
    var t := ApplySaga(s, e);
    forall i | 0 <= i < |s.rows| ensures RowAhead(s.rows[i], t.rows[i]) {
    }
  }

  /** From any point of a started stream on, the saga only moves forward, and nothing follows its settlement. */
  lemma {:induction false} Forward(order: OrderId, es: seq<Event>, n: nat)
    requires Legal(order, es) && 1 <= n <= |es|
    ensures Ahead(SagaOf(es[..n]), SagaOf(es))
    ensures Settled(SagaOf(es[..n])) ==> n == |es|
    decreases |es|
  {
    if n == |es| {
      LegalShaped(order, es);
      assert es[..n] == es;
    } else {
      LegalLast(order, es);
      var p, e := es[..|es| - 1], es[|es| - 1];
      LegalShaped(order, p);
      hide Legal, Shaped, Ahead;
      assert p[..n] == es[..n];
      Forward(order, p, n);
      StepIsAhead(order, SagaOf(p), e);
      AheadThrough(SagaOf(es[..n]), SagaOf(p), SagaOf(es));
    }
  }

  /** A legal stream that has started begins with its Started event, whose rows the saga keeps. */
  lemma {:induction false} StartsWithStarted(order: OrderId, es: seq<Event>)
    requires Legal(order, es) && es != []
    ensures es[0].OrderAllocationStarted? && es[0].order == order
    ensures |SagaOf(es).rows| == |es[0].rows|
    ensures forall i | 0 <= i < |es[0].rows| :: SagaOf(es).rows[i].data == es[0].rows[i]
  {
    assert es[..0] == [];
    assert LegalNext(order, SagaOf(es[..0]), es[0]);
    assert es[..1] == [] + [es[0]];
    SagaOfSnoc([], es[0]);
    Forward(order, es, 1);
  }

  lemma SagaOfStep(es: seq<Event>, i: nat)
    requires i < |es|
    ensures SagaOf(es[..i + 1]) == ApplySaga(SagaOf(es[..i]), es[i])
  {
    assert es[..i + 1] == es[..i] + [es[i]];
    SagaOfSnoc(es[..i], es[i]);
  }

  /** Completed and rejected are final: the settling event is the last one, and there is at most one. */
  lemma SettlesOnce(order: OrderId, es: seq<Event>, i: nat)
    requires Legal(order, es) && i < |es|
    requires es[i].OrderAllocationCompleted? || es[i].OrderAllocationRejected?
    ensures i == |es| - 1
    ensures SagaOf(es).status == if es[i].OrderAllocationCompleted? then Completed else Rejected
    ensures es[i].OrderAllocationRejected? ==> SagaOf(es).reason == es[i].reason
  {
    SagaOfStep(es, i);
    assert Settled(SagaOf(es[..i + 1]));
    assert i + 1 == |es| by { Forward(order, es, i + 1); }
    assert es[..i + 1] == es;
  }

  lemma FinalStatusWasRecorded(order: OrderId, es: seq<Event>)
    requires Legal(order, es) && Settled(SagaOf(es))
    ensures es != []
    ensures SagaOf(es).status == Completed ==> es[|es| - 1] == OrderAllocationCompleted(order)
    ensures SagaOf(es).status == Rejected ==> es[|es| - 1] == OrderAllocationRejected(order, SagaOf(es).reason)
  {
    LegalLast(order, es);
    var s, e := SagaOf(es[..|es| - 1]), es[|es| - 1];
    assert SagaOf(es) == ApplySaga(s, e) && LegalNext(order, s, e);
  }

  /** The state right after the failing step. */
  lemma {:induction false} FailingStep(order: OrderId, es: seq<Event>, i: nat)
    requires Legal(order, es) && i < |es| && es[i].AllocationStepFailed?
    ensures SagaOf(es[..i]).status == Running
    ensures SagaOf(es).reason == es[i].reason && SagaOf(es).status in {Compensating, Rejected}
  {
    assert LegalNext(order, SagaOf(es[..i]), es[i]);
    SagaOfStep(es, i);
    Forward(order, es, i + 1);
  }

  /** There is at most one failing step, and the saga's reason is that step's reason ever after. */
  lemma {:induction false} FailsOnce(order: OrderId, es: seq<Event>, i: nat, j: nat)
    requires Legal(order, es) && i <= j < |es| && es[i].AllocationStepFailed? && es[j].AllocationStepFailed?
    ensures i == j
    ensures SagaOf(es).reason == es[i].reason
  {
    FailingStep(order, es, i);
    FailingStep(order, es, j);
    if i < j {
      LegalPrefix(order, es, j);
      FailingStep(order, es[..j], i);
    }
  }

  lemma {:induction false} SuccessesWereRecorded(order: OrderId, es: seq<Event>, k: nat)
    requires Legal(order, es) && k < |SagaOf(es).rows|
    ensures var r := SagaOf(es).rows[k];
            r.state in {Allocated, Compensated} <==> AllocationStepSucceeded(order, r.data.beer) in es
    decreases |es|
  {
    LegalLast(order, es);
    var p, e := es[..|es| - 1], es[|es| - 1];
    LegalShaped(order, p);
    if p == [] {
      assert es == [e];
    } else {
      Forward(order, es, |es| - 1);
      SuccessesWereRecorded(order, p, k);
    }
  }

  lemma {:induction false} CompensationsWereRecorded(order: OrderId, es: seq<Event>, k: nat)
    requires Legal(order, es) && k < |SagaOf(es).rows|
    ensures var r := SagaOf(es).rows[k];
            r.state == Compensated <==> AllocationStepCompensated(order, r.data.beer) in es
    decreases |es|
  {
    LegalLast(order, es);
    var p, e := es[..|es| - 1], es[|es| - 1];
    LegalShaped(order, p);
    if p == [] {
      assert es == [e];
    } else {
      Forward(order, es, |es| - 1);
      CompensationsWereRecorded(order, p, k);
    }
  }

  lemma {:induction false} FailureWasRecorded(order: OrderId, es: seq<Event>, k: nat) returns (why: Reason)
    requires Legal(order, es) && k < |SagaOf(es).rows| && SagaOf(es).rows[k].state == Failed
    ensures AllocationStepFailed(order, SagaOf(es).rows[k].data.beer, why) in es
    decreases |es|
  {
    LegalLast(order, es);
    var p, e := es[..|es| - 1], es[|es| - 1];
    if e.AllocationStepFailed? && e.beer == SagaOf(es).rows[k].data.beer {
      why := e.reason;
    } else {
      why := FailureWasRecorded(order, p, k);
    }
  }
}
