/** How long a saga can run, and what a rejected saga has undone. */
module SagaBounds {
  import opened Messages
  import opened AllocationSaga
  import opened SagaLaws

  function RowWeight(st: RowState, forward: bool): nat {
    match st
    case Pending => if forward then 2 else 0
    case Allocated => 1
    case _ => 0
  }

  function Weight(rows: seq<SagaRow>, forward: bool): nat {
    if rows == [] then 0 else RowWeight(rows[0].state, forward) + Weight(rows[1..], forward)
  }

  /** An upper bound on the events still to come. */
  function Remaining(s: Saga): nat {
    match s.status
    case Running => if Weight(s.rows, true) == 0 then 1 else Weight(s.rows, true)
    case Compensating => Weight(s.rows, false) + 1
    case _ => 0
  }

  lemma {:induction false} WeightDrops(a: seq<SagaRow>, b: seq<SagaRow>, fa: bool, fb: bool, k: nat)
    requires |a| == |b| && k < |a|
    requires forall i | 0 <= i < |a| :: RowWeight(b[i].state, fb) <= RowWeight(a[i].state, fa)
    ensures Weight(b, fb) + RowWeight(a[k].state, fa) <= Weight(a, fa) + RowWeight(b[k].state, fb)
  {
    if k == 0 {
      WeightOrdered(a[1..], b[1..], fa, fb);
    } else {
      WeightDrops(a[1..], b[1..], fa, fb, k - 1);
    }
  }

  lemma {:induction false} WeightOrdered(a: seq<SagaRow>, b: seq<SagaRow>, fa: bool, fb: bool)
    requires |a| == |b|
    requires forall i | 0 <= i < |a| :: RowWeight(b[i].state, fb) <= RowWeight(a[i].state, fa)
    ensures Weight(b, fb) <= Weight(a, fa)
  {
    if a != [] {
      WeightOrdered(a[1..], b[1..], fa, fb);
    }
  }

  lemma {:induction false} FreshWeight(rows: seq<SagaRow>)
    requires AllIn(rows, Pending)
    ensures Weight(rows, true) == 2 * |rows|
  {
    if rows != [] {
      FreshWeight(rows[1..]);
    }
  }

  /** Every event after the first uses up part of what remains. */
  lemma EventsRunOut(order: OrderId, s: Saga, e: Event)
    requires Shaped(s) && s.status != Unstarted && LegalNext(order, s, e)
    ensures Remaining(ApplySaga(s, e)) < Remaining(s)
  {
    var t := ApplySaga(s, e);
    if e.AllocationStepSucceeded? || e.AllocationStepFailed? {
      var k :| 0 <= k < |s.rows| && s.rows[k].data.beer == e.beer && s.rows[k].state == Pending;
      WeightDrops(s.rows, t.rows, true, e.AllocationStepSucceeded?, k);
      if e.AllocationStepSucceeded? {
        WeightDrops(t.rows, t.rows, true, true, k);
        WeightAtLeast(t.rows, k);
      }
    } else if e.AllocationStepCompensated? {
      var k :| 0 <= k < |s.rows| && s.rows[k].data.beer == e.beer && s.rows[k].state == Allocated;
      WeightDrops(s.rows, t.rows, false, false, k);
    }
  }

  lemma {:induction false} WeightAtLeast(rows: seq<SagaRow>, k: nat)
    requires k < |rows|
    ensures RowWeight(rows[k].state, true) <= Weight(rows, true)
  {
    if k > 0 {
      WeightAtLeast(rows[1..], k - 1);
    }
  }

  /** The longest stream a saga of `n` rows can have. */
  function LongestStream(n: nat): nat {
    if n == 0 then 2 else 2 * n + 1
  }

  /** A saga of n rows records at most 2n + 1 events, or 2 when it has no rows; so every saga runs out of events. */
  lemma {:induction false} LengthBound(order: OrderId, es: seq<Event>)
    requires Legal(order, es) && es != []
    ensures |es| + Remaining(SagaOf(es)) <= LongestStream(|SagaOf(es).rows|)
  {
    LegalLast(order, es);
    var p, e := es[..|es| - 1], es[|es| - 1];
    LegalShaped(order, p);
    if p == [] {
      FreshWeight(SagaOf(es).rows);
    } else {
      Forward(order, es, |p|);
      LengthBound(order, p);
      EventsRunOut(order, SagaOf(p), e);
    }
  }

  /** Exactly the beers whose allocation was recorded are compensated by the time the saga is rejected. */
  lemma {:induction false} RejectionUndidEverything(order: OrderId, es: seq<Event>, beer: BeerId)
    requires Legal(order, es) && SagaOf(es).status == Rejected
    ensures AllocationStepSucceeded(order, beer) in es <==> AllocationStepCompensated(order, beer) in es
  {
    LegalShaped(order, es);
    if AllocationStepSucceeded(order, beer) in es {
      var i :| 0 <= i < |es| && es[i] == AllocationStepSucceeded(order, beer);
      var k := RowOfStep(order, es, i);
      SuccessesWereRecorded(order, es, k);
      CompensationsWereRecorded(order, es, k);
    }
    if AllocationStepCompensated(order, beer) in es {
      var i :| 0 <= i < |es| && es[i] == AllocationStepCompensated(order, beer);
      var k := RowOfStep(order, es, i);
      CompensationsWereRecorded(order, es, k);
      SuccessesWereRecorded(order, es, k);
    }
  }

  /** The row that a recorded step is about. */
  lemma {:induction false} RowOfStep(order: OrderId, es: seq<Event>, i: nat) returns (k: nat)
    requires Legal(order, es) && i < |es|
    requires es[i].AllocationStepSucceeded? || es[i].AllocationStepCompensated? || es[i].AllocationStepFailed?
    ensures k < |SagaOf(es).rows| && k < |SagaOf(es[..i]).rows| && i > 0
    ensures SagaOf(es).rows[k].data == SagaOf(es[..i]).rows[k].data
    ensures SagaOf(es).rows[k].data.beer == es[i].beer
    ensures SagaOf(es[..i]).rows[k].state == if es[i].AllocationStepCompensated? then Allocated else Pending
  {
    assert es[..0] == [];
    var s := SagaOf(es[..i]);
    assert LegalNext(order, s, es[i]);
    k :| 0 <= k < |s.rows| && s.rows[k].data.beer == es[i].beer
      && s.rows[k].state == if es[i].AllocationStepCompensated? then Allocated else Pending;
    Forward(order, es, i);
  }

  // ---- the bound is reached ----

  /** Rows for the beers 0 .. n-1, one unit each. */
  function UnitRows(n: nat): (rows: seq<Row>)
    ensures |rows| == n && forall i | 0 <= i < n :: rows[i] == Row(i, 1)
  {
    seq(n, i requires 0 <= i < n => Row(i, 1))
  }

  /** The saga after the first `done` of `n` rows went to `to`, the last one `last` and the others stayed `from`. */
  predicate At(s: Saga, order: OrderId, n: nat, done: nat, to: RowState, from: RowState, last: RowState) {
    && s.order == order && |s.rows| == n
    && forall i | 0 <= i < n :: s.rows[i] == SagaRow(Row(i, 1), if i == n - 1 then last else if i < done then to else from)
  }

  /** All rows but the last succeed, the last one fails, and every other row is compensated: 2n + 1 events. */
  lemma {:induction false} LongestStreamIsReached(order: OrderId, n: nat) returns (es: seq<Event>)
    requires n > 0
    ensures Legal(order, es) && SagaOf(es).status == Rejected && |SagaOf(es).rows| == n
    ensures |es| == LongestStream(n)
  {
    hide Legal, SagaOf;
    es := [OrderAllocationStarted(order, UnitRows(n))];
    FirstIsLegal(order, UnitRows(n));
    for k := 0 to n - 1
      invariant Legal(order, es) && |es| == k + 1
      invariant SagaOf(es).status == Running && At(SagaOf(es), order, n, k, Allocated, Pending, Pending)
    {
      assert SagaOf(es).rows[k].state == Pending;
      SagaOfSnoc(es, AllocationStepSucceeded(order, k));
      LegalSnoc(order, es, AllocationStepSucceeded(order, k));
      es := es + [AllocationStepSucceeded(order, k)];
    }
    assert SagaOf(es).rows[n - 1].state == Pending;
    SagaOfSnoc(es, AllocationStepFailed(order, n - 1, TimedOut));
    LegalSnoc(order, es, AllocationStepFailed(order, n - 1, TimedOut));
    es := es + [AllocationStepFailed(order, n - 1, TimedOut)];
    for k := 0 to n - 1
      invariant Legal(order, es) && |es| == n + 1 + k && SagaOf(es).reason == TimedOut
      invariant SagaOf(es).status == Compensating && At(SagaOf(es), order, n, k, Compensated, Allocated, Failed)
    {
      assert SagaOf(es).rows[k].state == Allocated;
      SagaOfSnoc(es, AllocationStepCompensated(order, k));
      LegalSnoc(order, es, AllocationStepCompensated(order, k));
      es := es + [AllocationStepCompensated(order, k)];
    }
    SagaOfSnoc(es, OrderAllocationRejected(order, TimedOut));
    LegalSnoc(order, es, OrderAllocationRejected(order, TimedOut));
    es := es + [OrderAllocationRejected(order, TimedOut)];
  }
}
