/**
 The event-sourced saga that allocates the rows of one sales order, one row at a time.

 `SagaOf` replays a saga stream and the `Decide...` functions say which events each observation records.  The class
 updates its fields in place and is proved against them.
 */
module AllocationSaga {
  import opened Messages

  datatype Status = Unstarted | Running | Compensating | Completed | Rejected

  datatype RowState = Pending | Allocated | Failed | Compensated

  datatype SagaRow = SagaRow(data: Row, state: RowState)

  datatype Saga = Saga(order: OrderId, rows: seq<SagaRow>, status: Status, reason: Reason)

  const UNSTARTED := Saga(0, [], Unstarted, NoReason)

  /** Every row of a beer changes state at once. */
  function SetRow(rows: seq<SagaRow>, beer: BeerId, state: RowState): (r: seq<SagaRow>)
    ensures |r| == |rows|
    ensures forall i | 0 <= i < |rows| ::
              r[i] == if rows[i].data.beer == beer then rows[i].(state := state) else rows[i]
  {
    seq(|rows|, i requires 0 <= i < |rows| => if rows[i].data.beer == beer then rows[i].(state := state) else rows[i])
  }

  function Fresh(rows: seq<Row>): (r: seq<SagaRow>)
    ensures |r| == |rows|
    ensures forall i | 0 <= i < |rows| :: r[i] == SagaRow(rows[i], Pending)
  {
    seq(|rows|, i requires 0 <= i < |rows| => SagaRow(rows[i], Pending))
  }

  function ApplySaga(s: Saga, e: Event): Saga {
    match e
    case OrderAllocationStarted(o, rows) => s.(order := o, rows := Fresh(rows), status := Running)
    case AllocationStepSucceeded(_, b) => s.(rows := SetRow(s.rows, b, Allocated))
    case AllocationStepFailed(_, b, r) => s.(rows := SetRow(s.rows, b, Failed), status := Compensating, reason := r)
    case AllocationStepCompensated(_, b) => s.(rows := SetRow(s.rows, b, Compensated))
    case OrderAllocationCompleted(_) => s.(status := Completed)
    case OrderAllocationRejected(_, r) => s.(status := Rejected, reason := r)
    case _ => s
  }

  function SagaOf(es: seq<Event>): Saga {
    if es == [] then UNSTARTED else ApplySaga(SagaOf(es[..|es| - 1]), es[|es| - 1])
  }

  lemma SagaOfFirst(e: Event)
    ensures SagaOf([e]) == ApplySaga(UNSTARTED, e)
  {
    SagaOfSnoc([], e);
    assert [] + [e] == [e];
  }

  lemma SagaOfSnoc(es: seq<Event>, e: Event)
    ensures SagaOf(es + [e]) == ApplySaga(SagaOf(es), e)
  {
    assert (es + [e])[..|es|] == es;
  }

  predicate RowIn(rows: seq<SagaRow>, beer: BeerId, state: RowState) {
    exists i | 0 <= i < |rows| :: rows[i].data.beer == beer && rows[i].state == state
  }

  predicate AllIn(rows: seq<SagaRow>, state: RowState) {
    forall i | 0 <= i < |rows| :: rows[i].state == state
  }

  predicate NoneIn(rows: seq<SagaRow>, state: RowState) {
    forall i | 0 <= i < |rows| :: rows[i].state != state
  }

  /** The index of the first pending row, or the number of rows. */
  function FirstPending(rows: seq<SagaRow>): (k: nat)
    ensures k <= |rows|
    ensures k < |rows| ==> rows[k].state == Pending
    ensures forall i | 0 <= i < k :: rows[i].state != Pending
  {
    if rows == [] || rows[0].state == Pending then 0 else FirstPending(rows[1..]) + 1
  }

  function NextPending(s: Saga): Option<Row> {
    var k := FirstPending(s.rows);
    if s.status == Running && k < |s.rows| then Some(s.rows[k].data) else None
  }

  function AllocatedRows(rows: seq<SagaRow>): seq<Row> {
    if rows == [] then []
    else AllocatedRows(rows[..|rows| - 1])
         + if rows[|rows| - 1].state == Allocated then [rows[|rows| - 1].data] else []
  }

  function ToCompensate(s: Saga): seq<Row> {
    if s.status == Compensating then AllocatedRows(s.rows) else []
  }

  /** `picked` are the rows in state `Allocated`, all of them and in their order: those at the indices `at`. */
  predicate PicksAllocated(rows: seq<SagaRow>, picked: seq<Row>, at: seq<nat>) {
    && |at| == |picked|
    && (forall i | 0 <= i < |at| :: at[i] < |rows| && rows[at[i]] == SagaRow(picked[i], Allocated))
    && (forall i, j | 0 <= i < j < |at| :: at[i] < at[j])
    && (forall k | 0 <= k < |rows| && rows[k].state == Allocated :: k in at)
  }

  lemma {:induction false} AllocatedRowsInOrder(rows: seq<SagaRow>) returns (at: seq<nat>)
    ensures PicksAllocated(rows, AllocatedRows(rows), at)
  {
    if rows == [] {
      at := [];
    } else {
      hide PicksAllocated;
      var n := |rows| - 1;
      at := AllocatedRowsInOrder(rows[..n]);
      PicksTheLast(rows, AllocatedRows(rows[..n]), at);
      if rows[n].state == Allocated {
        at := at + [n];
      } else {
        assert AllocatedRows(rows) == AllocatedRows(rows[..n]);
      }
    }
  }

  lemma {:induction false} PicksTheLast(rows: seq<SagaRow>, picked: seq<Row>, at: seq<nat>)
    requires rows != [] && PicksAllocated(rows[..|rows| - 1], picked, at)
    ensures var last := rows[|rows| - 1];
            if last.state == Allocated then PicksAllocated(rows, picked + [last.data], at + [|rows| - 1])
            else PicksAllocated(rows, picked, at)
  {
    var n := |rows| - 1;
    assert forall k | 0 <= k < n :: rows[..n][k] == rows[k];
    if rows[n].state == Allocated {
      var at' := at + [n];
      forall k: nat | k < |rows| && rows[k].state == Allocated ensures k in at' {
        if k == n {
          assert at'[|at|] == k;
        } else {
          assert k in at;
        }
      }
    }
  }

  lemma {:induction false} AllocatedRowsAre(rows: seq<SagaRow>, r: Row)
    ensures r in AllocatedRows(rows) <==> SagaRow(r, Allocated) in rows
  {
    if rows != [] {
      AllocatedRowsAre(rows[..|rows| - 1], r);
      assert rows == rows[..|rows| - 1] + [rows[|rows| - 1]];
    }
  }

  lemma AllocatedRowsEmpty(rows: seq<SagaRow>)
    ensures AllocatedRows(rows) == [] <==> NoneIn(rows, Allocated)
  {
    if AllocatedRows(rows) == [] {
      forall i | 0 <= i < |rows| ensures rows[i].state != Allocated {
        AllocatedRowsAre(rows, rows[i].data);
        assert rows[i] in rows;
      }
    } else {
      AllocatedRowsAre(rows, AllocatedRows(rows)[0]);
    }
  }

  function DecideStart(order: OrderId, rows: seq<Row>): seq<Event> {
    [OrderAllocationStarted(order, rows)] + if rows == [] then [OrderAllocationCompleted(order)] else []
  }

  function DecideSucceeded(s: Saga, beer: BeerId): seq<Event> {
    var e := AllocationStepSucceeded(s.order, beer);
    if s.status != Running || !RowIn(s.rows, beer, Pending) then []
    else if AllIn(ApplySaga(s, e).rows, Allocated) then [e, OrderAllocationCompleted(s.order)]
    else [e]
  }

  function DecideFailed(s: Saga, beer: BeerId, reason: Reason): seq<Event> {
    var e := AllocationStepFailed(s.order, beer, reason);
    if s.status != Running || !RowIn(s.rows, beer, Pending) then []
    else if ToCompensate(ApplySaga(s, e)) == [] then [e, OrderAllocationRejected(s.order, reason)]
    else [e]
  }

  function DecideCompensated(s: Saga, beer: BeerId): seq<Event> {
    var e := AllocationStepCompensated(s.order, beer);
    if s.status != Compensating || !RowIn(s.rows, beer, Allocated) then []
    else if ToCompensate(ApplySaga(s, e)) == [] then [e, OrderAllocationRejected(s.order, s.reason)]
    else [e]
  }

  class OrderAllocationSaga {
    var version: nat
    var uncommitted: seq<Event>
    var salesOrderId: OrderId
    var rows: seq<SagaRow>
    var status: Status
    var reason: Reason
    ghost var history: seq<Event>

    ghost function State(): Saga
      reads this
    {
      Saga(salesOrderId, rows, status, reason)
    }

    ghost predicate Replayed()
      reads this
    {
      State() == SagaOf(history) && version == |history|
    }

    ghost predicate Valid()
      reads this
    {
      && Replayed()
      && |uncommitted| <= |history|
      && uncommitted == history[|history| - |uncommitted|..]
    }

    lemma IsReplayed()
      requires Valid()
      ensures State() == SagaOf(history)
    {
    }

    constructor ()
      ensures Valid() && history == [] && uncommitted == []
    {
      version, uncommitted := 0, [];
      salesOrderId, rows, status, reason := 0, [], Unstarted, NoReason;
      history := [];
    }

    method SetRowState(beer: BeerId, state: RowState)
      modifies this`rows
      ensures rows == SetRow(old(rows), beer, state)
    {
      for i := 0 to |rows|
        invariant |rows| == |old(rows)|
        invariant rows[..i] == SetRow(old(rows), beer, state)[..i]
        invariant rows[i..] == old(rows)[i..]
      {
        if rows[i].data.beer == beer {
          rows := rows[i := rows[i].(state := state)];
        }
      }
    }

    method Route(event: Event)
      modifies this`salesOrderId, this`rows, this`status, this`reason
      ensures State() == ApplySaga(old(State()), event)
    {
      match event {
        case OrderAllocationStarted(o, data) =>
          salesOrderId, status, rows := o, Running, [];
          for i := 0 to |data|
            invariant |rows| == i && rows == Fresh(data)[..i]
            invariant salesOrderId == o && status == Running && reason == old(reason)
          {
            rows := rows + [SagaRow(data[i], Pending)];
          }
        case AllocationStepSucceeded(_, b) =>
          SetRowState(b, Allocated);
        case AllocationStepFailed(_, b, r) =>
          SetRowState(b, Failed);
          status, reason := Compensating, r;
        case AllocationStepCompensated(_, b) =>
          SetRowState(b, Compensated);
        case OrderAllocationCompleted(_) =>
          status := Completed;
        case OrderAllocationRejected(_, r) =>
          status, reason := Rejected, r;
        case _ =>
      }
    }

    method ApplyEvent(event: Event)
      requires Replayed()
      modifies this
      ensures Replayed() && history == old(history) + [event] && uncommitted == old(uncommitted)
    {
      hide SagaOf;
      Route(event);
      version := version + 1;
      SagaOfSnoc(history, event);
      history := history + [event];
    }

    method RaiseEvent(event: Event)
      requires Valid()
      modifies this
      ensures Valid() && history == old(history) + [event] && uncommitted == old(uncommitted) + [event]
      ensures State() == ApplySaga(old(State()), event)
    {
      hide SagaOf;
      SagaOfSnoc(history, event);
      ApplyEvent(event);
      uncommitted := uncommitted + [event];
    }

    /** The next allocation step while the saga runs. */
    method NextPendingRow() returns (row: Option<Row>)
      ensures row == NextPending(State())
    {
      if status == Running {
        for i := 0 to |rows|
          invariant forall j | 0 <= j < i :: rows[j].state != Pending
        {
          if rows[i].state == Pending {
            return Some(rows[i].data);
          }
        }
      }
      return None;
    }

    /** The rows still holding stock while the saga compensates. */
    method RowsToCompensate() returns (r: seq<Row>)
      ensures r == ToCompensate(State())
      ensures status == Compensating ==> exists at :: PicksAllocated(rows, r, at)
      ensures status != Compensating ==> r == []
    {
      r := [];
      if status != Compensating {
        return;
      }
      for i := 0 to |rows|
        invariant r == AllocatedRows(rows[..i])
      {
        assert rows[..i + 1][..i] == rows[..i];
        if rows[i].state == Allocated {
          r := r + [rows[i].data];
        }
      }
      assert rows[..|rows|] == rows;
      ghost var at := AllocatedRowsInOrder(rows);
    }

    method RowInState(beer: BeerId, state: RowState) returns (found: bool)
      ensures found == RowIn(rows, beer, state)
    {
      for i := 0 to |rows|
        invariant forall j | 0 <= j < i :: rows[j].data.beer != beer || rows[j].state != state
      {
        if rows[i].data.beer == beer && rows[i].state == state {
          return true;
        }
      }
      return false;
    }

    method AllRowsIn(state: RowState) returns (all: bool)
      ensures all == AllIn(rows, state)
    {
      for i := 0 to |rows|
        invariant forall j | 0 <= j < i :: rows[j].state == state
      {
        if rows[i].state != state {
          return false;
        }
      }
      return true;
    }

    /** Observes a successful step; reports whether anything changed. */
    method RecordAllocationSucceeded(beer: BeerId) returns (changed: bool)
      requires Valid()
      modifies this
      ensures Valid()
      ensures history == old(history) + DecideSucceeded(old(State()), beer)
      ensures uncommitted == old(uncommitted) + DecideSucceeded(old(State()), beer)
      ensures changed == (DecideSucceeded(old(State()), beer) != [])
    {
      hide SagaOf;
      var pending := RowInState(beer, Pending);
      if status != Running || !pending {
        return false;
      }
      RaiseEvent(AllocationStepSucceeded(salesOrderId, beer));
      var all := AllRowsIn(Allocated);
      if all {
        RaiseEvent(OrderAllocationCompleted(salesOrderId));
      }
      return true;
    }

    /** Observes a failed step; with nothing to undo the saga rejects at once. */
    method RecordQuantityNotFound(beer: BeerId, why: Reason) returns (changed: bool)
      requires Valid()
      modifies this
      ensures Valid()
      ensures history == old(history) + DecideFailed(old(State()), beer, why)
      ensures uncommitted == old(uncommitted) + DecideFailed(old(State()), beer, why)
      ensures changed == (DecideFailed(old(State()), beer, why) != [])
    {
      hide SagaOf;
      var pending := RowInState(beer, Pending);
      if status != Running || !pending {
        return false;
      }
      RaiseEvent(AllocationStepFailed(salesOrderId, beer, why));
      var left := RowsToCompensate();
      if left == [] {
        RaiseEvent(OrderAllocationRejected(salesOrderId, why));
      }
      return true;
    }

    /** Observes one undone row; the last one rejects the order. */
    method RecordCompensated(beer: BeerId) returns (changed: bool)
      requires Valid()
      modifies this
      ensures Valid()
      ensures history == old(history) + DecideCompensated(old(State()), beer)
      ensures uncommitted == old(uncommitted) + DecideCompensated(old(State()), beer)
      ensures changed == (DecideCompensated(old(State()), beer) != [])
    {
      hide SagaOf;
      var holding := RowInState(beer, Allocated);
      if status != Compensating || !holding {
        return false;
      }
      RaiseEvent(AllocationStepCompensated(salesOrderId, beer));
      var left := RowsToCompensate();
      if left == [] {
        RaiseEvent(OrderAllocationRejected(salesOrderId, reason));
      }
      return true;
    }
  }

  /** Begins the saga of one sales order; an order with no rows completes immediately. */
  method StartOrderAllocation(order: OrderId, data: seq<Row>) returns (saga: OrderAllocationSaga)
    ensures fresh(saga) && saga.Valid()
    ensures saga.history == saga.uncommitted == DecideStart(order, data)
  {
    saga := new OrderAllocationSaga();
    saga.RaiseEvent(OrderAllocationStarted(order, data));
    if |data| == 0 {
      saga.RaiseEvent(OrderAllocationCompleted(order));
    }
  }
}
