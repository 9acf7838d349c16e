/**
 Undoing an order in the order of its rows.

 A saga that turns around sends one compensation for each row it had recorded.  Delivered in the order sent and once each,
 they restore every beer, whatever the rows: the first command for a beer names the quantity that was charged, and the
 others find nothing left to give back.
 */
module Undoing {
  import opened Messages
  import opened AvailabilityAggregate
  import opened AllocationSaga
  import opened SagaLaws
  import opened SagaBounds
  import opened Reactions
  import opened Soundness
  import opened Protocol
  import opened ProtocolInvariant
  import opened StockTheorems
  import opened AllOrNothing
  import opened Driving

  /** Each message is delivered once, in order. */
  function InOrder(ms: seq<Message>): (steps: seq<Step>)
    ensures |steps| == |ms| && forall i | 0 <= i < |ms| :: steps[i] == Deliver(ms[i])
  {
    seq(|ms|, i requires 0 <= i < |ms| => Deliver(ms[i]))
  }

  predicate Held(w: World, b: BeerId, o: OrderId) {
    o in StockOf(StockStream(w, b)).held
  }

  /** What a compensation command does to a tracked beer, and that it touches nothing else. */
  lemma {:induction false} CompensationGivesBack(w: World, b: BeerId, q: int, o: OrderId)
    requires StockStream(w, b) != []
    ensures var w' := After(w, Deliver(CompensateAvailability(b, q, o)));
            && w.sent <= w'.sent
            && Available(w', b) == Available(w, b) + (if q > 0 && Held(w, b, o) then q else 0)
            && StockOf(StockStream(w', b)).held == StockOf(StockStream(w, b)).held - (if q > 0 then {o} else {})
            && StockStream(w', b) != []
            && forall id | id != AvailabilityStream(b) :: Stream(w'.streams, id) == Stream(w.streams, id)
  {
    hide StockOf;
    var st, step := StockStream(w, b), Deliver(CompensateAvailability(b, q, o));
    var d := DecideCompensation(st, q, o);
    if d.Accept? {
      GrowExtends(w.streams, AvailabilityStream(b), d.events);
      StockOfSnoc(st, d.events[0]);
      assert d.events == [d.events[0]];
    }
  }

  // ---- the commands of one saga ----

  /** The saga undoes its allocated rows, `at` their indices, by the commands `ms` on the bus. */
  ghost predicate Turned(w: World, o: OrderId, picked: seq<Row>, at: seq<nat>, ms: seq<Message>) {
    && Inv(w) && SagaEvents(w, o) != [] && SagaOf(SagaEvents(w, o)).status == Compensating
    && PicksAllocated(SagaOf(SagaEvents(w, o)).rows, picked, at) && Undoes(ms, o, picked)
    && forall m | m in ms :: m in w.sent
  }

  /** The row is allocated, so its beer was charged for the first row of it. */
  lemma {:induction false} PickedWasCharged(w: World, o: OrderId, picked: seq<Row>, at: seq<nat>, ms: seq<Message>, i: nat)
    requires Turned(w, o, picked, at, ms) && i < |picked|
    ensures at[i] < |RowsOf(w, o)| && RowsOf(w, o)[at[i]] == picked[i]
    ensures StockStream(w, picked[i].beer) != [] && QuantityFor(RowsOf(w, o), picked[i].beer) > 0
  {
    hide SagaOf, RowsOf, QuantityFor, Legal;
    var es := SagaEvents(w, o);
    SagaIsLegal(w, o);
    assert es[..|es|] == es;
    SagaRowsAreTheRows(w, o, |es|);
    SuccessesWereRecorded(o, es, at[i]);
    RecordedIsPositive(w, o, picked[i].beer);
    var x :| 0 <= x < |es| && es[x] == AllocationStepSucceeded(o, picked[i].beer);
    assert SagaCaused(w.streams, o, es[x]);
  }

  /** The first command for a beer names what it was charged. */
  lemma {:induction false} FirstCommandNamesTheCharge(w: World, o: OrderId, picked: seq<Row>, at: seq<nat>,
                                                       ms: seq<Message>, i: nat)
    requires Turned(w, o, picked, at, ms) && i < |picked|
    requires forall j | 0 <= j < i :: picked[j].beer != picked[i].beer
    ensures picked[i].quantity == QuantityFor(RowsOf(w, o), picked[i].beer)
  {
    hide SagaOf, RowsOf, QuantityFor, Legal, Inv;
    var es, rows, b := SagaEvents(w, o), RowsOf(w, o), picked[i].beer;
    var s := SagaOf(es);
    SagaIsLegal(w, o);
    LegalShaped(o, es);
    assert es[..|es|] == es;
    SagaRowsAreTheRows(w, o, |es|);
    PickedWasCharged(w, o, picked, at, ms, i);
    var f := FirstRowOfItsBeer(rows, at[i]);
    assert s.rows[f].data.beer == b && s.rows[f].state == Allocated;
    assert f in at;
    var j :| 0 <= j < |at| && at[j] == f;
    assert picked[j] == rows[f];
  }

  /** What has been undone once the first `i` commands were delivered. */
  ghost predicate UndoneSoFar(w: World, w': World, o: OrderId, picked: seq<Row>, i: nat) {
    && i <= |picked| && w.sent <= w'.sent
    && (forall id: StreamId | !id.AvailabilityStream? :: Stream(w'.streams, id) == Stream(w.streams, id))
    && forall b :: BeerSoFar(w, w', o, picked, i, b)
  }

  ghost predicate BeerSoFar(w: World, w': World, o: OrderId, picked: seq<Row>, i: nat, b: BeerId)
    requires i <= |picked|
  {
    if forall j | 0 <= j < i :: picked[j].beer != b then StockStream(w', b) == StockStream(w, b)
    else
      && StockStream(w', b) != []
      && Available(w', b) == Available(w, b) + (if Held(w, b, o) then QuantityFor(RowsOf(w, o), b) else 0)
      && StockOf(StockStream(w', b)).held == StockOf(StockStream(w, b)).held - {o}
  }

  lemma {:induction false} OneMoreUndone(w: World, w': World, o: OrderId, picked: seq<Row>, at: seq<nat>,
                                          ms: seq<Message>, i: nat)
    requires Turned(w, o, picked, at, ms) && i < |picked| && UndoneSoFar(w, w', o, picked, i)
    ensures Enabled(w', Deliver(ms[i])) && UndoneSoFar(w, After(w', Deliver(ms[i])), o, picked, i + 1)
  {
    hide Inv, SagaOf, StockOf, RowsOf, QuantityFor, After, PicksAllocated;
    var b, q, w'', n := picked[i].beer, picked[i].quantity, After(w', Deliver(ms[i])), i + 1;
    assert ms[i] in ms;
    PickedWasCharged(w, o, picked, at, ms, i);
    assert BeerSoFar(w, w', o, picked, i, b);
    CompensationGivesBack(w', b, q, o);
    if forall j | 0 <= j < i :: picked[j].beer != b {
      FirstCommandNamesTheCharge(w, o, picked, at, ms, i);
    }
    assert StockOf(StockStream(w, b)).held - {o} - {o} == StockOf(StockStream(w, b)).held - {o};
    forall c ensures BeerSoFar(w, w'', o, picked, n, c) {
      assert BeerSoFar(w, w', o, picked, i, c);
      assert c != b ==> StockStream(w'', c) == StockStream(w', c);
    }
  }

  lemma {:induction false} AllUndone(w: World, o: OrderId, picked: seq<Row>, at: seq<nat>, ms: seq<Message>, i: nat)
    requires Turned(w, o, picked, at, ms) && i <= |picked|
    ensures Possible(w, InOrder(ms)[..i]) && UndoneSoFar(w, AfterAll(w, InOrder(ms)[..i]), o, picked, i)
  {
    hide Turned, UndoneSoFar, Possible, AfterAll, After, Enabled;
    var steps := InOrder(ms);
    if i == 0 {
      assert steps[..0] == [];
      NoSteps(w);
      NothingUndone(w, o, picked);
    } else {
      TurnedIsMatched(w, o, picked, at, ms);
      AllUndone(w, o, picked, at, ms, i - 1);
      var w' := AfterAll(w, steps[..i - 1]);
      OneMoreUndone(w, w', o, picked, at, ms, i - 1);
      FirstStepIsPossible(w', steps[i - 1]);
      StepsCompose(w, steps[..i - 1], [steps[i - 1]]);
      assert steps[..i] == steps[..i - 1] + [steps[i - 1]];
    }
  }

  lemma NothingUndone(w: World, o: OrderId, picked: seq<Row>)
    ensures UndoneSoFar(w, w, o, picked, 0)
  {
  }

  lemma TurnedIsMatched(w: World, o: OrderId, picked: seq<Row>, at: seq<nat>, ms: seq<Message>)
    requires Turned(w, o, picked, at, ms)
    ensures |ms| == |picked|
  {
  }

  /**
   From any reachable world in which a saga compensates: delivering its commands in the order of its rows, once each, gives
   back to each beer what the order holds of it, and changes nothing else.
   */
  lemma {:induction false} CommandsInOrderUndo(w: World, o: OrderId, picked: seq<Row>, at: seq<nat>, ms: seq<Message>)
    requires Reachable(w) && Turned(w, o, picked, at, ms)
    ensures Possible(w, InOrder(ms))
    ensures forall b :: BeerSoFar(w, AfterAll(w, InOrder(ms)), o, picked, |picked|, b)
  {
    hide Reachable, Turned, Possible, AfterAll, BeerSoFar;
    TurnedIsMatched(w, o, picked, at, ms);
    AllUndone(w, o, picked, at, ms, |picked|);
    assert InOrder(ms)[..|picked|] == InOrder(ms);
  }

  // ---- back to where the order started ----

  /** While no step was timed out and nothing was released, a saga that turned around knows all that its order holds. */
  lemma {:induction false} HeldIsRecorded(w: World, o: OrderId, b: BeerId)
    requires Inv(w) && SagaOf(SagaEvents(w, o)).status == Compensating && Held(w, b, o)
    requires NeverTimedOut(SagaEvents(w, o)) && AnsweredOnce(StockStream(w, b), o) && !HasRelease(StockStream(w, b), o)
    ensures RowIn(SagaOf(SagaEvents(w, o)).rows, b, Allocated)
  {
    hide Inv, SagaOf, StockOf, Legal, NeverTimedOut, AnsweredOnce, HasRelease;
    var es := SagaEvents(w, o);
    var i := HeldSince(StockStream(w, b), o);
    var n, q := WaitedFor(w, b, o, i);
    assert es[..|es|] == es;
    NextStepIsAboutTheAwaitedRow(w, o, n, Row(b, q));
    if es[n].AllocationStepFailed? {
      RefusalContradictsAllocation(w, o, b, n, i);
    } else {
      SagaIsLegal(w, o);
      var k := RowOfStep(o, es, n);
      SuccessesWereRecorded(o, es, k);
      CompensationsWereRecorded(o, es, k);
      NothingWasCompensated(w, o, b);
    }
  }

  lemma NothingWasCompensated(w: World, o: OrderId, b: BeerId)
    requires Inv(w) && !HasRelease(StockStream(w, b), o)
    ensures AllocationStepCompensated(o, b) !in SagaEvents(w, o)
  {
    hide HasRelease, SagaOf;
  }

  /**
   An order that fails while it is served by itself, and whose compensations are delivered in the order sent and once each,
   leaves every beer as it was before the saga started, quantity and holds, whatever its rows ask for.
   */
  lemma {:induction false} UndoingInOrderRestores(v: World, w: World, o: OrderId, picked: seq<Row>, at: seq<nat>,
                                                   ms: seq<Message>, b: BeerId)
    requires Reachable(v) && Reachable(w) && SagaEvents(v, o) == [] && Undisturbed(v, w, o)
    requires Turned(w, o, picked, at, ms) && NeverTimedOut(SagaEvents(w, o))
    requires AnsweredOnce(StockStream(w, b), o) && !HasRelease(StockStream(w, b), o)
    ensures Possible(w, InOrder(ms))
    ensures var w' := AfterAll(w, InOrder(ms));
            && Available(w', b) == Available(v, b)
            && StockOf(StockStream(w', b)).held == StockOf(StockStream(v, b)).held
  {
    hide Reachable, Inv, SagaOf, StockOf, RowsOf, QuantityFor, NetTaken, HasRelease, AnsweredOnce, NeverTimedOut;
    hide Possible, AfterAll, Undisturbed, InOrder, Breakable;
    CommandsInOrderUndo(w, o, picked, at, ms);
    ReachableInv(v);
    ReachableInv(w);
    var w', st := AfterAll(w, InOrder(ms)), StockStream(w, b);
    assert BeerSoFar(w, w', o, picked, |picked|, b);
    assert st[..|st|] == st;
    StockMovement(v, w, o, b);
    NotHeldBeforeStart(v, o, b);
    TakenIsHeld(w, b, |st|, o);
    if Held(w, b, o) {
      HeldIsRecorded(w, o, b);
      var k :| 0 <= k < |SagaOf(SagaEvents(w, o)).rows| && SagaOf(SagaEvents(w, o)).rows[k].data.beer == b
        && SagaOf(SagaEvents(w, o)).rows[k].state == Allocated;
      var i :| 0 <= i < |at| && at[i] == k;
      assert picked[i].beer == b;
    }
  }
}
