/**
 A settled order is all or nothing.

 When nobody else touches the beers meanwhile, the many-step saga has the effect of one atomic decision on the stock
 it started from: take the first row of every beer if all of them fit, and otherwise take nothing.
 */
module AllOrNothing {
  import opened Messages
  import opened AvailabilityAggregate
  import opened AllocationSaga
  import opened SagaLaws
  import opened Soundness
  import opened Protocol
  import opened ProtocolInvariant
  import opened StockTheorems

  predicate Positive(rows: seq<Row>) {
    forall i | 0 <= i < |rows| :: rows[i].quantity > 0
  }

  /** The units of a beer that the rows ask for in all. */
  function Demand(rows: seq<Row>, b: BeerId): int {
    if rows == [] then 0 else (if rows[0].beer == b then rows[0].quantity else 0) + Demand(rows[1..], b)
  }

  function Available(w: World, b: BeerId): int {
    StockOf(StockStream(w, b)).quantity
  }

  /** The first row of every beer asks for something and finds it in stock; a beer never stocked has none. */
  predicate Fits(w: World, rows: seq<Row>) {
    forall i | 0 <= i < |rows| :: 0 < QuantityFor(rows, rows[i].beer) <= Available(w, rows[i].beer)
  }

  /** For positive rows that agree on each beer this says that every row finds its quantity in stock. */
  lemma FitsIffEveryRowDoes(w: World, rows: seq<Row>)
    requires Positive(rows) && Uniform(rows)
    ensures Fits(w, rows) <==> forall i | 0 <= i < |rows| :: rows[i].quantity <= Available(w, rows[i].beer)
  {
    hide QuantityFor, Available;
    forall i | 0 <= i < |rows| ensures QuantityFor(rows, rows[i].beer) == rows[i].quantity {
      QuantityOfRow(rows, rows[i]);
    }
  }

  predicate About(e: Event, o: OrderId) {
    Allocates(e, o) || Refuses(e, o) || Releases(e, o)
  }

  /** Between two worlds, stock changed only on behalf of order `o`. */
  ghost predicate Undisturbed(v: World, w: World, o: OrderId) {
    && Extends(v.streams, w.streams)
    && forall b, i | |StockStream(v, b)| <= i < |StockStream(w, b)| :: About(StockStream(w, b)[i], o)
  }

  /** A saga that has not started has left no trace in any stock. */
  lemma NoTraceBeforeStart(v: World, o: OrderId, b: BeerId, i: nat)
    requires Inv(v) && SagaEvents(v, o) == [] && i < |StockStream(v, b)|
    ensures !About(StockStream(v, b)[i], o)
  {
    var st := StockStream(v, b);
    assert StockCaused(v.streams, b, st[..i], st[i]);
    assert SagaOf([]).status == Unstarted;
    match st[i] {
      case BeerAvailabilityUpdated(_, _, _, oo) =>
        var q :| AllocationCause(v.streams, b, st[..i], st[i], oo, q);
      case AvailabilityCompensated(_, _, _, oo) =>
        var q :| ReleaseCause(v.streams, b, st[..i], st[i], oo, q);
      case _ =>
    }
  }

  /** As long as only order `o` is served, stock falls by what `o` took and other holds stay. */
  lemma {:induction false} OnlyTheOrderMovesStock(st: seq<Event>, o: OrderId, n: nat, i: nat)
    requires n <= i <= |st|
    requires forall j | 0 <= j < n :: !About(st[j], o)
    requires forall j | n <= j < i :: About(st[j], o)
    ensures StockOf(st[..i]).quantity == StockOf(st[..n]).quantity - NetTaken(st[..i], o)
    ensures StockOf(st[..i]).held - {o} == StockOf(st[..n]).held && o !in StockOf(st[..n]).held
  {
    if i == n {
      Untouched(st[..n], o);
      assert forall j | 0 <= j < n :: st[..n][j] == st[j];
    } else {
      OnlyTheOrderMovesStock(st, o, n, i - 1);
      assert st[..i] == st[..i - 1] + [st[i - 1]];
      StockOfSnoc(st[..i - 1], st[i - 1]);
      NetTakenSnoc(st[..i - 1], st[i - 1], o);
    }
  }

  lemma {:induction false} Untouched(es: seq<Event>, o: OrderId)
    requires forall j | 0 <= j < |es| :: !About(es[j], o)
    ensures NetTaken(es, o) == 0 && o !in StockOf(es).held
  {
    if es != [] {
      Untouched(es[..|es| - 1], o);
      assert !About(es[|es| - 1], o);
    }
  }

  /** How much stock moved between the two worlds: what the order took on balance. */
  lemma {:induction false} StockMovement(v: World, w: World, o: OrderId, b: BeerId)
    requires Inv(v) && SagaEvents(v, o) == [] && Undisturbed(v, w, o)
    ensures Available(w, b) == Available(v, b) - NetTaken(StockStream(w, b), o)
    ensures StockOf(StockStream(w, b)).held - {o} == StockOf(StockStream(v, b)).held
  {
    hide StockOf, NetTaken, Inv;
    var st, n := StockStream(w, b), |StockStream(v, b)|;
    assert st[..n] == StockStream(v, b) && st[..|st|] == st;
    forall j | 0 <= j < n ensures !About(st[j], o) {
      NoTraceBeforeStart(v, o, b, j);
    }
    OnlyTheOrderMovesStock(st, o, n, |st|);
  }

  /** A beer that answers once has nothing to do with the order before its answer. */
  lemma {:induction false} NothingBeforeTheAnswer(w: World, o: OrderId, b: BeerId, j: nat, k: nat)
    requires Inv(w) && AnsweredOnce(StockStream(w, b), o) && k < j < |StockStream(w, b)|
    requires Allocates(StockStream(w, b)[j], o) || Refuses(StockStream(w, b)[j], o)
    ensures !About(StockStream(w, b)[k], o)
  {
    hide StockOf, Justified, ReleaseCause, AllocationCause;
  }

  /** A beer that refused an order had not given it anything, so the refusal speaks of the stock the saga started from. */
  lemma {:induction false} StockAtRefusal(v: World, w: World, o: OrderId, b: BeerId, j: nat)
    requires Inv(v) && Inv(w) && SagaEvents(v, o) == [] && Undisturbed(v, w, o)
    requires AnsweredOnce(StockStream(w, b), o) && j < |StockStream(w, b)| && Refuses(StockStream(w, b)[j], o)
    ensures StockStream(w, b)[..j] == StockStream(v, b)
  {
    hide Inv, StockOf;
    var st, n := StockStream(w, b), |StockStream(v, b)|;
    assert st[..n] == StockStream(v, b);
    if j < n {
      NoTraceBeforeStart(v, o, b, j);
    } else if n < j {
      NothingBeforeTheAnswer(w, o, b, j, n);
    }
  }

  /** A refusal is about the first row of its beer, which is too large for the stock, or whose beer has none. */
  lemma {:induction false} RefusedForLack(w: World, o: OrderId, b: BeerId, j: nat) returns (k: nat, m: nat)
    requires Inv(w) && j < |StockStream(w, b)| && Refuses(StockStream(w, b)[j], o)
    requires o !in StockOf(StockStream(w, b)[..j]).held
    ensures k < |RowsOf(w, o)| && RowsOf(w, o)[k].beer == b && Awaited(SagaEvents(w, o), m, RowsOf(w, o)[k])
    ensures forall i | 0 <= i < k :: AllocationStepSucceeded(o, RowsOf(w, o)[i].beer) in SagaEvents(w, o)
    ensures var q, st := QuantityFor(RowsOf(w, o), b), StockStream(w, b)[..j];
            (st != [] && 0 < q && StockOf(st).quantity < q) || (st == [] && StockOf(st).quantity == 0)
  {
    hide SagaOf, StockOf, RowsOf, Legal, QuantityFor;
    StockOfNothing();
    var st, es := StockStream(w, b), SagaEvents(w, o);
    var q := st[j].requested;
    assert StockCaused(w.streams, b, st[..j], st[j]);
    AllocationsCarryTheRow(w, b, o, q);
    m :| Awaited(es, m, Row(b, q));
    k := AwaitedIsFirst(w, o, m, Row(b, q));
    AllocatedWereRecorded(w, o, m, k);
  }

  lemma {:induction false} AllocatedWereRecorded(w: World, o: OrderId, n: nat, k: nat)
    requires Inv(w) && n <= |SagaEvents(w, o)| && k <= |RowsOf(w, o)|
    requires var s := SagaOf(SagaEvents(w, o)[..n]);
             && |s.rows| == |RowsOf(w, o)| && (forall m | 0 <= m < |s.rows| :: s.rows[m].data == RowsOf(w, o)[m])
             && forall m | 0 <= m < k :: s.rows[m].state == Allocated
    ensures forall i | 0 <= i < k :: AllocationStepSucceeded(o, RowsOf(w, o)[i].beer) in SagaEvents(w, o)
  {
    hide SagaOf, RowsOf, Legal, Inv;
    var es := SagaEvents(w, o);
    SagaIsLegal(w, o);
    LegalPrefix(o, es, n);
    forall i | 0 <= i < k ensures AllocationStepSucceeded(o, RowsOf(w, o)[i].beer) in es {
      SuccessesWereRecorded(o, es[..n], i);
      var x :| 0 <= x < n && es[..n][x] == AllocationStepSucceeded(o, RowsOf(w, o)[i].beer);
      assert es[x] == es[..n][x];
    }
  }

  /** The beer that refused the order makes it not fit, and every row before that one fitted. */
  lemma {:induction false} RefusedRowDidNotFit(v: World, w: World, o: OrderId, b: BeerId, j: nat) returns (k: nat)
    requires Inv(v) && Inv(w) && SagaEvents(v, o) == [] && Undisturbed(v, w, o)
    requires AnsweredOnce(StockStream(w, b), o) && j < |StockStream(w, b)| && Refuses(StockStream(w, b)[j], o)
    ensures var rows := RowsOf(w, o);
            && k < |rows| && rows[k].beer == b && !(0 < QuantityFor(rows, b) <= Available(v, b))
            && (StockStream(v, b) != [] ==> 0 < QuantityFor(rows, b))
            && forall i | 0 <= i < k :: 0 < QuantityFor(rows, rows[i].beer)
  {
    hide Inv, StockOf, QuantityFor, RowsOf;
    StockAtRefusal(v, w, o, b, j);
    NotHeldBeforeStart(v, o, b);
    var m;
    k, m := RefusedForLack(w, o, b, j);
    forall i | 0 <= i < k ensures 0 < QuantityFor(RowsOf(w, o), RowsOf(w, o)[i].beer) {
      RecordedIsPositive(w, o, RowsOf(w, o)[i].beer);
    }
  }

  lemma NotHeldBeforeStart(v: World, o: OrderId, b: BeerId)
    requires Inv(v) && SagaEvents(v, o) == []
    ensures o !in StockOf(StockStream(v, b)).held
  {
    hide Inv, StockOf;
    forall i | 0 <= i < |StockStream(v, b)| ensures !About(StockStream(v, b)[i], o) {
      NoTraceBeforeStart(v, o, b, i);
    }
    Untouched(StockStream(v, b), o);
  }

  /** Some row of a rejected saga was refused by its beer. */
  lemma {:induction false} RejectionWasRefused(w: World, o: OrderId) returns (b: BeerId, j: nat)
    requires Inv(w) && SagaOf(SagaEvents(w, o)).status == Rejected && NeverTimedOut(SagaEvents(w, o))
    ensures j < |StockStream(w, b)| && Refuses(StockStream(w, b)[j], o)
  {
    var es := SagaEvents(w, o);
    assert es == [] || SoundStream(SagaStream(o), es);
    LegalShaped(o, es);
    var k :| 0 <= k < |SagaOf(es).rows| && SagaOf(es).rows[k].state == Failed;
    var why := FailureWasRecorded(o, es, k);
    b := SagaOf(es).rows[k].data.beer;
    var i :| 0 <= i < |es| && es[i] == AllocationStepFailed(o, b, why);
    assert SagaCaused(w.streams, o, es[i]);
    var st := StockStream(w, b);
    j :| 0 <= j < |st| && st[j] == QuantityNotFound(b, o, why.requested, why.available);
  }

  // ---- what is left of an order that was undone ----

  /** One of the order's rows of `b` was given back for the first one, which was taken. */
  predicate GaveBack(rows: seq<Row>, b: BeerId, q: int, taken: int) {
    q > 0 && Row(b, q) in rows && taken == QuantityFor(rows, b) - q
  }

  /** Nothing was taken on balance, or the first row was taken and one of the rows given back. */
  ghost predicate PutBack(rows: seq<Row>, b: BeerId, taken: int) {
    taken == 0 || exists q :: GaveBack(rows, b, q, taken)
  }

  ghost predicate TakenOrUndone(w: World, b: BeerId, p: seq<Event>, o: OrderId) {
    && (if o in StockOf(p).held then NetTaken(p, o) == QuantityFor(RowsOf(w, o), b)
        else PutBack(RowsOf(w, o), b, NetTaken(p, o)))
    && (!HasAllocation(p, o) ==> NetTaken(p, o) == 0 && o !in StockOf(p).held)
  }

  lemma {:induction false} TakenThenUndone(w: World, b: BeerId, i: nat, o: OrderId)
    requires Inv(w) && AnsweredOnce(StockStream(w, b), o) && i <= |StockStream(w, b)|
    ensures TakenOrUndone(w, b, StockStream(w, b)[..i], o)
  {
    hide Inv, StockStream, TakenOrUndone, AnsweredOnce;
    var st := StockStream(w, b);
    if i == 0 {
      assert st[..0] == [];
      NothingUndoneYet(w, b, o);
    } else {
      TakenThenUndone(w, b, i - 1, o);
      PrefixGrows(st, i - 1);
      UndoneNext(w, b, i - 1, o);
    }
  }

  lemma NothingUndoneYet(w: World, b: BeerId, o: OrderId)
    ensures TakenOrUndone(w, b, [], o)
  {
  }

  /** A release gives back one of the order's rows. */
  lemma {:induction false} ReleasedRow(w: World, b: BeerId, i: nat, o: OrderId) returns (q: int)
    requires Inv(w) && i < |StockStream(w, b)| && Releases(StockStream(w, b)[i], o)
    ensures ReleaseCause(w.streams, b, StockStream(w, b)[..i], StockStream(w, b)[i], o, q) && Row(b, q) in RowsOf(w, o)
  {
    hide StockOf, RowsOf, SagaOf, DecideCompensation;
    var p, e := StockStream(w, b)[..i], StockStream(w, b)[i];
    assert StockCaused(w.streams, b, p, e);
    q :| ReleaseCause(w.streams, b, p, e, o, q);
    var n: nat :| Undone(SagaEvents(w, o), n, Row(b, q));
    AskedRowIsARow(w, o, n, Row(b, q));
  }

  lemma {:induction false} UndoneNext(w: World, b: BeerId, i: nat, o: OrderId)
    requires Inv(w) && AnsweredOnce(StockStream(w, b), o) && i < |StockStream(w, b)|
    requires TakenOrUndone(w, b, StockStream(w, b)[..i], o)
    ensures TakenOrUndone(w, b, StockStream(w, b)[..i] + [StockStream(w, b)[i]], o)
  {
    hide StockOf, NetTaken, QuantityFor, RowsOf, SagaOf, Justified;
    var p, e := StockStream(w, b)[..i], StockStream(w, b)[i];
    var p' := p + [e];
    StockOfSnoc(p, e);
    NetTakenSnoc(p, e, o);
    assert StockCaused(w.streams, b, p, e);
    if Allocates(e, o) {
      var q :| AllocationCause(w.streams, b, p, e, o, q);
      AllocationsCarryTheRow(w, b, o, q);
      assert Allocates(p'[i], o);
      assert !HasAllocation(p, o);
    } else {
      assert HasAllocation(p, o) ==> HasAllocation(p', o) by {
        if k :| 0 <= k < |p| && Allocates(p[k], o) {
          assert Allocates(p'[k], o);
        }
      }
      if Releases(e, o) {
        var q := ReleasedRow(w, b, i, o);
        assert o in StockOf(p).held ==> GaveBack(RowsOf(w, o), b, q, NetTaken(p', o));
      }
    }
  }

  // ---- the atomic specification ----

  /** The order was served to its end by itself: each beer answered it once, and no step of it was timed out. */
  ghost predicate ServedAlone(v: World, w: World, o: OrderId) {
    && Reachable(w) && Undisturbed(v, w, o) && Settled(SagaOf(SagaEvents(w, o)))
    && NeverTimedOut(SagaEvents(w, o)) && forall b :: AnsweredOnce(StockStream(w, b), o)
  }

  /**
   The atomic specification.  `v` is any earlier world in which the saga had not started; between `v` and `w` messages
   may be lost, duplicated, reordered and re-driven at will, as long as the order's steps are answered once and not
   timed out and nobody else uses the stock.  Then the saga completed exactly if the order fitted the stock of `v`, and
   each beer lost exactly its first row.  A rejected order left every beer's holds as they were, and its quantity too,
   unless a wrong row of it was given back, which takes rows that are breakable for the beer.
   */
  lemma SettledIsAllOrNothing(v: World, w: World, o: OrderId)
    requires Reachable(v) && SagaEvents(v, o) == [] && ServedAlone(v, w, o)
    ensures SagaOf(SagaEvents(w, o)).status == Completed <==> Fits(v, RowsOf(w, o))
    ensures Fits(v, RowsOf(w, o)) ==> forall b :: Available(w, b) == Available(v, b) - QuantityFor(RowsOf(w, o), b)
    ensures !Fits(v, RowsOf(w, o)) ==> forall b ::
              && StockOf(StockStream(w, b)).held == StockOf(StockStream(v, b)).held
              && PutBack(RowsOf(w, o), b, Available(v, b) - Available(w, b))
              && (!Breakable(RowsOf(w, o), b) ==> Available(w, b) == Available(v, b))
  {
    hide Reachable, Inv, Undisturbed, SagaOf, RowsOf, Fits, Available, NeverTimedOut, AnsweredOnce, PutBack, Breakable;
    hide StockOf;
    ReachableInv(v);
    ReachableInv(w);
    if SagaOf(SagaEvents(w, o)).status == Completed {
      CompletedIsAll(v, w, o);
    } else {
      RejectedDidNotFit(v, w, o);
      forall b
        ensures StockOf(StockStream(w, b)).held == StockOf(StockStream(v, b)).held
        ensures PutBack(RowsOf(w, o), b, Available(v, b) - Available(w, b))
        ensures !Breakable(RowsOf(w, o), b) ==> Available(w, b) == Available(v, b)
      {
        RejectedIsNothing(v, w, o, b);
      }
    }
  }

  lemma {:induction false} CompletedIsAll(v: World, w: World, o: OrderId)
    requires Reachable(w) && Inv(v) && Inv(w)
    requires SagaEvents(v, o) == [] && Undisturbed(v, w, o)
    requires SagaOf(SagaEvents(w, o)).status == Completed
    ensures Fits(v, RowsOf(w, o))
    ensures forall b :: Available(w, b) == Available(v, b) - QuantityFor(RowsOf(w, o), b)
  {
    var rows := RowsOf(w, o);
    hide Inv, Reachable, SagaOf, StockOf, RowsOf, Undisturbed, Available, QuantityFor, NetTaken;
    forall b ensures Available(w, b) == Available(v, b) - QuantityFor(rows, b) {
      StockMovement(v, w, o, b);
      CompletedOrderIsChargedOnce(w, o, b);
    }
    CompletedIsRecorded(w, o);
    forall k | 0 <= k < |rows| ensures 0 < QuantityFor(rows, rows[k].beer) <= Available(v, rows[k].beer) {
      RecordedIsPositive(w, o, rows[k].beer);
      NeverNegative(w, rows[k].beer);
    }
  }

  lemma CompletedIsRecorded(w: World, o: OrderId)
    requires Inv(w) && SagaOf(SagaEvents(w, o)).status == Completed
    ensures forall i | 0 <= i < |RowsOf(w, o)| :: AllocationStepSucceeded(o, RowsOf(w, o)[i].beer) in SagaEvents(w, o)
  {
    hide Inv, SagaOf, Legal;
    var es := SagaEvents(w, o);
    SagaIsLegal(w, o);
    LegalShaped(o, es);
    assert es[..|es|] == es;
    SagaRowsAreTheRows(w, o, |es|);
    AllocatedWereRecorded(w, o, |es|, |RowsOf(w, o)|);
  }

  lemma NeverNegative(w: World, b: BeerId)
    requires Reachable(w)
    ensures 0 <= Available(w, b)
  {
    hide Reachable, StockOf;
    AvailabilityIsNeverNegative(w, b);
  }

  lemma {:induction false} RejectedDidNotFit(v: World, w: World, o: OrderId)
    requires Inv(v) && Inv(w) && SagaEvents(v, o) == [] && ServedAlone(v, w, o)
    requires SagaOf(SagaEvents(w, o)).status == Rejected
    ensures !Fits(v, RowsOf(w, o))
  {
    hide Inv, Reachable, SagaOf, StockOf, RowsOf, Undisturbed, Available, AnsweredOnce, QuantityFor;
    var b, j := RejectionWasRefused(w, o);
    var k := RefusedRowDidNotFit(v, w, o, b, j);
  }

  lemma {:induction false} RejectedIsNothing(v: World, w: World, o: OrderId, b: BeerId)
    requires Inv(v) && Inv(w) && SagaEvents(v, o) == [] && ServedAlone(v, w, o)
    requires SagaOf(SagaEvents(w, o)).status == Rejected
    ensures StockOf(StockStream(w, b)).held == StockOf(StockStream(v, b)).held
    ensures PutBack(RowsOf(w, o), b, Available(v, b) - Available(w, b))
    ensures !Breakable(RowsOf(w, o), b) ==> Available(w, b) == Available(v, b)
  {
    hide Inv, Reachable, SagaOf, StockOf, RowsOf, Undisturbed, Available, AnsweredOnce, NeverTimedOut, NetTaken;
    hide QuantityFor, Breakable, PutBack;
    var st := StockStream(w, b);
    assert st[..|st|] == st;
    StockMovement(v, w, o, b);
    RejectedOrderHoldsNothing(w, o, b);
    assert StockOf(st).held - {o} == StockOf(st).held;
    TakenThenUndone(w, b, |st|, o);
    if !Breakable(RowsOf(w, o), b) {
      TakenIsHeld(w, b, |st|, o);
    }
  }

  // ---- which orders can be served at all ----

  /**
   The saga gets as far as row `k`, all beers before it being in stock, and there its tracked beer refuses it as an error
   because it asks for nothing.
   */
  predicate StuckAt(v: World, rows: seq<Row>, k: nat) {
    && k < |rows| && QuantityFor(rows, rows[k].beer) <= 0 && StockStream(v, rows[k].beer) != []
    && forall m | 0 <= m < k :: 0 < QuantityFor(rows, rows[m].beer) <= Available(v, rows[m].beer)
  }

  ghost predicate Stuck(v: World, rows: seq<Row>) {
    exists k: nat :: StuckAt(v, rows, k)
  }

  lemma PositiveIsNotStuck(v: World, rows: seq<Row>)
    requires Positive(rows)
    ensures !Stuck(v, rows)
  {
    hide Available;
    forall k: nat ensures !StuckAt(v, rows, k) {
      if k < |rows| {
        var i := FirstRowOfItsBeer(rows, k);
      }
    }
  }

  lemma {:induction false} FirstRowOfItsBeer(rows: seq<Row>, k: nat) returns (i: nat)
    requires k < |rows|
    ensures i <= k && rows[i].beer == rows[k].beer && rows[i].quantity == QuantityFor(rows, rows[k].beer)
  {
    if rows[0].beer == rows[k].beer {
      i := 0;
    } else {
      i := FirstRowOfItsBeer(rows[1..], k - 1);
      i := i + 1;
    }
  }

  /** An order that was served to its end by itself was not stuck. */
  lemma {:induction false} ServedIsNotStuck(v: World, w: World, o: OrderId)
    requires Reachable(v) && SagaEvents(v, o) == [] && ServedAlone(v, w, o)
    ensures !Stuck(v, RowsOf(w, o))
  {
    hide Reachable, Inv, SagaOf, StockOf, RowsOf, Undisturbed, Available, AnsweredOnce, NeverTimedOut, QuantityFor;
    hide PutBack;
    ReachableInv(v);
    ReachableInv(w);
    var rows := RowsOf(w, o);
    if SagaOf(SagaEvents(w, o)).status == Completed {
      CompletedIsAll(v, w, o);
    } else {
      var b, j := RejectionWasRefused(w, o);
      var r := RefusedRowDidNotFit(v, w, o, b, j);
      forall k: nat ensures !StuckAt(v, rows, k) {
      }
    }
  }

  // ---- what a row list must look like for that to be the whole demand ----

  lemma {:induction false} PositiveDemand(rows: seq<Row>, b: BeerId)
    requires Positive(rows)
    ensures Demand(rows, b) >= 0
    ensures Demand(rows, b) == 0 <==> forall i | 0 <= i < |rows| :: rows[i].beer != b
  {
    if rows != [] {
      PositiveDemand(rows[1..], b);
      if forall i | 0 <= i < |rows| :: rows[i].beer != b {
        assert forall i | 0 <= i < |rows[1..]| :: rows[1..][i] == rows[i + 1];
      } else {
        var i :| 0 <= i < |rows| && rows[i].beer == b;
        assert i > 0 ==> rows[1..][i - 1] == rows[i];
      }
    }
  }

  lemma {:induction false} NoRowNoDemand(rows: seq<Row>, b: BeerId)
    requires forall i | 0 <= i < |rows| :: rows[i].beer != b
    ensures Demand(rows, b) == 0
  {
    if rows != [] {
      NoRowNoDemand(rows[1..], b);
    }
  }

  /** One row per beer, which is all that the saga ever charges, adds up to everything the rows ask for. */
  ghost predicate OneRowIsEnough(rows: seq<Row>) {
    forall b :: QuantityFor(rows, b) == Demand(rows, b)
  }

  /** One deduction per beer is the whole demand exactly when no beer is ordered twice. */
  lemma {:induction false} OneDeductionIsEnoughIffDistinct(rows: seq<Row>)
    requires Positive(rows)
    ensures OneRowIsEnough(rows) <==> Distinct(rows)
  {
    if rows != [] {
      var rest, b0 := rows[1..], rows[0].beer;
      assert Positive(rest);
      OneDeductionIsEnoughIffDistinct(rest);
      PositiveDemand(rest, b0);
      assert forall i | 0 <= i < |rest| :: rest[i] == rows[i + 1];
      assert QuantityFor(rows, b0) == Demand(rows, b0) <==> Demand(rest, b0) == 0;
      if OneRowIsEnough(rows) {
        forall b ensures QuantityFor(rest, b) == Demand(rest, b) {
          assert QuantityFor(rows, b) == Demand(rows, b);
          if b == b0 {
            NoRowNoDemand(rest, b0);
            UnlistedHasNoQuantity(rest, b0);
          }
        }
        assert QuantityFor(rows, b0) == Demand(rows, b0);
        forall i, j | 0 <= i < j < |rows| ensures rows[i].beer != rows[j].beer {
          assert rows[j] == rest[j - 1];
          assert i > 0 ==> rows[i] == rest[i - 1];
        }
      }
      if Distinct(rows) {
        forall i, j | 0 <= i < j < |rest| ensures rest[i].beer != rest[j].beer {
          assert rows[i + 1].beer != rows[j + 1].beer;
        }
        forall b ensures QuantityFor(rows, b) == Demand(rows, b) {
          assert QuantityFor(rest, b) == Demand(rest, b);
          if b == b0 {
            NoRowNoDemand(rest, b0);
            UnlistedHasNoQuantity(rest, b0);
          }
        }
        assert OneRowIsEnough(rows);
      }
    }
  }

  /**
   A completed order was charged its full demand on every beer if and only if the first row of each beer adds up to all
   of them: each later row of a beer is marked allocated together with the first and never charged.  With rows that ask
   for something this means that it ordered no beer twice.
   */
  lemma CompletedOrderIsChargedInFullIffDistinct(w: World, o: OrderId)
    requires Reachable(w) && SagaOf(SagaEvents(w, o)).status == Completed
    ensures ChargedInFull(w, o) <==> OneRowIsEnough(RowsOf(w, o))
    ensures Uniform(RowsOf(w, o)) || Positive(RowsOf(w, o)) ==> (ChargedInFull(w, o) <==> Distinct(RowsOf(w, o)))
  {
    hide Reachable, SagaOf, RowsOf, Uniform, NetTaken, Demand, QuantityFor;
    var rows := RowsOf(w, o);
    forall b ensures NetTaken(StockStream(w, b), o) == QuantityFor(rows, b) {
      CompletedOrderIsChargedOnce(w, o, b);
    }
    if Uniform(rows) {
      UniformCompletedIsPositive(w, o);
    }
    if Positive(rows) {
      OneDeductionIsEnoughIffDistinct(rows);
    }
  }

  /** The net charge of every beer is all that the order's rows ask for. */
  ghost predicate ChargedInFull(w: World, o: OrderId) {
    forall b :: NetTaken(StockStream(w, b), o) == Demand(RowsOf(w, o), b)
  }

  lemma UniformCompletedIsPositive(w: World, o: OrderId)
    requires Reachable(w) && Uniform(RowsOf(w, o)) && SagaOf(SagaEvents(w, o)).status == Completed
    ensures Positive(RowsOf(w, o))
  {
    hide Inv, Reachable, SagaOf, RowsOf, Uniform, QuantityFor;
    ReachableInv(w);
    var rows := RowsOf(w, o);
    CompletedIsRecorded(w, o);
    forall i | 0 <= i < |rows| ensures rows[i].quantity > 0 {
      RecordedIsPositive(w, o, rows[i].beer);
      QuantityOfRow(rows, rows[i]);
    }
  }
}
