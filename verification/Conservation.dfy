/**
 Which orders can make stock disappear or appear.

 A saga charges each beer once, with the quantity of its first row, but undoes every allocated row with the row's own
 quantity, and the stock honours the first of those commands that arrives.  An order that names a beer with two different
 quantities can therefore give back the wrong one.  `Breakable` is the exact condition on its rows.
 */
module Conservation {
  import opened Messages
  import opened AvailabilityAggregate
  import opened AllocationSaga
  import opened SagaLaws
  import opened SagaBounds
  import opened Reactions
  import opened Soundness
  import opened Protocol
  import opened ProtocolInvariant
  import opened DurableExecution
  import opened StockTheorems
  import opened AllOrNothing
  import opened Driving
  import opened Progress
  import opened SampleWorlds
  import opened Limits

  // ---- the run up to the failure ----

  /** The saga of `o` runs with rows `rows`, has asked for what it waits for, and still waits for the beer of row `k`. */
  ghost predicate Charging(v: World, x: World, o: OrderId, rows: seq<Row>, k: nat) {
    && Reachable(x) && SameOrders(v, x) && RowsOf(x, o) == rows && k < |rows|
    && SagaEvents(x, o) != [] && Prompted(x, o) && Waits(SagaOf(SagaEvents(x, o)), k)
  }

  predicate Waits(s: Saga, k: nat) {
    s.status == Running && k < |s.rows| && s.rows[k].state == Pending
  }

  lemma SameOrdersOnward(v: World, w: World, w': World)
    requires SameOrders(v, w) && SameOrders(w, w')
    ensures SameOrders(v, w')
  {
  }

  lemma ProductionIsAccepted(w: World, b: BeerId, q: int)
    requires q > 0
    ensures var st := StockStream(w, b);
            var d := DecideProduction(st, b, "", q);
            && d.Accept? && |d.events| == 1 && d.events[0].AvailabilityUpdatedDueToProductionOrder?
            && (Inv(w) ==> StockOf(st + d.events).quantity == StockOf(st).quantity + q)
  {
    hide StockOf, Inv;
    var st := StockStream(w, b);
    var d := DecideProduction(st, b, "", q);
    StockOfNothing();
    assert d.events == [d.events[0]];
    StockOfSnoc(st, d.events[0]);
  }

  /** A client can always have more of a beer produced. */
  lemma {:induction false} Restock(w: World, b: BeerId, q: int) returns (w': World)
    requires Reachable(w) && q > 0
    ensures Reachable(w') && SameOrders(w, w') && w.sent <= w'.sent
    ensures Available(w', b) == Available(w, b) + q && StockStream(w', b) != []
    ensures forall o :: SagaEvents(w', o) == SagaEvents(w, o)
  {
    hide Reachable, StockOf, Inv, DecideProduction;
    var m := UpdateAvailabilityDueToProductionOrder(b, "", q);
    ReachableInv(w);
    var w1 := SendingStep(w, Place(m), m);
    StepPlacesNothing(w, Place(m));
    ProductionIsAccepted(w, b, q);
    var d := DecideProduction(StockStream(w, b), b, "", q);
    assert d.events == [d.events[0]];
    w' := WritingStep(w1, Deliver(m), d.events[0]);
    StepPlacesNothing(w1, Deliver(m));
  }

  /** What a saga waiting for row `k` records when another beer is allocated. */
  lemma {:induction false} SuccessKeepsWaiting(o: OrderId, es: seq<Event>, b: BeerId, k: nat)
    requires Legal(o, es) && Waits(SagaOf(es), k) && RowIn(SagaOf(es).rows, b, Pending)
    requires SagaOf(es).rows[k].data.beer != b
    ensures var ds := DecideSucceeded(SagaOf(es), b);
            && Waits(SagaOf(es + ds), k) && !RowIn(SagaOf(es + ds).rows, b, Pending)
            && forall c | c != b && RowIn(SagaOf(es).rows, c, Pending) :: RowIn(SagaOf(es + ds).rows, c, Pending)
  {
    hide SagaOf, Legal;
    var s, e := SagaOf(es), AllocationStepSucceeded(SagaOf(es).order, b);
    var t := ApplySaga(s, e);
    assert t.rows[k].state == Pending;
    assert DecideSucceeded(s, b) == [e];
    SagaOfSnoc(es, e);
    forall c | c != b && RowIn(s.rows, c, Pending) ensures RowIn(t.rows, c, Pending) {
      var m :| 0 <= m < |s.rows| && s.rows[m].data.beer == c && s.rows[m].state == Pending;
      assert t.rows[m] == s.rows[m];
    }
  }

  /** The saga is charged for the row it waits for. */
  lemma {:induction false} ChargeRound(v: World, x: World, o: OrderId, rows: seq<Row>, k: nat)
    returns (y: World, b: BeerId)
    requires Charging(v, x, o, rows, k) && NextPending(SagaOf(SagaEvents(x, o))).Some?
    requires var row := NextPending(SagaOf(SagaEvents(x, o))).value;
             row.quantity > 0 && SagaOf(SagaEvents(x, o)).rows[k].data.beer != row.beer
    ensures b == NextPending(SagaOf(SagaEvents(x, o))).value.beer
    ensures Charging(v, y, o, rows, k) && o in StockOf(StockStream(y, b)).held
    ensures !RowIn(SagaOf(SagaEvents(y, o)).rows, b, Pending)
    ensures forall c | c != b && RowIn(SagaOf(SagaEvents(x, o)).rows, c, Pending) ::
              RowIn(SagaOf(SagaEvents(y, o)).rows, c, Pending)
    ensures Remaining(SagaOf(SagaEvents(y, o))) < Remaining(SagaOf(SagaEvents(x, o)))
  {
    hide Reachable, SagaOf, StockOf, RowsOf, Inv, Legal, Possible, AfterAll, Remaining, NextPending, Waits;
    var es := SagaEvents(x, o);
    var row := NextPending(SagaOf(es)).value;
    b := row.beer;
    var x1 := Restock(x, b, row.quantity);
    AvailabilityIsNeverNegative(x, b);
    ReachableInv(x1);
    MorePrompted(x, x1, o);
    var steps, b', q, e := ForwardRound(x1, o);
    y := AfterAll(x1, steps);
    EnoughIsAllocated(x1, b, row.quantity, o, e);
    ChargedOnce(x1, y, o, b, e);
    ChargeAdvances(x1, o, steps, b, e);
    RunPlacesNothing(x1, steps);
    SameOrdersOnward(v, x, x1);
    SameOrdersOnward(v, x1, y);
    SagaIsLegal(x1, o);
    SuccessKeepsWaiting(o, es, b, k);
    RowsAreKept(x, y, o);
  }

  lemma MorePrompted(w: World, w': World, o: OrderId)
    requires Prompted(w, o) && SagaEvents(w', o) == SagaEvents(w, o) && w.sent <= w'.sent
    ensures Prompted(w', o)
  {
    hide SagaOf, Drive, Verdict;
  }

  lemma RowsAreKept(w: World, w': World, o: OrderId)
    requires SagaEvents(w, o) != [] && SagaEvents(w, o) <= SagaEvents(w', o)
    ensures RowsOf(w', o) == RowsOf(w, o)
  {
    assert SagaEvents(w', o)[0] == SagaEvents(w, o)[0];
  }

  lemma EnoughIsAllocated(w: World, b: BeerId, q: int, o: OrderId, e: Event)
    requires StockStream(w, b) != [] && 0 < q <= Available(w, b)
    requires DecideAllocation(StockStream(w, b), b, q, o) == Accept([e])
    ensures Allocates(e, o)
  {
    hide StockOf;
  }

  lemma ChargedOnce(w: World, w': World, o: OrderId, b: BeerId, e: Event)
    requires Exchange(w, w', o, b, e, Recorded(SagaEvents(w, o), e)) && Allocates(e, o) && e.beer == b
    ensures o in StockOf(StockStream(w', b)).held
    ensures SagaEvents(w', o) == SagaEvents(w, o) + DecideSucceeded(SagaOf(SagaEvents(w, o)), b)
  {
    hide SagaOf, DecideSucceeded, StockOf;
    StockOfSnoc(StockStream(w, b), e);
  }

  /** The round leaves the saga prompted and further on. */
  lemma {:induction false} ChargeAdvances(w: World, o: OrderId, steps: seq<Step>, b: BeerId, e: Event)
    requires Reachable(w) && SagaEvents(w, o) != [] && Prompted(w, o) && Possible(w, steps) && About(e, o)
    requires Exchange(w, AfterAll(w, steps), o, b, e, Recorded(SagaEvents(w, o), e))
    requires Sends(w, AfterAll(w, steps), Reply(SagaEvents(w, o), e)) && Recorded(SagaEvents(w, o), e) != []
    ensures Reachable(AfterAll(w, steps)) && Prompted(AfterAll(w, steps), o)
    ensures Remaining(SagaOf(SagaEvents(AfterAll(w, steps), o))) < Remaining(SagaOf(SagaEvents(w, o)))
  {
    hide Reachable, SagaOf, Possible, AfterAll, Remaining, Prompted, Recorded, Reply, Sends, Undisturbed;
    hide OnAllocated, OnFailed, OnCompensated, About;
    var es, w' := SagaEvents(w, o), AfterAll(w, steps);
    SagaReplies(es, e, o);
    ExchangeAdvances(w, w', o, b, e, Recorded(es, e));
    UndisturbedAtFirst(w, o);
    RoundKeepsServed(w, w, o, steps, Recorded(es, e));
    var b', why := ReplyIsOne(es, e, o);
    RoundKeepsPrompted(w, w', o, Reply(es, e), b', why);
  }

  /** Charging goes on until the beer of row `i` is charged. */
  lemma {:induction false} ChargeUpTo(v: World, x: World, o: OrderId, rows: seq<Row>, b: BeerId, i: nat, j: nat, k: nat)
    returns (y: World)
    requires Charging(v, x, o, rows, k) && BreaksAt(rows, b, i, j, k)
    requires RowIn(SagaOf(SagaEvents(x, o)).rows, b, Pending)
    ensures Charging(v, y, o, rows, k) && o in StockOf(StockStream(y, b)).held
    ensures !RowIn(SagaOf(SagaEvents(y, o)).rows, b, Pending)
    decreases Remaining(SagaOf(SagaEvents(x, o)))
  {
    hide Reachable, SagaOf, StockOf, RowsOf, Inv, Legal, Remaining, QuantityFor, Charging, RowIn, NextPending;
    var row := NextIsCharged(v, x, o, rows, b, i, j, k);
    var c;
    y, c := ChargeRound(v, x, o, rows, k);
    if c != b {
      y := ChargeUpTo(v, y, o, rows, b, i, j, k);
    }
  }

  lemma {:induction false} NextIsCharged(v: World, x: World, o: OrderId, rows: seq<Row>, b: BeerId, i: nat, j: nat, k: nat)
    returns (row: Row)
    requires Charging(v, x, o, rows, k) && BreaksAt(rows, b, i, j, k)
    requires RowIn(SagaOf(SagaEvents(x, o)).rows, b, Pending)
    ensures NextPending(SagaOf(SagaEvents(x, o))) == Some(row) && row.quantity > 0
    ensures k < |SagaOf(SagaEvents(x, o)).rows| && SagaOf(SagaEvents(x, o)).rows[k].data.beer != row.beer
  {
    hide Reachable, SagaOf, RowsOf, Inv, Legal, QuantityFor, Prompted;
    ReachableInv(x);
    var es := SagaEvents(x, o);
    var s := SagaOf(es);
    SagaIsRested(x, o);
    assert es[..|es|] == es;
    SomethingIsPending(s, k);
    RestedRunWaits(s);
    row := NextPending(s).value;
    var m := AwaitedIsFirst(x, o, |es|, row);
    QuantityOfFirst(rows, m);
    assert m <= i by {
      var p :| 0 <= p < |s.rows| && s.rows[p].data.beer == b && s.rows[p].state == Pending;
      assert s.rows[i].data.beer == s.rows[p].data.beer;
    }
  }

  lemma SomethingIsPending(s: Saga, k: nat)
    requires Waits(s, k)
    ensures !NoneIn(s.rows, Pending)
  {
  }

  // ---- the failure ----

  /** The watchdog fails the row that is left, and the saga undoes every row of `b` with its own quantity. */
  lemma {:induction false} WatchdogUndoes(v: World, y: World, o: OrderId, rows: seq<Row>, b: BeerId, i: nat, j: nat, k: nat)
    returns (u: World)
    requires Charging(v, y, o, rows, k) && BreaksAt(rows, b, i, j, k)
    requires o in StockOf(StockStream(y, b)).held && !RowIn(SagaOf(SagaEvents(y, o)).rows, b, Pending)
    ensures Reachable(u) && SameOrders(v, u) && RowsOf(u, o) == rows
    ensures o in StockOf(StockStream(u, b)).held && CompensateAvailability(b, rows[j].quantity, o) in u.sent
  {
    hide Reachable, SagaOf, StockOf, RowsOf, Inv, Legal, QuantityFor, Prompted, OnFailed, NextPending;
    ReachableInv(y);
    var es := SagaEvents(y, o);
    SagaIsRested(y, o);
    SomethingIsPending(SagaOf(es), k);
    RestedRunWaits(SagaOf(es));
    var c := NextPending(SagaOf(es)).value.beer;
    u := StepReaches(y, TimeOut(o));
    StepPlacesNothing(y, TimeOut(o));
    SameOrdersOnward(v, y, u);
    TimeOutUndoes(y, o, b, rows[j], j, c);
    TimingOutMovesNoStock(y, o, b);
    RowsAreKept(y, u, o);
  }

  lemma {:induction false} TimeOutUndoes(y: World, o: OrderId, b: BeerId, row: Row, j: nat, c: BeerId)
    requires Inv(y) && SagaEvents(y, o) != [] && SagaOf(SagaEvents(y, o)).status == Running && row.beer == b
    requires NextPending(SagaOf(SagaEvents(y, o))).Some? && c == NextPending(SagaOf(SagaEvents(y, o))).value.beer
    requires RowIn(SagaOf(SagaEvents(y, o)).rows, c, Pending) && !RowIn(SagaOf(SagaEvents(y, o)).rows, b, Pending)
    requires j < |RowsOf(y, o)| && RowsOf(y, o)[j] == row
    ensures var u := After(y, TimeOut(o));
            CompensateAvailability(b, row.quantity, o) in u.sent && SagaEvents(y, o) <= SagaEvents(u, o)
  {
    hide SagaOf, RowsOf, Inv, Legal, NextPending, AllocatedRows, Compensations, Verdict;
    var es := SagaEvents(y, o);
    var s := SagaOf(es);
    SagaIsLegal(y, o);
    LegalShaped(o, es);
    assert es[..|es|] == es;
    SagaRowsAreTheRows(y, o, |es|);
    assert s.rows[j] == SagaRow(row, Allocated);
    var e := AllocationStepFailed(o, c, TimedOut);
    var t := ApplySaga(s, e);
    assert c != b && t.rows[j] == s.rows[j];
    AllocatedRowsAre(t.rows, row);
    assert row in ToCompensate(t);
    assert DecideFailed(s, c, TimedOut) == [e];
    SagaOfSnoc(es, e);
    CommandOfRow(ToCompensate(t), o, CompensateAvailability(b, row.quantity, o));
    var r := OnFailed(es, c, TimedOut);
    assert r == Reaction([e], Compensations(ToCompensate(t), o));
    SagaStepAdvances(y, TimeOut(o), o, r);
  }

  lemma {:induction false} HeldSumIsLocal(w: World, w': World, b: BeerId, held: set<OrderId>)
    requires forall o :: RowsOf(w', o) == RowsOf(w, o)
    ensures HeldSum(w', b, held) == HeldSum(w, b, held)
    decreases held
  {
    if held != {} {
      var o :| o in held && HeldSum(w, b, held) == QuantityFor(RowsOf(w, o), b) + HeldSum(w, b, held - {o});
      HeldSumSplit(w', b, held, o);
      HeldSumIsLocal(w, w', b, held - {o});
    }
  }

  /** The stock honours the wrong compensation first, and the books of the beer no longer balance, if they did. */
  lemma {:induction false} WrongReleaseBreaks(u: World, o: OrderId, b: BeerId, q: int) returns (w: World)
    requires Reachable(u) && o in StockOf(StockStream(u, b)).held && CompensateAvailability(b, q, o) in u.sent
    requires 0 < q != QuantityFor(RowsOf(u, o), b) && Conserved(u, b)
    ensures Reachable(w) && SameOrders(u, w) && !Conserved(w, b)
  {
    hide Reachable, StockOf, Inv, HeldSum, Made, QuantityFor, RowsOf, DecideCompensation;
    var m := CompensateAvailability(b, q, o);
    var st := StockStream(u, b);
    ReachableInv(u);
    BooksOf(u, b);
    HolderIsTracked(st, o);
    AvailabilityIsNeverNegative(u, b);
    CompensationBalancesIff(u, b, st, q, o);
    var d := DecideCompensation(st, q, o);
    ReleaseIsOne(st, q, o);
    w := WritingStep(u, Deliver(m), d.events[0]);
    assert d.events == [d.events[0]];
    StepPlacesNothing(u, Deliver(m));
    ReachableInv(w);
    BooksOf(w, b);
    AvailabilityIsNeverNegative(w, b);
    forall p ensures RowsOf(w, p) == RowsOf(u, p) {
      SameSagaSameRows(u, w, p);
    }
    HeldSumIsLocal(u, w, b, StockOf(StockStream(w, b)).held);
  }

  lemma SameSagaSameRows(w: World, w': World, o: OrderId)
    requires SagaEvents(w', o) == SagaEvents(w, o)
    ensures RowsOf(w', o) == RowsOf(w, o)
  {
  }

  lemma BooksOf(w: World, b: BeerId)
    requires Inv(w)
    ensures TotalProduced(w, b) == Made(StockStream(w, b))
  {
  }

  lemma HolderIsTracked(st: seq<Event>, o: OrderId)
    requires o in StockOf(st).held
    ensures st != []
  {
  }

  lemma ReleaseIsOne(st: seq<Event>, q: int, o: OrderId)
    requires st != [] && q > 0
    ensures DecideCompensation(st, q, o).Accept? && |DecideCompensation(st, q, o).events| == 1
  {
    hide StockOf;
  }

  // ---- the exact condition ----

  /** Every order whose rows are breakable for a beer, once placed, can break that beer's books. */
  lemma {:induction false} BreakableOrderBreaks(v: World, o: OrderId, rows: seq<Row>, b: BeerId) returns (w: World)
    requires Reachable(v) && OrderPlaced(o, rows) in v.sent && SagaEvents(v, o) == [] && Breakable(rows, b)
    ensures Reachable(w) && SameOrders(v, w) && !Conserved(w, b)
  {
    hide Reachable, SagaOf, StockOf, RowsOf, QuantityFor, Conserved, Charging, After;
    var i, j, k :| 0 <= i < |rows| && 0 <= j < |rows| && 0 <= k < |rows| && BreaksAt(rows, b, i, j, k);
    var x := StartCharging(v, o, rows, b, i, k);
    var y := ChargeUpTo(v, x, o, rows, b, i, j, k);
    var u := WatchdogUndoes(v, y, o, rows, b, i, j, k);
    if Conserved(u, b) {
      w := WrongReleaseBreaks(u, o, b, rows[j].quantity);
      SameOrdersOnward(v, u, w);
    } else {
      w := u;
    }
  }

  lemma {:induction false} StartCharging(v: World, o: OrderId, rows: seq<Row>, b: BeerId, i: nat, k: nat)
    returns (x: World)
    requires Reachable(v) && OrderPlaced(o, rows) in v.sent && SagaEvents(v, o) == []
    requires i < |rows| && k < |rows| && rows[i].beer == b
    ensures Charging(v, x, o, rows, k) && RowIn(SagaOf(SagaEvents(x, o)).rows, b, Pending)
  {
    hide Reachable, SagaOf, Clean, Prompted, React;
    var step := Deliver(OrderPlaced(o, rows));
    x := StepReaches(v, step);
    StepPlacesNothing(v, step);
    StartingIsClean(v, o, rows);
    StartingPrompts(v, o, rows);
    StartingAsks(v, o, rows);
    SagaOfFirst(OrderAllocationStarted(o, rows));
    assert SagaOf(SagaEvents(x, o)).rows[i] == SagaRow(rows[i], Pending);
  }

  /** The only orders ever placed have these rows. */
  ghost predicate OnlyOrders(w: World, rows: seq<Row>) {
    forall o, h, r :: Message.CreateSalesOrder(o, h, r) in w.sent ==> r == rows
  }

  lemma OnlyOrdersAreTame(w: World, rows: seq<Row>, b: BeerId)
    requires Reachable(w) && OnlyOrders(w, rows) && !Breakable(rows, b)
    ensures Tame(w, b)
  {
    hide Reachable, Inv;
    ReachableInv(w);
    forall o ensures !Breakable(RowsOf(w, o), b) {
      if SagaEvents(w, o) != [] {
        var h := RowsWerePlaced(w, o);
      }
    }
  }

  /**
   The exact condition on the rows of an order: its stock is conserved in every run in which only such orders are placed,
   if and only if the rows are not breakable for the beer.
   */
  lemma {:induction false} ConservedIffNotBreakable(rows: seq<Row>, b: BeerId)
    ensures (forall w | Reachable(w) && OnlyOrders(w, rows) :: Conserved(w, b)) <==> !Breakable(rows, b)
  {
    hide Reachable, Conserved, Breakable;
    if Breakable(rows, b) {
      var v := OrderCanBePlaced(rows);
      var w := BreakableOrderBreaks(v, 1, rows, b);
      assert Reachable(w) && OnlyOrders(w, rows) && !Conserved(w, b);
    } else {
      forall w | Reachable(w) && OnlyOrders(w, rows) ensures Conserved(w, b) {
        OnlyOrdersAreTame(w, rows, b);
        StockIsConserved(w, b);
      }
    }
  }

  /** For instance two and three units of one beer, and then one of another. */
  lemma {:induction false} SomeStockIsNotConserved() returns (w: World)
    ensures Reachable(w) && !Conserved(w, 7)
  {
    hide Reachable, Conserved;
    var rows := [Row(7, 2), Row(7, 3), Row(8, 1)];
    var v := OrderCanBePlaced(rows);
    assert QuantityFor(rows, 7) == 2;
    assert BreaksAt(rows, 7, 0, 1, 2);
    w := BreakableOrderBreaks(v, 1, rows, 7);
  }
}
