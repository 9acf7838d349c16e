/**
 What holds of stock in every run: none is lost unless an order is breakable, availability is never negative, a completed
 order holds all of its rows, and a rejected one holds nothing unless a step was timed out or answered twice.
 */
module StockTheorems {
  import opened Messages
  import opened AvailabilityAggregate
  import opened AllocationSaga
  import opened SagaLaws
  import opened SagaBounds
  import opened Soundness
  import opened Protocol
  import opened ProtocolInvariant

  /** No beer is ordered twice in one order. */
  predicate Distinct(rows: seq<Row>) {
    forall i, j | 0 <= i < j < |rows| :: rows[i].beer != rows[j].beer
  }

  /** Rows of the same beer ask for the same quantity; distinct beers are a special case. */
  predicate Uniform(rows: seq<Row>) {
    forall i, j | 0 <= i < |rows| && 0 <= j < |rows| && rows[i].beer == rows[j].beer ::
      rows[i].quantity == rows[j].quantity
  }

  /**
   The rows lead a saga to charge beer `b` for row `i`, the first of that beer, and then still to wait for the beer of row
   `k`; and row `j` names `b` with another quantity.
   */
  predicate BreaksAt(rows: seq<Row>, b: BeerId, i: nat, j: nat, k: nat) {
    && i < |rows| && j < |rows| && k < |rows| && rows[i].beer == rows[j].beer == b
    && 0 < rows[j].quantity != QuantityFor(rows, b)
    && (forall m | 0 <= m <= i :: QuantityFor(rows, rows[m].beer) > 0)
    && (forall m | 0 <= m <= i :: rows[m].beer != rows[k].beer)
  }

  /**
   An order that can make the stock of `b` lose or gain units: two different positive quantities of `b`, nothing
   non-positive up to its first row, and another beer left to fail after that row.
   */
  predicate Breakable(rows: seq<Row>, b: BeerId) {
    exists i, j, k | 0 <= i < |rows| && 0 <= j < |rows| && 0 <= k < |rows| :: BreaksAt(rows, b, i, j, k)
  }

  /** No order that was started so far is breakable for this beer. */
  ghost predicate Tame(w: World, b: BeerId) {
    forall o :: !Breakable(RowsOf(w, o), b)
  }

  /** The rows that the saga of `o` was started with. */
  function RowsOf(w: World, o: OrderId): seq<Row> {
    var es := SagaEvents(w, o);
    if es != [] && es[0].OrderAllocationStarted? then es[0].rows else []
  }

  function QuantityFor(rows: seq<Row>, b: BeerId): int {
    if rows == [] then 0 else if rows[0].beer == b then rows[0].quantity else QuantityFor(rows[1..], b)
  }

  /** What the orders of `held` took of beer `b` according to their own rows. */
  ghost function HeldSum(w: World, b: BeerId, held: set<OrderId>): int {
    if held == {} then 0
    else
      var o :| o in held;
      QuantityFor(RowsOf(w, o), b) + HeldSum(w, b, held - {o})
  }

  /** What the history of a beer's stock took on balance for order `o`. */
  function NetTaken(es: seq<Event>, o: OrderId): int {
    if es == [] then 0
    else
      var p, e := es[..|es| - 1], es[|es| - 1];
      NetTaken(p, o) + if Allocates(e, o) || Releases(e, o) then StockOf(p).quantity - e.quantity else 0
  }

  lemma {:induction false} QuantityOfRow(rows: seq<Row>, row: Row)
    requires Uniform(rows) && row in rows
    ensures QuantityFor(rows, row.beer) == row.quantity
  {
    if rows[0].beer == row.beer {
      var j :| 0 <= j < |rows| && rows[j] == row;
      assert rows[0].quantity == rows[j].quantity;
    } else {
      assert Uniform(rows[1..]);
      QuantityOfRow(rows[1..], row);
    }
  }

  lemma {:induction false} HeldSumSplit(w: World, b: BeerId, held: set<OrderId>, o: OrderId)
    requires o in held
    ensures HeldSum(w, b, held) == QuantityFor(RowsOf(w, o), b) + HeldSum(w, b, held - {o})
    decreases held
  {
    var x :| x in held && HeldSum(w, b, held) == QuantityFor(RowsOf(w, x), b) + HeldSum(w, b, held - {x});
    if x != o {
      HeldSumSplit(w, b, held - {x}, o);
      HeldSumSplit(w, b, held - {o}, x);
      assert held - {x} - {o} == held - {o} - {x};
    }
  }

  lemma CreationWasPlaced(w: World, o: OrderId, h: Header, rows: seq<Row>)
    requires SalesCaused(w, o) && Created(SalesEvents(w, o), o, h, rows)
    ensures Message.CreateSalesOrder(o, h, rows) in w.sent
  {
    hide Justified;
    var es := SalesEvents(w, o);
    var i :| 0 <= i < |es| && es[i] == SalesOrderCreated(o, h, rows);
    assert i == 0;
  }

  /** The saga keeps the rows of the order as it was placed. */
  lemma {:induction false} RowsWerePlaced(w: World, o: OrderId) returns (h: Header)
    requires Inv(w) && SagaEvents(w, o) != []
    ensures Message.CreateSalesOrder(o, h, RowsOf(w, o)) in w.sent
  {
    var es := SagaEvents(w, o);
    assert SoundStream(SagaStream(o), es);
    StartsWithStarted(o, es);
    assert SagaCaused(w.streams, o, es[0]);
    h :| Created(SalesEvents(w, o), o, h, es[0].rows);
    assert SalesCaused(w, o);
    CreationWasPlaced(w, o, h, es[0].rows);
  }

  /** A row the saga ever waited for or undid is a row of its order. */
  lemma {:induction false} AskedRowIsARow(w: World, o: OrderId, n: nat, row: Row)
    requires Inv(w)
    requires Awaited(SagaEvents(w, o), n, row) || Undone(SagaEvents(w, o), n, row)
    ensures row in RowsOf(w, o)
  {
    var es := SagaEvents(w, o);
    assert es == [] || SoundStream(SagaStream(o), es);
    assert es[..n] != [];
    LegalPrefix(o, es, n);
    StartsWithStarted(o, es[..n]);
    var s := SagaOf(es[..n]);
    var k: nat;
    if Awaited(es, n, row) {
      k := FirstPending(s.rows);
    } else {
      AllocatedRowsAre(s.rows, row);
      k :| 0 <= k < |s.rows| && s.rows[k] == SagaRow(row, Allocated);
    }
    assert row == RowsOf(w, o)[k];
  }

  lemma {:induction false} QuantityOfFirst(rows: seq<Row>, k: nat)
    requires k < |rows| && forall m | 0 <= m < k :: rows[m].beer != rows[k].beer
    ensures QuantityFor(rows, rows[k].beer) == rows[k].quantity
  {
    if k > 0 {
      assert rows[0].beer != rows[k].beer;
      assert forall m | 0 <= m < k - 1 :: rows[1..][m] == rows[m + 1];
      QuantityOfFirst(rows[1..], k - 1);
    }
  }

  /** The row a saga waits for is the first of its beer, and all rows before it are allocated. */
  lemma {:induction false} AwaitedIsFirst(w: World, o: OrderId, n: nat, row: Row) returns (k: nat)
    requires Inv(w) && Awaited(SagaEvents(w, o), n, row)
    ensures var rows, s := RowsOf(w, o), SagaOf(SagaEvents(w, o)[..n]);
            && |s.rows| == |rows| && k < |rows| && rows[k] == row && s.status == Running && n > 0
            && (forall m | 0 <= m < |rows| :: s.rows[m].data == rows[m])
            && (forall m | 0 <= m < k :: rows[m].beer != row.beer && s.rows[m].state == Allocated)
            && s.rows[k].state == Pending && InStep(s.rows)
  {
    hide SagaOf, Legal;
    var es := SagaEvents(w, o);
    SagaIsLegal(w, o);
    assert es[..0] == [];
    NothingIsLegal(o);
    LegalPrefix(o, es, n);
    LegalShaped(o, es[..n]);
    StartsWithStarted(o, es[..n]);
    assert es[..n][0] == es[0];
    k := FirstPending(SagaOf(es[..n]).rows);
  }

  /** Every allocation command a saga sends for a beer carries the quantity of the beer's first row. */
  lemma AllocationsCarryTheRow(w: World, b: BeerId, o: OrderId, q: int)
    requires Inv(w) && Justified(w.streams, UpdateAvailabilityDueToSalesOrder(b, q, o))
    ensures q == QuantityFor(RowsOf(w, o), b)
  {
    hide Inv, SagaOf, RowsOf;
    var n: nat :| Awaited(SagaEvents(w, o), n, Row(b, q));
    var k := AwaitedIsFirst(w, o, n, Row(b, q));
    QuantityOfFirst(RowsOf(w, o), k);
  }

  /** A beer whose allocation the saga recorded was charged a positive quantity. */
  lemma {:induction false} RecordedIsPositive(w: World, o: OrderId, b: BeerId)
    requires Inv(w) && AllocationStepSucceeded(o, b) in SagaEvents(w, o)
    ensures QuantityFor(RowsOf(w, o), b) > 0
  {
    hide SagaOf, StockOf, RowsOf, Justified, QuantityFor;
    var es, st := SagaEvents(w, o), StockStream(w, b);
    var x :| 0 <= x < |es| && es[x] == AllocationStepSucceeded(o, b);
    assert SagaCaused(w.streams, o, es[x]);
    var i :| 0 <= i < |st| && Allocates(st[i], o);
    assert StockCaused(w.streams, b, st[..i], st[i]);
    var q :| AllocationCause(w.streams, b, st[..i], st[i], o, q);
    AllocationsCarryTheRow(w, b, o, q);
  }

  /** A row that failed was still pending whenever the saga was running. */
  lemma {:induction false} FailedWasPending(o: OrderId, es: seq<Event>, n: nat, k: nat)
    requires Legal(o, es) && 1 <= n <= |es| && SagaOf(es[..n]).status == Running
    requires k < |SagaOf(es).rows| && SagaOf(es).rows[k].state == Failed
    ensures k < |SagaOf(es[..n]).rows| && SagaOf(es[..n]).rows[k].state == Pending
  {
    hide SagaOf, Legal, Shaped;
    Forward(o, es, n);
    var why := FailureWasRecorded(o, es, k);
    var y :| 0 <= y < |es| && es[y] == AllocationStepFailed(o, SagaOf(es).rows[k].data.beer, why);
    var r := RowOfStep(o, es, y);
    if y < n {
      SagaOfStep(es, y);
      LegalPrefix(o, es, n);
      assert es[..n][..y + 1] == es[..y + 1];
      Forward(o, es[..n], y + 1);
    } else {
      LegalPrefix(o, es, y);
      LegalShaped(o, es[..y]);
      Forward(o, es, y);
      assert RowAhead(SagaOf(es[..y]).rows[k], SagaOf(es).rows[k]);
      assert es[..y][..n] == es[..n];
      Forward(o, es[..y], n);
      assert RowAhead(SagaOf(es[..n]).rows[k], SagaOf(es[..y]).rows[k]);
    }
  }

  /** At the moment a beer was asked for, which was before any failure, the rows up to it were charged and positive. */
  lemma {:induction false} ChargedUpTo(w: World, o: OrderId, n: nat, b: BeerId) returns (i: nat, n': nat)
    requires Inv(w) && n <= |SagaEvents(w, o)| && AllocationStepSucceeded(o, b) in SagaEvents(w, o)[..n]
    ensures i < |RowsOf(w, o)| && RowsOf(w, o)[i].beer == b
    ensures forall m | 0 <= m <= i :: QuantityFor(RowsOf(w, o), RowsOf(w, o)[m].beer) > 0
    ensures 1 <= n' <= n && SagaOf(SagaEvents(w, o)[..n']).status == Running
    ensures var s := SagaOf(SagaEvents(w, o)[..n']);
            |s.rows| == |RowsOf(w, o)| && forall m | 0 <= m < i :: s.rows[m].state == Allocated
  {
    hide Inv, SagaOf, RowsOf, Legal, QuantityFor, SagaCaused;
    var es := SagaEvents(w, o);
    var x :| 0 <= x < n && es[..n][x] == AllocationStepSucceeded(o, b);
    assert es[x] == AllocationStepSucceeded(o, b);
    StartedBefore(w, o, x);
    var q;
    n', q := AskedBefore(w, o, x);
    i := AwaitedIsFirst(w, o, n', Row(b, q));
    SagaIsLegal(w, o);
    LegalPrefix(o, es, n');
    var s := SagaOf(es[..n']);
    forall m | 0 <= m <= i ensures QuantityFor(RowsOf(w, o), RowsOf(w, o)[m].beer) > 0 {
      if m < i {
        SuccessesWereRecorded(o, es[..n'], m);
        var z :| 0 <= z < n' && es[..n'][z] == AllocationStepSucceeded(o, RowsOf(w, o)[m].beer);
        assert es[z] == es[..n'][z];
      }
      RecordedIsPositive(w, o, RowsOf(w, o)[m].beer);
    }
  }

  lemma StartedBefore(w: World, o: OrderId, x: nat)
    requires Inv(w) && x < |SagaEvents(w, o)| && SagaEvents(w, o)[x].AllocationStepSucceeded?
    ensures x > 0
  {
    hide SagaOf, Legal;
    SagaIsLegal(w, o);
    StartsWithStarted(o, SagaEvents(w, o));
  }

  /** Every compensation that a stock accepts gives back what the beer was charged, unless the order is breakable. */
  lemma {:induction false} ReleasesCarryTheRow(w: World, b: BeerId, o: OrderId, q: int)
    requires Inv(w) && !Breakable(RowsOf(w, o), b) && q > 0 && Justified(w.streams, CompensateAvailability(b, q, o))
    ensures q == QuantityFor(RowsOf(w, o), b)
  {
    hide Inv, SagaOf, RowsOf, Legal, QuantityFor, AllocatedRows;
    var es, rows := SagaEvents(w, o), RowsOf(w, o);
    var n: nat :| Undone(es, n, Row(b, q));
    var s := SagaOf(es[..n]);
    SagaIsLegal(w, o);
    LegalPrefix(o, es, n);
    LegalShaped(o, es[..n]);
    AllocatedRowsAre(s.rows, Row(b, q));
    var j :| 0 <= j < |s.rows| && s.rows[j] == SagaRow(Row(b, q), Allocated);
    var k :| 0 <= k < |s.rows| && s.rows[k].state == Failed;
    SuccessesWereRecorded(o, es[..n], j);
    var i, n' := ChargedUpTo(w, o, n, b);
    assert es[..n][..n'] == es[..n'];
    Forward(o, es[..n], n');
    FailedWasPending(o, es[..n], n', k);
    LegalPrefix(o, es, n');
    LegalShaped(o, es[..n']);
    SagaRowsAreTheRows(w, o, n);
    SagaRowsAreTheRows(w, o, n');
    forall m | 0 <= m <= i ensures rows[m].beer != rows[k].beer {
      assert m < i ==> SagaOf(es[..n']).rows[m].state == Allocated;
    }
    assert !BreaksAt(rows, b, i, j, k);
  }

  lemma SagaRowsAreTheRows(w: World, o: OrderId, n: nat)
    requires Inv(w) && 1 <= n <= |SagaEvents(w, o)|
    ensures var s := SagaOf(SagaEvents(w, o)[..n]);
            |s.rows| == |RowsOf(w, o)| && forall m | 0 <= m < |s.rows| :: s.rows[m].data == RowsOf(w, o)[m]
  {
    hide SagaOf, Legal, Inv;
    var es := SagaEvents(w, o);
    SagaIsLegal(w, o);
    LegalPrefix(o, es, n);
    StartsWithStarted(o, es[..n]);
    assert es[..n][0] == es[0];
  }

  lemma PrefixGrows(es: seq<Event>, i: nat)
    requires i < |es|
    ensures es[..i + 1] == es[..i] + [es[i]]
  {
  }

  lemma NetTakenSnoc(es: seq<Event>, e: Event, o: OrderId)
    ensures NetTaken(es + [e], o)
            == NetTaken(es, o) + if Allocates(e, o) || Releases(e, o) then StockOf(es).quantity - e.quantity else 0
  {
    assert (es + [e])[..|es|] == es;
  }

  /** The books of one beer balance after its first `i` events. */
  ghost predicate Balanced(w: World, b: BeerId, p: seq<Event>) {
    var s := StockOf(p);
    && 0 <= s.quantity
    && s.quantity + HeldSum(w, b, s.held) == Made(p)
  }

  /** One event moves exactly the row's quantity, and only when the order's hold on the beer changes. */
  ghost predicate MovesTheRow(w: World, b: BeerId, p: seq<Event>, e: Event) {
    var s, t := StockOf(p), ApplyStock(StockOf(p), e);
    && 0 <= t.quantity
    && match e
       case AvailabilityUpdatedDueToProductionOrder(_, _, _) => true
       case QuantityNotFound(_, _, _, _) => t.quantity == s.quantity
       case BeerAvailabilityUpdated(_, _, _, o) =>
         s.quantity - t.quantity == if o in s.held then 0 else QuantityFor(RowsOf(w, o), b)
       case AvailabilityCompensated(_, _, _, o) =>
         t.quantity - s.quantity == if o in s.held then QuantityFor(RowsOf(w, o), b) else 0
       case _ => false
  }

  lemma {:induction false} EventMovesTheRow(w: World, b: BeerId, i: nat)
    requires Inv(w) && Tame(w, b) && i < |StockStream(w, b)|
    requires 0 <= StockOf(StockStream(w, b)[..i]).quantity
    ensures MovesTheRow(w, b, StockStream(w, b)[..i], StockStream(w, b)[i])
  {
    var p, e := StockStream(w, b)[..i], StockStream(w, b)[i];
    assert StockCaused(w.streams, b, p, e);
    match e {
      case BeerAvailabilityUpdated(_, _, _, o) =>
        var q :| AllocationCause(w.streams, b, p, e, o, q);
        AllocationsCarryTheRow(w, b, o, q);
      case AvailabilityCompensated(_, _, _, o) =>
        var q :| ReleaseCause(w.streams, b, p, e, o, q);
        ReleasesCarryTheRow(w, b, o, q);
      case _ =>
    }
  }

  lemma BalanceSurvives(w: World, b: BeerId, p: seq<Event>, e: Event)
    requires Balanced(w, b, p) && MovesTheRow(w, b, p, e)
    ensures Balanced(w, b, p + [e])
  {
    hide StockOf, Made, QuantityFor, RowsOf, HeldSum;
    StockOfSnoc(p, e);
    MadeSnoc(p, e);
    HoldChange(w, b, StockOf(p), e);
  }

  /** What a history took for an order is the order's row if it holds the beer, and nothing otherwise. */
  ghost predicate TakenMatchesHold(w: World, b: BeerId, p: seq<Event>, o: OrderId) {
    NetTaken(p, o) == if o in StockOf(p).held then QuantityFor(RowsOf(w, o), b) else 0
  }

  lemma NothingMovedYet(w: World, b: BeerId, o: OrderId)
    ensures Balanced(w, b, []) && TakenMatchesHold(w, b, [], o)
  {
  }

  lemma NotNegative(w: World, b: BeerId, p: seq<Event>)
    requires Balanced(w, b, p)
    ensures 0 <= StockOf(p).quantity
  {
  }

  lemma {:induction false} BooksBalance(w: World, b: BeerId, i: nat)
    requires Inv(w) && Tame(w, b) && i <= |StockStream(w, b)|
    ensures Balanced(w, b, StockStream(w, b)[..i])
  {
    hide Inv, Tame, StockStream, StockOf, MovesTheRow, Balanced;
    var st := StockStream(w, b);
    if i == 0 {
      NothingMovedYet(w, b, 0);
      assert st[..0] == [];
    } else {
      BooksBalance(w, b, i - 1);
      NotNegative(w, b, st[..i - 1]);
      EventMovesTheRow(w, b, i - 1);
      BalanceSurvives(w, b, st[..i - 1], st[i - 1]);
      PrefixGrows(st, i - 1);
    }
  }

  /** How the held total follows the hold. */
  lemma HoldChange(w: World, b: BeerId, s: Stock, e: Event)
    ensures var t := ApplyStock(s, e);
            HeldSum(w, b, t.held) - HeldSum(w, b, s.held)
            == if e.BeerAvailabilityUpdated? && e.order !in s.held then QuantityFor(RowsOf(w, e.order), b)
               else if e.AvailabilityCompensated? && e.order in s.held then -QuantityFor(RowsOf(w, e.order), b)
               else 0
  {
    var t := ApplyStock(s, e);
    if e.BeerAvailabilityUpdated? {
      HeldSumSplit(w, b, t.held, e.order);
      assert t.held - {e.order} == s.held - {e.order};
      if e.order in s.held {
        assert t.held == s.held;
      } else {
        assert s.held - {e.order} == s.held;
      }
    } else if e.AvailabilityCompensated? {
      if e.order in s.held {
        HeldSumSplit(w, b, s.held, e.order);
      } else {
        assert t.held == s.held;
      }
    }
  }

  /** What is available of a beer and what the orders holding it were charged add up to what was produced. */
  ghost predicate Conserved(w: World, b: BeerId) {
    var s := StockOf(StockStream(w, b));
    s.quantity + HeldSum(w, b, s.held) == TotalProduced(w, b)
  }

  /** Stock is conserved in every run in which no order is breakable for the beer. */
  lemma StockIsConserved(w: World, b: BeerId)
    requires Reachable(w) && Tame(w, b)
    ensures Conserved(w, b)
  {
    ReachableInv(w);
    BooksBalance(w, b, |StockStream(w, b)|);
    assert StockStream(w, b)[..|StockStream(w, b)|] == StockStream(w, b);
  }

  /** And in every run at all, availability is never negative. */
  lemma {:induction false} NeverNegativeSoFar(w: World, b: BeerId, i: nat)
    requires Inv(w) && i <= |StockStream(w, b)|
    ensures 0 <= StockOf(StockStream(w, b)[..i]).quantity
  {
    hide StockOf, Justified;
    var st := StockStream(w, b);
    if i == 0 {
      assert st[..0] == [];
      StockOfNothing();
    } else {
      NeverNegativeSoFar(w, b, i - 1);
      PrefixGrows(st, i - 1);
      StockOfSnoc(st[..i - 1], st[i - 1]);
      assert StockCaused(w.streams, b, st[..i - 1], st[i - 1]);
      hide Inv;
      match st[i - 1] {
        case BeerAvailabilityUpdated(_, _, _, o) =>
          var q :| AllocationCause(w.streams, b, st[..i - 1], st[i - 1], o, q);
        case AvailabilityCompensated(_, _, _, o) =>
          var q :| ReleaseCause(w.streams, b, st[..i - 1], st[i - 1], o, q);
        case _ =>
      }
    }
  }

  lemma AvailabilityIsNeverNegative(w: World, b: BeerId)
    requires Reachable(w)
    ensures 0 <= StockOf(StockStream(w, b)).quantity
  {
    hide Reachable, Inv, StockOf;
    ReachableInv(w);
    NeverNegativeSoFar(w, b, |StockStream(w, b)|);
    assert StockStream(w, b)[..|StockStream(w, b)|] == StockStream(w, b);
  }

  /** Whatever other orders do to the stock, what an order took is its row, unless a wrong quantity was given back. */
  lemma {:induction false} TakenIsHeld(w: World, b: BeerId, i: nat, o: OrderId)
    requires Inv(w) && i <= |StockStream(w, b)|
    requires HasRelease(StockStream(w, b), o) ==> !Breakable(RowsOf(w, o), b)
    ensures TakenMatchesHold(w, b, StockStream(w, b)[..i], o)
  {
    hide Inv, StockStream, StockOf, TakenMatchesHold, Breakable, RowsOf;
    var st := StockStream(w, b);
    if i == 0 {
      NothingMovedYet(w, b, o);
      assert st[..0] == [];
    } else {
      TakenIsHeld(w, b, i - 1, o);
      PrefixGrows(st, i - 1);
      assert Releases(st[i - 1], o) ==> HasRelease(st, o);
      ChargeIsTheRow(w, b, i - 1, o);
    }
  }

  lemma {:induction false} ChargeIsTheRow(w: World, b: BeerId, i: nat, o: OrderId)
    requires Inv(w) && i < |StockStream(w, b)|
    requires Releases(StockStream(w, b)[i], o) ==> !Breakable(RowsOf(w, o), b)
    requires TakenMatchesHold(w, b, StockStream(w, b)[..i], o)
    ensures TakenMatchesHold(w, b, StockStream(w, b)[..i] + [StockStream(w, b)[i]], o)
  {
    hide StockOf, NetTaken, QuantityFor, RowsOf, Justified, Breakable;
    var p, e := StockStream(w, b)[..i], StockStream(w, b)[i];
    StockOfSnoc(p, e);
    NetTakenSnoc(p, e, o);
    if Allocates(e, o) {
      assert StockCaused(w.streams, b, p, e);
      var q :| AllocationCause(w.streams, b, p, e, o, q);
      AllocationsCarryTheRow(w, b, o, q);
    } else if Releases(e, o) {
      assert StockCaused(w.streams, b, p, e);
      var q :| ReleaseCause(w.streams, b, p, e, o, q);
      ReleasesCarryTheRow(w, b, o, q);
    }
  }

  /** The saga stream of any order is legal. */
  lemma SagaIsLegal(w: World, o: OrderId)
    requires Inv(w)
    ensures Legal(o, SagaEvents(w, o))
  {
    hide Legal;
    var es := SagaEvents(w, o);
    if es == [] {
      NothingIsLegal(o);
    } else {
      assert SoundStream(SagaStream(o), es);
    }
  }

  /** The saga was undoing something for `o` whenever a stock released it. */
  lemma {:induction false} ReleaseWasAsked(w: World, o: OrderId, b: BeerId) returns (n: nat, row: Row)
    requires Inv(w) && HasRelease(StockStream(w, b), o)
    ensures Undone(SagaEvents(w, o), n, row) && row.beer == b
  {
    hide SagaOf, StockOf, ToCompensate, Undone, Awaited;
    var st := StockStream(w, b);
    var j :| 0 <= j < |st| && Releases(st[j], o);
    assert StockCaused(w.streams, b, st[..j], st[j]);
    var q :| ReleaseCause(w.streams, b, st[..j], st[j], o, q);
    n :| Undone(SagaEvents(w, o), n, Row(b, q));
    row := Row(b, q);
  }

  // ---- completed orders ----

  /** An order whose allocation was never released still holds the beer. */
  lemma {:induction false} UnreleasedIsHeld(es: seq<Event>, o: OrderId)
    requires HasAllocation(es, o) && !HasRelease(es, o)
    ensures o in StockOf(es).held
  {
    var p, e := es[..|es| - 1], es[|es| - 1];
    if Allocates(e, o) {
    } else {
      var i :| 0 <= i < |es| && Allocates(es[i], o);
      assert Allocates(p[i], o);
      assert !HasRelease(p, o) by {
        forall j | 0 <= j < |p| ensures !Releases(p[j], o) {
          assert p[j] == es[j];
        }
      }
      UnreleasedIsHeld(p, o);
      assert !Releases(e, o);
    }
  }

  /** No compensation of an order exists unless its saga was undoing it, and that never ends in completion. */
  lemma {:induction false} CompletedIsNeverReleased(w: World, o: OrderId, b: BeerId)
    requires Inv(w) && SagaOf(SagaEvents(w, o)).status in {Running, Completed}
    ensures !HasRelease(StockStream(w, b), o)
  {
    hide Inv, Legal, Shaped, SagaOf, HasRelease;
    var es := SagaEvents(w, o);
    if HasRelease(StockStream(w, b), o) {
      var n, row := ReleaseWasAsked(w, o, b);
      SagaIsLegal(w, o);
      LegalPrefix(o, es, n);
      LegalShaped(o, es[..n]);
      Forward(o, es, n);
      assert false;
    }
  }

  /** In every run, a completed order holds the beer of each of its rows. */
  lemma CompletedOrderHoldsItsRows(w: World, o: OrderId, row: Row)
    requires Reachable(w) && SagaOf(SagaEvents(w, o)).status == Completed && row in RowsOf(w, o)
    ensures o in StockOf(StockStream(w, row.beer)).held
  {
    ReachableInv(w);
    var es := SagaEvents(w, o);
    assert SoundStream(SagaStream(o), es);
    LegalShaped(o, es);
    StartsWithStarted(o, es);
    var k :| 0 <= k < |RowsOf(w, o)| && RowsOf(w, o)[k] == row;
    SuccessesWereRecorded(o, es, k);
    var i :| 0 <= i < |es| && es[i] == AllocationStepSucceeded(o, row.beer);
    assert SagaCaused(w.streams, o, es[i]);
    CompletedIsNeverReleased(w, o, row.beer);
    UnreleasedIsHeld(StockStream(w, row.beer), o);
  }

  lemma {:induction false} UnlistedHasNoQuantity(rows: seq<Row>, b: BeerId)
    requires forall i | 0 <= i < |rows| :: rows[i].beer != b
    ensures QuantityFor(rows, b) == 0
  {
    if rows != [] {
      assert forall i | 0 <= i < |rows[1..]| :: rows[1..][i] == rows[i + 1];
      UnlistedHasNoQuantity(rows[1..], b);
    }
  }

  /** And the history of each beer took exactly the quantity of the order's first row of it, whatever orders there are. */
  lemma CompletedOrderIsChargedOnce(w: World, o: OrderId, b: BeerId)
    requires Reachable(w) && SagaOf(SagaEvents(w, o)).status == Completed
    ensures NetTaken(StockStream(w, b), o) == QuantityFor(RowsOf(w, o), b)
  {
    hide Reachable, Inv, SagaOf, RowsOf, StockOf, NetTaken, QuantityFor, HasRelease;
    ReachableInv(w);
    var rows, st := RowsOf(w, o), StockStream(w, b);
    CompletedIsNeverReleased(w, o, b);
    TakenIsHeld(w, b, |st|, o);
    assert st[..|st|] == st;
    if k :| 0 <= k < |rows| && rows[k].beer == b {
      CompletedOrderHoldsItsRows(w, o, rows[k]);
    } else {
      UnlistedHasNoQuantity(rows, b);
    }
  }

  /** So each row's own quantity was taken exactly if rows of the same beer ask for the same quantity. */
  lemma CompletedOrderTookItsRowsIffUniform(w: World, o: OrderId)
    requires Reachable(w) && SagaOf(SagaEvents(w, o)).status == Completed
    ensures (forall row | row in RowsOf(w, o) :: NetTaken(StockStream(w, row.beer), o) == row.quantity)
            <==> Uniform(RowsOf(w, o))
  {
    hide Reachable, SagaOf, RowsOf, NetTaken, QuantityFor;
    var rows := RowsOf(w, o);
    forall row | row in rows ensures NetTaken(StockStream(w, row.beer), o) == QuantityFor(rows, row.beer) {
      CompletedOrderIsChargedOnce(w, o, row.beer);
    }
    if Uniform(rows) {
      forall row | row in rows ensures QuantityFor(rows, row.beer) == row.quantity {
        QuantityOfRow(rows, row);
      }
    }
    if forall row | row in rows :: NetTaken(StockStream(w, row.beer), o) == row.quantity {
      forall i, j | 0 <= i < |rows| && 0 <= j < |rows| && rows[i].beer == rows[j].beer
        ensures rows[i].quantity == rows[j].quantity
      {
        assert rows[i] in rows && rows[j] in rows;
      }
    }
  }

  // ---- rejected orders ----

  /** The stock answered the order's allocation command at most once. */
  predicate AnsweredOnce(es: seq<Event>, o: OrderId) {
    forall i, j | 0 <= i < |es| && 0 <= j < |es| && (Allocates(es[i], o) || Refuses(es[i], o))
                  && (Allocates(es[j], o) || Refuses(es[j], o)) :: i == j
  }

  /** The saga never gave up waiting for an answer. */
  predicate NeverTimedOut(es: seq<Event>) {
    forall i | 0 <= i < |es| && es[i].AllocationStepFailed? :: es[i].reason != TimedOut
  }

  /** An order holds a beer because of an allocation that no release followed. */
  lemma {:induction false} HeldSince(es: seq<Event>, o: OrderId) returns (i: nat)
    requires o in StockOf(es).held
    ensures i < |es| && Allocates(es[i], o)
    ensures forall j | i < j < |es| :: !Releases(es[j], o)
  {
    var p, e := es[..|es| - 1], es[|es| - 1];
    if Allocates(e, o) {
      i := |es| - 1;
    } else {
      i := HeldSince(p, o);
      assert forall j | i < j < |p| :: es[j] == p[j];
    }
  }

  /** An allocation command for a beer comes from a moment at which the saga waited for that beer. */
  lemma {:induction false} WaitedFor(w: World, b: BeerId, o: OrderId, i: nat) returns (n: nat, q: int)
    requires Inv(w) && i < |StockStream(w, b)| && Allocates(StockStream(w, b)[i], o)
    ensures Awaited(SagaEvents(w, o), n, Row(b, q)) && n > 0
  {
    var st, es := StockStream(w, b), SagaEvents(w, o);
    assert StockCaused(w.streams, b, st[..i], st[i]);
    q :| AllocationCause(w.streams, b, st[..i], st[i], o, q);
    n :| Awaited(es, n, Row(b, q));
    assert es[..0] == [];
  }

  /** Two moments at which the saga waited: at the later one the earlier row is not pending, or it is the same row. */
  lemma WaitsInOrder(o: OrderId, es: seq<Event>, n: nat, n': nat, row: Row, row': Row)
    requires Legal(o, es) && 0 < n' <= n && Awaited(es, n, row) && Awaited(es, n', row')
    requires RowIn(SagaOf(es[..n]).rows, row'.beer, Pending)
    ensures row == row'
  {
    hide SagaOf, Legal, Shaped;
    var s, s' := SagaOf(es[..n]), SagaOf(es[..n']);
    LegalPrefix(o, es, n);
    LegalShaped(o, es[..n]);
    assert es[..n][..n'] == es[..n'];
    Forward(o, es[..n], n');
    var k, k' := FirstPending(s.rows), FirstPending(s'.rows);
    assert s.rows[k'].state == Pending by {
      var j :| 0 <= j < |s.rows| && s.rows[j].data.beer == row'.beer && s.rows[j].state == Pending;
      assert s.rows[k'].data.beer == s.rows[j].data.beer;
    }
  }

  /** While a row waits for its answer, the next thing the saga records is about that row. */
  lemma {:induction false} NextStepIsAboutTheAwaitedRow(w: World, o: OrderId, n: nat, row: Row)
    requires Inv(w) && 0 < n < |SagaEvents(w, o)| && Awaited(SagaEvents(w, o), n, row)
    requires NeverTimedOut(SagaEvents(w, o))
    ensures var e := SagaEvents(w, o)[n];
            (e.AllocationStepSucceeded? || e.AllocationStepFailed?) && e.order == o && e.beer == row.beer
  {
    var es := SagaEvents(w, o);
    assert SoundStream(SagaStream(o), es);
    var s, e := SagaOf(es[..n]), es[n];
    assert LegalNext(o, s, e);
    LegalPrefix(o, es, n);
    LegalShaped(o, es[..n]);
    assert s.rows[FirstPending(s.rows)].state == Pending;
    assert e.AllocationStepSucceeded? || e.AllocationStepFailed?;
    assert SagaCaused(w.streams, o, e);
    var n', q' := AskedBefore(w, o, n);
    WaitsInOrder(o, es, n, n', row, Row(e.beer, q'));
  }

  /** A recorded answer was asked for no later than it was recorded. */
  lemma {:induction false} AskedBefore(w: World, o: OrderId, n: nat) returns (n': nat, q: int)
    requires Inv(w) && 0 < n < |SagaEvents(w, o)|
    requires var e := SagaEvents(w, o)[n];
             e.AllocationStepSucceeded? || (e.AllocationStepFailed? && e.reason != TimedOut)
    ensures 0 < n' <= n && Awaited(SagaEvents(w, o), n', Row(SagaEvents(w, o)[n].beer, q))
  {
    var es := SagaEvents(w, o);
    var e := es[n];
    var st := StockStream(w, e.beer);
    assert SoundStream(SagaStream(o), es);
    assert SagaCaused(w.streams, o, e) && LegalNext(o, SagaOf(es[..n]), e);
    if e.AllocationStepSucceeded? {
      var i :| 0 <= i < |st| && Allocates(st[i], o);
      n', q := WaitedFor(w, e.beer, o, i);
    } else {
      var i :| 0 <= i < |st| && st[i] == QuantityNotFound(e.beer, o, e.reason.requested, e.reason.available);
      assert StockCaused(w.streams, e.beer, st[..i], st[i]);
      q := e.reason.requested;
      n' :| Awaited(es, n', Row(e.beer, q));
      assert es[..0] == [];
    }
    if n' > n {
      AnsweredRowsAreNotAwaited(o, es, n, n', Row(e.beer, q));
    }
  }

  lemma AnsweredRowsAreNotAwaited(o: OrderId, es: seq<Event>, n: nat, n': nat, row: Row)
    requires Legal(o, es) && n < n' && Awaited(es, n', row)
    requires es[n].AllocationStepSucceeded? || es[n].AllocationStepFailed?
    ensures es[n].beer != row.beer
  {
    hide SagaOf, Legal;
    var s, t := SagaOf(es[..n + 1]), SagaOf(es[..n']);
    SagaOfStep(es, n);
    LegalPrefix(o, es, n');
    assert es[..n'][..n + 1] == es[..n + 1];
    Forward(o, es[..n'], n + 1);
    assert t.rows[FirstPending(t.rows)].state == Pending;
  }

  /**
   Backward recovery, order by order, in runs where messages are lost, duplicated and reordered, handlers crash, sagas
   are resumed and other orders do anything: a rejected order holds no beer, provided that no step of its own was
   timed out and no beer answered its allocation command twice.
   */
  lemma RejectedOrderHoldsNothing(w: World, o: OrderId, b: BeerId)
    requires Reachable(w) && SagaOf(SagaEvents(w, o)).status == Rejected
    requires NeverTimedOut(SagaEvents(w, o)) && AnsweredOnce(StockStream(w, b), o)
    ensures o !in StockOf(StockStream(w, b)).held
  {
    hide Inv, Reachable, Legal, Shaped, SagaOf, StockOf, StockStream, AnsweredOnce, NeverTimedOut;
    ReachableInv(w);
    var st, es := StockStream(w, b), SagaEvents(w, o);
    if o in StockOf(st).held {
      var i := HeldSince(st, o);
      var n, q := WaitedFor(w, b, o, i);
      SagaIsLegal(w, o);
      assert es[..|es|] == es;
      NextStepIsAboutTheAwaitedRow(w, o, n, Row(b, q));
      if es[n].AllocationStepFailed? {
        RefusalContradictsAllocation(w, o, b, n, i);
      } else {
        RejectionUndidEverything(o, es, b);
        ReleaseFollowsAllocation(w, o, b, i);
      }
    }
  }

  lemma {:induction false} RefusalContradictsAllocation(w: World, o: OrderId, b: BeerId, n: nat, i: nat)
    requires Inv(w) && n < |SagaEvents(w, o)| && i < |StockStream(w, b)|
    requires NeverTimedOut(SagaEvents(w, o)) && Allocates(StockStream(w, b)[i], o)
    requires SagaEvents(w, o)[n].AllocationStepFailed? && SagaEvents(w, o)[n].beer == b
    ensures !AnsweredOnce(StockStream(w, b), o)
  {
    var st, e := StockStream(w, b), SagaEvents(w, o)[n];
    assert SagaCaused(w.streams, o, e);
    var j :| 0 <= j < |st| && st[j] == QuantityNotFound(b, o, e.reason.requested, e.reason.available);
    assert Refuses(st[j], o);
  }

  lemma {:induction false} ReleaseFollowsAllocation(w: World, o: OrderId, b: BeerId, i: nat)
    requires Inv(w) && i < |StockStream(w, b)| && Allocates(StockStream(w, b)[i], o)
    requires AllocationStepCompensated(o, b) in SagaEvents(w, o)
    requires forall j | i < j < |StockStream(w, b)| :: !Releases(StockStream(w, b)[j], o)
    ensures !AnsweredOnce(StockStream(w, b), o)
  {
    hide SagaOf, StockOf, Justified, ReleaseCause, AllocationCause, Sound, SalesCaused;
    var st, es := StockStream(w, b), SagaEvents(w, o);
    var n :| 0 <= n < |es| && es[n] == AllocationStepCompensated(o, b);
    assert SagaCaused(w.streams, o, es[n]);
    var j :| 0 <= j < |st| && Releases(st[j], o);
    assert StockCaused(w.streams, b, st[..j], st[j]);
    var k :| 0 <= k < j && Allocates(st[..j][k], o);
    assert Allocates(st[k], o) && j != i && j < i;
  }
}
