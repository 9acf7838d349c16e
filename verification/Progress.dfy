/**
 Progress: a saga is never stuck.

 From every reachable world, one resumption and then delivering what the system sends leads an unfinished saga to its
 end, without the watchdog and without touching any other order, as long as its rows ask for something.  Together with
 the atomic specification this makes a placed order all or nothing from start to end, and settles it in sales.
 */
module Progress {
  import opened Messages
  import opened AvailabilityAggregate
  import opened AllocationSaga
  import opened SagaLaws
  import opened SagaBounds
  import opened SalesOrderAggregate
  import opened Reactions
  import opened Soundness
  import opened Protocol
  import opened Driving
  import opened ProtocolInvariant
  import opened StockTheorems
  import opened AllOrNothing

  // ---- one round: ask, answer, record ----

  /** The order is being served and nobody else moved since `v`. */
  ghost predicate Served(v: World, w: World, o: OrderId) {
    && Reachable(w) && Undisturbed(v, w, o) && SalesEvents(w, o) == SalesEvents(v, o)
    && SagaEvents(w, o) != []
  }

  /** Whatever the saga waits for has been asked for, and if it has ended, its outcome was announced. */
  predicate Prompted(w: World, o: OrderId) {
    var s := SagaOf(SagaEvents(w, o));
    && (forall m | m in Drive(s) :: m in w.sent)
    && (Settled(s) ==> forall m | m in Verdict(s) :: m in w.sent)
  }

  predicate Unanswered(es: seq<Event>, o: OrderId) {
    forall i | 0 <= i < |es| :: !Allocates(es[i], o) && !Refuses(es[i], o)
  }

  /** No beer answered twice, and none that the saga still waits for has answered. */
  ghost predicate CleanBeer(w: World, o: OrderId, b: BeerId) {
    && AnsweredOnce(StockStream(w, b), o)
    && (RowIn(SagaOf(SagaEvents(w, o)).rows, b, Pending) ==> Unanswered(StockStream(w, b), o))
  }

  ghost predicate Clean(w: World, o: OrderId) {
    NeverTimedOut(SagaEvents(w, o)) && forall b :: CleanBeer(w, o, b)
  }

  /** The stock of `b` recorded `e`, the saga of `o` recorded `ds`, and nothing else changed. */
  ghost predicate Exchange(w: World, w': World, o: OrderId, b: BeerId, e: Event, ds: seq<Event>) {
    && SagaEvents(w', o) == SagaEvents(w, o) + ds
    && StockStream(w', b) == StockStream(w, b) + [e]
    && forall id | id != SagaStream(o) && id != AvailabilityStream(b) :: Stream(w'.streams, id) == Stream(w.streams, id)
  }

  /** The saga of `o` recorded `ds`, no other saga or order moved, and stock moved only for `o`. */
  ghost predicate Advances(w: World, w': World, o: OrderId, ds: seq<Event>) {
    SagaEvents(w', o) == SagaEvents(w, o) + ds && SalesEvents(w', o) == SalesEvents(w, o) && Undisturbed(w, w', o)
  }

  /** Two steps in a row, given what each of them does. */
  lemma {:induction false} TwoSteps(w: World, o: OrderId, m: Message, b: BeerId, e: Event, r: Reaction)
    returns (steps: seq<Step>)
    requires m in w.sent && Target(m) == AvailabilityStream(b) && !m.UpdateAvailabilityDueToProductionOrder?
    requires React(w.streams, m) == Reaction([e], [])
    requires r.Reaction? && Target(DomainEvent(e)) == SagaStream(o)
    requires forall ss | Stream(ss, SagaStream(o)) == SagaEvents(w, o) :: React(ss, DomainEvent(e)) == r
    ensures steps == [Deliver(m), Deliver(DomainEvent(e))]
    ensures Possible(w, steps) && Exchange(w, AfterAll(w, steps), o, b, e, r.events)
    ensures w.sent <= AfterAll(w, steps).sent && forall x | x in r.sends :: x in AfterAll(w, steps).sent
  {
    hide React;
    steps := [Deliver(m), Deliver(DomainEvent(e))];
    var w1 := After(w, steps[0]);
    assert w1.streams == Grow(w.streams, AvailabilityStream(b), [e]) && DomainEvent(e) in w1.sent by {
      assert Announcements(Reaction([e], []))[0] == DomainEvent(e);
    }
    var w2 := After(w1, steps[1]);
    assert Stream(w1.streams, SagaStream(o)) == SagaEvents(w, o);
    assert w2.streams == Grow(w1.streams, SagaStream(o), r.events);
    forall x | x in r.sends ensures x in w2.sent {
      var i :| 0 <= i < |r.sends| && r.sends[i] == x;
      assert Announcements(r)[|r.events| + i] == x;
    }
    TwoAtOnce(w, steps);
    assert SagaEvents(w, o) + [] == SagaEvents(w, o);
  }

  lemma RestedRunWaits(s: Saga)
    requires s.status == Running && Rested(s)
    ensures NextPending(s).Some? && RowIn(s.rows, NextPending(s).value.beer, Pending)
  {
    assert s.rows[FirstPending(s.rows)].state == Pending;
  }

  lemma SagaIsRested(w: World, o: OrderId)
    requires Inv(w) && SagaEvents(w, o) != []
    ensures Legal(o, SagaEvents(w, o)) && Rested(SagaOf(SagaEvents(w, o)))
    ensures SagaOf(SagaEvents(w, o)).order == o && SagaOf(SagaEvents(w, o)).status != Unstarted
  {
    hide Legal, Rested, SagaOf, Shaped;
    assert SoundStream(SagaStream(o), SagaEvents(w, o));
    LegalShaped(o, SagaEvents(w, o));
  }

  /** A stock answers an allocation command that asks for something; an untracked beer answers any. */
  lemma StockAnswers(w: World, b: BeerId, q: int, o: OrderId) returns (e: Event)
    requires Inv(w) && (q > 0 || StockStream(w, b) == [])
    ensures React(w.streams, UpdateAvailabilityDueToSalesOrder(b, q, o)) == Reaction([e], [])
    ensures (Allocates(e, o) && e.beer == b)
         || (e.QuantityNotFound? && e.order == o && e.beer == b && e.requested == q)
    ensures DecideAllocation(StockStream(w, b), b, q, o) == Accept([e])
  {
    hide StockOf;
    var st := StockStream(w, b);
    if st != [] {
      assert SoundStream(AvailabilityStream(b), st);
      BeerOfStream(b, st);
    }
    e := DecideAllocation(st, b, q, o).events[0];
  }

  /** What the saga records about that answer. */
  function Recorded(es: seq<Event>, e: Event): seq<Event> {
    match e
    case BeerAvailabilityUpdated(b, _, _, _) => DecideSucceeded(SagaOf(es), b)
    case QuantityNotFound(b, _, q, a) => DecideFailed(SagaOf(es), b, Shortage(b, q, a))
    case AvailabilityCompensated(b, _, _, _) => DecideCompensated(SagaOf(es), b)
    case _ => []
  }

  /** And what it sends then. */
  function Reply(es: seq<Event>, e: Event): Reaction {
    match e
    case BeerAvailabilityUpdated(b, _, _, _) => OnAllocated(es, b)
    case QuantityNotFound(b, _, q, a) => OnFailed(es, b, Shortage(b, q, a))
    case AvailabilityCompensated(b, _, _, _) => OnCompensated(es, b)
    case _ => NOTHING
  }

  lemma SagaReplies(es: seq<Event>, e: Event, o: OrderId)
    requires About(e, o)
    ensures Target(DomainEvent(e)) == SagaStream(o)
    ensures forall ss | Stream(ss, SagaStream(o)) == es :: React(ss, DomainEvent(e)) == Reply(es, e)
    ensures Reply(es, e).Reaction? && Reply(es, e).events == Recorded(es, e)
  {
    hide SagaOf, DecideSucceeded, DecideFailed, DecideCompensated, Verdict, NextAllocation, Compensations, ToCompensate;
  }

  lemma CommandOfRow(rows: seq<Row>, o: OrderId, m: Message)
    ensures m in Compensations(rows, o) <==>
              m.CompensateAvailability? && m.order == o && Row(m.beer, m.quantity) in rows
  {
    var ms := Compensations(rows, o);
    if m.CompensateAvailability? && m.order == o && Row(m.beer, m.quantity) in rows {
      var i :| 0 <= i < |rows| && rows[i] == Row(m.beer, m.quantity);
      assert ms[i] == m;
    }
  }

  /** Undoing one row adds nothing to what is left to undo. */
  lemma LessToUndo(s: Saga, b: BeerId, m: Message)
    requires s.status == Compensating && m in Drive(ApplySaga(s, AllocationStepCompensated(s.order, b)))
    ensures m in Drive(s)
  {
    hide AllocatedRows;
    var t := ApplySaga(s, AllocationStepCompensated(s.order, b));
    CommandOfRow(ToCompensate(t), s.order, m);
    CommandOfRow(ToCompensate(s), s.order, m);
    var row := Row(m.beer, m.quantity);
    AllocatedRowsAre(t.rows, row);
    AllocatedRowsAre(s.rows, row);
    var i :| 0 <= i < |t.rows| && t.rows[i] == SagaRow(row, Allocated);
    assert s.rows[i] == t.rows[i];
  }

  /** A saga that recorded something has asked for all that it now waits for, or announced its end. */
  lemma {:induction false} ReplyPrompts(es: seq<Event>, r: Reaction, b: BeerId, why: Reason, m: Message)
    requires r.Reaction? && r.events != [] && r in {OnAllocated(es, b), OnFailed(es, b, why), OnCompensated(es, b)}
    ensures var s, t := SagaOf(es), SagaOf(es + r.events);
            && (m in Drive(t) ==> m in r.sends || m in Drive(s))
            && (Settled(t) ==> r.sends == Verdict(t))
  {
    hide SagaOf, AllIn, RowIn, ToCompensate, NextAllocation, Compensations, Verdict;
    var s, ds := SagaOf(es), r.events;
    SagaOfSnoc(es, ds[0]);
    if |ds| == 2 {
      SagaOfSnoc(es + [ds[0]], ds[1]);
      assert es + ds == es + [ds[0]] + [ds[1]];
      EndedSagaIsIdle(SagaOf(es + ds));
    } else {
      assert ds == [ds[0]];
      if ds[0].AllocationStepCompensated? && m in Drive(SagaOf(es + ds)) {
        LessToUndo(s, b, m);
      }
    }
  }

  lemma EndedSagaIsIdle(t: Saga)
    ensures Settled(t) ==> Drive(t) == []
  {
  }

  /** The stock will answer for the row that the saga waits for. */
  predicate Answerable(w: World, o: OrderId) {
    match NextPending(SagaOf(SagaEvents(w, o)))
    case Some(row) => row.quantity > 0 || StockStream(w, row.beer) == []
    case None => false
  }

  /** A running saga asks for its next row and records the answer. */
  lemma {:induction false} ForwardRound(w: World, o: OrderId)
    returns (steps: seq<Step>, b: BeerId, q: int, e: Event)
    requires Inv(w) && SagaEvents(w, o) != [] && Prompted(w, o) && Answerable(w, o)
    ensures Possible(w, steps) && Deliveries(steps)
    ensures Exchange(w, AfterAll(w, steps), o, b, e, Recorded(SagaEvents(w, o), e))
    ensures Sends(w, AfterAll(w, steps), Reply(SagaEvents(w, o), e))
    ensures NextPending(SagaOf(SagaEvents(w, o))) == Some(Row(b, q))
    ensures (Allocates(e, o) || Refuses(e, o)) && e.beer == b && RowIn(SagaOf(SagaEvents(w, o)).rows, b, Pending)
    ensures Recorded(SagaEvents(w, o), e) != []
    ensures DecideAllocation(StockStream(w, b), b, q, o) == Accept([e])
  {
    hide SagaOf, React, Possible, AfterAll, Inv, Legal, Exchange, StockOf;
    var es := SagaEvents(w, o);
    var s := SagaOf(es);
    SagaIsRested(w, o);
    RestedRunWaits(s);
    b, q := NextPending(s).value.beer, NextPending(s).value.quantity;
    e := StockAnswers(w, b, q, o);
    SagaReplies(es, e, o);
    var ask := UpdateAvailabilityDueToSalesOrder(b, q, o);
    assert ask in Drive(s);
    steps := TwoSteps(w, o, ask, b, e, Reply(es, e));
  }

  predicate Deliveries(steps: seq<Step>) {
    forall i | 0 <= i < |steps| :: steps[i].Deliver?
  }

  /** No message was lost. */
  predicate Sends(w: World, w': World, r: Reaction) {
    r.Reaction? && w.sent <= w'.sent && forall x | x in r.sends :: x in w'.sent
  }

  /** A stock that allocated something for the order gives a positive quantity back when told to. */
  lemma {:induction false} StockReleases(w: World, b: BeerId, q: int, o: OrderId) returns (e: Event)
    requires Inv(w) && q > 0 && StockStream(w, b) != []
    ensures React(w.streams, CompensateAvailability(b, q, o)) == Reaction([e], [])
    ensures Releases(e, o) && e.beer == b && DecideCompensation(StockStream(w, b), q, o) == Accept([e])
  {
    hide StockOf;
    var st := StockStream(w, b);
    assert SoundStream(AvailabilityStream(b), st);
    BeerOfStream(b, st);
    e := DecideCompensation(st, q, o).events[0];
  }

  /** A row that is allocated was allocated by its stock, for the positive quantity of the first row of its beer. */
  lemma AllocatedRowHasStock(w: World, o: OrderId, k: nat)
    requires Inv(w) && k < |SagaOf(SagaEvents(w, o)).rows| && SagaOf(SagaEvents(w, o)).rows[k].state == Allocated
    ensures var b := SagaOf(SagaEvents(w, o)).rows[k].data.beer;
            StockStream(w, b) != [] && QuantityFor(RowsOf(w, o), b) > 0
  {
    hide SagaOf, Legal, QuantityFor, RowsOf;
    var es := SagaEvents(w, o);
    var b := SagaOf(es).rows[k].data.beer;
    SagaIsLegal(w, o);
    SuccessesWereRecorded(o, es, k);
    var i :| 0 <= i < |es| && es[i] == AllocationStepSucceeded(o, b);
    assert SagaCaused(w.streams, o, es[i]);
    RecordedIsPositive(w, o, b);
  }

  /** A compensating saga has a row with a positive quantity left to undo. */
  lemma {:induction false} SomethingToUndo(w: World, o: OrderId) returns (row: Row)
    requires Inv(w) && SagaEvents(w, o) != [] && SagaOf(SagaEvents(w, o)).status == Compensating
    ensures var s := SagaOf(SagaEvents(w, o));
            && row in ToCompensate(s) && row.quantity > 0 && StockStream(w, row.beer) != []
            && RowIn(s.rows, row.beer, Allocated) && row.quantity == QuantityFor(RowsOf(w, o), row.beer)
  {
    hide SagaOf, RowsOf, Inv, Legal, AllocatedRows, QuantityFor;
    var es := SagaEvents(w, o);
    var s := SagaOf(es);
    SagaIsRested(w, o);
    LegalShaped(o, es);
    var k :| 0 <= k < |s.rows| && s.rows[k].state == Allocated;
    AllocatedRowHasStock(w, o, k);
    assert es[..|es|] == es;
    SagaRowsAreTheRows(w, o, |es|);
    var i := FirstRowOfItsBeer(RowsOf(w, o), k);
    row := RowsOf(w, o)[i];
    assert s.rows[i] == SagaRow(row, Allocated);
    AllocatedRowsAre(s.rows, row);
  }

  /** It has that row released and records it. */
  lemma {:induction false} BackwardRound(w: World, o: OrderId) returns (steps: seq<Step>, b: BeerId, e: Event)
    requires Inv(w) && SagaEvents(w, o) != [] && Prompted(w, o)
    requires SagaOf(SagaEvents(w, o)).status == Compensating
    ensures Possible(w, steps) && Deliveries(steps)
    ensures Exchange(w, AfterAll(w, steps), o, b, e, Recorded(SagaEvents(w, o), e))
    ensures Sends(w, AfterAll(w, steps), Reply(SagaEvents(w, o), e))
    ensures Releases(e, o) && e.beer == b && Recorded(SagaEvents(w, o), e) != []
    ensures DecideCompensation(StockStream(w, b), QuantityFor(RowsOf(w, o), b), o) == Accept([e])
  {
    hide SagaOf, React, Possible, AfterAll, Inv, Legal, Exchange, AllocatedRows, QuantityFor, RowsOf;
    var es := SagaEvents(w, o);
    var s := SagaOf(es);
    SagaIsRested(w, o);
    var row := SomethingToUndo(w, o);
    b := row.beer;
    e := StockReleases(w, b, row.quantity, o);
    SagaReplies(es, e, o);
    var undo := CompensateAvailability(b, row.quantity, o);
    CommandOfRow(ToCompensate(s), o, undo);
    assert undo in Drive(s);
    steps := TwoSteps(w, o, undo, b, e, Reply(es, e));
  }

  // ---- the rounds that no stock takes part in ----

  /**
   Nothing but the watchdog can move the saga: the row it waits for asks for nothing of a beer that is tracked, which the
   beer refuses as an error, and no shortage recorded while it was untracked is on its way.
   */
  ghost predicate Blocked(w: World, o: OrderId) {
    match NextPending(SagaOf(SagaEvents(w, o)))
    case Some(row) => row.quantity <= 0 && StockStream(w, row.beer) != [] && !ShortageOnItsWay(w, o, row.beer)
    case None => false
  }

  ghost predicate ShortageOnItsWay(w: World, o: OrderId, b: BeerId) {
    exists q, a :: DomainEvent(QuantityNotFound(b, o, q, a)) in w.sent
  }

  /** A single step of the saga's own. */
  lemma SagaStepAdvances(w: World, step: Step, o: OrderId, r: Reaction)
    requires StepTarget(step) == SagaStream(o) && StepReaction(w, step) == r && r.Reaction?
    ensures Advances(w, After(w, step), o, r.events) && Sends(w, After(w, step), r)
  {
    hide StepReaction, StepTarget, About;
    var w' := After(w, step);
    GrowExtends(w.streams, SagaStream(o), r.events);
    forall x | x in r.sends ensures x in w'.sent {
      var i :| 0 <= i < |r.sends| && r.sends[i] == x;
      assert Announcements(r)[|r.events| + i] == x;
    }
  }

  /** A running saga that no stock will answer fails its pending row: by a late shortage, or by the watchdog. */
  lemma {:induction false} FailingRound(w: World, o: OrderId) returns (step: Step, b: BeerId, why: Reason)
    requires Inv(w) && SagaEvents(w, o) != [] && !Answerable(w, o) && SagaOf(SagaEvents(w, o)).status == Running
    ensures Enabled(w, step) && (step.Deliver? || (step == TimeOut(o) && Blocked(w, o)))
    ensures var r := OnFailed(SagaEvents(w, o), b, why);
            && r.Reaction? && r.events != []
            && Advances(w, After(w, step), o, r.events) && Sends(w, After(w, step), r)
  {
    hide SagaOf, Inv, Legal, Verdict, Compensations, ToCompensate, NextPending, Advances, Sends;
    var es := SagaEvents(w, o);
    SagaIsRested(w, o);
    RestedRunWaits(SagaOf(es));
    var row := NextPending(SagaOf(es)).value;
    b := row.beer;
    if q, a :| DomainEvent(QuantityNotFound(b, o, q, a)) in w.sent {
      step, why := Deliver(DomainEvent(QuantityNotFound(b, o, q, a))), Shortage(b, q, a);
    } else {
      step, why := TimeOut(o), TimedOut;
    }
    SagaStepAdvances(w, step, o, OnFailed(es, b, why));
  }

  // ---- what a round keeps ----

  /** The more a saga has recorded, the less remains. */
  lemma {:induction false} EventsUseUp(o: OrderId, es: seq<Event>, n: nat)
    requires Legal(o, es) && 1 <= n <= |es|
    ensures Remaining(SagaOf(es)) + (|es| - n) <= Remaining(SagaOf(es[..n]))
    decreases |es|
  {
    hide Legal, SagaOf, Remaining, Shaped, LegalNext;
    if n == |es| {
      assert es[..n] == es;
    } else {
      LegalLast(o, es);
      var p, e := es[..|es| - 1], es[|es| - 1];
      LegalShaped(o, p);
      assert p[..n] == es[..n];
      EventsUseUp(o, p, n);
      SagaOfSnoc(p, e);
      EventsRunOut(o, SagaOf(p), e);
    }
  }

  lemma ExchangeKeepsUndisturbed(v: World, w: World, w': World, o: OrderId, b: BeerId, e: Event, ds: seq<Event>)
    requires Undisturbed(v, w, o) && Exchange(w, w', o, b, e, ds) && About(e, o)
    ensures Undisturbed(v, w', o)
  {
    hide About;
    forall b', i | |StockStream(v, b')| <= i < |StockStream(w', b')| ensures About(StockStream(w', b')[i], o) {
      assert b' != b ==> StockStream(w', b') == StockStream(w, b');
      if i < |StockStream(w, b')| {
        assert StockStream(w', b')[i] == StockStream(w, b')[i];
      }
    }
  }

  lemma ExchangeAdvances(w: World, w': World, o: OrderId, b: BeerId, e: Event, ds: seq<Event>)
    requires Exchange(w, w', o, b, e, ds) && About(e, o)
    ensures Advances(w, w', o, ds)
  {
    hide About;
    UndisturbedAtFirst(w, o);
    ExchangeKeepsUndisturbed(w, w, w', o, b, e, ds);
  }

  lemma UndisturbedOnward(v: World, w: World, w': World, o: OrderId)
    requires Undisturbed(v, w, o) && Undisturbed(w, w', o)
    ensures Undisturbed(v, w', o)
  {
    hide About;
    forall b, i | |StockStream(v, b)| <= i < |StockStream(w', b)| ensures About(StockStream(w', b)[i], o) {
      assert Stream(w.streams, AvailabilityStream(b)) <= Stream(w'.streams, AvailabilityStream(b));
      if i < |StockStream(w, b)| {
        assert StockStream(w', b)[i] == StockStream(w, b)[i];
      }
    }
    forall id ensures Stream(v.streams, id) <= Stream(w'.streams, id) {
      assert Stream(v.streams, id) <= Stream(w.streams, id) <= Stream(w'.streams, id);
    }
  }

  lemma {:induction false} RoundKeepsServed(v: World, w: World, o: OrderId, steps: seq<Step>, ds: seq<Event>)
    requires Served(v, w, o) && Possible(w, steps) && Advances(w, AfterAll(w, steps), o, ds) && ds != []
    ensures Served(v, AfterAll(w, steps), o) && RowsOf(AfterAll(w, steps), o) == RowsOf(w, o)
    ensures Remaining(SagaOf(SagaEvents(AfterAll(w, steps), o))) < Remaining(SagaOf(SagaEvents(w, o)))
  {
    hide Reachable, Possible, AfterAll, Undisturbed, Inv, SagaOf, Remaining, Legal;
    var w' := AfterAll(w, steps);
    PossibleIsReachable(w, steps);
    UndisturbedOnward(v, w, w', o);
    ReachableInv(w');
    SagaIsLegal(w', o);
    var es, es' := SagaEvents(w, o), SagaEvents(w', o);
    assert es'[..|es|] == es && es'[0] == es[0];
    EventsUseUp(o, es', |es|);
  }

  lemma RecordedIsNotATimeOut(es: seq<Event>, e: Event)
    requires NeverTimedOut(es)
    ensures NeverTimedOut(es + Recorded(es, e))
  {
    hide SagaOf, RowIn, AllIn, ToCompensate;
    var ds := Recorded(es, e);
    forall i | 0 <= i < |es + ds| && (es + ds)[i].AllocationStepFailed? ensures (es + ds)[i].reason != TimedOut {
      assert (es + ds)[i] == if i < |es| then es[i] else ds[i - |es|];
    }
  }

  /** Once a round about beer `b` is recorded, the saga waits for no row of `b`; and it never waits for a new one. */
  lemma RecordedRowsAreNotPending(o: OrderId, es: seq<Event>, ds: seq<Event>, b: BeerId)
    requires Legal(o, es + ds) && es != []
    ensures RowIn(SagaOf(es + ds).rows, b, Pending) ==> RowIn(SagaOf(es).rows, b, Pending)
    ensures ds != [] && (ds[0].AllocationStepSucceeded? || ds[0].AllocationStepFailed?) && ds[0].beer == b ==>
              !RowIn(SagaOf(es + ds).rows, b, Pending)
  {
    hide SagaOf, Legal;
    var all := es + ds;
    assert all[..|es|] == es;
    Forward(o, all, |es|);
    var s, t := SagaOf(es), SagaOf(all);
    forall k | 0 <= k < |t.rows| && t.rows[k].state == Pending ensures s.rows[k].state == Pending {
      assert RowAhead(s.rows[k], t.rows[k]);
    }
    if ds != [] {
      SagaOfStep(all, |es|);
      assert all[|es|] == ds[0];
      Forward(o, all, |es| + 1);
      var m := SagaOf(all[..|es| + 1]);
      forall k | 0 <= k < |t.rows| && t.rows[k].state == Pending
        ensures m.rows[k].state == Pending && m.rows[k].data == t.rows[k].data
      {
        assert RowAhead(m.rows[k], t.rows[k]);
      }
    }
  }

  lemma OneAnswerAtMost(st: seq<Event>, e: Event, o: OrderId)
    requires AnsweredOnce(st, o) && (Unanswered(st, o) || Releases(e, o))
    ensures AnsweredOnce(st + [e], o)
    ensures Unanswered(st, o) && Releases(e, o) ==> Unanswered(st + [e], o)
  {
    forall i, j | 0 <= i < |st + [e]| && 0 <= j < |st + [e]|
                  && (Allocates((st + [e])[i], o) || Refuses((st + [e])[i], o))
                  && (Allocates((st + [e])[j], o) || Refuses((st + [e])[j], o))
      ensures i == j
    {
      assert i < |st| ==> (st + [e])[i] == st[i];
      assert j < |st| ==> (st + [e])[j] == st[j];
    }
  }

  lemma {:induction false} RoundKeepsClean(w: World, w': World, o: OrderId, b: BeerId, e: Event)
    requires var es := SagaEvents(w, o);
             && es != [] && Legal(o, SagaEvents(w', o)) && Exchange(w, w', o, b, e, Recorded(es, e))
             && Recorded(es, e) != []
    requires Clean(w, o) && e.beer == b
    requires || Releases(e, o)
             || ((Allocates(e, o) || Refuses(e, o)) && RowIn(SagaOf(SagaEvents(w, o)).rows, b, Pending))
    ensures Clean(w', o)
  {
    hide SagaOf, Legal, RowIn, AnsweredOnce, Unanswered, NeverTimedOut, AllIn, ToCompensate;
    var es := SagaEvents(w, o);
    var ds := Recorded(es, e);
    RecordedIsNotATimeOut(es, e);
    assert Releases(e, o) || ds[0].AllocationStepSucceeded? || ds[0].AllocationStepFailed?;
    forall c ensures CleanBeer(w', o, c) {
      assert CleanBeer(w, o, c);
      RecordedRowsAreNotPending(o, es, ds, c);
      if c == b {
        OneAnswerAtMost(StockStream(w, b), e, o);
      } else {
        assert StockStream(w', c) == StockStream(w, c);
      }
    }
  }

  // ---- the whole way ----

  lemma {:induction false} RoundKeepsPrompted(w: World, w': World, o: OrderId, r: Reaction, b: BeerId, why: Reason)
    requires var es := SagaEvents(w, o);
             r.Reaction? && r.events != [] && r in {OnAllocated(es, b), OnFailed(es, b, why), OnCompensated(es, b)}
    requires Prompted(w, o) && SagaEvents(w', o) == SagaEvents(w, o) + r.events && Sends(w, w', r)
    ensures Prompted(w', o)
  {
    hide SagaOf, OnAllocated, OnFailed, OnCompensated, Drive, Verdict, Settled;
    var es := SagaEvents(w, o);
    var t := SagaOf(SagaEvents(w', o));
    forall m | m in Drive(t) ensures m in w'.sent {
      ReplyPrompts(es, r, b, why, m);
    }
    if Settled(t) {
      forall m | m in Verdict(t) ensures m in w'.sent {
        ReplyPrompts(es, r, b, why, m);
      }
    }
  }

  lemma ReplyIsOne(es: seq<Event>, e: Event, o: OrderId) returns (b: BeerId, why: Reason)
    requires About(e, o)
    ensures Reply(es, e) in {OnAllocated(es, b), OnFailed(es, b, why), OnCompensated(es, b)}
  {
    hide OnAllocated, OnFailed, OnCompensated;
    b, why := e.beer, if e.QuantityNotFound? then Shortage(e.beer, e.requested, e.available) else NoReason;
  }

  /** The watchdog steps in only where the saga is blocked. */
  ghost predicate Needed(w: World, steps: seq<Step>, o: OrderId)
    decreases |steps|
  {
    steps != [] ==>
      && (steps[0].Deliver? || (steps[0] == TimeOut(o) && Blocked(w, o)))
      && Needed(After(w, steps[0]), steps[1..], o)
  }

  lemma {:induction false} DeliveriesAreNeeded(w: World, steps: seq<Step>, o: OrderId)
    requires Deliveries(steps)
    ensures Needed(w, steps, o)
    decreases |steps|
  {
    hide After, Blocked;
    if steps != [] {
      DeliveriesAreNeeded(After(w, steps[0]), steps[1..], o);
    }
  }

  lemma {:induction false} NeededComposes(w: World, a: seq<Step>, b: seq<Step>, o: OrderId)
    requires Needed(w, a, o) && Needed(AfterAll(w, a), b, o)
    ensures Needed(w, a + b, o)
    decreases |a|
  {
    hide After, Blocked;
    if a == [] {
      assert a + b == b;
    } else {
      assert (a + b)[0] == a[0] && (a + b)[1..] == a[1..] + b;
      NeededComposes(After(w, a[0]), a[1..], b, o);
    }
  }

  lemma PositiveIsNotBlocked(w: World, o: OrderId)
    requires Inv(w) && SagaEvents(w, o) != [] && Positive(RowsOf(w, o))
    requires SagaOf(SagaEvents(w, o)).status == Running
    ensures Answerable(w, o)
  {
    hide SagaOf, RowsOf, Inv, Legal;
    var es := SagaEvents(w, o);
    SagaIsRested(w, o);
    RestedRunWaits(SagaOf(es));
    assert es[..|es|] == es;
    AskedRowIsARow(w, o, |es|, NextPending(SagaOf(es)).value);
    var k :| 0 <= k < |RowsOf(w, o)| && RowsOf(w, o)[k] == NextPending(SagaOf(es)).value;
    assert RowsOf(w, o)[k].quantity > 0;
  }

  /** A round in which a stock takes part. */
  lemma {:induction false} ServedRound(v: World, w: World, o: OrderId) returns (steps: seq<Step>)
    requires Served(v, w, o) && Prompted(w, o)
    requires SagaOf(SagaEvents(w, o)).status == Compensating || Answerable(w, o)
    ensures Possible(w, steps) && Deliveries(steps)
    ensures Served(v, AfterAll(w, steps), o) && Prompted(AfterAll(w, steps), o)
    ensures RowsOf(AfterAll(w, steps), o) == RowsOf(w, o)
    ensures Remaining(SagaOf(SagaEvents(AfterAll(w, steps), o))) < Remaining(SagaOf(SagaEvents(w, o)))
    ensures Smooth(v, w, o) ==> Smooth(v, AfterAll(w, steps), o)
  {
    hide Reachable, Possible, AfterAll, RowsOf, Inv, SagaOf, Remaining, Legal, Clean, Recorded, Undisturbed, Straight;
    hide Prompted, Reply, Sends, Advances, Answerable, OnAllocated, OnFailed, OnCompensated, Stuck, QuantityFor, StockOf;
    ReachableInv(w);
    var b, e;
    if SagaOf(SagaEvents(w, o)).status == Compensating {
      steps, b, e := BackwardRound(w, o);
    } else {
      var q;
      steps, b, q, e := ForwardRound(w, o);
    }
    var es, w' := SagaEvents(w, o), AfterAll(w, steps);
    SagaReplies(es, e, o);
    ExchangeAdvances(w, w', o, b, e, Recorded(es, e));
    RoundKeepsServed(v, w, o, steps, Recorded(es, e));
    var b', why := ReplyIsOne(es, e, o);
    RoundKeepsPrompted(w, w', o, Reply(es, e), b', why);
    ReachableInv(w');
    SagaIsLegal(w', o);
    if Smooth(v, w, o) {
      RoundKeepsClean(w, w', o, b, e);
      RoundKeepsStraight(w, w', o, b, e, Recorded(es, e));
    }
  }

  /** The history of every beer took the order's first row of it, or nothing, as the order holds it or not. */
  ghost predicate Straight(w: World, o: OrderId) {
    forall b :: TakenMatchesHold(w, b, StockStream(w, b), o)
  }

  lemma {:induction false} RoundKeepsStraight(w: World, w': World, o: OrderId, b: BeerId, e: Event, ds: seq<Event>)
    requires Inv(w') && Straight(w, o) && Exchange(w, w', o, b, e, ds) && RowsOf(w', o) == RowsOf(w, o)
    requires Releases(e, o) ==>
               DecideCompensation(StockStream(w, b), QuantityFor(RowsOf(w, o), b), o) == Accept([e])
    ensures Straight(w', o)
  {
    hide Inv, RowsOf, QuantityFor, NetTaken, StockOf;
    forall c ensures TakenMatchesHold(w', c, StockStream(w', c), o) {
      assert TakenMatchesHold(w, c, StockStream(w, c), o);
      if c == b {
        var st, i := StockStream(w', b), |StockStream(w, b)|;
        assert st[..i] == StockStream(w, b) && st == st[..i] + [st[i]];
        if Releases(e, o) {
          StockOfSnoc(st[..i], e);
          NetTakenSnoc(st[..i], e, o);
        } else {
          ChargeIsTheRow(w', b, i, o);
        }
      } else {
        assert StockStream(w', c) == StockStream(w, c);
      }
    }
  }

  /** The order is served by itself since `v`, from before its start, and was not stuck there. */
  ghost predicate Smooth(v: World, w: World, o: OrderId) {
    && Inv(v) && SagaEvents(v, o) == [] && Clean(w, o) && Straight(w, o) && !Stuck(v, RowsOf(w, o))
  }

  /** A beer whose row is recorded while the saga runs was charged for it, out of what it had at the start. */
  lemma {:induction false} RecordedFitted(v: World, w: World, o: OrderId, b: BeerId)
    requires Served(v, w, o) && Inv(v) && Inv(w) && SagaEvents(v, o) == [] && Straight(w, o)
    requires SagaOf(SagaEvents(w, o)).status == Running && AllocationStepSucceeded(o, b) in SagaEvents(w, o)
    ensures 0 < QuantityFor(RowsOf(w, o), b) <= Available(v, b)
  {
    hide Reachable, SagaOf, RowsOf, QuantityFor, NetTaken, StockOf, Undisturbed;
    RecordedIsPositive(w, o, b);
    var es := SagaEvents(w, o);
    var i :| 0 <= i < |es| && es[i] == AllocationStepSucceeded(o, b);
    assert SagaCaused(w.streams, o, es[i]);
    hide Inv, HasAllocation, HasRelease;
    CompletedIsNeverReleased(w, o, b);
    UnreleasedIsHeld(StockStream(w, b), o);
    assert TakenMatchesHold(w, b, StockStream(w, b), o);
    StockMovement(v, w, o, b);
    NeverNegative(w, b);
  }

  /** A beer that the saga still waits for is as it was. */
  lemma AwaitedIsUntouched(v: World, w: World, o: OrderId, b: BeerId)
    requires Inv(w) && Undisturbed(v, w, o) && CleanBeer(w, o, b)
    requires RowIn(SagaOf(SagaEvents(w, o)).rows, b, Pending)
    ensures StockStream(w, b) == StockStream(v, b)
  {
    hide SagaOf, StockOf, Justified, ReleaseCause, AllocationCause;
    assert Stream(v.streams, AvailabilityStream(b)) <= Stream(w.streams, AvailabilityStream(b));
  }

  /** So every row that it comes to is answered. */
  lemma {:induction false} SmoothIsAnswerable(v: World, w: World, o: OrderId)
    requires Served(v, w, o) && Smooth(v, w, o) && SagaOf(SagaEvents(w, o)).status == Running
    ensures Answerable(w, o)
  {
    hide Reachable, SagaOf, RowsOf, QuantityFor, Inv, Legal, Available, Straight, Undisturbed;
    ReachableInv(w);
    var es, rows := SagaEvents(w, o), RowsOf(w, o);
    SagaIsRested(w, o);
    RestedRunWaits(SagaOf(es));
    var row := NextPending(SagaOf(es)).value;
    assert es[..|es|] == es;
    var k := AwaitedIsFirst(w, o, |es|, row);
    AllocatedWereRecorded(w, o, |es|, k);
    QuantityOfFirst(rows, k);
    assert CleanBeer(w, o, row.beer);
    AwaitedIsUntouched(v, w, o, row.beer);
    forall m | 0 <= m < k ensures 0 < QuantityFor(rows, rows[m].beer) <= Available(v, rows[m].beer) {
      RecordedFitted(v, w, o, rows[m].beer);
    }
    assert !StuckAt(v, rows, k);
  }

  /** One round, whichever way the saga is going. */
  lemma {:induction false} Round(v: World, w: World, o: OrderId) returns (steps: seq<Step>)
    requires Served(v, w, o) && Prompted(w, o) && !Settled(SagaOf(SagaEvents(w, o)))
    ensures Possible(w, steps) && Needed(w, steps, o)
    ensures Served(v, AfterAll(w, steps), o) && Prompted(AfterAll(w, steps), o)
    ensures RowsOf(AfterAll(w, steps), o) == RowsOf(w, o)
    ensures Remaining(SagaOf(SagaEvents(AfterAll(w, steps), o))) < Remaining(SagaOf(SagaEvents(w, o)))
    ensures Positive(RowsOf(w, o)) ==> Deliveries(steps)
    ensures Smooth(v, w, o) ==> Deliveries(steps) && Smooth(v, AfterAll(w, steps), o)
  {
    hide Reachable, RowsOf, Inv, SagaOf, Remaining, Legal, Smooth, Recorded, Undisturbed, Needed, Positive;
    hide Prompted, Reply, Sends, Advances, Answerable, OnAllocated, OnFailed, OnCompensated, After, Enabled;
    ReachableInv(w);
    SagaIsRested(w, o);
    if SagaOf(SagaEvents(w, o)).status == Compensating || Answerable(w, o) {
      steps := ServedRound(v, w, o);
      DeliveriesAreNeeded(w, steps, o);
    } else {
      var step, b, why := FailingRound(w, o);
      steps := [step];
      var r := OnFailed(SagaEvents(w, o), b, why);
      FirstStepIsPossible(w, step);
      OneStepIsNeeded(w, step, o);
      RoundKeepsServed(v, w, o, steps, r.events);
      AdvancesRecords(w, AfterAll(w, steps), o, r.events);
      RoundKeepsPrompted(w, AfterAll(w, steps), o, r, b, why);
      if Positive(RowsOf(w, o)) {
        PositiveIsNotBlocked(w, o);
      }
      if Smooth(v, w, o) {
        SmoothIsAnswerable(v, w, o);
      }
    }
  }

  lemma AdvancesRecords(w: World, w': World, o: OrderId, ds: seq<Event>)
    requires Advances(w, w', o, ds)
    ensures SagaEvents(w', o) == SagaEvents(w, o) + ds
  {
  }

  lemma OneStepIsNeeded(w: World, step: Step, o: OrderId)
    requires step.Deliver? || (step == TimeOut(o) && Blocked(w, o))
    ensures Needed(w, [step], o)
  {
    hide After, Blocked;
    assert [step][1..] == [];
  }

  lemma {:induction false} DriveToTheEnd(v: World, w: World, o: OrderId) returns (steps: seq<Step>)
    requires Served(v, w, o) && Prompted(w, o)
    ensures Possible(w, steps) && Needed(w, steps, o)
    ensures Served(v, AfterAll(w, steps), o) && Prompted(AfterAll(w, steps), o)
    ensures Settled(SagaOf(SagaEvents(AfterAll(w, steps), o)))
    ensures Positive(RowsOf(w, o)) ==> Deliveries(steps)
    ensures Smooth(v, w, o) ==> Deliveries(steps) && Smooth(v, AfterAll(w, steps), o)
    ensures RowsOf(AfterAll(w, steps), o) == RowsOf(w, o)
    decreases Remaining(SagaOf(SagaEvents(w, o)))
  {
    hide Served, SagaOf, Remaining, Settled, Smooth, Possible, AfterAll, Prompted, Needed, RowsOf, Positive;
    if Settled(SagaOf(SagaEvents(w, o))) {
      steps := [];
      NoSteps(w);
      NothingIsNeeded(w, o);
    } else {
      var round := Round(v, w, o);
      var rest := DriveToTheEnd(v, AfterAll(w, round), o);
      steps := round + rest;
      StepsCompose(w, round, rest);
      NeededComposes(w, round, rest, o);
    }
  }

  lemma NothingIsNeeded(w: World, o: OrderId)
    ensures Needed(w, [], o)
  {
  }

  /** Resuming an unfinished saga asks again for all that it waits for. */
  lemma ResumingPrompts(w: World, o: OrderId)
    requires !Settled(SagaOf(SagaEvents(w, o)))
    ensures var step := Resume(o, |SagaEvents(w, o)|);
            && Enabled(w, step) && After(w, step).streams == w.streams && Prompted(After(w, step), o)
  {
    hide SagaOf, Drive, Verdict;
    var es := SagaEvents(w, o);
    assert es[..|es|] == es;
    var sends := Drive(SagaOf(es));
    assert StepReaction(w, Resume(o, |es|)) == Reaction([], sends);
    assert Announcements(Reaction([], sends)) == sends;
  }

  /**
   No saga is stuck: from every reachable world, whatever was lost, one resumption and then delivering what the system
   sends leads an unfinished saga to its end, announces its outcome, and changes nothing but the stock of its own beers.
   The watchdog takes part only where the saga is blocked by a row that asks for nothing, so never if all rows are
   positive.
   */
  lemma {:induction false} EverySagaCanSettle(w: World, o: OrderId) returns (steps: seq<Step>)
    requires Reachable(w) && SagaEvents(w, o) != [] && !Settled(SagaOf(SagaEvents(w, o)))
    ensures steps != [] && steps[0] == Resume(o, |SagaEvents(w, o)|)
    ensures Needed(After(w, steps[0]), steps[1..], o) && (Positive(RowsOf(w, o)) ==> Deliveries(steps[1..]))
    ensures Possible(w, steps) && Reachable(AfterAll(w, steps)) && Undisturbed(w, AfterAll(w, steps), o)
    ensures SalesEvents(AfterAll(w, steps), o) == SalesEvents(w, o)
    ensures Settled(SagaOf(SagaEvents(AfterAll(w, steps), o))) && Prompted(AfterAll(w, steps), o)
  {
    hide Reachable, SagaOf, Settled, Clean, Possible, AfterAll, Verdict, Drive, After, Enabled, Needed, Positive, Prompted;
    var first := Resume(o, |SagaEvents(w, o)|);
    ResumingPrompts(w, o);
    FirstStepIsPossible(w, first);
    PossibleIsReachable(w, [first]);
    var w1 := After(w, first);
    UndisturbedAtFirst(w1, o);
    var rest := DriveToTheEnd(w, w1, o);
    steps := [first] + rest;
    StepsCompose(w, [first], rest);
    PossibleIsReachable(w, steps);
    assert steps[1..] == rest;
  }

  // ---- from placing to the end ----

  /** Orders come from clients only. */
  lemma OnlyClientsOrder(w: World, step: Step, m: Message)
    requires step != Place(m) && StepReaction(w, step).Reaction? && m in Announcements(StepReaction(w, step))
    ensures !m.CreateSalesOrder?
  {
    hide SagaOf, DecideStart, DecideSucceeded, DecideFailed, DecideCompensated, ToCompensate, NextPending;
    hide DecideProduction, DecideAllocation, DecideCompensation;
  }

  /** No order was placed on the way from `w` to `w'`. */
  ghost predicate SameOrders(w: World, w': World) {
    forall o, h, rows :: Message.CreateSalesOrder(o, h, rows) in w'.sent ==> Message.CreateSalesOrder(o, h, rows) in w.sent
  }

  lemma StepPlacesNothing(w: World, step: Step)
    requires step.Place? ==> !step.m.CreateSalesOrder?
    ensures SameOrders(w, After(w, step))
  {
    hide StepReaction, Announcements, ProducedAfter;
    var w1 := After(w, step);
    forall o, h, rows | Message.CreateSalesOrder(o, h, rows) in w1.sent
      ensures Message.CreateSalesOrder(o, h, rows) in w.sent
    {
      if Message.CreateSalesOrder(o, h, rows) !in w.sent {
        OnlyClientsOrder(w, step, Message.CreateSalesOrder(o, h, rows));
      }
    }
  }

  lemma {:induction false} RunPlacesNothing(w: World, steps: seq<Step>)
    requires forall i | 0 <= i < |steps| && steps[i].Place? :: !steps[i].m.CreateSalesOrder?
    ensures SameOrders(w, AfterAll(w, steps))
    decreases |steps|
  {
    hide After;
    if steps == [] {
      NoSteps(w);
    } else {
      StepPlacesNothing(w, steps[0]);
      RunPlacesNothing(After(w, steps[0]), steps[1..]);
    }
  }

  lemma {:induction false} StartingIsClean(v: World, o: OrderId, rows: seq<Row>)
    requires Reachable(v) && OrderPlaced(o, rows) in v.sent && SagaEvents(v, o) == []
    ensures var w := After(v, Deliver(OrderPlaced(o, rows)));
            && SagaEvents(w, o) == DecideStart(o, rows)
            && (forall id | id != SagaStream(o) :: Stream(w.streams, id) == Stream(v.streams, id))
            && Clean(w, o)
  {
    hide Reachable, SagaOf, Verdict, NextAllocation, Inv;
    var w := After(v, Deliver(OrderPlaced(o, rows)));
    ReachableInv(v);
    GrowExtends(v.streams, SagaStream(o), DecideStart(o, rows));
    assert [] + DecideStart(o, rows) == DecideStart(o, rows);
    forall b ensures CleanBeer(w, o, b) {
      assert StockStream(w, b) == StockStream(v, b);
      forall i | 0 <= i < |StockStream(v, b)| ensures !About(StockStream(v, b)[i], o) {
        NoTraceBeforeStart(v, o, b, i);
      }
    }
  }

  lemma StartingPrompts(v: World, o: OrderId, rows: seq<Row>)
    requires SagaEvents(v, o) == []
    ensures Prompted(After(v, Deliver(OrderPlaced(o, rows))), o)
  {
    hide SagaOf, NextAllocation, Verdict, NextPending;
    var step := Deliver(OrderPlaced(o, rows));
    var ds, e := DecideStart(o, rows), OrderAllocationStarted(o, rows);
    var s, r := SagaOf(ds), React(v.streams, OrderPlaced(o, rows));
    GrowExtends(v.streams, SagaStream(o), ds);
    assert [] + ds == ds;
    SagaOfFirst(e);
    if rows == [] {
      assert ds == [e] + [OrderAllocationCompleted(o)];
      SagaOfSnoc([e], OrderAllocationCompleted(o));
      EndedSagaIsIdle(s);
    } else {
      assert ds == [e];
    }
    assert r.sends == if s.status == Completed then Verdict(s) else Drive(s);
    forall m | m in r.sends ensures m in After(v, step).sent {
      var i :| 0 <= i < |r.sends| && r.sends[i] == m;
      assert Announcements(r)[|r.events| + i] == m;
    }
  }

  /** Starting a saga puts its first allocation command on the bus. */
  lemma StartingAsks(v: World, o: OrderId, rows: seq<Row>)
    requires SagaEvents(v, o) == [] && rows != []
    ensures UpdateAvailabilityDueToSalesOrder(rows[0].beer, rows[0].quantity, o)
            in After(v, Deliver(OrderPlaced(o, rows))).sent
    ensures DecideStart(o, rows) == [OrderAllocationStarted(o, rows)]
    ensures NextPending(SagaOf([OrderAllocationStarted(o, rows)])) == Some(rows[0])
  {
    hide SagaOf, Verdict;
    SagaOfFirst(OrderAllocationStarted(o, rows));
    FirstRowWaits(Fresh(rows));
    assert DecideStart(o, rows) == [OrderAllocationStarted(o, rows)];
    var s := SagaOf([OrderAllocationStarted(o, rows)]);
    assert s.order == o && s.status == Running && NextPending(s) == Some(rows[0]);
    var r := React(v.streams, OrderPlaced(o, rows));
    assert r.sends == [UpdateAvailabilityDueToSalesOrder(rows[0].beer, rows[0].quantity, o)];
    assert Announcements(r)[|r.events|] == r.sends[0];
  }

  lemma FirstRowWaits(rows: seq<SagaRow>)
    requires rows != [] && rows[0].state == Pending
    ensures FirstPending(rows) == 0
  {
  }

  /** A saga that was just started is served by itself so far. */
  lemma {:induction false} StartingIsSmooth(v: World, o: OrderId, rows: seq<Row>)
    requires Reachable(v) && OrderPlaced(o, rows) in v.sent && SagaEvents(v, o) == [] && !Stuck(v, rows)
    ensures var w := After(v, Deliver(OrderPlaced(o, rows))); Served(v, w, o) && Smooth(v, w, o) && RowsOf(w, o) == rows
  {
    hide Reachable, Inv, Clean, Stuck, StockOf, NetTaken, React, SagaOf;
    var first := Deliver(OrderPlaced(o, rows));
    var w := After(v, first);
    ReachableInv(v);
    StartingIsClean(v, o, rows);
    FirstStepIsPossible(v, first);
    PossibleIsReachable(v, [first]);
    assert RowsOf(w, o) == rows;
    forall b ensures TakenMatchesHold(w, b, StockStream(w, b), o) {
      assert StockStream(w, b) == StockStream(v, b);
      forall i | 0 <= i < |StockStream(v, b)| ensures !About(StockStream(v, b)[i], o) {
        NoTraceBeforeStart(v, o, b, i);
      }
      Untouched(StockStream(v, b), o);
    }
  }

  /** The whole stock effect of a served order whose history is straight. */
  lemma StraightIsAtomic(v: World, w: World, o: OrderId, b: BeerId)
    requires Inv(v) && SagaEvents(v, o) == [] && Undisturbed(v, w, o) && Straight(w, o)
    requires o !in StockOf(StockStream(w, b)).held
    ensures Available(w, b) == Available(v, b)
  {
    hide Inv, StockOf, NetTaken, Undisturbed;
    assert TakenMatchesHold(w, b, StockStream(w, b), o);
    StockMovement(v, w, o, b);
  }

  /**
   An order that was placed and is served by itself is all or nothing, whatever its rows, unless it is stuck.  Its saga
   runs to the end; it completes exactly if the order fits the stock of the moment it was placed, and then each beer
   loses exactly its first row; otherwise it is rejected and every beer's quantity and holds are what they were.
   */
  lemma {:induction false} PlacedOrderIsAllOrNothing(v: World, o: OrderId, rows: seq<Row>) returns (steps: seq<Step>)
    requires Reachable(v) && OrderPlaced(o, rows) in v.sent && SagaEvents(v, o) == [] && !Stuck(v, rows)
    ensures Possible(v, steps) && Deliveries(steps) && steps != [] && steps[0] == Deliver(OrderPlaced(o, rows))
    ensures ServedAlone(v, AfterAll(v, steps), o) && RowsOf(AfterAll(v, steps), o) == rows
    ensures Prompted(AfterAll(v, steps), o) && SalesEvents(AfterAll(v, steps), o) == SalesEvents(v, o)
    ensures var w := AfterAll(v, steps);
            && (SagaOf(SagaEvents(w, o)).status == Completed <==> Fits(v, rows))
            && (forall b :: Available(w, b) == Available(v, b) - (if Fits(v, rows) then QuantityFor(rows, b) else 0))
            && (!Fits(v, rows) ==> forall b :: StockOf(StockStream(w, b)).held == StockOf(StockStream(v, b)).held)
  {
    hide Reachable, SagaOf, Settled, StockOf, QuantityFor, NeverTimedOut, AnsweredOnce, Fits, Available, Straight, Stuck;
    hide Undisturbed, After, CleanBeer, Prompted, RowsOf, AfterAll, Possible, Inv, PutBack, Breakable;
    var first := Deliver(OrderPlaced(o, rows));
    var w := After(v, first);
    StartingIsSmooth(v, o, rows);
    StartingPrompts(v, o, rows);
    FirstStepIsPossible(v, first);
    var rest := DriveToTheEnd(v, w, o);
    var w' := AfterAll(w, rest);
    steps := [first] + rest;
    StepsCompose(v, [first], rest);
    forall b ensures AnsweredOnce(StockStream(w', b), o) {
      CleanIsAnsweredOnce(w', o, b);
    }
    SettledIsAllOrNothing(v, w', o);
    if !Fits(v, rows) {
      ReachableInv(v);
      forall b ensures Available(w', b) == Available(v, b) {
        NotHeldBeforeStart(v, o, b);
        StraightIsAtomic(v, w', o, b);
      }
    }
  }

  lemma CreatedFirst(w: World, o: OrderId, h: Header, rows: seq<Row>)
    requires SalesCaused(w, o) && Created(SalesEvents(w, o), o, h, rows)
    ensures SalesEvents(w, o) != [] && SalesEvents(w, o)[0] == SalesOrderCreated(o, h, rows)
  {
    hide Justified;
  }

  /** A saga is started with the rows that were announced when its order was placed. */
  lemma {:induction false} StartedAsPlaced(v: World, w: World, o: OrderId, rows: seq<Row>)
    requires Inv(v) && Inv(w) && Extends(v.streams, w.streams)
    requires OrderPlaced(o, rows) in v.sent && SagaEvents(w, o) != []
    ensures RowsOf(w, o) == rows
  {
    hide SagaOf, Legal, Shaped;
    assert Justified(v.streams, OrderPlaced(o, rows)) && SalesCaused(v, o);
    var h :| Created(SalesEvents(v, o), o, h, rows);
    var es := SagaEvents(w, o);
    SagaIsLegal(w, o);
    StartsWithStarted(o, es);
    assert SagaCaused(w.streams, o, es[0]) && SalesCaused(w, o);
    var h' :| Created(SalesEvents(w, o), o, h', es[0].rows);
    hide Inv, Justified;
    CreatedFirst(v, o, h, rows);
    CreatedFirst(w, o, h', es[0].rows);
    assert Stream(v.streams, SalesOrderStream(o)) <= Stream(w.streams, SalesOrderStream(o));
  }

  /** A placed order can be served to its end by itself, without the watchdog, exactly if it is not stuck. */
  lemma {:induction false} CanBeServedIffNotStuck(v: World, o: OrderId, rows: seq<Row>)
    requires Reachable(v) && OrderPlaced(o, rows) in v.sent && SagaEvents(v, o) == []
    ensures (exists w :: LeadsTo(v, w) && ServedAlone(v, w, o)) <==> !Stuck(v, rows)
  {
    hide Reachable, LeadsTo, ServedAlone, Stuck, AfterAll, Possible, Prompted, SagaOf, StockOf, QuantityFor, RowsOf;
    if !Stuck(v, rows) {
      var steps := PlacedOrderIsAllOrNothing(v, o, rows);
      PossibleLeads(v, steps);
    }
    if w :| LeadsTo(v, w) && ServedAlone(v, w, o) {
      ServedHasTheRows(v, w, o, rows);
      ServedIsNotStuck(v, w, o);
    }
  }

  lemma ServedHasTheRows(v: World, w: World, o: OrderId, rows: seq<Row>)
    requires Reachable(v) && OrderPlaced(o, rows) in v.sent && ServedAlone(v, w, o)
    ensures RowsOf(w, o) == rows
  {
    hide Reachable, RowsOf, Inv, About, NeverTimedOut, AnsweredOnce;
    ReachableInv(v);
    ReachableInv(w);
    StartedAsPlaced(v, w, o, rows);
  }

  lemma CleanIsAnsweredOnce(w: World, o: OrderId, b: BeerId)
    requires Clean(w, o)
    ensures AnsweredOnce(StockStream(w, b), o)
  {
    assert CleanBeer(w, o, b);
  }

  lemma UndisturbedAtFirst(w: World, o: OrderId)
    ensures Undisturbed(w, w, o)
  {
  }

  // ---- and back to sales ----

  /** What the settlement of an order records, given how its saga ended. */
  function Settlement(s: Saga): Event {
    if s.status == Completed then SalesOrderAllocated(s.order) else SalesOrderAllocationRejected(s.order, s.reason)
  }

  /** An announced outcome settles an order that is not settled yet. */
  lemma {:induction false} OutcomeSettlesTheOrder(w: World, o: OrderId) returns (steps: seq<Step>)
    requires Reachable(w) && Settled(SagaOf(SagaEvents(w, o))) && Prompted(w, o) && |SalesEvents(w, o)| == 1
    ensures Possible(w, steps) && Deliveries(steps)
    ensures SalesEvents(AfterAll(w, steps), o) == SalesEvents(w, o) + [Settlement(SagaOf(SagaEvents(w, o)))]
    ensures forall id | id != SalesOrderStream(o) :: Stream(AfterAll(w, steps).streams, id) == Stream(w.streams, id)
  {
    hide Reachable, SagaOf, Inv, Justified, OrderOf, Drive, Legal, Shaped;
    ReachableInv(w);
    OrderIsCreated(w, o);
    SagaIsLegal(w, o);
    LegalShaped(o, SagaEvents(w, o));
    var s, es := SagaOf(SagaEvents(w, o)), SalesEvents(w, o);
    assert s.status != Unstarted ==> s.order == o;
    OrderStreamState(o, es);
    var told := Verdict(s)[0];
    assert told in Verdict(s);
    var mark := if s.status == Completed then MarkSalesOrderAllocated(o)
                else MarkSalesOrderAllocationRejected(o, s.reason);
    steps := [Deliver(told), Deliver(mark)];
    var w1 := After(w, steps[0]);
    assert w1.streams == w.streams && mark in w1.sent by {
      assert React(w.streams, told) == Reaction([], [mark]);
      assert Announcements(Reaction([], [mark])) == [mark];
    }
    assert React(w1.streams, mark) == Reaction([Settlement(s)], []);
    TwoAtOnce(w, steps);
  }

  lemma OrderIsCreated(w: World, o: OrderId)
    requires Inv(w) && |SalesEvents(w, o)| == 1
    ensures SalesEvents(w, o)[0].SalesOrderCreated? && SalesEvents(w, o)[0].order == o
  {
    hide Justified;
    assert SalesCaused(w, o);
  }

  /** An order whose saga has not started was created and not settled. */
  lemma PlacedOrderIsUnsettled(v: World, o: OrderId, rows: seq<Row>)
    requires Reachable(v) && OrderPlaced(o, rows) in v.sent && SagaEvents(v, o) == []
    ensures |SalesEvents(v, o)| == 1
  {
    hide Reachable;
    ReachableInv(v);
    assert Justified(v.streams, OrderPlaced(o, rows)) && SalesCaused(v, o);
  }

  /**
   From the placed order to the settled one: delivering what the system sends settles the sales order as allocated
   exactly if the order fitted the stock, and as rejected otherwise, and the stock has changed as that says.
   */
  lemma {:induction false} PlacedOrderIsSettledInSales(v: World, o: OrderId, rows: seq<Row>) returns (steps: seq<Step>)
    requires Reachable(v) && OrderPlaced(o, rows) in v.sent && SagaEvents(v, o) == [] && !Stuck(v, rows)
    ensures Possible(v, steps) && Deliveries(steps)
    ensures var w := AfterAll(v, steps);
            && |SalesEvents(w, o)| == 2 && SalesEvents(v, o) <= SalesEvents(w, o)
            && (SalesEvents(w, o)[1] == SalesOrderAllocated(o) <==> Fits(v, rows))
            && (SalesEvents(w, o)[1].SalesOrderAllocationRejected? <==> !Fits(v, rows))
            && (forall b :: Available(w, b) == Available(v, b) - (if Fits(v, rows) then QuantityFor(rows, b) else 0))
  {
    hide Reachable, SagaOf, StockOf, QuantityFor, Stuck, Fits, Prompted, Possible, AfterAll, Inv;
    PlacedOrderIsUnsettled(v, o, rows);
    var served := PlacedOrderIsAllOrNothing(v, o, rows);
    var w := AfterAll(v, served);
    PossibleIsReachable(v, served);
    var told := OutcomeSettlesTheOrder(w, o);
    steps := served + told;
    StepsCompose(v, served, told);
    SettledSagaHasItsOrder(w, o);
    assert forall b :: StockStream(AfterAll(v, steps), b) == StockStream(w, b);
  }

  lemma SettledSagaHasItsOrder(w: World, o: OrderId)
    requires Reachable(w) && Settled(SagaOf(SagaEvents(w, o)))
    ensures SagaOf(SagaEvents(w, o)).order == o
  {
    hide Reachable, SagaOf, Inv, Legal, Shaped;
    ReachableInv(w);
    SagaIsLegal(w, o);
    LegalShaped(o, SagaEvents(w, o));
  }
}
