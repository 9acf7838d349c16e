/** The saga runner: reactions to step events, resuming after a restart, and the step-timeout watchdog. */
module SagaHandlers {
  import opened Messages
  import opened AllocationSaga
  import opened SagaLaws
  import opened Reactions
  import opened EventStore
  import opened Soundness
  import opened Handlers
  import opened DurableExecution

  /** A save followed by sending performs the reaction made of both. */
  lemma SavedThenSent(before: Streams, after: Streams, sent0: seq<Message>, sent1: seq<Message>, sent2: seq<Message>,
                      id: StreamId, batch: seq<Event>, sends: seq<Message>, saved: Outcome, r: Outcome)
    requires batch != [] && Saved(before, after, sent0, sent1, id, |Stream(before, id)|, batch, saved)
    requires saved.Failure? ==> r == saved && sent2 == sent1
    requires saved.Done? ==> r in {Done, Failure(BusFailure)} && sent1 <= sent2 <= sent1 + sends
    requires saved.Done? && r.Done? ==> sent2 == sent1 + sends
    ensures Performed(before, after, sent0, sent2, id, Reaction(batch, sends), r)
  {
    var reaction := Reaction(batch, sends);
    assert sent0 + Announcements(reaction) == sent0 + Published(batch) + sends;
  }

  /** A saga that has just recorded a success and is not complete has a row left to allocate. */
  lemma AfterSuccess(order: OrderId, es: seq<Event>, beer: BeerId)
    requires Legal(order, es) && DecideSucceeded(SagaOf(es), beer) != []
    ensures var s := SagaOf(es + DecideSucceeded(SagaOf(es), beer));
            s.order == order && (s.status != Completed ==> NextPending(s).Some?)
  {
    var s := SagaOf(es);
    var ds, e := DecideSucceeded(s, beer), AllocationStepSucceeded(s.order, beer);
    LegalShaped(order, es);
    SagaOfSnoc(es, e);
    if |ds| == 2 {
      assert es + ds == es + [e] + [ds[1]];
      SagaOfSnoc(es + [e], ds[1]);
    }
  }

  lemma AfterFailure(order: OrderId, es: seq<Event>, beer: BeerId, reason: Reason)
    requires Legal(order, es) && DecideFailed(SagaOf(es), beer, reason) != []
    ensures SagaOf(es + DecideFailed(SagaOf(es), beer, reason)).order == order
  {
    LegalShaped(order, es);
    KeepsOrder(es, DecideFailed(SagaOf(es), beer, reason));
  }

  lemma AfterCompensation(order: OrderId, es: seq<Event>, beer: BeerId)
    requires Legal(order, es) && DecideCompensated(SagaOf(es), beer) != []
    ensures SagaOf(es + DecideCompensated(SagaOf(es), beer)).order == order
  {
    LegalShaped(order, es);
    KeepsOrder(es, DecideCompensated(SagaOf(es), beer));
  }

  /** Only a Started event names the saga. */
  lemma {:induction false} KeepsOrder(es: seq<Event>, more: seq<Event>)
    requires forall i | 0 <= i < |more| :: !more[i].OrderAllocationStarted?
    ensures SagaOf(es + more).order == SagaOf(es).order
  {
    hide SagaOf, SetRow;
    if more == [] {
      assert es + more == es;
    } else {
      var n := |more| - 1;
      KeepsOrder(es, more[..n]);
      SagaOfSnoc(es + more[..n], more[n]);
      assert es + more == es + more[..n] + [more[n]];
    }
  }

  lemma FreshSagaRuns(order: OrderId, rows: seq<Row>)
    ensures DecideStart(order, rows) != []
    ensures var s := SagaOf(DecideStart(order, rows));
            s.order == order && (s.status != Completed ==> NextPending(s).Some?)
  {
    StartKeepsLaws(order, rows);
    LegalShaped(order, DecideStart(order, rows));
    SagaOfSnoc([], OrderAllocationStarted(order, rows));
    assert [] + [OrderAllocationStarted(order, rows)] == [OrderAllocationStarted(order, rows)];
    if rows == [] {
      SagaOfSnoc([OrderAllocationStarted(order, rows)], OrderAllocationCompleted(order));
    } else {
      assert SagaOf(DecideStart(order, rows)).rows[0].state == Pending;
    }
  }

  datatype FollowUp = AllocateNext | CompensateAll | Nothing

  function Following(s: Saga, final: Status, next: FollowUp): seq<Message> {
    if s.status == final then Verdict(s)
    else match next
         case AllocateNext => NextAllocation(s)
         case CompensateAll => Compensations(ToCompensate(s), s.order)
         case Nothing => []
  }

  /** The three things a sweep can do to an in-flight saga. */
  lemma SweepCases(order: OrderId, stored: seq<StoredEvent>, cutoff: nat)
    requires var es := Payloads(stored); Legal(order, es) && Rested(SagaOf(es)) && InFlight(SagaOf(es))
    ensures stored != []
    ensures var es := Payloads(stored);
            var s := SagaOf(es);
            && s.order == order
            && (!Stale(stored, cutoff) ==> Sweep(stored, cutoff) == NOTHING)
            && (Stale(stored, cutoff) && s.status == Compensating ==>
                  Sweep(stored, cutoff) == Reaction([], Compensations(ToCompensate(s), order)))
            && (Stale(stored, cutoff) && s.status == Running ==>
                  && NextPending(s).Some?
                  && Sweep(stored, cutoff) == OnFailed(es, NextPending(s).value.beer, TimedOut)
                  && OnFailed(es, NextPending(s).value.beer, TimedOut).events != [])
  {
    var es := Payloads(stored);
    var s := SagaOf(es);
    LegalShaped(order, es);
    if Stale(stored, cutoff) && s.status == Running {
      FirstPendingFails(order, es, TimedOut);
    }
  }

  lemma NothingDiffers(streams: map<StreamId, seq<StoredEvent>>, id: StreamId)
    ensures SameBut(streams, streams, id)
  {
  }

  /** A recorded failure, and what the saga in its new state `t` does about it. */
  lemma FailureReaction(es: seq<Event>, beer: BeerId, reason: Reason, t: Saga)
    requires t == SagaOf(es + DecideFailed(SagaOf(es), beer, reason))
    ensures var ds := DecideFailed(SagaOf(es), beer, reason);
            OnFailed(es, beer, reason)
            == if ds == [] then NOTHING else Reaction(ds, Following(t, Rejected, CompensateAll))
  {
    hide SagaOf, DecideFailed, Verdict, Compensations, ToCompensate;
  }

  lemma SuccessReaction(es: seq<Event>, beer: BeerId, t: Saga)
    requires t == SagaOf(es + DecideSucceeded(SagaOf(es), beer))
    ensures var ds := DecideSucceeded(SagaOf(es), beer);
            OnAllocated(es, beer) == if ds == [] then NOTHING else Reaction(ds, Following(t, Completed, AllocateNext))
  {
    hide SagaOf, DecideSucceeded, Verdict, NextAllocation;
  }

  lemma CompensationReaction(es: seq<Event>, beer: BeerId, t: Saga)
    requires t == SagaOf(es + DecideCompensated(SagaOf(es), beer))
    ensures var ds := DecideCompensated(SagaOf(es), beer);
            OnCompensated(es, beer) == if ds == [] then NOTHING else Reaction(ds, Following(t, Rejected, Nothing))
  {
    hide SagaOf, DecideCompensated, Verdict;
  }

  class OrderAllocationSagaHandler {
    const store: InMemoryEventStore
    const bus: ServiceBus

    constructor (store: InMemoryEventStore, bus: ServiceBus)
      ensures this.store == store && this.bus == bus
    {
      this.store, this.bus := store, bus;
    }

    twostate predicate Does(id: StreamId, reaction: Reaction, r: Outcome)
      reads store, bus
    {
      && Performed(old(store.Events()), store.Events(), old(bus.sent), bus.sent, id, reaction, r)
      && bus.failures >= old(bus.failures) && (r == Failure(BusFailure) <==> bus.failures > old(bus.failures))
    }

    /** No stream but `id` was touched. */
    twostate predicate OnlyGrew(id: StreamId)
      reads store
    {
      SameBut(old(store.streams), store.streams, id)
    }

    /** Some or, on success, all of the messages were sent, in order. */
    twostate predicate Sends(ms: seq<Message>, r: Outcome)
      reads bus
    {
      && r in {Done, Failure(BusFailure)}
      && old(bus.sent) <= bus.sent <= old(bus.sent) + ms
      && (r.Done? ==> bus.sent == old(bus.sent) + ms && bus.failures == old(bus.failures))
      && (r.Failure? ==> bus.failures > old(bus.failures))
    }

    method SendNextAllocation(saga: OrderAllocationSaga) returns (r: Outcome)
      modifies bus
      ensures NextPending(saga.State()).Some? ==> Sends(NextAllocation(saga.State()), r)
      ensures NextPending(saga.State()).None? ==> r == Failure(BrokenSaga) && bus.sent == old(bus.sent)
    {
      var row := saga.NextPendingRow();
      match row {
        case None => return Failure(BrokenSaga);
        case Some(data) => r := bus.Send(UpdateAvailabilityDueToSalesOrder(data.beer, data.quantity, saga.salesOrderId));
      }
    }

    /** Dispatches the compensating transaction of every row still holding stock. */
    method SendCompensations(saga: OrderAllocationSaga) returns (r: Outcome)
      modifies bus
      ensures Sends(Compensations(ToCompensate(saga.State()), saga.salesOrderId), r)
      ensures r.Done? && saga.status == Compensating ==> exists picked, at ::
                PicksAllocated(saga.rows, picked, at)
                && bus.sent == old(bus.sent) + bus.sent[|old(bus.sent)|..]
                && Undoes(bus.sent[|old(bus.sent)|..], saga.salesOrderId, picked)
    {
      var rows := saga.RowsToCompensate();
      ghost var all := Compensations(rows, saga.salesOrderId);
      for i := 0 to |rows|
        invariant bus.sent == old(bus.sent) + all[..i] && bus.failures == old(bus.failures)
      {
        r := bus.Send(CompensateAvailability(rows[i].beer, rows[i].quantity, saga.salesOrderId));
        if r.Failure? {
          assert all == all[..i] + all[i..];
          return;
        }
        assert all[..i + 1] == all[..i] + [all[i]];
      }
      assert all[..|rows|] == all;
      assert bus.sent[|old(bus.sent)|..] == all && Undoes(all, saga.salesOrderId, rows);
      return Done;
    }

    method PublishOutcome(saga: OrderAllocationSaga) returns (r: Outcome)
      modifies bus
      ensures Sends(Verdict(saga.State()), r)
    {
      if saga.status == Completed {
        r := bus.Send(AllocationCompleted(saga.salesOrderId));
      } else {
        r := bus.Send(AllocationRejected(saga.salesOrderId, saga.reason));
      }
    }

    method FollowThrough(saga: OrderAllocationSaga, final: Status, next: FollowUp) returns (r: Outcome)
      requires saga.status != final && next == AllocateNext ==> NextPending(saga.State()).Some?
      modifies bus
      ensures Sends(Following(saga.State(), final, next), r)
    {
      r := Done;
      if saga.status == final {
        r := PublishOutcome(saga);
      } else if next == AllocateNext {
        r := SendNextAllocation(saga);
      } else if next == CompensateAll {
        r := SendCompensations(saga);
      }
    }

    /** How every saga handler ends: save the transition, then announce a final status or ask for what comes next. */
    method Conclude(saga: OrderAllocationSaga, final: Status, next: FollowUp, ghost order: OrderId, ghost es: seq<Event>)
      returns (r: Outcome)
      requires store.Valid() && saga.Valid() && saga.uncommitted != [] && saga.history == es + saga.uncommitted
      requires es == Stream(store.Events(), SagaStream(order)) && saga.salesOrderId == order
      requires saga.status != final && next == AllocateNext ==> NextPending(saga.State()).Some?
      modifies store`streams, store`appended, bus, saga`uncommitted
      ensures store.Valid() && OnlyGrew(SagaStream(order))
      ensures Does(SagaStream(order), Reaction(old(saga.uncommitted), Following(saga.State(), final, next)), r)
    {
      ghost var batch := saga.uncommitted;
      r := SaveSaga(store, bus, saga);
      ghost var saved, sent1 := r, bus.sent;
      if r.Done? {
        r := FollowThrough(saga, final, next);
      }
      SavedThenSent(old(store.Events()), store.Events(), old(bus.sent), sent1, bus.sent, SagaStream(order), batch,
                    Following(saga.State(), final, next), saved, r);
    }

    /** Starts the saga; a redelivered trigger leaves it alone. */
    method HandleOrderPlaced(order: OrderId, rows: seq<Row>) returns (r: Outcome)
      requires store.Valid() && Legal(order, Stream(store.Events(), SagaStream(order)))
      modifies store, bus
      ensures store.Valid()
      ensures var id := SagaStream(order); Does(id, OnOrderPlaced(Stream(old(store.Events()), id), order, rows), r)
    {
      hide DecideStart, SagaOf, Legal, Verdict, NextAllocation, NextPending;
      var found, _ := GetSaga(store, order);
      if found {
        return Done;
      }
      var saga := StartOrderAllocation(order, rows);
      FreshSagaRuns(order, rows);
      assert OnOrderPlaced([], order, rows)
        == Reaction(saga.uncommitted, Following(saga.State(), Completed, AllocateNext));
      r := Conclude(saga, Completed, AllocateNext, order, []);
    }

    /** Records a successful step of a loaded saga and asks for the next row. */
    method SucceedStep(saga: OrderAllocationSaga, beer: BeerId, ghost order: OrderId, ghost es: seq<Event>)
      returns (r: Outcome)
      requires store.Valid() && saga.Valid() && saga.uncommitted == [] && saga.history == es
      requires es == Stream(store.Events(), SagaStream(order)) && Legal(order, es)
      modifies store`streams, store`appended, bus, saga
      ensures store.Valid() && Does(SagaStream(order), OnAllocated(es, beer), r)
    {
      hide DecideSucceeded, OnAllocated, Following, SagaOf, Legal, Performed, NextPending, Payloads, SameBut;
      hide InMemoryEventStore.Events, InMemoryEventStore.Valid, OrderAllocationSaga.Valid, OrderAllocationSaga.Replayed;
      saga.IsReplayed();
      var changed := saga.RecordAllocationSucceeded(beer);
      saga.IsReplayed();
      SuccessReaction(es, beer, saga.State());
      if changed {
        AfterSuccess(order, es, beer);
        assert saga.uncommitted == DecideSucceeded(SagaOf(es), beer);
        r := Conclude(saga, Completed, AllocateNext, order, es);
      } else {
        r := Ignore(SagaStream(order));
      }
    }

    /** Advances the saga after a successful step. */
    method HandleBeerAvailabilityUpdated(order: OrderId, beer: BeerId) returns (r: Outcome)
      requires store.Valid() && Legal(order, Stream(store.Events(), SagaStream(order)))
      modifies store, bus
      ensures store.Valid()
      ensures var id := SagaStream(order); Does(id, OnAllocated(Stream(old(store.Events()), id), beer), r)
    {
      var _, saga := GetSaga(store, order);
      r := SucceedStep(saga, beer, order, saga.history);
    }

    /** A handler that has nothing to do. */
    method Ignore(ghost id: StreamId) returns (r: Outcome)
      requires store.Valid()
      ensures r == Done && Does(id, NOTHING, r)
    {
      assert Grow(store.Events(), id, []) == store.Events();
      r := Done;
    }

    /** Records a failed step of a loaded saga and starts undoing what it holds. */
    method FailStep(saga: OrderAllocationSaga, beer: BeerId, reason: Reason, ghost order: OrderId, ghost es: seq<Event>)
      returns (r: Outcome)
      requires store.Valid() && saga.Valid() && saga.uncommitted == [] && saga.history == es
      requires es == Stream(store.Events(), SagaStream(order)) && Legal(order, es)
      modifies store`streams, store`appended, bus, saga
      ensures store.Valid() && OnlyGrew(SagaStream(order))
      ensures Does(SagaStream(order), OnFailed(es, beer, reason), r)
      ensures OnFailed(es, beer, reason) == NOTHING ==> store.streams == old(store.streams)
    {
      hide DecideFailed, OnFailed, Following, SagaOf, Legal, Performed, NextPending, Payloads, SameBut;
      hide InMemoryEventStore.Events, InMemoryEventStore.Valid, OrderAllocationSaga.Valid, OrderAllocationSaga.Replayed;
      saga.IsReplayed();
      var changed := saga.RecordQuantityNotFound(beer, reason);
      saga.IsReplayed();
      FailureReaction(es, beer, reason, saga.State());
      if changed {
        AfterFailure(order, es, beer, reason);
        assert saga.uncommitted == DecideFailed(SagaOf(es), beer, reason);
        r := Conclude(saga, Rejected, CompensateAll, order, es);
      } else {
        NothingDiffers(store.streams, SagaStream(order));
        r := Ignore(SagaStream(order));
      }
    }

    /** A shortage flips the saga into backward recovery. */
    method HandleQuantityNotFound(order: OrderId, beer: BeerId, requested: int, available: int) returns (r: Outcome)
      requires store.Valid() && Legal(order, Stream(store.Events(), SagaStream(order)))
      modifies store, bus
      ensures store.Valid()
      ensures var id := SagaStream(order);
              Does(id, OnFailed(Stream(old(store.Events()), id), beer, Shortage(beer, requested, available)), r)
    {
      var _, saga := GetSaga(store, order);
      r := FailStep(saga, beer, Shortage(beer, requested, available), order, saga.history);
    }

    /** Records that a row of a loaded saga was undone. */
    method ReleaseStep(saga: OrderAllocationSaga, beer: BeerId, ghost order: OrderId, ghost es: seq<Event>)
      returns (r: Outcome)
      requires store.Valid() && saga.Valid() && saga.uncommitted == [] && saga.history == es
      requires es == Stream(store.Events(), SagaStream(order)) && Legal(order, es)
      modifies store`streams, store`appended, bus, saga
      ensures store.Valid() && Does(SagaStream(order), OnCompensated(es, beer), r)
    {
      hide DecideCompensated, OnCompensated, Following, SagaOf, Legal, Performed, NextPending, Payloads, SameBut;
      hide InMemoryEventStore.Events, InMemoryEventStore.Valid, OrderAllocationSaga.Valid, OrderAllocationSaga.Replayed;
      saga.IsReplayed();
      var changed := saga.RecordCompensated(beer);
      saga.IsReplayed();
      CompensationReaction(es, beer, saga.State());
      if changed {
        AfterCompensation(order, es, beer);
        assert saga.uncommitted == DecideCompensated(SagaOf(es), beer);
        r := Conclude(saga, Rejected, Nothing, order, es);
      } else {
        r := Ignore(SagaStream(order));
      }
    }

    /** Closes one compensating transaction; the last one rejects the order. */
    method HandleAvailabilityCompensated(order: OrderId, beer: BeerId) returns (r: Outcome)
      requires store.Valid() && Legal(order, Stream(store.Events(), SagaStream(order)))
      modifies store, bus
      ensures store.Valid()
      ensures var id := SagaStream(order); Does(id, OnCompensated(Stream(old(store.Events()), id), beer), r)
    {
      var _, saga := GetSaga(store, order);
      r := ReleaseStep(saga, beer, order, saga.history);
    }

    // ---- durable execution ----

    /** An unfinished saga as loaded from the stream `es`. */
    ghost predicate Loaded(saga: OrderAllocationSaga, order: OrderId, es: seq<Event>)
      reads saga
    {
      && saga.Valid() && saga.uncommitted == [] && saga.salesOrderId == order && saga.history == es
      && Legal(order, es) && Rested(saga.State()) && InFlight(saga.State())
    }

    /** The saga of this order is stored and unfinished. */
    ghost predicate Unfinished(order: OrderId)
      reads store
    {
      SagaStream(order) in store.streams && InFlight(SagaOf(Payloads(store.streams[SagaStream(order)])))
    }

    method LoadOne(order: OrderId) returns (saga: OrderAllocationSaga, wanted: bool)
      requires SagasSound(store.Events()) && SagaStream(order) in store.streams
      ensures fresh(saga) && wanted == Unfinished(order)
      ensures wanted ==> Loaded(saga, order, Payloads(store.streams[SagaStream(order)]))
    {
      hide SagaOf, Legal, Rested;
      assert SagaStream(order) in store.Events();
      var _, loaded := GetSaga(store, order);
      saga := loaded;
      LegalShaped(order, saga.history);
      wanted := saga.status == Running || saga.status == Compensating;
    }

    /** The orders that have a saga stream. */
    method StoredOrders() returns (keys: seq<OrderId>)
      ensures Ascending(keys) && forall o :: o in keys <==> SagaStream(o) in store.streams
    {
      var ids := store.ListStreams(SagaKind);
      keys := seq(|ids|, i requires 0 <= i < |ids| => KeyOf(ids[i]));
      forall i | 0 <= i < |ids| ensures ids[i] == SagaStream(keys[i]) && ids[i] in store.streams {
        assert ids[i] in ids;
      }
      forall o | SagaStream(o) in store.streams ensures o in keys {
        assert SagaStream(o) in ids;
        var i :| 0 <= i < |ids| && ids[i] == SagaStream(o);
        assert keys[i] == o;
      }
    }

    /** The sagas are distinct objects, each as loaded from the stream of its order. */
    ghost predicate AllLoaded(sagas: seq<OrderAllocationSaga>, orders: seq<OrderId>)
      reads store, set s | s in sagas
    {
      && |sagas| == |orders|
      && (forall i | 0 <= i < |sagas| :: SagaStream(orders[i]) in store.streams
            && Loaded(sagas[i], orders[i], Payloads(store.streams[SagaStream(orders[i])])))
      && (forall i, j | 0 <= i < j < |sagas| :: sagas[i] != sagas[j])
    }

    lemma OneMoreLoaded(sagas: seq<OrderAllocationSaga>, orders: seq<OrderId>, saga: OrderAllocationSaga, order: OrderId)
      requires AllLoaded(sagas, orders) && saga !in sagas && SagaStream(order) in store.streams
      requires Loaded(saga, order, Payloads(store.streams[SagaStream(order)]))
      ensures AllLoaded(sagas + [saga], orders + [order])
    {
      hide Loaded, Payloads;
    }

    /** Loads every saga that is not settled yet, in the order of their streams. */
    method LoadInFlight() returns (sagas: seq<OrderAllocationSaga>, ghost orders: seq<OrderId>)
      requires SagasSound(store.Events())
      ensures AllLoaded(sagas, orders) && Ascending(orders) && fresh(set s | s in sagas)
      ensures Unsettled(store.streams, orders)
    {
      hide Unfinished, Loaded, AllLoaded, SagasSound, InMemoryEventStore.Events, SagaOf;
      var keys := StoredOrders();
      sagas, orders := [], [];
      NoneLoaded();
      for i := 0 to |keys|
        invariant AllLoaded(sagas, orders) && fresh(set s | s in sagas)
        invariant Ascending(orders)
        invariant forall o :: o in orders <==> o in keys[..i] && Unfinished(o)
      {
        var saga, wanted := LoadOne(keys[i]);
        if wanted {
          forall k | 0 <= k < |orders| ensures orders[k] < keys[i] {
            assert orders[k] in orders;
          }
          OneMoreLoaded(sagas, orders, saga, keys[i]);
          sagas, orders := sagas + [saga], orders + [keys[i]];
        }
        assert keys[..i + 1] == keys[..i] + [keys[i]];
      }
      assert keys[..|keys|] == keys;
      forall o
        ensures o in orders <==>
                  (SagaStream(o) in store.streams
                   && SagaOf(Payloads(store.streams[SagaStream(o)])).status in {Running, Compensating})
      {
        UnfinishedMeans(o);
      }
    }

    lemma NoneLoaded()
      ensures AllLoaded([], [])
    {
    }

    lemma UnfinishedMeans(o: OrderId)
      ensures Unfinished(o) <==>
                (SagaStream(o) in store.streams
                 && SagaOf(Payloads(store.streams[SagaStream(o)])).status in {Running, Compensating})
    {
      hide SagaOf;
    }

    lemma SoundAsStored()
      requires SagasSound(store.Events())
      ensures StoredSound(store.streams)
    {
      hide SagaOf, Legal, Rested;
      forall o | SagaStream(o) in store.streams
        ensures Legal(o, Payloads(store.streams[SagaStream(o)])) && Rested(SagaOf(Payloads(store.streams[SagaStream(o)])))
      {
        assert SagaStream(o) in store.Events();
      }
    }

    /**
     Re-drives every saga that is running or compensating; only messages are sent, no stream changes.  In the end each of
     them has had sent again what it waits for.
     */
    method ResumeInFlight() returns (r: Outcome, ghost orders: seq<OrderId>)
      requires store.Valid() && SagasSound(store.Events())
      modifies bus
      ensures forall o | o in orders :: SagaStream(o) in store.streams
      ensures Ascending(orders) && Unsettled(store.streams, orders)
      ensures old(bus.sent) <= bus.sent <= old(bus.sent) + ResumeMessages(store.streams, orders)
      ensures r.Done? ==> AllRedriven(store.streams, bus.sent[|old(bus.sent)|..])
      ensures r.Done? ==> bus.sent == old(bus.sent) + ResumeMessages(store.streams, orders)
      ensures r in {Done, Failure(BusFailure)} && (r.Failure? ==> bus.failures > old(bus.failures))
    {
      hide SagaOf, Drive, SagasSound, StoredSound, Loaded, InMemoryEventStore.Valid, InMemoryEventStore.Events;
      hide ResumeMessages, Redriven;
      SoundAsStored();
      var sagas;
      sagas, orders := LoadInFlight();
      ResumeMessagesNone(store.streams);
      assert orders[..0] == [];
      for i := 0 to |sagas|
        invariant forall j | 0 <= j < |sagas| :: SagaStream(orders[j]) in store.streams
                    && Loaded(sagas[j], orders[j], Payloads(store.streams[SagaStream(orders[j])]))
        invariant bus.sent == old(bus.sent) + ResumeMessages(store.streams, orders[..i])
        invariant bus.failures == old(bus.failures)
      {
        assert orders[i] in orders;
        r := ReDrive(sagas[i], orders[i]);
        ResumeMessagesSnoc(store.streams, orders, i);
        if r.Failure? {
          ResumeMessagesPrefix(store.streams, orders, i + 1);
          return;
        }
      }
      assert orders[..|sagas|] == orders;
      assert bus.sent[|old(bus.sent)|..] == ResumeMessages(store.streams, orders);
      EachIsRedriven(store.streams, orders);
      return Done, orders;
    }

    /** Re-issues whatever an in-flight saga is waiting on. */
    method ReDrive(saga: OrderAllocationSaga, ghost order: OrderId) returns (r: Outcome)
      requires SagaStream(order) in store.streams
      requires Loaded(saga, order, Payloads(store.streams[SagaStream(order)]))
      modifies bus
      ensures Sends(Drive(SagaOf(Payloads(store.streams[SagaStream(order)]))), r)
    {
      if saga.status == Compensating {
        r := SendCompensations(saga);
      } else {
        r := SendNextAllocation(saga);
      }
    }

    /** Fails the pending step of one stale saga, or re-drives its compensations. */
    method TimeOut(saga: OrderAllocationSaga, cutoff: nat, ghost order: OrderId) returns (r: Outcome)
      requires store.Valid() && SagaStream(order) in store.streams
      requires Loaded(saga, order, Payloads(store.streams[SagaStream(order)]))
      modifies store`streams, store`appended, bus, saga
      ensures store.Valid()
      ensures Does(SagaStream(order), Sweep(old(store.streams[SagaStream(order)]), cutoff), r)
      ensures r in {Done, Failure(BusFailure)} && (r.Failure? <==> bus.failures > old(bus.failures))
      ensures bus.failures >= old(bus.failures)
      ensures var all := old(bus.sent) + Announcements(Sweep(old(store.streams[SagaStream(order)]), cutoff));
              old(bus.sent) <= bus.sent <= all && (r.Done? ==> bus.sent == all)
      ensures OnlyGrew(SagaStream(order)) && SagaStream(order) in store.streams
      ensures Swept(old(store.streams[SagaStream(order)]), store.streams[SagaStream(order)], cutoff)
    {
      hide Sweep, SagaOf, DecideFailed, OnFailed, Legal, Rested, Compensations, ToCompensate, NextPending, SameBut;
      NothingDiffers(store.streams, SagaStream(order));
      var stored := store.ReadStream(SagaStream(saga.salesOrderId));
      SweepCases(order, stored, cutoff);
      r := Done;
      if stored[|stored| - 1].occurredAt < cutoff {
        if saga.status == Compensating {
          r := SendCompensations(saga);
        } else {
          var row := saga.NextPendingRow();
          r := FailStep(saga, row.value.beer, TimedOut, order, saga.history);
          assert SagaStream(order) in store.Events();
        }
      }
    }

    /** One round of the sweep over sagas that were loaded when the streams were `was`. */
    method SweepNext(saga: OrderAllocationSaga, cutoff: nat, ghost orders: seq<OrderId>, ghost i: nat,
                     ghost was: map<StreamId, seq<StoredEvent>>)
      returns (r: Outcome)
      requires store.Valid() && i < |orders| && Ascending(orders)
      requires SweptUpTo(was, store.streams, orders, i, cutoff)
      requires SagaStream(orders[i]) in was && Loaded(saga, orders[i], Payloads(was[SagaStream(orders[i])]))
      modifies store`streams, store`appended, bus, saga
      ensures store.Valid() && SweptUpTo(was, store.streams, orders, i + 1, cutoff)
      ensures r.Failure? ==> r.error == BusFailure && bus.failures > old(bus.failures)
      ensures r.Done? ==> bus.failures == old(bus.failures)
      ensures var all := old(bus.sent) + Announcements(Sweep(was[SagaStream(orders[i])], cutoff));
              old(bus.sent) <= bus.sent <= all && (r.Done? ==> bus.sent == all)
    {
      hide SagaOf, Sweep, Swept, SweptUpTo, Loaded, Does, InMemoryEventStore.Valid, InMemoryEventStore.Events;
      ghost var mid := store.streams;
      NotYetSwept(was, mid, orders, i, cutoff);
      r := TimeOut(saga, cutoff, orders[i]);
      SweptOneMore(was, mid, store.streams, orders, i, cutoff);
    }

    /** Sweeps the loaded sagas in turn, stopping when the bus fails. */
    method SweepAll(sagas: seq<OrderAllocationSaga>, cutoff: nat, ghost orders: seq<OrderId>)
      returns (r: Outcome, ghost n: nat)
      requires store.Valid() && AllLoaded(sagas, orders) && Ascending(orders)
      modifies store`streams, store`appended, bus, set s | s in sagas
      ensures store.Valid() && SweptUpTo(old(store.streams), store.streams, orders, n, cutoff) && n <= |orders|
      ensures r.Failure? ==> r.error == BusFailure && bus.failures > old(bus.failures)
      ensures forall o | o in orders :: SagaStream(o) in old(store.streams)
      ensures var all := old(bus.sent) + SweepMessages(old(store.streams), orders[..n], cutoff);
              old(bus.sent) <= bus.sent <= all && (r.Done? ==> n == |orders| && bus.sent == all)
    {
      hide SagaOf, Sweep, Swept, SweptUpTo, SweepMessages, Loaded, Does;
      hide InMemoryEventStore.Valid, InMemoryEventStore.Events;
      ghost var was, sent := store.streams, bus.sent;
      assert forall o | o in orders :: SagaStream(o) in was;
      SweepMessagesNone(was, cutoff);
      NothingSweptYet(was, orders, cutoff);
      assert orders[..0] == [];
      r, n := Done, 0;
      var i := 0;
      while i < |sagas| && r.Done?
        invariant 0 <= i <= |sagas| && i == n && store.Valid()
        invariant SweptUpTo(was, store.streams, orders, i, cutoff)
        invariant forall j | i <= j < |sagas| :: Loaded(sagas[j], orders[j], Payloads(was[SagaStream(orders[j])]))
        invariant r.Failure? ==> r.error == BusFailure && bus.failures > old(bus.failures)
        invariant r.Done? ==> bus.failures == old(bus.failures)
        invariant var all := sent + SweepMessages(was, orders[..i], cutoff);
                  sent <= bus.sent <= all && (r.Done? ==> bus.sent == all)
      {
        assert orders[i] in orders;
        r := SweepNext(sagas[i], cutoff, orders, i, was);
        SweepMessagesSnoc(was, orders, i, cutoff);
        i, n := i + 1, n + 1;
      }
      assert orders[..|orders|] == orders;
    }

    /**
     The watchdog: fails the pending step of every saga that recorded nothing since the cutoff, and re-drives stale
     compensations.  Running undisturbed, it sweeps every in-flight saga exactly once and touches nothing else, so that
     no saga is left running with its last event before the cutoff; a failing bus stops it after the first `n`, the last
     of them saved but perhaps not announced in full.
     */
    method TimeoutInFlight(cutoff: nat) returns (r: Outcome, ghost orders: seq<OrderId>, ghost n: nat)
      requires store.Valid() && SagasSound(store.Events())
      modifies store`streams, store`appended, bus
      ensures store.Valid() && store.streams.Keys == old(store.streams).Keys
      ensures forall id | id in store.streams && !id.SagaStream? :: store.streams[id] == old(store.streams)[id]
      ensures forall o | SagaStream(o) in store.streams ::
                || Swept(old(store.streams)[SagaStream(o)], store.streams[SagaStream(o)], cutoff)
                || (r.Failure? && store.streams[SagaStream(o)] == old(store.streams)[SagaStream(o)])
      ensures r.Done? ==> forall o | SagaStream(o) in store.streams :: !RunsStale(store.streams[SagaStream(o)], cutoff)
      ensures forall o | o in orders :: SagaStream(o) in old(store.streams)
      ensures Ascending(orders) && Unsettled(old(store.streams), orders) && n <= |orders|
      ensures var all := old(bus.sent) + SweepMessages(old(store.streams), orders[..n], cutoff);
              old(bus.sent) <= bus.sent <= all && (r.Done? ==> n == |orders| && bus.sent == all)
      ensures LateOnesTimedOut(old(store.streams), store.streams, r.Done?, cutoff, bus.sent[|old(bus.sent)|..])
      ensures OnlyLateOnesConcerned(old(store.streams), cutoff, bus.sent[|old(bus.sent)|..])
      ensures SweptUpTo(old(store.streams), store.streams, orders, n, cutoff)
      ensures r in {Done, Failure(BusFailure)} && (r.Failure? ==> bus.failures > old(bus.failures))
    {
      hide SagaOf, Swept, SagasSound, StoredSound, AllLoaded, Loaded, SweptUpTo, SweepMessages, RunsStale, Unsettled;
      hide InMemoryEventStore.Valid, InMemoryEventStore.Events, LateOnesTimedOut, OnlyLateOnesConcerned, Ascending;
      SoundAsStored();
      var sagas;
      sagas, orders := LoadInFlight();
      ghost var was, sent := store.streams, bus.sent;
      r, n := SweepAll(sagas, cutoff, orders);
      RoundIsShown(was, store.streams, orders, n, cutoff, sent, bus.sent, r.Done?);
    }
  }
}
