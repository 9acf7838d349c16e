/** What resuming unfinished sagas and timing out slow steps come to, as functions of the stored streams. */
module DurableExecution {
  import opened Messages
  import opened AllocationSaga
  import opened SagaLaws
  import opened Reactions
  import opened EventStore

  predicate InFlight(s: Saga) {
    s.status in {Running, Compensating}
  }

  /** Saga streams are non-empty, legal and at rest. */
  ghost predicate SagasSound(ss: Streams) {
    forall o | SagaStream(o) in ss ::
      ss[SagaStream(o)] != [] && Legal(o, ss[SagaStream(o)]) && Rested(SagaOf(ss[SagaStream(o)]))
  }

  /** The same of the streams as they are stored. */
  ghost predicate StoredSound(streams: map<StreamId, seq<StoredEvent>>) {
    forall o | SagaStream(o) in streams ::
      && streams[SagaStream(o)] != []
      && Legal(o, Payloads(streams[SagaStream(o)])) && Rested(SagaOf(Payloads(streams[SagaStream(o)])))
  }

  /** The orders of the sagas that are running or compensating. */
  ghost predicate Unsettled(streams: map<StreamId, seq<StoredEvent>>, orders: seq<OrderId>) {
    forall o :: o in orders <==>
      (SagaStream(o) in streams && SagaOf(Payloads(streams[SagaStream(o)])).status in {Running, Compensating})
  }

  /** The saga's last recorded event is older than the cutoff. */
  predicate Stale(stored: seq<StoredEvent>, cutoff: nat) {
    stored != [] && stored[|stored| - 1].occurredAt < cutoff
  }

  /** What one sweep does to a saga: fail the pending step of a stale running one, re-drive a stale compensation. */
  function Sweep(stored: seq<StoredEvent>, cutoff: nat): (r: Reaction)
    ensures r.Reaction?
  {
    var es := Payloads(stored);
    var s := SagaOf(es);
    if !InFlight(s) || !Stale(stored, cutoff) then NOTHING
    else if s.status == Compensating then Reaction([], Compensations(ToCompensate(s), s.order))
    else match NextPending(s)
         case Some(row) => OnFailed(es, row.beer, TimedOut)
         case None => NOTHING
  }

  /** The saga stream `now` is as one complete sweep leaves `was`. */
  predicate Swept(was: seq<StoredEvent>, now: seq<StoredEvent>, cutoff: nat) {
    && Payloads(now) == Payloads(was) + Sweep(was, cutoff).events
    && (Sweep(was, cutoff).events == [] ==> now == was)
  }

  predicate Ascending(orders: seq<OrderId>) {
    forall i, j | 0 <= i < j < |orders| :: orders[i] < orders[j]
  }

  /** `now` is `was` after the sagas of the first `n` orders were swept and nothing else was touched. */
  ghost predicate SweptUpTo(was: map<StreamId, seq<StoredEvent>>, now: map<StreamId, seq<StoredEvent>>,
                            orders: seq<OrderId>, n: nat, cutoff: nat)
  {
    && n <= |orders| && was.Keys == now.Keys
    && (forall o | o in orders :: SagaStream(o) in was)
    && (forall j | 0 <= j < n :: Swept(was[SagaStream(orders[j])], now[SagaStream(orders[j])], cutoff))
    && (forall id | id in was && (forall j | 0 <= j < n :: id != SagaStream(orders[j])) :: now[id] == was[id])
  }

  lemma NothingSweptYet(was: map<StreamId, seq<StoredEvent>>, orders: seq<OrderId>, cutoff: nat)
    requires forall o | o in orders :: SagaStream(o) in was
    ensures SweptUpTo(was, was, orders, 0, cutoff)
  {
  }

  lemma NotYetSwept(was: map<StreamId, seq<StoredEvent>>, now: map<StreamId, seq<StoredEvent>>,
                    orders: seq<OrderId>, n: nat, cutoff: nat)
    requires SweptUpTo(was, now, orders, n, cutoff) && Ascending(orders)
    ensures forall k | n <= k < |orders| ::
              var id := SagaStream(orders[k]); id in was && id in now && now[id] == was[id]
  {
    hide Swept;
    forall k | n <= k < |orders|
      ensures var id := SagaStream(orders[k]); id in was && id in now && now[id] == was[id]
    {
      assert orders[k] in orders;
      forall j | 0 <= j < n ensures SagaStream(orders[k]) != SagaStream(orders[j]) {
        assert orders[j] < orders[k];
      }
    }
  }

  /** Sweeping one more saga. */
  lemma {:induction false} SweptOneMore(was: map<StreamId, seq<StoredEvent>>, mid: map<StreamId, seq<StoredEvent>>,
                     now: map<StreamId, seq<StoredEvent>>, orders: seq<OrderId>, n: nat, cutoff: nat)
    requires SweptUpTo(was, mid, orders, n, cutoff) && Ascending(orders) && n < |orders|
    requires mid.Keys == now.Keys && SagaStream(orders[n]) in mid
    requires forall id | id in mid && id != SagaStream(orders[n]) :: now[id] == mid[id]
    requires Swept(mid[SagaStream(orders[n])], now[SagaStream(orders[n])], cutoff)
    ensures SweptUpTo(was, now, orders, n + 1, cutoff)
  {
    hide Swept;
    NotYetSwept(was, mid, orders, n, cutoff);
    forall j | 0 <= j < n + 1 ensures Swept(was[SagaStream(orders[j])], now[SagaStream(orders[j])], cutoff) {
      assert orders[j] in orders;
      assert j < n ==> orders[j] < orders[n];
    }
  }

  lemma SettledIsLeftAlone(stored: seq<StoredEvent>, cutoff: nat)
    ensures !InFlight(SagaOf(Payloads(stored))) ==> Swept(stored, stored, cutoff)
  {
  }

  /** After sweeping the first `n` of all that are in flight, every saga was swept, or is as it was and still to come. */
  lemma {:induction false} SweptOrLeft(was: map<StreamId, seq<StoredEvent>>, now: map<StreamId, seq<StoredEvent>>,
                                        orders: seq<OrderId>, n: nat, cutoff: nat)
    requires SweptUpTo(was, now, orders, n, cutoff) && Ascending(orders)
    requires Unsettled(was, orders)
    ensures now.Keys == was.Keys && forall id | id in now && !id.SagaStream? :: now[id] == was[id]
    ensures forall o | SagaStream(o) in now ::
              || Swept(was[SagaStream(o)], now[SagaStream(o)], cutoff)
              || (n < |orders| && now[SagaStream(o)] == was[SagaStream(o)])
  {
    hide Swept, SagaOf;
    NotYetSwept(was, now, orders, n, cutoff);
    forall o | SagaStream(o) in now
      ensures || Swept(was[SagaStream(o)], now[SagaStream(o)], cutoff)
              || (n < |orders| && now[SagaStream(o)] == was[SagaStream(o)])
    {
      if o in orders {
        var j :| 0 <= j < |orders| && orders[j] == o;
      } else {
        SettledIsLeftAlone(was[SagaStream(o)], cutoff);
      }
    }
  }

  /** The messages of a whole sweep over the sagas of `orders`. */
  function SweepMessages(streams: map<StreamId, seq<StoredEvent>>, orders: seq<OrderId>, cutoff: nat): seq<Message>
    requires forall o | o in orders :: SagaStream(o) in streams
  {
    if orders == [] then []
    else
      var last := orders[|orders| - 1];
      SweepMessages(streams, orders[..|orders| - 1], cutoff) + Announcements(Sweep(streams[SagaStream(last)], cutoff))
  }

  lemma SweepMessagesNone(streams: map<StreamId, seq<StoredEvent>>, cutoff: nat)
    ensures SweepMessages(streams, [], cutoff) == []
  {
  }

  lemma {:induction false} SweepMessagesSnoc(streams: map<StreamId, seq<StoredEvent>>, orders: seq<OrderId>,
                                             i: nat, cutoff: nat)
    requires i < |orders| && forall o | o in orders :: SagaStream(o) in streams
    ensures SweepMessages(streams, orders[..i + 1], cutoff)
            == SweepMessages(streams, orders[..i], cutoff)
               + Announcements(Sweep(streams[SagaStream(orders[i])], cutoff))
  {
    assert orders[..i + 1][..i] == orders[..i];
  }

  /** The messages that re-drive the sagas of `orders`. */
  function ResumeMessages(streams: map<StreamId, seq<StoredEvent>>, orders: seq<OrderId>): seq<Message>
    requires forall o | o in orders :: SagaStream(o) in streams
  {
    if orders == [] then []
    else
      var last := orders[|orders| - 1];
      ResumeMessages(streams, orders[..|orders| - 1]) + Drive(SagaOf(Payloads(streams[SagaStream(last)])))
  }

  lemma ResumeMessagesNone(streams: map<StreamId, seq<StoredEvent>>)
    ensures ResumeMessages(streams, []) == []
  {
  }

  lemma {:induction false} ResumeMessagesSnoc(streams: map<StreamId, seq<StoredEvent>>, orders: seq<OrderId>, i: nat)
    requires i < |orders| && forall o | o in orders :: SagaStream(o) in streams
    ensures ResumeMessages(streams, orders[..i + 1])
            == ResumeMessages(streams, orders[..i]) + Drive(SagaOf(Payloads(streams[SagaStream(orders[i])])))
  {
    hide SagaOf, Drive;
    assert orders[..i + 1][..i] == orders[..i];
  }

  lemma {:induction false} ResumeMessagesPrefix(streams: map<StreamId, seq<StoredEvent>>, orders: seq<OrderId>, n: nat)
    requires n <= |orders| && forall o | o in orders :: SagaStream(o) in streams
    ensures ResumeMessages(streams, orders[..n]) <= ResumeMessages(streams, orders)
    decreases |orders|
  {
    hide SagaOf, Drive;
    if n == |orders| {
      assert orders[..n] == orders;
    } else {
      var rest := orders[..|orders| - 1];
      ResumeMessagesPrefix(streams, rest, n);
      assert rest[..n] == orders[..n];
    }
  }

  /** Failing the first pending row also rejects the saga just when no row holds stock. */
  lemma {:induction false} FirstPendingFails(order: OrderId, es: seq<Event>, reason: Reason)
    requires Legal(order, es) && Rested(SagaOf(es)) && SagaOf(es).status == Running
    ensures var s := SagaOf(es);
            && s.order == order && NextPending(s).Some?
            && DecideFailed(s, NextPending(s).value.beer, reason)
               == [AllocationStepFailed(order, NextPending(s).value.beer, reason)]
                  + (if NoneIn(s.rows, Allocated) then [OrderAllocationRejected(order, reason)] else [])
  {
    LegalShaped(order, es);
    hide SagaOf;
    var s := SagaOf(es);
    var k := FirstPending(s.rows);
    var t := ApplySaga(s, AllocationStepFailed(order, s.rows[k].data.beer, reason));
    assert RowIn(s.rows, s.rows[k].data.beer, Pending);
    AllocatedRowsEmpty(t.rows);
    forall i | 0 <= i < |s.rows| ensures s.rows[i].state == Allocated <==> t.rows[i].state == Allocated {
      assert s.rows[i].data.beer == s.rows[k].data.beer ==> s.rows[i].state == Pending;
    }
  }

  /** After that, the saga is settled or undoing what it holds. */
  lemma {:induction false} FirstPendingFailed(order: OrderId, es: seq<Event>, reason: Reason)
    requires Legal(order, es) && Rested(SagaOf(es)) && SagaOf(es).status == Running
    requires NextPending(SagaOf(es)).Some?
    ensures SagaOf(es + DecideFailed(SagaOf(es), NextPending(SagaOf(es)).value.beer, reason)).status
            == if NoneIn(SagaOf(es).rows, Allocated) then Rejected else Compensating
  {
    FirstPendingFails(order, es, reason);
    hide *;
    var e := AllocationStepFailed(order, NextPending(SagaOf(es)).value.beer, reason);
    var rejected := OrderAllocationRejected(order, reason);
    StatusAfter(es, e);
    StatusAfter(es + [e], rejected);
    assert es + [e, rejected] == es + [e] + [rejected];
  }

  lemma StatusAfter(es: seq<Event>, e: Event)
    ensures e.AllocationStepFailed? ==> SagaOf(es + [e]).status == Compensating
    ensures e.OrderAllocationRejected? ==> SagaOf(es + [e]).status == Rejected
  {
    hide SagaOf, SetRow;
    SagaOfSnoc(es, e);
  }

  /** A timed-out saga gains exactly its failing step, and its rejection just when it held nothing. */
  lemma {:induction false} SweptSagaGains(order: OrderId, stored: seq<StoredEvent>, cutoff: nat)
    requires Legal(order, Payloads(stored)) && Rested(SagaOf(Payloads(stored)))
    requires SagaOf(Payloads(stored)).status == Running && Stale(stored, cutoff)
    ensures var s := SagaOf(Payloads(stored));
            && NextPending(s).Some?
            && Sweep(stored, cutoff).events
               == [AllocationStepFailed(order, NextPending(s).value.beer, TimedOut)]
                  + (if NoneIn(s.rows, Allocated) then [OrderAllocationRejected(order, TimedOut)] else [])
            && SagaOf(Payloads(stored) + Sweep(stored, cutoff).events).status
               == (if NoneIn(s.rows, Allocated) then Rejected else Compensating)
  {
    FirstPendingFails(order, Payloads(stored), TimedOut);
    FirstPendingFailed(order, Payloads(stored), TimedOut);
    hide DecideFailed, SagaOf, Legal, Rested, NextPending, NoneIn;
  }

  /** Nothing but a stale running saga changes. */
  lemma SweepLeavesAlone(order: OrderId, stored: seq<StoredEvent>, cutoff: nat)
    requires Legal(order, Payloads(stored)) && Rested(SagaOf(Payloads(stored)))
    ensures Sweep(stored, cutoff).Reaction?
    ensures Sweep(stored, cutoff).events == [] <==>
              !(SagaOf(Payloads(stored)).status == Running && Stale(stored, cutoff))
  {
    if SagaOf(Payloads(stored)).status == Running && Stale(stored, cutoff) {
      SweptSagaGains(order, stored, cutoff);
    }
  }

  /** The saga is still running although it recorded nothing since the cutoff. */
  predicate RunsStale(stored: seq<StoredEvent>, cutoff: nat) {
    SagaOf(Payloads(stored)).status == Running && Stale(stored, cutoff)
  }

  lemma SweptRunIsNotStale(order: OrderId, was: seq<StoredEvent>, now: seq<StoredEvent>, cutoff: nat)
    requires Legal(order, Payloads(was)) && Rested(SagaOf(Payloads(was))) && Swept(was, now, cutoff)
    ensures !RunsStale(now, cutoff)
  {
    SweepLeavesAlone(order, was, cutoff);
    if SagaOf(Payloads(was)).status == Running && Stale(was, cutoff) {
      SweptSagaGains(order, was, cutoff);
    }
  }

  /** After a complete sweep no running saga is stale. */
  lemma NoStaleRunIsLeft(was: map<StreamId, seq<StoredEvent>>, now: map<StreamId, seq<StoredEvent>>, cutoff: nat)
    requires StoredSound(was) && was.Keys == now.Keys
    requires forall o | SagaStream(o) in now :: Swept(was[SagaStream(o)], now[SagaStream(o)], cutoff)
    ensures forall o | SagaStream(o) in now :: !RunsStale(now[SagaStream(o)], cutoff)
  {
    hide SagaOf, Legal, Rested, Swept, RunsStale;
    forall o | SagaStream(o) in now ensures !RunsStale(now[SagaStream(o)], cutoff) {
      SweptRunIsNotStale(o, was[SagaStream(o)], now[SagaStream(o)], cutoff);
    }
  }

  // ---- what a caller can see ----

  predicate FirstPendingAt(rows: seq<SagaRow>, k: nat) {
    k < |rows| && rows[k].state == Pending && forall i | 0 <= i < k :: rows[i].state != Pending
  }

  /** What the saga of `o` in state `s` waits for is among the messages. */
  ghost predicate Redriven(s: Saga, o: OrderId, ms: seq<Message>) {
    && (s.status == Compensating ==>
          forall i | 0 <= i < |s.rows| && s.rows[i].state == Allocated ::
            CompensateAvailability(s.rows[i].data.beer, s.rows[i].data.quantity, o) in ms)
    && (s.status == Running ==>
          forall k: nat | FirstPendingAt(s.rows, k) ::
            UpdateAvailabilityDueToSalesOrder(s.rows[k].data.beer, s.rows[k].data.quantity, o) in ms)
  }

  /** After a restart what each stored saga waits for was sent again. */
  ghost predicate AllRedriven(streams: map<StreamId, seq<StoredEvent>>, news: seq<Message>) {
    forall o | SagaStream(o) in streams :: Redriven(SagaOf(Payloads(streams[SagaStream(o)])), o, news)
  }

  lemma DriveRedrives(s: Saga, o: OrderId)
    requires s.order == o
    ensures Redriven(s, o, Drive(s))
  {
    hide AllocatedRows;
    if s.status == Compensating {
      forall i | 0 <= i < |s.rows| && s.rows[i].state == Allocated
        ensures CompensateAvailability(s.rows[i].data.beer, s.rows[i].data.quantity, o) in Drive(s)
      {
        CompensationIsSent(s, i);
      }
    }
    forall k: nat | FirstPendingAt(s.rows, k) ensures k == FirstPending(s.rows) {
    }
  }

  lemma CompensationIsSent(s: Saga, i: nat)
    requires s.status == Compensating && i < |s.rows| && s.rows[i].state == Allocated
    ensures CompensateAvailability(s.rows[i].data.beer, s.rows[i].data.quantity, s.order)
            in Compensations(ToCompensate(s), s.order)
  {
    hide AllocatedRows;
    var row := s.rows[i].data;
    assert s.rows[i] == SagaRow(row, Allocated);
    AllocatedRowsAre(s.rows, row);
    var j :| 0 <= j < |ToCompensate(s)| && ToCompensate(s)[j] == row;
    assert Compensations(ToCompensate(s), s.order)[j] == CompensateAvailability(row.beer, row.quantity, s.order);
  }

  lemma RedrivenByMore(s: Saga, o: OrderId, ms: seq<Message>, more: seq<Message>)
    requires Redriven(s, o, ms) && forall m | m in ms :: m in more
    ensures Redriven(s, o, more)
  {
    hide FirstPendingAt;
  }

  /** Each saga of the list has sent again what it waits for. */
  lemma {:induction false} EachIsRedriven(streams: map<StreamId, seq<StoredEvent>>, orders: seq<OrderId>)
    requires StoredSound(streams) && forall o | o in orders :: SagaStream(o) in streams
    requires Unsettled(streams, orders)
    ensures AllRedriven(streams, ResumeMessages(streams, orders))
  {
    hide SagaOf, Drive, ResumeMessages, Legal, Rested, Redriven;
    forall o | SagaStream(o) in streams
      ensures Redriven(SagaOf(Payloads(streams[SagaStream(o)])), o, ResumeMessages(streams, orders))
    {
      var s := SagaOf(Payloads(streams[SagaStream(o)]));
      if o in orders {
        LegalShaped(o, Payloads(streams[SagaStream(o)]));
        DriveIsResumed(streams, orders, o);
        DriveRedrives(s, o);
        RedrivenByMore(s, o, Drive(s), ResumeMessages(streams, orders));
      } else {
        FinishedIsRedriven(s, o, ResumeMessages(streams, orders));
      }
    }
  }

  lemma FinishedIsRedriven(s: Saga, o: OrderId, ms: seq<Message>)
    requires s.status !in {Running, Compensating}
    ensures Redriven(s, o, ms)
  {
  }

  lemma {:induction false} DriveIsResumed(streams: map<StreamId, seq<StoredEvent>>, orders: seq<OrderId>, o: OrderId)
    requires o in orders && forall p | p in orders :: SagaStream(p) in streams
    ensures forall m | m in Drive(SagaOf(Payloads(streams[SagaStream(o)]))) :: m in ResumeMessages(streams, orders)
    decreases |orders|
  {
    hide SagaOf, Drive;
    var rest := orders[..|orders| - 1];
    if o != orders[|orders| - 1] {
      assert orders == rest + [orders[|orders| - 1]];
      DriveIsResumed(streams, rest, o);
    }
  }

  // ---- and of the watchdog ----

  /** A message about the saga of `o` that giving up on it sends. */
  predicate Concerns(m: Message, o: OrderId) {
    || ((m.CompensateAvailability? || m.AllocationRejected?) && m.order == o)
    || (m.DomainEvent? && (m.event.AllocationStepFailed? || m.event.OrderAllocationRejected?) && m.event.order == o)
  }

  /** The first pending row failed, for being late, and the order is rejected just if nothing was allocated. */
  ghost predicate TimedOutOnce(o: OrderId, was: seq<StoredEvent>, now: seq<StoredEvent>) {
    var rows := SagaOf(Payloads(was)).rows;
    exists k: nat ::
      && FirstPendingAt(rows, k)
      && Payloads(now) == Payloads(was) + [AllocationStepFailed(o, rows[k].data.beer, TimedOut)]
                          + if forall i | 0 <= i < |rows| :: rows[i].state != Allocated
                            then [OrderAllocationRejected(o, TimedOut)] else []
  }

  /** A compensation for each row that is allocated, and the rejection of a running saga without any. */
  ghost predicate TimedOutTells(s: Saga, o: OrderId, ms: seq<Message>) {
    && (s.status in {Running, Compensating} ==>
          forall i | 0 <= i < |s.rows| && s.rows[i].state == Allocated ::
            CompensateAvailability(s.rows[i].data.beer, s.rows[i].data.quantity, o) in ms)
    && (s.status == Running && NoneIn(s.rows, Allocated) ==> AllocationRejected(o, TimedOut) in ms)
  }

  /** A sweep leaves a saga alone, or times it out once. */
  lemma {:induction false} SweptIsTimedOut(o: OrderId, was: seq<StoredEvent>, now: seq<StoredEvent>, cutoff: nat)
    requires was != [] && Legal(o, Payloads(was)) && Rested(SagaOf(Payloads(was))) && Swept(was, now, cutoff)
    ensures was[|was| - 1].occurredAt >= cutoff || SagaOf(Payloads(was)).status != Running ==> now == was
    ensures was[|was| - 1].occurredAt < cutoff && SagaOf(Payloads(was)).status == Running ==> TimedOutOnce(o, was, now)
  {
    hide SagaOf, Legal, Rested;
    var s := SagaOf(Payloads(was));
    if was[|was| - 1].occurredAt < cutoff && s.status == Running {
      SweptSagaGains(o, was, cutoff);
      assert FirstPendingAt(s.rows, FirstPending(s.rows));
    }
  }

  /** The state of a running saga that was given up. */
  lemma {:induction false} GivenUpState(o: OrderId, es: seq<Event>) returns (t: Saga)
    requires Legal(o, es) && Rested(SagaOf(es)) && SagaOf(es).status == Running
    ensures var s := SagaOf(es);
            && s.order == o && NextPending(s).Some?
            && var ds := DecideFailed(s, NextPending(s).value.beer, TimedOut);
               && t == SagaOf(es + ds) && ds != [] && t.order == o && t.reason == TimedOut
               && t.status == (if NoneIn(s.rows, Allocated) then Rejected else Compensating)
               && |t.rows| == |s.rows|
               && forall i | 0 <= i < |s.rows| && s.rows[i].state == Allocated :: t.rows[i] == s.rows[i]
  {
    FirstPendingFails(o, es, TimedOut);
    LegalShaped(o, es);
    hide Legal, Rested, SagaOf, DecideFailed;
    var s := SagaOf(es);
    var b := NextPending(s).value.beer;
    var e, rejected := AllocationStepFailed(o, b, TimedOut), OrderAllocationRejected(o, TimedOut);
    SagaOfSnoc(es, e);
    SagaOfSnoc(es + [e], rejected);
    assert es + [e, rejected] == es + [e] + [rejected];
    t := SagaOf(es + DecideFailed(s, b, TimedOut));
    assert s.rows[FirstPending(s.rows)].data.beer == b && s.rows[FirstPending(s.rows)].state == Pending;
  }

  /** What a sweep announces concerns its saga, which was late, and tells of all that is to be undone. */
  lemma {:induction false} SweepTells(o: OrderId, was: seq<StoredEvent>, cutoff: nat)
    requires was != [] && Legal(o, Payloads(was)) && Rested(SagaOf(Payloads(was)))
    ensures forall m | m in Announcements(Sweep(was, cutoff)) ::
              Concerns(m, o) && was[|was| - 1].occurredAt < cutoff
              && SagaOf(Payloads(was)).status in {Running, Compensating}
    ensures was[|was| - 1].occurredAt < cutoff ==>
              TimedOutTells(SagaOf(Payloads(was)), o, Announcements(Sweep(was, cutoff)))
  {
    hide SagaOf, Legal, Rested, ToCompensate, DecideFailed, NextPending;
    var es := Payloads(was);
    var s := SagaOf(es);
    if was[|was| - 1].occurredAt < cutoff && s.status == Running {
      RunTells(o, was, cutoff);
    } else if was[|was| - 1].occurredAt < cutoff && s.status == Compensating {
      LegalShaped(o, es);
      assert Announcements(Sweep(was, cutoff)) == Compensations(ToCompensate(s), o);
      forall i | 0 <= i < |s.rows| && s.rows[i].state == Allocated
        ensures CompensateAvailability(s.rows[i].data.beer, s.rows[i].data.quantity, o) in Announcements(Sweep(was, cutoff))
      {
        CompensationIsSent(s, i);
      }
    }
  }

  /** What the sweep of a late running saga records and sends; `t` is the saga's state then. */
  lemma {:induction false} RunReaction(o: OrderId, was: seq<StoredEvent>, cutoff: nat) returns (t: Saga)
    requires was != [] && Legal(o, Payloads(was)) && Rested(SagaOf(Payloads(was)))
    requires was[|was| - 1].occurredAt < cutoff && SagaOf(Payloads(was)).status == Running
    ensures var s, r := SagaOf(Payloads(was)), Sweep(was, cutoff);
            && (forall e | e in r.events :: e.order == o && (e.AllocationStepFailed? || e.OrderAllocationRejected?))
            && t.order == o && |t.rows| == |s.rows|
            && (forall i | 0 <= i < |s.rows| && s.rows[i].state == Allocated :: t.rows[i] == s.rows[i])
            && if NoneIn(s.rows, Allocated) then r.sends == [AllocationRejected(o, TimedOut)]
               else t.status == Compensating && r.sends == Compensations(ToCompensate(t), o)
  {
    hide SagaOf, Legal, Rested, ToCompensate, DecideFailed, NoneIn;
    var es := Payloads(was);
    t := GivenUpState(o, es);
    SweptSagaGains(o, was, cutoff);
    hide NextPending;
    assert Sweep(was, cutoff) == OnFailed(es, NextPending(SagaOf(es)).value.beer, TimedOut);
  }

  lemma {:induction false} RunTells(o: OrderId, was: seq<StoredEvent>, cutoff: nat)
    requires was != [] && Legal(o, Payloads(was)) && Rested(SagaOf(Payloads(was)))
    requires was[|was| - 1].occurredAt < cutoff && SagaOf(Payloads(was)).status == Running
    ensures forall m | m in Announcements(Sweep(was, cutoff)) :: Concerns(m, o)
    ensures TimedOutTells(SagaOf(Payloads(was)), o, Announcements(Sweep(was, cutoff)))
  {
    hide SagaOf, Legal, Rested, ToCompensate, Sweep, NoneIn;
    var t := RunReaction(o, was, cutoff);
    var s, r := SagaOf(Payloads(was)), Sweep(was, cutoff);
    forall m | m in Announcements(r) ensures Concerns(m, o) {
      assert m in Published(r.events) || m in r.sends;
    }
    assert forall m | m in r.sends :: m in Published(r.events) + r.sends;
    assert NoneIn(s.rows, Allocated) ==> r.sends[0] == AllocationRejected(o, TimedOut);
    forall i | 0 <= i < |s.rows| && s.rows[i].state == Allocated
      ensures CompensateAvailability(s.rows[i].data.beer, s.rows[i].data.quantity, o) in r.sends
    {
      SomeAllocated(s.rows, i);
      CompensationIsSent(t, i);
    }
  }

  lemma SomeAllocated(rows: seq<SagaRow>, i: nat)
    requires i < |rows| && rows[i].state == Allocated
    ensures !NoneIn(rows, Allocated)
  {
  }

  /** What a sweep of the list sends comes from one of its sagas, and all that each of them has to tell is in it. */
  lemma {:induction false} SweepMessagesAre(streams: map<StreamId, seq<StoredEvent>>, orders: seq<OrderId>, cutoff: nat,
                                             m: Message)
    requires forall o | o in orders :: SagaStream(o) in streams
    ensures m in SweepMessages(streams, orders, cutoff) <==>
              (exists o | o in orders :: m in Announcements(Sweep(streams[SagaStream(o)], cutoff)))
    decreases |orders|
  {
    hide Sweep;
    if orders != [] {
      var rest, last := orders[..|orders| - 1], orders[|orders| - 1];
      assert orders == rest + [last];
      assert last in orders && forall o | o in rest :: o in orders;
      SweepMessagesAre(streams, rest, cutoff, m);
    }
  }

  lemma TellsByMore(s: Saga, o: OrderId, ms: seq<Message>, more: seq<Message>)
    requires TimedOutTells(s, o, ms) && forall m | m in ms :: m in more
    ensures TimedOutTells(s, o, more)
  {
    hide NoneIn;
  }

  /** Whatever part of the sweep was sent, each message is about a saga that was late. */
  lemma {:induction false} SweptMessagesConcern(streams: map<StreamId, seq<StoredEvent>>, orders: seq<OrderId>, cutoff: nat,
                                                 m: Message) returns (o: OrderId)
    requires StoredSound(streams) && forall o | o in orders :: SagaStream(o) in streams && streams[SagaStream(o)] != []
    requires m in SweepMessages(streams, orders, cutoff)
    ensures SagaStream(o) in streams && streams[SagaStream(o)] != [] && Concerns(m, o)
    ensures var was := streams[SagaStream(o)];
            was[|was| - 1].occurredAt < cutoff && SagaOf(Payloads(was)).status in {Running, Compensating}
  {
    hide SagaOf, Sweep, Legal, Rested, Concerns;
    SweepMessagesAre(streams, orders, cutoff, m);
    o :| o in orders && m in Announcements(Sweep(streams[SagaStream(o)], cutoff));
    SweepTells(o, streams[SagaStream(o)], cutoff);
  }

  /** And a whole sweep has told of each saga that was late. */
  lemma {:induction false} WholeSweepTells(streams: map<StreamId, seq<StoredEvent>>, orders: seq<OrderId>, cutoff: nat,
                                            o: OrderId)
    requires StoredSound(streams) && forall p | p in orders :: SagaStream(p) in streams
    requires SagaStream(o) in streams && streams[SagaStream(o)] != []
    requires SagaOf(Payloads(streams[SagaStream(o)])).status in {Running, Compensating} ==> o in orders
    ensures var was := streams[SagaStream(o)];
            was[|was| - 1].occurredAt < cutoff ==>
              TimedOutTells(SagaOf(Payloads(was)), o, SweepMessages(streams, orders, cutoff))
  {
    hide SagaOf, Sweep, Legal, Rested, TimedOutTells, SweepMessages;
    var was, all := streams[SagaStream(o)], SweepMessages(streams, orders, cutoff);
    if o in orders {
      SweepTells(o, was, cutoff);
      forall m | m in Announcements(Sweep(was, cutoff)) ensures m in all {
        SweepMessagesAre(streams, orders, cutoff, m);
      }
      if was[|was| - 1].occurredAt < cutoff {
        TellsByMore(SagaOf(Payloads(was)), o, Announcements(Sweep(was, cutoff)), all);
      }
    } else {
      NothingToTell(SagaOf(Payloads(was)), o, all);
    }
  }

  lemma NothingToTell(s: Saga, o: OrderId, ms: seq<Message>)
    requires s.status !in {Running, Compensating}
    ensures TimedOutTells(s, o, ms)
  {
  }

  /** What a round that swept the first `n` sagas and sent `news` shows, saga by saga. */
  lemma {:induction false} RoundShows(was: map<StreamId, seq<StoredEvent>>, now: map<StreamId, seq<StoredEvent>>,
                                       orders: seq<OrderId>, n: nat, cutoff: nat, news: seq<Message>, o: OrderId)
    requires StoredSound(was) && Unsettled(was, orders) && Ascending(orders) && SweptUpTo(was, now, orders, n, cutoff)
    requires n == |orders| ==> news == SweepMessages(was, orders, cutoff)
    requires SagaStream(o) in was
    ensures var last, s := was[SagaStream(o)][|was[SagaStream(o)]| - 1], SagaOf(Payloads(was[SagaStream(o)]));
            && SagaStream(o) in now
            && (last.occurredAt >= cutoff || s.status != Running ==> now[SagaStream(o)] == was[SagaStream(o)])
            && (n == |orders| && last.occurredAt < cutoff ==>
                  && TimedOutTells(s, o, news)
                  && (s.status == Running ==> TimedOutOnce(o, was[SagaStream(o)], now[SagaStream(o)])))
  {
    hide SagaOf, Legal, Rested, Swept, SweptUpTo, SweepMessages, TimedOutOnce, TimedOutTells, InFlight;
    SweptOrLeft(was, now, orders, n, cutoff);
    if Swept(was[SagaStream(o)], now[SagaStream(o)], cutoff) {
      SweptIsTimedOut(o, was[SagaStream(o)], now[SagaStream(o)], cutoff);
    }
    if n == |orders| {
      WholeSweepTells(was, orders, cutoff, o);
    }
  }

  /**
   A round of the watchdog, saga by saga: the age of the last stored event decides, and only a running saga changes.  Once
   the round is done, each late saga was timed out and its compensations or its rejection were sent.
   */
  ghost predicate LateOnesTimedOut(was: map<StreamId, seq<StoredEvent>>, now: map<StreamId, seq<StoredEvent>>,
                                   done: bool, cutoff: nat, news: seq<Message>)
    requires was.Keys == now.Keys
  {
    forall o | SagaStream(o) in was ::
      var before, after := was[SagaStream(o)], now[SagaStream(o)];
      && before != []
      && (before[|before| - 1].occurredAt >= cutoff ==> after == before)
      && (SagaOf(Payloads(before)).status != Running ==> after == before)
      && (done && before[|before| - 1].occurredAt < cutoff ==>
            && TimedOutTells(SagaOf(Payloads(before)), o, news)
            && (SagaOf(Payloads(before)).status == Running ==> TimedOutOnce(o, before, after)))
  }

  /** The saga of `o` is not settled and its last event is older than the cutoff. */
  ghost predicate IsLate(was: map<StreamId, seq<StoredEvent>>, cutoff: nat, o: OrderId) {
    && SagaStream(o) in was && was[SagaStream(o)] != []
    && was[SagaStream(o)][|was[SagaStream(o)]| - 1].occurredAt < cutoff
    && SagaOf(Payloads(was[SagaStream(o)])).status in {Running, Compensating}
  }

  /** Nothing is sent but for late sagas. */
  ghost predicate OnlyLateOnesConcerned(was: map<StreamId, seq<StoredEvent>>, cutoff: nat, news: seq<Message>) {
    forall m | m in news :: exists o :: Concerns(m, o) && IsLate(was, cutoff, o)
  }

  lemma RoundShowsAll(was: map<StreamId, seq<StoredEvent>>, now: map<StreamId, seq<StoredEvent>>, orders: seq<OrderId>,
                      n: nat, cutoff: nat, news: seq<Message>, done: bool)
    requires StoredSound(was) && Unsettled(was, orders) && Ascending(orders) && SweptUpTo(was, now, orders, n, cutoff)
    requires done ==> n == |orders| && news == SweepMessages(was, orders, cutoff)
    ensures was.Keys == now.Keys && LateOnesTimedOut(was, now, done, cutoff, news)
  {
    hide SagaOf, Legal, Rested, Swept, SweepMessages, TimedOutOnce, TimedOutTells, Unsettled;
    forall o | SagaStream(o) in was
      ensures var before, after := was[SagaStream(o)], now[SagaStream(o)];
              && before != []
              && (before[|before| - 1].occurredAt >= cutoff ==> after == before)
              && (SagaOf(Payloads(before)).status != Running ==> after == before)
              && (done && before[|before| - 1].occurredAt < cutoff ==>
                    && TimedOutTells(SagaOf(Payloads(before)), o, news)
                    && (SagaOf(Payloads(before)).status == Running ==> TimedOutOnce(o, before, after)))
    {
      RoundShows(was, now, orders, n, cutoff, if done then news else SweepMessages(was, orders, cutoff), o);
    }
  }

  /** All that a round sent, be it cut short, is about sagas that were late. */
  lemma NewsConcern(was: map<StreamId, seq<StoredEvent>>, orders: seq<OrderId>, cutoff: nat, before: seq<Message>,
                    after: seq<Message>)
    requires StoredSound(was) && forall o | o in orders :: SagaStream(o) in was
    requires before <= after <= before + SweepMessages(was, orders, cutoff)
    ensures OnlyLateOnesConcerned(was, cutoff, after[|before|..])
  {
    hide SagaOf, Legal, Rested, SweepMessages, Concerns;
    forall m | m in after[|before|..] ensures exists o :: Concerns(m, o) && IsLate(was, cutoff, o) {
      var i :| 0 <= i < |after[|before|..]| && after[|before|..][i] == m;
      var all := SweepMessages(was, orders, cutoff);
      assert (before + all)[|before| + i] == m && all[i] == m;
      var o := SweptMessagesConcern(was, orders, cutoff, m);
    }
  }

  lemma {:induction false} RoundIsShown(was: map<StreamId, seq<StoredEvent>>, now: map<StreamId, seq<StoredEvent>>,
                                         orders: seq<OrderId>, n: nat, cutoff: nat, sent: seq<Message>,
                                         after: seq<Message>, done: bool)
    requires StoredSound(was) && Unsettled(was, orders) && Ascending(orders)
    requires SweptUpTo(was, now, orders, n, cutoff) && n <= |orders|
    requires sent <= after <= sent + SweepMessages(was, orders[..n], cutoff)
    requires done ==> n == |orders| && after == sent + SweepMessages(was, orders[..n], cutoff)
    ensures now.Keys == was.Keys && forall id | id in now && !id.SagaStream? :: now[id] == was[id]
    ensures forall o | SagaStream(o) in now ::
              || Swept(was[SagaStream(o)], now[SagaStream(o)], cutoff)
              || (!done && now[SagaStream(o)] == was[SagaStream(o)])
    ensures done ==> forall o | SagaStream(o) in now :: !RunsStale(now[SagaStream(o)], cutoff)
    ensures LateOnesTimedOut(was, now, done, cutoff, after[|sent|..])
    ensures OnlyLateOnesConcerned(was, cutoff, after[|sent|..])
  {
    hide SagaOf, Swept, SweptUpTo, StoredSound, RunsStale, LateOnesTimedOut, OnlyLateOnesConcerned, Ascending;
    hide SweepMessages;
    SweptOrLeft(was, now, orders, n, cutoff);
    if done {
      assert orders[..n] == orders;
      assert after[|sent|..] == SweepMessages(was, orders, cutoff);
      NoStaleRunIsLeft(was, now, cutoff);
    }
    RoundShowsAll(was, now, orders, n, cutoff, after[|sent|..], done);
    assert forall o | o in orders[..n] :: o in orders;
    NewsConcern(was, orders[..n], cutoff, sent, after);
  }
}
