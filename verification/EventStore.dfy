/** The in-memory event store, the service bus, and loading and saving of the three aggregates. */
module EventStore {
  import opened Messages
  import opened AvailabilityAggregate
  import opened AllocationSaga
  import opened SalesOrderAggregate

  datatype StoredEvent = StoredEvent(stream: StreamId, version: nat, occurredAt: nat, event: Event)

  datatype Outcome = Done | Failure(error: Error)

  /** The domain events of a stored stream. */
  function Payloads(stored: seq<StoredEvent>): (es: seq<Event>)
    ensures |es| == |stored|
    ensures forall i | 0 <= i < |stored| :: es[i] == stored[i].event
  {
    seq(|stored|, i requires 0 <= i < |stored| => stored[i].event)
  }

  datatype Kind = AvailabilityKind | SagaKind | SalesOrderKind

  function KindOf(id: StreamId): Kind {
    match id
    case AvailabilityStream(_) => AvailabilityKind
    case SagaStream(_) => SagaKind
    case SalesOrderStream(_) => SalesOrderKind
  }

  /** Stream names sort by the identifier inside them. */
  function KeyOf(id: StreamId): nat {
    match id
    case AvailabilityStream(b) => b
    case SagaStream(o) => o
    case SalesOrderStream(o) => o
  }

  lemma {:induction false} LeastKey(ids: set<StreamId>)
    requires ids != {}
    ensures exists id :: id in ids && forall other | other in ids :: KeyOf(id) <= KeyOf(other)
    decreases |ids|
  {
    var x :| x in ids;
    if ids - {x} != {} {
      LeastKey(ids - {x});
      var y :| y in ids - {x} && forall other | other in ids - {x} :: KeyOf(y) <= KeyOf(other);
      var least := if KeyOf(x) <= KeyOf(y) then x else y;
      forall other | other in ids ensures KeyOf(least) <= KeyOf(other) {
        assert other == x || other in ids - {x};
      }
    } else {
      assert ids == {x};
    }
  }

  function Stored(streams: map<StreamId, seq<StoredEvent>>, id: StreamId): seq<StoredEvent> {
    if id in streams then streams[id] else []
  }

  /** No stream but `id` differs. */
  ghost predicate SameBut(before: map<StreamId, seq<StoredEvent>>, after: map<StreamId, seq<StoredEvent>>, id: StreamId)
  {
    forall other | other != id ::
      (other in before <==> other in after) && (other in before ==> before[other] == after[other])
  }

  /** A batch as it is stored: consecutive versions from the expected one, all at the same time. */
  function Stamped(id: StreamId, expectedVersion: nat, clock: nat, events: seq<Event>): (stored: seq<StoredEvent>)
    ensures |stored| == |events|
    ensures forall i | 0 <= i < |events| :: stored[i] == StoredEvent(id, expectedVersion + i + 1, clock, events[i])
  {
    seq(|events|, i requires 0 <= i < |events| => StoredEvent(id, expectedVersion + i + 1, clock, events[i]))
  }

  lemma PayloadsOfStamped(before: seq<StoredEvent>, id: StreamId, expectedVersion: nat, clock: nat, events: seq<Event>)
    ensures Payloads(before + Stamped(id, expectedVersion, clock, events)) == Payloads(before) + events
  {
  }

  /** The newest events of a stream that a batch was stored in. */
  ghost predicate EndsWith(stored: seq<StoredEvent>, id: StreamId, expectedVersion: nat, clock: nat, events: seq<Event>) {
    && |stored| == expectedVersion + |events|
    && forall i | 0 <= i < |events| ::
         stored[expectedVersion + i] == StoredEvent(id, expectedVersion + i + 1, clock, events[i])
  }

  lemma StampedIsTheEnd(before: seq<StoredEvent>, id: StreamId, clock: nat, events: seq<Event>)
    ensures EndsWith(before + Stamped(id, |before|, clock, events), id, |before|, clock, events)
  {
  }

  /** An append is accepted exactly if the stream has the version its caller expects. */
  function AppendOutcome(ss: Streams, id: StreamId, expectedVersion: nat): Outcome {
    if |Stream(ss, id)| == expectedVersion then Done else Failure(Concurrency)
  }

  class InMemoryEventStore {
    var streams: map<StreamId, seq<StoredEvent>>
    var appended: seq<Event>
    var clock: nat // the time that the next append will record

    /** Versions count 1, 2, 3, ... within each stream, so a stream's length is its head version. */
    ghost predicate Valid()
      reads this
    {
      forall id, i | id in streams && 0 <= i < |streams[id]| ::
        streams[id][i].version == i + 1 && streams[id][i].stream == id
    }

    ghost function Events(): Streams
      reads this
    {
      map id | id in streams :: Payloads(streams[id])
    }

    constructor ()
      ensures Valid() && Events() == map[] && appended == []
    {
      streams, appended, clock := map[], [], 0;
    }

    method ReadStream(id: StreamId) returns (stored: seq<StoredEvent>)
      ensures stored == Stored(streams, id)
      ensures Payloads(stored) == Stream(Events(), id)
    {
      stored := Stored(streams, id);
    }

    /** Appends a batch if the stream still has the expected length, and otherwise changes nothing. */
    method Append(id: StreamId, expectedVersion: nat, events: seq<Event>) returns (r: Outcome)
      requires Valid()
      modifies this`streams, this`appended
      ensures Valid()
      ensures r == AppendOutcome(old(Events()), id, expectedVersion)
      ensures r.Failure? ==> streams == old(streams) && appended == old(appended)
      ensures r.Done? ==>
                && streams == old(streams)[id := Stored(old(streams), id) + Stamped(id, expectedVersion, clock, events)]
                && Events() == old(Events())[id := old(Stream(Events(), id)) + events]
                && appended == old(appended) + events
      ensures r.Done? ==> id in streams && EndsWith(streams[id], id, expectedVersion, clock, events)
    {
      hide EndsWith;
      var stream := Stored(streams, id);
      ghost var before, stamped := stream, Stamped(id, expectedVersion, clock, events);
      if |stream| != expectedVersion {
        return Failure(Concurrency);
      }
      for i := 0 to |events|
        invariant stream == before + stamped[..i]
        invariant appended == old(appended) + events[..i]
        invariant streams == old(streams)
      {
        stream := stream + [StoredEvent(id, expectedVersion + i + 1, clock, events[i])];
        appended := appended + [events[i]];
      }
      assert events[..|events|] == events && stamped[..|events|] == stamped;
      streams := streams[id := stream];
      PayloadsOfStamped(before, id, expectedVersion, clock, events);
      StampedIsTheEnd(before, id, clock, events);
      return Done;
    }

    /** The streams of one kind, in the order of their keys. */
    method ListStreams(kind: Kind) returns (ids: seq<StreamId>)
      ensures forall id :: id in ids <==> id in streams && KindOf(id) == kind
      ensures forall i, j | 0 <= i < j < |ids| :: KeyOf(ids[i]) < KeyOf(ids[j])
    {
      ids := [];
      var todo := set id | id in streams && KindOf(id) == kind;
      while todo != {}
        invariant forall id :: id in streams && KindOf(id) == kind <==> id in ids || id in todo
        invariant forall i, j | 0 <= i < j < |ids| :: KeyOf(ids[i]) < KeyOf(ids[j])
        invariant forall i, id | 0 <= i < |ids| && id in todo :: KeyOf(ids[i]) < KeyOf(id)
        invariant forall id | id in todo :: KindOf(id) == kind
        decreases |todo|
      {
        LeastKey(todo);
        var id :| id in todo && forall other | other in todo :: KeyOf(id) <= KeyOf(other);
        forall other | other in todo - {id} ensures KeyOf(id) < KeyOf(other) {
          assert KindOf(id) == KindOf(other) && id != other;
        }
        ids, todo := ids + [id], todo - {id};
      }
    }
  }

  /** Publishing may fail at any point; `failures` counts how often it did. */
  class ServiceBus {
    var sent: seq<Message>
    var failures: nat

    constructor ()
      ensures sent == [] && failures == 0
    {
      sent, failures := [], 0;
    }

    method Send(m: Message) returns (r: Outcome)
      modifies this
      ensures r in {Done, Failure(BusFailure)}
      ensures sent == old(sent) + if r.Done? then [m] else []
      ensures failures == old(failures) + if r.Done? then 0 else 1
    {
      var delivered: bool := *;
      if delivered {
        sent := sent + [m];
        return Done;
      }
      failures := failures + 1;
      return Failure(BusFailure);
    }

    /** Sends a list of messages in order, stopping at the first failure. */
    method SendAll(ms: seq<Message>) returns (r: Outcome)
      modifies this
      ensures r in {Done, Failure(BusFailure)}
      ensures old(sent) <= sent <= old(sent) + ms
      ensures r.Done? ==> sent == old(sent) + ms && failures == old(failures)
      ensures r.Failure? ==> failures > old(failures)
    {
      for i := 0 to |ms|
        invariant sent == old(sent) + ms[..i] && failures == old(failures)
      {
        r := Send(ms[i]);
        if r.Failure? {
          assert old(sent) + ms == old(sent) + ms[..i] + ms[i..];
          return;
        }
      }
      assert ms[..|ms|] == ms;
      return Done;
    }
  }

  /** The append-then-publish step that saving an aggregate comes down to. */
  method Commit(store: InMemoryEventStore, bus: ServiceBus, id: StreamId, expectedVersion: nat, events: seq<Event>)
    returns (r: Outcome)
    requires store.Valid()
    modifies store`streams, store`appended, bus
    ensures store.Valid()
    ensures |old(Stream(store.Events(), id))| != expectedVersion ==>
              r == Failure(Concurrency) && store.streams == old(store.streams)
              && bus.sent == old(bus.sent) && bus.failures == old(bus.failures)
    ensures |old(Stream(store.Events(), id))| == expectedVersion ==>
              && r in {Done, Failure(BusFailure)}
              && store.Events() == old(store.Events())[id := old(Stream(store.Events(), id)) + events]
              && store.appended == old(store.appended) + events
              && id in store.streams
              && SameBut(old(store.streams), store.streams, id)
              && old(bus.sent) <= bus.sent <= old(bus.sent) + Published(events)
              && (r.Done? ==> bus.sent == old(bus.sent) + Published(events) && bus.failures == old(bus.failures))
              && (r.Failure? ==> bus.failures > old(bus.failures))
  {
    r := store.Append(id, expectedVersion, events);
    if r.Done? {
      r := bus.SendAll(Published(events));
    }
  }

  // ---- the repositories ----

  /** Rebuilds an aggregate by replaying its stream; an unwritten stream has no aggregate. */
  method GetAvailability(store: InMemoryEventStore, beer: BeerId) returns (found: bool, a: Availability)
    ensures fresh(a) && a.Valid() && a.uncommitted == []
    ensures a.history == Stream(store.Events(), AvailabilityStream(beer)) && found == (a.history != [])
  {
    var stored := store.ReadStream(AvailabilityStream(beer));
    a := new Availability();
    for i := 0 to |stored|
      invariant a.Replayed() && a.uncommitted == [] && a.history == Payloads(stored)[..i]
    {
      a.ApplyEvent(stored[i].event);
    }
    assert Payloads(stored)[..|stored|] == Payloads(stored);
    found := |stored| != 0;
  }

  method GetSaga(store: InMemoryEventStore, order: OrderId) returns (found: bool, s: OrderAllocationSaga)
    ensures fresh(s) && s.Valid() && s.uncommitted == []
    ensures s.history == Stream(store.Events(), SagaStream(order)) && found == (s.history != [])
  {
    var stored := store.ReadStream(SagaStream(order));
    s := new OrderAllocationSaga();
    for i := 0 to |stored|
      invariant s.Replayed() && s.uncommitted == [] && s.history == Payloads(stored)[..i]
    {
      s.ApplyEvent(stored[i].event);
    }
    assert Payloads(stored)[..|stored|] == Payloads(stored);
    found := |stored| != 0;
  }

  method GetSalesOrder(store: InMemoryEventStore, order: OrderId) returns (found: bool, s: SalesOrder)
    ensures fresh(s) && s.Valid() && s.uncommitted == []
    ensures s.history == Stream(store.Events(), SalesOrderStream(order)) && found == (s.history != [])
  {
    var stored := store.ReadStream(SalesOrderStream(order));
    s := new SalesOrder();
    for i := 0 to |stored|
      invariant s.Replayed() && s.uncommitted == [] && s.history == Payloads(stored)[..i]
    {
      s.ApplyEvent(stored[i].event);
    }
    assert Payloads(stored)[..|stored|] == Payloads(stored);
    found := |stored| != 0;
  }

  /**
   What saving promises, whichever aggregate it is: `base` is the history the aggregate was loaded with and `batch`
   what it recorded since.  The batch is stored exactly when nobody else wrote to the stream in between.
   */
  ghost predicate Saved(before: Streams, after: Streams, sentBefore: seq<Message>, sentAfter: seq<Message>,
                        id: StreamId, base: nat, batch: seq<Event>, r: Outcome)
  {
    if batch == [] then r == Done && after == before && sentAfter == sentBefore
    else if |Stream(before, id)| != base then r == Failure(Concurrency) && after == before && sentAfter == sentBefore
    else
      && r in {Done, Failure(BusFailure)}
      && after == Grow(before, id, batch)
      && sentBefore <= sentAfter <= sentBefore + Published(batch)
      && (r.Done? ==> sentAfter == sentBefore + Published(batch))
  }

  method SaveAvailability(store: InMemoryEventStore, bus: ServiceBus, a: Availability) returns (r: Outcome)
    requires store.Valid() && a.Valid()
    modifies store`streams, store`appended, bus, a`uncommitted
    ensures store.Valid() && a.Valid()
    ensures var n := |old(a.uncommitted)|;
            Saved(old(store.Events()), store.Events(), old(bus.sent), bus.sent, AvailabilityStream(a.beerId),
                  |a.history| - n, old(a.uncommitted), r)
    ensures a.uncommitted == if r.Done? then [] else old(a.uncommitted)
    ensures bus.failures >= old(bus.failures) && (r == Failure(BusFailure) <==> bus.failures > old(bus.failures))
  {
    if |a.uncommitted| == 0 {
      return Done;
    }
    r := Commit(store, bus, AvailabilityStream(a.beerId), a.version - |a.uncommitted|, a.uncommitted);
    if r.Done? {
      a.uncommitted := [];
    }
  }

  method SaveSaga(store: InMemoryEventStore, bus: ServiceBus, s: OrderAllocationSaga) returns (r: Outcome)
    requires store.Valid() && s.Valid()
    modifies store`streams, store`appended, bus, s`uncommitted
    ensures store.Valid() && s.Valid()
    ensures var n := |old(s.uncommitted)|;
            Saved(old(store.Events()), store.Events(), old(bus.sent), bus.sent, SagaStream(s.salesOrderId),
                  |s.history| - n, old(s.uncommitted), r)
    ensures s.uncommitted == if r.Done? then [] else old(s.uncommitted)
    ensures bus.failures >= old(bus.failures) && (r == Failure(BusFailure) <==> bus.failures > old(bus.failures))
    ensures SameBut(old(store.streams), store.streams, SagaStream(s.salesOrderId))
  {
    if |s.uncommitted| == 0 {
      return Done;
    }
    r := Commit(store, bus, SagaStream(s.salesOrderId), s.version - |s.uncommitted|, s.uncommitted);
    if r.Done? {
      s.uncommitted := [];
    }
  }

  method SaveSalesOrder(store: InMemoryEventStore, bus: ServiceBus, s: SalesOrder) returns (r: Outcome)
    requires store.Valid() && s.Valid()
    modifies store`streams, store`appended, bus, s`uncommitted
    ensures store.Valid() && s.Valid()
    ensures var n := |old(s.uncommitted)|;
            Saved(old(store.Events()), store.Events(), old(bus.sent), bus.sent, SalesOrderStream(s.salesOrderId),
                  |s.history| - n, old(s.uncommitted), r)
    ensures s.uncommitted == if r.Done? then [] else old(s.uncommitted)
    ensures bus.failures >= old(bus.failures) && (r == Failure(BusFailure) <==> bus.failures > old(bus.failures))
  {
    if |s.uncommitted| == 0 {
      return Done;
    }
    r := Commit(store, bus, SalesOrderStream(s.salesOrderId), s.version - |s.uncommitted|, s.uncommitted);
    if r.Done? {
      s.uncommitted := [];
    }
  }
}
