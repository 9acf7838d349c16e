/**
 The warehouse read model: one row per beer with its current quantity.

 Every availability event carries the new cumulative quantity, so projecting is an upsert and the last event wins.  A
 rebuild therefore equals the replayed aggregates; live delivery does exactly when the newest event of a beer comes last.
 */
module StockReadModel {
  import opened Messages
  import opened EventStore
  import opened AvailabilityAggregate
  import opened Soundness
  import opened Protocol
  import opened ProtocolInvariant
  import opened SampleWorlds

  datatype Line = Line(beer: BeerId, name: string, quantity: int)

  /** The events that the projector subscribes to; a refusal carries no new quantity. */
  predicate Carries(e: Event) {
    e.AvailabilityUpdatedDueToProductionOrder? || e.BeerAvailabilityUpdated? || e.AvailabilityCompensated?
  }

  function LineOf(e: Event): Line
    requires Carries(e)
  {
    Line(e.beer, e.name, e.quantity)
  }

  /** The row of beer `b` after a sequence of events arrived. */
  function LineAfter(arrived: seq<Event>, b: BeerId): Option<Line> {
    if arrived == [] then None
    else
      var e := arrived[|arrived| - 1];
      if Carries(e) && e.beer == b then Some(LineOf(e)) else LineAfter(arrived[..|arrived| - 1], b)
  }

  lemma LineAfterSnoc(arrived: seq<Event>, e: Event, b: BeerId)
    ensures LineAfter(arrived + [e], b) == if Carries(e) && e.beer == b then Some(LineOf(e)) else LineAfter(arrived, b)
  {
    assert (arrived + [e])[..|arrived|] == arrived;
  }

  class AvailabilityService {
    var availabilities: map<BeerId, Line>
    ghost var arrived: seq<Event>

    ghost predicate Valid()
      reads this
    {
      forall b :: LineAfter(arrived, b) == if b in availabilities then Some(availabilities[b]) else None
    }

    constructor ()
      ensures Valid() && arrived == []
    {
      availabilities, arrived := map[], [];
    }

    method UpsertAvailability(line: Line, ghost e: Event)
      requires Valid() && Carries(e) && LineOf(e) == line
      modifies this
      ensures Valid() && arrived == old(arrived) + [e]
    {
      hide LineAfter;
      Arrives(e);
      availabilities := availabilities[line.beer := line];
      arrived := arrived + [e];
    }

    lemma Arrives(e: Event)
      ensures forall b :: LineAfter(arrived + [e], b)
                          == if Carries(e) && e.beer == b then Some(LineOf(e)) else LineAfter(arrived, b)
    {
      hide LineAfter;
      forall b ensures LineAfter(arrived + [e], b)
                       == if Carries(e) && e.beer == b then Some(LineOf(e)) else LineAfter(arrived, b)
      {
        LineAfterSnoc(arrived, e, b);
      }
    }

    /** The projection handlers. */
    method Handle(e: Event)
      requires Valid()
      modifies this
      ensures Valid() && arrived == old(arrived) + [e]
    {
      hide LineAfter;
      match e {
        case AvailabilityUpdatedDueToProductionOrder(b, n, q) => UpsertAvailability(Line(b, n, q), e);
        case BeerAvailabilityUpdated(b, n, q, _) => UpsertAvailability(Line(b, n, q), e);
        case AvailabilityCompensated(b, n, q, _) => UpsertAvailability(Line(b, n, q), e);
        case _ =>
          Arrives(e);
          arrived := arrived + [e];
      }
    }
  }

  // ---- rows and replayed aggregates ----

  predicate EverCarries(es: seq<Event>) {
    exists i | 0 <= i < |es| :: Carries(es[i])
  }

  /** What the table should say about a beer: nothing before its first quantity, and then its replayed stock. */
  function ReplayedLine(es: seq<Event>): Option<Line> {
    if EverCarries(es) then Some(Line(StockOf(es).beer, StockOf(es).name, StockOf(es).quantity)) else None
  }

  lemma {:induction false} RowIsTheReplayedStock(es: seq<Event>, b: BeerId)
    requires Homed(AvailabilityStream(b), es)
    ensures LineAfter(es, b) == ReplayedLine(es)
  {
    if es == [] {
      NothingArrived(b);
    } else {
      hide LineAfter, StockOf;
      var p, e := es[..|es| - 1], es[|es| - 1];
      assert es == p + [e];
      RowIsTheReplayedStock(p, b);
      LineAfterSnoc(p, e, b);
      StockOfSnoc(p, e);
      BeerOfStream(b, es);
      assert HomeOf(e) == AvailabilityStream(b);
      assert EverCarries(es) <==> EverCarries(p) || Carries(e) by {
        if i :| 0 <= i < |p| && Carries(p[i]) {
          assert Carries(es[i]);
        }
        if Carries(e) {
          assert Carries(es[|p|]);
        }
      }
      if EverCarries(p) {
        NonEmptyBeer(p, b);
      }
    }
  }

  lemma NothingArrived(b: BeerId)
    ensures LineAfter([], b) == None
  {
  }

  lemma NonEmptyBeer(p: seq<Event>, b: BeerId)
    requires Homed(AvailabilityStream(b), p) && EverCarries(p)
    ensures StockOf(p).beer == b
  {
    hide StockOf;
    BeerOfStream(b, p);
  }

  /** `i` is the newest event of the sequence that gives beer `b` a quantity. */
  predicate NewestAt(es: seq<Event>, b: BeerId, i: nat) {
    && i < |es| && Carries(es[i]) && es[i].beer == b
    && forall j | i < j < |es| && Carries(es[j]) :: es[j].beer != b
  }

  predicate NeverCarried(es: seq<Event>, b: BeerId) {
    forall i | 0 <= i < |es| && Carries(es[i]) :: es[i].beer != b
  }

  /** The table shows the newest arrival of the beer, and nothing before there is one. */
  lemma {:induction false} NewestArrivalShows(es: seq<Event>, b: BeerId)
    ensures LineAfter(es, b).None? <==> NeverCarried(es, b)
    ensures forall i: nat | NewestAt(es, b, i) :: LineAfter(es, b) == Some(LineOf(es[i]))
    ensures LineAfter(es, b).Some? ==> exists i: nat :: NewestAt(es, b, i)
  {
    if es == [] {
      NothingArrived(b);
    } else {
      hide LineAfter;
      var p, e := es[..|es| - 1], es[|es| - 1];
      assert es == p + [e];
      NewestArrivalShows(p, b);
      LineAfterSnoc(p, e, b);
      if Carries(e) && e.beer == b {
        assert NewestAt(es, b, |es| - 1);
      } else {
        forall i: nat | NewestAt(es, b, i) ensures NewestAt(p, b, i) && p[i] == es[i] {
        }
        if LineAfter(p, b).Some? {
          var i: nat :| NewestAt(p, b, i);
          assert NewestAt(es, b, i);
        }
      }
    }
  }

  /** What a delivery and a stream say about a beer in the end: the same line, or neither says anything. */
  ghost predicate EndAlike(arrived: seq<Event>, es: seq<Event>, b: BeerId) {
    || (NeverCarried(arrived, b) && NeverCarried(es, b))
    || exists i: nat, k: nat ::
         NewestAt(arrived, b, i) && NewestAt(es, b, k) && LineOf(arrived[i]) == LineOf(es[k])
  }

  /**
   The live row is right in every reachable world exactly if the newest arrival of the beer that carries a quantity says
   what the newest such event of its stream says, whatever arrived before it, how often, and in whatever order.
   */
  lemma {:induction false} LiveRowIsRightIff(w: World, arrived: seq<Event>, b: BeerId)
    requires Reachable(w)
    ensures LineAfter(arrived, b) == ReplayedLine(StockStream(w, b)) <==> EndAlike(arrived, StockStream(w, b), b)
  {
    hide Reachable, LineAfter, ReplayedLine, NeverCarried, Inv;
    ReachableInv(w);
    var es := StockStream(w, b);
    StockStreamIsHomed(w, b);
    RowIsTheReplayedStock(es, b);
    NewestArrivalShows(arrived, b);
    NewestArrivalShows(es, b);
    if LineAfter(arrived, b).Some? && LineAfter(arrived, b) == LineAfter(es, b) {
      var i: nat :| NewestAt(arrived, b, i);
      var k: nat :| NewestAt(es, b, k);
      assert LineOf(arrived[i]) == LineOf(es[k]);
    }
  }

  /** The events of a delivery that belong to beer `b`, in the order in which they arrived. */
  function Share(arrived: seq<Event>, b: BeerId): seq<Event> {
    if arrived == [] then []
    else Share(arrived[..|arrived| - 1], b)
         + if HomeOf(arrived[|arrived| - 1]) == AvailabilityStream(b) then [arrived[|arrived| - 1]] else []
  }

  lemma ShareSnoc(arrived: seq<Event>, e: Event, b: BeerId)
    ensures Share(arrived + [e], b)
            == Share(arrived, b) + if HomeOf(e) == AvailabilityStream(b) then [e] else []
  {
    assert (arrived + [e])[..|arrived|] == arrived;
  }

  lemma {:induction false} OnlyTheShareMatters(arrived: seq<Event>, b: BeerId)
    ensures LineAfter(arrived, b) == LineAfter(Share(arrived, b), b)
  {
    if arrived != [] {
      hide LineAfter, Share;
      var p, e := arrived[..|arrived| - 1], arrived[|arrived| - 1];
      assert arrived == p + [e];
      OnlyTheShareMatters(p, b);
      LineAfterSnoc(p, e, b);
      ShareSnoc(p, e, b);
      if HomeOf(e) == AvailabilityStream(b) {
        LineAfterSnoc(Share(p, b), e, b);
      } else {
        assert Share(p, b) + [] == Share(p, b);
      }
    } else {
      NothingArrived(b);
    }
  }

  lemma InOrderEndsAlike(arrived: seq<Event>, b: BeerId)
    ensures EndAlike(arrived, Share(arrived, b), b)
  {
    hide LineAfter, Share, NeverCarried;
    OnlyTheShareMatters(arrived, b);
    NewestArrivalShows(arrived, b);
    NewestArrivalShows(Share(arrived, b), b);
    if LineAfter(arrived, b).Some? {
      var i: nat :| NewestAt(arrived, b, i);
      var k: nat :| NewestAt(Share(arrived, b), b, k);
      assert LineOf(arrived[i]) == LineOf(Share(arrived, b)[k]);
    }
  }

  /**
   So it is right if the events of the beer arrived in order and once each, whatever arrived of others; a beer with
   nothing but refusals has no row.
   */
  lemma LiveRowIsTheReplayedStock(w: World, arrived: seq<Event>, b: BeerId)
    requires Reachable(w) && Share(arrived, b) == StockStream(w, b)
    ensures LineAfter(arrived, b) == ReplayedLine(StockStream(w, b))
  {
    hide Reachable, LineAfter, Share, ReplayedLine;
    InOrderEndsAlike(arrived, b);
    LiveRowIsRightIff(w, arrived, b);
  }

  lemma StockStreamIsHomed(w: World, b: BeerId)
    requires Inv(w)
    ensures Homed(AvailabilityStream(b), StockStream(w, b))
  {
    if StockStream(w, b) != [] {
      assert SoundStream(AvailabilityStream(b), StockStream(w, b));
    }
  }

  /** Two productions of one beer, delivered in the wrong order, leave the wrong row although both arrived. */
  lemma {:induction false} LiveRowCanBeWrong() returns (w: World, arrived: seq<Event>)
    ensures Reachable(w) && |StockStream(w, 7)| == 2 && arrived == [StockStream(w, 7)[1], StockStream(w, 7)[0]]
    ensures LineAfter(arrived, 7) != ReplayedLine(StockStream(w, 7))
  {
    hide Reachable, LineAfter, ReplayedLine;
    var v := Brewing();
    var more := UpdateAvailabilityDueToProductionOrder(7, "ale", 3);
    var w1 := SendingStep(v, Place(more), more);
    var first := AvailabilityUpdatedDueToProductionOrder(7, "ale", 5);
    var second := AvailabilityUpdatedDueToProductionOrder(7, "ale", 8);
    assert StockOf([first]).quantity == 5 && StockOf([first]).beer == 7;
    w := WritingStep(w1, Deliver(more), second);
    assert StockStream(w, 7) == [first, second];
    arrived := [second, first];
    assert NewestAt(arrived, 7, 1) && NewestAt(StockStream(w, 7), 7, 1);
    LiveRowIsRightIff(w, arrived, 7);
  }

  // ---- the rebuild ----

  lemma {:induction false} StrangersDoNotMatter(arrived: seq<Event>, es: seq<Event>, b: BeerId)
    requires forall i | 0 <= i < |es| :: HomeOf(es[i]) != AvailabilityStream(b)
    ensures LineAfter(arrived + es, b) == LineAfter(arrived, b)
  {
    hide LineAfter;
    if es == [] {
      assert arrived + es == arrived;
    } else {
      var n := |es| - 1;
      StrangersDoNotMatter(arrived, es[..n], b);
      assert arrived + es == arrived + es[..n] + [es[n]];
      LineAfterSnoc(arrived + es[..n], es[n], b);
    }
  }

  lemma {:induction false} FirstArrivals(arrived: seq<Event>, es: seq<Event>, b: BeerId)
    requires LineAfter(arrived, b) == None
    ensures LineAfter(arrived + es, b) == LineAfter(es, b)
  {
    hide LineAfter;
    if es == [] {
      assert arrived + es == arrived;
      NothingArrived(b);
    } else {
      var n := |es| - 1;
      FirstArrivals(arrived, es[..n], b);
      assert arrived + es == arrived + es[..n] + [es[n]];
      LineAfterSnoc(arrived + es[..n], es[n], b);
      assert es == es[..n] + [es[n]];
      LineAfterSnoc(es[..n], es[n], b);
    }
  }

  /** Every availability stream holds only events of its own beer. */
  ghost predicate StocksHomed(ss: Streams) {
    forall b :: Homed(AvailabilityStream(b), Stream(ss, AvailabilityStream(b)))
  }

  /** After replaying the streams `ids`, exactly their beers have rows, each as its own stream gives it. */
  ghost predicate Rebuilt(ss: Streams, ids: seq<StreamId>, arrived: seq<Event>) {
    forall b :: LineAfter(arrived, b)
                == if AvailabilityStream(b) in ids then LineAfter(Stream(ss, AvailabilityStream(b)), b) else None
  }

  lemma ReplayedOneMore(ss: Streams, ids: seq<StreamId>, id: StreamId, arrived: seq<Event>)
    requires StocksHomed(ss) && Rebuilt(ss, ids, arrived) && id !in ids && id.AvailabilityStream?
    ensures Rebuilt(ss, ids + [id], arrived + Stream(ss, id))
  {
    hide LineAfter;
    var es := Stream(ss, id);
    assert Homed(AvailabilityStream(id.beer), es);
    forall b
      ensures LineAfter(arrived + es, b)
              == if AvailabilityStream(b) in ids + [id] then LineAfter(Stream(ss, AvailabilityStream(b)), b) else None
    {
      if b == id.beer {
        FirstArrivals(arrived, es, b);
      } else {
        StrangersDoNotMatter(arrived, es, b);
      }
    }
  }

  lemma NothingRebuilt(ss: Streams)
    ensures Rebuilt(ss, [], [])
  {
  }

  lemma RebuiltIsReplayed(ss: Streams, ids: seq<StreamId>, arrived: seq<Event>, b: BeerId)
    requires StocksHomed(ss) && Rebuilt(ss, ids, arrived)
    requires AvailabilityStream(b) in ss ==> AvailabilityStream(b) in ids
    ensures LineAfter(arrived, b) == ReplayedLine(Stream(ss, AvailabilityStream(b)))
  {
    hide LineAfter, StockOf;
    RowIsTheReplayedStock(Stream(ss, AvailabilityStream(b)), b);
    if Stream(ss, AvailabilityStream(b)) == [] {
      NothingArrived(b);
    }
  }

  lemma StoredStreamsAreListed(store: InMemoryEventStore, ids: seq<StreamId>, b: BeerId)
    requires forall id :: id in ids <==> id in store.streams && KindOf(id) == AvailabilityKind
    ensures AvailabilityStream(b) in store.Events() ==> AvailabilityStream(b) in ids
  {
  }

  lemma RowsAreTheTable(service: AvailabilityService, b: BeerId)
    requires service.Valid()
    ensures LineAfter(service.arrived, b)
            == if b in service.availabilities then Some(service.availabilities[b]) else None
  {
  }

  /** Replays one stream through the projection handlers. */
  method ReplayStream(store: InMemoryEventStore, service: AvailabilityService, id: StreamId) returns (n: nat)
    requires service.Valid()
    modifies service
    ensures service.Valid() && n == |Stream(store.Events(), id)|
    ensures service.arrived == old(service.arrived) + Stream(store.Events(), id)
  {
    hide AvailabilityService.Valid;
    var stored := store.ReadStream(id);
    n := 0;
    for j := 0 to |stored|
      invariant service.Valid() && n == j && service.arrived == old(service.arrived) + Payloads(stored)[..j]
    {
      service.Handle(stored[j].event);
      n := n + 1;
    }
    assert Payloads(stored)[..|stored|] == Payloads(stored);
  }

  /**
   Replays every availability stream through the projector; the caller has emptied the table.  The table then shows the
   replayed stock of every beer that ever had a quantity, and no other beer; saga streams contribute nothing.
   */
  method RebuildReadModel(store: InMemoryEventStore, service: AvailabilityService) returns (replayed: nat)
    requires service.Valid() && service.arrived == [] && StocksHomed(store.Events())
    modifies service
    ensures service.Valid() && replayed == |service.arrived|
    ensures forall b :: (if b in service.availabilities then Some(service.availabilities[b]) else None)
                        == ReplayedLine(Stream(store.Events(), AvailabilityStream(b)))
  {
    hide LineAfter, Rebuilt, StocksHomed, ReplayedLine, AvailabilityService.Valid, InMemoryEventStore.Events;
    var ids := store.ListStreams(AvailabilityKind);
    replayed := 0;
    NothingRebuilt(store.Events());
    assert ids[..0] == [];
    for i := 0 to |ids|
      invariant service.Valid() && replayed == |service.arrived|
      invariant Rebuilt(store.Events(), ids[..i], service.arrived)
    {
      ghost var before := service.arrived;
      assert ids[i] in ids && ids[i] !in ids[..i];
      var n := ReplayStream(store, service, ids[i]);
      replayed := replayed + n;
      ReplayedOneMore(store.Events(), ids[..i], ids[i], before);
      assert ids[..i + 1] == ids[..i] + [ids[i]];
    }
    assert ids[..|ids|] == ids;
    forall b ensures (if b in service.availabilities then Some(service.availabilities[b]) else None)
                     == ReplayedLine(Stream(store.Events(), AvailabilityStream(b)))
    {
      StoredStreamsAreListed(store, ids, b);
      RebuiltIsReplayed(store.Events(), ids, service.arrived, b);
      RowsAreTheTable(service, b);
    }
  }
}
