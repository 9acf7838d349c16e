/** Streams that only the system's own handlers wrote, and the fact that every handler keeps them so. */
module Soundness {
  import opened Messages
  import opened AvailabilityAggregate
  import opened AllocationSaga
  import opened SalesOrderAggregate
  import opened SagaLaws
  import opened Reactions

  /** All events of a stream belong to it. */
  predicate Homed(id: StreamId, es: seq<Event>) {
    forall i | 0 <= i < |es| :: HomeOf(es[i]) == id
  }

  predicate SoundStream(id: StreamId, es: seq<Event>) {
    && es != []
    && Homed(id, es)
    && match id
       case AvailabilityStream(_) => true
       case SagaStream(o) => Legal(o, es) && Rested(SagaOf(es))
       case SalesOrderStream(o) => es[0].SalesOrderCreated?
  }

  predicate Sound(ss: Streams) {
    forall id | id in ss :: SoundStream(id, ss[id])
  }

  lemma {:induction false} BeerOfStream(b: BeerId, es: seq<Event>)
    requires Homed(AvailabilityStream(b), es) && es != []
    ensures StockOf(es).beer == b
  {
    assert HomeOf(es[|es| - 1]) == AvailabilityStream(b);
  }

  lemma {:induction false} OrderOfStream(o: OrderId, es: seq<Event>)
    requires Homed(SalesOrderStream(o), es) && es != [] && es[0].SalesOrderCreated?
    ensures OrderOf(es).id == o && OrderOf(es).allocation != Unset
  {
    assert HomeOf(es[|es| - 1]) == SalesOrderStream(o);
    if |es| > 1 {
      OrderOfStream(o, es[..|es| - 1]);
    }
  }

  lemma LegalIsHomed(o: OrderId, es: seq<Event>)
    requires Legal(o, es)
    ensures Homed(SagaStream(o), es)
  {
    forall i | 0 <= i < |es| ensures HomeOf(es[i]) == SagaStream(o) {
      assert LegalNext(o, SagaOf(es[..i]), es[i]);
    }
  }

  lemma StockReactionIsHomed(ss: Streams, m: Message)
    requires Sound(ss) && Target(m).AvailabilityStream? && React(ss, m).Reaction?
    ensures Homed(Target(m), React(ss, m).events)
  {
    var es := Stream(ss, Target(m));
    if es != [] {
      BeerOfStream(Target(m).beer, es);
    }
  }

  lemma SalesReactionIsHomed(ss: Streams, m: Message)
    requires Sound(ss) && Target(m).SalesOrderStream? && React(ss, m).Reaction?
    ensures Homed(Target(m), React(ss, m).events)
    ensures Stream(ss, Target(m)) == [] && React(ss, m).events != [] ==> React(ss, m).events[0].SalesOrderCreated?
  {
    var es := Stream(ss, Target(m));
    if es != [] {
      OrderOfStream(Target(m).order, es);
    }
  }

  /** Whatever message arrives, its handler leaves the streams sound. */
  lemma {:induction false} ReactionsKeepSound(ss: Streams, m: Message)
    requires Sound(ss) && React(ss, m).Reaction?
    ensures Sound(Grow(ss, Target(m), React(ss, m).events))
  {
    var r, id := React(ss, m), Target(m);
    var es := Stream(ss, id);
    if r.events != [] {
      assert SoundStream(id, es + r.events) by {
        match id {
          case AvailabilityStream(_) => StockReactionIsHomed(ss, m);
          case SagaStream(o) =>
            SagaReactionKeepsLaws(es, m);
            LegalIsHomed(o, es + r.events);
          case SalesOrderStream(_) => SalesReactionIsHomed(ss, m);
        }
      }
    }
  }

  lemma {:induction false} SagaReactionKeepsLaws(es: seq<Event>, m: Message)
    requires Target(m).SagaStream? && Legal(Target(m).order, es) && Rested(SagaOf(es))
    requires m.OrderPlaced? || m.DomainEvent?
    ensures forall ss | Stream(ss, Target(m)) == es ::
              var r := React(ss, m);
              r.Reaction? && Legal(Target(m).order, es + r.events) && Rested(SagaOf(es + r.events))
  {
    var o := Target(m).order;
    assert es + [] == es;
    match m {
      case OrderPlaced(_, rows) =>
        if es == [] {
          StartKeepsLaws(o, rows);
          assert es + DecideStart(o, rows) == DecideStart(o, rows);
        }
      case DomainEvent(BeerAvailabilityUpdated(b, _, _, _)) => SucceededKeepsLaws(o, es, b);
      case DomainEvent(QuantityNotFound(b, _, q, a)) => FailedKeepsLaws(o, es, b, Shortage(b, q, a));
      case DomainEvent(AvailabilityCompensated(b, _, _, _)) => CompensatedKeepsLaws(o, es, b);
      case _ =>
    }
  }
}
