/**
 Resuming and timing out, tied to the protocol.

 A restart or a round of the watchdog handles every unfinished saga in one call.  However many of its messages the bus
 took before it failed, what such a call leaves behind is a world that the protocol's own steps lead to.
 */
module Sweeping {
  import opened Messages
  import opened AllocationSaga
  import opened SagaLaws
  import opened Reactions
  import opened EventStore
  import opened DurableExecution
  import opened Protocol
  import opened ProtocolInvariant
  import opened StockTheorems
  import opened AllOrNothing
  import opened Driving
  import opened Progress

  type Stored = map<StreamId, seq<StoredEvent>>

  /** The world with these streams and messages, and what `w` had produced. */
  ghost function Showing(w: World, streams: Stored, sent: set<Message>): World {
    w.(streams := EventsOf(streams), sent := sent)
  }

  ghost function EventsOf(streams: Stored): Streams {
    map id | id in streams :: Payloads(streams[id])
  }

  /** Between the messages before and all that could have been sent. */
  ghost predicate Within(before: set<Message>, after: set<Message>, ms: seq<Message>) {
    before <= after <= before + Sent(ms)
  }

  lemma PrefixIsWithin(before: seq<Message>, after: seq<Message>, ms: seq<Message>)
    requires before <= after <= before + ms
    ensures Within(Sent(before), Sent(after), ms)
  {
    forall m | m in after ensures m in Sent(before) + Sent(ms) {
      var i :| 0 <= i < |after| && after[i] == m;
      assert (before + ms)[i] == m;
    }
    forall m | m in before ensures m in Sent(after) {
      var i :| 0 <= i < |before| && before[i] == m;
      assert after[i] == m;
    }
  }

  lemma SplitWithin(before: set<Message>, after: set<Message>, a: seq<Message>, b: seq<Message>) returns (mid: set<Message>)
    requires Within(before, after, a + b)
    ensures Within(before, mid, a) && Within(mid, after, b)
  {
    mid := set m | m in after && m in before + Sent(a);
  }

  // ---- resuming ----

  lemma {:induction false} ResumingLeads(w: World, streams: Stored, orders: seq<OrderId>, sent: set<Message>)
    requires w.streams == EventsOf(streams) && forall o | o in orders :: SagaStream(o) in streams
    requires Within(w.sent, sent, ResumeMessages(streams, orders))
    ensures LeadsTo(w, Showing(w, streams, sent))
    decreases |orders|
  {
    hide SagaOf, Drive, LeadsTo, Payloads, EventsOf;
    if orders == [] {
      assert Showing(w, streams, sent) == w;
      StayingLeads(w);
    } else {
      var rest, last := orders[..|orders| - 1], orders[|orders| - 1];
      var mid := SplitWithin(w.sent, sent, ResumeMessages(streams, rest),
                             Drive(SagaOf(Payloads(streams[SagaStream(last)]))));
      ResumingLeads(w, streams, rest, mid);
      assert last in orders;
      ResumeIsAStep(Showing(w, streams, mid), streams, last, sent);
      LeadsFurther(w, Showing(w, streams, mid), Showing(w, streams, sent));
    }
  }

  lemma ResumeIsAStep(w: World, streams: Stored, o: OrderId, sent: set<Message>)
    requires w.streams == EventsOf(streams) && SagaStream(o) in streams
    requires Within(w.sent, sent, Drive(SagaOf(Payloads(streams[SagaStream(o)]))))
    ensures Next(w, w.(sent := sent))
  {
    hide SagaOf, Drive;
    var es := Payloads(streams[SagaStream(o)]);
    assert SagaEvents(w, o) == es && es[..|es|] == es;
    var step := Resume(o, |es|);
    assert Announcements(StepReaction(w, step)) == Drive(SagaOf(es));
    assert Takes(w, step, w.(sent := sent));
  }

  /**
   Resuming all unfinished sagas, to the end or until the bus fails, is a sequence of the protocol's steps: `before` and
   `after` are what the bus had carried before the call and after it.
   */
  lemma ResumptionIsARun(w: World, streams: Stored, orders: seq<OrderId>, before: seq<Message>, after: seq<Message>)
    requires w.streams == EventsOf(streams) && w.sent == Sent(before)
    requires forall o | o in orders :: SagaStream(o) in streams
    requires before <= after <= before + ResumeMessages(streams, orders)
    ensures LeadsTo(w, Showing(w, streams, Sent(after)))
  {
    hide LeadsTo, EventsOf, ResumeMessages;
    PrefixIsWithin(before, after, ResumeMessages(streams, orders));
    ResumingLeads(w, streams, orders, Sent(after));
  }

  /** What a restart sent again is all that a stored saga waits for. */
  lemma {:induction false} RedrivenIsPrompted(w: World, o: OrderId)
    requires Inv(w) && SagaEvents(w, o) != [] && !Settled(SagaOf(SagaEvents(w, o)))
    requires exists ms :: Redriven(SagaOf(SagaEvents(w, o)), o, ms) && forall m | m in ms :: m in w.sent
    ensures Prompted(w, o)
  {
    hide SagaOf, Inv, Legal, Rested, AllocatedRows;
    var s := SagaOf(SagaEvents(w, o));
    SagaIsRested(w, o);
    var ms :| Redriven(s, o, ms) && forall m | m in ms :: m in w.sent;
    forall m | m in Drive(s) ensures m in ms {
      if s.status == Compensating {
        CommandOfRow(ToCompensate(s), o, m);
        AllocatedRowsAre(s.rows, Row(m.beer, m.quantity));
        var i :| 0 <= i < |s.rows| && s.rows[i] == SagaRow(Row(m.beer, m.quantity), Allocated);
      } else {
        assert FirstPendingAt(s.rows, FirstPending(s.rows));
      }
    }
  }

  /**
   After a restart that resumed all it had to, delivering what is sent leads each unfinished saga to its end and announces
   it, without the watchdog if its rows are positive.  `news` is what the restart sent.
   */
  lemma {:induction false} RestartLeadsToTheEnd(w: World, streams: Stored, news: seq<Message>, o: OrderId)
    returns (steps: seq<Step>)
    requires Reachable(w) && w.streams == EventsOf(streams) && AllRedriven(streams, news)
    requires forall m | m in news :: m in w.sent
    requires SagaStream(o) in streams && SagaOf(Payloads(streams[SagaStream(o)])).status in {Running, Compensating}
    ensures Possible(w, steps) && Needed(w, steps, o) && (Positive(RowsOf(w, o)) ==> Deliveries(steps))
    ensures var w' := AfterAll(w, steps);
            Settled(SagaOf(SagaEvents(w', o))) && Prompted(w', o) && Undisturbed(w, w', o)
  {
    hide Reachable, SagaOf, Possible, AfterAll, Needed, Positive, Deliveries, Redriven, Prompted, Undisturbed, Inv, Smooth;
    ReachableInv(w);
    assert SagaEvents(w, o) == Payloads(streams[SagaStream(o)]);
    assert Redriven(SagaOf(Payloads(streams[SagaStream(o)])), o, news);
    UnstartedSaga();
    RedrivenIsPrompted(w, o);
    UndisturbedAtFirst(w, o);
    steps := DriveToTheEnd(w, w, o);
  }

  lemma UnstartedSaga()
    ensures SagaOf([]).status == Unstarted
  {
  }

  // ---- timing out ----

  /** What the watchdog does to one saga is the protocol's time-out, or nothing. */
  lemma SweepIsTimeOut(stored: seq<StoredEvent>, cutoff: nat)
    ensures Sweep(stored, cutoff) in {NOTHING, OnTimeOut(Payloads(stored))}
  {
    hide SagaOf, OnFailed, Compensations, ToCompensate;
  }

  lemma SweepOfOneLeads(w: World, mid: Stored, now: Stored, o: OrderId, cutoff: nat, sent: set<Message>)
    requires w.streams == EventsOf(mid) && mid.Keys == now.Keys && SagaStream(o) in mid
    requires forall id | id in mid && id != SagaStream(o) :: now[id] == mid[id]
    requires Swept(mid[SagaStream(o)], now[SagaStream(o)], cutoff)
    requires Within(w.sent, sent, Announcements(Sweep(mid[SagaStream(o)], cutoff)))
    ensures Showing(w, now, sent) == w || Next(w, Showing(w, now, sent))
  {
    hide OnTimeOut, Sweep;
    var id := SagaStream(o);
    var es, r := Payloads(mid[id]), Sweep(mid[id], cutoff);
    SweepIsTimeOut(mid[id], cutoff);
    assert SagaEvents(w, o) == es;
    assert EventsOf(now) == Grow(w.streams, id, r.events);
    if r == NOTHING {
      assert Announcements(r) == [];
      assert Showing(w, now, sent) == w;
    } else {
      assert StepReaction(w, TimeOut(o)) == r;
      assert Takes(w, TimeOut(o), Showing(w, now, sent));
    }
  }

  lemma {:induction false} SweepingLeads(w: World, was: Stored, now: Stored, orders: seq<OrderId>, n: nat, cutoff: nat,
                                          sent: set<Message>)
    requires w.streams == EventsOf(was) && SweptUpTo(was, now, orders, n, cutoff) && Ascending(orders)
    requires Within(w.sent, sent, SweepMessages(was, orders[..n], cutoff))
    ensures LeadsTo(w, Showing(w, now, sent))
    decreases n
  {
    hide Sweep, Swept, LeadsTo, EventsOf, Next;
    if n == 0 {
      assert orders[..0] == [] && now == was;
      SweepMessagesNone(was, cutoff);
      assert Showing(w, now, sent) == w;
      StayingLeads(w);
    } else {
      var o := orders[n - 1];
      assert o in orders;
      var mid := now[SagaStream(o) := was[SagaStream(o)]];
      SweptOneLess(was, now, orders, n, cutoff);
      SweepMessagesSnoc(was, orders, n - 1, cutoff);
      var some := SplitWithin(w.sent, sent, SweepMessages(was, orders[..n - 1], cutoff),
                              Announcements(Sweep(was[SagaStream(o)], cutoff)));
      SweepingLeads(w, was, mid, orders, n - 1, cutoff, some);
      SweepOfOneLeads(Showing(w, mid, some), mid, now, o, cutoff, sent);
      if Showing(w, now, sent) != Showing(w, mid, some) {
        LeadsFurther(w, Showing(w, mid, some), Showing(w, now, sent));
      }
    }
  }

  lemma SweptOneLess(was: Stored, now: Stored, orders: seq<OrderId>, n: nat, cutoff: nat)
    requires SweptUpTo(was, now, orders, n, cutoff) && Ascending(orders) && 0 < n
    ensures SagaStream(orders[n - 1]) in was
    ensures SweptUpTo(was, now[SagaStream(orders[n - 1]) := was[SagaStream(orders[n - 1])]], orders, n - 1, cutoff)
  {
    hide Swept;
    assert orders[n - 1] in orders;
    forall j | 0 <= j < n - 1 ensures orders[j] != orders[n - 1] {
      assert orders[j] < orders[n - 1];
    }
  }

  /** A round of the watchdog, to the end or until the bus fails, is a sequence of the protocol's steps too. */
  lemma SweepIsARun(w: World, was: Stored, now: Stored, orders: seq<OrderId>, n: nat, cutoff: nat,
                    before: seq<Message>, after: seq<Message>)
    requires w.streams == EventsOf(was) && w.sent == Sent(before)
    requires SweptUpTo(was, now, orders, n, cutoff) && Ascending(orders)
    requires before <= after <= before + SweepMessages(was, orders[..n], cutoff)
    ensures LeadsTo(w, Showing(w, now, Sent(after)))
  {
    hide LeadsTo, EventsOf, SweepMessages;
    PrefixIsWithin(before, after, SweepMessages(was, orders[..n], cutoff));
    SweepingLeads(w, was, now, orders, n, cutoff, Sent(after));
  }

  // ---- among other writers ----

  /**
   The watchdog's turn at a saga that it loaded when the stream had `n` events and that others may have written to since:
   it records on top of what it loaded, or is refused by the store, and some of its messages are sent.
   */
  ghost predicate LateTurn(w: World, w': World, o: OrderId, n: nat) {
    && n <= |SagaEvents(w, o)|
    && var r := OnTimeOut(SagaEvents(w, o)[..n]);
       && r.Reaction?
       && if r.events != [] && n < |SagaEvents(w, o)| then w' == w
          else
            && w'.streams == Grow(w.streams, SagaStream(o), r.events) && w'.produced == w.produced
            && Within(w.sent, w'.sent, Announcements(r))
  }

  /** Whenever it comes, and whatever was written since, such a turn is a step of the protocol or nothing. */
  lemma LateTurnIsAStep(w: World, w': World, o: OrderId, n: nat)
    requires LateTurn(w, w', o, n)
    ensures w' == w || Next(w, w')
  {
    hide SagaOf, OnFailed, Compensations, ToCompensate;
    var es := SagaEvents(w, o);
    var r := OnTimeOut(es[..n]);
    if n == |es| {
      assert es[..n] == es;
      assert Takes(w, TimeOut(o), w');
    } else if r.events == [] {
      LateTurnResumes(w, w', o, n);
    }
  }

  lemma LateTurnResumes(w: World, w': World, o: OrderId, n: nat)
    requires LateTurn(w, w', o, n) && OnTimeOut(SagaEvents(w, o)[..n]).events == []
    ensures w' == w || Next(w, w')
  {
    hide SagaOf;
    var es := SagaEvents(w, o);
    var r := OnTimeOut(es[..n]);
    assert Announcements(r) == r.sends;
    assert r.sends == [] || r.sends == Drive(SagaOf(es[..n]));
    if r.sends == [] {
      assert w' == w;
    } else {
      assert Announcements(StepReaction(w, Resume(o, n))) == r.sends;
      assert Takes(w, Resume(o, n), w');
    }
  }
}
