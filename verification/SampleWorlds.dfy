/** Small reachable worlds to start examples from: some beer is brewed, and an order is placed. */
module SampleWorlds {
  import opened Messages
  import opened AvailabilityAggregate
  import opened SalesOrderAggregate
  import opened Reactions
  import opened Protocol
  import opened AllOrNothing
  import opened Driving

  const BREWED := UpdateAvailabilityDueToProductionOrder(7, "ale", 5)
  const HEADER := Header("SO-1", "bar", 1)

  lemma InitialIsReachable()
    ensures Reachable(INITIAL)
  {
    var ws := [INITIAL];
    assert Run(ws) && ws[|ws| - 1] == INITIAL;
  }

  lemma StepReaches(w: World, step: Step) returns (w': World)
    requires Reachable(w) && Enabled(w, step)
    ensures w' == After(w, step) && Reachable(w')
  {
    hide Reachable, Takes, After, Enabled;
    w' := After(w, step);
    AfterIsTaken(w, step);
    assert Next(w, w');
    ReachableGoesOn(w, w');
  }

  lemma SendingStep(w: World, step: Step, m: Message) returns (w': World)
    requires Reachable(w) && Enabled(w, step) && StepReaction(w, step) == Reaction([], [m])
    ensures Reachable(w') && w'.streams == w.streams && w'.sent == w.sent + {m}
  {
    hide Reachable, StepReaction, Enabled;
    w' := StepReaches(w, step);
    assert Announcements(Reaction([], [m])) == [m];
  }

  lemma WritingStep(w: World, step: Step, e: Event) returns (w': World)
    requires Reachable(w) && Enabled(w, step) && StepReaction(w, step) == Reaction([e], [])
    ensures Reachable(w') && w'.sent == w.sent + {DomainEvent(e)}
    ensures w'.streams == w.streams[StepTarget(step) := Stream(w.streams, StepTarget(step)) + [e]]
  {
    hide Reachable, StepReaction, Enabled, StepTarget;
    w' := StepReaches(w, step);
    assert Announcements(Reaction([e], [])) == [DomainEvent(e)];
  }

  /** Five units of beer 7 are brewed. */
  lemma Brewing() returns (v: World)
    ensures Reachable(v) && v.sent == {BREWED, DomainEvent(AvailabilityUpdatedDueToProductionOrder(7, "ale", 5))}
    ensures v.streams == map[AvailabilityStream(7) := [AvailabilityUpdatedDueToProductionOrder(7, "ale", 5)]]
  {
    hide Reachable;
    InitialIsReachable();
    var w1 := SendingStep(INITIAL, Place(BREWED), BREWED);
    var e := AvailabilityUpdatedDueToProductionOrder(7, "ale", 5);
    v := WritingStep(w1, Deliver(BREWED), e);
    assert Stream(w1.streams, AvailabilityStream(7)) + [e] == [e];
    assert v.sent == {BREWED} + {DomainEvent(e)};
  }

  lemma OrderIsAccepted(rows: seq<Row>)
    ensures OnCreate([], 1, HEADER, rows) == Reaction([SalesOrderCreated(1, HEADER, rows)], [])
  {
    var number, customer := HEADER.number, HEADER.customer;
    assert number[0] == 'S' && customer[0] == 'b';
    assert !Blank(number) && !Blank(customer);
  }

  /** Then a client orders any rows, and the order is announced to the warehouse. */
  lemma OrderCanBePlaced(rows: seq<Row>) returns (v: World)
    ensures Reachable(v) && OrderPlaced(1, rows) in v.sent && SagaEvents(v, 1) == []
    ensures SalesEvents(v, 1) == [SalesOrderCreated(1, HEADER, rows)]
    ensures DomainEvent(SalesOrderCreated(1, HEADER, rows)) in v.sent
    ensures forall o, h, r :: Message.CreateSalesOrder(o, h, r) in v.sent ==> r == rows
    ensures Available(v, 7) == 5 && Available(v, 8) == 0
  {
    hide Reachable, OnCreate;
    var create, e := Message.CreateSalesOrder(1, HEADER, rows), SalesOrderCreated(1, HEADER, rows);
    var w0 := Brewing();
    var w1 := SendingStep(w0, Place(create), create);
    OrderIsAccepted(rows);
    var w2 := WritingStep(w1, Deliver(create), e);
    v := SendingStep(w2, Deliver(DomainEvent(e)), OrderPlaced(1, rows));
  }
}
