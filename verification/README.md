# Order allocation over event-sourced stock

This project models how the brewery's back end allocates stock to sales orders, and proves what that machinery promises
over every run.  One event-sourced saga per order allocates the rows of the order one by one, each against the
event-sourced `Availability` of one beer.  A shortage turns the saga around: it gives back what it took and rejects the
order.  Messages can be lost, duplicated and reordered, handlers can stop between saving and sending, a restart resumes
sagas, and a watchdog times slow steps out.

The files build on each other in this order.

* `Messages` has the vocabulary.  `Availability`, `AllocationSaga` and `SalesOrder` are the three aggregates: a function
  replays a stream, `Decide...` functions say what an operation records, and a class with mutable fields is proved to do
  both.
* `SagaLaws` and `SagaBounds` are the laws of saga streams: which events may follow which state, what each status says
  about the rows, that settlement is final, and how long a stream can get.
* `EventStore` is the in-memory store, the bus and the repositories.  `Reactions` gives, for each message, the events its
  handler records and the messages it then sends; `Handlers`, `SagaHandlers` and `Delivery` are the handlers and the
  subscriptions, proved to perform those reactions.  `DurableExecution` says what resuming and timing out come to.
* `Protocol` is the whole system as a step relation.  A world is all streams plus every message ever put on the bus;
  messages never leave that set, so each can be delivered at any time, any number of times, or never.  Whatever a step
  sends may be lost.  `Soundness` and `ProtocolInvariant` prove its invariant.
* `StockTheorems`, `Agreement`, `AllOrNothing` and `Progress` are the main results.  `Driving` has the runs they speak of,
  and `Sweeping` shows that resuming or timing out all sagas in one call, also when cut short, is such a run; a delivery
  is one too, as `Delivery` says.
* `StockRecords` and `Refusals` say what stock events tell and which messages are refused, and `Undoing` what delivering
  compensations in order comes to, without the functions that decide them.
* `Limits`, `Rejections`, `Conservation`, `Production`, `Blocking` and `LostOutcomes` say exactly where the guarantees end,
  each with reachable worlds to show it, which start from `SampleWorlds`.
* `PostgresEventStore` runs many load-decide-append sessions statement by statement and proves that they refine the
  in-memory append and are serialisable, which is why a delivery may be one step of the protocol.  `OutboxRelay` adds the
  transactional outbox.
* `SalesReadModel` and `StockReadModel` are the projections and their rebuilds.  `Retry` is the redelivery policy and
  `Registry` the reading of old events.

## What is assumed

* Only sagas issue allocation and compensation commands, and only clients issue production and order commands.
* The atomic specification (`AllOrNothing.SettledIsAllOrNothing`) is about one order, with any rows, that is served by
  itself: between the two worlds nobody else uses the stock, each beer answers the order once, and no step is timed out.
  What other orders there are does not matter.

The other main results hold for every order that sales accepts, or say exactly for which they hold.

## Where the code does less than its documentation says

**A rejected order can hold stock.**  The comment on the rejection event
(internal/warehouses/sharedkernel/integrationevents/order_allocation.go:30-31) says that nothing is held for a rejected
order anymore.  The code does not ensure it: an allocation command may be handled after the watchdog gave up on it; it may
be handled in time, but the watchdog gives up on its answer, and then there is nothing to compensate; or it is delivered a
second time after its compensation.  `Limits.RejectedOrdersDoHoldStock` gives a reachable world of each kind.  `Rejections.RejectedOrderHoldsIff` says exactly which steps make it so: a rejected order is handed the beer, or
the order is rejected while it holds it.  `StockTheorems.RejectedOrderHoldsNothing` is the case that a look at the streams
shows afterwards: nothing is held if no step was timed out and the beer answered its command once.

**A beer listed twice is charged once.**  The saga marks all rows of a beer when the first of them succeeds, so only that
one is taken from the stock: `StockTheorems.CompletedOrderIsChargedOnce`, and
`AllOrNothing.CompletedOrderIsChargedInFullIffDistinct` for what it means.

**Stock can get lost or appear.**  The saga charges a beer with the quantity of its first row, and undoes every row with
its own.  `Breakable` is the exact condition on the rows of an order: two different positive quantities of one beer, with
nothing non-positive up to its first row, and another beer left to fail after that row.  Stock is conserved in every run
of orders with given rows if and only if these are not breakable (`Conservation.ConservedIffNotBreakable`), and every
breakable order that is placed can break it (`Conservation.BreakableOrderBreaks`), though not if its compensations are
handled in the order sent (`Undoing.UndoingInOrderRestores`).  Availability is never negative all the same.

**A saga can wait for the watchdog.**  A beer that is tracked refuses a row that asks for nothing as an error, which nobody
reports to the saga.  A running saga is stuck without the watchdog exactly if it waits for such a row and no shortage from
before the beer was tracked is on its way (`Blocking.StuckIffBlocked`), and a placed order can be served by itself without
the watchdog exactly if it does not get as far as such a row (`Progress.CanBeServedIffNotStuck`).  With the watchdog every
saga can be led to its end (`Progress.EverySagaCanSettle`).

**An order can stay open for good.**  The message that starts a saga can get lost, and so can the one that announces its
end, and nothing sends either again; `LostOutcomes.CanBeSettledIffAlive` says that these are the only ways.  Which of them
happens depends on the configuration.

* With the Postgres store an event and its outbox row are committed together, so the start is not lost
  (`OutboxRelay.AtLeastOnce`).  The announcement is: `publishOutcome` sends it directly, after the save, and once the saga
  is settled no resumption and no repeated event sends it again.  `LostOutcomes.AnyOrderCanBeLost` shows it for every
  placed order, with all events published, and `LostOutcomes.PublishedOrderCanBeSettledIff` says exactly when such an
  order can still be settled.  The record of the decision to use an outbox says that the last at-most-once window is
  closed (docs/adr/0012-outbox-retry-policy-redrive.md:44); this one is open.
* With the in-memory store a process that stops loses the order as well.  A publisher that fails after the event was
  stored loses the start of an order that is there (`LostOutcomes.SomeOrderIsLost`).

**Production that is delivered again is brewed again.**  Handlers are meant to absorb repeated messages
(internal/muflone/outbox.go:16-21), and the production handler has nothing to tell them by
(internal/warehouses/domain/availability.go:64-77).  What `StockTheorems.StockIsConserved` calls produced counts each time
a command was handled.  `Production.StockIsDistinctProductionIff` says that stock is what the distinct commands brew exactly
if none of them was handled twice, and `Production.SomeBrewCountsTwice` has five units make ten.  Commands carry no
identity in the model: two with the same content are one command.

**The live stock row can be wrong.**  It shows the newest arrival.  `StockReadModel.LiveRowIsRightIff` says for every
delivery when that is the stock.

## Model

| member | source | states |
|---|---|---|
| AvailabilityAggregate.Availability.Route | internal/warehouses/domain/availability.go:147-176 | applying an event to the fields in place is the replay function's step: quantity and name follow the event, an allocation adds the order to the held set, a compensation removes it, a refusal only sets the beer |
| AvailabilityAggregate.Availability.RaiseEvent | internal/muflone/aggregate.go:50-60 | raising an event applies it, counts the version and queues it, so the fields always are the replay of the history and the queue is its tail |
| AvailabilityAggregate.CreateAvailability | internal/warehouses/domain/availability.go:46-60 | a first production starts the stream, a non-positive quantity is an error |
| AvailabilityAggregate.Availability.UpdateDueToProductionOrder | internal/warehouses/domain/availability.go:64-77 | production adds to the stock or is refused as a whole |
| AvailabilityAggregate.Availability.UpdateDueToSalesOrder | internal/warehouses/domain/availability.go:82-106 | the four outcomes of a saga step: error, repeated fact with the quantity unchanged, shortage, deduction |
| AvailabilityAggregate.RefuseUnknownBeer | internal/warehouses/domain/availability.go:111-123 | a beer that was never stocked records a shortage with nothing available |
| AvailabilityAggregate.Availability.CompensateDueToFailedAllocation | internal/warehouses/domain/availability.go:127-144 | stock is given back once, and a repetition only repeats the fact |
| AllocationSaga.OrderAllocationSaga.Route | internal/warehouses/domain/order_allocation_saga.go:175-199 | each saga event changes status, reason and rows as the replay function says |
| AllocationSaga.OrderAllocationSaga.SetRowState | internal/warehouses/domain/order_allocation_saga.go:165-171 | the in-place loop changes every row of the beer and no other |
| AllocationSaga.OrderAllocationSaga.NextPendingRow | internal/warehouses/domain/order_allocation_saga.go:80-89 | the first pending row of a running saga, or none |
| AllocationSaga.OrderAllocationSaga.RowsToCompensate | internal/warehouses/domain/order_allocation_saga.go:92-103 | the rows at the indices that are allocated, all of them, in ascending order, if the saga compensates, and none otherwise |
| AllocationSaga.StartOrderAllocation | internal/warehouses/domain/order_allocation_saga.go:64-71 | a started saga, completed at once if the order has no rows |
| AllocationSaga.OrderAllocationSaga.RecordAllocationSucceeded | internal/warehouses/domain/order_allocation_saga.go:107-117 | records the success only of a pending row of a running saga, and the completion just when all rows are allocated |
| AllocationSaga.OrderAllocationSaga.RecordQuantityNotFound | internal/warehouses/domain/order_allocation_saga.go:121-131 | records the failure only of a pending row of a running saga, and the rejection just when nothing is held |
| AllocationSaga.OrderAllocationSaga.RecordCompensated | internal/warehouses/domain/order_allocation_saga.go:135-145 | records the release only of an allocated row of a compensating saga, and the rejection with the last one |
| SagaLaws.LegalShaped | internal/warehouses/domain/order_allocation_saga.go:107-171 | in every legal stream: running rows are pending or allocated, a compensating saga has a failed row, a completed one has all rows allocated, a rejected one has none allocated and one failed, and rows of one beer are in the same state |
| SagaLaws.StartKeepsLaws | internal/warehouses/domain/order_allocation_saga.go:64-71 | a started saga is legal and waits for a pending row unless it is complete |
| SagaLaws.SucceededKeepsLaws | internal/warehouses/domain/order_allocation_saga.go:107-117 | recording a success keeps the stream legal and leaves a pending row while running |
| SagaLaws.FailedKeepsLaws | internal/warehouses/domain/order_allocation_saga.go:121-131 | recording a failure keeps the stream legal and leaves something to undo while compensating |
| SagaLaws.CompensatedKeepsLaws | internal/warehouses/domain/order_allocation_saga.go:135-145 | recording a release keeps the stream legal and leaves something to undo while compensating |
| SagaLaws.Forward | internal/warehouses/domain/order_allocation_saga.go:107-171 | from any point of a stream on, status and rows only move forward, a compensating saga never completes and keeps its reason, and nothing follows the settlement |
| SagaLaws.SettlesOnce | internal/warehouses/domain/order_allocation_saga.go:107-145 | the settling event is the last of its stream |
| SagaLaws.FailsOnce | internal/warehouses/domain/order_allocation_saga.go:121-131 | a saga fails in at most one step |
| SagaBounds.EventsRunOut | internal/warehouses/domain/order_allocation_saga.go:107-145 | every recorded event uses up part of a bound on the events still to come |
| SagaBounds.LengthBound | internal/warehouses/domain/order_allocation_saga.go:64-145 | a saga of n rows records at most 2n + 1 events, 2 if it has no rows |
| SagaBounds.LongestStreamIsReached | internal/warehouses/domain/order_allocation_saga.go:64-145 | for every n there is a legal stream of exactly that length |
| SagaBounds.RejectionUndidEverything | internal/warehouses/domain/order_allocation_saga.go:135-145 | in a rejected saga the compensated beers are exactly the allocated ones |
| SalesOrderAggregate.SalesOrder.MarkAllocated | internal/sales/domain/sales_order.go:83-92 | settles once, repeats without effect, and conflicts with an earlier rejection |
| SalesOrderAggregate.SalesOrder.MarkAllocationRejected | internal/sales/domain/sales_order.go:95-104 | settles once, repeats without effect, and conflicts with an earlier allocation |
| SalesOrderAggregate.CreateSalesOrderAggregate | internal/sales/domain/sales_order.go:59-78 | an order needs a number, a customer and a date |
| EventStore.InMemoryEventStore.Append | internal/muflone/eventstore.go:71-98 | the batch is stored under the next versions, each event with the present time, exactly if the stream has the expected length, and otherwise nothing changes |
| EventStore.InMemoryEventStore.ReadStream | internal/muflone/eventstore.go:62-69 | a copy of the stream, empty if it was never written |
| EventStore.InMemoryEventStore.ListStreams | internal/muflone/eventstore.go:101-112 | all streams of one kind and no other, sorted, without repetition |
| EventStore.ServiceBus.SendAll | internal/muflone/servicebus.go:103-131 | messages go out in order, and a failure leaves a prefix sent |
| EventStore.GetAvailability | internal/muflone/repository.go:52-66 | a loaded beer is the replay of its stream |
| EventStore.GetSaga | internal/muflone/repository.go:52-66 | a loaded saga is the replay of its stream |
| EventStore.GetSalesOrder | internal/muflone/repository.go:52-66 | a loaded order is the replay of its stream |
| EventStore.SaveAvailability | internal/muflone/repository.go:68-86 | the recorded events are appended exactly if the stream still has the length it was loaded with, then published in order; the queue is cleared only on success |
| EventStore.SaveSaga | internal/muflone/repository.go:68-86 | the same for sagas, and no other stream is touched |
| EventStore.SaveSalesOrder | internal/muflone/repository.go:68-86 | the same for sales orders |
| Handlers.CommandHandlers.HandleProduction | internal/warehouses/domain/commandhandlers/handlers.go:33-54 | performs its reaction: loads or creates, decides, saves, publishes; an error changes nothing |
| Handlers.CommandHandlers.HandleAllocation | internal/warehouses/domain/commandhandlers/handlers.go:72-92 | the same for a saga step, with the refusal of an unknown beer |
| Handlers.CommandHandlers.HandleCompensation | internal/warehouses/domain/commandhandlers/handlers.go:108-123 | the same for a compensation; an unknown beer is an error |
| Handlers.CommandHandlers.HandleCreate | internal/sales/domain/commandhandlers/create_sales_order_handler.go:33-57 | an order that exists is acknowledged without effect |
| Handlers.CommandHandlers.HandleMarkAllocated | internal/sales/domain/commandhandlers/settle_allocation_handlers.go:28-38 | settles the loaded order and stores only a change |
| Handlers.CommandHandlers.HandleMarkRejected | internal/sales/domain/commandhandlers/settle_allocation_handlers.go:54-67 | the same for a rejection |
| SagaHandlers.OrderAllocationSagaHandler.HandleOrderPlaced | internal/warehouses/sagas/order_allocation_saga_handler.go:70-98 | starts the saga once, then asks for the first row or announces the completion |
| SagaHandlers.OrderAllocationSagaHandler.HandleBeerAvailabilityUpdated | internal/warehouses/sagas/order_allocation_saga_handler.go:102-117 | records a success, then asks for the next row or announces the completion; a repeated answer does nothing |
| SagaHandlers.OrderAllocationSagaHandler.HandleQuantityNotFound | internal/warehouses/sagas/order_allocation_saga_handler.go:121-138 | records a failure, then compensates every held row or announces the rejection |
| SagaHandlers.OrderAllocationSagaHandler.HandleAvailabilityCompensated | internal/warehouses/sagas/order_allocation_saga_handler.go:142-157 | records a release, and announces the rejection with the last one |
| SagaHandlers.OrderAllocationSagaHandler.SendNextAllocation | internal/warehouses/sagas/order_allocation_saga_handler.go:179-196 | the command carries the row's own quantity; without a pending row it is an error |
| SagaHandlers.OrderAllocationSagaHandler.SendCompensations | internal/warehouses/sagas/order_allocation_saga_handler.go:201-218 | one command per allocated row, with the row's beer and quantity, in the order of the rows, stopping at the first failure of the bus |
| SagaHandlers.OrderAllocationSagaHandler.PublishOutcome | internal/warehouses/sagas/order_allocation_saga_handler.go:337-347 | the outcome message says how the saga ended and why |
| SagaHandlers.OrderAllocationSagaHandler.LoadInFlight | internal/warehouses/sagas/order_allocation_saga_handler.go:299-325 | exactly the sagas whose replayed status is running or compensating, once each, in the order of their streams |
| SagaHandlers.OrderAllocationSagaHandler.ResumeInFlight | internal/warehouses/sagas/order_allocation_saga_handler.go:225-239 | changes no stream, and sends for every compensating saga the command to undo each allocated row, and for every running one the command for its first pending row, in order up to the first failure of the bus |
| SagaHandlers.OrderAllocationSagaHandler.TimeoutInFlight | internal/warehouses/sagas/order_allocation_saga_handler.go:245-288 | a saga whose last stored event is not older than the cutoff is left alone, and nothing is sent for it; of the others an undisturbed sweep fails the first pending row of each running one, rejects it just when nothing is allocated, and sends the command to undo each allocated row, also of each compensating one; a failing bus stops it after some of them |
| DurableExecution.SweptSagaGains | internal/warehouses/sagas/order_allocation_saga_handler.go:262-285 | a stale running saga gains exactly the failure of its pending step, and its rejection just when it held nothing |
| Delivery.Subscriptions.Deliver | internal/warehouses/module.go:67-101 | whichever message is delivered, its handler performs its reaction and keeps all streams sound; from a reachable world of the protocol a delivery, cut short or not, ends in a reachable world |
| Delivery.Subscriptions.Translate | internal/sales/integration/allocation_outcome_handler.go:41-68 | at the border of the sales context a completion becomes the command to mark the order allocated, a rejection the command to mark it rejected with the same reason, a created order its announcement, and no event is recorded |
| Soundness.ReactionsKeepSound | internal/warehouses/domain/commandhandlers/handlers.go:33-123 | every handler writes only to its own stream, only events of that stream, and keeps saga streams legal and at rest |
| Refusals.RefusedIff | internal/warehouses/domain/commandhandlers/handlers.go:33-123 | in every reachable world any message is refused exactly for a quantity that is not positive, a missing stream, a header without number, customer or date, or an opposite settlement, each with its own error |
| Refusals.SettlementShows | internal/sales/domain/sales_order.go:106-125 | the replayed order has the header and rows of its creation, and its status and reason are those of the recorded settlement |
| ProtocolInvariant.StepKeepsInv | internal/warehouses/sagas/order_allocation_saga_handler.go:70-347 | every step keeps: each message has the history that justifies it, each event has its cause, and the books of produced units are right |
| ProtocolInvariant.ReachableInv | internal/warehouses/sagas/order_allocation_saga_handler.go:70-347 | so this holds in every reachable world |
| Sweeping.ResumptionIsARun | internal/warehouses/sagas/order_allocation_saga_handler.go:225-239 | resuming all unfinished sagas, to the end or until the bus fails, is a sequence of protocol steps |
| Sweeping.RestartLeadsToTheEnd | internal/warehouses/sagas/order_allocation_saga_handler.go:219-239 | after a restart that resumed all it had to, delivering what is sent leads each unfinished saga to its end |
| Sweeping.SweepIsARun | internal/warehouses/sagas/order_allocation_saga_handler.go:245-288 | so is a round of the watchdog |
| Sweeping.LateTurnIsAStep | internal/warehouses/sagas/order_allocation_saga_handler.go:245-288 | among other writers, each turn of the watchdog at a saga it loaded earlier is one protocol step or is refused by the store |
| StockTheorems.StockIsConserved | internal/warehouses/domain/availability.go:64-165 | in every run without a breakable order: available plus the rows of the orders holding the beer is what was produced, counting each time that a production command was handled |
| StockTheorems.AvailabilityIsNeverNegative | internal/warehouses/domain/availability.go:82-144 | in every run of any orders, no beer's availability is negative |
| StockTheorems.AllocationsCarryTheRow | internal/warehouses/sagas/order_allocation_saga_handler.go:179-196 | every allocation command on the bus names the quantity of the first row of its beer |
| StockTheorems.ReleasesCarryTheRow | internal/warehouses/sagas/order_allocation_saga_handler.go:201-218 | if the order is not breakable for the beer, its positive compensation commands for it name that quantity too, whatever other orders there are |
| StockRecords.ShortagesAreTrue | internal/warehouses/domain/availability.go:98-123 | in every run a recorded shortage says the quantity of the newest event before it that has one, which is less than what was asked for, and nothing for a beer without history |
| StockRecords.RejectionReasonIsTrue | internal/warehouses/sagas/order_allocation_saga_handler.go:121-138 | in every run the reason that a rejected order carries, in the warehouse and in sales, is a time-out or a true shortage of the order |
| StockRecords.NamesAreKept | internal/warehouses/domain/availability.go:92-143 | allocations and compensations carry the name of the last production before them |
| StockRecords.ProductionIsAdded | internal/warehouses/domain/availability.go:46-77 | in every run any positive production is accepted, adds exactly its units to the newest quantity, and names the beer |
| StockTheorems.TakenIsHeld | internal/warehouses/domain/availability.go:82-144 | what the history took for an order on balance is its first row if it holds the beer and nothing otherwise, if the order was never released or is not breakable for the beer, whatever other orders there are |
| StockTheorems.CompletedIsNeverReleased | internal/warehouses/sagas/order_allocation_saga_handler.go:201-218 | no stock is ever released for a completed or running order |
| StockTheorems.CompletedOrderHoldsItsRows | internal/warehouses/sagas/order_allocation_saga_handler.go:102-117 | in every run, with loss, duplication, reordering, crashes, watchdog and resume, a completed order holds the beer of each row |
| StockTheorems.CompletedOrderIsChargedOnce | internal/warehouses/sagas/order_allocation_saga_handler.go:102-117 | in every run of any orders, exactly the quantity of the first row of each beer was taken for a completed order, and nothing of other beers |
| StockTheorems.CompletedOrderTookItsRowsIffUniform | internal/warehouses/sagas/order_allocation_saga_handler.go:102-117 | so each row of a completed order was taken with its own quantity exactly if rows of the same beer ask for the same |
| StockTheorems.RejectedOrderHoldsNothing | docs/adr/0008-order-allocation-saga.md:28-30 | backward recovery: a rejected order holds nothing if none of its steps timed out and the beer answered once, whatever else happens; the exact condition is Rejections.RejectedOrderHoldsIff |
| Undoing.CommandsInOrderUndo | internal/warehouses/sagas/order_allocation_saga_handler.go:201-218 | delivering the commands of a compensating saga in the order sent, once each, gives back to each of its beers exactly what the order holds of it, whatever its rows |
| Undoing.UndoingInOrderRestores | docs/adr/0008-order-allocation-saga.md:28-30 | so an order that failed while it was served by itself leaves every quantity and hold as it was before the saga started, also if its rows are breakable |
| Agreement.RejectionHasOneCause | internal/warehouses/domain/order_allocation_saga.go:119-145 | a rejected saga failed in exactly one step, and its reason is that step's |
| Agreement.SettlementsAgree | internal/sales/domain/sales_order.go:83-117 | in every run an order stream holds its creation and at most one settlement, which matches how the saga ended and carries its reason |
| Agreement.ConflictIsUnreachable | internal/sales/domain/sales_order.go:83-104 | in every run no delivery meets a conflicting settlement |
| AllOrNothing.SettledIsAllOrNothing | docs/adr/0008-order-allocation-saga.md:8-30 | a settled order served by itself, with any rows and among any other orders, has the effect of one atomic decision on the stock from before it started: it completed exactly if the first row of every beer is positive and was in stock, and then each beer lost that row; otherwise all holds are as they were, and so is every beer for which the order is not breakable; of any other beer nothing was taken on balance, or one of the order's rows given back for the first |
| AllOrNothing.FitsIffEveryRowDoes | docs/adr/0008-order-allocation-saga.md:8-30 | for positive rows that agree on each beer, fitting means that every row is in stock |
| AllOrNothing.OneDeductionIsEnoughIffDistinct | internal/warehouses/domain/order_allocation_saga.go:165-171 | one deduction per beer is the whole demand exactly if no beer is ordered twice |
| AllOrNothing.CompletedOrderIsChargedInFullIffDistinct | internal/warehouses/domain/order_allocation_saga.go:165-171 | a completed order is charged in full if and only if the first rows of its beers add up to all of its rows, which for positive rows means that it lists no beer twice |
| Progress.EverySagaCanSettle | docs/adr/0008-order-allocation-saga.md:53-59 | from every reachable world, whatever was lost and whatever its rows ask for, one resumption and then delivering what the system sends leads an unfinished saga to its end and announces it, without touching another order; the watchdog takes part only where the saga is blocked, so never for positive rows |
| Progress.ReplyPrompts | internal/warehouses/sagas/order_allocation_saga_handler.go:102-157 | a handler that recorded something has asked for all that the saga now waits for, or announced its end |
| Progress.PlacedOrderIsAllOrNothing | docs/adr/0008-order-allocation-saga.md:8-30 | every placed order that is not stuck, with any rows, runs to its end by deliveries alone: it completes exactly if it fits the stock, and then each beer loses its first row, else all quantities and holds are as they were |
| Progress.CanBeServedIffNotStuck | internal/warehouses/domain/availability.go:82-106 | a placed order can be served to its end by itself without the watchdog if and only if it does not reach a row that asks for nothing of a tracked beer, all before it being in stock |
| Progress.OutcomeSettlesTheOrder | internal/sales/integration/allocation_outcome_handler.go:41-68 | the announced outcome becomes the settlement that agrees with the saga, reason included |
| Progress.PlacedOrderIsSettledInSales | docs/adr/0008-order-allocation-saga.md:19-34 | from the placed order to the settled one: allocated exactly if the order fitted, rejected otherwise, with the stock changed as that says |
| Blocking.StuckIffBlocked | internal/warehouses/domain/availability.go:82-106 | a running saga records nothing more in any run without the watchdog exactly if its next row asks for nothing of a tracked beer and no earlier shortage is on its way |
| Blocking.SomeSagaIsBlocked | internal/sales/domain/sales_order.go:59-78 | sales accepts such an order, so a blocked saga is reachable |
| LostOutcomes.CanBeSettledIffAlive | internal/muflone/repository.go:68-86 | in every reachable world an unsettled order can still be settled exactly if its saga is under way, or the message that starts it, announces its end or settles the order is on the bus |
| LostOutcomes.PublishedOrderCanBeSettledIff | docs/adr/0012-outbox-retry-policy-redrive.md:18-28 | if its stored events are published, an unsettled order can still be settled exactly if its saga has not ended or sales was told how |
| LostOutcomes.SomeOrderIsLost | internal/muflone/repository.go:75-81 | a reachable world with an order whose start was stored and not published, and which can never be settled |
| LostOutcomes.AnyOrderCanBeLost | internal/warehouses/sagas/order_allocation_saga_handler.go:320 | every placed order can end with all events published, a settled saga, nobody told, and no way to settle it |
| LostOutcomes.SomeEndIsLost | docs/adr/0012-outbox-retry-policy-redrive.md:44 | a reachable world where an order for beer in stock was completed, everything about it published, and sales is never told |
| Limits.DeliveredAllocationTakesStock | internal/warehouses/domain/availability.go:82-106 | a late or repeated command takes stock exactly if it is positive and in stock, and the saga learns nothing of it |
| Limits.TimedOutOrderCanHoldStock | internal/warehouses/sagas/order_allocation_saga_handler.go:245-288 | every placed order whose first row is in stock can end up rejected and holding it after a time-out |
| Limits.UnheardOrderHoldsStock | internal/warehouses/sagas/order_allocation_saga_handler.go:245-288 | every placed order whose first row is in stock can end up rejected and holding it because only the answer was late |
| Limits.RepeatedCommandReTakesStock | internal/warehouses/sagas/order_allocation_saga_handler.go:179-218 | every placed order, among any others, that can be served, whose first row is in stock and which does not fit can end up rejected and holding that beer after a repeated delivery |
| Limits.RejectedOrdersDoHoldStock | internal/warehouses/sharedkernel/integrationevents/order_allocation.go:30-31 | a reachable world of each of three kinds: a late command, a late answer, a repeated command |
| Rejections.StepRejectsIff | internal/warehouses/domain/order_allocation_saga.go:121-145 | a step rejects an order exactly if it times out or fails a running saga with nothing recorded as allocated, or releases the only beer recorded as allocated |
| Rejections.RejectedOrderHoldsIff | internal/warehouses/sharedkernel/integrationevents/order_allocation.go:30-31 | in every reachable world the next step makes an order rejected and holding a beer exactly if it hands a rejected order the beer, or rejects an order that holds it |
| Rejections.RejectedOrderNeverHoldsIff | internal/warehouses/sharedkernel/integrationevents/order_allocation.go:30-31 | over a whole run: no rejected order ever holds the beer exactly if the run takes no such step |
| Rejections.UnheardAllocation | internal/warehouses/sagas/order_allocation_saga_handler.go:245-288 | what an order holds when it is rejected without compensation was allocated, and its saga never recorded it |
| Limits.CompensationBalancesIff | internal/warehouses/domain/availability.go:127-144 | a compensation keeps the books balanced exactly if it gives back what the order was charged |
| Conservation.BreakableOrderBreaks | internal/warehouses/domain/order_allocation_saga.go:165-171 | every placed order that is breakable for a beer leads to a reachable world where available and held no longer add up to what was produced |
| Conservation.ConservedIffNotBreakable | internal/warehouses/domain/order_allocation_saga.go:165-171 | stock is conserved in every run of orders with given rows if and only if the rows are not breakable for the beer |
| Conservation.SomeStockIsNotConserved | internal/sales/domain/sales_order.go:59-78 | two and three units of one beer and one of another, which sales accepts, break it |
| Production.StockIsDistinctProductionIff | internal/warehouses/domain/availability.go:64-77 | in every run without a breakable order, stock is what the distinct accepted production commands brew exactly if none of them was handled twice |
| Production.RunHasSteps | internal/muflone/outbox.go:16-21 | every reachable world is the last of a run that this speaks of |
| Production.SomeBrewCountsTwice | internal/muflone/outbox.go:16-21 | a reachable world where one command for five units made ten |
| PostgresEventStore.ActionKeepsInv | internal/muflone/postgres_eventstore.go:85-139 | every statement of every session keeps: contiguous versions, one uncommitted writer per stream, ids in version order, commits on what was read |
| PostgresEventStore.VersionsCount | internal/muflone/postgres_eventstore.go:98-108 | under any interleaving the versions of a stream are exactly 1 to n, so its head is its length |
| PostgresEventStore.StatementsRefineAppend | internal/muflone/postgres_eventstore.go:85-139 | a commit is an append that the in-memory store accepts at that moment, a conflict one that it refuses at that moment, and no other statement changes a stream |
| PostgresEventStore.OneWriterWins | internal/muflone/postgres_eventstore.go:110-125 | of several writers that expect the same version at most one commits |
| PostgresEventStore.UndisputedWriterCommits | internal/muflone/postgres_eventstore.go:85-139 | from every reachable state a writer that expects the present head of its stream, with no other writer's uncommitted events there, can commit its whole batch by its own statements |
| PostgresEventStore.CommitsAreSerialisable | internal/muflone/repository.go:52-86 | the stored rows are those of the committed handlers run one after the other, each on the whole stream before it; losers leave no trace |
| PostgresEventStore.CommitEnqueuesItsEvents | internal/muflone/postgres_eventstore.go:126-138 | the outbox gains exactly the committed events, with ids in version order per stream |
| OutboxRelay.Relay.DispatchPending | internal/muflone/outbox.go:53-97 | one dispatch publishes a prefix of the first 100 rows; if nothing fails it has published and deleted the first 100, or all if there are fewer, and says how many; if something fails, every row is still there |
| OutboxRelay.Relay.Run | internal/muflone/outbox.go:36-50 | polling without new rows: each tick without a failure takes the next 100 rows, or all that are left, and every row that is gone was published |
| OutboxRelay.DispatchIsARun | internal/muflone/outbox.go:53-97 | one dispatch, however it ends, is a sequence of moves beside any other relays, and leaves the table showing the rows that it reports |
| OutboxRelay.AtLeastOnce | internal/muflone/outbox.go:16-21 | in every run of writers and any number of relays, with failures and crashes anywhere, each committed event waits in the outbox or was published |
| OutboxRelay.NoPhantoms | internal/muflone/postgres_eventstore.go:126-138 | nothing is published that was not committed |
| OutboxRelay.FirstSentInOrder | internal/muflone/outbox.go:60-96 | with one relay the first publication of a version comes after that of the version before it, despite rollbacks and repetition |
| OutboxRelay.NewestIsSentLast | internal/muflone/outbox.go:60-96 | with one relay, once nothing of a stream waits, its last publication is its newest version |
| SalesReadModel.SalesOrderService.CreateSalesOrder | internal/sales/readmodel/services/sales_order_service.go:32-49 | upserts the created order and keeps a status that arrived first; the list names each order once |
| SalesReadModel.SalesOrderService.UpdateAllocationStatus | internal/sales/readmodel/services/sales_order_service.go:52-64 | records the outcome, on a stub row if the order is not there yet |
| SalesReadModel.ArrivalOrderIsIrrelevant | internal/sales/readmodel/services/sales_order_service.go:32-64 | the row of an order depends only on which of its events arrived, not on their order or number |
| SalesReadModel.ReadModelConverges | internal/sales/readmodel/services/sales_order_service.go:32-64 | in every reachable world, deliveries that contain each event at least once give the row that a replay gives |
| SalesReadModel.RebuiltRowIsTheOrder | internal/sales/rebuild.go:24-57 | and that row is the order as its aggregate replays it, settlement included |
| SalesReadModel.RebuildReadModel | internal/sales/rebuild.go:24-57 | the rebuild gives every order the row of its own stream and counts the replayed events |
| StockReadModel.AvailabilityService.Handle | internal/warehouses/readmodel/eventhandlers/availability_handlers.go:32-68 | an event with a quantity replaces the beer's row, a refusal changes nothing |
| StockReadModel.AvailabilityService.UpsertAvailability | internal/warehouses/readmodel/services/availability_service.go:28-33 | the row of one beer is replaced |
| StockReadModel.RowIsTheReplayedStock | internal/warehouses/domain/availability.go:147-176 | the row after a stream is the replayed stock, and none if the stream has only refusals |
| StockReadModel.NewestArrivalShows | internal/warehouses/readmodel/eventhandlers/availability_handlers.go:32-68 | after any arrivals the row of a beer is the newest of them with a quantity, and missing if there is none |
| StockReadModel.LiveRowIsRightIff | internal/warehouses/readmodel/eventhandlers/availability_handlers.go:32-68 | in every reachable world and for every delivery, the row is the replayed stock exactly if the newest arrival with a quantity says what the newest such event of the stream says |
| StockReadModel.LiveRowIsTheReplayedStock | internal/warehouses/readmodel/eventhandlers/availability_handlers.go:32-68 | so in order, whatever arrived of other beers, the row is right |
| StockReadModel.LiveRowCanBeWrong | internal/warehouses/readmodel/eventhandlers/availability_handlers.go:53-68 | a reachable world with two productions, both delivered, and the wrong row |
| StockReadModel.RebuildReadModel | internal/warehouses/rebuild.go:23-55 | the rebuilt table is the replayed stock of every beer that ever had a quantity and no other beer |
| Retry.BackoffIsCappedDoubling | internal/muflone/retry.go:48-54 | for every attempt, despite 64-bit overflow, the backoff is 50 ms doubled per attempt and capped at 1 s |
| Retry.RetryMiddleware | internal/muflone/retry.go:25-46 | a run is handled exactly if all runs before some success fail, conflicts among the first 12 and other failures among the first 3, and no wait is interrupted; which run is the last, what is waited in all, and the bounds: 13 runs and 8.55 s, or 4 runs and 350 ms without a conflict |
| Registry.EventRegistry.Deserialize | internal/muflone/registry.go:50-67 | follows the upcasters, each payload made out of the one before, to the end of the chain and rehydrates the last payload there, or reports the upcaster that failed; on a chain that has not ended after a number of rewrites it is still rewriting |
| Registry.FollowComposes | internal/muflone/registry.go:18-21 | evolution steps compose |
| Registry.EvolutionIsFollowed | internal/muflone/registry.go:50-61 | a chain of upcasts is followed with each payload made out of the one before, to a name without an upcaster or to the first failure |
| Registry.EndsIffRankFalls | internal/muflone/registry.go:50-61 | a chain ends if and only if some rank falls with each of its rewrites |
| Registry.RankedChainsEnd | internal/muflone/registry.go:50-61 | if upcasters only lead to names of smaller rank, every event can be read |
| Registry.TrappedChainsDoNotEnd | internal/muflone/registry.go:50-61 | a chain that enters names which only lead to each other never ends |
| Registry.OffChainIsIrrelevant | internal/muflone/registry.go:45-47 | registering an upcaster off a chain changes nothing about what the chain reads |

## Left out

- Attributes: names, prices, units of measure and commit ids that no branch looks at, and the overflow of a
  stock quantity beyond 64 bits; quantities are integers.  A beer's name is kept because the projection shows it.
- Identifiers: they are opaque.  Parsing of identifiers and payloads, and events stored with an empty order id, are not
  modelled.
- Message identity: a message is its content; two commands with the same content are the same message.
- Seed: the test helper of the in-memory store, whose version numbers skip.
- Separate stores: the in-memory modules of sales and warehouse each have a store of their own; the model keeps their
  disjoint streams in one.
- PostgresEventStore: modelled on values, because its point is the interleaving of statements; SQL text, JSON and the
  time column are not modelled, and a claim of outbox rows is one step.
- TimeoutInFlight: the method runs without other writers.  Among others, a save that conflicts ends the sweep with that
  error; `Sweeping.LateTurnIsAStep` covers each turn, not the end of the sweep.
- EverySagaCanSettle: says that a saga can always be led to its end, not that a scheduler does it.
- Deserialize: the number of rewrites that the caller waits for stands for time; the source has no such limit, and on a
  chain without an end it does not return.
- Dead letters and their redrive, pagination, HTTP, authentication, rate limits, configuration, telemetry, logging and the
  transports.
