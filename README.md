# Evol write side, modelled in Dafny

Evol is a Go framework for event-sourced CQRS services. This project models its write side and
the example shop built on it.

- **Commands.** A command is looked up by name on the local command bus. The bus hands it to the
  aggregate command handler of the command's target aggregate type. That handler loads the
  aggregate from the event-sourcing store by replaying its stored events. The aggregate handles
  the command and records new domain events; each event is applied to the aggregate at once. The
  events are then published to the in-process event bus one by one, and finally appended to the
  aggregate's stream in the in-memory event repository.
- **Event bus.** The bus keeps one bounded FIFO queue per topic, of capacity 1000. Every handler
  of a topic reads from that same queue.
- **Sagas.** Saga managers are event handlers. A manager resolves the saga identity, loads the
  saga from the saga repository or creates and starts a new one, refuses a saga that is not
  alive, lets the saga react by sending commands, and ends it on an end topic.
- **Example domain.** It has Order, Stock and Payment aggregates, six commands and seven event
  topics. Its `OrderSaga` reserves every product of a new order, pays once the last
  reservation is in, and on a failure rolls back and cancels.
- **Bootstrap.** `application.Run` wires these together: one aggregate command handler per
  registered command, every registered event handler subscribed to its topics, and every saga
  manager given the buses and the repository and subscribed to its start, on and end topics.

How the model is built:

- **Go interfaces** (command, event payload, aggregate, saga handler, event handler) become
  closed datatypes over the implementations the repository has.
- **Factories** become tags plus a `Build` method that allocates.
- **Objects updated in place** are classes: the registries, the buses, the repositories, the
  aggregates and the sagas. Each of their methods is specified by a pure function of the old
  state, and the properties are lemmas about those functions.
- **Panics** are returned as `Panic` errors.
- **Goroutines.** Starting a command handler goroutine appends a `Launch` record to the
  command bus. An event consumer goroutine is a registered consumer plus a single dequeue
  step, `ConsumeStep`.
- **External inputs are parameters:** the clock, the uuid generator, the example's mock stock
  and balance tables, and the marshal and unmarshal functions standing in for the event codec
  that the local bus never receives (see "Left out").

Where the code and its comments disagree, the model follows the code:

- `SagaManager.HandleEvent` never writes a saga back to the repository, so with the in-memory
  repository every event meets a freshly created saga (`Scenarios.SagaScenario`).
- `OrderSaga.toReserveNum` is never initialised, so the count of outstanding reservations starts
  at 0 and goes negative. The happy path described in `OrderSaga`'s comment never pays and
  never confirms: no `PayOrderCmd` is ever sent (`OrderSagas.ReservationNeverFinishes`,
  `Scenarios.SagaScenario`).
- `BaseAggregate.PublishEvent` appends the event to the pending list first and then applies it
  to the aggregate. An apply error is only logged.
- The local event bus drops a message published to a topic that has no queue, and also drops a
  message when the topic's queue is full.
- The in-memory event repository refuses to save an empty list of events. Dispatching a command
  that produces no events therefore ends with that error.
- `ModelRepo.Remove` returns "no such entity" whether or not the entity was there.
- The order saga's `Resolver` returns the constant `"OrderId"` for every event.

## Model

| member | source | states |
|---|---|---|
| Events.ApplyOption | event.go:70-77 | `ForAggregate` sets exactly the aggregate type and id; topic, data and time are kept; a nil option changes nothing |
| Events.ApplyOptionsTag | event.go:52-67 | the option loop keeps topic, data and time; the aggregate tag is the one of the last `ForAggregate` option, or is unchanged when there is none |
| Events.LastTagCons | event.go:59-64 | an option in front of a list decides the tag only when no later option sets one |
| Events.NewEventFields | event.go:52-67 | a new event carries its topic, data and time; its tag is empty without a tagging option, otherwise the last option's tag |
| Events.NewEventAppendedTag | aggregate.go:89-93 | appending `ForAggregate(t, id)` to any options gives exactly `Event(topic, data, t, id, time)` |
| Events.NilOptionsSkipped | event.go:60-62 | a nil option anywhere in the list has no effect |
| AggregateRuntime.AggregateRegistry.constructor | aggregate.go:38 | the factory registry starts empty |
| AggregateRuntime.AggregateRegistry.RegisterAggregate | aggregate.go:41-59 | a duplicate type panics with the registry unchanged; otherwise the factory is added under its type |
| AggregateRuntime.AggregateRegistry.Lookup | aggregate.go:61-70 | finds the factory exactly when the type is registered; otherwise the not-registered error |
| AggregateRuntime.BaseAggregate.constructor | aggregate.go:106-111 | identity and type as given, no pending events |
| AggregateRuntime.BaseAggregate.PublishEvent | aggregate.go:88-100 | the event is tagged with this aggregate's type and identity and appended to the pending events |
| EventHandlerRegistry.AppendToTopicsAt | event_handler.go:32-38 | after registration a topic's handler list is the old list plus the handler once per occurrence of the topic in the arguments |
| EventHandlerRegistry.AppendToTopicsKeys | event_handler.go:32-38 | the topics with handlers become the old ones plus every argument topic |
| EventHandlerRegistry.EventHandlerRegistry.constructor | event_handler.go:29 | no handlers |
| EventHandlerRegistry.EventHandlerRegistry.RegisterEventHandlers | event_handler.go:32-38 | the handler map becomes the old one with the handler appended for each topic in order |
| CommandRegistry.CommandRegistry.constructor | evol.go:11 | no commands |
| CommandRegistry.CommandRegistry.RegisterCommand | evol.go:14-24 | a taken name fails with the registry unchanged; otherwise the command is added under its name |
| CommandRegistry.CommandRegistry.NewCommand | evol.go:34-39 | the prototype is found exactly when the name is registered; it is the stored one and carries that name |
| CommandRegistry.CommandRegistry.GetAllCmds | evol.go:41-52 | the copy equals the registry |
| LocalCommandBus.LaunchesOf | command/local_cmd_bus.go:40-46 | at most one launch per command sent |
| LocalCommandBus.LaunchesOfAppend | command/local_cmd_bus.go:36-48 | sending two batches launches what the two batches launch, in order |
| LocalCommandBus.LaunchesOfAllRegistered | command/local_cmd_bus.go:40-42 | when every name is registered, command `i` is launched on its own handler, one launch per command |
| LocalCommandBus.LocalCommandBus.constructor | command/local_cmd_bus.go:17-21 | no handlers, nothing launched |
| LocalCommandBus.LocalCommandBus.RegisterCmdHandler | command/local_cmd_bus.go:23-34 | a taken name fails with the handlers unchanged; otherwise the handler is added; nothing is launched |
| LocalCommandBus.LocalCommandBus.HandleCommand | command/local_cmd_bus.go:36-48 | a registered name launches its handler and answers nil; an unknown name answers "handler not found" and launches nothing |
| LocalEventBus.WithChannel | eventbus/local/eventbus.go:129-141 | the topic gets an empty queue if it had none; existing queues are untouched |
| LocalEventBus.Published | eventbus/local/eventbus.go:143-156 | the message joins the topic's queue when there is room; a full queue or a missing topic drops it; other queues and the capacity bound are kept |
| LocalEventBus.PublishedAllKeepsPrefix | eventbus/local/eventbus.go:143-156 | publishing a batch leaves the queue as the old contents plus the batch, cut at capacity 1000 |
| LocalEventBus.OverflowDropsLast | eventbus/local/eventbus.go:14 | publishing 1001 messages to an empty queue keeps the first 1000 |
| LocalEventBus.PublishedAllOthers | eventbus/local/eventbus.go:147 | publishing to one topic never touches another topic's queue |
| LocalEventBus.Group.constructor | eventbus/local/eventbus.go:123-127 | no queues |
| LocalEventBus.Group.Channel | eventbus/local/eventbus.go:129-141 | returns the topic's queue, creating it empty when missing |
| LocalEventBus.Group.Publish | eventbus/local/eventbus.go:143-156 | never fails; the queues become `Published` of the old ones |
| LocalEventBus.Group.Receive | eventbus/local/eventbus.go:97 | a non-empty queue yields its head and loses it; an empty or missing queue yields nothing |
| LocalEventBus.EventBus.constructor | eventbus/local/eventbus.go:27-46 | a fresh empty group and no consumers; the two codec parameters stand in for the codec Go never sets |
| LocalEventBus.EventBus.HandleEvent | eventbus/local/eventbus.go:57-64 | a marshal error is wrapped and nothing is queued; otherwise the encoded event is published on its topic |
| LocalEventBus.EventBus.RegisterHandler | eventbus/local/eventbus.go:67-81 | a nil handler fails and changes nothing; otherwise the topic's queue exists and one running consumer of it is added |
| LocalEventBus.EventBus.ConsumeStep | eventbus/local/eventbus.go:92-115 | a running consumer with a message dequeues it and delivers the decoded event, or stops for good on a decode error; otherwise it blocks and nothing changes |
| MemoryEventRepo.SaveEventsEffect | repo/memory/event_repo.go:27-52 | saving fails exactly for an empty list; otherwise the first event's stream becomes the old stream plus the events, and every other stream is unchanged |
| MemoryEventRepo.SaveAllConcatenates | repo/memory/event_repo.go:47 | successive non-empty saves for one aggregate concatenate its stream and leave other streams alone |
| MemoryEventRepo.AggregateEventRepo.constructor | repo/memory/event_repo.go:15-19 | empty database |
| MemoryEventRepo.AggregateEventRepo.Save | repo/memory/event_repo.go:27-52 | success stores `SaveEvents`' result; failure returns its error and changes nothing |
| MemoryEventRepo.AggregateEventRepo.Load | repo/memory/event_repo.go:54-66 | the aggregate's stream, or `ErrAggregateNotFound` for an unknown identity |
| MemoryModelRepo.ModelRepo.constructor | repo/memory/model_repo.go:11 | empty database |
| MemoryModelRepo.ModelRepo.Find | repo/memory/model_repo.go:15-24 | the stored entity when present, otherwise `ErrAggregateNotFound` |
| MemoryModelRepo.ModelRepo.FindAll | repo/memory/model_repo.go:26-36 | slot `i` holds the entity of the `i`-th key visited, every key is visited exactly once, so the result is the stored entities, one slot per key, in some order |
| MemoryModelRepo.ModelRepo.Save | repo/memory/model_repo.go:38-50 | an empty identity fails with nothing stored; otherwise the entity replaces its identity's entry; entries stay keyed by their own identity |
| MemoryModelRepo.ModelRepo.Remove | repo/memory/model_repo.go:52-61 | the entry is gone and the answer is always "no such entity" |
| SnapshotStore.FromEntity | aggregatestore/agg_model_store.go:28-31 | an entity converts exactly when it is an aggregate; otherwise "invalid aggregate" |
| SnapshotStore.AggregateModelStore.constructor | aggregatestore/agg_model_store.go:10-12 | wraps the given repository |
| SnapshotStore.AggregateModelStore.Load | aggregatestore/agg_model_store.go:14-33 | a stored entity is converted; not-found creates a blank aggregate of the registered type, or fails when the type is unregistered; other errors are returned |
| SnapshotStore.AggregateModelStore.Save | aggregatestore/agg_model_store.go:35-41 | the aggregate is stored under its identity; an empty identity fails with nothing stored |
| EventSourcedStore.Replay | aggregatestore/agg_event_store.go:54-66 | replay never changes which aggregate kind the state is |
| EventSourcedStore.ReplayAppend | aggregatestore/agg_event_store.go:55-64 | replaying `a + b` replays `a`, stops at its error, and otherwise continues with `b` |
| EventSourcedStore.ReplayStopsAtForeignEvent | aggregatestore/agg_event_store.go:56-58 | the first event of another aggregate type stops replay with the type-mismatch error; later events are not applied |
| EventSourcedStore.NotFoundIsEmpty | aggregatestore/agg_event_store.go:25-28 | a not-found stream loads like an empty one: the blank aggregate |
| EventSourcedStore.ReplayReproducesCommand | aggregatestore/agg_event_store.go:19-39 | for orders and payments, replaying the events a command produced rebuilds the state the command left |
| EventSourcedStore.StockReplayDiffers | example/domain/stock_aggregate.go:31 | for stock, replay subtracts the reserved count from the replayed quantity, while the command reads the mock stock level first |
| EventSourcedStore.AggregateEventStore.constructor | aggregatestore/agg_event_store.go:15-17 | wraps the given repository |
| EventSourcedStore.AggregateEventStore.ApplyEvents | aggregatestore/agg_event_store.go:54-66 | the aggregate's state and the error are the `Replay` of the events |
| EventSourcedStore.AggregateEventStore.Load | aggregatestore/agg_event_store.go:19-39 | an unregistered type fails; otherwise a fresh aggregate with no pending events whose state is the blank state replayed over the stored stream, or the replay error |
| EventSourcedStore.AggregateEventStore.Save | aggregatestore/agg_event_store.go:41-52 | the aggregate's pending events are appended to its stream, as `SaveEvents` says, or its error is returned |
| AggCommandHandler.PublishEachAppend | command/agg_cmd_handler.go:31-35 | publishing `a + b` publishes `a`, stops at its error, and otherwise continues with `b` |
| AggCommandHandler.PublishStopsAtFirstFailure | command/agg_cmd_handler.go:31-35 | the first event that fails to marshal ends publishing with the wrapped error; later events are not queued |
| AggCommandHandler.DispatchSavesOnlyOnSuccess | command/agg_cmd_handler.go:16-38 | a failed dispatch stores nothing; a failed load also queues nothing |
| AggCommandHandler.DispatchSuccess | command/agg_cmd_handler.go:29-37 | no events means the empty-save error and no change; success means events were produced, all published in order, and appended to the target's stream |
| AggCommandHandler.CommandEventsTagged | aggregate.go:89-93 | every event a command produces carries the handling aggregate's type and identity |
| AggCommandHandler.ReloadAfterDispatch | command/agg_cmd_handler.go:16-38 | for orders and payments, loading the aggregate again after a successful dispatch gives the state the command left |
| AggCommandHandler.AggCmdHandler.constructor | command/agg_cmd_handler.go:46-50 | type, store and bus as given |
| AggCommandHandler.AggCmdHandler.HandleCommand | command/agg_cmd_handler.go:16-38 | the queues, the event streams and the answer are `Dispatch` of the old ones |
| AggCommandHandler.AggCmdHandler.HandleLoaded | command/agg_cmd_handler.go:25-37 | for the loaded aggregate, the same `Dispatch` equation |
| AggCommandHandler.AggCmdHandler.PublishAndSave | command/agg_cmd_handler.go:29-37 | the pending events are published and saved as `PublishThenSave` says |
| AggCommandHandler.NewAggCmdHandler | command/agg_cmd_handler.go:41-53 | fails exactly for a nil store; otherwise a fresh handler with the given fields |
| DomainCommands.CommandRouting | example/domain/commands.go:8-113 | order commands route to the order aggregate by order id, stock commands by product id, payment by payment id |
| DomainCommands.NameIgnoresFields | example/domain/commands.go:8-113 | name and target type depend only on the command's kind |
| DomainCommands.DomainNamesDistinct | example/domain/commands.go:8-113 | two example commands share a name exactly when they are of the same kind |
| DomainCommands.PrototypeNamesDistinct | example/domain/commands.go:115-122 | the six registered prototypes have six distinct names |
| OrderAggregates.ApplyOrderEvent | example/domain/order_aggregate.go:46-62 | `OrderCreated` sets status "CREATED" and copies the event's fields, or fails to decode after setting the status; other topics change nothing |
| OrderAggregates.CreateOrderPublishes | example/domain/order_aggregate.go:32-44 | `CreateOrder` publishes one tagged `OrderCreated` event carrying the command's fields and leaves a created order; other commands do nothing |
| OrderAggregates.OrderAggregate.constructor | example/domain/order_aggregate.go:12-17 | a fresh base with the order type and identity, the blank order |
| OrderAggregates.OrderAggregate.HandleSourcingEvent | example/domain/order_aggregate.go:46-62 | the new state and answer are `ApplyOrderEvent` of the old state |
| OrderAggregates.OrderAggregate.PublishEvent | aggregate.go:88-100 | the tagged event is appended, then applied to the order |
| OrderAggregates.OrderAggregate.HandleCommand | example/domain/order_aggregate.go:32-44 | always nil; the command's events are appended and the state follows |
| StockAggregates.ApplyStockEvent | example/domain/stock_aggregate.go:51-65 | `ProductReserved` subtracts its count or fails to decode; other topics change nothing; the product id never changes |
| StockAggregates.ReservationOutcome | example/domain/stock_aggregate.go:28-49 | a reservation reads the mock level and publishes one event: reserved, leaving level minus count, when the level covers the count; otherwise failed with "not enough products", leaving the level |
| StockAggregates.StockAggregate.constructor | example/domain/stock_aggregate.go:12-17 | a fresh base with the stock type and identity, the blank stock |
| StockAggregates.StockAggregate.HandleSourcingEvent | example/domain/stock_aggregate.go:51-65 | the new state and answer are `ApplyStockEvent` of the old state |
| StockAggregates.StockAggregate.PublishEvent | aggregate.go:88-100 | the tagged event is appended, then applied to the stock |
| StockAggregates.StockAggregate.HandleCommand | example/domain/stock_aggregate.go:28-49 | always nil; the command's events are appended and the state follows |
| PaymentAggregates.ApplyPaymentEvent | example/domain/payment_aggregate.go:54-79 | `OrderPayed` records the payment as "PAYED", `OrderPayFailed` as "Failed" keeping the amount, a decode failure changes nothing, other topics change nothing |
| PaymentAggregates.PaymentOutcome | example/domain/payment_aggregate.go:30-52 | `PayOrder` publishes one event: payed when the buyer's balance covers the amount, otherwise failed with "balance not enough"; other commands do nothing |
| PaymentAggregates.PaymentAggregate.constructor | example/domain/payment_aggregate.go:12-17 | a fresh base with the payment type and identity, the blank payment |
| PaymentAggregates.PaymentAggregate.HandleSourcingEvent | example/domain/payment_aggregate.go:54-79 | the new state and answer are `ApplyPaymentEvent` of the old state |
| PaymentAggregates.PaymentAggregate.PublishEvent | aggregate.go:88-100 | the tagged event is appended, then applied to the payment |
| PaymentAggregates.PaymentAggregate.HandleCommand | example/domain/payment_aggregate.go:30-52 | always nil; the command's events are appended and the state follows |
| Aggregates.ApplyEvent | event_handler.go:20-27 | applying an event never changes which aggregate kind the state is |
| Aggregates.HandleSourcingEvent | event_handler.go:26 | dispatches to the aggregate's own handler: state and answer are `ApplyEvent` |
| Aggregates.HandleCommand | aggregate.go:24-25 | always nil; the pending events grow by the command's events and the state follows |
| Aggregates.Build | example/domain/order_aggregate.go:12-17 | a fresh aggregate of the factory's type and the given identity, in its blank state with no pending events |
| Aggregates.CreateAggregate | aggregate.go:61-70 | succeeds exactly for a registered type, building a fresh blank aggregate; otherwise the not-registered error |
| Aggregates.RegisterDomainAggregates | example/domain/order_aggregate.go:10-18 | on a registry without the three example types, all three `init` registrations succeed and add their factories |
| OrderSagas.ResolverIsConstant | example/domain/saga.go:35-37 | every event resolves to the saga id "OrderId" |
| OrderSagas.OrderCreatedReserves | example/domain/saga.go:58-77 | `OrderCreated` copies the order into the saga and sends one `MakeReservation(order, product, 1)` per product, in order; the answer is nil |
| OrderSagas.ReservationCountsDown | example/domain/saga.go:79-106 | a decodable reservation result lowers the outstanding count by one; an undecodable one fails and sends nothing; commands are sent only when the count was 1 |
| OrderSagas.LastReservationPays | example/domain/saga.go:139-164 | the last successful reservation with no rollback pending sends one `PayOrder` with the formatted uuid and answers what the bus answers |
| OrderSagas.PayFailedRollsBack | example/domain/saga.go:119-134 | a failed payment marks a rollback, rolls back each reserved product in order, then cancels the order with "Pay Order Failed"; the answer is nil |
| OrderSagas.PayedConfirms | example/domain/saga.go:108-117 | a payment confirms the order and answers what the bus answers; the saga is unchanged |
| OrderSagas.ReactInvariants | example/domain/saga.go:85-102 | the reserved and failed product lists never gain a duplicate, and a pending rollback is never cleared |
| OrderSagas.ReservationNeverFinishes | example/domain/saga.go:52 | with the count starting at zero, creation and reservation events only ever send reservations: no payment, rollback or cancel |
| OrderSagas.SendReservations | example/domain/saga.go:69-77 | one reservation launch per product, in order; the bus's handlers are unchanged |
| OrderSagas.OrderSaga.constructor | example/domain/saga.go:31-33 | a fresh base saga with the given identity and type, not alive, and the zero saga state |
| OrderSagas.OrderSaga.HandleSagaEvent | example/domain/saga.go:56-137 | the new saga state, the answer and the launched commands are as `React` says |
| OrderSagas.OrderSaga.OnOrderCreated | example/domain/saga.go:58-77 | the same `React` equation for an `OrderCreated` event |
| OrderSagas.OrderSaga.OnReservation | example/domain/saga.go:79-106 | the same `React` equation for a reservation result |
| OrderSagas.OrderSaga.OnPayFailed | example/domain/saga.go:119-134 | the same `React` equation for a failed payment |
| OrderSagas.OrderSaga.FinishReservation | example/domain/saga.go:139-164 | launches and answer as `Finish` says: rollback and cancel when a rollback is pending, otherwise pay, or the uuid error |
| OrderSagas.OrderSaga.RollBackOrder | example/domain/saga.go:166-176 | one rollback launch per reserved product, in order |
| SagaBase.BaseSaga.constructor | saga/saga.go:38-45 | the given identity and type, not alive |
| SagaBase.BaseSaga.StartSaga | saga/saga.go:26-28 | alive afterwards |
| SagaBase.BaseSaga.EndSaga | saga/saga.go:30-32 | not alive afterwards |
| SagaBase.CheckParam | saga/saga.go:122-144 | passes exactly when type, factory, start events, end events and resolver are all present; otherwise the first missing one is named |
| SagaBase.Digits | example/domain/saga.go:155 | decimal digits are never empty |
| SagaBase.DigitsRoundTrip | example/domain/saga.go:155 | the digits are decimal, have no leading zero, and parse back to the number |
| SagaBase.FormatIntInjective | example/domain/saga.go:155 | different uuids give different payment ids |
| SagaHandlers.StartSaga | saga/saga.go:187-189 | the handler is alive afterwards; an order saga's state is kept |
| SagaHandlers.EndSaga | saga/saga.go:191-193 | an order saga is not alive afterwards and its state is kept; a function handler stays alive |
| SagaHandlers.HandleSagaEvent | saga/saga.go:203-205 | an order saga reacts as `React` says and keeps its liveness; a function handler answers its function's result and launches nothing |
| SagaHandlers.Build | example/domain/saga.go:31-33 | the order factory builds a fresh, not-yet-alive saga with the given identity and type; the function factory hands out its function |
| MemorySagaRepo.LoadAfterSave | saga/repo.go:26-32 | after a save the saga loads under its identity, and every other identity loads as before |
| MemorySagaRepo.LoadAfterDelete | saga/repo.go:34-39 | after a delete the identity loads nil and every other identity loads as before; deleting an absent identity changes nothing |
| MemorySagaRepo.SagaRepo.constructor | saga/repo.go:13-17 | no sagas |
| MemorySagaRepo.SagaRepo.Load | saga/repo.go:19-24 | the stored saga, or nil |
| MemorySagaRepo.SagaRepo.Save | saga/repo.go:26-32 | never fails; the saga is stored under its identity |
| MemorySagaRepo.SagaRepo.Delete | saga/repo.go:34-39 | never fails; the identity is removed |
| SagaManagers.Handled | saga/saga.go:102-104 | a saga that is not alive is refused with "not alive", left unchanged, and sends nothing |
| SagaManagers.SagaManager.constructor | saga/saga.go:79-89 | the options given, with no repository and no command bus |
| SagaManagers.SagaManager.HandleEvent | saga/saga.go:92-116 | the saga repository is never written; a missing resolver or repository panics; a new saga reacts from the fresh state; a stored order saga is refused when dead, otherwise reacts, and is ended on an end topic; a function saga answers its function's result |
| SagaManagers.ManagerSubscriptions | saga/saga.go:170-176 | one subscription per start, on and end topic, in that order, all to the manager |
| SagaManagers.ConsumersOf | eventbus/local/eventbus.go:73-78 | one running consumer per subscription, reading its topic's queue |
| SagaManagers.ConsumersOfAppend | eventbus/local/eventbus.go:67-81 | consumers of two subscription lists concatenate |
| SagaManagers.WithChannelsEffect | eventbus/local/eventbus.go:129-141 | after subscribing, a queue exists exactly for the old topics and the subscribed ones; old queues are untouched and new ones are empty |
| SagaManagers.WithChannelsAppend | eventbus/local/eventbus.go:129-141 | creating the queues of two subscription lists is creating those of the first, then of the second |
| SagaManagers.SubscriptionsAppend | saga/saga.go:167-177 | the subscriptions of one more manager are appended to those of the managers before it |
| SagaManagers.SagaRegistry.constructor | saga/saga.go:49 | no managers |
| SagaManagers.SagaRegistry.RegisterSaga | saga/saga.go:146-159 | an invalid manager fails with `checkParam`'s error; a taken type fails with "already register"; otherwise the manager is added under its type |
| SagaManagers.SagaRegistry.PrepareNext | saga/saga.go:168-176 | one more manager gets the buses and the repository, and its subscriptions are added to the consumers and queues |
| SagaManagers.SagaRegistry.PrepareSagas | saga/saga.go:161-179 | a nil repository fails with nothing changed, the managers outside the frame; otherwise every manager is visited once, gets the command bus and repository, and is subscribed to its topics |
| SagaManagers.Prepare | saga/saga.go:168-176 | one manager gets the buses and the repository and is subscribed to its topics |
| SagaManagers.Subscribe | saga/saga.go:171-176 | the manager's subscriptions are added, in order, to the consumers and the queues |
| SagaManagers.RegisterOrderSaga | example/domain/saga.go:13-29 | a fresh order-saga manager with the example's topics, resolver and factory; registered when the type is free, otherwise `init` panics with the registry unchanged |
| Application.HandleEvent | event_handler.go:16-18 | a function handler answers its function's result |
| Application.RegisterOrderEventHandlers | example/domain/event_handlers.go:8-15 | the placeholder handler is appended for the four order topics |
| Application.OrderEventHandlersRegistered | example/domain/event_handlers.go:8-15 | from an empty registry, each of the four order topics has exactly the placeholder handler and other topics have none |
| Application.RegisterAllKeeps | evol.go:14-24 | registering commands adds exactly their names and keeps every earlier registration |
| Application.RegisterAllStores | evol.go:18-22 | among distinctly named commands, each whose name was free is stored under it |
| Application.RegisterDomainCommands | example/domain/commands.go:115-122 | the six prototype names are added, earlier registrations are kept, and each free name gets its prototype |
| Application.Runtime.constructor | evol.go:9 | the global command bus starts nil |
| Application.Runtime.SendCommand | evol.go:26-32 | a nil bus panics; otherwise the bus's answer and launch for the command |
| Application.WiringOutcome | application/app.go:41-54 | wiring succeeds exactly when there are no commands, or the store is present and no command name is taken; the error says which |
| Application.WireOne | application/app.go:44-51 | a nil store fails; a taken name fails; otherwise a fresh aggregate command handler for the command's target type is added under its name |
| Application.RegisterCmdHandler | application/app.go:41-54 | earlier handlers are kept, every new handler is a fresh one wired to a registered command, and on success every command name has one |
| Application.Run | application/app.go:11-39 | the global command bus is set and the command handlers wired as `CommandsWired` says; a wiring error is returned with the event bus as it was and the managers outside the frame; otherwise the consumers and queues are `BusSubscribed`'s for every topic visited once, then a nil saga store fails, or every saga manager is visited once and gets the command bus and the saga repository |
| Application.SubscribeAll | application/app.go:25-35 | every event-handler topic is visited once and subscribed, then the saga managers; consumers and queues are `BusSubscribed`'s; a nil saga store fails with the managers untouched, otherwise every manager gets the command bus and the saga repository |
| Application.SubscribeHandlers | application/app.go:27-31 | every topic of the registry is visited once; each of its handlers becomes one consumer of its queue, and the queue is created if missing |
| Application.SubscribeTopic | application/app.go:28-30 | each handler of one topic becomes one consumer of its queue, in order, and the queue is created if missing |
| Application.Wire | application/app.go:17-21 | step 1: the global command bus is set, and the outcome is `WiringOutcome`'s with `CommandsWired`'s handlers on the bus |
| Application.SubscribedTopicsQueued | eventbus/local/eventbus.go:67-81 | after step 2, every topic with a handler in the registry has a queue, whatever the visiting order |
| Application.HandlerSubscriptionsAppend | application/app.go:27-31 | the consumers for one more topic are appended to those before it |
| Application.HandlerSubscriptionsSnoc | application/app.go:27-31 | the subscriptions for one more topic are appended to those before it |
| Scenarios.Registries | example/domain/commands.go:115-122 | after the example's `init` functions the command registry holds the six prototype names and the saga registry holds exactly the order-saga manager |
| Scenarios.Bootstrap | example/main.go:20-30 | `initEvol` with the in-memory stores succeeds, the order-saga manager gets the command bus and the saga repository, and each of the four order topics has a queue |
| Scenarios.CreateAndReloadOrder | command/agg_cmd_handler.go:16-38 | dispatching `CreateOrder` stores exactly one tagged `OrderCreated` event, and reloading replays it to the created order |
| Scenarios.ReplayCreated | aggregatestore/agg_event_store.go:19-39 | replaying that one event over a blank order gives the created order |
| Scenarios.ReloadOrder | aggregatestore/agg_event_store.go:19-39 | loading from a repository holding just that stream gives the created order |
| Scenarios.NamedBus | command/local_cmd_bus.go:23-34 | a bus with a handler for every example command, named after it |
| Scenarios.FeedNew | saga/saga.go:95-105 | with an empty saga repository the manager reacts from a freshly started saga and stores nothing |
| Scenarios.CreatedReserves | example/domain/saga.go:58-77 | creating order "o1" with products p1 and p2 sends exactly their two reservations |
| Scenarios.FreshReservedSilent | example/domain/saga.go:79-91 | a reservation reaching a fresh saga sends nothing |
| Scenarios.SagaScenario | example/domain/saga.go:39-42 | the flow described in `OrderSaga`'s comment launches only the two reservations and never a `PayOrder` |
| Scenarios.FeedStored | saga/saga.go:92-116 | with one stored saga, the manager reacts with it and ends it on an end topic |
| Scenarios.PayFailedOnFresh | example/domain/saga.go:119-134 | a failed payment on a live fresh saga cancels the empty order id with "Pay Order Failed" |
| Scenarios.StoredSetup | saga/repo.go:26-32 | a manager whose repository holds one live, fresh order saga |
| Scenarios.LifecycleScenario | saga/saga.go:102-110 | a failed payment is handled and ends the stored saga; the next event is refused with "not alive", and only the one cancel is launched |

## Left out

- Concurrency: mutexes, goroutines and `sync.WaitGroup`. Each operation is atomic in the model, a command handler goroutine is a recorded launch, and an event consumer is a single dequeue step (`ConsumeStep`) rather than a loop.
- Contexts and `Close`: cancelling a context and closing the local event bus.
- The JSON codecs (codec/) and `mapstructure`: the event codec is a pair of model parameters of the bus, and decoding (`DomainEvents.DecodeOrderCreated` and its four siblings) is an abstraction that succeeds exactly on the matching payload variant.
- LocalEventBus.EventBus.constructor: `NewEventBus` takes only options, the only option is `WithGroup`, and nothing in the repository assigns `b.codec`. As written, the local bus's `HandleEvent` and its consumer call a nil codec and panic on the first publish, so the example crashes on the first event a command produces. The constructor's marshal and unmarshal parameters stand in for a codec the source never has, and the model follows the publish-then-save flow that command/agg_cmd_handler.go:29-37 is written for.
- MemoryModelRepo.ModelRepo.constructor: Go has no constructor for `ModelRepo`, and its `db` field is unexported, so outside its package only the zero value can be built. Its map is nil, and `Save` then panics on the assignment to a nil map. The model assumes an instance with an initialised, empty map.
- SnapshotStore.AggregateModelStore.constructor: Go has no constructor for `AggregateModelStore`, and its `repo` field is unexported, so outside its package only the zero value, with a nil repository, can be built. `Load` and `Save` then panic. The model assumes an instance wrapping a given repository.
- Floating point: `TotalPrice`, `Amount` and balances are integers.
- Local time (`time.Now()`), the uuid generator, and the mock `Stock` and `Balance` tables are parameters.
- PaymentAggregates.PaymentOutcome: every clock read during one command is the same instant `env.now`. `PaymentAggregate.HandleCommand` reads the clock twice per event, once for the payload's `Time` and once for the event's timestamp (example/domain/payment_aggregate.go:39-40 and :46-47), so Go does not guarantee the payload time equal to the event time that the model's contracts state.
- The NATS event bus, the distributed command bus, the HTTP adapter with gin, the application service, the request types and the order query side: they are outside the write-side core.
- Logging (`log.Println` of an apply error, the queue-full message) is dropped.
- The one-millisecond sleep in the consumer loop is not modelled.
- Application.HandleEvent: states only the function-handler case; the saga-manager case is the contract of `SagaManagers.SagaManager.HandleEvent`, which it calls.
- SagaManagers.SagaManager.HandleEvent: requires a command bus; `PrepareSagas` always sets one, and without it the Go code fails only at the first send.
- Formatted error arguments are not modelled. The not-alive error of `SagaManager.HandleEvent` keeps the literal `%v` in place of the printed saga. The duplicate-type panic of `RegisterAggregate` (`aggregate.go:53`) and the two `applyEvents` errors of the event-sourcing store (`TypeMismatch` and `ApplyFailed`, `aggregatestore/agg_event_store.go:57` and `:61`) end before their `%s` and omit the type or the printed event.
- SagaHandlers.HandleSagaEvent: a function saga's function sees only the event; the commands it could send on the bus it is handed are not modelled.
- AggCommandHandler.AggCmdHandler.HandleCommand: runs over the event-sourcing store, as the example wires it; the snapshot store is modelled on its own. The `a == nil` branch and the error from the aggregate's own `HandleCommand` never fire with the example aggregates, so they are not separate paths.
- EventSourcedStore.AggregateEventStore.Load: every example aggregate is an event-sourcing handler, so the failing conversion in `Load` and `Save` is not a path of the model.
- SagaManagers.SagaRegistry.PrepareSagas: the loop never stops early, because the local bus's `RegisterHandler` fails only for a nil handler and a manager is never nil.
- OrderSagas.OrderSaga.HandleSagaEvent: the answers of the bus for reservations, rollbacks and cancels are discarded, as in the Go code; only the `PayOrder` and `OrderConfirmed` sends return them.
- Map iteration order in Go is unspecified. `FindAll`, `RegisterCmdHandler`, `Run` and `PrepareSagas` are proved for every visiting order, which stays a ghost value.
