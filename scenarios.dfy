/** End-to-end runs of the example, built from fresh components as example/main.go builds
    them: the bootstrap, an order created through the command side and reloaded from its
    stream, and the order saga fed through its manager. */
module Scenarios {
  import opened Wrappers
  import opened DomainEvents
  import opened DomainCommands
  import opened DomainMock
  import opened Events
  import opened AggregateRuntime
  import opened CommandRegistry
  import opened EventHandlerRegistry
  import opened LocalCommandBus
  import opened LocalEventBus
  import opened OrderAggregates
  import opened Aggregates
  import opened MemoryEventRepo
  import opened EventSourcedStore
  import opened AggCommandHandler
  import opened OrderSagas
  import opened SagaHandlers
  import opened MemorySagaRepo
  import opened SagaManagers
  import opened Application

  /** A codec that encodes every event as the empty message and decodes nothing. */
  function NoMarshal(e: Event): Result<Bytes>
  {
    Ok([])
  }

  function NoUnmarshal(b: Bytes): Result<Event>
  {
    Err(DecodeFailed)
  }

  /** The example's `init` functions: the six commands, the order event handler and the order
      saga registered on new registries. */
  method Registries() returns (commands: CommandRegistry, handlers: EventHandlerRegistry<EventHandler>,
                               sagas: SagaRegistry<CmdHandler>, manager: SagaManager<CmdHandler>)
    ensures fresh(commands) && fresh(handlers) && fresh(sagas) && fresh(manager)
    ensures commands.cmds.Keys == set i | 0 <= i < |Prototypes| :: Prototypes[i].Name()
    ensures sagas.managers == map[OrderSagaType := manager] && manager.sagaType == OrderSagaType
    ensures handlers.handlers == AppendToTopics(map[], FuncHandler(OrderEventFuncHandler), OrderEventHandlerTopics)
  {
    commands := new CommandRegistry();
    RegisterDomainCommands(commands);
    handlers := new EventHandlerRegistry<EventHandler>();
    RegisterOrderEventHandlers(handlers);
    sagas := new SagaRegistry<CmdHandler>();
    var registered;
    manager, registered := RegisterOrderSaga(sagas);
  }

  /** `initEvol`: `Run` on the example's registries, a new command bus, local event bus,
      replaying store and saga repository succeeds, the order saga's manager is handed the
      command bus and the repository, and each of the four order topics has a queue. */
  method Bootstrap() returns (o: Outcome, cmdBus: CmdBus, manager: SagaManager<CmdHandler>, evtBus: EvtBus, sagaStore: SagaRepo)
    ensures o == Pass
    ensures manager.cmdBus == Some(cmdBus) && manager.sagaRepo == Some(sagaStore) && manager.sagaType == OrderSagaType
    ensures forall t :: t in OrderEventHandlerTopics ==> t in evtBus.group.bus
  {
    var commands, handlers, sagas;
    commands, handlers, sagas, manager := Registries();
    cmdBus := new LocalCommandBus<CmdHandler>();
    evtBus := new EventBus<EventHandler>(NoMarshal, NoUnmarshal);
    var repo := new AggregateEventRepo();
    var store := new AggregateEventStore(repo);
    sagaStore := new SagaRepo();
    var rt := new Runtime();
    ghost var topics, order;
    o, topics, order := Run(rt, commands, handlers, sagas, cmdBus, evtBus, Some(store), Some(sagaStore));
    assert OrderSagaType in sagas.managers;
    forall t | t in OrderEventHandlerTopics
      ensures t in evtBus.group.bus
    {
      OrderEventHandlersRegistered(t);
      SubscribedTopicsQueued(map[], topics, handlers.handlers, SagaSubscriptions(order, sagas.managers, Some(sagaStore)), t);
    }
  }

  /** Creating order "o1" for 150 through the order handler on an empty store: one
      `OrderCreatedEvent` carrying the command's fields is stored as the order's stream, and
      loading "o1" fresh replays it to the state "CREATED" with the price 150. */
  method CreateAndReloadOrder(env: Env) returns (o: Outcome, stream: Result<seq<Event>>, reloaded: Result<Snapshot>)
    ensures o == Pass
    ensures stream == Ok([Event(OrderCreatedEventTopic, OrderCreatedEvent("o1", "b1", 150, ["p1", "p2"]),
                                OrderAggregateType, "o1", env.now)])
    ensures reloaded == Ok(OrderSnap(OrderState("o1", "b1", 150, ["p1", "p2"], "CREATED")))
  {
    var registry := new AggregateRegistry<Factory>();
    var _ := RegisterDomainAggregates(registry);
    var repo := new AggregateEventRepo();
    var store := new AggregateEventStore(repo);
    var evtBus := new EventBus<EventHandler>(NoMarshal, NoUnmarshal);
    var handler := new AggCmdHandler<EventHandler>(OrderAggregateType, store, Some(evtBus));
    var cmd := CreateOrderCmd("o1", "b1", 150, ["p1", "p2"]);
    ghost var es := [Event(OrderCreatedEventTopic, OrderCreatedEvent("o1", "b1", 150, ["p1", "p2"]),
                           OrderAggregateType, "o1", env.now)];
    assert Loaded(registry.factories, map[], OrderAggregateType, cmd, env) == Ok((OrderSnap(BlankOrder("o1")), es));
    assert PublishEach(NoMarshal, map[], es) == (map[], Pass);
    o := handler.HandleCommand(registry, cmd, env);
    assert repo.db == map["o1" := AggregateRecord("o1", OrderAggregateType, es)];
    stream := repo.Load("o1");
    reloaded := ReloadOrder(registry, store, env.now);
  }

  /** The stream holding only the creation of order "o1" at `now`. */
  function CreatedStream(now: Time): seq<Event>
  {
    [Event(OrderCreatedEventTopic, OrderCreatedEvent("o1", "b1", 150, ["p1", "p2"]), OrderAggregateType, "o1", now)]
  }

  /** Replaying the creation on the blank order gives the created order. */
  lemma ReplayCreated(now: Time)
    ensures LoadResult(BlankState(OrderFactory, "o1"), OrderAggregateType, Ok(CreatedStream(now)))
         == Ok(OrderSnap(OrderState("o1", "b1", 150, ["p1", "p2"], "CREATED")))
  {
    var es := CreatedStream(now);
    var created := OrderSnap(OrderState("o1", "b1", 150, ["p1", "p2"], "CREATED"));
    assert ApplyEvent(BlankState(OrderFactory, "o1"), es[0]) == (created, Pass);
    assert es[1..] == [];
    assert Replay(created, OrderAggregateType, es[1..]) == (created, Pass);
    assert Replay(BlankState(OrderFactory, "o1"), OrderAggregateType, es) == (created, Pass);
  }

  /** Loading "o1" back through the store. */
  method ReloadOrder(registry: AggregateRegistry<Factory>, store: AggregateEventStore, now: Time) returns (reloaded: Result<Snapshot>)
    requires OrderAggregateType in registry.factories && registry.factories[OrderAggregateType] == OrderFactory
    requires store.repo.db == map["o1" := AggregateRecord("o1", OrderAggregateType, CreatedStream(now))]
    ensures reloaded == Ok(OrderSnap(OrderState("o1", "b1", 150, ["p1", "p2"], "CREATED")))
  {
    ReplayCreated(now);
    assert StreamOf(store.repo.db, "o1") == Ok(CreatedStream(now));
    var loaded := store.Load(registry, OrderAggregateType, "o1");
    match loaded {
      case Ok(a) => reloaded := Ok(a.State());
      case Err(e) => reloaded := Err(e);
    }
  }

  /** A command bus on which every example command has a handler, the handler being the name. */
  method NamedBus() returns (bus: LocalCommandBus<CommandName>)
    ensures fresh(bus) && bus.launched == []
    ensures forall i :: 0 <= i < |Prototypes| ==> Prototypes[i].Name() in bus.handlers
    ensures forall n :: n in bus.handlers ==> bus.handlers[n] == n
  {
    PrototypeNamesDistinct();
    bus := new LocalCommandBus<CommandName>();
    var i := 0;
    while i < |Prototypes|
      invariant 0 <= i <= |Prototypes|
      invariant fresh(bus) && bus.launched == []
      invariant forall j :: 0 <= j < i ==> Prototypes[j].Name() in bus.handlers
      invariant forall n :: n in bus.handlers ==> bus.handlers[n] == n
    {
      var _ := bus.RegisterCmdHandler(Prototypes[i].Name(), Prototypes[i].Name());
      i := i + 1;
    }
  }

  /** One event through a manager of the order saga whose repository is empty: a new saga
      reacts from the zero state, and the repository stays empty. */
  method FeedNew<CH>(m: SagaManager<CH>, e: Event, uuid: Result<int>) returns (o: Outcome)
    requires m.cmdBus.Some? && m.sagaRepo.Some? && m.sagaRepo.value.sagas == map[]
    requires m.resolver.Some? && m.sagaFactory == Some(OrderSagaFactory)
    modifies m.cmdBus.value
    ensures m.sagaRepo.value.sagas == map[] && m.cmdBus.value.handlers == old(m.cmdBus.value.handlers)
    ensures var r := React(FreshOrderSaga, e, uuid, old(m.cmdBus.value.handlers));
      && o == r.result
      && m.cmdBus.value.launched == old(m.cmdBus.value.launched) + LaunchesOf(old(m.cmdBus.value.handlers), r.sent)
  {
    assert m.Stored(e).None?;
    o := m.HandleEvent(e, uuid);
  }

  /** A new saga meeting the two-product order sends its two reservations. */
  lemma CreatedReserves<CH>(e: Event, uuid: Result<int>, handlers: map<CommandName, CH>)
    requires e.topic == OrderCreatedEventTopic && e.data == OrderCreatedEvent("o1", "b1", 150, ["p1", "p2"])
    ensures React(FreshOrderSaga, e, uuid, handlers).sent == [MakeReservationCmd("o1", "p1", 1), MakeReservationCmd("o1", "p2", 1)]
  {
    assert Reservations("o1", ["p1", "p2"]) == [MakeReservationCmd("o1", "p1", 1), MakeReservationCmd("o1", "p2", 1)];
  }

  /** A new saga meeting a reservation counts down from zero and sends nothing. */
  lemma FreshReservedSilent<CH>(e: Event, uuid: Result<int>, handlers: map<CommandName, CH>)
    requires e.topic == ProductReservedEventTopic
    ensures React(FreshOrderSaga, e, uuid, handlers).sent == []
  {
    ReservationCountsDown(FreshOrderSaga, e, uuid, handlers);
  }

  /** The order saga as the manager really runs it: a two-product order is created, then both
      products are reserved. `HandleEvent` never saves the saga, so each event meets a new one,
      whose `toReserveNum` starts at zero: the two reservations are sent, and no payment is ever
      requested, where `OrderSaga`'s comment (example/domain/saga.go:39-42) describes one
      `PayOrderCmd` after the second reservation. */
  method SagaScenario(uuid: Result<int>) returns (launched: seq<Launch<CommandName>>)
    ensures launched == [Launch(MakeReservationCmd("o1", "p1", 1).Name(), MakeReservationCmd("o1", "p1", 1)),
                         Launch(MakeReservationCmd("o1", "p2", 1).Name(), MakeReservationCmd("o1", "p2", 1))]
    ensures forall l :: l in launched ==> !l.cmd.PayOrderCmd?
  {
    var bus := NamedBus();
    var registry := new SagaRegistry<CommandName>();
    var manager, _ := RegisterOrderSaga(registry);
    var repo := new SagaRepo();
    manager.cmdBus := Some(bus);
    manager.sagaRepo := Some(repo);
    var created := Event(OrderCreatedEventTopic, OrderCreatedEvent("o1", "b1", 150, ["p1", "p2"]), OrderAggregateType, "o1", 0);
    var r1 := Event(ProductReservedEventTopic, ProductReservedEvent("p1", "o1", 1), StockAggregateType, "p1", 0);
    var r2 := Event(ProductReservedEventTopic, ProductReservedEvent("p2", "o1", 1), StockAggregateType, "p2", 0);
    ghost var h := bus.handlers;
    CreatedReserves(created, uuid, h);
    FreshReservedSilent(r1, uuid, h);
    FreshReservedSilent(r2, uuid, h);
    assert MakeReservationCmd("o1", "p1", 1).Name() == Prototypes[2].Name();
    var _ := FeedNew(manager, created, uuid);
    var _ := FeedNew(manager, r1, uuid);
    var _ := FeedNew(manager, r2, uuid);
    launched := bus.launched;
  }

  /** One event through a manager of the order saga whose repository holds `h`, the order saga
      for every identity the constant resolver gives. */
  method FeedStored<CH>(m: SagaManager<CH>, h: SagaHandler, e: Event, uuid: Result<int>) returns (o: Outcome)
    requires m.cmdBus.Some? && m.sagaRepo.Some? && m.sagaRepo.value.sagas == map["OrderId" := h]
    requires m.resolver == Some(Resolver) && m.endEvents == OrderSagaEndEvents && h.OrderSagaHandler?
    modifies m.cmdBus.value, h.Repr()
    ensures m.sagaRepo.value.sagas == map["OrderId" := h] && m.cmdBus.value.handlers == old(m.cmdBus.value.handlers)
    ensures var r := Handled(old(h.saga.State()), old(h.saga.base.isAlive), e, uuid, old(m.cmdBus.value.handlers));
      && o == r.result && h.saga.State() == r.state
      && m.cmdBus.value.launched == old(m.cmdBus.value.launched) + LaunchesOf(old(m.cmdBus.value.handlers), r.sent)
      && h.saga.base.isAlive == AliveAfter(old(h.saga.base.isAlive), e, OrderSagaEndEvents)
  {
    assert m.Stored(e) == Some(h);
    o := m.HandleEvent(e, uuid);
  }

  /** A started order saga in the zero state meeting a failed payment cancels the order it has
      not learnt the id of, with nothing to roll back. */
  lemma PayFailedOnFresh<CH>(e: Event, uuid: Result<int>, handlers: map<CommandName, CH>)
    requires e.topic == OrderPayFailedEventTopic && e.data.OrderPayFailedEvent?
    ensures var r := Handled(FreshOrderSaga, true, e, uuid, handlers);
      r.result == Pass && r.sent == [CancelOrderCmd("", "Pay Order Failed")]
  {
    assert RollBacks("", []) == [];
  }

  /** A manager of the order saga, on a bus naming every command, whose repository holds one
      started order saga in the zero state. */
  method StoredSetup() returns (m: SagaManager<CommandName>, bus: LocalCommandBus<CommandName>, h: SagaHandler)
    ensures fresh(m) && fresh(bus) && h.OrderSagaHandler? && fresh(h.Repr())
    ensures bus.launched == [] && forall i :: 0 <= i < |Prototypes| ==> Prototypes[i].Name() in bus.handlers
    ensures forall n :: n in bus.handlers ==> bus.handlers[n] == n
    ensures m.cmdBus == Some(bus) && m.sagaRepo.Some? && m.sagaRepo.value.sagas == map["OrderId" := h]
    ensures m.resolver == Some(Resolver) && m.endEvents == OrderSagaEndEvents
    ensures h.saga.State() == FreshOrderSaga && h.saga.base.isAlive
  {
    bus := NamedBus();
    var registry := new SagaRegistry<CommandName>();
    var registered;
    m, registered := RegisterOrderSaga(registry);
    var repo := new SagaRepo();
    m.cmdBus := Some(bus);
    m.sagaRepo := Some(repo);
    h := SagaHandlers.Build(OrderSagaFactory, OrderSagaType, "OrderId");
    StartSaga(h);
    var saved := repo.Save(h);
  }

  /** The saga lifecycle for a saga that is in the repository: it handles an end-topic event
      and is ended by it, and the next event for the same identity is refused as not alive. */
  method LifecycleScenario(uuid: Result<int>) returns (first: Outcome, second: Outcome, sent: seq<Launch<CommandName>>)
    ensures first == Pass && second == Fail(NotAlive)
    ensures sent == [Launch(CancelOrderCmd("", "Pay Order Failed").Name(), CancelOrderCmd("", "Pay Order Failed"))]
  {
    var manager, bus, saga := StoredSetup();
    var payFailed := Event(OrderPayFailedEventTopic, OrderPayFailedEvent("pay1", "o1", "balance not enough", 0), PaymentAggregateType, "pay1", 0);
    var payed := Event(OrderPayedEventTopic, OrderPayedEvent("pay1", "o1", 150, 0), PaymentAggregateType, "pay1", 0);
    PayFailedOnFresh(payFailed, uuid, bus.handlers);
    assert CancelOrderCmd("", "Pay Order Failed").Name() == Prototypes[1].Name();
    first := FeedStored(manager, saga, payFailed, uuid);
    second := FeedStored(manager, saga, payed, uuid);
    sent := bus.launched;
  }
}
