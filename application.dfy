/** The bootstrap (application/app.go) and the example's registrations: the command handlers
    the command bus dispatches to, the event handlers the event bus delivers to, the global
    command bus `SendCommand` uses, and the `init` functions of the example domain. */
module Application {
  import opened Wrappers
  import opened DomainEvents
  import opened DomainCommands
  import opened Events
  import opened CommandRegistry
  import opened EventHandlerRegistry
  import opened LocalCommandBus
  import opened LocalEventBus
  import opened EventSourcedStore
  import opened AggCommandHandler
  import opened MemorySagaRepo
  import opened SagaManagers

  /** What the command bus holds: an aggregate command handler publishing to the local bus. */
  datatype CmdHandler = AggHandler(h: AggCmdHandler<EventHandler>)

  /** What the event bus delivers to: an `EventHandlerFunc`, or a saga manager. */
  datatype EventHandler =
    | FuncHandler(handle: Event -> Outcome)
    | SagaEventHandler(m: SagaManager<CmdHandler>)

  type CmdBus = LocalCommandBus<CmdHandler>
  type EvtBus = EventBus<EventHandler>

  /** `HandleEvent` of an event handler: a function handler returns its function's result
      (`EventHandlerFunc.HandleEvent`); a saga manager handles the event as `HandleEvent` in
      module SagaManagers says. */
  method HandleEvent(h: EventHandler, e: Event, uuid: Result<int>) returns (o: Outcome)
    requires h.SagaEventHandler? ==> h.m.cmdBus.Some?
    modifies if h.SagaEventHandler? then {h.m.cmdBus.value} + h.m.StoredRepr(e) else {}
    ensures h.FuncHandler? ==> o == h.handle(e)
  {
    match h {
      case FuncHandler(f) =>
        o := f(e);
      case SagaEventHandler(m) =>
        o := m.HandleEvent(e, uuid);
    }
  }

  /** `OrderEventFuncHandler`: every order topic is a placeholder; it always returns nil. */
  function OrderEventFuncHandler(e: Event): Outcome
  {
    Pass
  }

  const OrderEventHandlerTopics: seq<Topic> :=
    [OrderCreatedEventTopic, OrderPayedEventTopic, OrderConfirmedEventTopic, OrderCanceledEventTopic]

  /** The `init` of example/domain/event_handlers.go. */
  method RegisterOrderEventHandlers(registry: EventHandlerRegistry<EventHandler>)
    modifies registry
    ensures registry.handlers == AppendToTopics(old(registry.handlers), FuncHandler(OrderEventFuncHandler), OrderEventHandlerTopics)
  {
    registry.RegisterEventHandlers(FuncHandler(OrderEventFuncHandler), OrderEventHandlerTopics);
  }

  /** From an empty registry, each order topic gets exactly the placeholder handler. */
  lemma OrderEventHandlersRegistered(t: Topic)
    ensures HandlersOf(AppendToTopics(map[], FuncHandler(OrderEventFuncHandler), OrderEventHandlerTopics), t) ==
      (if t in OrderEventHandlerTopics then [FuncHandler(OrderEventFuncHandler)] else [])
  {
    AppendToTopicsAt(map[], FuncHandler(OrderEventFuncHandler), OrderEventHandlerTopics, t);
    var ts := OrderEventHandlerTopics;
    assert ts[1..][1..][1..][1..] == [];
    assert Occurrences(ts[1..][1..][1..], t) == if t == OrderCanceledEventTopic then 1 else 0;
    assert Occurrences(ts[1..][1..], t) == if t in ts[2..] then 1 else 0;
    assert Occurrences(ts[1..], t) == if t in ts[1..] then 1 else 0;
    assert Occurrences(ts, t) == if t in ts then 1 else 0;
  }

  /** `RegisterCommand` applied to each of `ps` in order, its errors ignored: a command whose
      name is already registered is dropped. */
  function RegisterAll(cmds: map<CommandName, Command>, ps: seq<Command>): map<CommandName, Command>
    decreases |ps|
  {
    if ps == [] then cmds
    else
      var m := RegisterAll(cmds, ps[..|ps| - 1]);
      var c := ps[|ps| - 1];
      if c.Name() in m then m else m[c.Name() := c]
  }

  /** Registering commands adds exactly their names and keeps every earlier registration. */
  lemma {:induction false} RegisterAllKeeps(cmds: map<CommandName, Command>, ps: seq<Command>)
    ensures RegisterAll(cmds, ps).Keys == cmds.Keys + set i | 0 <= i < |ps| :: ps[i].Name()
    ensures forall n :: n in cmds ==> RegisterAll(cmds, ps)[n] == cmds[n]
    decreases |ps|
  {
    if ps != [] {
      var init := ps[..|ps| - 1];
      RegisterAllKeeps(cmds, init);
      assert (set i | 0 <= i < |ps| :: ps[i].Name()) == (set i | 0 <= i < |init| :: init[i].Name()) + {ps[|ps| - 1].Name()};
    }
  }

  /** Among commands with distinct names, each one whose name was free is stored under it. */
  lemma {:induction false} RegisterAllStores(cmds: map<CommandName, Command>, ps: seq<Command>, i: nat)
    requires forall a, b :: 0 <= a < b < |ps| ==> ps[a].Name() != ps[b].Name()
    requires i < |ps| && ps[i].Name() !in cmds
    ensures ps[i].Name() in RegisterAll(cmds, ps) && RegisterAll(cmds, ps)[ps[i].Name()] == ps[i]
    decreases |ps|
  {
    var init := ps[..|ps| - 1];
    var c := ps[|ps| - 1];
    if i < |init| {
      assert init[i] == ps[i] && ps[i].Name() != c.Name();
      RegisterAllStores(cmds, init, i);
    } else {
      RegisterAllKeeps(cmds, init);
      assert c.Name() !in RegisterAll(cmds, init);
    }
  }

  /** The `init` of example/domain/commands.go: the six prototypes, in order; the errors are
      ignored, so a name registered before keeps its earlier command. */
  method RegisterDomainCommands(registry: CommandRegistry)
    modifies registry
    ensures registry.cmds.Keys == old(registry.cmds.Keys) + set i | 0 <= i < |Prototypes| :: Prototypes[i].Name()
    ensures forall n :: n in old(registry.cmds) ==> registry.cmds[n] == old(registry.cmds)[n]
    ensures forall i :: 0 <= i < |Prototypes| && Prototypes[i].Name() !in old(registry.cmds) ==>
      registry.cmds[Prototypes[i].Name()] == Prototypes[i]
  {
    var i := 0;
    while i < |Prototypes|
      invariant 0 <= i <= |Prototypes|
      invariant registry.cmds == RegisterAll(old(registry.cmds), Prototypes[..i])
    {
      var o := registry.RegisterCommand(Prototypes[i]);
      assert Prototypes[..i + 1][..i] == Prototypes[..i];
      i := i + 1;
    }
    assert Prototypes[..i] == Prototypes;
    RegisterAllKeeps(old(registry.cmds), Prototypes);
    PrototypeNamesDistinct();
    forall i | 0 <= i < |Prototypes| && Prototypes[i].Name() !in old(registry.cmds)
      ensures registry.cmds[Prototypes[i].Name()] == Prototypes[i]
    {
      RegisterAllStores(old(registry.cmds), Prototypes, i);
    }
  }

  /** The process-wide `evol.CmdBus`, nil until `Run` sets it. */
  class Runtime {
    var cmdBus: Option<CmdBus>

    constructor ()
      ensures cmdBus.None?
    {
      cmdBus := None;
    }

    /** `SendCommand(cmd)`: exactly what the global bus's `HandleCommand` answers; before `Run`
        the bus is nil and the call panics. */
    method SendCommand(cmd: Command) returns (o: Outcome)
      modifies if cmdBus.Some? then {cmdBus.value} else {}
      ensures cmdBus == old(cmdBus)
      ensures cmdBus.None? ==> o == Fail(NilPointer)
      ensures cmdBus.Some? ==>
        && o == Answer(cmdBus.value.handlers, cmd)
        && cmdBus.value.launched == old(cmdBus.value.launched) + LaunchesOf(cmdBus.value.handlers, [cmd])
        && cmdBus.value.handlers == old(cmdBus.value.handlers)
    {
      if cmdBus.None? {
        return Fail(NilPointer);
      }
      o := cmdBus.value.HandleCommand(cmd);
    }
  }

  /** The handler `RegisterCmdHandler` makes for `cmd`: bound to the command's target
      aggregate type, the store and the bus. */
  predicate Wired(h: CmdHandler, cmd: Command, store: AggregateEventStore, evtBus: Option<EvtBus>)
  {
    h.h.aggregateType == cmd.TargetAggregateType() && h.h.repo == store && h.h.eventBus == evtBus
  }

  /** What `RegisterCmdHandler` leaves on a bus whose handlers were `before`: every earlier
      entry is kept, and every new entry is a handler wired for the registered command of that
      name. */
  ghost predicate HandlersWired(before: map<CommandName, CmdHandler>, after: map<CommandName, CmdHandler>,
                                cmds: map<CommandName, Command>, store: Option<AggregateEventStore>, evtBus: Option<EvtBus>)
  {
    && (forall n :: n in before ==> n in after && after[n] == before[n])
    && (forall n :: n in after && n !in before ==> n in cmds && store.Some? && Wired(after[n], cmds[n], store.value, evtBus))
  }

  /** The outcome of `RegisterCmdHandler` for the registered command names `names` on a bus
      already holding `taken`. Whatever order the names are visited in, a nil store fails at
      the first name, and with a store the walk fails exactly when some name is already taken. */
  function WiringOutcome(hasStore: bool, names: set<CommandName>, taken: set<CommandName>): (r: Outcome)
    ensures r.Pass? <==> names == {} || (hasStore && names !! taken)
    ensures r.Fail? ==> r.error == (if hasStore then AlreadyRegistered else NilStore)
  {
    if names == {} then Pass
    else if !hasStore then Fail(NilStore)
    else if names !! taken then Pass
    else Fail(AlreadyRegistered)
  }

  /** One turn of `RegisterCmdHandler`'s loop: build the handler for `cmd`, then register it
      under `name`. */
  method WireOne(name: CommandName, cmd: Command, cmdBus: CmdBus, store: Option<AggregateEventStore>, evtBus: Option<EvtBus>)
    returns (o: Outcome)
    modifies cmdBus
    ensures cmdBus.launched == old(cmdBus.launched)
    ensures store.None? ==> o == Fail(NilStore) && cmdBus.handlers == old(cmdBus.handlers)
    ensures store.Some? && name in old(cmdBus.handlers) ==> o == Fail(AlreadyRegistered) && cmdBus.handlers == old(cmdBus.handlers)
    ensures store.Some? && name !in old(cmdBus.handlers) ==>
      && o == Pass && name in cmdBus.handlers
      && cmdBus.handlers == old(cmdBus.handlers)[name := cmdBus.handlers[name]]
      && fresh(cmdBus.handlers[name].h) && Wired(cmdBus.handlers[name], cmd, store.value, evtBus)
  {
    var built := NewAggCmdHandler(cmd.TargetAggregateType(), store, evtBus);
    match built {
      case Err(e) =>
        return Fail(e);
      case Ok(h) =>
        o := cmdBus.RegisterCmdHandler(name, AggHandler(h));
    }
  }

  /** `RegisterCmdHandler(cmdBus, store, evtBus)`: for every registered command, in an
      unspecified order, a new aggregate command handler bound to the command's target type is
      registered under the command's name; the walk stops at the first error. The outcome is
      `WiringOutcome`'s. Entries already on the bus are kept; on success exactly the command
      names are added. */
  method RegisterCmdHandler(commands: CommandRegistry, cmdBus: CmdBus, store: Option<AggregateEventStore>, evtBus: Option<EvtBus>)
    returns (o: Outcome)
    modifies cmdBus
    ensures o == WiringOutcome(store.Some?, commands.cmds.Keys, old(cmdBus.handlers).Keys)
    ensures cmdBus.launched == old(cmdBus.launched)
    ensures forall n :: n in old(cmdBus.handlers) ==> n in cmdBus.handlers && cmdBus.handlers[n] == old(cmdBus.handlers)[n]
    ensures forall n :: n in cmdBus.handlers && n !in old(cmdBus.handlers) ==>
      && n in commands.cmds && store.Some? && fresh(cmdBus.handlers[n].h)
      && Wired(cmdBus.handlers[n], commands.cmds[n], store.value, evtBus)
    ensures o.Pass? ==> cmdBus.handlers.Keys == old(cmdBus.handlers).Keys + commands.cmds.Keys
  {
    var cmds := commands.GetAllCmds();
    var rest := cmds.Keys;
    ghost var added: map<CommandName, CmdHandler> := map[];
    while rest != {}
      invariant rest + added.Keys == cmds.Keys && rest !! added.Keys
      invariant added.Keys !! old(cmdBus.handlers).Keys
      invariant store.None? ==> added == map[]
      invariant cmdBus.handlers == old(cmdBus.handlers) + added
      invariant cmdBus.launched == old(cmdBus.launched)
      invariant forall n :: n in added ==>
        store.Some? && fresh(added[n].h) && Wired(added[n], cmds[n], store.value, evtBus)
      decreases rest
    {
      var name :| name in rest;
      var err := WireOne(name, cmds[name], cmdBus, store, evtBus);
      if err.Fail? {
        assert name in cmds.Keys && cmds.Keys != {};
        assert store.Some? ==> name in old(cmdBus.handlers) && !(cmds.Keys !! old(cmdBus.handlers).Keys);
        return err;
      }
      added := added[name := cmdBus.handlers[name]];
      rest := rest - {name};
    }
    o := Pass;
  }

  /** The subscriptions of the event-handler registry, topics visited in the order `topics`,
      each topic's handlers in list order. */
  function HandlerSubscriptions(topics: seq<Topic>, handlers: map<Topic, seq<EventHandler>>): seq<Subscription<EventHandler>>
    decreases |topics|
  {
    if topics == [] then []
    else
      TopicSubscriptions(topics[0], HandlersOf(handlers, topics[0])) + HandlerSubscriptions(topics[1..], handlers)
  }

  /** The subscriptions of the handlers `hs` of one topic, in list order. */
  function TopicSubscriptions(t: Topic, hs: seq<EventHandler>): seq<Subscription<EventHandler>>
  {
    seq(|hs|, i requires 0 <= i < |hs| => Subscription(t, hs[i]))
  }

  /** What step 1 of `Run` leaves: the global bus is `cmdBus`, nothing was launched, every
      earlier handler is kept, every new one is a fresh handler wired for its command, and
      when the wiring succeeds exactly the command names were added. */
  twostate predicate CommandsWired(rt: Runtime, commands: CommandRegistry, cmdBus: CmdBus,
                                   store: Option<AggregateEventStore>, evtBus: EvtBus)
    reads rt, commands, cmdBus
  {
    && rt.cmdBus == Some(cmdBus)
    && cmdBus.launched == old(cmdBus.launched)
    && HandlersWired(old(cmdBus.handlers), cmdBus.handlers, commands.cmds, store, Some(evtBus))
    && (forall n :: n in cmdBus.handlers && n !in old(cmdBus.handlers) ==> fresh(cmdBus.handlers[n].h))
    && (WiringOutcome(store.Some?, commands.cmds.Keys, old(cmdBus.handlers).Keys).Pass? ==>
          cmdBus.handlers.Keys == old(cmdBus.handlers).Keys + commands.cmds.Keys)
  }

  /** Step 1 of `Run`: the global `CmdBus` is set, then every registered command is wired. */
  method Wire(rt: Runtime, commands: CommandRegistry, cmdBus: CmdBus, store: Option<AggregateEventStore>, evtBus: EvtBus)
    returns (o: Outcome)
    modifies rt, cmdBus
    ensures o == WiringOutcome(store.Some?, commands.cmds.Keys, old(cmdBus.handlers).Keys)
    ensures CommandsWired(rt, commands, cmdBus, store, evtBus)
  {
    rt.cmdBus := Some(cmdBus);
    o := RegisterCmdHandler(commands, cmdBus, store, Some(evtBus));
  }

  /** Every saga manager was handed the command bus and the saga repository. */
  ghost predicate ManagersWired(managers: map<string, SagaManager<CmdHandler>>, cmdBus: CmdBus, sagaStore: Option<SagaRepo>)
    reads managers.Values
  {
    forall k :: k in managers ==> managers[k].cmdBus == Some(cmdBus) && managers[k].sagaRepo == sagaStore
  }

  /** The saga subscriptions of step 2.2 of `Run`: none without a saga repository, otherwise
      every manager's start, on and end topics, managers in the order `sagaOrder`. */
  function SagaSubscriptions(sagaOrder: seq<string>, managers: map<string, SagaManager<CmdHandler>>, sagaStore: Option<SagaRepo>)
    : seq<Subscription<EventHandler>>
    requires sagaStore.Some? ==> forall i :: 0 <= i < |sagaOrder| ==> sagaOrder[i] in managers
  {
    if sagaStore.None? then [] else Subscriptions(sagaOrder, managers, (m: SagaManager<CmdHandler>) => SagaEventHandler(m))
  }

  /** The event bus after step 2 of `Run`, starting from consumers `c0` and queues `b0`: the
      registry's handlers subscribed topic by topic in the order `topics`, then the saga
      subscriptions `sagaSubs`. Every subscription adds one running consumer, and gives its
      topic a queue if it had none. */
  ghost predicate BusSubscribed(c0: seq<Consumer<EventHandler>>, b0: Queues, c1: seq<Consumer<EventHandler>>, b1: Queues,
                                topics: seq<Topic>, handlers: map<Topic, seq<EventHandler>>, sagaSubs: seq<Subscription<EventHandler>>)
  {
    && c1 == c0 + ConsumersOf(HandlerSubscriptions(topics, handlers)) + ConsumersOf(sagaSubs)
    && b1 == WithChannels(WithChannels(b0, HandlerSubscriptions(topics, handlers)), sagaSubs)
  }

  /** `Run(ctx, cmdBus, eventBus, store, sagaStore)`. The global bus is set first. A command
      wiring error is returned before any event handler or saga is subscribed. Otherwise every
      registered event handler is subscribed on its topic (topics in an unspecified order
      `topics`; errors ignored), then `PrepareSagas` runs, whose error is returned. */
  method Run(rt: Runtime, commands: CommandRegistry, eventHandlers: EventHandlerRegistry<EventHandler>,
             sagas: SagaRegistry<CmdHandler>, cmdBus: CmdBus, evtBus: EvtBus,
             store: Option<AggregateEventStore>, sagaStore: Option<SagaRepo>)
    returns (o: Outcome, ghost topics: seq<Topic>, ghost sagaOrder: seq<string>)
    modifies rt, cmdBus, evtBus, evtBus.group
    modifies if WiringOutcome(store.Some?, commands.cmds.Keys, cmdBus.handlers.Keys).Pass? && sagaStore.Some? then sagas.managers.Values else {}
    ensures CommandsWired(rt, commands, cmdBus, store, evtBus)
    ensures var wiring := WiringOutcome(store.Some?, commands.cmds.Keys, old(cmdBus.handlers).Keys);
      wiring.Fail? ==>
        && o == wiring
        && evtBus.consumers == old(evtBus.consumers) && evtBus.group.bus == old(evtBus.group.bus)
    ensures var wiring := WiringOutcome(store.Some?, commands.cmds.Keys, old(cmdBus.handlers).Keys);
      wiring.Pass? ==>
        && Visiting(topics, {}, eventHandlers.handlers.Keys)
        && (sagaStore.None? ==> o == Fail(MissingRepo))
        && (sagaStore.Some? ==>
              && o == Pass
              && Visiting(sagaOrder, {}, sagas.managers.Keys)
              && ManagersWired(sagas.managers, cmdBus, sagaStore))
        && BusSubscribed(old(evtBus.consumers), old(evtBus.group.bus), evtBus.consumers, evtBus.group.bus,
                         topics, eventHandlers.handlers, SagaSubscriptions(sagaOrder, sagas.managers, sagaStore))
  {
    topics := [];
    sagaOrder := [];
    var err := Wire(rt, commands, cmdBus, store, evtBus);
    if err.Fail? {
      return err, topics, sagaOrder;
    }
    o, topics, sagaOrder := SubscribeAll(eventHandlers, sagas, cmdBus, evtBus, sagaStore);
  }

  /** Steps 2.1 and 2.2 of `Run`: the event handlers, then the saga managers, are subscribed. */
  method SubscribeAll(eventHandlers: EventHandlerRegistry<EventHandler>, sagas: SagaRegistry<CmdHandler>,
                      cmdBus: CmdBus, evtBus: EvtBus, sagaStore: Option<SagaRepo>)
    returns (o: Outcome, ghost topics: seq<Topic>, ghost sagaOrder: seq<string>)
    modifies evtBus, evtBus.group, if sagaStore.Some? then sagas.managers.Values else {}
    ensures Visiting(topics, {}, eventHandlers.handlers.Keys)
    ensures sagaStore.None? ==> o == Fail(MissingRepo) && unchanged(sagas.managers.Values)
    ensures sagaStore.Some? ==>
      && o == Pass
      && Visiting(sagaOrder, {}, sagas.managers.Keys)
      && ManagersWired(sagas.managers, cmdBus, sagaStore)
    ensures BusSubscribed(old(evtBus.consumers), old(evtBus.group.bus), evtBus.consumers, evtBus.group.bus,
                          topics, eventHandlers.handlers, SagaSubscriptions(sagaOrder, sagas.managers, sagaStore))
  {
    topics := SubscribeHandlers(evtBus, eventHandlers);
    o, sagaOrder := sagas.PrepareSagas(evtBus, cmdBus, sagaStore, (m: SagaManager<CmdHandler>) => SagaEventHandler(m));
  }

  /** Step 2.1 of `Run`: every handler of every topic subscribed; the local bus accepts each. */
  method SubscribeHandlers(evtBus: EvtBus, eventHandlers: EventHandlerRegistry<EventHandler>) returns (ghost topics: seq<Topic>)
    modifies evtBus, evtBus.group
    ensures Visiting(topics, {}, eventHandlers.handlers.Keys)
    ensures evtBus.consumers == old(evtBus.consumers) + ConsumersOf(HandlerSubscriptions(topics, eventHandlers.handlers))
    ensures evtBus.group.bus == WithChannels(old(evtBus.group.bus), HandlerSubscriptions(topics, eventHandlers.handlers))
  {
    topics := [];
    var rest := eventHandlers.handlers.Keys;
    while rest != {}
      invariant Visiting(topics, rest, eventHandlers.handlers.Keys)
      invariant evtBus.consumers == old(evtBus.consumers) + ConsumersOf(HandlerSubscriptions(topics, eventHandlers.handlers))
      invariant evtBus.group.bus == WithChannels(old(evtBus.group.bus), HandlerSubscriptions(topics, eventHandlers.handlers))
      decreases rest
    {
      var topic :| topic in rest;
      SubscribeNext(evtBus, topics, topic, eventHandlers.handlers, old(evtBus.consumers), old(evtBus.group.bus));
      VisitStep(topics, rest, eventHandlers.handlers.Keys, topic);
      topics := topics + [topic];
      rest := rest - {topic};
    }
  }

  /** One turn of step 2.1's topic loop: the handlers of `topic` follow those of `topics`. */
  method SubscribeNext(evtBus: EvtBus, ghost topics: seq<Topic>, topic: Topic, handlers: map<Topic, seq<EventHandler>>,
                       ghost consumers0: seq<Consumer<EventHandler>>, ghost bus0: Queues)
    requires evtBus.consumers == consumers0 + ConsumersOf(HandlerSubscriptions(topics, handlers))
    requires evtBus.group.bus == WithChannels(bus0, HandlerSubscriptions(topics, handlers))
    modifies evtBus, evtBus.group
    ensures evtBus.consumers == consumers0 + ConsumersOf(HandlerSubscriptions(topics + [topic], handlers))
    ensures evtBus.group.bus == WithChannels(bus0, HandlerSubscriptions(topics + [topic], handlers))
  {
    SubscribeNextConsumers(consumers0, topics, topic, handlers);
    HandlerChannelsAppend(bus0, topics, topic, handlers);
    SubscribeTopic(evtBus, topic, HandlersOf(handlers, topic));
  }

  lemma SubscribeNextConsumers(consumers0: seq<Consumer<EventHandler>>, topics: seq<Topic>, t: Topic,
                               handlers: map<Topic, seq<EventHandler>>)
    ensures consumers0 + ConsumersOf(HandlerSubscriptions(topics + [t], handlers)) ==
      consumers0 + ConsumersOf(HandlerSubscriptions(topics, handlers)) + ConsumersOf(TopicSubscriptions(t, HandlersOf(handlers, t)))
  {
    var earlier, added := HandlerSubscriptions(topics, handlers), TopicSubscriptions(t, HandlersOf(handlers, t));
    HandlerSubscriptionsSnoc(topics, t, handlers);
    ConsumersOfAppend(earlier, added);
    assert consumers0 + (ConsumersOf(earlier) + ConsumersOf(added)) == consumers0 + ConsumersOf(earlier) + ConsumersOf(added);
  }

  /** The inner loop of step 2.1: the handlers of one topic subscribed in list order. */
  method SubscribeTopic(evtBus: EvtBus, topic: Topic, handlers: seq<EventHandler>)
    modifies evtBus, evtBus.group
    ensures evtBus.consumers == old(evtBus.consumers) + ConsumersOf(TopicSubscriptions(topic, handlers))
    ensures evtBus.group.bus == WithChannels(old(evtBus.group.bus), TopicSubscriptions(topic, handlers))
  {
    var j := 0;
    while j < |handlers|
      invariant 0 <= j <= |handlers|
      invariant evtBus.consumers == old(evtBus.consumers) + ConsumersOf(seq(j, i requires 0 <= i < j => Subscription(topic, handlers[i])))
      invariant evtBus.group.bus == WithChannels(old(evtBus.group.bus), seq(j, i requires 0 <= i < j => Subscription(topic, handlers[i])))
    {
      ghost var subs := seq(j, i requires 0 <= i < j => Subscription(topic, handlers[i]));
      assert seq(j + 1, i requires 0 <= i < j + 1 => Subscription(topic, handlers[i])) == subs + [Subscription(topic, handlers[j])];
      ConsumersOfAppend(subs, [Subscription(topic, handlers[j])]);
      WithChannelsAppend(old(evtBus.group.bus), subs, [Subscription(topic, handlers[j])]);
      var _ := evtBus.RegisterHandler(topic, Some(handlers[j]));
      j := j + 1;
    }
    assert seq(j, i requires 0 <= i < j => Subscription(topic, handlers[i])) == TopicSubscriptions(topic, handlers);
  }

  lemma HandlerSubscriptionsAppend(topics: seq<Topic>, t: Topic, handlers: map<Topic, seq<EventHandler>>)
    ensures ConsumersOf(HandlerSubscriptions(topics + [t], handlers)) ==
      ConsumersOf(HandlerSubscriptions(topics, handlers)) + ConsumersOf(TopicSubscriptions(t, HandlersOf(handlers, t)))
  {
    HandlerSubscriptionsSnoc(topics, t, handlers);
    ConsumersOfAppend(HandlerSubscriptions(topics, handlers), TopicSubscriptions(t, HandlersOf(handlers, t)));
  }

  /** After step 2, every topic that has a handler in the registry has a queue on the bus,
      whatever order the topics were visited in. */
  lemma SubscribedTopicsQueued(bus0: Queues, topics: seq<Topic>, handlers: map<Topic, seq<EventHandler>>,
                               sagaSubs: seq<Subscription<EventHandler>>, t: Topic)
    requires Visiting(topics, {}, handlers.Keys)
    requires HandlersOf(handlers, t) != []
    ensures t in WithChannels(WithChannels(bus0, HandlerSubscriptions(topics, handlers)), sagaSubs)
  {
    assert t in handlers;
    HandlerSubscriptionsCover(topics, handlers, t);
    WithChannelsEffect(bus0, HandlerSubscriptions(topics, handlers));
    WithChannelsEffect(WithChannels(bus0, HandlerSubscriptions(topics, handlers)), sagaSubs);
  }

  /** A visited topic with handlers has a subscription. */
  lemma {:induction false} HandlerSubscriptionsCover(topics: seq<Topic>, handlers: map<Topic, seq<EventHandler>>, t: Topic)
    requires t in topics && HandlersOf(handlers, t) != []
    ensures Subscribed(HandlerSubscriptions(topics, handlers), t)
    decreases |topics|
  {
    var first := TopicSubscriptions(topics[0], HandlersOf(handlers, topics[0]));
    var rest := HandlerSubscriptions(topics[1..], handlers);
    assert HandlerSubscriptions(topics, handlers) == first + rest;
    if topics[0] == t {
      assert (first + rest)[0] == first[0] && first[0].topic == t;
    } else {
      assert t in topics[1..];
      HandlerSubscriptionsCover(topics[1..], handlers, t);
      var i :| 0 <= i < |rest| && rest[i].topic == t;
      assert (first + rest)[|first| + i] == rest[i];
    }
  }

  lemma HandlerChannelsAppend(bus: Queues, topics: seq<Topic>, t: Topic, handlers: map<Topic, seq<EventHandler>>)
    ensures WithChannels(bus, HandlerSubscriptions(topics + [t], handlers)) ==
      WithChannels(WithChannels(bus, HandlerSubscriptions(topics, handlers)), TopicSubscriptions(t, HandlersOf(handlers, t)))
  {
    HandlerSubscriptionsSnoc(topics, t, handlers);
    WithChannelsAppend(bus, HandlerSubscriptions(topics, handlers), TopicSubscriptions(t, HandlersOf(handlers, t)));
  }

  /** One more topic visited: its handlers' subscriptions follow the earlier ones. */
  lemma {:induction false} HandlerSubscriptionsSnoc(topics: seq<Topic>, t: Topic, handlers: map<Topic, seq<EventHandler>>)
    ensures HandlerSubscriptions(topics + [t], handlers) ==
      HandlerSubscriptions(topics, handlers) + TopicSubscriptions(t, HandlersOf(handlers, t))
    decreases |topics|
  {
    var last := TopicSubscriptions(t, HandlersOf(handlers, t));
    if topics == [] {
      assert [t][1..] == [];
      assert HandlerSubscriptions([t], handlers) == last + [];
    } else {
      var rest := topics[1..];
      var first := TopicSubscriptions(topics[0], HandlersOf(handlers, topics[0]));
      assert (topics + [t])[0] == topics[0] && (topics + [t])[1..] == rest + [t];
      HandlerSubscriptionsSnoc(rest, t, handlers);
      calc {
        HandlerSubscriptions(topics + [t], handlers);
        first + HandlerSubscriptions(rest + [t], handlers);
        first + (HandlerSubscriptions(rest, handlers) + last);
        (first + HandlerSubscriptions(rest, handlers)) + last;
        HandlerSubscriptions(topics, handlers) + last;
      }
    }
  }
}
