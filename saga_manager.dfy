/** The saga manager and its registry (saga/saga.go). A manager runs one saga type: for each
    event it resolves the correlation id, loads the saga or creates and starts a new one,
    refuses a saga that is not alive, lets the saga handle the event and ends it on an end
    topic. It never writes the saga back to the repository. */
module SagaManagers {
  import opened Wrappers
  import opened DomainEvents
  import opened DomainCommands
  import opened Events
  import opened LocalCommandBus
  import opened LocalEventBus
  import opened SagaBase
  import opened OrderSagas
  import opened SagaHandlers
  import opened MemorySagaRepo

  /** A nil resolver, repository or factory is called: the goroutine panics. */
  const NilPointer := Panic("invalid memory address or nil pointer dereference")
  /** `fmt.Errorf("saga: %v not alive", saga)`; the printed saga value is not modelled. */
  const NotAlive := Msg("saga: %v not alive")
  const MissingRepo := Msg("missing saga aggregatestore")

  function SagaTypeTaken(sagaType: string): Error
  {
    Msg("saga " + sagaType + " already register")
  }

  /** What `HandleEvent` does with a saga whose state and liveness were `s` and `alive`: a dead
      saga is refused untouched, a live one reacts to the event. */
  function Handled<CH>(s: OrderSagaState, alive: bool, e: Event, uuid: Result<int>, handlers: map<CommandName, CH>): (r: Reaction)
    ensures !alive ==> r == Reaction(s, [], Fail(NotAlive))
  {
    if !alive then Reaction(s, [], Fail(NotAlive)) else React(s, e, uuid, handlers)
  }

  /** Whether the saga is alive after `HandleEvent`: a refused saga stays dead, a handled one
      is ended exactly when the topic is an end topic, whatever the handler returned. */
  function AliveAfter(alive: bool, e: Event, endEvents: seq<Topic>): bool
  {
    alive && e.topic !in endEvents
  }

  class SagaManager<CH> {
    const sagaType: string
    const sagaFactory: Option<SagaFactory>
    /** Maps an event to the identity of the saga it belongs to. */
    const resolver: Option<Event -> string>
    const startEvents: seq<Topic>
    const onEvents: seq<Topic>
    const endEvents: seq<Topic>
    var sagaRepo: Option<SagaRepo>
    var cmdBus: Option<LocalCommandBus<CH>>

    /** `NewSagaManager(option)`: the options copied; repository and bus are left nil for
        `PrepareSagas`. */
    constructor (sagaType: string, startEvents: seq<Topic>, onEvents: seq<Topic>, endEvents: seq<Topic>,
                 resolver: Option<Event -> string>, sagaFactory: Option<SagaFactory>)
      ensures this.sagaType == sagaType && this.sagaFactory == sagaFactory && this.resolver == resolver
      ensures this.startEvents == startEvents && this.onEvents == onEvents && this.endEvents == endEvents
      ensures sagaRepo.None? && cmdBus.None?
    {
      this.sagaType := sagaType;
      this.sagaFactory := sagaFactory;
      this.resolver := resolver;
      this.startEvents := startEvents;
      this.onEvents := onEvents;
      this.endEvents := endEvents;
      sagaRepo := None;
      cmdBus := None;
    }

    /** What `checkParam` looks at. */
    function Params(): ManagerParams
    {
      ManagerParams(sagaType, sagaFactory.Some?, startEvents, endEvents, resolver.Some?)
    }

    /** The topics `PrepareSagas` subscribes the manager to, in order. */
    function Topics(): seq<Topic>
    {
      startEvents + onEvents + endEvents
    }

    /** The saga stored for the event's identity, when resolver and repository are set. */
    function Stored(e: Event): Option<SagaHandler>
      reads this, if sagaRepo.Some? then {sagaRepo.value} else {}
    {
      if resolver.Some? && sagaRepo.Some? then sagaRepo.value.Load(resolver.value(e)) else None
    }

    function StoredRepr(e: Event): set<object>
      reads this, if sagaRepo.Some? then {sagaRepo.value} else {}
    {
      if Stored(e).Some? then Stored(e).value.Repr() else {}
    }

    /** `HandleEvent(e)`; `uuid` is what the snowflake generator gives a saga that asks for a
        payment id. A nil resolver or repository panics first. Otherwise: the repository's
        saga map is never changed; a new saga (none stored) is built, started and handled; a
        stored saga is refused when dead and otherwise handled; an order saga ends on an end
        topic, even when its handler failed, whose error is still returned. */
    method HandleEvent(e: Event, uuid: Result<int>) returns (o: Outcome)
      requires cmdBus.Some?
      modifies cmdBus.value, StoredRepr(e)
      ensures sagaRepo.Some? ==> sagaRepo.value.sagas == old(sagaRepo.value.sagas)
      ensures cmdBus.value.handlers == old(cmdBus.value.handlers)
      ensures resolver.None? || sagaRepo.None? ==> o == Fail(NilPointer) && cmdBus.value.launched == old(cmdBus.value.launched)
      ensures old(Stored(e)).None? && resolver.Some? && sagaRepo.Some? ==>
        match sagaFactory
        case None => o == Fail(NilPointer) && cmdBus.value.launched == old(cmdBus.value.launched)
        case Some(OrderSagaFactory) =>
          var r := React(FreshOrderSaga, e, uuid, old(cmdBus.value.handlers));
          o == r.result && cmdBus.value.launched == old(cmdBus.value.launched) + LaunchesOf(old(cmdBus.value.handlers), r.sent)
        case Some(FuncSagaFactory(f)) => o == f(e) && cmdBus.value.launched == old(cmdBus.value.launched)
      ensures old(Stored(e)).Some? && old(Stored(e)).value.OrderSagaHandler? ==>
        var s := old(Stored(e)).value.saga;
        var r := Handled(old(s.State()), old(s.base.isAlive), e, uuid, old(cmdBus.value.handlers));
        && o == r.result && s.State() == r.state
        && cmdBus.value.launched == old(cmdBus.value.launched) + LaunchesOf(old(cmdBus.value.handlers), r.sent)
        && s.base.isAlive == AliveAfter(old(s.base.isAlive), e, endEvents)
      ensures old(Stored(e)).Some? && old(Stored(e)).value.FuncSaga? ==>
        o == old(Stored(e)).value.handle(e) && cmdBus.value.launched == old(cmdBus.value.launched)
    {
      if resolver.None? || sagaRepo.None? {
        return Fail(NilPointer);
      }
      var bus := cmdBus.value;
      var sagaId := resolver.value(e);
      var saga: SagaHandler;
      var loaded := sagaRepo.value.Load(sagaId);
      match loaded {
        case Some(stored) =>
          saga := stored;
        case None =>
          if sagaFactory.None? {
            return Fail(NilPointer);
          }
          saga := Build(sagaFactory.value, sagaType, sagaId);
          StartSaga(saga);
      }
      if !saga.IsAlive() {
        return Fail(NotAlive);
      }
      o := HandleSagaEvent(saga, e, bus, uuid);
      if e.topic in endEvents {
        EndSaga(saga);
      }
    }
  }

  /** One subscription `PrepareSagas` makes: a topic and the handler registered on it. */
  datatype Subscription<H> = Subscription(topic: Topic, handler: H)

  /** The subscriptions for visiting the managers under `order`, each on its start, on and end
      topics in that order. */
  function Subscriptions<H, CH>(order: seq<string>, managers: map<string, SagaManager<CH>>, asHandler: SagaManager<CH> -> H): seq<Subscription<H>>
    requires forall i :: 0 <= i < |order| ==> order[i] in managers
    decreases |order|
  {
    if order == [] then []
    else ManagerSubscriptions(managers[order[0]], asHandler) + Subscriptions(order[1..], managers, asHandler)
  }

  function ManagerSubscriptions<H, CH>(m: SagaManager<CH>, asHandler: SagaManager<CH> -> H): (r: seq<Subscription<H>>)
    ensures |r| == |m.Topics()|
    ensures forall i :: 0 <= i < |r| ==> r[i] == Subscription(m.Topics()[i], asHandler(m))
  {
    seq(|m.Topics()|, i requires 0 <= i < |m.Topics()| => Subscription(m.Topics()[i], asHandler(m)))
  }

  /** The consumers the local bus gains from those subscriptions, in order. */
  function ConsumersOf<H>(subs: seq<Subscription<H>>): (r: seq<Consumer<H>>)
    ensures |r| == |subs|
    ensures forall i :: 0 <= i < |r| ==> r[i] == Consumer(subs[i].topic, subs[i].handler, subs[i].topic, true)
  {
    seq(|subs|, i requires 0 <= i < |subs| => Consumer(subs[i].topic, subs[i].handler, subs[i].topic, true))
  }

  /** The queues after creating (or finding) one per subscribed topic. */
  function WithChannels<H>(bus: Queues, subs: seq<Subscription<H>>): Queues
    decreases |subs|
  {
    if subs == [] then bus else WithChannels(WithChannel(bus, subs[0].topic), subs[1..])
  }

  /** Some subscription is on topic `t`. */
  predicate Subscribed<H>(subs: seq<Subscription<H>>, t: Topic)
  {
    exists i :: 0 <= i < |subs| && subs[i].topic == t
  }

  lemma ConsumersOfAppend<H>(a: seq<Subscription<H>>, b: seq<Subscription<H>>)
    ensures ConsumersOf(a + b) == ConsumersOf(a) + ConsumersOf(b)
  {
    var l := ConsumersOf(a + b);
    var r := ConsumersOf(a) + ConsumersOf(b);
    assert |l| == |r|;
    forall i | 0 <= i < |l|
      ensures l[i] == r[i]
    {
      if i < |a| {
        assert (a + b)[i] == a[i];
      } else {
        assert (a + b)[i] == b[i - |a|];
      }
    }
  }

  /** Subscribing creates exactly the missing queues, empty, and leaves the existing ones
      alone. */
  lemma {:induction false} WithChannelsEffect<H>(bus: Queues, subs: seq<Subscription<H>>)
    ensures forall t :: t in WithChannels(bus, subs) <==> t in bus || Subscribed(subs, t)
    ensures forall t :: t in bus ==> WithChannels(bus, subs)[t] == bus[t]
    ensures forall t :: t in WithChannels(bus, subs) && t !in bus ==> WithChannels(bus, subs)[t] == []
    decreases |subs|
  {
    if subs != [] {
      var bus1 := WithChannel(bus, subs[0].topic);
      WithChannelsEffect(bus1, subs[1..]);
      forall t
        ensures Subscribed(subs, t) <==> t == subs[0].topic || Subscribed(subs[1..], t)
      {
        if Subscribed(subs, t) {
          var i :| 0 <= i < |subs| && subs[i].topic == t;
          if i > 0 {
            assert subs[1..][i - 1].topic == t;
          }
        }
        if Subscribed(subs[1..], t) {
          var i :| 0 <= i < |subs[1..]| && subs[1..][i].topic == t;
          assert subs[i + 1].topic == t;
        }
      }
    }
  }

  lemma {:induction false} WithChannelsAppend<H>(bus: Queues, a: seq<Subscription<H>>, b: seq<Subscription<H>>)
    ensures WithChannels(bus, a + b) == WithChannels(WithChannels(bus, a), b)
    decreases |a|
  {
    if a == [] {
      assert a + b == b;
    } else {
      assert (a + b)[0] == a[0] && (a + b)[1..] == a[1..] + b;
      WithChannelsAppend(WithChannel(bus, a[0].topic), a[1..], b);
    }
  }

  lemma {:induction false} SubscriptionsAppend<H, CH>(order: seq<string>, k: string, managers: map<string, SagaManager<CH>>, asHandler: SagaManager<CH> -> H)
    requires forall i :: 0 <= i < |order| ==> order[i] in managers
    requires k in managers
    ensures forall i :: 0 <= i < |order + [k]| ==> (order + [k])[i] in managers
    ensures Subscriptions(order + [k], managers, asHandler) ==
      Subscriptions(order, managers, asHandler) + ManagerSubscriptions(managers[k], asHandler)
    decreases |order|
  {
    if order == [] {
      assert [k][1..] == [];
    } else {
      assert (order + [k])[1..] == order[1..] + [k];
      SubscriptionsAppend(order[1..], k, managers, asHandler);
    }
  }

  /** One more manager visited: its subscriptions follow the earlier ones. */
  lemma SubscriptionsStep<H, CH>(consumers: seq<Consumer<H>>, bus: Queues, order: seq<string>, k: string,
                                 managers: map<string, SagaManager<CH>>, asHandler: SagaManager<CH> -> H)
    requires forall i :: 0 <= i < |order| ==> order[i] in managers
    requires k in managers
    ensures forall i :: 0 <= i < |order + [k]| ==> (order + [k])[i] in managers
    ensures consumers + ConsumersOf(Subscriptions(order + [k], managers, asHandler)) ==
      consumers + ConsumersOf(Subscriptions(order, managers, asHandler)) + ConsumersOf(ManagerSubscriptions(managers[k], asHandler))
    ensures WithChannels(bus, Subscriptions(order + [k], managers, asHandler)) ==
      WithChannels(WithChannels(bus, Subscriptions(order, managers, asHandler)), ManagerSubscriptions(managers[k], asHandler))
  {
    SubscriptionsAppend(order, k, managers, asHandler);
    WithChannelsAppend(bus, Subscriptions(order, managers, asHandler), ManagerSubscriptions(managers[k], asHandler));
    ConsumersOfAppend(Subscriptions(order, managers, asHandler), ManagerSubscriptions(managers[k], asHandler));
  }

  /** A walk over the keys `keys` that has visited `order`, each once, and has `rest` to go. */
  predicate Visiting(order: seq<string>, rest: set<string>, keys: set<string>)
  {
    && rest <= keys
    && (forall i :: 0 <= i < |order| ==> order[i] in keys && order[i] !in rest)
    && (forall k :: k in keys ==> k in rest || k in order)
    && |order| + |rest| == |keys|
  }

  lemma VisitStep(order: seq<string>, rest: set<string>, keys: set<string>, k: string)
    requires Visiting(order, rest, keys) && k in rest
    ensures Visiting(order + [k], rest - {k}, keys)
  {
  }

  /** The process-wide `sagaManagers` map. */
  class SagaRegistry<CH> {
    var managers: map<string, SagaManager<CH>>

    constructor ()
      ensures managers == map[]
    {
      managers := map[];
    }

    /** `RegisterSaga(m)`: refused, with `checkParam`'s error or "already register", when the
        parameters are incomplete or the type is taken; otherwise stored under its type. */
    method RegisterSaga(m: SagaManager<CH>) returns (o: Outcome)
      modifies this
      ensures CheckParam(m.Params()).Fail? ==> o == CheckParam(m.Params()) && managers == old(managers)
      ensures CheckParam(m.Params()).Pass? && m.sagaType in old(managers) ==>
        o == Fail(SagaTypeTaken(m.sagaType)) && managers == old(managers)
      ensures CheckParam(m.Params()).Pass? && m.sagaType !in old(managers) ==>
        o == Pass && managers == old(managers)[m.sagaType := m]
    {
      var err := CheckParam(m.Params());
      if err.Fail? {
        return err;
      }
      if m.sagaType in managers {
        return Fail(SagaTypeTaken(m.sagaType));
      }
      managers := managers[m.sagaType := m];
      o := Pass;
    }

    /** One turn of `PrepareSagas`' loop, visiting `k` after `order`: the manager gets the bus
        and repository, and its subscriptions follow the earlier ones. */
    method PrepareNext<H>(k: string, ghost order: seq<string>, ghost consumers0: seq<Consumer<H>>, ghost bus0: Queues,
                          evtBus: EventBus<H>, cmdBus: LocalCommandBus<CH>, repo: Option<SagaRepo>, asHandler: SagaManager<CH> -> H)
      requires k in managers && forall i :: 0 <= i < |order| ==> order[i] in managers
      requires evtBus.consumers == consumers0 + ConsumersOf(Subscriptions(order, managers, asHandler))
      requires evtBus.group.bus == WithChannels(bus0, Subscriptions(order, managers, asHandler))
      modifies managers[k], evtBus, evtBus.group
      ensures forall i :: 0 <= i < |order + [k]| ==> (order + [k])[i] in managers
      ensures evtBus.consumers == consumers0 + ConsumersOf(Subscriptions(order + [k], managers, asHandler))
      ensures evtBus.group.bus == WithChannels(bus0, Subscriptions(order + [k], managers, asHandler))
      ensures managers[k].cmdBus == Some(cmdBus) && managers[k].sagaRepo == repo
    {
      Prepare(managers[k], evtBus, cmdBus, repo, asHandler);
      SubscriptionsStep(consumers0, bus0, order, k, managers, asHandler);
    }

    /** `PrepareSagas(evtBus, cmdBus, repo)`: a nil repository is refused with nothing
        changed. Otherwise every manager, visited in an unspecified order (`order`, ghost), gets
        the bus and repository and is subscribed to its start, on and end topics in that order.
        The local bus accepts every non-nil handler, so no subscription fails. `asHandler` is
        how the manager is seen as an event handler. */
    method PrepareSagas<H>(evtBus: EventBus<H>, cmdBus: LocalCommandBus<CH>, repo: Option<SagaRepo>, asHandler: SagaManager<CH> -> H)
      returns (o: Outcome, ghost order: seq<string>)
      modifies evtBus, evtBus.group, if repo.Some? then managers.Values else {}
      ensures repo.None? ==> o == Fail(MissingRepo) && evtBus.consumers == old(evtBus.consumers) && evtBus.group.bus == old(evtBus.group.bus)
      ensures repo.None? ==> unchanged(managers.Values)
      ensures repo.Some? ==> o == Pass
      ensures repo.Some? ==>
        && Visiting(order, {}, managers.Keys)
        && evtBus.consumers == old(evtBus.consumers) + ConsumersOf(Subscriptions(order, managers, asHandler))
        && evtBus.group.bus == WithChannels(old(evtBus.group.bus), Subscriptions(order, managers, asHandler))
        && (forall k :: k in managers ==> managers[k].cmdBus == Some(cmdBus) && managers[k].sagaRepo == repo)
    {
      order := [];
      if repo.None? {
        return Fail(MissingRepo), order;
      }
      ghost var consumers0, bus0 := evtBus.consumers, evtBus.group.bus;
      var rest := managers.Keys;
      while rest != {}
        invariant Visiting(order, rest, managers.Keys)
        invariant evtBus.consumers == consumers0 + ConsumersOf(Subscriptions(order, managers, asHandler))
        invariant evtBus.group.bus == WithChannels(bus0, Subscriptions(order, managers, asHandler))
        invariant forall k :: k in managers && k !in rest ==> managers[k].cmdBus == Some(cmdBus) && managers[k].sagaRepo == repo
        decreases rest
      {
        var k :| k in rest;
        ghost var fields := map j | j in managers :: (managers[j].cmdBus, managers[j].sagaRepo);
        PrepareNext(k, order, consumers0, bus0, evtBus, cmdBus, repo, asHandler);
        forall j | j in managers && j !in rest - {k}
          ensures managers[j].cmdBus == Some(cmdBus) && managers[j].sagaRepo == repo
        {
          if managers[j] != managers[k] {
            assert (managers[j].cmdBus, managers[j].sagaRepo) == fields[j];
          }
        }
        VisitStep(order, rest, managers.Keys, k);
        order := order + [k];
        rest := rest - {k};
      }
      o := Pass;
    }
  }

  /** One turn of `PrepareSagas`' loop: the manager gets the bus and repository, then is
      subscribed to its topics. */
  method Prepare<H, CH>(m: SagaManager<CH>, evtBus: EventBus<H>, cmdBus: LocalCommandBus<CH>, repo: Option<SagaRepo>,
                        asHandler: SagaManager<CH> -> H)
    modifies m, evtBus, evtBus.group
    ensures m.cmdBus == Some(cmdBus) && m.sagaRepo == repo
    ensures evtBus.consumers == old(evtBus.consumers) + ConsumersOf(ManagerSubscriptions(m, asHandler))
    ensures evtBus.group.bus == WithChannels(old(evtBus.group.bus), ManagerSubscriptions(m, asHandler))
  {
    m.cmdBus := Some(cmdBus);
    m.sagaRepo := repo;
    Subscribe(evtBus, m, asHandler);
  }

  /** The inner loop of `PrepareSagas`: one `RegisterHandler` per topic of `m`, in order. */
  method Subscribe<H, CH>(evtBus: EventBus<H>, m: SagaManager<CH>, asHandler: SagaManager<CH> -> H)
    modifies evtBus, evtBus.group
    ensures evtBus.consumers == old(evtBus.consumers) + ConsumersOf(ManagerSubscriptions(m, asHandler))
    ensures evtBus.group.bus == WithChannels(old(evtBus.group.bus), ManagerSubscriptions(m, asHandler))
  {
    var topics := m.Topics();
    ghost var subs := ManagerSubscriptions(m, asHandler);
    var j := 0;
    while j < |topics|
      invariant 0 <= j <= |topics|
      invariant evtBus.consumers == old(evtBus.consumers) + ConsumersOf(subs[..j])
      invariant evtBus.group.bus == WithChannels(old(evtBus.group.bus), subs[..j])
    {
      WithChannelsAppend(old(evtBus.group.bus), subs[..j], [subs[j]]);
      assert subs[..j + 1] == subs[..j] + [subs[j]];
      assert ConsumersOf(subs[..j + 1]) == ConsumersOf(subs[..j]) + [Consumer(topics[j], asHandler(m), topics[j], true)];
      var _ := evtBus.RegisterHandler(topics[j], Some(asHandler(m)));
      j := j + 1;
    }
    assert subs[..j] == subs;
  }

  /** The example's `init`: the order saga's manager, with the resolver and `NewOrderSaga`,
      registered; a registry that already runs an order saga makes `init` panic. */
  method RegisterOrderSaga<CH>(registry: SagaRegistry<CH>) returns (m: SagaManager<CH>, o: Outcome)
    modifies registry
    ensures fresh(m)
    ensures OrderSagaType in old(registry.managers) ==>
      o == Fail(Panic("Register Saga Manager Failed, err:=" + SagaTypeTaken(OrderSagaType).text))
      && registry.managers == old(registry.managers)
    ensures OrderSagaType !in old(registry.managers) ==>
      o == Pass && registry.managers == old(registry.managers)[OrderSagaType := m]
    ensures m.sagaType == OrderSagaType && m.startEvents == OrderSagaStartEvents
    ensures m.onEvents == OrderSagaOnEvents && m.endEvents == OrderSagaEndEvents
    ensures m.resolver == Some(Resolver) && m.sagaFactory == Some(OrderSagaFactory)
  {
    m := new SagaManager(OrderSagaType, OrderSagaStartEvents, OrderSagaOnEvents, OrderSagaEndEvents,
      Some(Resolver), Some(OrderSagaFactory));
    assert CheckParam(m.Params()).Pass?;
    o := registry.RegisterSaga(m);
    if o.Fail? {
      o := Fail(Panic("Register Saga Manager Failed, err:=" + o.error.text));
    }
  }
}
