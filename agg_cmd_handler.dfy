/** The command handler for one aggregate type (command/agg_cmd_handler.go): load the target
    aggregate, let it handle the command, publish its pending events one by one, save it. The
    store is the replaying store and the bus the in-process bus, as the example wires them. */
module AggCommandHandler {
  import opened Wrappers
  import opened DomainCommands
  import opened DomainMock
  import opened Events
  import opened AggregateRuntime
  import opened Aggregates
  import opened MemoryEventRepo
  import opened EventSourcedStore
  import opened LocalEventBus

  /** Calling `HandleEvent` on a nil bus interface is a nil dereference. */
  const NilBus := Panic("invalid memory address or nil pointer dereference")
  const NilStore := Msg("[evol] NewAggCmdHandler: aggregatestore nil")

  /** The publish loop: each event is handed to the bus in order, and the first failure is
      returned with the later events left unpublished. */
  function PublishEach(marshal: Event -> Result<Bytes>, q: Queues, es: seq<Event>): (Queues, Outcome)
    decreases |es|
  {
    if es == [] then (q, Pass)
    else match marshal(es[0])
      case Err(x) => (q, Fail(Wrap(MarshalFailed, x)))
      case Ok(b) => PublishEach(marshal, Published(q, es[0].topic, b), es[1..])
  }

  lemma {:induction false} PublishEachAppend(marshal: Event -> Result<Bytes>, q: Queues, a: seq<Event>, b: seq<Event>)
    ensures PublishEach(marshal, q, a + b) ==
      (var (q1, o) := PublishEach(marshal, q, a); if o.Fail? then (q1, o) else PublishEach(marshal, q1, b))
    decreases |a|
  {
    if a == [] {
      assert a + b == b;
    } else {
      assert (a + b)[0] == a[0];
      assert (a + b)[1..] == a[1..] + b;
      if marshal(a[0]).Ok? {
        PublishEachAppend(marshal, Published(q, a[0].topic, marshal(a[0]).value), a[1..], b);
      }
    }
  }

  /** Stop at the first failure: if the events before `k` go through and event `k` cannot be
      encoded, the loop returns that error and the queues are as the first `k` publishes left
      them; nothing after `k` is published. */
  lemma {:induction false} PublishStopsAtFirstFailure(marshal: Event -> Result<Bytes>, q: Queues, es: seq<Event>, k: nat)
    requires k < |es|
    requires PublishEach(marshal, q, es[..k]).1.Pass?
    requires marshal(es[k]).Err?
    ensures PublishEach(marshal, q, es) ==
      (PublishEach(marshal, q, es[..k]).0, Fail(Wrap(MarshalFailed, marshal(es[k]).error)))
  {
    assert es == es[..k] + es[k..];
    PublishEachAppend(marshal, q, es[..k], es[k..]);
    assert es[k..][0] == es[k];
  }

  /** The encoder of a bus, or none for a nil bus. */
  function MarshalOf<H>(bus: Option<EventBus<H>>): Option<Event -> Result<Bytes>>
  {
    if bus.Some? then Some(bus.value.marshal) else None
  }

  /** What a successful load hands on: the rebuilt state and the events the command makes. */
  function Loaded(factories: map<AggregateType, Factory>, db: EventDb, aType: AggregateType, cmd: Command, env: Env): Result<(Snapshot, seq<Event>)>
  {
    var id := cmd.TargetIdentity();
    if aType !in factories then Err(Msg("[evol] CreateAggregate aggregate not registered"))
    else
      var f := factories[aType];
      match LoadResult(BlankState(f, id), FactoryType(f), StreamOf(db, id))
      case Err(e) => Err(e)
      case Ok(s) => Ok((s, CommandEvents(s, cmd, FactoryType(f), id, env)))
  }

  /** The steps after a successful load, given the events the command made: publish each,
      stop at the first failure, otherwise save the events. A nil bus is only dereferenced when
      there is an event to publish. */
  function PublishThenSave(db: EventDb, marshal: Option<Event -> Result<Bytes>>, q: Queues, es: seq<Event>): (Queues, EventDb, Outcome)
  {
    var (q1, po) :=
      if es == [] then (q, Pass)
      else if marshal.None? then (q, Fail(NilBus))
      else PublishEach(marshal.value, q, es);
    if po.Fail? then (q1, db, po)
    else match SaveEvents(db, es)
      case Err(e) => (q1, db, Fail(e))
      case Ok(db1) => (q1, db1, Pass)
  }

  /** `HandleCommand` as a whole, from the factories, the stored streams, the bus's encoder and
      queues: the new queues, the new streams and the returned error. The aggregate is loaded
      with the handler's own type and the command's target identity. */
  function Dispatch(factories: map<AggregateType, Factory>, db: EventDb, marshal: Option<Event -> Result<Bytes>>,
                    q: Queues, aType: AggregateType, cmd: Command, env: Env): (Queues, EventDb, Outcome)
  {
    match Loaded(factories, db, aType, cmd, env)
    case Err(e) => (q, db, Fail(e))
    case Ok((_, es)) => PublishThenSave(db, marshal, q, es)
  }

  /** Nothing is saved unless everything succeeds; a load failure also publishes nothing. (A
      publish failure after earlier publishes leaves those earlier messages queued.) */
  lemma DispatchSavesOnlyOnSuccess(factories: map<AggregateType, Factory>, db: EventDb, marshal: Option<Event -> Result<Bytes>>,
                                   q: Queues, aType: AggregateType, cmd: Command, env: Env)
    ensures var (q1, db1, o) := Dispatch(factories, db, marshal, q, aType, cmd, env);
      && (o.Fail? ==> db1 == db)
      && (Loaded(factories, db, aType, cmd, env).Err? ==> q1 == q && o == Fail(Loaded(factories, db, aType, cmd, env).error))
  {
  }

  /** A successful command has made at least one event, all of them published, and appended
      them all to the target's stream. A command that makes no event always ends in the
      repository's "save events are empty" error. */
  lemma DispatchSuccess(factories: map<AggregateType, Factory>, db: EventDb, marshal: Option<Event -> Result<Bytes>>,
                        q: Queues, aType: AggregateType, cmd: Command, env: Env)
    requires Loaded(factories, db, aType, cmd, env).Ok?
    ensures var es := Loaded(factories, db, aType, cmd, env).value.1;
      var (q1, db1, o) := Dispatch(factories, db, marshal, q, aType, cmd, env);
      && (es == [] ==> o == Fail(EmptySave) && q1 == q && db1 == db)
      && (o.Pass? ==>
            && es != [] && marshal.Some?
            && (q1, Pass) == PublishEach(marshal.value, q, es)
            && StreamOf(db1, cmd.TargetIdentity()) == Ok(EventsOf(db, cmd.TargetIdentity()) + es))
  {
    var es := Loaded(factories, db, aType, cmd, env).value.1;
    if es != [] {
      SaveEventsEffect(db, es, cmd.TargetIdentity());
      var f := factories[aType];
      var s := Loaded(factories, db, aType, cmd, env).value.0;
      CommandEventsTagged(s, cmd, FactoryType(f), cmd.TargetIdentity(), env);
    }
  }

  /** Every event a command makes is tagged with the aggregate it was made by. */
  lemma CommandEventsTagged(s: Snapshot, cmd: Command, aType: AggregateType, id: string, env: Env)
    ensures forall e :: e in CommandEvents(s, cmd, aType, id, env) ==> e.aggregateType == aType && e.aggregateId == id
  {
  }

  /** After a successful order or payment command, loading the aggregate again rebuilds
      exactly the state the command left it in. */
  lemma {:induction false} ReloadAfterDispatch(factories: map<AggregateType, Factory>, db: EventDb, marshal: Option<Event -> Result<Bytes>>,
                                              q: Queues, aType: AggregateType, cmd: Command, env: Env)
    requires aType in factories && factories[aType] != StockFactory
    requires Dispatch(factories, db, marshal, q, aType, cmd, env).2.Pass?
    ensures var f := factories[aType];
      var id := cmd.TargetIdentity();
      var (s, _) := Loaded(factories, db, aType, cmd, env).value;
      LoadResult(BlankState(f, id), FactoryType(f), StreamOf(Dispatch(factories, db, marshal, q, aType, cmd, env).1, id))
        == Ok(HandleCommandState(s, cmd, FactoryType(f), id, env))
  {
    var f := factories[aType];
    var id := cmd.TargetIdentity();
    var blank := BlankState(f, id);
    var t := FactoryType(f);
    var (s, es) := Loaded(factories, db, aType, cmd, env).value;
    DispatchSuccess(factories, db, marshal, q, aType, cmd, env);
    var stored := EventsOf(db, id);
    assert LoadResult(blank, t, StreamOf(db, id)) == Ok(s);
    assert Replay(blank, t, stored) == (s, Pass);
    ReplayAppend(blank, t, stored, es);
    ReplayReproducesCommand(s, cmd, t, id, env);
  }

  class AggCmdHandler<H> {
    const aggregateType: AggregateType
    const repo: AggregateEventStore
    const eventBus: Option<EventBus<H>>

    constructor (aggregateType: AggregateType, repo: AggregateEventStore, eventBus: Option<EventBus<H>>)
      ensures this.aggregateType == aggregateType && this.repo == repo && this.eventBus == eventBus
    {
      this.aggregateType := aggregateType;
      this.repo := repo;
      this.eventBus := eventBus;
    }

    /** The bus's queue table, if there is a bus. */
    function BusRepr(): set<object>
    {
      if eventBus.Some? then {eventBus.value.group} else {}
    }

    function Queues(): Queues
      reads BusRepr()
    {
      if eventBus.Some? then eventBus.value.group.bus else map[]
    }

    /** `HandleCommand(cmd)`: the queues, the stored streams and the returned error are as
        `Dispatch` says. (The example aggregates never reject a command, so the early return on
        a `HandleCommand` error never fires; `Load` never returns a nil aggregate without an
        error, so neither does the not-found return.) */
    method HandleCommand(registry: AggregateRegistry<Factory>, cmd: Command, env: Env) returns (o: Outcome)
      modifies repo.repo, BusRepr()
      ensures (Queues(), repo.repo.db, o) ==
        Dispatch(registry.factories, old(repo.repo.db), MarshalOf(eventBus), old(Queues()), aggregateType, cmd, env)
    {
      var loaded := repo.Load(registry, aggregateType, cmd.TargetIdentity());
      match loaded {
        case Err(e) =>
          return Fail(e);
        case Ok(a) =>
          o := HandleLoaded(registry, a, cmd, env);
      }
    }

    /** The rest of `HandleCommand` once `a` is loaded: the command is handled, then the
        events it made are published and saved. */
    method HandleLoaded(registry: AggregateRegistry<Factory>, a: Aggregate, cmd: Command, env: Env) returns (o: Outcome)
      requires aggregateType in registry.factories
      requires var f := registry.factories[aggregateType];
        && a.TypeName() == FactoryType(f) && a.EntityIdentity() == cmd.TargetIdentity() && a.DomainEvents() == []
        && LoadResult(BlankState(f, cmd.TargetIdentity()), FactoryType(f), StreamOf(repo.repo.db, cmd.TargetIdentity())) == Ok(a.State())
      requires repo.repo !in a.Repr() && a.Repr() !! BusRepr()
      modifies a.Repr(), repo.repo, BusRepr()
      ensures (Queues(), repo.repo.db, o) ==
        Dispatch(registry.factories, old(repo.repo.db), MarshalOf(eventBus), old(Queues()), aggregateType, cmd, env)
    {
      ghost var loadedState := a.State();
      ghost var f := registry.factories[aggregateType];
      var _ := Aggregates.HandleCommand(a, cmd, env);
      assert a.DomainEvents() == CommandEvents(loadedState, cmd, FactoryType(f), cmd.TargetIdentity(), env);
      assert Loaded(registry.factories, old(repo.repo.db), aggregateType, cmd, env) == Ok((loadedState, a.DomainEvents()));
      o := PublishAndSave(a);
    }

    /** The publish loop and the save, for an aggregate that has handled its command. */
    method PublishAndSave(a: Aggregate) returns (o: Outcome)
      modifies repo.repo, BusRepr()
      ensures (Queues(), repo.repo.db, o) ==
        PublishThenSave(old(repo.repo.db), MarshalOf(eventBus), old(Queues()), a.DomainEvents())
    {
      var events := a.DomainEvents();
      var i := 0;
      while i < |events|
        invariant 0 <= i <= |events|
        invariant eventBus.None? ==> i == 0
        invariant repo.repo.db == old(repo.repo.db)
        invariant eventBus.Some? ==>
          PublishEach(eventBus.value.marshal, old(Queues()), events) ==
          PublishEach(eventBus.value.marshal, Queues(), events[i..])
      {
        if eventBus.None? {
          return Fail(NilBus);
        }
        assert events[i..][0] == events[i] && events[i..][1..] == events[i + 1..];
        var err := eventBus.value.HandleEvent(events[i]);
        if err.Fail? {
          return err;
        }
        i := i + 1;
      }
      o := repo.Save(a);
    }
  }

  /** `NewAggCmdHandler`: a nil store is refused; a nil bus is accepted. */
  method NewAggCmdHandler<H>(aggregateType: AggregateType, repo: Option<AggregateEventStore>, bus: Option<EventBus<H>>)
    returns (r: Result<AggCmdHandler<H>>)
    ensures repo.None? <==> r.Err?
    ensures r.Err? ==> r.error == NilStore
    ensures r.Ok? ==>
      fresh(r.value) && r.value.aggregateType == aggregateType && r.value.repo == repo.value && r.value.eventBus == bus
  {
    if repo.None? {
      return Err(NilStore);
    }
    var h := new AggCmdHandler(aggregateType, repo.value, bus);
    r := Ok(h);
  }
}
