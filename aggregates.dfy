/** The `Aggregate` interface (aggregate.go:19-28) over the example's three aggregates, their
    factories, and `CreateAggregate` (aggregate.go:61-70). Dafny has no interfaces here, so an
    aggregate is a tagged reference to one of the three classes, and every interface call
    dispatches on the tag. `Snapshot` is an aggregate's domain state as a value. */
module Aggregates {
  import opened Wrappers
  import opened DomainEvents
  import opened DomainCommands
  import opened DomainMock
  import opened Events
  import opened AggregateRuntime
  import opened OrderAggregates
  import opened StockAggregates
  import opened PaymentAggregates

  datatype Snapshot =
    | OrderSnap(order: OrderState)
    | StockSnap(stock: StockState)
    | PaymentSnap(payment: PaymentState)

  /** `HandleSourcingEvent` of whichever aggregate holds the state. */
  function ApplyEvent(s: Snapshot, e: Event): (r: (Snapshot, Outcome))
    ensures r.0.OrderSnap? == s.OrderSnap? && r.0.StockSnap? == s.StockSnap?
  {
    match s
    case OrderSnap(o) => var (o', out) := ApplyOrderEvent(o, e); (OrderSnap(o'), out)
    case StockSnap(st) => var (st', out) := ApplyStockEvent(st, e); (StockSnap(st'), out)
    case PaymentSnap(p) => var (p', out) := ApplyPaymentEvent(p, e); (PaymentSnap(p'), out)
  }

  /** The events `HandleCommand` of whichever aggregate holds the state publishes. */
  function CommandEvents(s: Snapshot, cmd: Command, aType: AggregateType, id: string, env: Env): seq<Event>
  {
    match s
    case OrderSnap(_) => OrderCommandEvents(cmd, aType, id, env.now)
    case StockSnap(st) => StockCommandEvents(st, cmd, aType, id, env)
    case PaymentSnap(_) => PaymentCommandEvents(cmd, aType, id, env)
  }

  /** The state after `HandleCommand` of whichever aggregate holds the state. */
  function HandleCommandState(s: Snapshot, cmd: Command, aType: AggregateType, id: string, env: Env): Snapshot
  {
    match s
    case OrderSnap(o) => OrderSnap(HandleOrderCommand(o, cmd, aType, id, env.now))
    case StockSnap(st) => StockSnap(HandleStockCommand(st, cmd, aType, id, env))
    case PaymentSnap(p) => PaymentSnap(HandlePaymentCommand(p, cmd, aType, id, env))
  }

  datatype Aggregate =
    | OrderAgg(order: OrderAggregate)
    | StockAgg(stock: StockAggregate)
    | PaymentAgg(payment: PaymentAggregate)
  {
    /** The embedded `*BaseAggregate`. */
    function Base(): BaseAggregate
    {
      match this
      case OrderAgg(o) => o.base
      case StockAgg(s) => s.base
      case PaymentAgg(p) => p.base
    }

    /** The objects the aggregate consists of. */
    function Repr(): set<object>
    {
      match this
      case OrderAgg(o) => {o, o.base}
      case StockAgg(s) => {s, s.base}
      case PaymentAgg(p) => {p, p.base}
    }

    function EntityIdentity(): string
    {
      Base().identity
    }

    function TypeName(): AggregateType
    {
      Base().aType
    }

    function DomainEvents(): seq<Event>
      reads Base()
    {
      Base().events
    }

    function State(): Snapshot
      reads Repr()
    {
      match this
      case OrderAgg(o) => OrderSnap(o.State())
      case StockAgg(s) => StockSnap(s.State())
      case PaymentAgg(p) => PaymentSnap(p.State())
    }
  }

  method HandleSourcingEvent(a: Aggregate, e: Event) returns (o: Outcome)
    modifies a.Repr() - {a.Base()}
    ensures (a.State(), o) == ApplyEvent(old(a.State()), e)
  {
    match a
    case OrderAgg(x) => o := x.HandleSourcingEvent(e);
    case StockAgg(x) => o := x.HandleSourcingEvent(e);
    case PaymentAgg(x) => o := x.HandleSourcingEvent(e);
  }

  /** `HandleCommand`: the example aggregates never reject a command. */
  method HandleCommand(a: Aggregate, cmd: Command, env: Env) returns (o: Outcome)
    modifies a.Repr()
    ensures o == Pass
    ensures a.DomainEvents() ==
      old(a.DomainEvents()) + CommandEvents(old(a.State()), cmd, a.TypeName(), a.EntityIdentity(), env)
    ensures a.State() == HandleCommandState(old(a.State()), cmd, a.TypeName(), a.EntityIdentity(), env)
  {
    match a
    case OrderAgg(x) => o := x.HandleCommand(cmd, env);
    case StockAgg(x) => o := x.HandleCommand(cmd, env);
    case PaymentAgg(x) => o := x.HandleCommand(cmd, env);
  }

  /** The three factory closures registered by the example's `init` functions. */
  datatype Factory = OrderFactory | StockFactory | PaymentFactory

  function FactoryType(f: Factory): AggregateType
  {
    match f
    case OrderFactory => OrderAggregateType
    case StockFactory => StockAggregateType
    case PaymentFactory => PaymentAggregateType
  }

  /** The state a factory gives a new aggregate: the identity in the id field, the rest zero. */
  function BlankState(f: Factory, id: string): Snapshot
  {
    match f
    case OrderFactory => OrderSnap(BlankOrder(id))
    case StockFactory => StockSnap(BlankStock(id))
    case PaymentFactory => PaymentSnap(BlankPayment(id))
  }

  /** Calling a factory: a new aggregate of the factory's type with the given identity, the
      blank state and no pending events. */
  method Build(f: Factory, id: string) returns (a: Aggregate)
    ensures fresh(a.Repr())
    ensures a.EntityIdentity() == id && a.TypeName() == FactoryType(f)
    ensures a.DomainEvents() == [] && a.State() == BlankState(f, id)
  {
    match f
    case OrderFactory => var o := new OrderAggregate(id); a := OrderAgg(o);
    case StockFactory => var s := new StockAggregate(id); a := StockAgg(s);
    case PaymentFactory => var p := new PaymentAggregate(id); a := PaymentAgg(p);
  }

  /** `CreateAggregate(aggType, identity)`: the registered factory called with the identity, or
      the not-registered error and no aggregate. */
  method CreateAggregate(registry: AggregateRegistry<Factory>, aggType: AggregateType, identity: string)
    returns (r: Result<Aggregate>)
    ensures r.Ok? <==> aggType in registry.factories
    ensures r.Ok? ==>
      var f := registry.factories[aggType];
      && fresh(r.value.Repr())
      && r.value.EntityIdentity() == identity && r.value.TypeName() == FactoryType(f)
      && r.value.DomainEvents() == [] && r.value.State() == BlankState(f, identity)
    ensures r.Err? ==> r.error == Msg("[evol] CreateAggregate aggregate not registered")
  {
    var factory := registry.Lookup(aggType);
    if factory.Err? {
      return Err(factory.error);
    }
    var a := Build(factory.value, identity);
    r := Ok(a);
  }

  /** The registry is well formed when every type is registered with the factory that builds
      aggregates of that type, as the example's registrations are. */
  ghost predicate FactoriesMatch(registry: AggregateRegistry<Factory>)
    reads registry
  {
    forall t :: t in registry.factories ==> FactoryType(registry.factories[t]) == t
  }

  /** The example's three `init` registrations (order, payment, stock); a duplicate panics. */
  method RegisterDomainAggregates(registry: AggregateRegistry<Factory>) returns (o: Outcome)
    modifies registry
    ensures old(registry.factories.Keys) !! {OrderAggregateType, StockAggregateType, PaymentAggregateType} ==>
      o == Pass &&
      registry.factories == old(registry.factories)[OrderAggregateType := OrderFactory]
        [PaymentAggregateType := PaymentFactory][StockAggregateType := StockFactory]
  {
    o := registry.RegisterAggregate(OrderAggregateType, OrderFactory);
    if o.Fail? { return; }
    o := registry.RegisterAggregate(PaymentAggregateType, PaymentFactory);
    if o.Fail? { return; }
    o := registry.RegisterAggregate(StockAggregateType, StockFactory);
  }
}
