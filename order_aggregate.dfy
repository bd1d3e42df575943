/** The order aggregate (example/domain/order_aggregate.go). Its state is a function of the
    events applied to it; `OrderState` is that state as a value, and `ApplyOrderEvent` and
    `HandleOrderCommand` say what `HandleSourcingEvent` and `HandleCommand` do to it. */
module OrderAggregates {
  import opened Wrappers
  import opened DomainEvents
  import opened DomainCommands
  import opened DomainMock
  import opened Events
  import opened AggregateRuntime

  datatype OrderState = OrderState(
    orderId: string,
    buyerId: string,
    totalPrice: int,
    productIds: seq<string>,
    status: string)

  /** The state the factory builds: `OrderId` is the aggregate identity, the rest zero. */
  function BlankOrder(id: string): OrderState
  {
    OrderState(id, "", 0, [], "")
  }

  /** `HandleSourcingEvent`: `OrderCreatedEvent` sets the status to "CREATED" before decoding
      the payload, so a payload that does not decode still leaves that status behind; a decoded
      payload's four fields are copied. Any other topic changes nothing. */
  function ApplyOrderEvent(s: OrderState, e: Event): (r: (OrderState, Outcome))
    ensures e.topic != OrderCreatedEventTopic ==> r == (s, Pass)
    ensures e.topic == OrderCreatedEventTopic ==> r.0.status == "CREATED"
    ensures e.topic == OrderCreatedEventTopic && e.data.OrderCreatedEvent? ==>
      r == (OrderState(e.data.orderId, e.data.buyerId, e.data.totalPrice, e.data.productIds, "CREATED"), Pass)
    ensures e.topic == OrderCreatedEventTopic && !e.data.OrderCreatedEvent? ==>
      r == (s.(status := "CREATED"), Fail(DecodeFailed))
  {
    if e.topic == OrderCreatedEventTopic then
      var s1 := s.(status := "CREATED");
      match DecodeOrderCreated(e.data)
      case Ok(p) =>
        (s1.(orderId := p.orderId, buyerId := p.buyerId, productIds := p.productIds,
             totalPrice := p.totalPrice), Pass)
      case Err(err) => (s1, Fail(err))
    else (s, Pass)
  }

  /** The events `HandleCommand` publishes: one `OrderCreatedEvent` carrying the command's
      `OrderId`, `BuyerId`, `Price` and `Goods` for `CreateOrderCmd`, none for any other command. */
  function OrderCommandEvents(cmd: Command, aType: AggregateType, id: string, now: Time): seq<Event>
  {
    match cmd
    case CreateOrderCmd(orderId, buyerId, price, goods) =>
      [Event(OrderCreatedEventTopic, OrderCreatedEvent(orderId, buyerId, price, goods), aType, id, now)]
    case _ => []
  }

  /** `HandleCommand` as a whole: the state after the published events have been
      self-applied. */
  function HandleOrderCommand(s: OrderState, cmd: Command, aType: AggregateType, id: string, now: Time): OrderState
  {
    var es := OrderCommandEvents(cmd, aType, id, now);
    if es == [] then s else ApplyOrderEvent(s, es[0]).0
  }

  /** Creating an order publishes exactly one `OrderCreatedEvent`, tagged with the aggregate, and
      leaves the aggregate in the "CREATED" state with the command's fields; other commands
      publish nothing and change nothing. */
  lemma CreateOrderPublishes(s: OrderState, cmd: Command, aType: AggregateType, id: string, now: Time)
    ensures cmd.CreateOrderCmd? ==>
      var es := OrderCommandEvents(cmd, aType, id, now);
      && |es| == 1
      && es[0].topic == OrderCreatedEventTopic
      && es[0].aggregateType == aType && es[0].aggregateId == id && es[0].time == now
      && es[0].data == OrderCreatedEvent(cmd.orderId, cmd.buyerId, cmd.price, cmd.goods)
      && HandleOrderCommand(s, cmd, aType, id, now) ==
           OrderState(cmd.orderId, cmd.buyerId, cmd.price, cmd.goods, "CREATED")
    ensures !cmd.CreateOrderCmd? ==>
      OrderCommandEvents(cmd, aType, id, now) == [] && HandleOrderCommand(s, cmd, aType, id, now) == s
  {
  }

  class OrderAggregate {
    const base: BaseAggregate
    var OrderId: string
    var BuyerId: string
    var TotalPrice: int
    var ProductIds: seq<string>
    var Status: string

    function State(): OrderState
      reads this
    {
      OrderState(OrderId, BuyerId, TotalPrice, ProductIds, Status)
    }

    /** The factory registered in `init`: the base identity and `OrderId` both equal `id`. */
    constructor (id: string)
      ensures fresh(base)
      ensures base.identity == id && base.aType == OrderAggregateType && base.events == []
      ensures State() == BlankOrder(id)
    {
      base := new BaseAggregate(OrderAggregateType, id);
      OrderId := id;
      BuyerId := "";
      TotalPrice := 0;
      ProductIds := [];
      Status := "";
    }

    method HandleSourcingEvent(e: Event) returns (o: Outcome)
      modifies this
      ensures (State(), o) == ApplyOrderEvent(old(State()), e)
    {
      if e.topic == OrderCreatedEventTopic {
        Status := "CREATED";
        var decoded := DecodeOrderCreated(e.data);
        if decoded.Err? {
          return Fail(decoded.error);
        }
        var ne := decoded.value;
        OrderId := ne.orderId;
        BuyerId := ne.buyerId;
        ProductIds := ne.productIds;
        TotalPrice := ne.totalPrice;
      }
      o := Pass;
    }

    /** `PublishEvent` with this aggregate as its own sourcing handler: the event is appended
        to the pending list and then applied; an apply error is only logged. */
    method PublishEvent(topic: Topic, data: Payload, timestamp: Time) returns (e: Event)
      modifies this, base
      ensures e == Event(topic, data, base.aType, base.identity, timestamp)
      ensures base.events == old(base.events) + [e]
      ensures State() == ApplyOrderEvent(old(State()), e).0
    {
      e := base.PublishEvent(topic, data, timestamp, []);
      var _ := HandleSourcingEvent(e);
    }

    method HandleCommand(cmd: Command, env: Env) returns (o: Outcome)
      modifies this, base
      ensures o == Pass
      ensures base.events == old(base.events) + OrderCommandEvents(cmd, base.aType, base.identity, env.now)
      ensures State() == HandleOrderCommand(old(State()), cmd, base.aType, base.identity, env.now)
    {
      if cmd.CreateOrderCmd? {
        var _ := PublishEvent(OrderCreatedEventTopic,
          OrderCreatedEvent(cmd.orderId, cmd.buyerId, cmd.price, cmd.goods), env.now);
      }
      o := Pass;
    }
  }
}
