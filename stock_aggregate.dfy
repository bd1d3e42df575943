/** The stock aggregate (example/domain/stock_aggregate.go): one per product, tracking the
    quantity on hand. */
module StockAggregates {
  import opened Wrappers
  import opened DomainEvents
  import opened DomainCommands
  import opened DomainMock
  import opened Events
  import opened AggregateRuntime

  datatype StockState = StockState(productId: string, quantity: int)

  function BlankStock(id: string): StockState
  {
    StockState(id, 0)
  }

  /** `HandleSourcingEvent`: a decoded `ProductReservedEvent` takes its count off the quantity;
      `ProductReserveFailedEvent` and every other topic change nothing. */
  function ApplyStockEvent(s: StockState, e: Event): (r: (StockState, Outcome))
    ensures e.topic != ProductReservedEventTopic ==> r == (s, Pass)
    ensures e.topic == ProductReservedEventTopic && e.data.ProductReservedEvent? ==>
      r == (s.(quantity := s.quantity - e.data.count), Pass)
    ensures e.topic == ProductReservedEventTopic && !e.data.ProductReservedEvent? ==>
      r == (s, Fail(DecodeFailed))
    ensures r.0.productId == s.productId
  {
    if e.topic == ProductReservedEventTopic then
      match DecodeProductReserved(e.data)
      case Ok(p) => (s.(quantity := s.quantity - p.count), Pass)
      case Err(err) => (s, Fail(err))
    else (s, Pass)
  }

  /** The one event `MakeReservationCmd` publishes, decided against the quantity that was just
      read from the mock stock under the aggregate's own `ProductId`. */
  function ReservationEvent(cmd: Command, quantity: int, aType: AggregateType, id: string, now: Time): Event
    requires cmd.MakeReservationCmd?
  {
    if quantity >= cmd.count then
      Event(ProductReservedEventTopic, ProductReservedEvent(cmd.productId, cmd.orderId, cmd.count), aType, id, now)
    else
      Event(ProductReserveFailedEventTopic,
        ProductReserveFailedEvent(cmd.productId, cmd.orderId, cmd.count, "not enough products"), aType, id, now)
  }

  /** The events `HandleCommand` publishes: exactly one for `MakeReservationCmd`, none for any
      other command, `RollBackReservationCmd` included. */
  function StockCommandEvents(s: StockState, cmd: Command, aType: AggregateType, id: string, env: Env): seq<Event>
  {
    if cmd.MakeReservationCmd? then [ReservationEvent(cmd, StockOf(env, s.productId), aType, id, env.now)]
    else []
  }

  /** `HandleCommand` as a whole: `Quantity` is first overwritten with the mock stock level of
      the aggregate's product, then the published event is self-applied. */
  function HandleStockCommand(s: StockState, cmd: Command, aType: AggregateType, id: string, env: Env): StockState
  {
    if cmd.MakeReservationCmd? then
      var s1 := s.(quantity := StockOf(env, s.productId));
      ApplyStockEvent(s1, ReservationEvent(cmd, s1.quantity, aType, id, env.now)).0
    else s
  }

  /** A reservation succeeds exactly when the stock level covers the count, and then the
      quantity drops by the count; otherwise a failure event with reason "not enough products"
      is published and the quantity stays at the stock level. */
  lemma ReservationOutcome(s: StockState, cmd: Command, aType: AggregateType, id: string, env: Env)
    requires cmd.MakeReservationCmd?
    ensures var es := StockCommandEvents(s, cmd, aType, id, env);
      var level := StockOf(env, s.productId);
      && |es| == 1
      && es[0].aggregateType == aType && es[0].aggregateId == id && es[0].time == env.now
      && (level >= cmd.count ==>
            es[0].topic == ProductReservedEventTopic
            && es[0].data == ProductReservedEvent(cmd.productId, cmd.orderId, cmd.count)
            && HandleStockCommand(s, cmd, aType, id, env) == StockState(s.productId, level - cmd.count))
      && (level < cmd.count ==>
            es[0].topic == ProductReserveFailedEventTopic
            && es[0].data.ProductReserveFailedEvent? && es[0].data.reason == "not enough products"
            && HandleStockCommand(s, cmd, aType, id, env) == StockState(s.productId, level))
  {
  }

  class StockAggregate {
    const base: BaseAggregate
    var ProductId: string
    var Quantity: int

    function State(): StockState
      reads this
    {
      StockState(ProductId, Quantity)
    }

    /** The factory: the base identity and `ProductId` both equal `id`. */
    constructor (id: string)
      ensures fresh(base)
      ensures base.identity == id && base.aType == StockAggregateType && base.events == []
      ensures State() == BlankStock(id)
    {
      base := new BaseAggregate(StockAggregateType, id);
      ProductId := id;
      Quantity := 0;
    }

    method HandleSourcingEvent(e: Event) returns (o: Outcome)
      modifies this
      ensures (State(), o) == ApplyStockEvent(old(State()), e)
    {
      if e.topic == ProductReservedEventTopic {
        var decoded := DecodeProductReserved(e.data);
        if decoded.Err? {
          return Fail(decoded.error);
        }
        Quantity := Quantity - decoded.value.count;
      }
      o := Pass;
    }

    method PublishEvent(topic: Topic, data: Payload, timestamp: Time) returns (e: Event)
      modifies this, base
      ensures e == Event(topic, data, base.aType, base.identity, timestamp)
      ensures base.events == old(base.events) + [e]
      ensures State() == ApplyStockEvent(old(State()), e).0
    {
      e := base.PublishEvent(topic, data, timestamp, []);
      var _ := HandleSourcingEvent(e);
    }

    method HandleCommand(cmd: Command, env: Env) returns (o: Outcome)
      modifies this, base
      ensures o == Pass
      ensures base.events == old(base.events) + StockCommandEvents(old(State()), cmd, base.aType, base.identity, env)
      ensures State() == HandleStockCommand(old(State()), cmd, base.aType, base.identity, env)
    {
      if cmd.MakeReservationCmd? {
        Quantity := StockOf(env, ProductId);
        if Quantity >= cmd.count {
          var _ := PublishEvent(ProductReservedEventTopic,
            ProductReservedEvent(cmd.productId, cmd.orderId, cmd.count), env.now);
        } else {
          var _ := PublishEvent(ProductReserveFailedEventTopic,
            ProductReserveFailedEvent(cmd.productId, cmd.orderId, cmd.count, "not enough products"), env.now);
        }
      }
      o := Pass;
    }
  }
}
