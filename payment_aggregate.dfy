/** The payment aggregate (example/domain/payment_aggregate.go). */
module PaymentAggregates {
  import opened Wrappers
  import opened DomainEvents
  import opened DomainCommands
  import opened DomainMock
  import opened Events
  import opened AggregateRuntime

  datatype PaymentState = PaymentState(paymentId: string, orderId: string, status: string, amount: int)

  function BlankPayment(id: string): PaymentState
  {
    PaymentState(id, "", "", 0)
  }

  /** `HandleSourcingEvent`: a decoded `OrderPayedEvent` sets status "PAYED" and copies payment
      id, order id and amount; a decoded `OrderPayFailedEvent` sets status "Failed" and copies the
      two ids, keeping the amount; a payload that does not decode changes nothing; any other topic
      changes nothing. */
  function ApplyPaymentEvent(s: PaymentState, e: Event): (r: (PaymentState, Outcome))
    ensures e.topic != OrderPayedEventTopic && e.topic != OrderPayFailedEventTopic ==> r == (s, Pass)
    ensures e.topic == OrderPayedEventTopic && e.data.OrderPayedEvent? ==>
      r == (PaymentState(e.data.paymentId, e.data.orderId, "PAYED", e.data.amount), Pass)
    ensures e.topic == OrderPayFailedEventTopic && e.data.OrderPayFailedEvent? ==>
      r == (PaymentState(e.data.paymentId, e.data.orderId, "Failed", s.amount), Pass)
    ensures r.1.Fail? ==> r == (s, Fail(DecodeFailed))
  {
    if e.topic == OrderPayedEventTopic then
      match DecodeOrderPayed(e.data)
      case Ok(p) => (s.(paymentId := p.paymentId, orderId := p.orderId, amount := p.amount, status := "PAYED"), Pass)
      case Err(err) => (s, Fail(err))
    else if e.topic == OrderPayFailedEventTopic then
      match DecodeOrderPayFailed(e.data)
      case Ok(p) => (s.(status := "Failed", paymentId := p.paymentId, orderId := p.orderId), Pass)
      case Err(err) => (s, Fail(err))
    else (s, Pass)
  }

  /** The one event `PayOrderCmd` publishes, decided against the buyer's mock balance. */
  function PaymentEvent(cmd: Command, balance: int, aType: AggregateType, id: string, now: Time): Event
    requires cmd.PayOrderCmd?
  {
    if balance >= cmd.amount then
      Event(OrderPayedEventTopic, OrderPayedEvent(cmd.paymentId, cmd.orderId, cmd.amount, now), aType, id, now)
    else
      Event(OrderPayFailedEventTopic,
        OrderPayFailedEvent(cmd.paymentId, cmd.orderId, "balance not enough", now), aType, id, now)
  }

  function PaymentCommandEvents(cmd: Command, aType: AggregateType, id: string, env: Env): seq<Event>
  {
    if cmd.PayOrderCmd? then [PaymentEvent(cmd, BalanceOf(env, cmd.buyerId), aType, id, env.now)] else []
  }

  function HandlePaymentCommand(s: PaymentState, cmd: Command, aType: AggregateType, id: string, env: Env): PaymentState
  {
    var es := PaymentCommandEvents(cmd, aType, id, env);
    if es == [] then s else ApplyPaymentEvent(s, es[0]).0
  }

  /** Paying publishes exactly one event: `OrderPayedEvent` when the buyer's balance covers the
      amount, leaving the payment "PAYED", otherwise `OrderPayFailedEvent` with reason
      "balance not enough", leaving it "Failed" with its amount unchanged. Other commands publish
      nothing. */
  lemma PaymentOutcome(s: PaymentState, cmd: Command, aType: AggregateType, id: string, env: Env)
    ensures !cmd.PayOrderCmd? ==>
      PaymentCommandEvents(cmd, aType, id, env) == [] && HandlePaymentCommand(s, cmd, aType, id, env) == s
    ensures cmd.PayOrderCmd? ==>
      var es := PaymentCommandEvents(cmd, aType, id, env);
      var covered := BalanceOf(env, cmd.buyerId) >= cmd.amount;
      && |es| == 1
      && es[0].aggregateType == aType && es[0].aggregateId == id && es[0].time == env.now
      && (covered ==>
            es[0].topic == OrderPayedEventTopic
            && es[0].data == OrderPayedEvent(cmd.paymentId, cmd.orderId, cmd.amount, env.now)
            && HandlePaymentCommand(s, cmd, aType, id, env) == PaymentState(cmd.paymentId, cmd.orderId, "PAYED", cmd.amount))
      && (!covered ==>
            es[0].topic == OrderPayFailedEventTopic
            && es[0].data == OrderPayFailedEvent(cmd.paymentId, cmd.orderId, "balance not enough", env.now)
            && HandlePaymentCommand(s, cmd, aType, id, env) == PaymentState(cmd.paymentId, cmd.orderId, "Failed", s.amount))
  {
  }

  class PaymentAggregate {
    const base: BaseAggregate
    var PaymentId: string
    var OrderId: string
    var Status: string
    var Amount: int

    function State(): PaymentState
      reads this
    {
      PaymentState(PaymentId, OrderId, Status, Amount)
    }

    /** The factory: the base identity and `PaymentId` both equal `id`. */
    constructor (id: string)
      ensures fresh(base)
      ensures base.identity == id && base.aType == PaymentAggregateType && base.events == []
      ensures State() == BlankPayment(id)
    {
      base := new BaseAggregate(PaymentAggregateType, id);
      PaymentId := id;
      OrderId := "";
      Status := "";
      Amount := 0;
    }

    method HandleSourcingEvent(e: Event) returns (o: Outcome)
      modifies this
      ensures (State(), o) == ApplyPaymentEvent(old(State()), e)
    {
      if e.topic == OrderPayedEventTopic {
        var decoded := DecodeOrderPayed(e.data);
        if decoded.Err? {
          return Fail(decoded.error);
        }
        var evt := decoded.value;
        PaymentId := evt.paymentId;
        OrderId := evt.orderId;
        Amount := evt.amount;
        Status := "PAYED";
      } else if e.topic == OrderPayFailedEventTopic {
        var decoded := DecodeOrderPayFailed(e.data);
        if decoded.Err? {
          return Fail(decoded.error);
        }
        var evt := decoded.value;
        Status := "Failed";
        PaymentId := evt.paymentId;
        OrderId := evt.orderId;
      }
      o := Pass;
    }

    method PublishEvent(topic: Topic, data: Payload, timestamp: Time) returns (e: Event)
      modifies this, base
      ensures e == Event(topic, data, base.aType, base.identity, timestamp)
      ensures base.events == old(base.events) + [e]
      ensures State() == ApplyPaymentEvent(old(State()), e).0
    {
      e := base.PublishEvent(topic, data, timestamp, []);
      var _ := HandleSourcingEvent(e);
    }

    method HandleCommand(cmd: Command, env: Env) returns (o: Outcome)
      modifies this, base
      ensures o == Pass
      ensures base.events == old(base.events) + PaymentCommandEvents(cmd, base.aType, base.identity, env)
      ensures State() == HandlePaymentCommand(old(State()), cmd, base.aType, base.identity, env)
    {
      if cmd.PayOrderCmd? {
        var buyerBalance := BalanceOf(env, cmd.buyerId);
        if buyerBalance >= cmd.amount {
          var _ := PublishEvent(OrderPayedEventTopic,
            OrderPayedEvent(cmd.paymentId, cmd.orderId, cmd.amount, env.now), env.now);
        } else {
          var _ := PublishEvent(OrderPayFailedEventTopic,
            OrderPayFailedEvent(cmd.paymentId, cmd.orderId, "balance not enough", env.now), env.now);
        }
      }
      o := Pass;
    }
  }
}
