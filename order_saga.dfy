/** The example's order saga (example/domain/saga.go): it reacts to the order, stock and
    payment events and sends the next commands through the command bus. `OrderSagaState` is the
    saga's fields as a value and `React` what `HandleSagaEvent` does: the new fields, the
    commands sent in order, and the error returned. The snowflake id `FinishReservation` asks
    for is a parameter. */
module OrderSagas {
  import opened Wrappers
  import opened DomainEvents
  import opened DomainCommands
  import opened Events
  import opened LocalCommandBus
  import opened SagaBase

  /** The options of the example's saga registration. */
  const OrderSagaType := "OrderSaga"
  const OrderSagaStartEvents: seq<Topic> := [OrderCreatedEventTopic]
  const OrderSagaOnEvents: seq<Topic> := [ProductReservedEventTopic, OrderPayedEventTopic]
  const OrderSagaEndEvents: seq<Topic> := [ProductReserveFailedEventTopic, OrderPayFailedEventTopic]

  /** `Resolver`: every event maps to the same saga identity, "OrderId". */
  function Resolver(e: Event): string
  {
    "OrderId"
  }

  lemma ResolverIsConstant(e1: Event, e2: Event)
    ensures Resolver(e1) == Resolver(e2) == "OrderId"
  {
  }

  datatype OrderSagaState = OrderSagaState(
    orderId: string,
    buyerId: string,
    totalPrice: int,
    allProducts: seq<string>,
    reservedProducts: seq<string>,
    reserveFailedProducts: seq<string>,
    toReserveNum: int,
    needRollBack: bool)

  /** The fields of a saga `NewOrderSaga` has just built: all zero. */
  const FreshOrderSaga := OrderSagaState("", "", 0, [], [], [], 0, false)

  /** Append unless already present (`funk.Contains` then `append`). */
  function AddOnce(xs: seq<string>, x: string): seq<string>
  {
    if x in xs then xs else xs + [x]
  }

  /** The `MakeReservationCmd`s of `OrderCreated`: one per product, count 1, in order. */
  function Reservations(orderId: string, productIds: seq<string>): seq<Command>
  {
    seq(|productIds|, i requires 0 <= i < |productIds| => MakeReservationCmd(orderId, productIds[i], 1))
  }

  /** The `RollBackReservationCmd`s of `RollBackOrder`: one per reserved product, count 1, in
      order. */
  function RollBacks(orderId: string, reserved: seq<string>): seq<Command>
  {
    seq(|reserved|, i requires 0 <= i < |reserved| => RollBackReservationCmd(orderId, reserved[i], 1))
  }

  /** What a call did: the saga's fields afterwards, the commands handed to the bus, in
      order, and the error returned. */
  datatype Reaction = Reaction(state: OrderSagaState, sent: seq<Command>, result: Outcome)

  /** `FinishReservation`: with a rollback pending, roll back the reserved products and cancel
      the order ("Reserve Product Failed"), answering nil whatever the bus says; otherwise pay,
      under a payment id made from the snowflake id, and answer what the bus answers. A failing
      id generator is returned before anything is sent. */
  function Finish<CH>(s: OrderSagaState, uuid: Result<int>, handlers: map<CommandName, CH>): Reaction
  {
    if s.needRollBack then
      Reaction(s, RollBacks(s.orderId, s.reservedProducts) + [CancelOrderCmd(s.orderId, "Reserve Product Failed")], Pass)
    else match uuid
      case Err(e) => Reaction(s, [], Fail(e))
      case Ok(pid) =>
        var cmd := PayOrderCmd(FormatInt(pid), s.orderId, s.buyerId, s.totalPrice);
        Reaction(s, [cmd], Answer(handlers, cmd))
  }

  /** `HandleSagaEvent` on one event. Every branch returns the decode error before touching
      anything, except that the two failure topics set `needRollBack` first. */
  function React<CH>(s: OrderSagaState, e: Event, uuid: Result<int>, handlers: map<CommandName, CH>): Reaction
  {
    if e.topic == OrderCreatedEventTopic then
      match DecodeOrderCreated(e.data)
      case Err(err) => Reaction(s, [], Fail(err))
      case Ok(evt) =>
        var s1 := s.(orderId := evt.orderId, allProducts := evt.productIds, buyerId := evt.buyerId,
                     totalPrice := evt.totalPrice);
        Reaction(s1, Reservations(evt.orderId, evt.productIds), Pass)
    else if e.topic == ProductReservedEventTopic then
      match DecodeProductReserved(e.data)
      case Err(err) => Reaction(s, [], Fail(err))
      case Ok(evt) =>
        var s1 := s.(reservedProducts := AddOnce(s.reservedProducts, evt.productId),
                     toReserveNum := s.toReserveNum - 1);
        if s1.toReserveNum == 0 then Finish(s1, uuid, handlers) else Reaction(s1, [], Pass)
    else if e.topic == ProductReserveFailedEventTopic then
      var s0 := s.(needRollBack := true);
      match DecodeProductReserveFailed(e.data)
      case Err(err) => Reaction(s0, [], Fail(err))
      case Ok(evt) =>
        var s1 := s0.(reserveFailedProducts := AddOnce(s0.reserveFailedProducts, evt.productId),
                      toReserveNum := s0.toReserveNum - 1);
        if s1.toReserveNum == 0 then Finish(s1, uuid, handlers) else Reaction(s1, [], Pass)
    else if e.topic == OrderPayedEventTopic then
      match DecodeOrderPayed(e.data)
      case Err(err) => Reaction(s, [], Fail(err))
      case Ok(_) =>
        var cmd := OrderConfirmedCmd(s.orderId);
        Reaction(s, [cmd], Answer(handlers, cmd))
    else if e.topic == OrderPayFailedEventTopic then
      var s0 := s.(needRollBack := true);
      match DecodeOrderPayFailed(e.data)
      case Err(err) => Reaction(s0, [], Fail(err))
      case Ok(_) =>
        Reaction(s0, RollBacks(s0.orderId, s0.reservedProducts) + [CancelOrderCmd(s0.orderId, "Pay Order Failed")], Pass)
    else Reaction(s, [], Pass)
  }

  /** `OrderCreated` copies the order's fields and sends one reservation of count 1 per
      product, in order, answering nil whatever the bus answered; `reservedProducts`,
      `toReserveNum` and `needRollBack` are untouched. */
  lemma OrderCreatedReserves<CH>(s: OrderSagaState, e: Event, uuid: Result<int>, handlers: map<CommandName, CH>)
    requires e.topic == OrderCreatedEventTopic && e.data.OrderCreatedEvent?
    ensures var r := React(s, e, uuid, handlers);
      && r.result == Pass
      && r.state == s.(orderId := e.data.orderId, buyerId := e.data.buyerId, totalPrice := e.data.totalPrice,
                       allProducts := e.data.productIds)
      && |r.sent| == |e.data.productIds|
      && forall i :: 0 <= i < |r.sent| ==> r.sent[i] == MakeReservationCmd(e.data.orderId, e.data.productIds[i], 1)
  {
  }

  /** The reserve and reserve-failed events each count `toReserveNum` down by one when they
      decode and leave it alone with an error when they do not; a command is sent on such an
      event only when the count reaches exactly zero. */
  lemma ReservationCountsDown<CH>(s: OrderSagaState, e: Event, uuid: Result<int>, handlers: map<CommandName, CH>)
    requires e.topic == ProductReservedEventTopic || e.topic == ProductReserveFailedEventTopic
    ensures var r := React(s, e, uuid, handlers);
      && (DecodeOk(e) ==> r.state.toReserveNum == s.toReserveNum - 1)
      && (!DecodeOk(e) ==> r.sent == [] && r.result.Fail? && r.state.toReserveNum == s.toReserveNum)
      && (r.sent != [] ==> s.toReserveNum == 1)
  {
  }

  /** The payload of an event decodes as its topic's struct. */
  predicate DecodeOk(e: Event)
  {
    || (e.topic == OrderCreatedEventTopic && e.data.OrderCreatedEvent?)
    || (e.topic == ProductReservedEventTopic && e.data.ProductReservedEvent?)
    || (e.topic == ProductReserveFailedEventTopic && e.data.ProductReserveFailedEvent?)
    || (e.topic == OrderPayedEventTopic && e.data.OrderPayedEvent?)
    || (e.topic == OrderPayFailedEventTopic && e.data.OrderPayFailedEvent?)
  }

  /** When the last pending reservation succeeds and nothing failed, exactly one payment is
      requested, for the buyer and the order's total, under the decimal form of the snowflake
      id; the bus's answer is returned. */
  lemma LastReservationPays<CH>(s: OrderSagaState, e: Event, pid: int, handlers: map<CommandName, CH>)
    requires e.topic == ProductReservedEventTopic && e.data.ProductReservedEvent?
    requires s.toReserveNum == 1 && !s.needRollBack
    ensures var r := React(s, e, Ok(pid), handlers);
      var pay := PayOrderCmd(FormatInt(pid), s.orderId, s.buyerId, s.totalPrice);
      r.sent == [pay] && r.result == Answer(handlers, pay) && r.state.toReserveNum == 0
  {
  }

  /** A failed payment sets the rollback flag, rolls back every reserved product in order and
      then cancels the order with reason "Pay Order Failed"; it answers nil. */
  lemma PayFailedRollsBack<CH>(s: OrderSagaState, e: Event, uuid: Result<int>, handlers: map<CommandName, CH>)
    requires e.topic == OrderPayFailedEventTopic && e.data.OrderPayFailedEvent?
    ensures var r := React(s, e, uuid, handlers);
      && r.result == Pass && r.state == s.(needRollBack := true)
      && |r.sent| == |s.reservedProducts| + 1
      && (forall i :: 0 <= i < |s.reservedProducts| ==>
            r.sent[i] == RollBackReservationCmd(s.orderId, s.reservedProducts[i], 1))
      && r.sent[|s.reservedProducts|] == CancelOrderCmd(s.orderId, "Pay Order Failed")
  {
  }

  /** A payment sends exactly one confirmation for the saga's order and answers what the bus
      answers. */
  lemma PayedConfirms<CH>(s: OrderSagaState, e: Event, uuid: Result<int>, handlers: map<CommandName, CH>)
    requires e.topic == OrderPayedEventTopic && e.data.OrderPayedEvent?
    ensures var r := React(s, e, uuid, handlers);
      r.sent == [OrderConfirmedCmd(s.orderId)] && r.result == Answer(handlers, OrderConfirmedCmd(s.orderId)) && r.state == s
  {
  }

  predicate NoDuplicates(xs: seq<string>)
  {
    forall i, j :: 0 <= i < j < |xs| ==> xs[i] != xs[j]
  }

  /** The two product lists never gain a duplicate, and once set the rollback flag is never
      cleared. */
  lemma ReactInvariants<CH>(s: OrderSagaState, e: Event, uuid: Result<int>, handlers: map<CommandName, CH>)
    requires NoDuplicates(s.reservedProducts) && NoDuplicates(s.reserveFailedProducts)
    ensures var r := React(s, e, uuid, handlers);
      && NoDuplicates(r.state.reservedProducts) && NoDuplicates(r.state.reserveFailedProducts)
      && (s.needRollBack ==> r.state.needRollBack)
  {
  }

  /** The saga's state after a sequence of events, together with all commands it sent. */
  function ReactAll<CH>(s: OrderSagaState, es: seq<Event>, uuid: Result<int>, handlers: map<CommandName, CH>): (OrderSagaState, seq<Command>)
    decreases |es|
  {
    if es == [] then (s, [])
    else
      var r := React(s, es[0], uuid, handlers);
      var (s', rest) := ReactAll(r.state, es[1..], uuid, handlers);
      (s', r.sent + rest)
  }

  /** `toReserveNum` is never set to the number of products, so from a count of zero or less
      (a fresh saga has zero) it only goes down: whatever creation and reservation events
      arrive, the saga sends nothing but reservation commands, and never pays, rolls back or
      cancels. */
  lemma {:induction false} ReservationNeverFinishes<CH>(s: OrderSagaState, es: seq<Event>, uuid: Result<int>, handlers: map<CommandName, CH>)
    requires s.toReserveNum <= 0
    requires forall i :: 0 <= i < |es| ==>
      es[i].topic in {OrderCreatedEventTopic, ProductReservedEventTopic, ProductReserveFailedEventTopic}
    ensures ReactAll(s, es, uuid, handlers).0.toReserveNum <= s.toReserveNum
    ensures forall c :: c in ReactAll(s, es, uuid, handlers).1 ==> c.MakeReservationCmd?
    decreases |es|
  {
    if es != [] {
      var r := React(s, es[0], uuid, handlers);
      assert r.state.toReserveNum <= s.toReserveNum;
      assert forall c :: c in r.sent ==> c.MakeReservationCmd?;
      ReservationNeverFinishes(r.state, es[1..], uuid, handlers);
    }
  }

  /** The loop of the `OrderCreatedEvent` branch: one reservation per product sent, in order,
      answers ignored. */
  method SendReservations<CH>(bus: LocalCommandBus<CH>, orderId: string, productIds: seq<string>)
    modifies bus
    ensures bus.launched == old(bus.launched) + LaunchesOf(old(bus.handlers), Reservations(orderId, productIds))
    ensures bus.handlers == old(bus.handlers)
  {
    var i := 0;
    while i < |productIds|
      invariant 0 <= i <= |productIds|
      invariant bus.handlers == old(bus.handlers)
      invariant bus.launched == old(bus.launched) + LaunchesOf(bus.handlers, Reservations(orderId, productIds[..i]))
    {
      var cmd := MakeReservationCmd(orderId, productIds[i], 1);
      assert Reservations(orderId, productIds[..i + 1]) == Reservations(orderId, productIds[..i]) + [cmd];
      LaunchesOfAppend(bus.handlers, Reservations(orderId, productIds[..i]), [cmd]);
      var _ := bus.HandleCommand(cmd);
      i := i + 1;
    }
    assert productIds[..i] == productIds;
  }

  /** The example saga: `*BaseSaga` plus the fields above. */
  class OrderSaga {
    const base: BaseSaga
    var OrderId: string
    var BuyerId: string
    var TotalPrice: int
    var AllProducts: seq<string>
    var ReservedProducts: seq<string>
    var ReserveFailedProducts: seq<string>
    var toReserveNum: int
    var needRollBack: bool

    function State(): OrderSagaState
      reads this
    {
      OrderSagaState(OrderId, BuyerId, TotalPrice, AllProducts, ReservedProducts, ReserveFailedProducts,
        toReserveNum, needRollBack)
    }

    /** `NewOrderSaga(sagaType, sagaIdentity)`: a saga not yet started, every field zero. */
    constructor (sagaType: string, sagaIdentity: string)
      ensures fresh(base) && base.sagaId == sagaIdentity && base.sagaType == sagaType && !base.isAlive
      ensures State() == FreshOrderSaga
    {
      base := new BaseSaga(sagaIdentity, sagaType);
      OrderId := "";
      BuyerId := "";
      TotalPrice := 0;
      AllProducts := [];
      ReservedProducts := [];
      ReserveFailedProducts := [];
      toReserveNum := 0;
      needRollBack := false;
    }

    /** `HandleSagaEvent(event, bus)`: fields, sent commands and answer as `React` says. */
    method HandleSagaEvent<CH>(event: Event, bus: LocalCommandBus<CH>, uuid: Result<int>) returns (o: Outcome)
      modifies this, bus
      ensures var r := React(old(State()), event, uuid, old(bus.handlers));
        && State() == r.state && o == r.result
        && bus.launched == old(bus.launched) + LaunchesOf(old(bus.handlers), r.sent)
        && bus.handlers == old(bus.handlers)
    {
      if event.topic == OrderCreatedEventTopic {
        o := OnOrderCreated(event, bus, uuid);
      } else if event.topic == ProductReservedEventTopic || event.topic == ProductReserveFailedEventTopic {
        o := OnReservation(event, bus, uuid);
      } else if event.topic == OrderPayedEventTopic {
        var decoded := DecodeOrderPayed(event.data);
        if decoded.Err? {
          return Fail(decoded.error);
        }
        o := bus.HandleCommand(OrderConfirmedCmd(OrderId));
      } else if event.topic == OrderPayFailedEventTopic {
        o := OnPayFailed(event, bus, uuid);
      } else {
        o := Pass;
      }
    }

    /** The `OrderCreatedEvent` branch. */
    method OnOrderCreated<CH>(event: Event, bus: LocalCommandBus<CH>, uuid: Result<int>) returns (o: Outcome)
      requires event.topic == OrderCreatedEventTopic
      modifies this, bus
      ensures var r := React(old(State()), event, uuid, old(bus.handlers));
        && State() == r.state && o == r.result
        && bus.launched == old(bus.launched) + LaunchesOf(old(bus.handlers), r.sent)
        && bus.handlers == old(bus.handlers)
    {
      var decoded := DecodeOrderCreated(event.data);
      if decoded.Err? {
        return Fail(decoded.error);
      }
      var evt := decoded.value;
      OrderId := evt.orderId;
      AllProducts := evt.productIds;
      BuyerId := evt.buyerId;
      TotalPrice := evt.totalPrice;
      SendReservations(bus, evt.orderId, evt.productIds);
      o := Pass;
    }

    /** The `ProductReservedEvent` and `ProductReserveFailedEvent` branches. */
    method OnReservation<CH>(event: Event, bus: LocalCommandBus<CH>, uuid: Result<int>) returns (o: Outcome)
      requires event.topic == ProductReservedEventTopic || event.topic == ProductReserveFailedEventTopic
      modifies this, bus
      ensures var r := React(old(State()), event, uuid, old(bus.handlers));
        && State() == r.state && o == r.result
        && bus.launched == old(bus.launched) + LaunchesOf(old(bus.handlers), r.sent)
        && bus.handlers == old(bus.handlers)
    {
      if event.topic == ProductReservedEventTopic {
        var decoded := DecodeProductReserved(event.data);
        if decoded.Err? {
          return Fail(decoded.error);
        }
        var evt := decoded.value;
        if evt.productId !in ReservedProducts {
          ReservedProducts := ReservedProducts + [evt.productId];
        }
      } else {
        needRollBack := true;
        var decoded := DecodeProductReserveFailed(event.data);
        if decoded.Err? {
          return Fail(decoded.error);
        }
        var evt := decoded.value;
        if evt.productId !in ReserveFailedProducts {
          ReserveFailedProducts := ReserveFailedProducts + [evt.productId];
        }
      }
      toReserveNum := toReserveNum - 1;
      if toReserveNum == 0 {
        o := FinishReservation(bus, uuid);
      } else {
        o := Pass;
      }
    }

    /** The `OrderPayFailedEvent` branch. */
    method OnPayFailed<CH>(event: Event, bus: LocalCommandBus<CH>, uuid: Result<int>) returns (o: Outcome)
      requires event.topic == OrderPayFailedEventTopic
      modifies this, bus
      ensures var r := React(old(State()), event, uuid, old(bus.handlers));
        && State() == r.state && o == r.result
        && bus.launched == old(bus.launched) + LaunchesOf(old(bus.handlers), r.sent)
        && bus.handlers == old(bus.handlers)
    {
      needRollBack := true;
      var decoded := DecodeOrderPayFailed(event.data);
      if decoded.Err? {
        return Fail(decoded.error);
      }
      RollBackOrder(bus);
      var cancel := CancelOrderCmd(OrderId, "Pay Order Failed");
      LaunchesOfAppend(old(bus.handlers), RollBacks(OrderId, ReservedProducts), [cancel]);
      var _ := bus.HandleCommand(cancel);
      o := Pass;
    }

    /** `FinishReservation(bus)`, as `Finish` says. */
    method FinishReservation<CH>(bus: LocalCommandBus<CH>, uuid: Result<int>) returns (o: Outcome)
      modifies bus
      ensures var r := Finish(State(), uuid, old(bus.handlers));
        && o == r.result
        && bus.launched == old(bus.launched) + LaunchesOf(old(bus.handlers), r.sent)
        && bus.handlers == old(bus.handlers)
    {
      if needRollBack {
        RollBackOrder(bus);
        var cancel := CancelOrderCmd(OrderId, "Reserve Product Failed");
        LaunchesOfAppend(bus.handlers, RollBacks(OrderId, ReservedProducts), [cancel]);
        var _ := bus.HandleCommand(cancel);
        o := Pass;
      } else {
        match uuid {
          case Err(e) =>
            return Fail(e);
          case Ok(pid) =>
            var cmd := PayOrderCmd(FormatInt(pid), OrderId, BuyerId, TotalPrice);
            o := bus.HandleCommand(cmd);
        }
      }
    }

    /** `RollBackOrder(bus)`: one rollback per reserved product, in order; answers ignored. */
    method RollBackOrder<CH>(bus: LocalCommandBus<CH>)
      modifies bus
      ensures bus.launched == old(bus.launched) + LaunchesOf(old(bus.handlers), RollBacks(OrderId, ReservedProducts))
      ensures bus.handlers == old(bus.handlers)
    {
      var i := 0;
      while i < |ReservedProducts|
        invariant 0 <= i <= |ReservedProducts|
        invariant bus.handlers == old(bus.handlers)
        invariant bus.launched == old(bus.launched) + LaunchesOf(bus.handlers, RollBacks(OrderId, ReservedProducts[..i]))
      {
        var cmd := RollBackReservationCmd(OrderId, ReservedProducts[i], 1);
        assert RollBacks(OrderId, ReservedProducts[..i + 1]) == RollBacks(OrderId, ReservedProducts[..i]) + [cmd];
        LaunchesOfAppend(bus.handlers, RollBacks(OrderId, ReservedProducts[..i]), [cmd]);
        var _ := bus.HandleCommand(cmd);
        i := i + 1;
      }
      assert ReservedProducts[..i] == ReservedProducts;
    }
  }
}
