/** The saga handlers a manager can run (the `SagaHandler` interface of saga.go, closed over
    its two implementations): the example's `OrderSaga`, and a `SagaFuncHandler`, a bare
    function that is always alive. A saga factory is a tag plus `Build`, which allocates. */
module SagaHandlers {
  import opened Wrappers
  import opened DomainCommands
  import opened Events
  import opened LocalCommandBus
  import opened SagaBase
  import opened OrderSagas

  /** A `SagaFuncHandler`'s function sees the event only; what it would send on the bus it is
      handed is not part of this model. */
  datatype SagaHandler =
    | OrderSagaHandler(saga: OrderSaga)
    | FuncSaga(handle: Event -> Outcome)
  {
    /** The objects the handler's state lives in. */
    function Repr(): set<object>
    {
      match this
      case OrderSagaHandler(s) => {s, s.base}
      case FuncSaga(_) => {}
    }

    function SagaIdentity(): string
    {
      match this
      case OrderSagaHandler(s) => s.base.sagaId
      case FuncSaga(_) => FuncHandlerName
    }

    function SagaType(): string
    {
      match this
      case OrderSagaHandler(s) => s.base.sagaType
      case FuncSaga(_) => FuncHandlerName
    }

    /** A function handler is always alive. */
    predicate IsAlive()
      reads Repr()
    {
      match this
      case OrderSagaHandler(s) => s.base.isAlive
      case FuncSaga(_) => true
    }
  }

  /** `StartSaga`: an order saga becomes alive, a function handler does nothing. */
  method StartSaga(h: SagaHandler)
    modifies h.Repr()
    ensures h.IsAlive()
    ensures h.OrderSagaHandler? ==> h.saga.State() == old(h.saga.State())
  {
    match h {
      case OrderSagaHandler(s) =>
        s.base.StartSaga();
      case FuncSaga(_) =>
    }
  }

  /** `EndSaga`: an order saga stops being alive, a function handler does nothing. */
  method EndSaga(h: SagaHandler)
    modifies h.Repr()
    ensures h.OrderSagaHandler? ==> !h.IsAlive() && h.saga.State() == old(h.saga.State())
  {
    match h {
      case OrderSagaHandler(s) =>
        s.base.EndSaga();
      case FuncSaga(_) =>
    }
  }

  /** `HandleSagaEvent(e, bus)`: an order saga reacts as `React` says and keeps its liveness; a
      function handler returns what its function returns and sends nothing. */
  method HandleSagaEvent<CH>(h: SagaHandler, e: Event, bus: LocalCommandBus<CH>, uuid: Result<int>) returns (o: Outcome)
    modifies h.Repr(), bus
    ensures bus.handlers == old(bus.handlers)
    ensures h.OrderSagaHandler? ==>
      var r := React(old(h.saga.State()), e, uuid, old(bus.handlers));
      && h.saga.State() == r.state && o == r.result
      && bus.launched == old(bus.launched) + LaunchesOf(old(bus.handlers), r.sent)
      && h.saga.base.isAlive == old(h.saga.base.isAlive)
    ensures h.FuncSaga? ==> o == h.handle(e) && bus.launched == old(bus.launched)
  {
    match h {
      case OrderSagaHandler(s) =>
        o := s.HandleSagaEvent(e, bus, uuid);
      case FuncSaga(f) =>
        o := f(e);
    }
  }

  /** A `SagaFactory`: `NewOrderSaga`, or a factory handing out one function handler. */
  datatype SagaFactory =
    | OrderSagaFactory
    | FuncSagaFactory(handle: Event -> Outcome)

  /** Calling the factory with a saga type and identity. */
  method Build(f: SagaFactory, sagaType: string, sagaIdentity: string) returns (h: SagaHandler)
    ensures f.OrderSagaFactory? ==>
      && h.OrderSagaHandler? && fresh(h.saga) && fresh(h.saga.base)
      && h.SagaIdentity() == sagaIdentity && h.SagaType() == sagaType
      && !h.IsAlive() && h.saga.State() == FreshOrderSaga
    ensures f.FuncSagaFactory? ==> h == FuncSaga(f.handle)
  {
    match f {
      case OrderSagaFactory =>
        var s := new OrderSaga(sagaType, sagaIdentity);
        h := OrderSagaHandler(s);
      case FuncSagaFactory(g) =>
        h := FuncSaga(g);
    }
  }
}
