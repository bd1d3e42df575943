/** The example domain's event topics and payload structs (example/domain/events.go).
    An event's payload is a Go `interface{}`; the model closes it over the five payload structs
    the example publishes plus `Opaque` for any other value. Prices, amounts and balances are
    `float32` in the source and are only copied and compared, so they are integers here;
    `time.Time` values are opaque integers. */
module DomainEvents {
  import opened Wrappers

  type Topic = string
  type Time = int

  const OrderCreatedEventTopic: Topic := "OrderCreatedEvent"
  const ProductReservedEventTopic: Topic := "ProductReservedEvent"
  const ProductReserveFailedEventTopic: Topic := "ProductReserveFailedEvent"
  const OrderPayedEventTopic: Topic := "OrderPayedEvent"
  const OrderPayFailedEventTopic: Topic := "OrderPayFailedEvent"
  const OrderConfirmedEventTopic: Topic := "OrderConfirmedEvent"
  const OrderCanceledEventTopic: Topic := "OrderCanceledEvent"

  datatype Payload =
    | OrderCreatedEvent(orderId: string, buyerId: string, totalPrice: int, productIds: seq<string>)
    | ProductReservedEvent(productId: string, orderId: string, count: int)
    | ProductReserveFailedEvent(productId: string, orderId: string, count: int, reason: string)
    | OrderPayedEvent(paymentId: string, orderId: string, amount: int, time: Time)
    | OrderPayFailedEvent(paymentId: string, orderId: string, reason: string, time: Time)
    | Opaque(raw: string)

  /* `mapstructure.Decode(data, new(X))` for each payload struct X, as the aggregates and the
     saga call it: an abstraction that succeeds exactly on a payload of that shape. */
  function DecodeOrderCreated(p: Payload): (r: Result<Payload>)
  {
    if p.OrderCreatedEvent? then Ok(p) else Err(DecodeFailed)
  }

  function DecodeProductReserved(p: Payload): (r: Result<Payload>)
  {
    if p.ProductReservedEvent? then Ok(p) else Err(DecodeFailed)
  }

  function DecodeProductReserveFailed(p: Payload): (r: Result<Payload>)
  {
    if p.ProductReserveFailedEvent? then Ok(p) else Err(DecodeFailed)
  }

  function DecodeOrderPayed(p: Payload): (r: Result<Payload>)
  {
    if p.OrderPayedEvent? then Ok(p) else Err(DecodeFailed)
  }

  function DecodeOrderPayFailed(p: Payload): (r: Result<Payload>)
  {
    if p.OrderPayFailedEvent? then Ok(p) else Err(DecodeFailed)
  }
}
