/** The example domain's commands (example/domain/commands.go) and the three aggregate type
    names they target (the `...AggregateType` variables of the three example aggregate files).
    The framework's `Command` interface (command.go) only asks for `Name`, `TargetAggregateType`
    and `TargetIdentity`; the model closes it over the six example commands plus `OtherCmd`,
    which stands for any other implementation of the interface. */
module DomainCommands {

  type CommandName = string
  type AggregateType = string

  const OrderAggregateType: AggregateType := "OrderAggregate"
  const StockAggregateType: AggregateType := "StockAggregate"
  const PaymentAggregateType: AggregateType := "PaymentAggregate"

  datatype Command =
    | CreateOrderCmd(orderId: string, buyerId: string, price: int, goods: seq<string>)
    | CancelOrderCmd(orderId: string, reason: string)
    | MakeReservationCmd(orderId: string, productId: string, count: int)
    | RollBackReservationCmd(orderId: string, productId: string, count: int)
    | PayOrderCmd(paymentId: string, orderId: string, buyerId: string, amount: int)
    | OrderConfirmedCmd(orderId: string)
    | OtherCmd(name: CommandName, targetType: AggregateType, targetId: string)
  {
    function Name(): CommandName
    {
      match this
      case CreateOrderCmd(_, _, _, _) => "CreateOrderCmd"
      case CancelOrderCmd(_, _) => "CancelOrderCmd"
      case MakeReservationCmd(_, _, _) => "MakeReservationCmd"
      case RollBackReservationCmd(_, _, _) => "RollBackReservationCmd"
      case PayOrderCmd(_, _, _, _) => "PayOrderCmd"
      case OrderConfirmedCmd(_) => "OrderConfirmedCmd"
      case OtherCmd(n, _, _) => n
    }

    function TargetAggregateType(): AggregateType
    {
      match this
      case CreateOrderCmd(_, _, _, _) => OrderAggregateType
      case CancelOrderCmd(_, _) => OrderAggregateType
      case OrderConfirmedCmd(_) => OrderAggregateType
      case MakeReservationCmd(_, _, _) => StockAggregateType
      case RollBackReservationCmd(_, _, _) => StockAggregateType
      case PayOrderCmd(_, _, _, _) => PaymentAggregateType
      case OtherCmd(_, t, _) => t
    }

    function TargetIdentity(): string
    {
      match this
      case CreateOrderCmd(o, _, _, _) => o
      case CancelOrderCmd(o, _) => o
      case OrderConfirmedCmd(o) => o
      case MakeReservationCmd(_, p, _) => p
      case RollBackReservationCmd(_, p, _) => p
      case PayOrderCmd(p, _, _, _) => p
      case OtherCmd(_, _, id) => id
    }

    /** One of the six commands the example domain declares. */
    predicate IsDomainCommand()
    {
      !OtherCmd?
    }
  }

  /** Two commands of the same struct type, whatever their field values. */
  predicate SameKind(a: Command, b: Command)
  {
    match (a, b)
    case (CreateOrderCmd(_, _, _, _), CreateOrderCmd(_, _, _, _)) => true
    case (CancelOrderCmd(_, _), CancelOrderCmd(_, _)) => true
    case (MakeReservationCmd(_, _, _), MakeReservationCmd(_, _, _)) => true
    case (RollBackReservationCmd(_, _, _), RollBackReservationCmd(_, _, _)) => true
    case (PayOrderCmd(_, _, _, _), PayOrderCmd(_, _, _, _)) => true
    case (OrderConfirmedCmd(_), OrderConfirmedCmd(_)) => true
    case (OtherCmd(n, t, _), OtherCmd(n', t', _)) => n == n' && t == t'
    case _ => false
  }

  /** The zero-valued prototypes `init` registers, in registration order
      (example/domain/commands.go:116-121). */
  const Prototypes: seq<Command> := [
    CreateOrderCmd("", "", 0, []),
    CancelOrderCmd("", ""),
    MakeReservationCmd("", "", 0),
    RollBackReservationCmd("", "", 0),
    PayOrderCmd("", "", "", 0),
    OrderConfirmedCmd("")
  ]

  /** The routing of every example command: Order commands go to the order aggregate keyed by
      `OrderId`, stock commands to the stock aggregate keyed by `ProductId`, payment to the payment
      aggregate keyed by `PaymentId`. */
  lemma CommandRouting(c: Command)
    requires c.IsDomainCommand()
    ensures (c.CreateOrderCmd? || c.CancelOrderCmd? || c.OrderConfirmedCmd?) ==>
              c.TargetAggregateType() == OrderAggregateType && c.TargetIdentity() == c.orderId
    ensures (c.MakeReservationCmd? || c.RollBackReservationCmd?) ==>
              c.TargetAggregateType() == StockAggregateType && c.TargetIdentity() == c.productId
    ensures c.PayOrderCmd? ==>
              c.TargetAggregateType() == PaymentAggregateType && c.TargetIdentity() == c.paymentId
    ensures c.TargetAggregateType() in {OrderAggregateType, StockAggregateType, PaymentAggregateType}
  {
  }

  /** A command's name and target type depend only on its struct type, never on its field values. */
  lemma NameIgnoresFields(a: Command, b: Command)
    requires SameKind(a, b)
    ensures a.Name() == b.Name()
    ensures a.TargetAggregateType() == b.TargetAggregateType()
  {
  }

  /** The six example commands have pairwise distinct names, so no two of them collide in
      a name-keyed registry. */
  lemma DomainNamesDistinct(a: Command, b: Command)
    requires a.IsDomainCommand() && b.IsDomainCommand()
    ensures a.Name() == b.Name() <==> SameKind(a, b)
  {
  }

  /** The six prototypes are one per command type, with six distinct names. */
  lemma PrototypeNamesDistinct()
    ensures |Prototypes| == 6
    ensures forall i, j :: 0 <= i < j < |Prototypes| ==> Prototypes[i].Name() != Prototypes[j].Name()
    ensures forall i :: 0 <= i < |Prototypes| ==> Prototypes[i].IsDomainCommand()
  {
  }
}
