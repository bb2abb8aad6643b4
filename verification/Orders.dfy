/** Orders of the exchange core (exchange/core/order.py). */
module Orders {
  import opened Wrappers

  datatype Side = BUY | SELL {
    function Opposite(): Side { if BUY? then SELL else BUY }
  }
  datatype OrderType = LIMIT | MARKET | ICEBERG | PEG | TP | SL
  datatype TimeInForce = GTC | GTD | IOC | FOK

  /** The fields of an order that nothing in the core ever changes. */
  datatype Ticket = Ticket(id: string, exchangeId: int, side: Side, kind: OrderType, qty: int,
                           price: Option<int>, tif: TimeInForce, sub: string)

  /** A snapshot of an order: its ticket, its fill counter and its arrival tag. */
  datatype Lot = Lot(t: Ticket, filled: int, arrival: nat) {
    function Remaining(): int { Max(0, t.qty - filled) }
  }

  /** Why a call raised, if it did. */
  datatype Raised = Fine | ValueError | AssertionError | AttributeError

  /** What `validate` accepts; its overfill test can never fail, `remaining` being clamped at 0. */
  predicate Validates(t: Ticket) {
    t.qty > 0 && (t.kind != MARKET ==> t.price.Some? && 1 <= t.price.value <= 99)
  }

  class Order {
    const ticket: Ticket
    var filled: int
    var arrival: nat

    constructor (t: Ticket)
      ensures ticket == t && filled == 0 && arrival == 0
    {
      ticket, filled, arrival := t, 0, 0;
    }

    function Snap(): Lot
      reads this
    {
      Lot(ticket, filled, arrival)
    }

    function Remaining(): int
      reads this
    {
      Max(0, ticket.qty - filled)
    }

    function Validate(): (err: Raised)
      ensures err == if Validates(ticket) then Fine else ValueError
    {
      if ticket.qty <= 0 then ValueError
      else if ticket.kind != MARKET && (ticket.price.None? || !(1 <= ticket.price.value <= 99)) then ValueError
      else Fine
    }
  }
}
