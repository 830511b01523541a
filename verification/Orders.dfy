/** The value types of the order path: sides, orders, positions, requests and events. */
module Orders {
  import opened OrderIds

  datatype Option<+T> = None | Some(value: T)

  datatype Side = Buy | Sell

  /** Buy counts positive, Sell negative. */
  function SignedQty(side: Side, magnitude: int): int {
    if side == Buy then magnitude else -magnitude
  }

  function Abs(x: int): int {
    if x < 0 then -x else x
  }

  /** Integer division as the source's operator: the quotient is truncated toward zero. */
  function TruncDiv(a: int, b: int): int
    requires b > 0
  {
    if a >= 0 then a / b else -((-a) / b)
  }

  datatype OrderStatus =
    | New | Sent | Confirmed | PartiallyFilled | SentCancel | CancelRejected
    | Filled | Cancelled | Rejected

  predicate IsTerminal(s: OrderStatus) {
    s.Filled? || s.Cancelled? || s.Rejected?
  }

  const SCRATCH_SLOTS: nat := 4

  /** One order record. `intData` is the scratch array an algo stamps its routing tag into. */
  datatype Order = Order(
    id: OrderId, instrument: nat, side: Side, size: int, filled: int, notional: int, price: int,
    status: OrderStatus, pendingCancel: bool, ackTimedOut: bool, sentAt: int,
    intData: seq<int>, reconciliation: bool)
  {
    function Remaining(): int {
      size - filled
    }

    function AvgFillPrice(): int
      requires filled >= 0
    {
      if filled == 0 then 0 else TruncDiv(notional, filled)
    }
  }

  datatype Position = Position(net: int, volume: int, amount: int)
  {
    function Apply(signedQty: int, price: int): Position {
      Position(net + signedQty, volume + Abs(signedQty), amount + signedQty * price)
    }
  }

  const FLAT := Position(0, 0, 0)

  datatype OrderRequest = OrderRequest(
    instrument: nat, side: Side, size: int, price: int,
    workerIndex: int, workerOffset: nat, reconciliation: bool)

  /** The scratch array of a freshly acquired slot after the request's tag is stored. */
  function Tagged(req: OrderRequest): seq<int>
    requires req.workerOffset < SCRATCH_SLOTS
  {
    [0, 0, 0, 0][req.workerOffset := req.workerIndex]
  }

  datatype SendResult = Ok | RejectedLocally | TransportDown | RateLimited | Duplicate

  /** What the router and the registry answer to one submit. */
  datatype Route =
    | NoVenue                                     // every venue is down
    | NoClient(venue: nat)                        // no client registered for the venue
    | Client(venue: nat, result: SendResult)      // the client's answer to place_order

  datatype ValidationResult = Accepted | UnknownOrder | TerminalState | DuplicateTrade | FieldMismatch

  /** The events a venue reports through the sink. */
  datatype Inbound =
    | Confirm(id: OrderId)
    | FillReport(id: OrderId, qty: int, price: int, trade: nat)
    | PlaceReject(id: OrderId)
    | CancelReject(id: OrderId)
    | CancelAck(id: OrderId)
    | Unsolicited(id: OrderId)

  datatype EventKind = ConfirmedEvent | PartialFillEvent | FillEvent | RejectedEvent | CancelledEvent
                     | UnsolicitedEvent

  /** What subscribers see: the event and the order record as it stands when they run. */
  datatype Notice =
    | Silent
    | Published(kind: EventKind, order: Order, lastQty: int, lastPrice: int)
}
