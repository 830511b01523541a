/**
 The order manager as a state machine on values.

 Orders are identified by the serial number of their submission. `book` keeps every order ever
 created, so it still holds the record of an order whose pool slot has long been reused; `table`
 says which serial each allocated slot holds. `births`, `recycles` and `ledger` are history: the
 generation of a slot is its number of releases modulo 2^16, and `ledger` lists the accepted fills.
 */
module OrderManagerSpec {
  import opened OrderIds
  import opened Orders

  /** Terminal orders keep their slot until this many younger ones have retired. */
  const RETIRED_GRACE: nat := 4096

  datatype FillEntry = FillEntry(
    order: nat, id: OrderId, trade: nat, instrument: nat, side: Side, qty: int, price: int)

  datatype Counters = Counters(
    rejects: nat, ackTimeouts: nat, unsolicited: nat, dropped: nat, unknownFills: nat,
    falseCancelRejects: nat)

  datatype Oms = Oms(
    book: seq<Order>, births: seq<nat>, ledger: seq<FillEntry>,
    table: map<nat, nat>, recycles: seq<nat>, free: seq<nat>,
    positions: map<nat, Position>, pending: map<nat, int>, venueSeq: map<nat, nat>,
    trades: map<OrderId, set<nat>>, live: set<OrderId>, benign: set<OrderId>, retired: seq<OrderId>,
    killed: bool, incomplete: bool, reconcile: bool, hardstop: nat, counts: Counters)

  /** Indices stay in range, so that every lookup below is defined. */
  ghost predicate Shape(s: Oms) {
    && |s.births| == |s.book|
    && (forall k :: k in s.table ==> k < |s.recycles| && s.table[k] < |s.book|)
    && (forall j :: 0 <= j < |s.free| ==> s.free[j] < |s.recycles|)
  }

  ghost function Init(capacity: nat, hardstop: nat): Oms {
    Oms([], [], [], map[], seq(capacity, _ => 0), seq(capacity, i => capacity - 1 - i),
        map[], map[], map[], map[], {}, {}, [], false, false, false, hardstop,
        Counters(0, 0, 0, 0, 0, 0))
  }

  // ---- queries ----

  function PositionOf(s: Oms, inst: nat): Position {
    if inst in s.positions then s.positions[inst] else FLAT
  }

  function PendingOf(s: Oms, inst: nat): int {
    if inst in s.pending then s.pending[inst] else 0
  }

  /** target - (position + pending) */
  function ExecutionDelta(s: Oms, inst: nat, target: int): int {
    target - (PositionOf(s, inst).net + PendingOf(s, inst))
  }

  function TradesOf(s: Oms, id: OrderId): set<nat> {
    if id in s.trades then s.trades[id] else {}
  }

  /** The id's slot is allocated and its generation matches; venue and sequence are not compared. */
  predicate IsCurrent(s: Oms, id: OrderId) {
    id.slot in s.table && id.slot < |s.recycles| && s.recycles[id.slot] % GENERATIONS == id.generation
  }

  function OrderOf(s: Oms, id: OrderId): Order
    requires Shape(s) && IsCurrent(s, id)
  {
    s.book[s.table[id.slot]]
  }

  /** The guards every inbound event passes, in the source's order. */
  function Validate(s: Oms, e: Inbound): ValidationResult
    requires Shape(s)
  {
    if !IsCurrent(s, e.id) then UnknownOrder
    else if IsTerminal(OrderOf(s, e.id).status) then TerminalState
    else if e.FillReport? && e.trade in TradesOf(s, e.id) then DuplicateTrade
    else if e.FillReport? && (e.qty <= 0 || e.price <= 0) then FieldMismatch
    else if e.FillReport? && e.qty > OrderOf(s, e.id).Remaining() then FieldMismatch
    else Accepted
  }

  // ---- state changes shared by the handlers ----

  function Amend(s: Oms, id: OrderId, o: Order): Oms
    requires Shape(s) && IsCurrent(s, id)
  {
    s.(book := s.book[s.table[id.slot] := o])
  }

  function Drop(s: Oms): Oms {
    s.(counts := s.counts.(dropped := s.counts.dropped + 1))
  }

  function Pend(s: Oms, inst: nat, signed: int): Oms {
    s.(pending := s.pending[inst := PendingOf(s, inst) + signed])
  }

  /** Leave the live index and join the grace queue. */
  function Shelve(s: Oms, id: OrderId): Oms {
    s.(live := s.live - {id}, trades := s.trades - {id}, retired := s.retired + [id])
  }

  function Release(s: Oms, slot: nat): Oms
    requires slot < |s.recycles|
  {
    s.(table := s.table - {slot}, recycles := s.recycles[slot := s.recycles[slot] + 1],
       free := s.free + [slot])
  }

  /** Free the oldest retired order once the grace queue is over its bound. */
  function Evict(s: Oms): Oms {
    if |s.retired| <= RETIRED_GRACE then s
    else
      var oldest := s.retired[0];
      var s1 := s.(retired := s.retired[1..], benign := s.benign - {oldest});
      if IsCurrent(s1, oldest) then Release(s1, oldest.slot) else s1
  }

  function Retire(s: Oms, id: OrderId, inst: nat, remaining: int, side: Side): Oms {
    var s1 := if remaining > 0 then Pend(s, inst, -SignedQty(side, remaining)) else s;
    Evict(Shelve(s1, id))
  }

  /** Put the order in its terminal status and retire it. */
  function Close(s: Oms, id: OrderId, o: Order): Oms
    requires Shape(s) && IsCurrent(s, id)
  {
    Retire(Amend(s, id, o), id, o.instrument, o.Remaining(), o.side)
  }

  // ---- inbound handlers ----

  function OnConfirm(s: Oms, e: Inbound): Oms
    requires Shape(s) && e.Confirm?
  {
    if Validate(s, e) != Accepted then Drop(s)
    else
      var o := OrderOf(s, e.id);
      if o.status.New? || o.status.Sent? then Amend(s, e.id, o.(status := Confirmed)) else s
  }

  /** The order record after a fill of `qty` at `price`. */
  function FilledBy(o: Order, qty: int, price: int): Order {
    var filled := o.filled + qty;
    o.(filled := filled, notional := o.notional + qty * price,
       status := if filled == o.size then Filled else PartiallyFilled)
  }

  /** Record, position and pending quantity move together, before any subscriber runs. */
  function Account(s: Oms, e: Inbound): Oms
    requires Shape(s) && e.FillReport? && IsCurrent(s, e.id)
  {
    var o := OrderOf(s, e.id);
    var signed := SignedQty(o.side, e.qty);
    var entry := FillEntry(s.table[e.id.slot], e.id, e.trade, o.instrument, o.side, e.qty, e.price);
    var s1 := Amend(s, e.id, FilledBy(o, e.qty, e.price));
    Pend(s1, o.instrument, -signed).(
      ledger := s.ledger + [entry],
      trades := s.trades[e.id := TradesOf(s, e.id) + {e.trade}],
      positions := s.positions[o.instrument := PositionOf(s, o.instrument).Apply(signed, e.price)])
  }

  function OnFill(s: Oms, e: Inbound): Oms
    requires Shape(s) && e.FillReport?
  {
    var v := Validate(s, e);
    if v == UnknownOrder then
      var n := s.counts.unknownFills + 1;
      Drop(s).(counts := Drop(s).counts.(unknownFills := n), reconcile := true,
               killed := s.killed || n > s.hardstop)
    else if v != Accepted then Drop(s)
    else
      var o := OrderOf(s, e.id);
      var s1 := Account(s, e);
      if o.filled + e.qty != o.size then s1
      else
        var s2 := if !o.pendingCancel then s1
                  else s1.(benign := s1.benign + {e.id},
                           counts := s1.counts.(falseCancelRejects := s1.counts.falseCancelRejects + 1));
        Retire(s2, e.id, o.instrument, 0, o.side)
  }

  function CountReject(s: Oms): Oms {
    s.(counts := s.counts.(rejects := s.counts.rejects + 1))
  }

  /** A cancel could not be applied: benign after a fill won the race, else the order works on. */
  function OnCancelReject(s: Oms, e: Inbound): Oms
    requires Shape(s) && e.CancelReject?
  {
    if e.id in s.benign then s.(benign := s.benign - {e.id})
    else if Validate(s, e) != Accepted then Drop(s)
    else
      var o := OrderOf(s, e.id);
      var status := if o.filled > 0 then PartiallyFilled else Confirmed;
      CountReject(Amend(s, e.id, o.(pendingCancel := false, status := status)))
  }

  function OnPlaceReject(s: Oms, e: Inbound): Oms
    requires Shape(s) && e.PlaceReject?
  {
    if Validate(s, e) != Accepted then Drop(s)
    else Close(CountReject(s), e.id, OrderOf(s, e.id).(status := Rejected))
  }

  function OnCancelled(s: Oms, e: Inbound): Oms
    requires Shape(s) && (e.CancelAck? || e.Unsolicited?)
  {
    if Validate(s, e) != Accepted then Drop(s)
    else
      var s1 := if e.Unsolicited? then s.(counts := s.counts.(unsolicited := s.counts.unsolicited + 1))
                else s;
      Close(s1, e.id, OrderOf(s, e.id).(pendingCancel := false, status := Cancelled))
  }

  function Receive(s: Oms, e: Inbound): Oms
    requires Shape(s)
  {
    match e
    case Confirm(_) => OnConfirm(s, e)
    case FillReport(_, _, _, _) => OnFill(s, e)
    case PlaceReject(_) => OnPlaceReject(s, e)
    case CancelReject(_) => OnCancelReject(s, e)
    case CancelAck(_) => OnCancelled(s, e)
    case Unsolicited(_) => OnCancelled(s, e)
  }

  /** The event published to subscribers, with the order record they can look up. */
  function NoticeOf(s: Oms, e: Inbound): Notice
    requires Shape(s)
  {
    if Validate(s, e) != Accepted then Silent
    else
      var o := OrderOf(s, e.id);
      match e
      case Confirm(_) =>
        Published(ConfirmedEvent, if o.status.New? || o.status.Sent? then o.(status := Confirmed) else o, 0, 0)
      case FillReport(_, qty, price, _) =>
        var o' := FilledBy(o, qty, price);
        Published(if o'.status.Filled? then FillEvent else PartialFillEvent, o', qty, price)
      case PlaceReject(_) => Published(RejectedEvent, o.(status := Rejected), 0, 0)
      case CancelReject(_) => Silent
      case CancelAck(_) => Published(CancelledEvent, o.(pendingCancel := false, status := Cancelled), 0, 0)
      case Unsolicited(_) => Published(UnsolicitedEvent, o.(pendingCancel := false, status := Cancelled), 0, 0)
  }

  // ---- strategy-facing operations ----

  function CancelSent(o: Order): Order {
    o.(pendingCancel := true, status := SentCancel)
  }

  /** `sent`: the order's client exists and its cancel_order returned Ok. */
  function CancelAccepted(s: Oms, id: OrderId, sent: bool): bool
    requires Shape(s)
  {
    IsCurrent(s, id) && !IsTerminal(OrderOf(s, id).status) && sent
  }

  function Cancel(s: Oms, id: OrderId, sent: bool): Oms
    requires Shape(s)
  {
    if CancelAccepted(s, id, sent) then Amend(s, id, CancelSent(OrderOf(s, id))) else s
  }

  /** All-down policy, per order: cancel it unless a cancel is already in flight. */
  function WorkingCancelled(o: Order, accepts: set<OrderId>): Order {
    if !IsTerminal(o.status) && !o.pendingCancel && o.id in accepts then CancelSent(o) else o
  }

  /** `accepts`: the ids whose client is connected and answers Ok to cancel_order. */
  function CancelWorking(s: Oms, accepts: set<OrderId>): Oms {
    s.(book := seq(|s.book|, i requires 0 <= i < |s.book| =>
         if s.book[i].id in s.live then WorkingCancelled(s.book[i], accepts) else s.book[i]))
  }

  predicate AckOverdue(o: Order, now: int, timeout: int) {
    !o.ackTimedOut && o.status.Sent? && now - o.sentAt >= timeout
  }

  /** Mode 1, per order: mark it and try a cancel, but leave it live. */
  function TimedOut(o: Order, now: int, timeout: int, accepts: set<OrderId>): Order {
    if !AckOverdue(o, now, timeout) then o
    else if !o.pendingCancel && o.id in accepts then CancelSent(o.(ackTimedOut := true))
    else o.(ackTimedOut := true)
  }

  ghost function Overdue(s: Oms, now: int, timeout: int): set<OrderId>
  {
    set i | 0 <= i < |s.book| && s.book[i].id in s.live && AckOverdue(s.book[i], now, timeout) :: s.book[i].id
  }

  ghost function CheckAckTimeouts(s: Oms, now: int, timeout: int, accepts: set<OrderId>): Oms {
    s.(book := seq(|s.book|, i requires 0 <= i < |s.book| =>
         if s.book[i].id in s.live then TimedOut(s.book[i], now, timeout, accepts) else s.book[i]),
       counts := s.counts.(ackTimeouts := s.counts.ackTimeouts + |Overdue(s, now, timeout)|))
  }

  function VenueSeqOf(s: Oms, venue: nat): nat {
    if venue in s.venueSeq then s.venueSeq[venue] else 0
  }

  /** The id the next submit to `venue` mints. */
  function NextId(s: Oms, venue: nat): OrderId
    requires Shape(s) && |s.free| > 0
  {
    var slot := s.free[|s.free| - 1];
    OrderId(venue, s.recycles[slot] % GENERATIONS, slot, (VenueSeqOf(s, venue) + 1) % SEQUENCES)
  }

  function NewOrder(s: Oms, req: OrderRequest, venue: nat): Order
    requires Shape(s) && |s.free| > 0 && req.workerOffset < SCRATCH_SLOTS
  {
    Order(NextId(s, venue), req.instrument, req.side, req.size, 0, 0, req.price,
          New, false, false, 0, Tagged(req), req.reconciliation)
  }

  /** Take a slot, register the order and reserve its pending quantity. */
  function Register(s: Oms, o: Order): Oms
    requires Shape(s) && |s.free| > 0
  {
    var slot := s.free[|s.free| - 1];
    s.(book := s.book + [o], births := s.births + [s.recycles[slot]],
       table := s.table[slot := |s.book|], free := s.free[..|s.free| - 1],
       positions := s.positions[o.instrument := PositionOf(s, o.instrument)],
       pending := s.pending[o.instrument := PendingOf(s, o.instrument) + SignedQty(o.side, o.size)],
       venueSeq := s.venueSeq[o.id.venue := VenueSeqOf(s, o.id.venue) + 1],
       live := s.live + {o.id})
  }

  predicate ReachesVenue(s: Oms, route: Route) {
    !s.killed && route.Client? && |s.free| > 0
  }

  /** Submit, given the router's and the client's answers, the clock, and the clients' answers to
      the cancels that the all-down policy sends. */
  function Submit(s: Oms, req: OrderRequest, route: Route, now: int, accepts: set<OrderId>): Oms
    requires Shape(s) && req.workerOffset < SCRATCH_SLOTS
  {
    if s.killed then s
    else match route
      case NoVenue => CancelWorking(s.(incomplete := true), accepts)
      case NoClient(_) => s
      case Client(venue, result) =>
        if |s.free| == 0 then s.(killed := true)
        else
          var o := NewOrder(s, req, venue);
          var s1 := Register(s, o);
          if result == Ok then Settle(s1, o.(status := Sent, sentAt := now))
          else Close(CountReject(s1), o.id, o.(status := Rejected))
  }

  /** Write back the record of the order just registered. */
  function Settle(s: Oms, o: Order): Oms
    requires |s.book| > 0
  {
    s.(book := s.book[|s.book| - 1 := o])
  }

  /** The id returned to the caller; None stands for the word 0. */
  function SubmittedId(s: Oms, req: OrderRequest, route: Route): Option<OrderId>
    requires Shape(s)
  {
    if ReachesVenue(s, route) && route.result == Ok then Some(NextId(s, route.venue)) else None
  }
}
