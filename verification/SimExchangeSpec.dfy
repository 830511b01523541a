/**
 The simulated venue as a state machine on values. The priority queue is the set of scheduled
 events; a delivery takes one that no other event precedes in the total order on (at, seq).
 Random draws are parameters, so what is proved holds for every seed.
 */
module SimExchangeSpec {
  import opened OrderIds
  import opened Orders

  datatype SimConfig = SimConfig(
    step: int, ackLatency: int, fillLatency: int, fillGap: int, partialChunks: int, reorder: bool)

  /** `final` marks the last chunk of an order's fills. */
  datatype SimEvent = SimEvent(at: int, seqNo: nat, what: Inbound, final: bool)

  datatype Working = Working(
    instrument: nat, side: Side, size: int, remaining: int, price: int, alive: bool, seen: set<nat>)

  datatype Exchange = Exchange(
    now: int, seqCounter: nat, tradeCounter: nat, queue: set<SimEvent>,
    working: map<OrderId, Working>, positions: map<nat, int>, connected: bool)

  /** The outcomes of the venue's random draws for one order; `duplicates` lists chunk indices. */
  datatype Draws = Draws(reject: bool, unsolicited: bool, duplicates: set<nat>)

  predicate Before(a: SimEvent, b: SimEvent) {
    a.at < b.at || (a.at == b.at && a.seqNo < b.seqNo)
  }

  ghost predicate IsTop(queue: set<SimEvent>, e: SimEvent) {
    e in queue && forall f :: f in queue ==> !Before(f, e)
  }

  function VenuePosition(x: Exchange, inst: nat): int {
    if inst in x.positions then x.positions[inst] else 0
  }

  function Schedule(x: Exchange, at: int, what: Inbound, final: bool): Exchange {
    x.(queue := x.queue + {SimEvent(at, x.seqCounter, what, final)}, seqCounter := x.seqCounter + 1)
  }

  function Chunks(cfg: SimConfig): nat {
    if cfg.partialChunks < 1 then 1 else cfg.partialChunks
  }

  /** When chunk i is delivered, counted from the send. */
  function ChunkDelay(cfg: SimConfig, i: nat): int {
    if cfg.reorder && i == 0 then cfg.ackLatency - 1 else cfg.fillLatency + i * cfg.fillGap
  }

  function ChunkQty(cfg: SimConfig, size: int, i: nat, given: int): int {
    if i == Chunks(cfg) - 1 then size - given else size / Chunks(cfg)
  }

  /** One chunk of an order's fills and, if drawn, its duplicate delivery. */
  function PlaceChunk(cfg: SimConfig, x: Exchange, o: Order, i: nat, qty: int, draws: Draws): Exchange {
    if qty <= 0 then x
    else
      var trade := x.tradeCounter + 1;
      var at := x.now + ChunkDelay(cfg, i);
      var fill := FillReport(o.id, qty, o.price, trade);
      var x1 := Schedule(x.(tradeCounter := trade), at, fill, i == Chunks(cfg) - 1);
      if i in draws.duplicates then Schedule(x1, at + 1, fill, i == Chunks(cfg) - 1) else x1
  }

  /** Chunks i, i+1, ... of an order whose earlier chunks sum to `given`. */
  function PlaceChunks(cfg: SimConfig, x: Exchange, o: Order, i: nat, given: int, draws: Draws): Exchange
    decreases Chunks(cfg) - i
  {
    if i >= Chunks(cfg) then x
    else
      var qty := ChunkQty(cfg, o.size, i, given);
      PlaceChunks(cfg, PlaceChunk(cfg, x, o, i, qty, draws), o, i + 1, given + qty, draws)
  }

  function Accept(x: Exchange, o: Order): Exchange {
    x.(working := x.working[o.id := Working(o.instrument, o.side, o.size, o.size, o.price, true, {})])
  }

  /** place_order of a connected venue. */
  function Place(cfg: SimConfig, x: Exchange, o: Order, draws: Draws): Exchange {
    var x1 := Accept(x, o);
    if draws.reject then Schedule(x1, x.now + cfg.ackLatency, PlaceReject(o.id), false)
    else
      var x2 := Schedule(x1, x.now + cfg.ackLatency, Confirm(o.id), false);
      if draws.unsolicited then
        Schedule(x2, x.now + cfg.ackLatency + cfg.fillLatency, Unsolicited(o.id), false)
      else PlaceChunks(cfg, x2, o, 0, 0, draws)
  }

  function PlaceOrder(cfg: SimConfig, x: Exchange, o: Order, draws: Draws): (Exchange, SendResult) {
    if x.connected then (Place(cfg, x, o, draws), Ok) else (x, TransportDown)
  }

  /** cancel_order of a connected venue: acknowledged if the order still works, else refused. */
  function RequestCancel(cfg: SimConfig, x: Exchange, id: OrderId): Exchange {
    var what := if id in x.working && x.working[id].alive then CancelAck(id) else CancelReject(id);
    Schedule(x, x.now + cfg.ackLatency, what, false)
  }

  /** The venue's own book takes a fill only at the first sighting of its trade id. */
  function BookFill(x: Exchange, id: OrderId, qty: int, trade: nat, final: bool): Exchange
    requires id in x.working
  {
    var w := x.working[id];
    var w1 := w.(seen := w.seen + {trade});
    if trade in w.seen || !w.alive then x.(working := x.working[id := w1])
    else
      var rest := w.remaining - qty;
      x.(working := x.working[id := w1.(remaining := rest, alive := !(final || rest <= 0))],
         positions := x.positions[w.instrument := VenuePosition(x, w.instrument) + SignedQty(w.side, qty)])
  }

  function Kill(x: Exchange, id: OrderId): Exchange {
    if id in x.working then x.(working := x.working[id := x.working[id].(alive := false)]) else x
  }

  /** The venue's side of delivering an event; the sink is called with `e.what`. */
  function DeliverSide(x: Exchange, e: SimEvent): Exchange {
    match e.what
    case Confirm(_) => x
    case FillReport(id, qty, _, trade) => if id in x.working then BookFill(x, id, qty, trade, e.final) else x
    case PlaceReject(id) => Kill(x, id)
    case CancelReject(_) => x
    case CancelAck(id) => Kill(x, id)
    case Unsolicited(id) => Kill(x, id)
  }

  function Pop(x: Exchange, e: SimEvent): Exchange {
    DeliverSide(x.(queue := x.queue - {e}), e)
  }
}
