/** The simulated venue as an object, proved against the state machine on values. */
module SimulatedVenue {
  import opened OrderIds
  import opened Orders
  import opened SimExchangeSpec

  /** The venue after delivering `events` one by one. */
  ghost function PopAll(x: Exchange, events: seq<SimEvent>): Exchange {
    if |events| == 0 then x else Pop(PopAll(x, events[..|events| - 1]), events[|events| - 1])
  }

  lemma HandedOn(delivered: seq<SimEvent>, queue: seq<SimEvent>)
    requires |queue| > 0
    ensures delivered + [queue[0]] + queue[1..] == delivered + queue
  {
  }

  lemma PopAllNext(x: Exchange, events: seq<SimEvent>, e: SimEvent)
    ensures PopAll(x, events + [e]) == Pop(PopAll(x, events), e)
  {
    assert (events + [e])[..|events|] == events;
    hide Pop;
  }

  ghost predicate Sorted(q: seq<SimEvent>) {
    forall i, j :: 0 <= i < j < |q| ==> Before(q[i], q[j])
  }

  ghost predicate Numbered(q: seq<SimEvent>, seqCounter: nat) {
    forall i :: 0 <= i < |q| ==> q[i].seqNo < seqCounter
  }

  ghost function Elements(q: seq<SimEvent>): set<SimEvent> {
    set e | e in q
  }

  /** The head of the sorted queue is an event that nothing precedes, and it occurs once. */
  lemma HeadIsTop(q: seq<SimEvent>)
    requires Sorted(q) && |q| > 0
    ensures IsTop(Elements(q), q[0]) && Elements(q[1..]) == Elements(q) - {q[0]}
  {
    forall f | f in q ensures !Before(f, q[0]) {
      var k :| 0 <= k < |q| && q[k] == f;
      assert k > 0 ==> Before(q[0], q[k]);
    }
    forall f | f in q[1..] ensures f != q[0] {
      var k :| 0 <= k < |q[1..]| && q[1..][k] == f;
      assert Before(q[0], q[k + 1]);
    }
    assert q == [q[0]] + q[1..];
  }

  lemma InsertedElements(q: seq<SimEvent>, k: nat, e: SimEvent)
    requires k <= |q|
    ensures Elements(q[..k] + [e] + q[k..]) == Elements(q) + {e}
  {
    assert q == q[..k] + q[k..];
  }

  lemma InsertedSorted(q: seq<SimEvent>, k: nat, e: SimEvent, n: nat)
    requires Sorted(q) && Numbered(q, n) && e.seqNo == n && k <= |q|
    requires (forall j :: 0 <= j < k ==> Before(q[j], e)) && (k < |q| ==> q[k].at > e.at)
    ensures Sorted(q[..k] + [e] + q[k..]) && Numbered(q[..k] + [e] + q[k..], n + 1)
  {
    forall j | k <= j < |q| ensures Before(e, q[j]) {
      assert j > k ==> Before(q[k], q[j]);
    }
  }

  /** Taking the head of a sorted queue while it is due takes exactly the due events, in order. */
  lemma DueDelivered(q0: seq<SimEvent>, delivered: seq<SimEvent>, rest: seq<SimEvent>, now: int)
    requires Sorted(q0) && delivered + rest == q0 && (|rest| > 0 ==> rest[0].at > now)
    requires forall k :: 0 <= k < |delivered| ==> delivered[k].at <= now
    ensures Sorted(delivered)
    ensures forall e :: e in delivered <==> e in Elements(q0) && e.at <= now
  {
    assert delivered == q0[..|delivered|];
    forall k | |delivered| <= k < |q0| ensures q0[k].at > now {
      assert rest[0] == q0[|delivered|];
      assert k > |delivered| ==> Before(q0[|delivered|], q0[k]);
    }
    forall e | e in q0 && e.at <= now ensures e in delivered {
      var k :| 0 <= k < |q0| && q0[k] == e;
      assert k < |delivered| && delivered[k] == e;
    }
  }

  class SimulatedExchange {
    const cfg: SimConfig
    var now: int
    var seqCounter: nat
    var tradeCounter: nat
    var queue: seq<SimEvent>
    var working: map<OrderId, Working>
    var positions: map<nat, int>
    var connected: bool

    ghost predicate Valid() reads this {
      Sorted(queue) && Numbered(queue, seqCounter)
    }

    ghost function View(): Exchange reads this {
      Exchange(now, seqCounter, tradeCounter, Elements(queue), working, positions, connected)
    }

    constructor (cfg: SimConfig, up: bool)
      ensures Valid() && this.cfg == cfg
      ensures View() == Exchange(0, 0, 0, {}, map[], map[], up)
    {
      this.cfg := cfg;
      now, seqCounter, tradeCounter, queue := 0, 0, 0, [];
      working, positions, connected := map[], map[], up;
    }

    /** Insert by (at, seq): a new event goes behind all events due no later. */
    method ScheduleEvent(at: int, what: Inbound, final: bool)
      requires Valid()
      modifies this
      ensures Valid() && View() == Schedule(old(View()), at, what, final)
    {
      var e := SimEvent(at, seqCounter, what, final);
      var k := 0;
      while k < |queue| && queue[k].at <= at
        invariant 0 <= k <= |queue|
        invariant forall j :: 0 <= j < k ==> Before(queue[j], e)
      {
        k := k + 1;
      }
      InsertedElements(queue, k, e);
      InsertedSorted(queue, k, e, seqCounter);
      hide Sorted, Numbered, Elements, Before;
      queue := queue[..k] + [e] + queue[k..];
      seqCounter := seqCounter + 1;
    }

    /** One chunk of an order's fills, delivered twice if the draw says so. */
    method ScheduleChunk(o: Order, i: nat, qty: int, draws: Draws)
      requires Valid()
      modifies this
      ensures Valid() && View() == PlaceChunk(cfg, old(View()), o, i, qty, draws)
    {
      if qty <= 0 { return; }
      var at := now + ChunkDelay(cfg, i);
      var last := i == Chunks(cfg) - 1;
      tradeCounter := tradeCounter + 1;
      var fill := FillReport(o.id, qty, o.price, tradeCounter);
      ScheduleEvent(at, fill, last);
      if i in draws.duplicates {
        ScheduleEvent(at + 1, fill, last);
      }
    }

    /** Split the order into chunks that sum exactly to its size. */
    method ScheduleFills(o: Order, draws: Draws)
      requires Valid()
      modifies this
      ensures Valid() && View() == PlaceChunks(cfg, old(View()), o, 0, 0, draws)
    {
      var i, given := 0, 0;
      while i < Chunks(cfg)
        invariant 0 <= i <= Chunks(cfg) && Valid()
        invariant PlaceChunks(cfg, View(), o, i, given, draws) == PlaceChunks(cfg, old(View()), o, 0, 0, draws)
      {
        var qty := ChunkQty(cfg, o.size, i, given);
        ScheduleChunk(o, i, qty, draws);
        i, given := i + 1, given + qty;
      }
    }

    method Place(o: Order, draws: Draws) returns (result: SendResult)
      requires Valid()
      modifies this
      ensures Valid() && (View(), result) == PlaceOrder(cfg, old(View()), o, draws)
    {
      if !connected { return TransportDown; }
      working := working[o.id := Working(o.instrument, o.side, o.size, o.size, o.price, true, {})];
      if draws.reject {
        ScheduleEvent(now + cfg.ackLatency, PlaceReject(o.id), false);
        return Ok;
      }
      ScheduleEvent(now + cfg.ackLatency, Confirm(o.id), false);
      if draws.unsolicited {
        ScheduleEvent(now + cfg.ackLatency + cfg.fillLatency, Unsolicited(o.id), false);
        return Ok;
      }
      ScheduleFills(o, draws);
      return Ok;
    }

    method CancelOrder(id: OrderId) returns (result: SendResult)
      requires Valid()
      modifies this
      ensures Valid()
      ensures View() == if old(connected) then RequestCancel(cfg, old(View()), id) else old(View())
      ensures result == if old(connected) then Ok else TransportDown
    {
      if !connected { return TransportDown; }
      if id !in working || !working[id].alive {
        ScheduleEvent(now + cfg.ackLatency, CancelReject(id), false);
      } else {
        ScheduleEvent(now + cfg.ackLatency, CancelAck(id), false);
      }
      return Ok;
    }

    /** The venue's own book takes a fill only at the first sighting of its trade id. */
    method BookFillReport(id: OrderId, qty: int, trade: nat, final: bool)
      requires Valid() && id in working
      modifies this
      ensures Valid() && View() == BookFill(old(View()), id, qty, trade, final)
      ensures queue == old(queue) && now == old(now)
    {
      var w := working[id];
      var repeated := trade in w.seen;
      var w1 := w.(seen := w.seen + {trade});
      if !repeated && w.alive {
        w1 := w1.(remaining := w1.remaining - qty);
        var held := if w.instrument in positions then positions[w.instrument] else 0;
        positions := positions[w.instrument := held + SignedQty(w.side, qty)];
        if final || w1.remaining <= 0 {
          w1 := w1.(alive := false);
        }
      }
      working := working[id := w1];
    }

    /** Take the next event off the queue and update the venue's own book; the caller passes
        `event.what` on to the order manager. */
    method Take() returns (event: SimEvent)
      requires Valid() && |queue| > 0
      modifies this
      ensures Valid() && event == old(queue[0]) && queue == old(queue[1..])
      ensures IsTop(old(View()).queue, event) && View() == Pop(old(View()), event)
      ensures now == old(now)
    {
      HeadIsTop(queue);
      event := queue[0];
      queue := queue[1..];
      var id := event.what.id;
      if id in working {
        match event.what {
          case FillReport(_, qty, _, trade) => BookFillReport(id, qty, trade, event.final);
          case PlaceReject(_) => working := working[id := working[id].(alive := false)];
          case CancelAck(_) => working := working[id := working[id].(alive := false)];
          case Unsolicited(_) => working := working[id := working[id].(alive := false)];
          case Confirm(_) =>
          case CancelReject(_) =>
        }
      }
    }

    /** Advance the clock and deliver exactly the events that are due, each once, in the order of
        (time, sequence), whatever order they were scheduled in. */
    method Poll() returns (delivered: seq<SimEvent>)
      requires Valid()
      modifies this
      ensures Valid() && now == old(now) + cfg.step
      ensures View() == PopAll(old(View()).(now := now), delivered)
      ensures forall e :: e in delivered <==> e in old(View()).queue && e.at <= now
      ensures Sorted(delivered)
    {
      now := now + cfg.step;
      delivered := [];
      hide Pop, PopAll, Sorted, Numbered, IsTop, View, Valid;
      ghost var q0 := queue;
      ghost var x0 := View();
      while |queue| > 0 && queue[0].at <= now
        invariant Valid() && now == old(now) + cfg.step
        invariant delivered + queue == q0
        invariant View() == PopAll(x0, delivered)
        invariant forall k :: 0 <= k < |delivered| ==> delivered[k].at <= now
        decreases |queue|
      {
        HandedOn(delivered, queue);
        var e := Take();
        PopAllNext(x0, delivered, e);
        delivered := delivered + [e];
      }
      DueDelivered(q0, delivered, queue, now);
    }
  }
}
