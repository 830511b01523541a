/** What the venue schedules for an order it accepts: the chunks of the order's plan. */
module CouplingRequests {
  import opened Orders
  import opened SimExchangeSpec
  import opened Coupling

  /** No chunk of an order is scheduled after its last one. */
  ghost predicate LastChunkLast(cfg: SimConfig) {
    forall j: nat :: j + 1 < Chunks(cfg) ==> ChunkDelay(cfg, j) <= ChunkDelay(cfg, Chunks(cfg) - 1)
  }

  /** In terms of the settings: the gap between the partial fills that have one is not negative, and a
      first fill pulled ahead of the confirm does not land after the last. */
  lemma LastChunkLastExactly(cfg: SimConfig)
    ensures LastChunkLast(cfg) <==>
      (var n := Chunks(cfg);
       && (n > 2 || (n == 2 && !cfg.reorder) ==> cfg.fillGap >= 0)
       && (n > 1 && cfg.reorder ==> cfg.ackLatency - 1 <= cfg.fillLatency + (n - 1) * cfg.fillGap))
  {
    var n := Chunks(cfg);
    if n > 1 {
      FirstBeforeLast(cfg);
    }
    if n > 2 {
      LaterBeforeLast(cfg, 1);
    }
    if (n > 2 || (n == 2 && !cfg.reorder) ==> cfg.fillGap >= 0)
       && (n > 1 && cfg.reorder ==> cfg.ackLatency - 1 <= cfg.fillLatency + (n - 1) * cfg.fillGap) {
      forall j: nat | j + 1 < n ensures ChunkDelay(cfg, j) <= ChunkDelay(cfg, n - 1) {
        if j > 0 {
          LaterBeforeLast(cfg, j);
        }
      }
    }
  }

  lemma FirstBeforeLast(cfg: SimConfig)
    requires Chunks(cfg) > 1
    ensures ChunkDelay(cfg, 0) <= ChunkDelay(cfg, Chunks(cfg) - 1) <==>
      if cfg.reorder then cfg.ackLatency - 1 <= cfg.fillLatency + (Chunks(cfg) - 1) * cfg.fillGap else cfg.fillGap >= 0
  {
    SameSign(Chunks(cfg) - 1, cfg.fillGap);
  }

  lemma LaterBeforeLast(cfg: SimConfig, j: nat)
    requires 0 < j < Chunks(cfg) - 1
    ensures ChunkDelay(cfg, j) <= ChunkDelay(cfg, Chunks(cfg) - 1) <==> cfg.fillGap >= 0
  {
    SameSign(Chunks(cfg) - 1 - j, cfg.fillGap);
    assert (Chunks(cfg) - 1 - j) * cfg.fillGap == (Chunks(cfg) - 1) * cfg.fillGap - j * cfg.fillGap;
  }

  lemma SameSign(k: int, g: int)
    requires k > 0
    ensures k * g >= 0 <==> g >= 0
  {
    if g < 0 {
      assert k * g <= g;
    }
  }

  // ---- the chunks of one order ----

  ghost function Base(cfg: SimConfig, size: int): int {
    size / Chunks(cfg)
  }

  /** How many chunks carry quantity: all of them, or only the last when the size is too small. */
  ghost function FilledChunks(cfg: SimConfig, size: int): nat {
    if Base(cfg, size) > 0 then Chunks(cfg) else 1
  }

  ghost function FillPlan(cfg: SimConfig, x: Exchange, o: Order, order: nat): Plan {
    Plan(order, x.tradeCounter + 1, FilledChunks(cfg, o.size), Base(cfg, o.size), {})
  }

  lemma BaseBounds(cfg: SimConfig, size: int)
    requires size > 0
    ensures Base(cfg, size) >= 0 && Chunks(cfg) * Base(cfg, size) <= size
    ensures (Chunks(cfg) - 1) * Base(cfg, size) < size
    ensures Base(cfg, size) == 0 ==> Chunks(cfg) > 1
  {
    var n, b := Chunks(cfg), Base(cfg, size);
    assert n * b + size % n == size;
    assert (n - 1) * b == n * b - b;
  }

  lemma FillPlanOk(cfg: SimConfig, x: Exchange, o: Order, order: nat)
    requires o.size > 0
    ensures PlanOk(FillPlan(cfg, x, o, order), o.size)
  {
    BaseBounds(cfg, o.size);
  }

  /** How many chunks with quantity precede index i of the loop. */
  ghost function Placed(cfg: SimConfig, size: int, i: nat): nat {
    if Base(cfg, size) > 0 then i else if i >= Chunks(cfg) then 1 else 0
  }

  /** A newly scheduled fill is a chunk of the plan; the last chunk is behind all others if the
      settings put it there. */
  ghost predicate ChunkEvent(cfg: SimConfig, x: Exchange, e: SimEvent, o: Order, pl: Plan, n: nat) {
    && e.what.FillReport? && e.what.id == o.id
    && pl.first <= e.what.trade < pl.first + n
    && e.what.qty == QtyAt(pl, o.size, ChunkOf(pl, e.what.trade)) && e.what.price == o.price
    && (e.final <==> e.what.trade + 1 == pl.first + pl.count)
    && (pl.count > 1 ==> e.at >= x.now + ChunkDelay(cfg, ChunkOf(pl, e.what.trade)))
    && (e.final && LastChunkLast(cfg) ==> forall t :: pl.first <= t < e.what.trade ==> Preceded(x.queue, e, t))
  }

  /** The first delivery of chunk k, scheduled for its own delay. */
  ghost predicate FirstCopy(cfg: SimConfig, x: Exchange, f: SimEvent, o: Order, pl: Plan, k: nat) {
    && f in x.queue && Carries(f, o.id, pl.first + k) && f.seqNo < x.seqCounter
    && (pl.count > 1 ==> f.at == x.now + ChunkDelay(cfg, k))
  }

  ghost predicate HasCopy(cfg: SimConfig, x: Exchange, o: Order, pl: Plan, k: nat) {
    exists f :: FirstCopy(cfg, x, f, o, pl, k)
  }

  ghost predicate SameBooks(x0: Exchange, x: Exchange) {
    && x.working == x0.working && x.positions == x0.positions && x.connected == x0.connected && x.now == x0.now
    && x0.queue <= x.queue
  }

  /** The venue after the chunks before index i, started from x0. */
  ghost predicate ChunksPlaced(cfg: SimConfig, x0: Exchange, x: Exchange, o: Order, i: nat, pl: Plan) {
    var n := Placed(cfg, o.size, i);
    && SameBooks(x0, x)
    && x.tradeCounter == x0.tradeCounter + n
    && (forall e :: e in x.queue && e !in x0.queue ==> ChunkEvent(cfg, x, e, o, pl, n))
    && (forall k: nat :: k < n ==> HasCopy(cfg, x, o, pl, k))
  }

  lemma PrecededGrows(q: set<SimEvent>, q': set<SimEvent>, e: SimEvent, t: nat)
    requires q <= q' && Preceded(q, e, t)
    ensures Preceded(q', e, t)
  {
  }

  /** Scheduling one delivery of the chunk that is next in the plan. */
  lemma ScheduleChunk(cfg: SimConfig, x: Exchange, o: Order, pl: Plan, n: nat, at: int, e: SimEvent)
    requires pl.count in {1, Chunks(cfg)} && n < pl.count
    requires e.at == at && e.seqNo == x.seqCounter &&
      e.what == FillReport(o.id, QtyAt(pl, o.size, n), o.price, pl.first + n)
    requires e.final <==> n + 1 == pl.count
    requires pl.count > 1 ==> at >= x.now + ChunkDelay(cfg, n)
    requires forall k: nat :: k < n ==> HasCopy(cfg, x, o, pl, k)
    ensures ChunkEvent(cfg, x.(queue := x.queue + {e}, seqCounter := x.seqCounter + 1), e, o, pl, n + 1)
  {
    var x' := x.(queue := x.queue + {e}, seqCounter := x.seqCounter + 1);
    if e.final && LastChunkLast(cfg) {
      forall t | pl.first <= t < e.what.trade ensures Preceded(x'.queue, e, t) {
        var k: nat := t - pl.first;
        assert HasCopy(cfg, x, o, pl, k);
        var f :| FirstCopy(cfg, x, f, o, pl, k);
        assert f in x'.queue && Carries(f, e.what.id, t) && Before(f, e);
      }
    }
  }

  lemma CopyGrows(cfg: SimConfig, x: Exchange, x': Exchange, o: Order, pl: Plan, k: nat)
    requires HasCopy(cfg, x, o, pl, k)
    requires x.queue <= x'.queue && x.seqCounter <= x'.seqCounter && x'.now == x.now
    ensures HasCopy(cfg, x', o, pl, k)
  {
    var f :| FirstCopy(cfg, x, f, o, pl, k);
    assert FirstCopy(cfg, x', f, o, pl, k);
  }

  lemma EventGrows(cfg: SimConfig, x: Exchange, x': Exchange, e: SimEvent, o: Order, pl: Plan, n: nat, n': nat)
    requires ChunkEvent(cfg, x, e, o, pl, n) && x.queue <= x'.queue && x'.now == x.now && n <= n'
    ensures ChunkEvent(cfg, x', e, o, pl, n')
  {
    if e.final && LastChunkLast(cfg) {
      forall t | pl.first <= t < e.what.trade ensures Preceded(x'.queue, e, t) {
        PrecededGrows(x.queue, x'.queue, e, t);
      }
    }
  }

  /** One chunk with quantity extends the placed chunks by one. */
  lemma PlaceChunkKeeps(cfg: SimConfig, x0: Exchange, x: Exchange, o: Order, i: nat, draws: Draws, pl: Plan)
    requires o.size > 0 && i < Chunks(cfg)
    requires pl == FillPlan(cfg, x0, o, pl.order)
    requires ChunksPlaced(cfg, x0, x, o, i, pl)
    requires Placed(cfg, o.size, i + 1) == Placed(cfg, o.size, i) + 1
    requires QtyAt(pl, o.size, Placed(cfg, o.size, i)) > 0
    requires i + 1 == Chunks(cfg) <==> Placed(cfg, o.size, i) + 1 == pl.count
    requires pl.count > 1 ==> Placed(cfg, o.size, i) == i
    ensures ChunksPlaced(cfg, x0, PlaceChunk(cfg, x, o, i, QtyAt(pl, o.size, Placed(cfg, o.size, i)), draws), o,
      i + 1, pl)
  {
    var n := Placed(cfg, o.size, i);
    var qty := QtyAt(pl, o.size, n);
    var last := i == Chunks(cfg) - 1;
    var at := x.now + ChunkDelay(cfg, i);
    var fill := FillReport(o.id, qty, o.price, x.tradeCounter + 1);
    var xa := x.(tradeCounter := x.tradeCounter + 1);
    var e1 := SimEvent(at, x.seqCounter, fill, last);
    var x1 := Schedule(xa, at, fill, last);
    assert SameCopies(cfg, x, xa, o, pl, n) by {
      forall k: nat | k < n ensures HasCopy(cfg, xa, o, pl, k) {
        CopyGrows(cfg, x, xa, o, pl, k);
      }
    }
    hide Placed, PlaceChunk;
    ScheduleChunk(cfg, xa, o, pl, n, at, e1);
    FirstDelivery(cfg, x0, x, o, pl, n, e1, x1);
    var e2 := SimEvent(at + 1, x1.seqCounter, fill, last);
    var x2 := Schedule(x1, at + 1, fill, last);
    SecondDelivery(cfg, x0, x1, o, pl, n, e2, x2);
    PlaceChunkIs(cfg, x, o, i, qty, draws, x1, x2);
  }

  ghost predicate SameCopies(cfg: SimConfig, x: Exchange, x': Exchange, o: Order, pl: Plan, n: nat) {
    forall k: nat :: k < n ==> HasCopy(cfg, x', o, pl, k)
  }

  lemma PlaceChunkIs(cfg: SimConfig, x: Exchange, o: Order, i: nat, qty: int, draws: Draws, x1: Exchange, x2: Exchange)
    requires qty > 0
    requires x1 == Schedule(x.(tradeCounter := x.tradeCounter + 1), x.now + ChunkDelay(cfg, i),
                            FillReport(o.id, qty, o.price, x.tradeCounter + 1), i == Chunks(cfg) - 1)
    requires x2 == Schedule(x1, x.now + ChunkDelay(cfg, i) + 1, FillReport(o.id, qty, o.price, x.tradeCounter + 1),
      i == Chunks(cfg) - 1)
    ensures PlaceChunk(cfg, x, o, i, qty, draws) == if i in draws.duplicates then x2 else x1
  {
  }

  /** The set of chunks placed grows by the one whose first delivery is scheduled. */
  ghost predicate Extended(cfg: SimConfig, x0: Exchange, x: Exchange, o: Order, pl: Plan, n: nat) {
    && SameBooks(x0, x)
    && x.tradeCounter == x0.tradeCounter + n
    && (forall e :: e in x.queue && e !in x0.queue ==> ChunkEvent(cfg, x, e, o, pl, n))
    && (forall k: nat :: k < n ==> HasCopy(cfg, x, o, pl, k))
  }

  lemma FirstDelivery(cfg: SimConfig, x0: Exchange, x: Exchange, o: Order, pl: Plan, n: nat, e1: SimEvent, x1: Exchange)
    requires Extended(cfg, x0, x, o, pl, n)
    requires x1 == x.(tradeCounter := x.tradeCounter + 1, queue := x.queue + {e1}, seqCounter := x.seqCounter + 1)
    requires Carries(e1, o.id, pl.first + n) && e1.seqNo == x.seqCounter
    requires pl.count > 1 ==> e1.at == x.now + ChunkDelay(cfg, n)
    requires ChunkEvent(cfg, x1, e1, o, pl, n + 1)
    ensures Extended(cfg, x0, x1, o, pl, n + 1)
  {
    forall e | e in x1.queue && e !in x0.queue ensures ChunkEvent(cfg, x1, e, o, pl, n + 1) {
      if e != e1 {
        EventGrows(cfg, x, x1, e, o, pl, n, n + 1);
      }
    }
    forall k: nat | k < n + 1 ensures HasCopy(cfg, x1, o, pl, k) {
      if k < n {
        CopyGrows(cfg, x, x1, o, pl, k);
      } else {
        assert FirstCopy(cfg, x1, e1, o, pl, n);
      }
    }
  }

  lemma SecondDelivery(cfg: SimConfig, x0: Exchange, x1: Exchange, o: Order, pl: Plan, n: nat, e2: SimEvent,
      x2: Exchange)
    requires pl.count in {1, Chunks(cfg)} && n < pl.count
    requires Extended(cfg, x0, x1, o, pl, n + 1)
    requires x2 == x1.(queue := x1.queue + {e2}, seqCounter := x1.seqCounter + 1)
    requires e2.seqNo == x1.seqCounter && e2.what == FillReport(o.id, QtyAt(pl, o.size, n), o.price, pl.first + n)
    requires e2.final <==> n + 1 == pl.count
    requires pl.count > 1 ==> e2.at >= x1.now + ChunkDelay(cfg, n)
    ensures Extended(cfg, x0, x2, o, pl, n + 1)
  {
    ScheduleChunk(cfg, x1, o, pl, n, e2.at, e2);
    forall e | e in x2.queue && e !in x0.queue ensures ChunkEvent(cfg, x2, e, o, pl, n + 1) {
      if e != e2 {
        EventGrows(cfg, x1, x2, e, o, pl, n + 1, n + 1);
      }
    }
    forall k: nat | k < n + 1 ensures HasCopy(cfg, x2, o, pl, k) {
      CopyGrows(cfg, x1, x2, o, pl, k);
    }
  }

  /** What the earlier chunks sum to at index i of the loop. */
  ghost function Given(cfg: SimConfig, size: int, i: nat): int {
    if i < Chunks(cfg) then i * Base(cfg, size) else size
  }

  lemma NextGiven(cfg: SimConfig, size: int, i: nat)
    requires size > 0 && i < Chunks(cfg)
    ensures Given(cfg, size, i) + ChunkQty(cfg, size, i, Given(cfg, size, i)) == Given(cfg, size, i + 1)
  {
    assert (i + 1) * Base(cfg, size) == i * Base(cfg, size) + Base(cfg, size);
  }

  /** The loop index and the plan agree on the quantity of the chunk. */
  lemma ChunkIsPlanned(cfg: SimConfig, x0: Exchange, o: Order, order: nat, i: nat)
    requires o.size > 0 && i < Chunks(cfg) && (Base(cfg, o.size) > 0 || i == Chunks(cfg) - 1)
    ensures
      var pl := FillPlan(cfg, x0, o, order);
      var n := Placed(cfg, o.size, i);
      && ChunkQty(cfg, o.size, i, Given(cfg, o.size, i)) == QtyAt(pl, o.size, n) > 0
      && Placed(cfg, o.size, i + 1) == n + 1
      && (i + 1 == Chunks(cfg) <==> n + 1 == pl.count)
      && (pl.count > 1 ==> n == i)
  {
    BaseBounds(cfg, o.size);
    var b := Base(cfg, o.size);
    if i == Chunks(cfg) - 1 {
      assert i * b < o.size;
    }
  }

  lemma SkippedChunk(cfg: SimConfig, x0: Exchange, x: Exchange, o: Order, i: nat, draws: Draws, pl: Plan)
    requires o.size > 0 && i + 1 < Chunks(cfg) && Base(cfg, o.size) <= 0 && ChunksPlaced(cfg, x0, x, o, i, pl)
    ensures ChunksPlaced(cfg, x0, PlaceChunk(cfg, x, o, i, ChunkQty(cfg, o.size, i, Given(cfg, o.size, i)), draws),
      o, i + 1, pl)
  {
    BaseBounds(cfg, o.size);
  }

  lemma {:induction false} PlaceChunksKeeps(
    cfg: SimConfig, x0: Exchange, x: Exchange, o: Order, i: nat, given: int, draws: Draws, pl: Plan)
    requires o.size > 0 && i <= Chunks(cfg) && given == Given(cfg, o.size, i)
    requires pl == FillPlan(cfg, x0, o, pl.order) && ChunksPlaced(cfg, x0, x, o, i, pl)
    ensures ChunksPlaced(cfg, x0, PlaceChunks(cfg, x, o, i, given, draws), o, Chunks(cfg), pl)
    decreases Chunks(cfg) - i
  {
    hide ChunksPlaced, PlaceChunk, Given, ChunkQty, Base, FillPlan;
    if i < Chunks(cfg) {
      var qty := ChunkQty(cfg, o.size, i, given);
      NextGiven(cfg, o.size, i);
      if Base(cfg, o.size) > 0 || i == Chunks(cfg) - 1 {
        ChunkIsPlanned(cfg, x0, o, pl.order, i);
        PlaceChunkKeeps(cfg, x0, x, o, i, draws, pl);
      } else {
        SkippedChunk(cfg, x0, x, o, i, draws, pl);
      }
      PlaceChunksKeeps(cfg, x0, PlaceChunk(cfg, x, o, i, qty, draws), o, i + 1, given + qty, draws, pl);
    }
  }

  // ---- place_order as a whole ----

  ghost function PlanFor(cfg: SimConfig, x: Exchange, o: Order, draws: Draws, order: nat): Plan {
    if draws.reject || draws.unsolicited then Plan(order, x.tradeCounter + 1, 0, 0, {}) else FillPlan(cfg, x, o, order)
  }

  /** Events new since x are about order `o`; the fills among them are its plan. */
  ghost predicate NewEvents(cfg: SimConfig, x: Exchange, x': Exchange, o: Order, pl: Plan) {
    && x.queue <= x'.queue
    && forall e :: e in x'.queue && e !in x.queue ==>
         && e.what.id == o.id && !e.what.CancelReject?
         && (e.what.FillReport? ==> ChunkEvent(cfg, x', e, o, pl, pl.count))
  }

  lemma PlaceFills(cfg: SimConfig, x: Exchange, o: Order, draws: Draws, order: nat)
    requires o.size > 0 && !draws.reject && !draws.unsolicited
    ensures NewEvents(cfg, x, Place(cfg, x, o, draws), o, PlanFor(cfg, x, o, draws, order))
    ensures Place(cfg, x, o, draws).working == Accept(x, o).working
    ensures Place(cfg, x, o, draws).positions == x.positions && Place(cfg, x, o, draws).connected == x.connected
    ensures Place(cfg, x, o, draws).now == x.now
    ensures forall e :: e in Place(cfg, x, o, draws).queue && e !in x.queue ==> e.what.Confirm? || e.what.FillReport?
    ensures forall k: nat :: k < FilledChunks(cfg, o.size) ==>
      HasCopy(cfg, Place(cfg, x, o, draws), o, FillPlan(cfg, x, o, order), k)
  {
    var pl := FillPlan(cfg, x, o, order);
    var x2 := Schedule(Accept(x, o), x.now + cfg.ackLatency, Confirm(o.id), false);
    BaseBounds(cfg, o.size);
    assert ChunksPlaced(cfg, x2, x2, o, 0, pl);
    PlaceChunksKeeps(cfg, x2, x2, o, 0, 0, draws, pl);
    var x' := Place(cfg, x, o, draws);
    assert x' == PlaceChunks(cfg, x2, o, 0, 0, draws);
    assert Placed(cfg, o.size, Chunks(cfg)) == pl.count;
    hide PlaceChunks, Place, Placed, FillPlan;
    forall e | e in x'.queue && e !in x.queue
      ensures e.what.id == o.id && (e.what.Confirm? || e.what.FillReport?)
      ensures e.what.FillReport? ==> ChunkEvent(cfg, x', e, o, pl, pl.count)
    {
      assert e !in x2.queue ==> ChunkEvent(cfg, x', e, o, pl, pl.count);
    }
  }

  lemma PlaceOther(cfg: SimConfig, x: Exchange, o: Order, draws: Draws, order: nat)
    requires draws.reject || draws.unsolicited
    ensures NewEvents(cfg, x, Place(cfg, x, o, draws), o, PlanFor(cfg, x, o, draws, order))
    ensures Place(cfg, x, o, draws).working == Accept(x, o).working
    ensures Place(cfg, x, o, draws).positions == x.positions && Place(cfg, x, o, draws).connected == x.connected
  {
  }

  lemma PlaceDoes(cfg: SimConfig, x: Exchange, o: Order, draws: Draws, order: nat)
    requires o.size > 0
    ensures NewEvents(cfg, x, Place(cfg, x, o, draws), o, PlanFor(cfg, x, o, draws, order))
    ensures Place(cfg, x, o, draws).working == Accept(x, o).working
    ensures Place(cfg, x, o, draws).positions == x.positions && Place(cfg, x, o, draws).connected == x.connected
    ensures PlanOk(PlanFor(cfg, x, o, draws, order), o.size)
    ensures PlanFor(cfg, x, o, draws, order).order == order && PlanFor(cfg, x, o, draws, order).booked == {}
  {
    FillPlanOk(cfg, x, o, order);
    hide Place, Accept, NewEvents, PlanOk;
    if draws.reject || draws.unsolicited {
      hide *;
      PlaceOther(cfg, x, o, draws, order);
      EmptyPlanOk(cfg, x, o, draws, order);
    } else {
      PlaceFills(cfg, x, o, draws, order);
    }
  }

  lemma EmptyPlanOk(cfg: SimConfig, x: Exchange, o: Order, draws: Draws, order: nat)
    requires draws.reject || draws.unsolicited
    ensures PlanOk(PlanFor(cfg, x, o, draws, order), o.size)
    ensures PlanFor(cfg, x, o, draws, order).order == order && PlanFor(cfg, x, o, draws, order).booked == {}
  {
  }

  // ---- the queue grows ----

  /** What was known stays known when only orders and events are added. */
  ghost predicate Adds(c: Coupled, c': Coupled) {
    && c.ex.queue <= c'.ex.queue
    && (forall id :: id in c.plans ==> id in c'.plans && c'.plans[id] == c.plans[id])
    && (forall id :: id in c.ex.working ==> id in c'.ex.working && c'.ex.working[id] == c.ex.working[id])
  }

  lemma QueueExtends(c: Coupled, c': Coupled)
    requires QueueAgrees(c) && Adds(c, c')
    requires forall e :: e in c'.ex.queue && e !in c.ex.queue ==> EventOk(c', e)
    ensures QueueAgrees(c')
  {
    forall e | e in c'.ex.queue ensures EventOk(c', e) {
      if e in c.ex.queue {
        assert EventOk(c, e);
      }
    }
  }

  lemma OrderlyExtends(c: Coupled, c': Coupled)
    requires Orderly(c) && Adds(c, c') && QueueAgrees(c')
    requires forall e :: e in c'.ex.queue && e !in c.ex.queue ==> EventOk(c', e) && InOrder(c', e)
    requires forall id :: id in c'.ex.working && id !in c.ex.working ==> c'.ex.working[id].price > 0
    ensures Orderly(c')
  {
    forall e | e in c'.ex.queue ensures EventOk(c', e) && InOrder(c', e) {
      if e in c.ex.queue {
        assert EventOk(c, e) && InOrder(c, e);
        forall t | Preceded(c.ex.queue, e, t) ensures Preceded(c'.ex.queue, e, t) {
          PrecededGrows(c.ex.queue, c'.ex.queue, e, t);
        }
      }
    }
    forall id | id in c'.ex.working ensures c'.ex.working[id].price > 0 {
      if id in c.ex.working {
        assert c.ex.working[id].price > 0;
      }
    }
  }
}
