/** Delivering the venue's next event keeps the two sides in agreement. */
module CouplingDelivery {
  import opened OrderIds
  import opened Orders
  import opened OrderManagerSpec
  import opened OrderManagerInvariants
  import opened OrderManagerSteps
  import opened OrderManagerKeeps
  import opened OrderManagerRuns
  import opened SimExchangeSpec
  import opened Coupling

  /** The venue books this fill: its order works there and its trade is new. */
  ghost predicate Books(c: Coupled, e: SimEvent) {
    && e.what.FillReport? && e.what.id in c.ex.working && e.what.id in c.plans
    && c.ex.working[e.what.id].alive && e.what.trade !in c.ex.working[e.what.id].seen
  }

  /** The venue updates its own book, then calls the order manager. */
  ghost function DeliverNext(c: Coupled, e: SimEvent): Coupled
    requires Shape(c.oms)
  {
    Coupled(Receive(c.oms, e.what), Pop(c.ex, e),
            if Books(c, e) then c.plans[e.what.id := WithBooked(c.plans[e.what.id], e.what.trade)] else c.plans)
  }

  ghost function WithBooked(pl: Plan, trade: nat): Plan {
    pl.(booked := pl.booked + {ChunkOf(pl, trade)})
  }

  /** Both sides can book this fill alike: its price is positive, and if it is the last chunk of its
      order, all others have been booked. */
  ghost predicate Harmless(c: Coupled, e: SimEvent) {
    Books(c, e) ==>
      var pl := c.plans[e.what.id];
      e.what.price > 0 && (e.final ==> forall k: nat :: k + 1 < pl.count ==> k in pl.booked)
  }

  // ---- events that change no quantity ----

  /** The working orders differ at most in the trades a dead order has seen. */
  ghost predicate SameWorking(x: Exchange, x': Exchange) {
    && x'.working.Keys == x.working.Keys
    && forall id :: id in x.working ==>
         x'.working[id] == x.working[id]
         || (!x.working[id].alive && x'.working[id] == x.working[id].(seen := x'.working[id].seen))
  }

  lemma RelabelledAgrees(s: Oms, s': Oms, w: Working, w': Working, pl: Plan, id: OrderId)
    requires OrderAgrees(s, w, pl, id) && Quiet(s, s')
    requires w' == w || (!w.alive && w' == w.(seen := w'.seen))
    ensures OrderAgrees(s', w', pl, id)
  {
    var o, o' := s.book[pl.order], s'.book[pl.order];
    assert o' == o || Relabelled(o, o');
  }

  lemma QuietOrders(c: Coupled, c': Coupled)
    requires OrdersAgree(c) && Covered(c) && PositionsAgree(c)
    requires Quiet(c.oms, c'.oms) && SameWorking(c.ex, c'.ex) && c'.plans == c.plans &&
      c'.ex.positions == c.ex.positions
    ensures OrdersAgree(c') && Covered(c') && PositionsAgree(c')
  {
    forall id | id in c'.ex.working ensures OrderAgrees(c'.oms, c'.ex.working[id], c'.plans[id], id) {
      RelabelledAgrees(c.oms, c'.oms, c.ex.working[id], c'.ex.working[id], c.plans[id], id);
    }
    forall i | 0 <= i < |c'.oms.book| && !IsTerminal(c'.oms.book[i].status)
      ensures c'.oms.book[i].id in c'.plans && c'.plans[c'.oms.book[i].id].order == i
    {
      assert c'.oms.book[i] == c.oms.book[i] || Relabelled(c.oms.book[i], c'.oms.book[i]);
    }
    forall inst: nat ensures VenuePosition(c'.ex, inst) == PositionOf(c'.oms, inst).net {
      assert VenuePosition(c.ex, inst) == PositionOf(c.oms, inst).net;
    }
  }

  /** What stays of the orders' terms when an event is delivered. */
  ghost predicate SameTerms(c: Coupled, c': Coupled) {
    && c'.plans.Keys == c.plans.Keys && c'.ex.working.Keys == c.ex.working.Keys
    && forall id :: id in c.plans && id in c.ex.working ==> (
         && c'.plans[id] == c.plans[id].(booked := c'.plans[id].booked) && c.plans[id].booked <= c'.plans[id].booked
         && c'.ex.working[id].size == c.ex.working[id].size && c'.ex.working[id].price == c.ex.working[id].price
         && (c'.ex.working[id].alive ==> c.ex.working[id].alive))
  }

  lemma QueueWithout(c: Coupled, c': Coupled, e: SimEvent)
    requires QueueAgrees(c) && c'.ex.queue == c.ex.queue - {e} && SameTerms(c, c')
    ensures QueueAgrees(c')
  {
    forall f | f in c'.ex.queue ensures EventOk(c', f) {
      assert EventOk(c, f);
    }
  }

  /** The queue stays in order when an event leaves it that carries no chunk still awaited. */
  lemma OrderlyWithout(c: Coupled, c': Coupled, e: SimEvent)
    requires Orderly(c) && QueueAgrees(c') && c'.ex.queue == c.ex.queue - {e} && SameTerms(c, c')
    requires c.plans.Keys == c.ex.working.Keys
    requires
      var id := e.what.id;
      e.what.FillReport? && id in c.plans && id in c'.ex.working && c'.ex.working[id].alive ==>
        ChunkOf(c.plans[id], e.what.trade) in c'.plans[id].booked
    ensures Orderly(c')
  {
    forall f | f in c'.ex.queue ensures EventOk(c', f) && InOrder(c', f) {
      assert EventOk(c, f) && InOrder(c, f);
      if f.what.FillReport? && f.final && c'.ex.working[f.what.id].alive {
        var pl := c'.plans[f.what.id];
        forall t: nat | pl.first <= t < f.what.trade && ChunkOf(pl, t) !in pl.booked
          ensures Preceded(c'.ex.queue, f, t) {
          assert Preceded(c.ex.queue, f, t);
          var g :| g in c.ex.queue && Carries(g, f.what.id, t) && Before(g, f);
          assert g != e;
        }
      }
    }
  }

  lemma PopTerms(x: Exchange, e: SimEvent)
    ensures Pop(x, e).queue == x.queue - {e} && Pop(x, e).working.Keys == x.working.Keys
    ensures forall id :: id in x.working ==> (
      && Pop(x, e).working[id].size == x.working[id].size && Pop(x, e).working[id].price == x.working[id].price
      && (Pop(x, e).working[id].alive ==> x.working[id].alive))
  {
  }

  lemma QuietDelivery(c: Coupled, e: SimEvent)
    requires Agree(c) && Shape(c.oms) && !Books(c, e)
    requires Inv(Receive(c.oms, e.what)) && Quiet(c.oms, Receive(c.oms, e.what))
    requires SameWorking(c.ex, Pop(c.ex, e)) && Pop(c.ex, e).positions == c.ex.positions
    ensures Agree(DeliverNext(c, e))
  {
    DeliveredTerms(c, e);
    hide SameTerms;
    hide Inv, Receive, Quiet, Shape, OrdersAgree, Covered, PositionsAgree, QueueAgrees, Books, Pop, SameWorking;
    QuietOrders(c, DeliverNext(c, e));
    QueueWithout(c, DeliverNext(c, e), e);
  }

  // ---- events that end or fill one working order ----

  /** Orders other than the one an event is about keep agreeing. */
  lemma OthersAgree(c: Coupled, c': Coupled, id: OrderId, i: nat, o: Order)
    requires OrdersAgree(c) && id in c.plans && c.plans[id].order == i
    requires Touches(c.oms, c'.oms, i, o) && o.id == id
    requires c'.ex.working.Keys == c.ex.working.Keys && c'.plans.Keys == c.plans.Keys
    requires forall x :: x in c.ex.working && x != id ==>
      c'.ex.working[x] == c.ex.working[x] && c'.plans[x] == c.plans[x]
    requires OrderAgrees(c'.oms, c'.ex.working[id], c'.plans[id], id)
    ensures OrdersAgree(c')
  {
    forall x | x in c'.ex.working ensures OrderAgrees(c'.oms, c'.ex.working[x], c'.plans[x], x) {
      if x != id {
        assert OrderAgrees(c.oms, c.ex.working[x], c.plans[x], x);
        assert OrderAgrees(c.oms, c.ex.working[id], c.plans[id], id);
        assert c.plans[x].order != i;
      }
    }
  }

  lemma StillCovered(c: Coupled, c': Coupled, id: OrderId, i: nat, o: Order)
    requires Covered(c) && id in c.plans && c.plans[id].order == i && i < |c.oms.book| && c.oms.book[i].id == id
    requires Touches(c.oms, c'.oms, i, o) && o.id == id
    requires c'.plans.Keys == c.plans.Keys && forall x :: x in c.plans ==> c'.plans[x].order == c.plans[x].order
    ensures Covered(c')
  {
    forall j | 0 <= j < |c'.oms.book| && !IsTerminal(c'.oms.book[j].status)
      ensures c'.oms.book[j].id in c'.plans && c'.plans[c'.oms.book[j].id].order == j
    {
      assert j != i ==> c'.oms.book[j] == c.oms.book[j];
    }
  }

  ghost predicate Kills(e: Inbound) {
    e.PlaceReject? || e.CancelAck? || e.Unsolicited?
  }

  lemma KillsAre(e: Inbound)
    requires Kills(e)
    ensures e.PlaceReject? || e.CancelAck? || e.Unsolicited?
  {
  }

  lemma AliveOrder(c: Coupled, id: OrderId)
    requires OrdersAgree(c) && id in c.ex.working && c.ex.working[id].alive
    ensures id in c.plans && c.plans.Keys == c.ex.working.Keys
    ensures OrderAgrees(c.oms, c.ex.working[id], c.plans[id], id)
    ensures c.plans[id].order < |c.oms.book| && c.oms.book[c.plans[id].order].id == id
    ensures !IsTerminal(c.oms.book[c.plans[id].order].status)
  {
  }

  lemma AgreeParts(c: Coupled)
    requires Agree(c)
    ensures Inv(c.oms) && OrdersAgree(c) && Covered(c) && PositionsAgree(c) && QueueAgrees(c)
    ensures c.plans.Keys == c.ex.working.Keys
  {
  }

  lemma AgreeWhole(c: Coupled)
    requires Inv(c.oms) && OrdersAgree(c) && Covered(c) && PositionsAgree(c) && QueueAgrees(c)
    ensures Agree(c)
  {
  }

  lemma KillFields(c: Coupled, e: SimEvent)
    requires Shape(c.oms) && Kills(e.what) && e.what.id in c.ex.working
    ensures DeliverNext(c, e).oms == Receive(c.oms, e.what)
    ensures DeliverNext(c, e).plans == c.plans && DeliverNext(c, e).ex == Pop(c.ex, e)
  {
  }

  lemma DeliveredTerms(c: Coupled, e: SimEvent)
    requires Shape(c.oms)
    ensures SameTerms(c, DeliverNext(c, e)) && DeliverNext(c, e).ex.queue == c.ex.queue - {e}
  {
    PopTerms(c.ex, e);
    hide Pop, Receive, Shape;
  }

  lemma KillDelivery(c: Coupled, e: SimEvent)
    requires Agree(c) && Shape(c.oms) && Kills(e.what) && Inv(Receive(c.oms, e.what))
    requires e.what.id in c.ex.working && c.ex.working[e.what.id].alive
    ensures Agree(DeliverNext(c, e))
  {
    hide *;
    var id := e.what.id;
    KillsAre(e.what);
    AgreeParts(c);
    AliveOrder(c, id);
    var i := c.plans[id].order;
    var c' := DeliverNext(c, e);
    KillFields(c, e);
    PopTerms(c.ex, e);
    KillSide(c.ex, e);
    ClosedTouches(c.oms, e.what, i);
    EndedAgrees(c.oms, c'.oms, c.ex.working[id], c.plans[id], id);
    OthersAgree(c, c', id, i, c'.oms.book[i]);
    StillCovered(c, c', id, i, c'.oms.book[i]);
    DeliveredTerms(c, e);
    QueueWithout(c, c', e);
    SamePositions(c, c');
    AgreeWhole(c');
  }

  lemma KillSide(x: Exchange, e: SimEvent)
    requires Kills(e.what) && e.what.id in x.working
    ensures Pop(x, e).working == x.working[e.what.id := x.working[e.what.id].(alive := false)]
    ensures Pop(x, e).positions == x.positions
  {
  }

  lemma EndedAgrees(s: Oms, s': Oms, w: Working, pl: Plan, id: OrderId)
    requires OrderAgrees(s, w, pl, id) && w.alive && |s'.book| == |s.book|
    requires Touches(s, s', pl.order, s'.book[pl.order]) && Ends(s.book[pl.order], s'.book[pl.order])
    ensures OrderAgrees(s', w.(alive := false), pl, id)
    ensures s'.book[pl.order].id == id
  {
  }

  lemma SamePositions(c: Coupled, c': Coupled)
    requires PositionsAgree(c) && c'.ex.positions == c.ex.positions && c'.oms.positions == c.oms.positions
    ensures PositionsAgree(c')
  {
    forall inst: nat ensures VenuePosition(c'.ex, inst) == PositionOf(c'.oms, inst).net {
      assert VenuePosition(c.ex, inst) == PositionOf(c.oms, inst).net;
    }
  }

  // ---- a chunk both sides book ----

  lemma {:induction false} BookedBound(booked: set<nat>, n: nat)
    requires forall k :: k in booked ==> k < n
    ensures |booked| <= n && (|booked| == n <==> forall k: nat :: k < n ==> k in booked)
  {
    if n > 0 {
      BookedBound(booked - {n - 1}, n - 1);
      if n - 1 in booked {
        assert |booked| == |booked - {n - 1}| + 1;
        assert forall k: nat :: k < n - 1 ==> (k in booked <==> k in booked - {n - 1});
      } else {
        assert booked - {n - 1} == booked;
      }
    } else {
      assert booked == {};
    }
  }

  lemma Monotone(a: nat, b: nat, m: int)
    requires a <= b && m >= 0
    ensures a * m <= b * m
  {
  }

  /** A chunk not booked before fits; it is the whole remainder exactly when it is the last to come. */
  lemma ChunkArithmetic(pl: Plan, size: int, k: nat)
    requires PlanOk(pl, size) && k < pl.count && k !in pl.booked && pl.count - 1 !in pl.booked
    ensures 0 < QtyAt(pl, size, k) <= size - |pl.booked| * pl.base
    ensures k + 1 == pl.count ==>
      (QtyAt(pl, size, k) == size - |pl.booked| * pl.base <==> forall j: nat :: j + 1 < pl.count ==> j in pl.booked)
    ensures k + 1 < pl.count ==> QtyAt(pl, size, k) < size - |pl.booked| * pl.base
    ensures k + 1 < pl.count ==> |pl.booked + {k}| == |pl.booked| + 1
  {
    var n := pl.count - 1;
    BookedBound(pl.booked, n);
    assert n * pl.base < size;
    Monotone(|pl.booked|, n, if n > 0 then pl.base else 0);
    if k < n {
      assert !(forall j: nat :: j < n ==> j in pl.booked);
      Monotone(|pl.booked| + 1, n, pl.base);
      assert (|pl.booked| + 1) * pl.base == |pl.booked| * pl.base + pl.base;
    } else if |pl.booked| < n {
      Monotone(|pl.booked| + 1, n, pl.base);
      assert (|pl.booked| + 1) * pl.base == |pl.booked| * pl.base + pl.base;
    }
  }

  /** A fill the venue books is a chunk of its order not booked before. */
  lemma NewChunk(c: Coupled, e: SimEvent)
    requires OrdersAgree(c) && QueueAgrees(c) && e in c.ex.queue && Books(c, e)
    ensures
      var pl := c.plans[e.what.id];
      var w := c.ex.working[e.what.id];
      var k := ChunkOf(pl, e.what.trade);
      && e.what.trade == pl.first + k && k < pl.count && k !in pl.booked && pl.count - 1 !in pl.booked &&
        PlanOk(pl, w.size)
      && e.what.qty == QtyAt(pl, w.size, k) && e.what.price == w.price && (e.final <==> k + 1 == pl.count)
  {
    assert OrderAgrees(c.oms, c.ex.working[e.what.id], c.plans[e.what.id], e.what.id);
    assert EventOk(c, e);
  }

  lemma BookedAgrees(s: Oms, s': Oms, w: Working, pl: Plan, id: OrderId, e: SimEvent)
    requires OrderAgrees(s, w, pl, id) && w.alive
    requires e.what.FillReport? && e.what.id == id && pl.first <= e.what.trade
    requires var k := ChunkOf(pl, e.what.trade);
      && k < pl.count && k !in pl.booked && e.what.qty == QtyAt(pl, w.size, k) && (e.final <==> k + 1 == pl.count)
      && (e.final ==> forall j: nat :: j + 1 < pl.count ==> j in pl.booked)
    requires FillsIn(s, s', e.what, pl.order)
    ensures
      var rest := w.remaining - e.what.qty;
      OrderAgrees(s', w.(seen := w.seen + {e.what.trade}, remaining := rest, alive := !(e.final || rest <= 0)),
                  WithBooked(pl, e.what.trade), id)
  {
    var k := ChunkOf(pl, e.what.trade);
    ChunkArithmetic(pl, w.size, k);
    BookedProduct(|pl.booked|, pl.base);
    BookedPlan(w.seen, pl, e.what.trade, w.size);
    FilledRecord(s, s', e.what, pl.order);
    hide FillsIn, ChunkOf, WithBooked, FilledBy, QtyAt, PlanOk, TradesOf;
    WithBookedIs(pl, e.what.trade);
  }

  lemma WithBookedIs(pl: Plan, trade: nat)
    ensures WithBooked(pl, trade) == pl.(booked := pl.booked + {ChunkOf(pl, trade)})
  {
  }

  lemma BookedPlan(seen: set<nat>, pl: Plan, trade: nat, size: int)
    requires PlanOk(pl, size) && pl.first <= trade && ChunkOf(pl, trade) < pl.count
    requires forall t: nat :: t in seen <==> t >= pl.first && ChunkOf(pl, t) in pl.booked
    ensures PlanOk(WithBooked(pl, trade), size)
    ensures
      var pl' := WithBooked(pl, trade);
      forall t: nat :: t in seen + {trade} <==> t >= pl'.first && ChunkOf(pl', t) in pl'.booked
  {
  }

  /** The filled record, and the trade set of its order while it keeps working. */
  lemma FilledRecord(s: Oms, s': Oms, e: Inbound, i: nat)
    requires FillsIn(s, s', e, i)
    ensures i < |s.book| == |s'.book| && e.FillReport?
    ensures
      var o, o' := s.book[i], s'.book[i];
      && o'.id == o.id && o'.instrument == o.instrument && o'.side == o.side && o'.size == o.size && o'.price == o.price
      && o'.Remaining() == o.Remaining() - e.qty && (IsTerminal(o'.status) <==> o'.Remaining() == 0)
      && (!IsTerminal(o'.status) ==> TradesOf(s', e.id) == TradesOf(s, e.id) + {e.trade})
  {
    hide TradesOf;
  }

  lemma BookedProduct(n: nat, base: int)
    ensures (n + 1) * base == n * base + base
  {
  }

  lemma FillFields(c: Coupled, e: SimEvent)
    requires Shape(c.oms) && Books(c, e)
    ensures e.what.FillReport? && e.what.id in c.ex.working && e.what.id in c.plans
    ensures c.ex.working[e.what.id].alive && e.what.trade !in c.ex.working[e.what.id].seen
    ensures DeliverNext(c, e).oms == Receive(c.oms, e.what) && DeliverNext(c, e).ex == Pop(c.ex, e)
    ensures DeliverNext(c, e).plans == c.plans[e.what.id := WithBooked(c.plans[e.what.id], e.what.trade)]
  {
    hide Pop, Receive, Shape, WithBooked;
  }

  lemma ChunkIsFillable(s: Oms, w: Working, pl: Plan, id: OrderId, trade: nat)
    requires OrderAgrees(s, w, pl, id) && w.alive && pl.first <= trade
    requires ChunkOf(pl, trade) < pl.count && ChunkOf(pl, trade) !in pl.booked
    ensures 0 < QtyAt(pl, w.size, ChunkOf(pl, trade)) <= s.book[pl.order].Remaining()
    ensures trade !in TradesOf(s, id) && w.remaining == s.book[pl.order].Remaining()
    ensures w.instrument == s.book[pl.order].instrument && w.side == s.book[pl.order].side
  {
    ChunkArithmetic(pl, w.size, ChunkOf(pl, trade));
  }

  lemma FillsInParts(s: Oms, s': Oms, e: Inbound, i: nat)
    requires FillsIn(s, s', e, i)
    ensures Touches(s, s', i, FilledBy(s.book[i], e.qty, e.price)) &&
      FilledBy(s.book[i], e.qty, e.price).id == s.book[i].id
    ensures s'.positions == s.positions[s.book[i].instrument :=
      PositionOf(s, s.book[i].instrument).Apply(SignedQty(s.book[i].side, e.qty), e.price)]
  {
  }

  lemma FillDelivery(c: Coupled, e: SimEvent)
    requires Agree(c) && Shape(c.oms) && e in c.ex.queue && Books(c, e) && Harmless(c, e) && Inv(Receive(c.oms, e.what))
    ensures Agree(DeliverNext(c, e))
  {
    hide *;
    var id := e.what.id;
    var c' := DeliverNext(c, e);
    AgreeParts(c);
    FillFields(c, e);
    AliveOrder(c, id);
    NewChunk(c, e);
    HarmlessMeans(c, e);
    var i := c.plans[id].order;
    var w, pl := c.ex.working[id], c.plans[id];
    ChunkIsFillable(c.oms, w, pl, id, e.what.trade);
    DeliveredTerms(c, e);
    BookSide(c.ex, e);
    FillTouches(c.oms, e.what, i);
    FillsInParts(c.oms, c'.oms, e.what, i);
    BookedAgrees(c.oms, c'.oms, w, pl, id, e);
    SameOrder(pl, e.what.trade);
    OthersAgree(c, c', id, i, FilledBy(c.oms.book[i], e.what.qty, e.what.price));
    StillCovered(c, c', id, i, FilledBy(c.oms.book[i], e.what.qty, e.what.price));
    QueueWithout(c, c', e);
    MovedPositions(c, c', w.instrument, SignedQty(w.side, e.what.qty), e.what.price);
    AgreeWhole(c');
  }

  lemma SameOrder(pl: Plan, trade: nat)
    ensures WithBooked(pl, trade).order == pl.order
  {
  }

  lemma HarmlessMeans(c: Coupled, e: SimEvent)
    requires Harmless(c, e) && Books(c, e)
    ensures e.what.price > 0
    ensures e.final ==> forall k: nat :: k + 1 < c.plans[e.what.id].count ==> k in c.plans[e.what.id].booked
  {
  }

  lemma BookSide(x: Exchange, e: SimEvent)
    requires e.what.FillReport? && e.what.id in x.working
    requires x.working[e.what.id].alive && e.what.trade !in x.working[e.what.id].seen
    ensures
      var w := x.working[e.what.id];
      var rest := w.remaining - e.what.qty;
      && Pop(x, e).working == x.working[e.what.id :=
           w.(seen := w.seen + {e.what.trade}, remaining := rest, alive := !(e.final || rest <= 0))]
      && Pop(x, e).positions ==
           x.positions[w.instrument := VenuePosition(x, w.instrument) + SignedQty(w.side, e.what.qty)]
  {
  }

  lemma MovedPositions(c: Coupled, c': Coupled, inst: nat, signed: int, price: int)
    requires PositionsAgree(c)
    requires c'.ex.positions == c.ex.positions[inst := VenuePosition(c.ex, inst) + signed]
    requires c'.oms.positions == c.oms.positions[inst := PositionOf(c.oms, inst).Apply(signed, price)]
    ensures PositionsAgree(c')
  {
    forall x: nat ensures VenuePosition(c'.ex, x) == PositionOf(c'.oms, x).net {
      assert VenuePosition(c.ex, x) == PositionOf(c.oms, x).net;
    }
  }

  // ---- any event ----

  /** A working order's repeated trade is refused by the order manager too. */
  lemma RepeatRefused(c: Coupled, e: SimEvent)
    requires Agree(c) && Shape(c.oms) && e.what.FillReport? && e.what.id in c.ex.working
    requires c.ex.working[e.what.id].alive && e.what.trade in c.ex.working[e.what.id].seen
    ensures Validate(c.oms, e.what) != Accepted
  {
    assert OrderAgrees(c.oms, c.ex.working[e.what.id], c.plans[e.what.id], e.what.id);
    hide Inv;
    WorkingIsCurrent(c.oms, c.plans[e.what.id].order);
  }

  lemma DeadRefused(c: Coupled, e: SimEvent)
    requires Agree(c) && Shape(c.oms) && NoWrap(c.oms) && e.what.id in c.ex.working && !c.ex.working[e.what.id].alive
    ensures Validate(c.oms, e.what) != Accepted
  {
    assert OrderAgrees(c.oms, c.ex.working[e.what.id], c.plans[e.what.id], e.what.id);
    hide Inv;
    TerminalRefused(c.oms, e.what, c.plans[e.what.id].order);
  }

  lemma QuietSide(x: Exchange, e: SimEvent)
    requires e.what.id in x.working && !e.what.CancelReject?
    requires e.what.Confirm? || !x.working[e.what.id].alive
          || (e.what.FillReport? && e.what.trade in x.working[e.what.id].seen)
    ensures SameWorking(x, Pop(x, e)) && Pop(x, e).positions == x.positions
  {
    var w := x.working[e.what.id];
    if e.what.FillReport? && e.what.trade in w.seen {
      assert w.seen + {e.what.trade} == w.seen;
    }
  }

  lemma EventMinted(c: Coupled, e: SimEvent)
    requires Agree(c) && e in c.ex.queue
    ensures Inv(c.oms) && Shape(c.oms) && e.what.id in c.ex.working && !e.what.CancelReject? && Minted(c.oms, e.what.id)
  {
    assert EventOk(c, e);
    InvShape(c.oms);
    hide Inv, Shape;
    assert OrderAgrees(c.oms, c.ex.working[e.what.id], c.plans[e.what.id], e.what.id);
    assert c.oms.book[c.plans[e.what.id].order].id == e.what.id;
  }

  lemma DeliveredInv(c: Coupled, e: SimEvent)
    requires Agree(c) && NoWrap(c.oms) && e in c.ex.queue && Shape(c.oms)
    ensures Inv(Receive(c.oms, e.what))
  {
    hide *;
    EventMinted(c, e);
    MintedGenuine(c.oms, e.what.id);
    ReceiveKeeps(c.oms, e.what);
  }

  /** Whatever event the venue delivers, out of order or not, the two sides agree again afterwards if
      it is harmless. */
  lemma DeliverAgrees(c: Coupled, e: SimEvent)
    requires Agree(c) && Shape(c.oms) && NoWrap(c.oms) && e in c.ex.queue && Harmless(c, e)
    ensures Agree(DeliverNext(c, e))
  {
    EventMinted(c, e);
    DeliveredInv(c, e);
    hide Agree, Receive, Quiet, Shape, NoWrap, Inv, Validate, SameWorking, DeliverNext, Pop, Harmless;
    var w := c.ex.working[e.what.id];
    if e.what.Confirm? {
      ConfirmQuiet(c.oms, e.what);
      QuietSide(c.ex, e);
      QuietDelivery(c, e);
    } else if !w.alive {
      DeadRefused(c, e);
      RefusedQuiet(c.oms, e.what);
      QuietSide(c.ex, e);
      QuietDelivery(c, e);
    } else if Kills(e.what) {
      KillDelivery(c, e);
    } else if e.what.trade in w.seen {
      RepeatRefused(c, e);
      RefusedQuiet(c.oms, e.what);
      QuietSide(c.ex, e);
      QuietDelivery(c, e);
    } else {
      AgreeKeys(c);
      FillDelivery(c, e);
    }
  }

  /** In an orderly state the next event is harmless. */
  lemma OrderlyIsHarmless(c: Coupled, e: SimEvent)
    requires OrdersAgree(c) && Orderly(c) && IsTop(c.ex.queue, e)
    ensures Harmless(c, e)
  {
    if Books(c, e) {
      var pl := c.plans[e.what.id];
      assert EventOk(c, e) && InOrder(c, e);
      if e.final {
        forall k: nat | k + 1 < pl.count ensures k in pl.booked {
          assert ChunkOf(pl, pl.first + k) == k;
          assert !Preceded(c.ex.queue, e, pl.first + k);
        }
      }
    }
  }

  lemma DeliverOrderly(c: Coupled, e: SimEvent)
    requires Agree(c) && Orderly(c) && Shape(c.oms) && e in c.ex.queue && Agree(DeliverNext(c, e))
    ensures Orderly(DeliverNext(c, e))
  {
    DeliveredTerms(c, e);
    DeliveredBooked(c, e);
    AgreeKeys(c);
    hide Receive, Shape, Inv, OrdersAgree, Covered, PositionsAgree, DeliverNext, SameTerms, Orderly;
    OrderlyWithout(c, DeliverNext(c, e), e);
  }

  /** A chunk delivered to an order still at work is booked afterwards. */
  lemma DeliveredBooked(c: Coupled, e: SimEvent)
    requires Agree(c) && Shape(c.oms) && e in c.ex.queue
    ensures
      var c' := DeliverNext(c, e);
      var id := e.what.id;
      e.what.FillReport? && id in c.plans && id in c'.ex.working && c'.ex.working[id].alive ==>
        id in c'.plans && ChunkOf(c.plans[id], e.what.trade) in c'.plans[id].booked
  {
    assert EventOk(c, e);
    assert OrderAgrees(c.oms, c.ex.working[e.what.id], c.plans[e.what.id], e.what.id);
    DeliveredTerms(c, e);
    hide Receive, Shape, Inv, Pop, SameTerms, Covered, PositionsAgree, QueueAgrees;
  }

  lemma AgreeKeys(c: Coupled)
    requires Agree(c)
    ensures c.plans.Keys == c.ex.working.Keys
  {
  }
}
