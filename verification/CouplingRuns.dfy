/** The order manager and the venue over whole runs: they agree after every single step. */
module CouplingRuns {
  import opened OrderIds
  import opened Orders
  import opened OrderManagerSpec
  import opened OrderManagerInvariants
  import opened OrderManagerSteps
  import opened OrderManagerRuns
  import opened SimExchangeSpec
  import opened Coupling
  import opened CouplingDelivery
  import opened CouplingRequests
  import opened CouplingSteps

  /** Nothing sent and nothing scheduled yet. */
  ghost predicate Starts(c: Coupled) {
    && c.ex.queue == {} && c.ex.working == map[] && c.ex.positions == map[] && c.plans == map[]
    && exists capacity: nat, hardstop: nat :: 0 < capacity <= MAX_SLOTS && c.oms == Init(capacity, hardstop)
  }

  ghost predicate CoupledRun(cfg: SimConfig, venue: nat, states: seq<Coupled>, acts: seq<Act>) {
    && |states| == |acts| + 1 && Starts(states[0])
    && (forall k :: 0 <= k < |states| ==> Shape(states[k].oms) && NoWrap(states[k].oms))
    && (forall k :: 0 <= k < |acts| ==> Enabled(states[k], venue, acts[k]))
    && (forall k :: 0 <= k < |acts| ==> states[k + 1] == Step(cfg, venue, states[k], acts[k]))
  }

  lemma StartAgrees(c: Coupled)
    requires Starts(c)
    ensures Agree(c)
  {
    var capacity: nat, hardstop: nat :| 0 < capacity <= MAX_SLOTS && c.oms == Init(capacity, hardstop);
    InitKeeps(capacity, hardstop);
    hide Inv;
    assert PositionsAgree(c);
  }

  /** Every request of the run has a positive price. */
  ghost predicate Priced(acts: seq<Act>) {
    forall k :: 0 <= k < |acts| && acts[k].SubmitAct? ==> acts[k].req.price > 0
  }

  ghost predicate HarmlessAct(c: Coupled, a: Act) {
    a.DeliverAct? ==> Harmless(c, a.event)
  }

  /** While only harmless events are delivered, the two sides agree, whatever the settings. */
  lemma {:induction false} RunAgrees(cfg: SimConfig, venue: nat, states: seq<Coupled>, acts: seq<Act>, n: nat)
    requires CoupledRun(cfg, venue, states, acts) && n < |states|
    requires forall k :: 0 <= k < n ==> HarmlessAct(states[k], acts[k])
    ensures Agree(states[n])
  {
    hide Agree, Step, Enabled, Shape, NoWrap, Starts, Harmless;
    if n == 0 {
      StartAgrees(states[0]);
    } else {
      RunAgrees(cfg, venue, states, acts, n - 1);
      var k := n - 1;
      assert states[k + 1] == Step(cfg, venue, states[k], acts[k]) && HarmlessAct(states[k], acts[k]);
      StepAgrees(cfg, venue, states[k], acts[k]);
    }
  }

  lemma StartOrderly(c: Coupled)
    requires Starts(c)
    ensures Orderly(c)
  {
  }

  lemma OrderlyAct(venue: nat, c: Coupled, a: Act)
    requires Agree(c) && Orderly(c) && Enabled(c, venue, a)
    ensures HarmlessAct(c, a)
  {
    AgreeParts(c);
    hide Agree, Orderly, OrdersAgree, Inv, IsTop;
    if a.DeliverAct? {
      OrderlyIsHarmless(c, a.event);
    }
  }

  /** With the last chunk scheduled last and positive prices, every run keeps the agreement. */
  lemma {:induction false} RunOrderly(cfg: SimConfig, venue: nat, states: seq<Coupled>, acts: seq<Act>, n: nat)
    requires CoupledRun(cfg, venue, states, acts) && LastChunkLast(cfg) && Priced(acts) && n < |states|
    ensures Agree(states[n]) && Orderly(states[n])
  {
    hide Agree, Orderly, Step, Enabled, Shape, NoWrap, Starts, Harmless, HarmlessAct, LastChunkLast;
    if n == 0 {
      StartAgrees(states[0]);
      StartOrderly(states[0]);
    } else {
      RunOrderly(cfg, venue, states, acts, n - 1);
      var k := n - 1;
      assert states[k + 1] == Step(cfg, venue, states[k], acts[k]);
      OrderlyAct(venue, states[k], acts[k]);
      HarmlessParts(states[k], acts[k]);
      StepAgrees(cfg, venue, states[k], acts[k]);
      StepOrderly(cfg, venue, states[k], acts[k]);
    }
  }

  lemma HarmlessParts(c: Coupled, a: Act)
    requires HarmlessAct(c, a)
    ensures a.DeliverAct? ==> Harmless(c, a.event)
  {
    hide Harmless;
  }

  /** The agreement kept over runs is enough for an observer. */
  lemma AgreeIsSeen(c: Coupled)
    requires Agree(c) && NoWrap(c.oms)
    ensures SidesAgree(c)
  {
    AgreeParts(c);
    hide Agree, Inv, Covered, PositionsAgree, QueueAgrees, SameLife;
    forall i | 0 <= i < |c.oms.book| && c.oms.book[i].id in c.ex.working ensures SameLife(c, i) {
      AgreedLife(c, i);
    }
  }

  lemma AgreedLife(c: Coupled, i: nat)
    requires Inv(c.oms) && OrdersAgree(c) && NoWrap(c.oms) && i < |c.oms.book| && c.oms.book[i].id in c.ex.working
    ensures SameLife(c, i)
  {
    var id := c.oms.book[i].id;
    assert OrderAgrees(c.oms, c.ex.working[id], c.plans[id], id);
    hide Inv;
    if c.plans[id].order < i {
      IdsDistinct(c.oms, c.plans[id].order, i);
    } else if i < c.plans[id].order {
      IdsDistinct(c.oms, i, c.plans[id].order);
    }
  }

  /** In every state of a run, an order the venue accepted works there exactly while the order
      manager holds it non-terminal, and then both have the same quantity left. */
  lemma OrdersAgreeInRuns(cfg: SimConfig, venue: nat, states: seq<Coupled>, acts: seq<Act>, n: nat, i: nat)
    requires CoupledRun(cfg, venue, states, acts) && LastChunkLast(cfg) && Priced(acts)
    requires n < |states| && i < |states[n].oms.book|
    requires states[n].oms.book[i].id in states[n].ex.working
    ensures
      var o := states[n].oms.book[i];
      var w := states[n].ex.working[o.id];
      && (w.alive <==> !IsTerminal(o.status))
      && (w.alive ==> w.remaining == o.Remaining())
  {
    RunOrderly(cfg, venue, states, acts, n);
    hide Agree, Orderly, SidesAgree, NoWrap, Shape;
    AgreeIsSeen(states[n]);
    SeenLife(states[n], i);
  }

  lemma SeenLife(c: Coupled, i: nat)
    requires SidesAgree(c) && i < |c.oms.book| && c.oms.book[i].id in c.ex.working
    ensures
      var o := c.oms.book[i];
      var w := c.ex.working[o.id];
      (w.alive <==> !IsTerminal(o.status)) && (w.alive ==> w.remaining == o.Remaining())
  {
    assert SameLife(c, i);
  }

  /** Every order the venue accepted is one the manager sent, and every order the manager holds
      non-terminal works at the venue. */
  lemma SameOrdersInRuns(cfg: SimConfig, venue: nat, states: seq<Coupled>, acts: seq<Act>, n: nat, id: OrderId)
    requires CoupledRun(cfg, venue, states, acts) && LastChunkLast(cfg) && Priced(acts)
    requires n < |states|
    ensures id in states[n].ex.working ==> Minted(states[n].oms, id)
    ensures id in states[n].oms.live ==> id in states[n].ex.working && states[n].ex.working[id].alive
  {
    RunOrderly(cfg, venue, states, acts, n);
    var c := states[n];
    hide Inv;
    if id in c.ex.working {
      assert OrderAgrees(c.oms, c.ex.working[id], c.plans[id], id);
      assert c.oms.book[c.plans[id].order].id == id;
    }
    if id in c.oms.live {
      LiveIsAlive(c, id);
    }
  }

  /** Net positions are equal after every step, on every instrument: reconciliation finds no drift
      however many orders are in flight. */
  lemma PositionsAgreeInRuns(cfg: SimConfig, venue: nat, states: seq<Coupled>, acts: seq<Act>, n: nat, inst: nat)
    requires CoupledRun(cfg, venue, states, acts) && LastChunkLast(cfg) && Priced(acts)
    requires n < |states|
    ensures VenuePosition(states[n].ex, inst) == PositionOf(states[n].oms, inst).net
  {
    RunOrderly(cfg, venue, states, acts, n);
  }

  /** The venue never has to refuse a cancel. */
  lemma NoCancelRejects(cfg: SimConfig, venue: nat, states: seq<Coupled>, acts: seq<Act>, n: nat, e: SimEvent)
    requires CoupledRun(cfg, venue, states, acts) && LastChunkLast(cfg) && Priced(acts)
    requires n < |states| && e in states[n].ex.queue
    ensures !e.what.CancelReject?
  {
    RunOrderly(cfg, venue, states, acts, n);
    assert EventOk(states[n], e);
  }

  // ---- where the agreement ends ----

  /** A fill that is due at a working order known to both sides, as far as quantity goes. */
  ghost predicate DueFill(c: Coupled, e: SimEvent, i: nat) {
    && Inv(c.oms) && i < |c.oms.book| && c.oms.book[i].id == e.what.id && !IsTerminal(c.oms.book[i].status)
    && Books(c, e) && e.what.trade !in TradesOf(c.oms, e.what.id)
    && c.ex.working[e.what.id].instrument == c.oms.book[i].instrument
    && c.ex.working[e.what.id].side == c.oms.book[i].side
    && c.ex.working[e.what.id].remaining == c.oms.book[i].Remaining()
    && 0 < e.what.qty <= c.oms.book[i].Remaining()
  }

  lemma UnpricedRefused(s: Oms, e: Inbound)
    requires Shape(s) && e.FillReport? && e.price <= 0 && IsCurrent(s, e.id)
    ensures Validate(s, e) != Accepted && !e.CancelReject?
  {
  }

  lemma MovedApart(c: Coupled, c': Coupled, inst: nat, signed: int)
    requires PositionsAgree(c) && signed != 0 && c'.oms.positions == c.oms.positions
    requires c'.ex.positions == c.ex.positions[inst := VenuePosition(c.ex, inst) + signed]
    ensures !PositionsAgree(c')
  {
    assert VenuePosition(c.ex, inst) == PositionOf(c.oms, inst).net;
    assert VenuePosition(c'.ex, inst) != PositionOf(c'.oms, inst).net;
  }

  lemma DueFillParts(c: Coupled, e: SimEvent, i: nat)
    requires DueFill(c, e, i)
    ensures Inv(c.oms) && i < |c.oms.book| && c.oms.book[i].id == e.what.id && !IsTerminal(c.oms.book[i].status)
    ensures Shape(c.oms) && Books(c, e) && e.what.FillReport? && e.what.id in c.ex.working
    ensures c.ex.working[e.what.id].alive && e.what.trade !in c.ex.working[e.what.id].seen
    ensures e.what.trade !in TradesOf(c.oms, e.what.id) && 0 < e.what.qty <= c.oms.book[i].Remaining()
    ensures c.ex.working[e.what.id].instrument == c.oms.book[i].instrument
    ensures c.ex.working[e.what.id].side == c.oms.book[i].side
    ensures c.ex.working[e.what.id].remaining == c.oms.book[i].Remaining()
    ensures SignedQty(c.ex.working[e.what.id].side, e.what.qty) != 0
  {
  }

  lemma QuietPositions(s: Oms, s': Oms)
    requires Quiet(s, s')
    ensures s'.positions == s.positions
  {
  }

  /** Why submitted prices must be positive: the venue books a fill at any price, the order manager
      refuses it at a price of zero or less, and the positions part. */
  lemma PositionsNeedPrice(c: Coupled, e: SimEvent, i: nat)
    requires DueFill(c, e, i) && PositionsAgree(c)
    ensures Shape(c.oms) && (PositionsAgree(DeliverNext(c, e)) <==> e.what.price > 0)
  {
    hide *;
    DueFillParts(c, e, i);
    FillFields(c, e);
    BookSide(c.ex, e);
    var c' := DeliverNext(c, e);
    var w := c.ex.working[e.what.id];
    if e.what.price > 0 {
      FillTouches(c.oms, e.what, i);
      FillsInParts(c.oms, c'.oms, e.what, i);
      MovedPositions(c, c', w.instrument, SignedQty(w.side, e.what.qty), e.what.price);
    } else {
      WorkingIsCurrent(c.oms, i);
      UnpricedRefused(c.oms, e.what);
      RefusedQuiet(c.oms, e.what);
      QuietPositions(c.oms, c'.oms);
      MovedApart(c, c', w.instrument, SignedQty(w.side, e.what.qty));
    }
  }

  /** Why the final chunk must come last: the venue takes an order off its book with it, the order
      manager only with the last unit. */
  lemma FinalChunkMustComplete(c: Coupled, e: SimEvent, i: nat)
    requires DueFill(c, e, i) && e.what.price > 0
    ensures Shape(c.oms) && i < |DeliverNext(c, e).oms.book| && e.what.id in DeliverNext(c, e).ex.working
    ensures DeliverNext(c, e).oms.book[i].id == e.what.id
    ensures (DeliverNext(c, e).ex.working[e.what.id].alive <==> !IsTerminal(DeliverNext(c, e).oms.book[i].status))
       <==> (e.final ==> e.what.qty == c.oms.book[i].Remaining())
  {
    hide *;
    DueFillParts(c, e, i);
    FillFields(c, e);
    BookSide(c.ex, e);
    var s' := DeliverNext(c, e).oms;
    FillTouches(c.oms, e.what, i);
    FillsInParts(c.oms, s', e.what, i);
    TouchedRecord(c.oms, s', i, FilledBy(c.oms.book[i], e.what.qty, e.what.price));
    FilledLife(c.oms.book[i], e.what.qty, e.what.price);
  }

  lemma FilledLife(o: Order, qty: int, price: int)
    ensures IsTerminal(FilledBy(o, qty, price).status) <==> qty == o.Remaining()
    ensures FilledBy(o, qty, price).id == o.id
  {
  }
  /** A fill the venue books while both sides agree is due at the manager too. */
  lemma BookedIsDue(c: Coupled, e: SimEvent)
    requires Agree(c) && e in c.ex.queue && Books(c, e)
    ensures DueFill(c, e, c.plans[e.what.id].order)
  {
    hide *;
    BookedParts(c, e);
    AgreeParts(c);
    AliveOrder(c, e.what.id);
    NewChunk(c, e);
    var pl := c.plans[e.what.id];
    ChunkIsFillable(c.oms, c.ex.working[e.what.id], pl, e.what.id, e.what.trade);
    DueFillWhole(c, e, pl.order);
  }

  lemma BookedParts(c: Coupled, e: SimEvent)
    requires Books(c, e)
    ensures e.what.FillReport? && e.what.id in c.ex.working && e.what.id in c.plans && c.ex.working[e.what.id].alive
  {
  }

  lemma DueFillWhole(c: Coupled, e: SimEvent, i: nat)
    requires Inv(c.oms) && i < |c.oms.book| && c.oms.book[i].id == e.what.id && !IsTerminal(c.oms.book[i].status)
    requires Books(c, e) && e.what.FillReport? && e.what.id in c.ex.working &&
      e.what.trade !in TradesOf(c.oms, e.what.id)
    requires c.ex.working[e.what.id].instrument == c.oms.book[i].instrument
    requires c.ex.working[e.what.id].side == c.oms.book[i].side
    requires c.ex.working[e.what.id].remaining == c.oms.book[i].Remaining()
    requires 0 < e.what.qty <= c.oms.book[i].Remaining()
    ensures DueFill(c, e, i)
  {
    hide Inv, Books;
  }

  /** A chunk is all that is left exactly when every other chunk has been booked. */
  lemma CompletesExactly(c: Coupled, e: SimEvent)
    requires Agree(c) && e in c.ex.queue && Books(c, e)
    ensures c.plans[e.what.id].order < |c.oms.book| && e.what.FillReport?
    ensures e.what.qty == c.oms.book[c.plans[e.what.id].order].Remaining() <==>
      e.final && forall k: nat :: k + 1 < c.plans[e.what.id].count ==> k in c.plans[e.what.id].booked
  {
    hide *;
    BookedParts(c, e);
    AgreeParts(c);
    AliveOrder(c, e.what.id);
    NewChunk(c, e);
    var pl, w := c.plans[e.what.id], c.ex.working[e.what.id];
    RemainsIs(c.oms, w, pl, e.what.id);
    ChunkArithmetic(pl, w.size, ChunkOf(pl, e.what.trade));
  }

  lemma RemainsIs(s: Oms, w: Working, pl: Plan, id: OrderId)
    requires OrderAgrees(s, w, pl, id) && w.alive
    ensures pl.order < |s.book| && s.book[pl.order].Remaining() == w.size - |pl.booked| * pl.base == w.remaining
    ensures pl.count > 0 ==> pl.count - 1 !in pl.booked
    ensures forall t: nat :: t in w.seen <==> t >= pl.first && ChunkOf(pl, t) in pl.booked
    ensures PlanOk(pl, w.size)
  {
  }

  /** Exactly which deliveries part the two sides: a fill at a price of zero or less, and a last chunk
      that comes before the others. */
  lemma DeliverExactly(c: Coupled, e: SimEvent)
    requires Agree(c) && Shape(c.oms) && NoWrap(c.oms) && NoWrap(DeliverNext(c, e).oms) && e in c.ex.queue
    ensures SidesAgree(DeliverNext(c, e)) <==> Harmless(c, e)
  {
    hide *;
    if Harmless(c, e) {
      DeliverAgrees(c, e);
      AgreeIsSeen(DeliverNext(c, e));
    } else {
      HarmfulParts(c, e);
      BookedIsDue(c, e);
      AgreeParts(c);
      var i := c.plans[e.what.id].order;
      if e.what.price <= 0 {
        PositionsNeedPrice(c, e, i);
        ApartInPositions(DeliverNext(c, e));
      } else {
        CompletesExactly(c, e);
        FinalChunkMustComplete(c, e, i);
        ApartInLife(DeliverNext(c, e), i);
      }
    }
  }

  lemma HarmfulParts(c: Coupled, e: SimEvent)
    requires !Harmless(c, e)
    ensures Books(c, e) && e.what.FillReport? && e.what.id in c.plans
    ensures e.what.price <= 0 ||
      (e.final && exists k: nat :: k + 1 < c.plans[e.what.id].count && k !in c.plans[e.what.id].booked)
  {
  }

  lemma ApartInPositions(c: Coupled)
    requires !PositionsAgree(c)
    ensures !SidesAgree(c)
  {
  }

  lemma ApartInLife(c: Coupled, i: nat)
    requires i < |c.oms.book| && c.oms.book[i].id in c.ex.working
    requires c.ex.working[c.oms.book[i].id].alive <==> IsTerminal(c.oms.book[i].status)
    ensures !SidesAgree(c)
  {
    assert !SameLife(c, i);
  }

  /** Over a whole run, at any settings and prices: both sides agree in every state up to n exactly
      when every event delivered on the way was harmless. */
  lemma {:induction false} RunAgreesExactly(cfg: SimConfig, venue: nat, states: seq<Coupled>, acts: seq<Act>, n: nat)
    requires CoupledRun(cfg, venue, states, acts) && n < |states|
    ensures (forall k :: 0 <= k <= n ==> SidesAgree(states[k]))
       <==> (forall k :: 0 <= k < n ==> HarmlessAct(states[k], acts[k]))
  {
    hide Agree, SidesAgree, Step, Enabled, Shape, NoWrap, Starts, Harmless, HarmlessAct;
    if n == 0 {
      StartAgrees(states[0]);
      AgreeIsSeen(states[0]);
    } else {
      RunAgreesExactly(cfg, venue, states, acts, n - 1);
      if forall k :: 0 <= k < n - 1 ==> HarmlessAct(states[k], acts[k]) {
        RunAgrees(cfg, venue, states, acts, n - 1);
        var k := n - 1;
        assert states[k + 1] == Step(cfg, venue, states[k], acts[k]);
        ActExactly(cfg, venue, states[k], acts[k]);
      }
    }
  }

  lemma ActExactly(cfg: SimConfig, venue: nat, c: Coupled, a: Act)
    requires Agree(c) && Shape(c.oms) && Enabled(c, venue, a)
    requires NoWrap(c.oms) && NoWrap(Step(cfg, venue, c, a).oms)
    ensures SidesAgree(Step(cfg, venue, c, a)) <==> HarmlessAct(c, a)
  {
    hide *;
    if a.DeliverAct? {
      StepIsDelivery(cfg, venue, c, a);
      DeliverExactly(c, a.event);
      HarmlessDelivery(c, a);
    } else {
      HarmlessOther(c, a);
      StepAgrees(cfg, venue, c, a);
      AgreeIsSeen(Step(cfg, venue, c, a));
    }
  }

  lemma HarmlessDelivery(c: Coupled, a: Act)
    requires a.DeliverAct?
    ensures HarmlessAct(c, a) <==> Harmless(c, a.event)
  {
  }

  lemma HarmlessOther(c: Coupled, a: Act)
    requires !a.DeliverAct?
    ensures HarmlessAct(c, a)
  {
  }
}
