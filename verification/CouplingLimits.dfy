/** Where the agreement of the two sides ends: the runs that part them, for every setting that allows one. */
module CouplingLimits {
  import opened OrderIds
  import opened Orders
  import opened OrderManagerSpec
  import opened OrderManagerInvariants
  import opened OrderManagerKeeps
  import opened OrderManagerRuns
  import opened SimExchangeSpec
  import opened Coupling
  import opened CouplingDelivery
  import opened CouplingRequests
  import opened CouplingSteps
  import opened CouplingRuns

  /** Every request of the run has the price p. */
  ghost predicate PricedAt(acts: seq<Act>, p: int) {
    forall k :: 0 <= k < |acts| && acts[k].SubmitAct? ==> acts[k].req.price == p
  }

  ghost predicate AlwaysAgree(states: seq<Coupled>) {
    forall n :: 0 <= n < |states| ==> SidesAgree(states[n])
  }

  ghost predicate RunAt(cfg: SimConfig, p: int, states: seq<Coupled>, acts: seq<Act>) {
    CoupledRun(cfg, 0, states, acts) && PricedAt(acts, p)
  }

  // ---- extending a run ----

  lemma RunGrows(cfg: SimConfig, p: int, states: seq<Coupled>, acts: seq<Act>, a: Act)
    requires RunAt(cfg, p, states, acts) && |states| > 0
    requires Shape(states[|states| - 1].oms) && Enabled(states[|states| - 1], 0, a)
    requires a.SubmitAct? ==> a.req.price == p
    requires
      var c' := Step(cfg, 0, states[|states| - 1], a);
      Shape(c'.oms) && NoWrap(c'.oms)
    ensures RunAt(cfg, p, states + [Step(cfg, 0, states[|states| - 1], a)], acts + [a])
  {
    hide Shape, NoWrap, Enabled, Step, Starts;
  }

  // ---- the first event to come ----

  lemma {:induction false} TopExists(queue: set<SimEvent>) returns (e: SimEvent)
    requires queue != {}
    ensures IsTop(queue, e)
  {
    var f :| f in queue;
    if queue == {f} {
      e := f;
    } else {
      var g := TopExists(queue - {f});
      e := if Before(f, g) then f else g;
      forall h | h in queue ensures !Before(h, e) {
        assert h != f ==> h in queue - {f};
      }
    }
  }

  // ---- an order that will part the two sides ----

  /** The order's fills alone are at work, and the first that matters is not harmless: either the
      price is not positive, or the last chunk comes before chunk j. */
  ghost predicate Doomed(c: Coupled, id: OrderId, j: nat, e: SimEvent) {
    && Agree(c) && Shape(c.oms) && NoWrap(c.oms)
    && id in c.plans && id in c.ex.working && c.ex.working[id].alive
    && e in c.ex.queue && e.what.FillReport?
    && (forall f :: f in c.ex.queue ==> f.what.id == id && (f.what.Confirm? || f.what.FillReport?))
    && var pl := c.plans[id];
    && if c.ex.working[id].price <= 0 then pl.booked == {}
       else e.final && j + 1 < pl.count && j !in pl.booked
            && forall f :: f in c.ex.queue && Carries(f, id, pl.first + j) ==> Before(e, f)
  }
  lemma DoomedParts(c: Coupled, id: OrderId, j: nat, e: SimEvent)
    requires Doomed(c, id, j, e)
    ensures Agree(c) && Shape(c.oms) && NoWrap(c.oms)
    ensures id in c.plans && id in c.ex.working && c.ex.working[id].alive && e in c.ex.queue && e.what.FillReport?
    ensures forall f :: f in c.ex.queue ==> f.what.id == id && (f.what.Confirm? || f.what.FillReport?)
    ensures c.ex.working[id].price <= 0 ==> c.plans[id].booked == {}
    ensures c.ex.working[id].price > 0 ==> (
      && e.final && j + 1 < c.plans[id].count && j !in c.plans[id].booked
      && forall f :: f in c.ex.queue && Carries(f, id, c.plans[id].first + j) ==> Before(e, f))
  {
    hide Agree, Shape, NoWrap;
  }

  lemma FillIsPlanned(c: Coupled, t: SimEvent)
    requires Agree(c) && t in c.ex.queue && t.what.FillReport?
    ensures t.what.id in c.plans && t.what.id in c.ex.working && Planned(c.plans[t.what.id], t.what.trade)
    ensures t.what.price == c.ex.working[t.what.id].price
    ensures t.final <==> t.what.trade + 1 == c.plans[t.what.id].first + c.plans[t.what.id].count
  {
    AgreeParts(c);
    assert EventOk(c, t);
    hide Agree, Inv, OrdersAgree, Covered, PositionsAgree, QueueAgrees;
  }

  /** The venue books a fill of a working order exactly when its chunk was not booked. */
  lemma BooksExactly(c: Coupled, t: SimEvent)
    requires Agree(c) && t in c.ex.queue && t.what.FillReport? && t.what.id in c.ex.working &&
      c.ex.working[t.what.id].alive
    ensures t.what.id in c.plans
    ensures Books(c, t) <==> ChunkOf(c.plans[t.what.id], t.what.trade) !in c.plans[t.what.id].booked
    ensures Books(c, t) <==> t.what.trade !in c.ex.working[t.what.id].seen
  {
    FillIsPlanned(c, t);
    AgreeParts(c);
    AliveOrder(c, t.what.id);
    hide Agree, Inv, OrderAgrees, OrdersAgree, Covered, PositionsAgree, QueueAgrees;
    RemainsIs(c.oms, c.ex.working[t.what.id], c.plans[t.what.id], t.what.id);
  }

  lemma HarmfulTop(c: Coupled, id: OrderId, j: nat, e: SimEvent, t: SimEvent)
    requires Doomed(c, id, j, e) && t in c.ex.queue && t.what.FillReport?
    requires id in c.ex.working && (c.ex.working[id].price <= 0 || t.final)
    ensures !Harmless(c, t)
  {
    hide *;
    DoomedParts(c, id, j, e);
    FillIsPlanned(c, t);
    BooksExactly(c, t);
    AgreeParts(c);
    AliveOrder(c, id);
    RemainsIs(c.oms, c.ex.working[id], c.plans[id], id);
    IsHarmful(c, t, j);
  }

  lemma IsHarmful(c: Coupled, t: SimEvent, j: nat)
    requires t.what.FillReport? && t.what.id in c.plans && t.what.id in c.ex.working
    requires Books(c, t) <==> ChunkOf(c.plans[t.what.id], t.what.trade) !in c.plans[t.what.id].booked
    requires Planned(c.plans[t.what.id], t.what.trade)
    requires
      var pl := c.plans[t.what.id];
      || (t.what.price <= 0 && pl.booked == {})
      || (t.final && t.what.trade + 1 == pl.first + pl.count && pl.count - 1 !in pl.booked && j + 1 < pl.count &&
        j !in pl.booked)
    ensures !Harmless(c, t)
  {
    hide Books;
  }

  // ---- no slot is recycled on the way ----

  lemma ReceiveSameRecycles(s: Oms, e: Inbound)
    requires Shape(s) && (e.Confirm? || e.FillReport?)
    requires e.FillReport? && Validate(s, e) == Accepted ==> IsCurrent(s, e.id) && e.qty != OrderOf(s, e.id).Remaining()
    ensures Receive(s, e).recycles == s.recycles
  {
    hide Validate, OnConfirm, OnFill, OnPlaceReject, OnCancelReject, OnCancelled, Shape, OrderOf, IsCurrent;
    if e.Confirm? {
      ConfirmSameRecycles(s, e);
    } else {
      FillSameRecycles(s, e);
    }
  }

  lemma ConfirmSameRecycles(s: Oms, e: Inbound)
    requires Shape(s) && e.Confirm?
    ensures OnConfirm(s, e).recycles == s.recycles
  {
    hide *;
    if Validate(s, e) != Accepted {
      ConfirmDropped(s, e);
      FlagsRecycles(s, OnConfirm(s, e));
    } else if FirstConfirm(s, e) {
      ConfirmAmends(s, e);
      AmendsRecycles(s, OnConfirm(s, e), e.id, OrderOf(s, e.id).(status := Confirmed));
    } else {
      ConfirmRepeated(s, e);
    }
  }

  lemma FlagsRecycles(s: Oms, s': Oms)
    requires Flags(s, s')
    ensures s'.recycles == s.recycles
  {
  }

  lemma AmendsRecycles(s: Oms, s': Oms, id: OrderId, o: Order)
    requires Amends(s, s', id, o)
    ensures s'.recycles == s.recycles
  {
  }

  lemma FillSameRecycles(s: Oms, e: Inbound)
    requires Shape(s) && e.FillReport?
    requires Validate(s, e) == Accepted ==> IsCurrent(s, e.id) && e.qty != OrderOf(s, e.id).Remaining()
    ensures OnFill(s, e).recycles == s.recycles
  {
    hide Validate, Account, Retire, Shape, OrderOf, IsCurrent;
    if Validate(s, e) == Accepted {
      AccountSameRecycles(s, e);
    }
  }

  lemma AccountSameRecycles(s: Oms, e: Inbound)
    requires Shape(s) && e.FillReport? && IsCurrent(s, e.id)
    ensures Account(s, e).recycles == s.recycles
  {
  }

  lemma TopKeepsRecycles(c: Coupled, id: OrderId, j: nat, e: SimEvent, t: SimEvent)
    requires Doomed(c, id, j, e) && t in c.ex.queue && Shape(c.oms)
    ensures Receive(c.oms, t.what).recycles == c.oms.recycles
  {
    hide *;
    DoomedParts(c, id, j, e);
    if t.what.FillReport? {
      AgreeParts(c);
      AliveOrder(c, id);
      WorkingIsCurrent(c.oms, c.plans[id].order);
      BooksExactly(c, t);
      if c.ex.working[id].price <= 0 {
        FillIsPlanned(c, t);
        UnpricedRefused(c.oms, t.what);
      } else if Books(c, t) {
        CompletesExactly(c, t);
      } else {
        RepeatRefused(c, t);
      }
    }
    ReceiveSameRecycles(c.oms, t.what);
  }

  lemma SameRecyclesNoWrap(s: Oms, s': Oms)
    requires NoWrap(s) && s'.recycles == s.recycles
    ensures NoWrap(s')
  {
  }

  lemma DoomedDelivery(c: Coupled, id: OrderId, j: nat, e: SimEvent, t: SimEvent)
    requires Doomed(c, id, j, e) && t in c.ex.queue
    ensures Shape(c.oms)
    ensures Shape(DeliverNext(c, t).oms) && NoWrap(DeliverNext(c, t).oms)
  {
    hide *;
    DoomedParts(c, id, j, e);
    DeliveredInv(c, t);
    InvShape(Receive(c.oms, t.what));
    TopKeepsRecycles(c, id, j, e, t);
    SameRecyclesNoWrap(c.oms, Receive(c.oms, t.what));
    DeliveredOms(c, t);
  }

  lemma DeliveredOms(c: Coupled, t: SimEvent)
    requires Shape(c.oms)
    ensures DeliverNext(c, t).oms == Receive(c.oms, t.what)
  {
    hide Receive, Shape, Pop;
  }

  // ---- harmless deliveries leave the order doomed ----

  lemma ConfirmLeaves(c: Coupled, t: SimEvent)
    requires Shape(c.oms) && t.what.Confirm?
    ensures Harmless(c, t)
    ensures DeliverNext(c, t).plans == c.plans && DeliverNext(c, t).ex.working == c.ex.working
  {
    hide Receive, Shape;
  }

  lemma StillDoomed(c: Coupled, c': Coupled, id: OrderId, j: nat, e: SimEvent, t: SimEvent)
    requires Doomed(c, id, j, e) && Agree(c') && Shape(c'.oms) && NoWrap(c'.oms)
    requires c'.ex.queue == c.ex.queue - {t} && t != e
    requires id in c'.plans && id in c'.ex.working && c'.ex.working[id].alive &&
      c'.ex.working[id].price == c.ex.working[id].price
    requires c'.plans[id].first == c.plans[id].first && c'.plans[id].count == c.plans[id].count
    requires c'.plans[id].booked == c.plans[id].booked ||
      (c.ex.working[id].price > 0 && exists k :: k != j && c'.plans[id].booked == c.plans[id].booked + {k})
    ensures Doomed(c', id, j, e)
  {
    hide Agree, Shape, NoWrap;
  }

  lemma DoomedConfirm(c: Coupled, id: OrderId, j: nat, e: SimEvent, t: SimEvent)
    requires Doomed(c, id, j, e) && t in c.ex.queue && t.what.Confirm?
    ensures Shape(c.oms) && Doomed(DeliverNext(c, t), id, j, e)
  {
    hide *;
    DoomedParts(c, id, j, e);
    ConfirmLeaves(c, t);
    DeliverAgrees(c, t);
    DeliveredTerms(c, t);
    DoomedDelivery(c, id, j, e, t);
    StillDoomed(c, DeliverNext(c, t), id, j, e, t);
  }

  lemma BookedLeaves(c: Coupled, t: SimEvent)
    requires Agree(c) && Shape(c.oms) && t in c.ex.queue && Books(c, t) && t.what.price > 0 && !t.final
    ensures t.what.id in c.ex.working && t.what.id in c.plans
    ensures
      var c' := DeliverNext(c, t);
      var id := t.what.id;
      && id in c'.ex.working && id in c'.plans && c'.ex.working[id].alive
      && c'.ex.working[id].price == c.ex.working[id].price && c'.plans[id] == WithBooked(c.plans[id], t.what.trade)
  {
    hide *;
    FillFields(c, t);
    BookSide(c.ex, t);
    BookedIsDue(c, t);
    AgreeParts(c);
    DueFillParts(c, t, c.plans[t.what.id].order);
    CompletesExactly(c, t);
  }

  lemma RepeatLeaves(c: Coupled, t: SimEvent)
    requires Shape(c.oms) && t.what.FillReport? && t.what.id in c.ex.working && c.ex.working[t.what.id].alive
    requires t.what.trade in c.ex.working[t.what.id].seen
    ensures DeliverNext(c, t).plans == c.plans && DeliverNext(c, t).ex.working == c.ex.working
  {
    var w := c.ex.working[t.what.id];
    assert w.seen + {t.what.trade} == w.seen;
    assert c.ex.working[t.what.id := w] == c.ex.working;
    hide Receive, Shape;
  }

  lemma NotFinalHarmless(c: Coupled, t: SimEvent)
    requires t.what.FillReport? && !t.final && t.what.price > 0
    ensures Harmless(c, t)
  {
    hide Books;
  }

  /** A first event that is not the last chunk is not chunk j either: chunk j is behind e. */
  lemma TopIsOther(queue: set<SimEvent>, e: SimEvent, t: SimEvent, pl: Plan, j: nat)
    requires IsTop(queue, t) && e in queue && t.what.FillReport? && Planned(pl, t.what.trade)
    requires forall f :: f in queue && Carries(f, t.what.id, pl.first + j) ==> Before(e, f)
    ensures ChunkOf(pl, t.what.trade) != j
  {
    assert Carries(t, t.what.id, t.what.trade);
    hide Before;
  }

  lemma DoomedFill(c: Coupled, id: OrderId, j: nat, e: SimEvent, t: SimEvent)
    requires Doomed(c, id, j, e) && IsTop(c.ex.queue, t) && t.what.FillReport? && !t.final
    requires id in c.ex.working && c.ex.working[id].price > 0
    ensures Shape(c.oms) && Doomed(DeliverNext(c, t), id, j, e)
  {
    hide *;
    TopQueued(c);
    DoomedParts(c, id, j, e);
    FillIsPlanned(c, t);
    NotFinalHarmless(c, t);
    DeliverAgrees(c, t);
    DeliveredTerms(c, t);
    DoomedDelivery(c, id, j, e, t);
    BooksExactly(c, t);
    if Books(c, t) {
      BookedLeaves(c, t);
      WithBookedIs(c.plans[id], t.what.trade);
      TopIsOther(c.ex.queue, e, t, c.plans[id], j);
    } else {
      RepeatLeaves(c, t);
    }
    StillDoomed(c, DeliverNext(c, t), id, j, e, t);
  }
  /** The venue's clock alone changes nothing. */
  lemma DoomedLater(c: Coupled, c': Coupled, id: OrderId, j: nat, e: SimEvent)
    requires Doomed(c, id, j, e) && c' == c.(ex := c.ex.(now := c'.ex.now))
    ensures Doomed(c', id, j, e)
  {
    hide *;
    DoomedParts(c, id, j, e);
    VenueFlagAgrees(c, c');
    DoomedWhole(c, c', id, j, e);
  }

  lemma DoomedWhole(c: Coupled, c': Coupled, id: OrderId, j: nat, e: SimEvent)
    requires Doomed(c, id, j, e) && c' == c.(ex := c.ex.(now := c'.ex.now)) && Agree(c')
    ensures Doomed(c', id, j, e)
  {
    hide Agree, Shape, NoWrap;
  }

  // ---- the run that parts the two sides ----

  ghost function Lateness(now: int, at: int): nat {
    if at > now then at - now else 0
  }

  lemma StepIsTick(cfg: SimConfig, c: Coupled)
    requires Shape(c.oms)
    ensures Enabled(c, 0, TickAct) && Step(cfg, 0, c, TickAct) == c.(ex := c.ex.(now := c.ex.now + cfg.step))
  {
  }

  lemma DeliveryEnabled(c: Coupled, t: SimEvent)
    requires IsTop(c.ex.queue, t) && t.at <= c.ex.now
    ensures Enabled(c, 0, DeliverAct(t))
  {
    hide IsTop;
  }

  lemma PartedOnce(states: seq<Coupled>)
    requires |states| > 0 && !SidesAgree(states[|states| - 1])
    ensures !AlwaysAgree(states)
  {
    hide SidesAgree;
  }

  /** The clock ticks and the events of a doomed order come in, until the two sides part. */
  lemma {:induction false} Drain(
    cfg: SimConfig, p: int, states: seq<Coupled>, acts: seq<Act>, id: OrderId, j: nat, e: SimEvent, t: SimEvent)
    returns (states': seq<Coupled>, acts': seq<Act>)
    requires cfg.step > 0 && RunAt(cfg, p, states, acts) && |states| > 0
    requires Doomed(states[|states| - 1], id, j, e) && IsTop(states[|states| - 1].ex.queue, t)
    ensures RunAt(cfg, p, states', acts') && !AlwaysAgree(states')
    decreases |states[|states| - 1].ex.queue|, Lateness(states[|states| - 1].ex.now, t.at)
  {
    hide RunAt, Doomed, IsTop, Step, Enabled, Agree, Shape, NoWrap, AlwaysAgree, DeliverNext, Harmless, SidesAgree;
    var c := states[|states| - 1];
    DoomedParts(c, id, j, e);
    if t.at > c.ex.now {
      StepIsTick(cfg, c);
      var c' := Step(cfg, 0, c, TickAct);
      RunGrows(cfg, p, states, acts, TickAct);
      DoomedLater(c, c', id, j, e);
      states', acts' := Drain(cfg, p, states + [c'], acts + [TickAct], id, j, e, t);
    } else {
      TopQueued(c);
      DeliveryEnabled(c, t);
      var a := DeliverAct(t);
      var c' := Step(cfg, 0, c, a);
      StepIsDelivery(cfg, 0, c, a);
      DoomedDelivery(c, id, j, e, t);
      RunGrows(cfg, p, states, acts, a);
      if t.what.FillReport? && (c.ex.working[id].price <= 0 || t.final) {
        HarmfulTop(c, id, j, e, t);
        DeliverExactly(c, t);
        states', acts' := states + [c'], acts + [a];
        PartedOnce(states');
      } else {
        var t' := AfterDelivery(c, id, j, e, t);
        states', acts' := Drain(cfg, p, states + [c'], acts + [a], id, j, e, t');
      }
    }
  }

  lemma AfterDelivery(c: Coupled, id: OrderId, j: nat, e: SimEvent, t: SimEvent) returns (t': SimEvent)
    requires Doomed(c, id, j, e) && IsTop(c.ex.queue, t) && id in c.ex.working
    requires t.what.Confirm? || (t.what.FillReport? && c.ex.working[id].price > 0 && !t.final)
    ensures Shape(c.oms) && Doomed(DeliverNext(c, t), id, j, e) && IsTop(DeliverNext(c, t).ex.queue, t')
    ensures |DeliverNext(c, t).ex.queue| < |c.ex.queue|
  {
    hide *;
    TopQueued(c);
    if t.what.Confirm? {
      DoomedConfirm(c, id, j, e, t);
    } else {
      DoomedFill(c, id, j, e, t);
    }
    DeliveredTerms(c, t);
    DoomedParts(DeliverNext(c, t), id, j, e);
    t' := TopExists(DeliverNext(c, t).ex.queue);
  }

  // ---- its first step ----

  ghost function Opened(): Coupled {
    Coupled(Init(1, 0), Exchange(0, 0, 0, {}, map[], map[], true), map[])
  }

  ghost function OneLot(cfg: SimConfig, p: int): OrderRequest {
    OrderRequest(0, Buy, Chunks(cfg), p, 0, 0, false)
  }

  const PLAIN := Draws(false, false, {})

  lemma OpenedStarts()
    ensures Starts(Opened()) && Shape(Opened().oms) && NoWrap(Opened().oms)
    ensures ReachesVenue(Opened().oms, VenueRoute(0, Opened().ex)) && Opened().ex.connected
  {
  }

  lemma OneLotOk(cfg: SimConfig, p: int)
    ensures OneLot(cfg, p).workerOffset < SCRATCH_SLOTS && RequestOk(OneLot(cfg, p), 0)
    ensures WellFormed(OneLot(cfg, p), Client(0, Ok))
    ensures FilledChunks(cfg, Chunks(cfg)) == Chunks(cfg)
  {
    assert Chunks(cfg) / Chunks(cfg) == 1;
  }

  ghost function FirstLot(cfg: SimConfig, p: int): Order {
    OneLotOk(cfg, p);
    OpenedStarts();
    NewOrder(Opened().oms, OneLot(cfg, p), 0)
  }

  ghost function FirstPlan(cfg: SimConfig, p: int): Plan {
    PlanFor(cfg, Opened().ex, FirstLot(cfg, p), PLAIN, 0)
  }

  ghost function FirstState(cfg: SimConfig, p: int): Coupled {
    OneLotOk(cfg, p);
    OpenedStarts();
    SubmitStep(cfg, 0, Opened(), OneLot(cfg, p), PLAIN, 0)
  }

  lemma FirstStateIs(cfg: SimConfig, p: int)
    ensures
      var o := FirstLot(cfg, p);
      var c := FirstState(cfg, p);
      && c.ex == Place(cfg, Opened().ex, o, PLAIN) && c.plans == map[o.id := FirstPlan(cfg, p)]
      && c.oms.recycles == Opened().oms.recycles
      && o.size == Chunks(cfg) && o.price == p
  {
    OpenedStarts();
    OneLotOk(cfg, p);
    SubmitSameRecycles(Opened().oms, OneLot(cfg, p), VenueRoute(0, Opened().ex), 0);
    hide Submit, Place, PlanFor, Init, Shape, NoWrap, ReachesVenue;
  }

  lemma FirstStateAgrees(cfg: SimConfig, p: int)
    ensures Agree(FirstState(cfg, p)) && Shape(FirstState(cfg, p).oms) && NoWrap(FirstState(cfg, p).oms)
  {
    hide *;
    OpenedStarts();
    OneLotOk(cfg, p);
    StartAgrees(Opened());
    FirstStateIs(cfg, p);
    SameRecyclesNoWrap(Opened().oms, FirstState(cfg, p).oms);
    FirstIsSubmit(cfg, p);
    SubmitAgrees(cfg, 0, Opened(), OneLot(cfg, p), PLAIN, 0);
    AgreeParts(FirstState(cfg, p));
    InvShape(FirstState(cfg, p).oms);
  }

  lemma FirstIsSubmit(cfg: SimConfig, p: int)
    ensures OneLot(cfg, p).workerOffset < SCRATCH_SLOTS && Shape(Opened().oms)
    ensures FirstState(cfg, p) == SubmitStep(cfg, 0, Opened(), OneLot(cfg, p), PLAIN, 0)
  {
    OneLotOk(cfg, p);
    OpenedStarts();
    hide Init, SubmitStep, Shape;
  }

  lemma FirstRun(cfg: SimConfig, p: int)
    ensures RunAt(cfg, p, [Opened(), FirstState(cfg, p)], [SubmitAct(OneLot(cfg, p), PLAIN, 0)])
  {
    OpenedStarts();
    OneLotOk(cfg, p);
    FirstStateAgrees(cfg, p);
    hide Init, Submit, Place, PlanFor, Agree, Shape, NoWrap, Opened, Starts, SubmitStep, RequestOk;
    FirstIsSubmit(cfg, p);
  }
  /** The queue after the first submit: its confirm, and the chunks of its plan at their delays. */
  lemma FirstQueue(cfg: SimConfig, p: int)
    ensures
      var o, pl, x := FirstLot(cfg, p), FirstPlan(cfg, p), FirstState(cfg, p).ex;
      && (forall f :: f in x.queue ==> f.what.id == o.id && (f.what.Confirm? || f.what.FillReport?))
      && (forall f :: f in x.queue && f.what.FillReport? ==> ChunkEvent(cfg, x, f, o, pl, pl.count))
      && (forall k: nat :: k < pl.count ==> HasCopy(cfg, x, o, pl, k))
      && pl.count == Chunks(cfg) && pl.booked == {} && x.now == 0
      && o.id in x.working && x.working[o.id].alive && x.working[o.id].price == p
  {
    FirstStateIs(cfg, p);
    OneLotOk(cfg, p);
    FirstPlanIs(cfg, p);
    var o, x := FirstLot(cfg, p), Opened().ex;
    assert x.queue == {} && x.now == 0;
    AcceptedWorks(x, o);
    hide *;
    PlaceFills(cfg, x, o, PLAIN, 0);
    PlainEvents(cfg, x, Place(cfg, x, o, PLAIN), o, FirstPlan(cfg, p));
  }

  lemma FirstPlanIs(cfg: SimConfig, p: int)
    ensures !PLAIN.reject && !PLAIN.unsolicited && FirstLot(cfg, p).size == Chunks(cfg) > 0
    ensures FirstPlan(cfg, p) == PlanFor(cfg, Opened().ex, FirstLot(cfg, p), PLAIN, 0)
    ensures FirstPlan(cfg, p) == FillPlan(cfg, Opened().ex, FirstLot(cfg, p), 0)
    ensures FirstPlan(cfg, p).count == Chunks(cfg) && FirstPlan(cfg, p).booked == {}
  {
    OneLotOk(cfg, p);
    OpenedStarts();
    hide Init, Shape;
  }

  lemma AcceptedWorks(x: Exchange, o: Order)
    ensures o.id in Accept(x, o).working && Accept(x, o).working[o.id].alive &&
      Accept(x, o).working[o.id].price == o.price
  {
  }

  lemma PlainEvents(cfg: SimConfig, x: Exchange, x': Exchange, o: Order, pl: Plan)
    requires NewEvents(cfg, x, x', o, pl) && x.queue == {}
    ensures forall f :: f in x'.queue ==> f.what.id == o.id
    ensures forall f :: f in x'.queue && f.what.FillReport? ==> ChunkEvent(cfg, x', f, o, pl, pl.count)
  {
    hide ChunkEvent;
  }

  lemma CopyOf(cfg: SimConfig, x: Exchange, o: Order, pl: Plan, k: nat) returns (e: SimEvent)
    requires HasCopy(cfg, x, o, pl, k)
    ensures FirstCopy(cfg, x, e, o, pl, k)
  {
    e :| FirstCopy(cfg, x, e, o, pl, k);
  }

  /** The last chunk was scheduled before chunk j. */
  lemma LastComesEarly(cfg: SimConfig, x: Exchange, o: Order, pl: Plan, j: nat, e: SimEvent)
    requires pl.count == Chunks(cfg) && j + 1 < pl.count && ChunkDelay(cfg, j) > ChunkDelay(cfg, pl.count - 1)
    requires FirstCopy(cfg, x, e, o, pl, pl.count - 1) && ChunkEvent(cfg, x, e, o, pl, pl.count)
    requires forall f :: f in x.queue && f.what.FillReport? ==> ChunkEvent(cfg, x, f, o, pl, pl.count)
    ensures e.final && forall f :: f in x.queue && Carries(f, o.id, pl.first + j) ==> Before(e, f)
  {
    hide ChunkDelay, LastChunkLast;
  }

  lemma FirstIsDoomed(cfg: SimConfig, p: int) returns (j: nat, e: SimEvent)
    requires p <= 0 || !LastChunkLast(cfg)
    ensures Doomed(FirstState(cfg, p), FirstLot(cfg, p).id, j, e)
  {
    hide *;
    var c, o, pl := FirstState(cfg, p), FirstLot(cfg, p), FirstPlan(cfg, p);
    FirstQueue(cfg, p);
    FirstStateAgrees(cfg, p);
    FirstStateIs(cfg, p);
    FirstPlanIs(cfg, p);
    if p <= 0 {
      j := 0;
      e := CopyOf(cfg, c.ex, o, pl, 0);
      CopyIsFill(cfg, c.ex, o, pl, 0, e);
    } else {
      j := LateChunk(cfg);
      e := CopyOf(cfg, c.ex, o, pl, pl.count - 1);
      CopyIsFill(cfg, c.ex, o, pl, pl.count - 1, e);
      LastComesEarly(cfg, c.ex, o, pl, j, e);
    }
    IsDoomed(c, o.id, pl, j, e);
  }

  lemma CopyIsFill(cfg: SimConfig, x: Exchange, o: Order, pl: Plan, k: nat, e: SimEvent)
    requires FirstCopy(cfg, x, e, o, pl, k)
    ensures e in x.queue && e.what.FillReport?
  {
  }

  lemma LateChunk(cfg: SimConfig) returns (j: nat)
    requires !LastChunkLast(cfg)
    ensures j + 1 < Chunks(cfg) && ChunkDelay(cfg, j) > ChunkDelay(cfg, Chunks(cfg) - 1)
  {
    j :| j + 1 < Chunks(cfg) && ChunkDelay(cfg, j) > ChunkDelay(cfg, Chunks(cfg) - 1);
  }

  lemma IsDoomed(c: Coupled, id: OrderId, pl: Plan, j: nat, e: SimEvent)
    requires Agree(c) && Shape(c.oms) && NoWrap(c.oms) && c.plans == map[id := pl] && pl.booked == {}
    requires id in c.ex.working && c.ex.working[id].alive && e in c.ex.queue && e.what.FillReport?
    requires forall f :: f in c.ex.queue ==> f.what.id == id && (f.what.Confirm? || f.what.FillReport?)
    requires c.ex.working[id].price > 0 ==>
      (e.final && j + 1 < pl.count && forall f :: f in c.ex.queue && Carries(f, id, pl.first + j) ==> Before(e, f))
    ensures Doomed(c, id, j, e)
  {
    hide Agree, Shape, NoWrap;
  }

  lemma PartingRun(cfg: SimConfig, p: int) returns (states: seq<Coupled>, acts: seq<Act>)
    requires cfg.step > 0 && (p <= 0 || !LastChunkLast(cfg))
    ensures RunAt(cfg, p, states, acts) && !AlwaysAgree(states)
  {
    hide *;
    var c := FirstState(cfg, p);
    var j, e := FirstIsDoomed(cfg, p);
    FirstRun(cfg, p);
    DoomedParts(c, FirstLot(cfg, p).id, j, e);
    var t := TopExists(c.ex.queue);
    states, acts := Drain(cfg, p, [Opened(), c], [SubmitAct(OneLot(cfg, p), PLAIN, 0)], FirstLot(cfg, p).id, j, e, t);
  }

  lemma PricedRunAgrees(cfg: SimConfig, venue: nat, p: int, states: seq<Coupled>, acts: seq<Act>)
    requires CoupledRun(cfg, venue, states, acts) && PricedAt(acts, p) && p > 0 && LastChunkLast(cfg)
    ensures AlwaysAgree(states)
  {
    hide CoupledRun, LastChunkLast, Agree, Orderly, SidesAgree, NoWrap;
    assert Priced(acts);
    forall n | 0 <= n < |states| ensures SidesAgree(states[n]) {
      RunOrderly(cfg, venue, states, acts, n);
      UnwrappedAt(cfg, venue, states, acts, n);
      AgreeIsSeen(states[n]);
    }
  }

  lemma UnwrappedAt(cfg: SimConfig, venue: nat, states: seq<Coupled>, acts: seq<Act>, n: nat)
    requires CoupledRun(cfg, venue, states, acts) && n < |states|
    ensures NoWrap(states[n].oms)
  {
    hide Starts, Enabled, Step, Shape, NoWrap;
  }

  /** Exactly when the manager and the venue agree in every state of every run: orders must have a
      positive price, and the settings must not schedule a chunk after the last. */
  lemma AgreementExactly(cfg: SimConfig, p: int)
    requires cfg.step > 0
    ensures (forall venue: nat, states, acts ::
               CoupledRun(cfg, venue, states, acts) && PricedAt(acts, p) ==> AlwaysAgree(states))
       <==> (p > 0 && LastChunkLast(cfg))
  {
    if p > 0 && LastChunkLast(cfg) {
      hide CoupledRun, AlwaysAgree, PricedAt, LastChunkLast;
      forall venue: nat, states, acts | CoupledRun(cfg, venue, states, acts) && PricedAt(acts, p)
        ensures AlwaysAgree(states) {
        PricedRunAgrees(cfg, venue, p, states, acts);
      }
    } else {
      hide CoupledRun, AlwaysAgree, PricedAt, LastChunkLast;
      var states, acts := PartingRun(cfg, p);
      assert CoupledRun(cfg, 0, states, acts) && PricedAt(acts, p) && !AlwaysAgree(states);
    }
  }
  const DEFAULTS := SimConfig(1_000_000, 1_000_000, 2_000_000, 1_000_000, 1, false)
  const EARLY := DEFAULTS.(partialChunks := 2, fillGap := -1_000_000)

  /** Runs that part: at the default settings with a price of zero, and with two chunks whose gap is
      negative, so that the last is delivered first. */
  lemma PartingSettings()
    ensures exists states, acts :: RunAt(DEFAULTS, 0, states, acts) && !AlwaysAgree(states)
    ensures exists states, acts :: RunAt(EARLY, 1, states, acts) && !AlwaysAgree(states)
  {
    assert ChunkDelay(EARLY, 0) > ChunkDelay(EARLY, 1);
    hide RunAt, AlwaysAgree;
    var states, acts := PartingRun(DEFAULTS, 0);
    var states', acts' := PartingRun(EARLY, 1);
  }
}
