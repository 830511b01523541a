/** One step of the coupled system, and why each kind of step keeps the agreement. */
module CouplingSteps {
  import opened OrderIds
  import opened Orders
  import opened OrderManagerSpec
  import opened OrderManagerInvariants
  import opened OrderManagerSteps
  import opened OrderManagerKeeps
  import opened OrderManagerRuns
  import opened SimExchangeSpec
  import opened Coupling
  import opened CouplingDelivery
  import opened CouplingRequests

  /** One step of the coupled system. A poll is a Tick followed by Delivers. `order` lists, in the
      order the live index happens to be walked, the ids whose cancel is sent. */
  datatype Act =
    | SubmitAct(req: OrderRequest, draws: Draws, now: int)
    | AllDownAct(req: OrderRequest, now: int, order: seq<OrderId>)
    | CancelAct(id: OrderId)
    | TimeoutsAct(now: int, timeout: int, order: seq<OrderId>)
    | ConnectAct(up: bool)
    | TickAct
    | DeliverAct(event: SimEvent)

  ghost function RequestCancels(cfg: SimConfig, x: Exchange, order: seq<OrderId>): Exchange {
    if |order| == 0 then x
    else RequestCancel(cfg, RequestCancels(cfg, x, order[..|order| - 1]), order[|order| - 1])
  }

  ghost function VenueRoute(venue: nat, x: Exchange): Route {
    Client(venue, if x.connected then Ok else TransportDown)
  }

  /** The ids whose client would accept a cancel: all of them while the venue is connected. */
  ghost function Reachable(c: Coupled): set<OrderId> {
    if c.ex.connected then c.oms.live else {}
  }

  ghost function AllDownCancels(c: Coupled): set<OrderId> {
    if c.oms.killed then {}
    else set i | 0 <= i < |c.oms.book| && c.oms.book[i].id in Reachable(c)
              && WorkingCancelled(c.oms.book[i], Reachable(c)) != c.oms.book[i] :: c.oms.book[i].id
  }

  ghost function TimeoutCancels(c: Coupled, now: int, timeout: int): set<OrderId> {
    set i | 0 <= i < |c.oms.book| && c.oms.book[i].id in Reachable(c)
         && AckOverdue(c.oms.book[i], now, timeout) && !c.oms.book[i].pendingCancel :: c.oms.book[i].id
  }

  ghost predicate Lists(order: seq<OrderId>, ids: set<OrderId>) {
    && (forall j :: 0 <= j < |order| ==> order[j] in ids) && (forall id :: id in ids ==> id in order)
    && (forall i, j :: 0 <= i < j < |order| ==> order[i] != order[j])
  }

  ghost predicate RequestOk(req: OrderRequest, venue: nat) {
    req.size > 0 && req.workerOffset < SCRATCH_SLOTS && venue < VENUES
  }

  ghost predicate Enabled(c: Coupled, venue: nat, a: Act) {
    match a
    case SubmitAct(req, _, _) => RequestOk(req, venue)
    case AllDownAct(req, _, order) => RequestOk(req, venue) && Lists(order, AllDownCancels(c))
    case CancelAct(id) => Minted(c.oms, id) || !IsCurrent(c.oms, id)
    case TimeoutsAct(now, timeout, order) => Lists(order, TimeoutCancels(c, now, timeout))
    case DeliverAct(e) => IsTop(c.ex.queue, e) && e.at <= c.ex.now
    case _ => true
  }

  ghost function SubmitStep(cfg: SimConfig, venue: nat, c: Coupled, req: OrderRequest, draws: Draws, now: int): Coupled
    requires Shape(c.oms) && req.workerOffset < SCRATCH_SLOTS
  {
    var route := VenueRoute(venue, c.ex);
    var oms := Submit(c.oms, req, route, now, {});
    if ReachesVenue(c.oms, route) && c.ex.connected then
      var o := NewOrder(c.oms, req, venue);
      Coupled(oms, Place(cfg, c.ex, o, draws), c.plans[o.id := PlanFor(cfg, c.ex, o, draws, |c.oms.book|)])
    else Coupled(oms, c.ex, c.plans)
  }

  ghost function CancelStep(cfg: SimConfig, c: Coupled, id: OrderId): Coupled
    requires Shape(c.oms)
  {
    Coupled(Cancel(c.oms, id, c.ex.connected),
            if CancelAccepted(c.oms, id, c.ex.connected) then RequestCancel(cfg, c.ex, id) else c.ex, c.plans)
  }

  ghost function Step(cfg: SimConfig, venue: nat, c: Coupled, a: Act): Coupled
    requires Shape(c.oms) && Enabled(c, venue, a)
  {
    match a
    case SubmitAct(req, draws, now) => SubmitStep(cfg, venue, c, req, draws, now)
    case AllDownAct(req, now, order) =>
      Coupled(Submit(c.oms, req, NoVenue, now, Reachable(c)), RequestCancels(cfg, c.ex, order), c.plans)
    case CancelAct(id) => CancelStep(cfg, c, id)
    case TimeoutsAct(now, timeout, order) =>
      Coupled(CheckAckTimeouts(c.oms, now, timeout, Reachable(c)), RequestCancels(cfg, c.ex, order), c.plans)
    case ConnectAct(up) => c.(ex := c.ex.(connected := up))
    case TickAct => c.(ex := c.ex.(now := c.ex.now + cfg.step))
    case DeliverAct(e) => DeliverNext(c, e)
  }

  // ---- requests that send cancels ----

  lemma RelabelsQuiet(s: Oms, s': Oms)
    requires Relabels(s, s')
    ensures Quiet(s, s')
  {
  }

  /** A live order works at the venue too, so its cancel will be acknowledged. */
  lemma LiveIsAlive(c: Coupled, id: OrderId)
    requires Agree(c) && id in c.oms.live
    ensures id in c.plans && id in c.ex.working && c.ex.working[id].alive
  {
    assert LiveInv(c.oms) && Owns(c.oms, id);
    var i := c.oms.table[id.slot];
    assert Covered(c);
    assert OrderAgrees(c.oms, c.ex.working[id], c.plans[id], id);
  }

  /** x' is x with cancel acknowledgements scheduled for working orders. */
  ghost predicate AcksAdded(x: Exchange, x': Exchange) {
    && x'.working == x.working && x'.positions == x.positions && x'.connected == x.connected && x.queue <= x'.queue
    && forall e :: e in x'.queue && e !in x.queue ==> e.what.CancelAck? && e.what.id in x.working
  }

  lemma RequestAdds(cfg: SimConfig, x0: Exchange, x: Exchange, id: OrderId)
    requires AcksAdded(x0, x) && id in x.working && x.working[id].alive
    ensures AcksAdded(x0, RequestCancel(cfg, x, id))
  {
  }

  lemma {:induction false} RequestsAdd(cfg: SimConfig, x: Exchange, order: seq<OrderId>)
    requires forall j :: 0 <= j < |order| ==> order[j] in x.working && x.working[order[j]].alive
    ensures AcksAdded(x, RequestCancels(cfg, x, order))
  {
    if |order| > 0 {
      RequestsAdd(cfg, x, order[..|order| - 1]);
      RequestAdds(cfg, x, RequestCancels(cfg, x, order[..|order| - 1]), order[|order| - 1]);
    }
  }

  lemma AcksAgree(c: Coupled, c': Coupled)
    requires Agree(c) && Inv(c'.oms) && Quiet(c.oms, c'.oms) && AcksAdded(c.ex, c'.ex) && c'.plans == c.plans
    ensures Agree(c')
  {
    hide Inv, Quiet, QueueAgrees, OrdersAgree, Covered, PositionsAgree;
    QuietOrders(c, c');
    AgreeParts(c);
    AckEvents(c, c');
    QueueExtends(c, c');
  }

  lemma AckEvents(c: Coupled, c': Coupled)
    requires AcksAdded(c.ex, c'.ex) && c'.plans == c.plans && c.plans.Keys == c.ex.working.Keys
    ensures Adds(c, c') && forall e :: e in c'.ex.queue && e !in c.ex.queue ==> EventOk(c', e)
  {
  }

  lemma ReachableAlive(c: Coupled, order: seq<OrderId>)
    requires Agree(c) && forall j :: 0 <= j < |order| ==> order[j] in c.oms.live
    ensures forall j :: 0 <= j < |order| ==> order[j] in c.ex.working && c.ex.working[order[j]].alive
  {
    hide Agree;
    forall j | 0 <= j < |order| ensures order[j] in c.ex.working && c.ex.working[order[j]].alive {
      LiveIsAlive(c, order[j]);
    }
  }

  lemma TimeoutsAgree(cfg: SimConfig, venue: nat, c: Coupled, now: int, timeout: int, order: seq<OrderId>)
    requires Agree(c) && Shape(c.oms) && Enabled(c, venue, TimeoutsAct(now, timeout, order))
    ensures Agree(Step(cfg, venue, c, TimeoutsAct(now, timeout, order)))
  {
    assert forall j :: 0 <= j < |order| ==> order[j] in c.oms.live;
    assert Inv(c.oms);
    hide Agree, Inv, Quiet, CheckAckTimeouts, RequestCancels, AcksAdded, Relabels;
    ReachableAlive(c, order);
    RequestsAdd(cfg, c.ex, order);
    TimeoutsKeep(c.oms, now, timeout, Reachable(c));
    TimeoutsRelabel(c.oms, now, timeout, Reachable(c));
    RelabelsQuiet(c.oms, CheckAckTimeouts(c.oms, now, timeout, Reachable(c)));
    AcksAgree(c, Step(cfg, venue, c, TimeoutsAct(now, timeout, order)));
  }

  lemma AllDownQuiet(s: Oms, req: OrderRequest, now: int, accepts: set<OrderId>)
    requires Shape(s) && req.workerOffset < SCRATCH_SLOTS
    ensures Quiet(s, Submit(s, req, NoVenue, now, accepts))
  {
  }

  lemma AllDownAgrees(cfg: SimConfig, venue: nat, c: Coupled, req: OrderRequest, now: int, order: seq<OrderId>)
    requires Agree(c) && Shape(c.oms) && Enabled(c, venue, AllDownAct(req, now, order))
    ensures Agree(Step(cfg, venue, c, AllDownAct(req, now, order)))
  {
    assert forall j :: 0 <= j < |order| ==> order[j] in c.oms.live;
    assert Inv(c.oms);
    hide Agree, Inv, Quiet, Submit, RequestCancels, AcksAdded;
    ReachableAlive(c, order);
    RequestsAdd(cfg, c.ex, order);
    SubmitKeeps(c.oms, req, NoVenue, now, Reachable(c));
    AllDownQuiet(c.oms, req, now, Reachable(c));
    AcksAgree(c, Step(cfg, venue, c, AllDownAct(req, now, order)));
  }

  lemma NothingAdded(x: Exchange)
    ensures AcksAdded(x, x)
  {
  }

  lemma CurrentIsLive(s: Oms, id: OrderId)
    requires Inv(s) && NoWrap(s) && Shape(s) && IsCurrent(s, id) && Minted(s, id) && !IsTerminal(OrderOf(s, id).status)
    ensures id in s.live
  {
    MintedGenuine(s, id);
    assert LiveInv(s);
  }

  lemma CancelAgrees(cfg: SimConfig, c: Coupled, id: OrderId)
    requires Agree(c) && Shape(c.oms) && NoWrap(c.oms) && (Minted(c.oms, id) || !IsCurrent(c.oms, id))
    ensures Agree(CancelStep(cfg, c, id))
  {
    assert Inv(c.oms);
    hide Agree, Inv, Quiet, Cancel, RequestCancel, AcksAdded, Amends, CancelSent, Shape, NoWrap, Minted;
    CancelKeeps(c.oms, id, c.ex.connected);
    NothingAdded(c.ex);
    if CancelAccepted(c.oms, id, c.ex.connected) {
      CurrentIsLive(c.oms, id);
      LiveIsAlive(c, id);
      RequestAdds(cfg, c.ex, c.ex, id);
      CancelAmends(c.oms, id, c.ex.connected);
      AmendsQuiet(c.oms, Cancel(c.oms, id, c.ex.connected), id, CancelSent(OrderOf(c.oms, id)));
    } else {
      CancelIdle(c.oms, id, c.ex.connected);
      SelfQuiet(c.oms);
    }
    AcksAgree(c, CancelStep(cfg, c, id));
  }

  lemma CancelIdle(s: Oms, id: OrderId, sent: bool)
    requires Shape(s) && !CancelAccepted(s, id, sent)
    ensures Cancel(s, id, sent) == s
  {
  }

  // ---- submits ----

  /** s' is s with one order more; nothing else about records, positions or trades is different. */
  ghost predicate Grows(s: Oms, s': Oms, o: Order) {
    && s'.book == s.book + [o]
    && (forall inst: nat :: PositionOf(s', inst) == PositionOf(s, inst))
    && (forall id :: id != o.id ==> TradesOf(s', id) == TradesOf(s, id))
  }

  lemma SentGrows(s: Oms, req: OrderRequest, route: Route, now: int)
    requires Shape(s) && WellFormed(req, route) && ReachesVenue(s, route) && route.result == Ok
    ensures
      var o := NewOrder(s, req, route.venue).(status := Sent, sentAt := now);
      Grows(s, Submit(s, req, route, now, {}), o) && Submit(s, req, route, now, {}).trades == s.trades
  {
    SubmitSent(s, req, route, now, {});
    hide Submit, Settle, NewOrder;
    SettledGrows(s, req, route.venue, now);
  }

  lemma SettledGrows(s: Oms, req: OrderRequest, venue: nat, now: int)
    requires Shape(s) && |s.free| > 0 && req.workerOffset < SCRATCH_SLOTS
    ensures
      var o := NewOrder(s, req, venue).(status := Sent, sentAt := now);
      var s' := Settle(Registered(s, req, venue), o);
      Grows(s, s', o) && s'.trades == s.trades
  {
  }

  lemma RegisteredGrows(s: Oms, req: OrderRequest, venue: nat)
    requires Shape(s) && |s.free| > 0 && req.workerOffset < SCRATCH_SLOTS
    ensures Grows(s, CountReject(Registered(s, req, venue)), NewOrder(s, req, venue))
    ensures CountReject(Registered(s, req, venue)).table[NextId(s, venue).slot] == |s.book|
  {
  }

  lemma ClosedGrows(s: Oms, s1: Oms, s2: Oms, o: Order, o': Order)
    requires Grows(s, s1, o) && Touches(s1, s2, |s.book|, o') && s2.positions == s1.positions && o'.id == o.id
    ensures Grows(s, s2, o')
  {
    assert forall inst: nat :: PositionOf(s2, inst) == PositionOf(s1, inst);
  }

  lemma RefusedGrows(s: Oms, req: OrderRequest, route: Route, now: int)
    requires Inv(s) && Shape(s) && WellFormed(req, route) && ReachesVenue(s, route) && route.result != Ok
    ensures Grows(s, Submit(s, req, route, now, {}), NewOrder(s, req, route.venue).(status := Rejected))
  {
    var s1 := CountReject(Registered(s, req, route.venue));
    var o := NewOrder(s, req, route.venue);
    assert PoolInv(s);
    hide Inv, Close, Submit, Closing, Grows, Touches, Flags, NewOrder, Registered, CountReject, PoolInv, Shape,
      WellFormed;
    RefusedCloses(s, req, route, now, {});
    NewOrderId(s, req, route.venue);
    RegisteredGrows(s, req, route.venue);
    CloseTouches(s1, o.id, o.(status := Rejected));
    ClosedGrows(s, s1, Close(s1, o.id, o.(status := Rejected)), o, o.(status := Rejected));
  }

  lemma NewOrderId(s: Oms, req: OrderRequest, venue: nat)
    requires Shape(s) && |s.free| > 0 && req.workerOffset < SCRATCH_SLOTS
    ensures NewOrder(s, req, venue).id == NextId(s, venue)
  {
  }

  lemma IdleQuiet(s: Oms, req: OrderRequest, route: Route, now: int)
    requires Shape(s) && req.workerOffset < SCRATCH_SLOTS && route.Client? && !ReachesVenue(s, route)
    ensures Quiet(s, Submit(s, req, route, now, {}))
  {
    hide Close, Register, NewOrder, Settle, CancelWorking;
  }

  /** The id of a new order belongs to no order accepted before. */
  lemma FreshId(c: Coupled, s': Oms, o: Order)
    requires OrdersAgree(c) && Grows(c.oms, s', o) && Inv(s') && NoWrap(s')
    ensures o.id !in c.plans
  {
    forall id | id in c.plans ensures id != o.id {
      assert OrderAgrees(c.oms, c.ex.working[id], c.plans[id], id);
      IdsDistinct(s', c.plans[id].order, |c.oms.book|);
    }
  }

  lemma GrownOrder(s: Oms, s': Oms, o: Order, w: Working, pl: Plan, id: OrderId)
    requires Grows(s, s', o) && OrderAgrees(s, w, pl, id) && id != o.id
    ensures OrderAgrees(s', w, pl, id)
  {
  }

  lemma GrownPositions(c: Coupled, c': Coupled, o: Order)
    requires PositionsAgree(c) && Grows(c.oms, c'.oms, o) && c'.ex.positions == c.ex.positions
    ensures PositionsAgree(c')
  {
    forall inst: nat ensures VenuePosition(c'.ex, inst) == PositionOf(c'.oms, inst).net {
      assert VenuePosition(c.ex, inst) == PositionOf(c.oms, inst).net;
    }
  }

  /** A refused order stays unknown to the venue, and terminal. */
  lemma RefusedAgrees(c: Coupled, c': Coupled, o: Order)
    requires Agree(c) && Inv(c'.oms) && Grows(c.oms, c'.oms, o) && IsTerminal(o.status) && o.id !in c.plans
    requires c'.ex == c.ex && c'.plans == c.plans
    ensures Agree(c')
  {
    hide Inv;
    GrownPositions(c, c', o);
    forall id | id in c'.ex.working ensures OrderAgrees(c'.oms, c'.ex.working[id], c'.plans[id], id) {
      GrownOrder(c.oms, c'.oms, o, c.ex.working[id], c.plans[id], id);
    }
    GrownCovered(c, c', o);
    hide Grows, OrdersAgree, Covered, PositionsAgree;
    assert Adds(c, c');
    QueueExtends(c, c');
  }

  lemma GrownCovered(c: Coupled, c': Coupled, o: Order)
    requires Covered(c) && Grows(c.oms, c'.oms, o)
    requires forall id :: id in c.plans ==> id in c'.plans && c'.plans[id] == c.plans[id]
    requires IsTerminal(o.status) || (o.id in c'.plans && c'.plans[o.id].order == |c.oms.book|)
    ensures Covered(c')
  {
    forall i | 0 <= i < |c'.oms.book| && !IsTerminal(c'.oms.book[i].status)
      ensures c'.oms.book[i].id in c'.plans && c'.plans[c'.oms.book[i].id].order == i
    {
      assert i < |c.oms.book| ==> c'.oms.book[i] == c.oms.book[i];
    }
  }

  /** The new order as both sides see it right after the venue accepted it. */
  lemma AcceptedAgrees(s': Oms, o: Order, o': Order, x: Exchange, pl: Plan)
    requires pl.order < |s'.book| && s'.book[pl.order] == o' && o'.id == o.id && o'.instrument == o.instrument
    requires o'.side == o.side && o'.size == o.size && o'.price == o.price && o'.filled == 0 && !IsTerminal(o'.status)
    requires o.size > 0 && PlanOk(pl, o.size) && pl.booked == {} && TradesOf(s', o.id) == {}
    ensures OrderAgrees(s', Accept(x, o).working[o.id], pl, o.id)
  {
  }

  lemma NewQueue(cfg: SimConfig, c: Coupled, c': Coupled, o: Order, pl: Plan)
    requires QueueAgrees(c) && c.plans.Keys == c.ex.working.Keys && o.id !in c.plans
    requires NewEvents(cfg, c.ex, c'.ex, o, pl) && c'.plans == c.plans[o.id := pl]
    requires c'.ex.working == Accept(c.ex, o).working
    ensures QueueAgrees(c')
  {
    QueueExtends(c, c');
  }

  lemma SentAgrees(cfg: SimConfig, c: Coupled, c': Coupled, o: Order, o': Order, pl: Plan)
    requires Agree(c) && Inv(c'.oms) && Grows(c.oms, c'.oms, o') && o.id !in c.plans
    requires NewEvents(cfg, c.ex, c'.ex, o, pl) && c'.plans == c.plans[o.id := pl]
    requires c'.ex.working == Accept(c.ex, o).working && c'.ex.positions == c.ex.positions
    requires pl.order == |c.oms.book| && o'.id == o.id && OrderAgrees(c'.oms, Accept(c.ex, o).working[o.id], pl, o.id)
    ensures Agree(c')
  {
    hide Inv, NewEvents, OrderAgrees;
    AgreeParts(c);
    GrownPositions(c, c', o');
    GrownCovered(c, c', o');
    forall id | id in c'.ex.working ensures OrderAgrees(c'.oms, c'.ex.working[id], c'.plans[id], id) {
      if id != o.id {
        GrownOrder(c.oms, c'.oms, o', c.ex.working[id], c.plans[id], id);
      }
    }
    hide QueueAgrees, Grows, Covered, PositionsAgree;
    NewQueue(cfg, c, c', o, pl);
  }

  lemma NewTrades(s: Oms, s': Oms, id: OrderId)
    requires s'.trades == s.trades && Shape(s) && LiveInv(s) && id !in s.live
    ensures TradesOf(s', id) == {}
  {
  }

  lemma NextIdNotLive(s: Oms, venue: nat)
    requires Inv(s) && Shape(s) && |s.free| > 0
    ensures NextId(s, venue) !in s.live
  {
    assert PoolInv(s) && LiveInv(s);
    assert s.free[|s.free| - 1] !in s.table;
    assert forall id :: id in s.live ==> Owns(s, id);
  }

  lemma SubmitSameRecycles(s: Oms, req: OrderRequest, route: Route, now: int)
    requires Shape(s) && WellFormed(req, route) && ReachesVenue(s, route) && route.result == Ok
    ensures Submit(s, req, route, now, {}).recycles == s.recycles
  {
  }

  lemma SubmitFresh(cfg: SimConfig, venue: nat, c: Coupled, req: OrderRequest, draws: Draws, now: int)
    requires OrdersAgree(c) && Inv(c.oms) && Shape(c.oms) && RequestOk(req, venue)
    requires ReachesVenue(c.oms, VenueRoute(venue, c.ex)) && c.ex.connected
    requires NoWrap(SubmitStep(cfg, venue, c, req, draws, now).oms)
    ensures NewOrder(c.oms, req, venue).id !in c.plans
  {
    var route := VenueRoute(venue, c.ex);
    var o' := NewOrder(c.oms, req, venue).(status := Sent, sentAt := now);
    hide Inv, Submit, Place, NewOrder, PlanFor, OrdersAgree, Shape, NoWrap;
    SubmitKeeps(c.oms, req, route, now, {});
    SentGrows(c.oms, req, route, now);
    FreshId(c, SubmitStep(cfg, venue, c, req, draws, now).oms, o');
  }

  lemma SubmitSentAgrees(cfg: SimConfig, venue: nat, c: Coupled, req: OrderRequest, draws: Draws, now: int)
    requires Agree(c) && Shape(c.oms) && NoWrap(c.oms) && RequestOk(req, venue)
    requires ReachesVenue(c.oms, VenueRoute(venue, c.ex)) && c.ex.connected
    ensures Agree(SubmitStep(cfg, venue, c, req, draws, now))
  {
    var route := VenueRoute(venue, c.ex);
    var s := c.oms;
    var o := NewOrder(s, req, venue);
    var o' := o.(status := Sent, sentAt := now);
    var c' := SubmitStep(cfg, venue, c, req, draws, now);
    var pl := PlanFor(cfg, c.ex, o, draws, |s.book|);
    assert LiveInv(s) && Inv(s) && OrdersAgree(c);
    assert o.size > 0 && o.filled == 0 && o.id == NextId(s, venue);
    SubmitSameRecycles(s, req, route, now);
    hide Agree, Inv, Submit, Place, NewOrder, PlanFor, OrdersAgree, LiveInv, PlanOk, NewEvents, OrderAgrees, Shape;
    SubmitKeeps(s, req, route, now, {});
    SentGrows(s, req, route, now);
    FreshId(c, c'.oms, o');
    NextIdNotLive(s, venue);
    NewTrades(s, c'.oms, o.id);
    PlaceDoes(cfg, c.ex, o, draws, |s.book|);
    AcceptedAgrees(c'.oms, o, o', c.ex, pl);
    SentAgrees(cfg, c, c', o, o', pl);
  }

  lemma SubmitRefusedAgrees(cfg: SimConfig, venue: nat, c: Coupled, req: OrderRequest, draws: Draws, now: int)
    requires Agree(c) && Shape(c.oms) && RequestOk(req, venue)
    requires ReachesVenue(c.oms, VenueRoute(venue, c.ex)) && !c.ex.connected
    requires NoWrap(SubmitStep(cfg, venue, c, req, draws, now).oms)
    ensures Agree(SubmitStep(cfg, venue, c, req, draws, now))
  {
    var route := VenueRoute(venue, c.ex);
    var s := c.oms;
    var o := NewOrder(s, req, venue).(status := Rejected);
    var c' := SubmitStep(cfg, venue, c, req, draws, now);
    assert Inv(s) && OrdersAgree(c) && WellFormed(req, route);
    hide Agree, Inv, Submit, Place, NewOrder, OrdersAgree, Shape, NoWrap, Grows, WellFormed, ReachesVenue;
    SubmitKeeps(s, req, route, now, {});
    RefusedGrows(s, req, route, now);
    FreshId(c, c'.oms, o);
    RefusedAgrees(c, c', o);
  }

  lemma SubmitIdleAgrees(cfg: SimConfig, venue: nat, c: Coupled, req: OrderRequest, draws: Draws, now: int)
    requires Agree(c) && Shape(c.oms) && RequestOk(req, venue) && !ReachesVenue(c.oms, VenueRoute(venue, c.ex))
    ensures Agree(SubmitStep(cfg, venue, c, req, draws, now))
  {
    var route := VenueRoute(venue, c.ex);
    assert Inv(c.oms) && WellFormed(req, route);
    hide Agree, Inv, Submit, Place, NewOrder, Shape, Quiet, AcksAdded, WellFormed, ReachesVenue;
    SubmitKeeps(c.oms, req, route, now, {});
    IdleQuiet(c.oms, req, route, now);
    NothingAdded(c.ex);
    AcksAgree(c, SubmitStep(cfg, venue, c, req, draws, now));
  }

  lemma SubmitAgrees(cfg: SimConfig, venue: nat, c: Coupled, req: OrderRequest, draws: Draws, now: int)
    requires Agree(c) && Shape(c.oms) && NoWrap(c.oms) && RequestOk(req, venue)
    requires NoWrap(SubmitStep(cfg, venue, c, req, draws, now).oms)
    ensures Agree(SubmitStep(cfg, venue, c, req, draws, now))
  {
    hide *;
    if !ReachesVenue(c.oms, VenueRoute(venue, c.ex)) {
      SubmitIdleAgrees(cfg, venue, c, req, draws, now);
    } else if c.ex.connected {
      SubmitSentAgrees(cfg, venue, c, req, draws, now);
    } else {
      SubmitRefusedAgrees(cfg, venue, c, req, draws, now);
    }
  }

  /** Moving the venue's clock or its connection touches nothing the two sides agree on. */
  lemma VenueFlagAgrees(c: Coupled, c': Coupled)
    requires Agree(c) && c'.oms == c.oms && c'.plans == c.plans
    requires c'.ex == c.ex.(connected := c'.ex.connected, now := c'.ex.now)
    ensures Agree(c')
  {
    hide Inv;
    AgreeParts(c);
    NothingAdded(c.ex);
    SelfQuiet(c.oms);
    assert AcksAdded(c.ex, c'.ex.(connected := c.ex.connected));
    QuietOrders(c, c');
    hide OrdersAgree, Covered, PositionsAgree;
    assert Adds(c, c');
    QueueExtends(c, c');
  }

  /** Every step of the coupled system keeps the two sides in agreement, if what it delivers is harmless. */
  lemma StepAgrees(cfg: SimConfig, venue: nat, c: Coupled, a: Act)
    requires Agree(c) && Shape(c.oms) && Enabled(c, venue, a)
    requires NoWrap(c.oms) && NoWrap(Step(cfg, venue, c, a).oms)
    requires a.DeliverAct? ==> Harmless(c, a.event)
    ensures Agree(Step(cfg, venue, c, a))
  {
    TopQueued(c);
    hide Harmless;
    hide Agree, Shape, NoWrap, SubmitStep, CancelStep, DeliverNext, Submit, CheckAckTimeouts;
    hide RequestCancels, Minted, IsCurrent, IsTop, RequestOk;
    match a {
      case SubmitAct(req, draws, now) => SubmitAgrees(cfg, venue, c, req, draws, now);
      case AllDownAct(req, now, order) => AllDownAgrees(cfg, venue, c, req, now, order);
      case CancelAct(id) => CancelAgrees(cfg, c, id);
      case TimeoutsAct(now, timeout, order) => TimeoutsAgree(cfg, venue, c, now, timeout, order);
      case ConnectAct(up) => VenueFlagAgrees(c, Step(cfg, venue, c, a));
      case TickAct => VenueFlagAgrees(c, Step(cfg, venue, c, a));
      case DeliverAct(e) => DeliverAgrees(c, e);
    }
  }
  lemma TopQueued(c: Coupled)
    ensures forall e :: IsTop(c.ex.queue, e) ==> e in c.ex.queue
  {
  }

  // ---- steps that keep the deliveries in order ----

  ghost predicate NoFillsAdded(x: Exchange, x': Exchange) {
    x'.working == x.working && x.queue <= x'.queue && forall e :: e in x'.queue && e !in x.queue ==> !e.what.FillReport?
  }

  lemma {:induction false} RequestsAddNoFills(cfg: SimConfig, x: Exchange, order: seq<OrderId>)
    ensures NoFillsAdded(x, RequestCancels(cfg, x, order))
  {
    if |order| > 0 {
      RequestsAddNoFills(cfg, x, order[..|order| - 1]);
    }
  }

  lemma UnfilledOrderly(c: Coupled, c': Coupled)
    requires Orderly(c) && QueueAgrees(c') && NoFillsAdded(c.ex, c'.ex) && c'.plans == c.plans
    ensures Orderly(c')
  {
    hide Orderly;
    OrderlyExtends(c, c');
  }

  /** A submitted order's chunks are scheduled in order, at a positive price. */
  lemma SubmitOrderly(cfg: SimConfig, venue: nat, c: Coupled, req: OrderRequest, draws: Draws, now: int)
    requires LastChunkLast(cfg) && Agree(c) && Orderly(c) && Shape(c.oms) && RequestOk(req, venue) && req.price > 0
    requires Agree(SubmitStep(cfg, venue, c, req, draws, now)) && NoWrap(SubmitStep(cfg, venue, c, req, draws, now).oms)
    ensures Orderly(SubmitStep(cfg, venue, c, req, draws, now))
  {
    var c' := SubmitStep(cfg, venue, c, req, draws, now);
    AgreeParts(c);
    AgreeParts(c');
    if ReachesVenue(c.oms, VenueRoute(venue, c.ex)) && c.ex.connected {
      var o := NewOrder(c.oms, req, venue);
      var pl := PlanFor(cfg, c.ex, o, draws, |c.oms.book|);
      hide Agree, Orderly, Inv, OrdersAgree, Covered, PositionsAgree, QueueAgrees, Submit, Place, PlanFor, NoWrap,
        LastChunkLast;
      SubmitFresh(cfg, venue, c, req, draws, now);
      PlaceDoes(cfg, c.ex, o, draws, |c.oms.book|);
      NewInOrder(cfg, c, c', o, pl);
    } else {
      hide Agree, Orderly, Inv, OrdersAgree, Covered, PositionsAgree, QueueAgrees, Submit;
      UnfilledOrderly(c, c');
    }
  }

  lemma NewInOrder(cfg: SimConfig, c: Coupled, c': Coupled, o: Order, pl: Plan)
    requires LastChunkLast(cfg) && Orderly(c) && QueueAgrees(c') && c.plans.Keys == c.ex.working.Keys &&
      o.id !in c.plans
    requires NewEvents(cfg, c.ex, c'.ex, o, pl) && c'.plans == c.plans[o.id := pl] && o.price > 0
    requires c'.ex.working == Accept(c.ex, o).working
    ensures Orderly(c')
  {
    forall e | e in c'.ex.queue && e !in c.ex.queue ensures EventOk(c', e) && InOrder(c', e) {
    }
    hide Orderly, QueueAgrees, LastChunkLast;
    OrderlyExtends(c, c');
  }

  /** With the last chunk scheduled last and positive prices, every step keeps the deliveries in order. */
  lemma StepOrderly(cfg: SimConfig, venue: nat, c: Coupled, a: Act)
    requires LastChunkLast(cfg) && Agree(c) && Orderly(c) && Shape(c.oms) && Enabled(c, venue, a)
    requires Agree(Step(cfg, venue, c, a)) && NoWrap(Step(cfg, venue, c, a).oms)
    requires a.SubmitAct? ==> a.req.price > 0
    ensures Orderly(Step(cfg, venue, c, a))
  {
    var c' := Step(cfg, venue, c, a);
    if a.SubmitAct? {
      hide *;
      StepIsSubmit(cfg, venue, c, a);
      SubmitOrderly(cfg, venue, c, a.req, a.draws, a.now);
    } else if a.DeliverAct? {
      hide *;
      StepIsDelivery(cfg, venue, c, a);
      DeliverOrderly(c, a.event);
    } else {
      hide *;
      AgreeParts(c');
      OtherStepAddsNoFills(cfg, venue, c, a);
      UnfilledOrderly(c, c');
    }
  }

  lemma StepIsSubmit(cfg: SimConfig, venue: nat, c: Coupled, a: Act)
    requires Shape(c.oms) && Enabled(c, venue, a) && a.SubmitAct?
    ensures RequestOk(a.req, venue) && a.req.workerOffset < SCRATCH_SLOTS
    ensures Step(cfg, venue, c, a) == SubmitStep(cfg, venue, c, a.req, a.draws, a.now)
  {
    hide Shape, SubmitStep;
  }

  lemma StepIsDelivery(cfg: SimConfig, venue: nat, c: Coupled, a: Act)
    requires Shape(c.oms) && Enabled(c, venue, a) && a.DeliverAct?
    ensures a.event in c.ex.queue && Step(cfg, venue, c, a) == DeliverNext(c, a.event)
  {
    hide Shape, DeliverNext;
  }

  lemma OtherStepAddsNoFills(cfg: SimConfig, venue: nat, c: Coupled, a: Act)
    requires Shape(c.oms) && Enabled(c, venue, a) && !a.SubmitAct? && !a.DeliverAct?
    ensures NoFillsAdded(c.ex, Step(cfg, venue, c, a).ex) && Step(cfg, venue, c, a).plans == c.plans
  {
    hide Shape, Submit, Cancel, CheckAckTimeouts, RequestCancels, Lists, Minted, IsCurrent, RequestOk;
    if a.AllDownAct? || a.TimeoutsAct? {
      RequestsAddNoFills(cfg, c.ex, a.order);
    }
  }
}
