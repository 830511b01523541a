/** What clients of the order manager rely on: exposure, prices, lifecycle and the slot budget. */
module OrderManagerLaws {
  import opened OrderIds
  import opened Orders
  import opened OrderManagerSpec
  import opened OrderManagerInvariants
  import opened OrderManagerSteps
  import opened OrderManagerKeeps
  import opened OrderManagerRuns
  import opened Sums
  import opened Arithmetic

  // ---- execution delta: position plus pending ----

  ghost function Exposure(s: Oms, inst: nat): int {
    PositionOf(s, inst).net + PendingOf(s, inst)
  }

  lemma FlagsExposure(s: Oms, s': Oms, inst: nat)
    requires SameLedgers(s, s')
    ensures Exposure(s', inst) == Exposure(s, inst)
  {
  }

  lemma EvictExposure(s: Oms, inst: nat)
    ensures Exposure(Evict(s), inst) == Exposure(s, inst)
  {
  }

  lemma AccountExposure(s: Oms, e: Inbound, inst: nat)
    requires Fillable(s, e)
    ensures Exposure(Account(s, e), inst) == Exposure(s, inst)
  {
  }

  lemma CompletedExposure(s: Oms, e: Inbound, inst: nat)
    requires Fillable(s, e)
    ensures Exposure(Completed(s, e), inst) == Exposure(s, inst)
  {
    AccountExposure(s, e, inst);
    hide Account;
  }

  lemma FillExposure(s: Oms, e: Inbound, inst: nat)
    requires Inv(s) && Shape(s) && e.FillReport? && Genuine(s, e.id)
    ensures Exposure(OnFill(s, e), inst) == Exposure(s, inst)
  {
    hide SlotInv, AccountInv, Settled, Shape, Validate, OnFill, Account, IsCurrent, Owns, Genuine, Evict, Completed,
      Exposure;
    if Validate(s, e) == UnknownOrder {
      FillUnknown(s, e);
      FlagsExposure(s, OnFill(s, e), inst);
    } else if Validate(s, e) != Accepted {
      FillDropped(s, e);
      FlagsExposure(s, OnFill(s, e), inst);
    } else {
      ValidIsFillable(s, e);
      if OrderOf(s, e.id).filled + e.qty == OrderOf(s, e.id).size {
        FinalFillIs(s, e);
        CompletedExposure(s, e, inst);
        EvictExposure(Completed(s, e), inst);
      } else {
        PartialFillIs(s, e);
        AccountExposure(s, e, inst);
      }
    }
  }

  /** Confirms, fills, duplicates and dropped events leave the execution delta alone: what a fill
      adds to the position it takes from the pending quantity. */
  lemma DeltaKept(s: Oms, e: Inbound, inst: nat, target: int)
    requires Inv(s) && Shape(s) && Genuine(s, e.id)
    requires e.Confirm? || e.FillReport? || e.CancelReject? || Validate(s, e) != Accepted
    ensures ExecutionDelta(Receive(s, e), inst, target) == ExecutionDelta(s, inst, target)
  {
    ExposureKept(s, e, inst);
    hide Receive, PositionOf, PendingOf;
  }

  lemma FlagsSame(s: Oms, s': Oms, inst: nat)
    requires Flags(s, s')
    ensures Exposure(s', inst) == Exposure(s, inst)
  {
  }

  lemma AmendSame(s: Oms, s': Oms, id: OrderId, o: Order, inst: nat)
    requires Amends(s, s', id, o)
    ensures Exposure(s', inst) == Exposure(s, inst)
  {
  }

  lemma ConfirmExposure(s: Oms, e: Inbound, inst: nat)
    requires Shape(s) && e.Confirm?
    ensures Exposure(OnConfirm(s, e), inst) == Exposure(s, inst)
  {
    hide *;
    if Validate(s, e) != Accepted {
      ConfirmDropped(s, e);
      FlagsSame(s, OnConfirm(s, e), inst);
    } else if !FirstConfirm(s, e) {
      ConfirmRepeated(s, e);
    } else {
      ConfirmAmends(s, e);
      AmendSame(s, OnConfirm(s, e), e.id, OrderOf(s, e.id).(status := Confirmed), inst);
    }
  }

  lemma CancelRejectExposure(s: Oms, e: Inbound, inst: nat)
    requires Shape(s) && e.CancelReject?
    ensures Exposure(OnCancelReject(s, e), inst) == Exposure(s, inst)
  {
    hide *;
    if e.id in s.benign {
      BenignFlags(s, e);
      FlagsSame(s, OnCancelReject(s, e), inst);
    } else if Validate(s, e) != Accepted {
      CancelRejectDropped(s, e);
      FlagsSame(s, OnCancelReject(s, e), inst);
    } else {
      CancelRejectAmends(s, e);
      AmendSame(s, OnCancelReject(s, e), e.id, Uncancelled(OrderOf(s, e.id)), inst);
    }
  }

  lemma DroppedExposure(s: Oms, e: Inbound, inst: nat)
    requires Shape(s) && Validate(s, e) != Accepted && (e.PlaceReject? || e.CancelAck? || e.Unsolicited?)
    ensures Exposure(Receive(s, e), inst) == Exposure(s, inst)
  {
    hide Close, Validate;
  }

  lemma ExposureKept(s: Oms, e: Inbound, inst: nat)
    requires Inv(s) && Shape(s) && Genuine(s, e.id)
    requires e.Confirm? || e.FillReport? || e.CancelReject? || Validate(s, e) != Accepted
    ensures Exposure(Receive(s, e), inst) == Exposure(s, inst)
  {
    hide Inv, Shape, Genuine, Exposure, OnConfirm, OnCancelReject, OnPlaceReject, OnCancelled, OnFill, Validate;
    match e
    case Confirm(_) => ConfirmExposure(s, e, inst);
    case FillReport(_, _, _, _) => FillExposure(s, e, inst);
    case CancelReject(_) => CancelRejectExposure(s, e, inst);
    case _ => DroppedExposure(s, e, inst);
  }

  lemma CloseExposure(s: Oms, id: OrderId, o: Order, inst: nat)
    requires Closing(s, id, o) && o.Remaining() > 0 && id !in s.benign
    ensures Exposure(Close(s, id, o), inst)
         == Exposure(s, inst) - (if o.instrument == inst then SignedQty(o.side, o.Remaining()) else 0)
  {
    ClosedIs(s, id, o);
    hide Close, Evict;
    EvictExposure(Closed(s, id, o), inst);
  }

  /** A reject or a cancel that closes an order gives back exactly its signed remainder. */
  lemma DeltaClosed(s: Oms, e: Inbound, inst: nat, target: int)
    requires Inv(s) && Shape(s) && Genuine(s, e.id) && Validate(s, e) == Accepted
    requires e.PlaceReject? || e.CancelAck? || e.Unsolicited?
    ensures ExecutionDelta(Receive(s, e), inst, target) == ExecutionDelta(s, inst, target)
      + (if OrderOf(s, e.id).instrument == inst then SignedQty(OrderOf(s, e.id).side, OrderOf(s, e.id).Remaining())
        else 0)
  {
    assert SlotInv(s);
    hide *;
    ValidIsLive(s, e);
    DeltaIsExposure(s, inst, target);
    DeltaIsExposure(Receive(s, e), inst, target);
    if e.PlaceReject? {
      ClosedExposure(s, CountReject(s), e, OrderOf(s, e.id).(status := Rejected), inst);
      SameRemaining(OrderOf(s, e.id));
    } else {
      ClosedExposure(s, CountUnsolicited(s, e), e, OrderOf(s, e.id).(pendingCancel := false, status := Cancelled),
        inst);
      SameRemaining(OrderOf(s, e.id));
    }
  }

  lemma SameRemaining(o: Order)
    ensures o.(status := Rejected).Remaining() == o.Remaining()
    ensures o.(pendingCancel := false, status := Cancelled).Remaining() == o.Remaining()
  {
  }

  lemma ClosedExposure(s: Oms, s1: Oms, e: Inbound, o: Order, inst: nat)
    requires Inv(s) && Shape(s) && Validate(s, e) == Accepted && Owns(s, e.id) && e.id in s.live
    requires if e.PlaceReject? then
        s1 == CountReject(s) && o == OrderOf(s, e.id).(status := Rejected)
      else
        (e.CancelAck? || e.Unsolicited?) && s1 == CountUnsolicited(s, e)
        && o == OrderOf(s, e.id).(pendingCancel := false, status := Cancelled)
    ensures Exposure(Receive(s, e), inst)
         == Exposure(s, inst) - (if o.instrument == inst then SignedQty(o.side, o.Remaining()) else 0)
  {
    hide SlotInv, AccountInv, Settled, Validate, Close, Exposure, Flags, Closing;
    if e.PlaceReject? {
      PlaceRejectIs(s, e);
    } else {
      CancelledIs(s, e);
    }
    FlagsKeep(s, s1);
    CloseFacts(s1, e.id, o);
    CloseExposure(s1, e.id, o, inst);
    FlagsSame(s, s1, inst);
  }

  /** A sent order takes its signed size; a submit that sends nothing leaves the delta alone. */
  lemma DeltaSubmitted(s: Oms, req: OrderRequest, route: Route, now: int, accepts: set<OrderId>, inst: nat, target: int)
    requires Inv(s) && Shape(s) && WellFormed(req, route)
    ensures ExecutionDelta(Submit(s, req, route, now, accepts), inst, target) == ExecutionDelta(s, inst, target)
      - (if SubmittedId(s, req, route).Some? && req.instrument == inst then SignedQty(req.side, req.size) else 0)
  {
    assert req.workerOffset < SCRATCH_SLOTS;
    hide *;
    DeltaIsExposure(s, inst, target);
    DeltaIsExposure(Submit(s, req, route, now, accepts), inst, target);
    SubmittedWhen(s, req, route);
    if !ReachesVenue(s, route) {
      IdleExposure(s, req, route, now, accepts, inst);
    } else if route.result == Ok {
      SentExposure(s, req, route, now, accepts, inst);
    } else {
      RefusedExposure(s, req, route, now, accepts, inst);
    }
  }

  lemma DeltaIsExposure(s: Oms, inst: nat, target: int)
    ensures ExecutionDelta(s, inst, target) == target - Exposure(s, inst)
  {
  }

  lemma SubmittedWhen(s: Oms, req: OrderRequest, route: Route)
    requires Shape(s)
    ensures ReachesVenue(s, route) ==> route.Client?
    ensures SubmittedId(s, req, route).Some? <==> ReachesVenue(s, route) && route.result == Ok
  {
  }

  lemma IdleExposure(s: Oms, req: OrderRequest, route: Route, now: int, accepts: set<OrderId>, inst: nat)
    requires Shape(s) && WellFormed(req, route) && !ReachesVenue(s, route)
    ensures Exposure(Submit(s, req, route, now, accepts), inst) == Exposure(s, inst)
  {
    hide Close, Register, NewOrder, Settle;
  }

  lemma SentExposure(s: Oms, req: OrderRequest, route: Route, now: int, accepts: set<OrderId>, inst: nat)
    requires Shape(s) && WellFormed(req, route) && ReachesVenue(s, route) && route.result == Ok
    ensures Exposure(Submit(s, req, route, now, accepts), inst)
         == Exposure(s, inst) + (if req.instrument == inst then SignedQty(req.side, req.size) else 0)
  {
    SubmitSent(s, req, route, now, accepts);
    hide Submit;
  }

  lemma RegisteredExposure(s: Oms, req: OrderRequest, venue: nat, inst: nat)
    requires Shape(s) && |s.free| > 0 && req.workerOffset < SCRATCH_SLOTS
    ensures Exposure(CountReject(Registered(s, req, venue)), inst)
         == Exposure(s, inst) + (if req.instrument == inst then SignedQty(req.side, req.size) else 0)
  {
  }

  lemma RefusedExposure(s: Oms, req: OrderRequest, route: Route, now: int, accepts: set<OrderId>, inst: nat)
    requires Inv(s) && Shape(s) && WellFormed(req, route) && ReachesVenue(s, route) && route.result != Ok
    ensures Exposure(Submit(s, req, route, now, accepts), inst) == Exposure(s, inst)
  {
    var s0 := Registered(s, req, route.venue);
    var s1 := CountReject(s0);
    var o := NewOrder(s, req, route.venue);
    assert PoolInv(s);
    hide MintInv, FirstInv, IndexInv, AccountInv, Registered, Close, Closing, Submit, Relabels, CountReject, Settled,
      Exposure;
    RefusedCloses(s, req, route, now, accepts);
    RegisteredCore(s, req, route);
    hide PoolInv, CoreInv, Flags;
    FlagsRelabel(s0, s1);
    RelabelKeeps(s0, s1);
    CloseFacts(s1, o.id, o.(status := Rejected));
    CloseExposure(s1, o.id, o.(status := Rejected), inst);
    RegisteredExposure(s, req, route.venue, inst);
  }

  /** Asking for cancels, one order or all of them, leaves the delta alone. */
  lemma DeltaRequested(s: Oms, id: OrderId, sent: bool, now: int, timeout: int, accepts: set<OrderId>, inst: nat)
    requires Shape(s)
    ensures Exposure(Cancel(s, id, sent), inst) == Exposure(s, inst)
    ensures Exposure(CheckAckTimeouts(s, now, timeout, accepts), inst) == Exposure(s, inst)
    ensures Exposure(CancelWorking(s, accepts), inst) == Exposure(s, inst)
  {
  }

  // ---- average price ----

  lemma {:induction false} NotionalBetween(ledger: seq<FillEntry>, i: nat, lo: int, hi: int)
    requires forall k :: 0 <= k < |ledger| ==> ledger[k].qty > 0
    requires forall k :: 0 <= k < |ledger| && ledger[k].order == i ==> lo <= ledger[k].price <= hi
    ensures lo * Sum(ledger, QtyOf(i)) <= Sum(ledger, NotionalOf(i)) <= hi * Sum(ledger, QtyOf(i))
  {
    if |ledger| > 0 {
      var rest, last := ledger[..|ledger| - 1], ledger[|ledger| - 1];
      NotionalBetween(rest, i, lo, hi);
      if last.order == i {
        PriceTimes(Sum(rest, QtyOf(i)), last.qty, last.price, lo, hi);
      }
    }
  }

  lemma PriceTimes(total: int, qty: int, price: int, lo: int, hi: int)
    requires qty > 0 && lo <= price <= hi
    ensures lo * (total + qty) <= lo * total + qty * price
    ensures hi * total + qty * price <= hi * (total + qty)
  {
    assert lo * (total + qty) == lo * total + lo * qty;
    assert hi * (total + qty) == hi * total + hi * qty;
    assert lo * qty <= price * qty <= hi * qty;
  }

  lemma QuotientBetween(notional: int, filled: int, lo: int, hi: int)
    requires filled > 0 && lo > 0 && lo * filled <= notional <= hi * filled
    ensures lo <= TruncDiv(notional, filled) <= hi
  {
    var q := notional / filled;
    assert notional >= 0;
    assert q * filled <= notional < (q + 1) * filled;
    MulCancel(lo, q + 1, filled);
    assert (hi + 1) * filled == hi * filled + filled;
    MulCancel(q, hi + 1, filled);
  }

  /** The average fill price lies between the lowest and the highest accepted fill price. */
  lemma AvgPriceBetween(s: Oms, i: nat, lo: int, hi: int)
    requires Inv(s) && i < |s.book| && s.book[i].filled > 0 && lo > 0
    requires forall k :: 0 <= k < |s.ledger| && s.ledger[k].order == i ==> lo <= s.ledger[k].price <= hi
    ensures lo <= s.book[i].AvgFillPrice() <= hi
  {
    assert LedgerInv(s);
    assert forall k :: 0 <= k < |s.ledger| ==> EntryOk(s, s.ledger[k]);
    hide SlotInv, PositionInv, TradesInv, PendingInv, BookInv, Settled;
    NotionalBetween(s.ledger, i, lo, hi);
    QuotientBetween(s.book[i].notional, s.book[i].filled, lo, hi);
  }

  // ---- lifecycle and slots ----

  /** A live order is on its way, on the book, or partly done; it never has everything filled. */
  lemma LiveLifecycle(s: Oms, id: OrderId)
    requires Inv(s) && Shape(s) && id in s.live
    ensures IsCurrent(s, id) && OrderOf(s, id).id == id
    ensures
      var o := OrderOf(s, id);
      && (o.status.Sent? || o.status.Confirmed? || o.status.PartiallyFilled? || o.status.SentCancel?)
      && 0 <= o.filled < o.size
      && (o.status.Sent? || o.status.Confirmed? ==> o.filled == 0)
      && (o.status.SentCancel? ==> o.pendingCancel)
  {
    assert Owns(s, id) && PoolInv(s);
    assert OrderOk(s.book[s.table[id.slot]]);
  }

  /** Of the terminal statuses, Filled and only Filled means that the whole size was filled. */
  lemma RetiredLifecycle(s: Oms, j: nat)
    requires Inv(s) && Shape(s) && j < |s.retired|
    ensures IsCurrent(s, s.retired[j]) && OrderOf(s, s.retired[j]).id == s.retired[j]
    ensures IsTerminal(OrderOf(s, s.retired[j]).status)
    ensures OrderOf(s, s.retired[j]).status.Filled? <==>
      OrderOf(s, s.retired[j]).filled == OrderOf(s, s.retired[j]).size
  {
    assert HeldTerminal(s, s.retired[j]) && PoolInv(s);
    assert OrderOk(s.book[s.table[s.retired[j].slot]]);
  }

  /** Each slot is free, live or in the grace queue, and in only one of them. */
  lemma SlotPartition(s: Oms, k: nat)
    requires Inv(s) && Shape(s) && k < |s.recycles|
    ensures k in s.free <==> k !in s.table
    ensures k in s.table ==> (s.book[s.table[k]].id in s.live <==> s.book[s.table[k]].id !in s.retired)
    ensures |s.free| + |s.live| + |s.retired| == |s.recycles| && |s.retired| <= RETIRED_GRACE
  {
    assert PoolInv(s) && LiveInv(s) && RetiredInv(s) && CountInv(s);
    if k in s.table {
      var id := s.book[s.table[k]].id;
      assert Owns(s, id);
      assert id in s.retired ==> HeldTerminal(s, id);
    }
  }

  /** The pool is exhausted only under at least capacity - 4096 live orders. */
  lemma ExhaustionMeansLive(s: Oms, req: OrderRequest, route: Route, now: int, accepts: set<OrderId>)
    requires Inv(s) && Shape(s) && WellFormed(req, route) && !s.killed
    ensures Submit(s, req, route, now, accepts).killed <==> route.Client? && |s.free| == 0
    ensures Submit(s, req, route, now, accepts).killed ==>
      |s.live| >= |s.recycles| - RETIRED_GRACE && Submit(s, req, route, now, accepts) == s.(killed := true)
  {
    assert CountInv(s);
    if ReachesVenue(s, route) {
      SubmitAlive(s, req, route, now, accepts);
    }
    hide Inv, CountInv, IsCurrent, Close, Register, Settle;
  }

  lemma EvictFlags(s: Oms)
    ensures Evict(s).killed == s.killed && Evict(s).benign <= s.benign
  {
  }

  lemma CloseFlags(s: Oms, id: OrderId, o: Order)
    requires Shape(s) && IsCurrent(s, id)
    ensures Close(s, id, o).killed == s.killed && Close(s, id, o).benign <= s.benign
  {
    hide Evict;
    forall s1: Oms ensures Evict(s1).killed == s1.killed && Evict(s1).benign <= s1.benign {
      EvictFlags(s1);
    }
  }

  lemma RegisteredCurrent(s: Oms, req: OrderRequest, venue: nat)
    requires Shape(s) && |s.free| > 0 && req.workerOffset < SCRATCH_SLOTS
    ensures Shape(CountReject(Registered(s, req, venue)))
    ensures IsCurrent(CountReject(Registered(s, req, venue)), NextId(s, venue))
    ensures CountReject(Registered(s, req, venue)).killed == s.killed
    ensures CountReject(Registered(s, req, venue)).benign == s.benign
  {
  }

  lemma SubmitAlive(s: Oms, req: OrderRequest, route: Route, now: int, accepts: set<OrderId>)
    requires Shape(s) && WellFormed(req, route) && ReachesVenue(s, route)
    ensures !Submit(s, req, route, now, accepts).killed
    ensures Submit(s, req, route, now, accepts).benign <= s.benign
  {
    RegisteredCurrent(s, req, route.venue);
    hide IsCurrent, Close, Shape;
    if route.result != Ok {
      CloseFlags(CountReject(Registered(s, req, route.venue)), NextId(s, route.venue),
                 NewOrder(s, req, route.venue).(status := Rejected));
    }
  }

  // ---- benign cancel-rejects ----

  lemma RetireBenign(s: Oms, id: OrderId, inst: nat, remaining: int, side: Side)
    ensures Retire(s, id, inst, remaining, side).benign <= s.benign
  {
    hide Evict;
    forall s1: Oms ensures Evict(s1).benign <= s1.benign {
      EvictFlags(s1);
    }
  }

  lemma AccountBenign(s: Oms, e: Inbound)
    requires Shape(s) && e.FillReport? && IsCurrent(s, e.id)
    ensures Account(s, e).benign == s.benign
  {
  }

  lemma BenignFill(s: Oms, e: Inbound)
    requires Shape(s) && e.FillReport? && Validate(s, e) == Accepted
    ensures OnFill(s, e).benign <= s.benign + {e.id}
    ensures var o := OrderOf(s, e.id); !o.pendingCancel || o.filled + e.qty != o.size ==>
      OnFill(s, e).benign <= s.benign
  {
    var o := OrderOf(s, e.id);
    AccountBenign(s, e);
    hide Account, Retire, Validate, Shape, IsCurrent;
    var s1 := Account(s, e);
    var s2 := if !o.pendingCancel then s1
              else s1.(benign := s1.benign + {e.id},
                       counts := s1.counts.(falseCancelRejects := s1.counts.falseCancelRejects + 1));
    RetireBenign(s2, e.id, o.instrument, 0, o.side);
  }

  lemma FlagsBenign(s: Oms, s': Oms)
    requires Flags(s, s')
    ensures s'.benign <= s.benign
  {
  }

  lemma AmendBenign(s: Oms, s': Oms, id: OrderId, o: Order)
    requires Amends(s, s', id, o)
    ensures s'.benign == s.benign
  {
  }

  lemma BenignRejected(s: Oms, e: Inbound)
    requires Shape(s) && e.PlaceReject?
    ensures OnPlaceReject(s, e).benign <= s.benign
  {
    if Validate(s, e) == Accepted {
      CloseFlags(CountReject(s), e.id, OrderOf(s, e.id).(status := Rejected));
    }
    hide Close, Validate;
  }

  lemma BenignCancelled(s: Oms, e: Inbound)
    requires Shape(s) && (e.CancelAck? || e.Unsolicited?)
    ensures OnCancelled(s, e).benign <= s.benign
  {
    if Validate(s, e) == Accepted {
      CloseFlags(CountUnsolicited(s, e), e.id, OrderOf(s, e.id).(pendingCancel := false, status := Cancelled));
    }
    hide Close, Validate;
  }

  lemma BenignConfirm(s: Oms, e: Inbound)
    requires Shape(s) && (e.Confirm? || e.CancelReject?)
    ensures Receive(s, e).benign <= s.benign
  {
    hide OnConfirm, OnCancelReject, Validate, Flags, Amends, FirstConfirm, Shape, OrderOf, IsCurrent;
    if e.Confirm? {
      if Validate(s, e) != Accepted {
        ConfirmDropped(s, e);
        FlagsBenign(s, OnConfirm(s, e));
      } else if !FirstConfirm(s, e) {
        ConfirmRepeated(s, e);
      } else {
        ConfirmAmends(s, e);
        AmendBenign(s, OnConfirm(s, e), e.id, OrderOf(s, e.id).(status := Confirmed));
      }
    } else if e.id in s.benign {
      BenignFlags(s, e);
      FlagsBenign(s, OnCancelReject(s, e));
    } else if Validate(s, e) != Accepted {
      CancelRejectDropped(s, e);
      FlagsBenign(s, OnCancelReject(s, e));
    } else {
      CancelRejectAmends(s, e);
      AmendBenign(s, OnCancelReject(s, e), e.id, Uncancelled(OrderOf(s, e.id)));
    }
  }

  lemma FillRefusedBenign(s: Oms, e: Inbound)
    requires Shape(s) && e.FillReport? && Validate(s, e) != Accepted
    ensures OnFill(s, e).benign <= s.benign
  {
    hide *;
    if Validate(s, e) == UnknownOrder {
      FillUnknown(s, e);
    } else {
      FillDropped(s, e);
    }
    FlagsBenign(s, OnFill(s, e));
  }

  /** Only the final fill of an order with a cancel in flight makes its cancel-reject expected. */
  lemma BenignAdded(s: Oms, e: Inbound, x: OrderId)
    requires Shape(s) && x !in s.benign && x in Receive(s, e).benign
    ensures e.FillReport? && x == e.id && Validate(s, e) == Accepted
    ensures OrderOf(s, x).pendingCancel && OrderOf(s, x).filled + e.qty == OrderOf(s, x).size
  {
    hide OnFill, Validate, Shape, OnConfirm, OnCancelReject, OnPlaceReject, OnCancelled;
    if e.FillReport? {
      if Validate(s, e) == Accepted {
        BenignFill(s, e);
      } else {
        FillRefusedBenign(s, e);
      }
    } else if e.Confirm? || e.CancelReject? {
      BenignConfirm(s, e);
    } else if e.PlaceReject? {
      BenignRejected(s, e);
    } else {
      BenignCancelled(s, e);
    }
  }

  lemma BenignSubmit(s: Oms, req: OrderRequest, route: Route, now: int, accepts: set<OrderId>)
    requires Shape(s) && WellFormed(req, route)
    ensures Submit(s, req, route, now, accepts).benign <= s.benign
  {
    if ReachesVenue(s, route) {
      SubmitAlive(s, req, route, now, accepts);
    }
    hide Close, Register, Settle, IsCurrent, Shape;
  }

  lemma BenignStep(s: Oms, op: Op, i: nat)
    requires Inv(s) && Shape(s) && NoWrap(s) && Admissible(s, op)
    requires i < |s.book| && IsTerminal(s.book[i].status) && s.book[i].id !in s.benign
    ensures s.book[i].id !in Apply(s, op).benign
  {
    var x := s.book[i].id;
    CurrentIsHeld(s, i);
    hide Inv, Receive, Submit, Genuine, NoWrap, Shape, WellFormed, Minted, IsCurrent;
    if op.Deliver? {
      if x in Receive(s, op.event).benign {
        BenignAdded(s, op.event, x);
        ValidNotTerminal(s, op.event, i);
      }
    } else if op.SubmitOp? {
      BenignSubmit(s, op.req, op.route, op.now, op.accepts);
    } else {
      BenignOther(s, op);
    }
  }

  lemma BenignOther(s: Oms, op: Op)
    requires Shape(s) && OpOk(op) && !op.Deliver? && !op.SubmitOp?
    ensures Apply(s, op).benign == s.benign
  {
    hide Shape, IsCurrent;
  }

  lemma ValidNotTerminal(s: Oms, e: Inbound, i: nat)
    requires Shape(s) && Validate(s, e) == Accepted && i < |s.book| && e.id == s.book[i].id
    requires IsCurrent(s, e.id) ==> Held(s, i)
    ensures !IsTerminal(s.book[i].status)
  {
  }

  /** Each filled order absorbs at most one cancel-reject: after it has, no later state expects
      another one for that id. */
  lemma {:induction false} AbsorbedOnce(states: seq<Oms>, ops: seq<Op>, m: nat, n: nat, i: nat)
    requires Run(states, ops) && m < n < |states| && NoWrap(states[n])
    requires i < |states[m].book| && states[m].book[i].id in states[m].benign
    requires ops[m] == Deliver(CancelReject(states[m].book[i].id))
    ensures states[m].book[i].id !in states[n].benign
    decreases n
  {
    hide *;
    UnwrappedBefore(states, ops, m, n);
    UnwrappedBefore(states, ops, n - 1, n);
    RunAt(states, ops, m);
    RunAt(states, ops, n - 1);
    BenignIsTerminal(states[m], i);
    var id := states[m].book[i].id;
    if n == m + 1 {
      Absorbed(states[m], id);
    } else {
      AbsorbedOnce(states, ops, m, n - 1, i);
      TerminalIsFinal(states, ops, m, n - 1, i);
      BenignStep(states[n - 1], ops[n - 1], i);
    }
  }

  lemma RunAt(states: seq<Oms>, ops: seq<Op>, k: nat)
    requires Run(states, ops) && k < |states| - 1
    ensures |ops| == |states| - 1 && Inv(states[k]) && Shape(states[k]) && Admissible(states[k], ops[k])
    ensures states[k + 1] == Apply(states[k], ops[k])
  {
    RunKeeps(states, ops, k);
  }

  lemma Absorbed(s: Oms, id: OrderId)
    requires Shape(s) && id in s.benign
    ensures id !in Apply(s, Deliver(CancelReject(id))).benign
  {
  }

  /** Cancel-rejects are expected only for filled orders that are still in the grace queue. */
  lemma BenignIsFilled(s: Oms, id: OrderId)
    requires Inv(s) && Shape(s) && id in s.benign
    ensures id in s.retired && IsCurrent(s, id) && OrderOf(s, id).id == id
    ensures OrderOf(s, id).status.Filled? && OrderOf(s, id).filled == OrderOf(s, id).size
  {
    assert BenignInv(s) && PoolInv(s) && HeldTerminal(s, id);
    assert OrderOk(s.book[s.table[id.slot]]);
  }

  lemma BenignIsTerminal(s: Oms, i: nat)
    requires Inv(s) && NoWrap(s) && i < |s.book| && s.book[i].id in s.benign
    ensures IsTerminal(s.book[i].status)
  {
    assert BenignInv(s);
    var id := s.book[i].id;
    assert HeldTerminal(s, id);
    var j := s.table[id.slot];
    if i < j {
      IdsDistinct(s, i, j);
    } else if j < i {
      IdsDistinct(s, j, i);
    }
  }
}
