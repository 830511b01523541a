/** How one operation may change history: serials, records and the fill ledger only grow. */
module OrderManagerHistory {
  import opened OrderIds
  import opened Orders
  import opened OrderManagerSpec
  import opened OrderManagerInvariants
  import opened OrderManagerSteps
  import opened OrderManagerKeeps

  /** The terms of the order never change, its fills only grow, and a terminal record is final. */
  ghost predicate Succeeds(o: Order, o': Order) {
    && o'.id == o.id && o'.instrument == o.instrument && o'.side == o.side && o'.size == o.size
    && o'.price == o.price && o'.intData == o.intData
    && o.filled <= o'.filled
    && (IsTerminal(o.status) ==> o' == o)
  }

  ghost predicate Extends(s: Oms, s': Oms) {
    && s.births <= s'.births && s.ledger <= s'.ledger
    && |s.book| <= |s'.book|
    && (forall i :: 0 <= i < |s.book| ==> Succeeds(s.book[i], s'.book[i]))
    && |s'.recycles| == |s.recycles|
    && (forall k :: 0 <= k < |s.recycles| ==> s.recycles[k] <= s'.recycles[k])
  }

  lemma ExtendsTransitive(a: Oms, b: Oms, c: Oms)
    requires Extends(a, b) && Extends(b, c)
    ensures Extends(a, c)
  {
    forall i | 0 <= i < |a.book| ensures Succeeds(a.book[i], c.book[i]) {
      assert Succeeds(a.book[i], b.book[i]) && Succeeds(b.book[i], c.book[i]);
    }
  }

  lemma RelabelExtends(s: Oms, s': Oms)
    requires Relabels(s, s')
    ensures Extends(s, s')
  {
  }

  lemma EvictExtends(s: Oms)
    requires PoolInv(s) && RetiredInv(s)
    ensures Extends(s, Evict(s))
  {
    EvictDoes(s);
    hide Evict, PoolInv, RetiredInv;
  }

  lemma ClosedExtends(s: Oms, id: OrderId, o: Order)
    requires Closing(s, id, o)
    ensures Extends(s, Closed(s, id, o))
  {
  }

  lemma CloseExtends(s: Oms, id: OrderId, o: Order)
    requires CoreInv(s) && Closing(s, id, o)
    ensures Extends(s, Close(s, id, o))
  {
    CloseFacts(s, id, o);
    ClosedIs(s, id, o);
    hide Closes, Shelves, Close, Closed, Evict, PoolInv, MintInv, FirstInv, LiveInv, RetiredInv, BenignInv,
      AccountInv, Extends;
    CloseShelved(s, Closed(s, id, o), id);
    ClosedExtends(s, id, o);
    EvictExtends(Closed(s, id, o));
    ExtendsTransitive(s, Closed(s, id, o), Close(s, id, o));
  }

  lemma AccountExtends(s: Oms, e: Inbound)
    requires Fillable(s, e)
    ensures Extends(s, Account(s, e))
  {
  }

  lemma CompletedExtends(s: Oms, e: Inbound)
    requires Fillable(s, e) && OrderOf(s, e.id).filled + e.qty == OrderOf(s, e.id).size
    ensures Extends(s, Completed(s, e))
  {
  }

  lemma FlagsExtend(s: Oms, s': Oms)
    requires Flags(s, s')
    ensures Extends(s, s')
  {
  }

  lemma FillExtends(s: Oms, e: Inbound)
    requires Inv(s) && Shape(s) && e.FillReport? && Genuine(s, e.id)
    ensures Extends(s, OnFill(s, e))
  {
    hide PoolInv, MintInv, FirstInv, LiveInv, RetiredInv, BenignInv, AccountInv, Settled, Shape, Validate, OnFill,
      Account,
         IsCurrent, Owns, Genuine, Extends, Flags, Completed, Evict, Shelves;
    if Validate(s, e) == UnknownOrder {
      FillUnknown(s, e);
      FlagsExtend(s, OnFill(s, e));
    } else if Validate(s, e) != Accepted {
      FillDropped(s, e);
      FlagsExtend(s, OnFill(s, e));
    } else {
      ValidIsFillable(s, e);
      ValidIsLive(s, e);
      if OrderOf(s, e.id).filled + e.qty == OrderOf(s, e.id).size {
        CompletedExtends(s, e);
        CompletedSlots(s, e);
        FinalFillIs(s, e);
        EvictExtends(Completed(s, e));
        ExtendsTransitive(s, Completed(s, e), OnFill(s, e));
      } else {
        PartialFillIs(s, e);
        AccountExtends(s, e);
      }
    }
  }

  lemma CompletedSlots(s: Oms, e: Inbound)
    requires SlotInv(s) && Fillable(s, e) && e.id in s.live
    requires OrderOf(s, e.id).filled + e.qty == OrderOf(s, e.id).size
    ensures SlotInv(Completed(s, e))
  {
    assert LiveInv(s);
    hide Completed, MintInv, FirstInv, BookInv, PoolInv, RetiredInv, BenignInv;
    CompletedShelves(s, e);
    hide *;
    ShelveSlots(s, Completed(s, e), e.id);
  }

  lemma ConfirmExtends(s: Oms, e: Inbound)
    requires Shape(s) && e.Confirm?
    ensures Extends(s, OnConfirm(s, e))
  {
    hide *;
    if Validate(s, e) != Accepted {
      ConfirmDropped(s, e);
      FlagsExtend(s, OnConfirm(s, e));
    } else if !FirstConfirm(s, e) {
      ConfirmRepeated(s, e);
      SelfExtends(s);
    } else {
      ConfirmAmends(s, e);
      AmendRelabels(s, OnConfirm(s, e), e.id, OrderOf(s, e.id).(status := Confirmed));
      RelabelExtends(s, OnConfirm(s, e));
    }
  }

  lemma SelfExtends(s: Oms)
    ensures Extends(s, s)
  {
  }

  lemma CancelRejectExtends(s: Oms, e: Inbound)
    requires Shape(s) && e.CancelReject?
    ensures Extends(s, OnCancelReject(s, e))
  {
    hide *;
    if e.id in s.benign {
      BenignFlags(s, e);
      FlagsExtend(s, OnCancelReject(s, e));
    } else if Validate(s, e) != Accepted {
      CancelRejectDropped(s, e);
      FlagsExtend(s, OnCancelReject(s, e));
    } else {
      CancelRejectAmends(s, e);
      AmendRelabels(s, OnCancelReject(s, e), e.id, Uncancelled(OrderOf(s, e.id)));
      RelabelExtends(s, OnCancelReject(s, e));
    }
  }

  lemma CloseAfterFlags(s: Oms, s1: Oms, id: OrderId, o: Order)
    requires Inv(s) && Flags(s, s1) && Shape(s1) && Closing(s1, id, o)
    ensures Extends(s, Close(s1, id, o))
  {
    FlagsKeep(s, s1);
    hide SlotInv, AccountInv, Settled, Close, Flags, Closing, Extends;
    FlagsExtend(s, s1);
    CloseExtends(s1, id, o);
    ExtendsTransitive(s, s1, Close(s1, id, o));
  }

  lemma PlaceRejectExtends(s: Oms, e: Inbound)
    requires Inv(s) && Shape(s) && e.PlaceReject? && Genuine(s, e.id)
    ensures Extends(s, OnPlaceReject(s, e))
  {
    if Validate(s, e) == Accepted {
      ValidIsLive(s, e);
    }
    hide PoolInv, MintInv, FirstInv, IndexInv, AccountInv, Settled;
    PlaceRejectIs(s, e);
    hide Inv, Validate, OnPlaceReject, Flags, Closing, Close, CountReject, Extends;
    if Validate(s, e) != Accepted {
      FlagsExtend(s, OnPlaceReject(s, e));
    } else {
      CloseAfterFlags(s, CountReject(s), e.id, OrderOf(s, e.id).(status := Rejected));
    }
  }

  lemma CancelledExtends(s: Oms, e: Inbound)
    requires Inv(s) && Shape(s) && (e.CancelAck? || e.Unsolicited?) && Genuine(s, e.id)
    ensures Extends(s, OnCancelled(s, e))
  {
    if Validate(s, e) == Accepted {
      ValidIsLive(s, e);
    }
    hide PoolInv, MintInv, FirstInv, IndexInv, AccountInv, Settled;
    CancelledIs(s, e);
    hide Inv, Validate, OnCancelled, Flags, Closing, Close, CountUnsolicited, Extends;
    if Validate(s, e) != Accepted {
      FlagsExtend(s, OnCancelled(s, e));
    } else {
      CloseAfterFlags(s, CountUnsolicited(s, e), e.id, OrderOf(s, e.id).(pendingCancel := false, status := Cancelled));
    }
  }

  lemma ReceiveExtends(s: Oms, e: Inbound)
    requires Inv(s) && Shape(s) && Genuine(s, e.id)
    ensures Extends(s, Receive(s, e))
  {
    hide Inv, OnConfirm, OnFill, OnPlaceReject, OnCancelReject, OnCancelled, Shape, Genuine, Extends;
    match e
    case Confirm(_) => ConfirmExtends(s, e);
    case FillReport(_, _, _, _) => FillExtends(s, e);
    case PlaceReject(_) => PlaceRejectExtends(s, e);
    case CancelReject(_) => CancelRejectExtends(s, e);
    case CancelAck(_) => CancelledExtends(s, e);
    case Unsolicited(_) => CancelledExtends(s, e);
  }

  lemma CancelExtends(s: Oms, id: OrderId, sent: bool)
    requires Shape(s)
    ensures Extends(s, Cancel(s, id, sent))
  {
    hide Amends, CancelSent, OrderOf, CancelAccepted, Shape, Amend, Extends;
    if CancelAccepted(s, id, sent) {
      CancelAmends(s, id, sent);
      AmendRelabels(s, Cancel(s, id, sent), id, CancelSent(OrderOf(s, id)));
      RelabelExtends(s, Cancel(s, id, sent));
    } else {
      SelfExtends(s);
    }
  }

  lemma CancelWorkingExtends(s: Oms, accepts: set<OrderId>)
    ensures Extends(s, CancelWorking(s, accepts))
  {
    hide *;
    CancelWorkingRelabels(s, accepts);
    RelabelExtends(s, CancelWorking(s, accepts));
  }

  lemma TimeoutsExtend(s: Oms, now: int, timeout: int, accepts: set<OrderId>)
    ensures Extends(s, CheckAckTimeouts(s, now, timeout, accepts))
  {
    hide *;
    TimeoutsRelabel(s, now, timeout, accepts);
    RelabelExtends(s, CheckAckTimeouts(s, now, timeout, accepts));
  }

  lemma RegisteredExtends(s: Oms, req: OrderRequest, venue: nat)
    requires Shape(s) && |s.free| > 0 && req.workerOffset < SCRATCH_SLOTS
    ensures Extends(s, Registered(s, req, venue))
  {
  }

  lemma SubmitSentExtends(s: Oms, req: OrderRequest, route: Route, now: int, accepts: set<OrderId>)
    requires Shape(s) && WellFormed(req, route) && ReachesVenue(s, route) && route.result == Ok
    ensures Extends(s, Submit(s, req, route, now, accepts))
  {
    hide Registered, NewOrder, Settle, Relabels, Submit, Extends, Shape;
    SubmitSent(s, req, route, now, accepts);
    SentRelabels(s, req, route.venue, now);
    RegisteredExtends(s, req, route.venue);
    RelabelExtends(Registered(s, req, route.venue), Submit(s, req, route, now, accepts));
    ExtendsTransitive(s, Registered(s, req, route.venue), Submit(s, req, route, now, accepts));
  }

  lemma SubmitRefusedExtends(s: Oms, req: OrderRequest, route: Route, now: int, accepts: set<OrderId>)
    requires Inv(s) && Shape(s) && WellFormed(req, route) && ReachesVenue(s, route) && route.result != Ok
    ensures Extends(s, Submit(s, req, route, now, accepts))
  {
    var s0 := Registered(s, req, route.venue);
    var s1 := CountReject(s0);
    var o := NewOrder(s, req, route.venue);
    assert PoolInv(s);
    hide MintInv, FirstInv, IndexInv, AccountInv, Registered, Close, Closing, Submit, Relabels, CountReject, Settled,
      Extends;
    RefusedCloses(s, req, route, now, accepts);
    RegisteredCore(s, req, route);
    hide PoolInv, CoreInv, Flags;
    FlagsRelabel(s0, s1);
    RelabelKeeps(s0, s1);
    RegisteredExtends(s, req, route.venue);
    RelabelExtends(s0, s1);
    ExtendsTransitive(s, s0, s1);
    CloseExtends(s1, o.id, o.(status := Rejected));
    ExtendsTransitive(s, s1, Submit(s, req, route, now, accepts));
  }

  lemma SubmitExtends(s: Oms, req: OrderRequest, route: Route, now: int, accepts: set<OrderId>)
    requires Inv(s) && Shape(s) && WellFormed(req, route)
    ensures Extends(s, Submit(s, req, route, now, accepts))
  {
    hide Inv, CancelWorking, Register, NewOrder, Settle, Close, Flags, Extends;
    if ReachesVenue(s, route) {
      if route.result == Ok {
        SubmitSentExtends(s, req, route, now, accepts);
      } else {
        SubmitRefusedExtends(s, req, route, now, accepts);
      }
    } else {
      SelfExtends(s);
      FlagUpdates(s);
      FlagsExtend(s, s.(incomplete := true));
      FlagsExtend(s, s.(killed := true));
      CancelWorkingExtends(s.(incomplete := true), accepts);
      ExtendsTransitive(s, s.(incomplete := true), CancelWorking(s.(incomplete := true), accepts));
    }
  }
}
