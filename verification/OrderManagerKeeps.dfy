/** Every inbound event and every operation of the order manager keeps its invariant. */
module OrderManagerKeeps {
  import opened OrderIds
  import opened Orders
  import opened OrderManagerSpec
  import opened OrderManagerInvariants
  import opened OrderManagerSteps
  import opened Sums

  /** The id does not pass for an order it does not name: `IsCurrent` compares only the slot and the
      16-bit generation, so this is what the caller of an inbound handler has to provide. */
  ghost predicate Genuine(s: Oms, id: OrderId)
    requires Shape(s)
  {
    IsCurrent(s, id) ==> Owns(s, id)
  }

  lemma ValidIsLive(s: Oms, e: Inbound)
    requires SlotInv(s) && Genuine(s, e.id) && Validate(s, e) == Accepted
    ensures IsCurrent(s, e.id) && Owns(s, e.id) && e.id in s.live
  {
    assert !IsTerminal(s.book[s.table[e.id.slot]].status);
  }

  /** Only counters, flags and expected benign rejects differ; they carry no obligation. */
  ghost predicate Flags(s: Oms, s': Oms) {
    SameLedgers(s, s') && s'.benign <= s.benign && s'.book == s.book
  }

  /** One working order is rewritten to another working status. */
  ghost predicate Amends(s: Oms, s': Oms, id: OrderId, o: Order) {
    && Shape(s) && IsCurrent(s, id) && SameLedgers(s, s') && s'.benign == s.benign
    && s'.book == s.book[s.table[id.slot] := o]
    && Relabelled(OrderOf(s, id), o) && !o.status.New?
  }

  lemma FlagsRelabel(s: Oms, s': Oms)
    requires Flags(s, s')
    ensures Relabels(s, s') && |s'.retired| == |s.retired| && (Settled(s) ==> Settled(s'))
  {
  }

  lemma AmendRelabels(s: Oms, s': Oms, id: OrderId, o: Order)
    requires Amends(s, s', id, o)
    ensures Relabels(s, s') && |s'.retired| == |s.retired| && (Settled(s) ==> Settled(s'))
  {
  }

  lemma FlagsKeep(s: Oms, s': Oms)
    requires Inv(s) && Flags(s, s')
    ensures Inv(s')
  {
    FlagsRelabel(s, s');
    hide PoolInv, MintInv, FirstInv, IndexInv, AccountInv, Settled, Relabels;
    RelabelKeeps(s, s');
  }

  lemma AmendKeeps(s: Oms, s': Oms, id: OrderId, o: Order)
    requires Inv(s) && Amends(s, s', id, o)
    ensures Inv(s')
  {
    AmendRelabels(s, s', id, o);
    hide PoolInv, MintInv, FirstInv, IndexInv, AccountInv, Settled, Relabels;
    RelabelKeeps(s, s');
  }

  ghost predicate FirstConfirm(s: Oms, e: Inbound)
    requires Shape(s)
  {
    Validate(s, e) == Accepted && (OrderOf(s, e.id).status.New? || OrderOf(s, e.id).status.Sent?)
  }

  lemma ConfirmDropped(s: Oms, e: Inbound)
    requires Shape(s) && e.Confirm? && Validate(s, e) != Accepted
    ensures Flags(s, OnConfirm(s, e))
  {
  }

  lemma ConfirmRepeated(s: Oms, e: Inbound)
    requires Shape(s) && e.Confirm? && Validate(s, e) == Accepted && !FirstConfirm(s, e)
    ensures OnConfirm(s, e) == s
  {
  }

  lemma ConfirmAmends(s: Oms, e: Inbound)
    requires Shape(s) && e.Confirm? && FirstConfirm(s, e)
    ensures IsCurrent(s, e.id) && Amends(s, OnConfirm(s, e), e.id, OrderOf(s, e.id).(status := Confirmed))
  {
  }

  lemma ConfirmKeeps(s: Oms, e: Inbound)
    requires Inv(s) && Shape(s) && e.Confirm?
    ensures Inv(OnConfirm(s, e))
  {
    hide *;
    if Validate(s, e) != Accepted {
      ConfirmDropped(s, e);
      FlagsKeep(s, OnConfirm(s, e));
    } else if !FirstConfirm(s, e) {
      ConfirmRepeated(s, e);
    } else {
      ConfirmAmends(s, e);
      AmendKeeps(s, OnConfirm(s, e), e.id, OrderOf(s, e.id).(status := Confirmed));
    }
  }

  ghost function Uncancelled(o: Order): Order {
    o.(pendingCancel := false, status := if o.filled > 0 then PartiallyFilled else Confirmed)
  }

  lemma BenignFlags(s: Oms, e: Inbound)
    requires Shape(s) && e.CancelReject? && e.id in s.benign
    ensures Flags(s, OnCancelReject(s, e))
  {
  }

  lemma CancelRejectDropped(s: Oms, e: Inbound)
    requires Shape(s) && e.CancelReject? && e.id !in s.benign && Validate(s, e) != Accepted
    ensures Flags(s, OnCancelReject(s, e))
  {
  }

  lemma CancelRejectAmends(s: Oms, e: Inbound)
    requires Shape(s) && e.CancelReject? && e.id !in s.benign && Validate(s, e) == Accepted
    ensures IsCurrent(s, e.id) && Amends(s, OnCancelReject(s, e), e.id, Uncancelled(OrderOf(s, e.id)))
  {
  }

  lemma CancelRejectKeeps(s: Oms, e: Inbound)
    requires Inv(s) && Shape(s) && e.CancelReject?
    ensures Inv(OnCancelReject(s, e))
  {
    hide *;
    if e.id in s.benign {
      BenignFlags(s, e);
      FlagsKeep(s, OnCancelReject(s, e));
    } else if Validate(s, e) != Accepted {
      CancelRejectDropped(s, e);
      FlagsKeep(s, OnCancelReject(s, e));
    } else {
      CancelRejectAmends(s, e);
      AmendKeeps(s, OnCancelReject(s, e), e.id, Uncancelled(OrderOf(s, e.id)));
    }
  }

  // ---- rejects and cancels ----

  /** The accounting side of closing an order that is not filled. */
  ghost predicate Closes(s: Oms, s': Oms, id: OrderId) {
    && Shape(s) && Owns(s, id) && |s'.book| == |s.book|
    && var o := s.book[s.table[id.slot]];
    && var o' := s'.book[s.table[id.slot]];
    && !IsTerminal(o.status) && (o'.status.Cancelled? || o'.status.Rejected?)
    && o' == o.(status := o'.status, pendingCancel := o'.pendingCancel)
    && s'.book == s.book[s.table[id.slot] := o']
    && s'.births == s.births && s'.ledger == s.ledger && s'.positions == s.positions
    && s'.table == s.table && s'.recycles == s.recycles && s'.free == s.free
    && s'.pending == s.pending[o.instrument := PendingOf(s, o.instrument) - SignedQty(o.side, o.Remaining())]
    && s'.trades == s.trades - {id}
  }

  lemma ClosePending(s: Oms, s': Oms, id: OrderId)
    requires Closes(s, s', id) && BookInv(s) && PendingInv(s)
    ensures BookInv(s') && PendingInv(s')
  {
    var i := s.table[id.slot];
    forall inst: nat ensures PendingOf(s', inst) == Sum(s'.book, OpenOn(inst)) {
      SumUpdate(s.book, i, s'.book[i], OpenOn(inst));
    }
  }

  lemma CloseLedger(s: Oms, s': Oms, id: OrderId)
    requires Closes(s, s', id) && LedgerInv(s) && PositionInv(s)
    ensures LedgerInv(s') && PositionInv(s')
  {
    var i := s.table[id.slot];
    forall k | 0 <= k < |s'.ledger| ensures EntryOk(s', s'.ledger[k]) {
      assert EntryOk(s, s.ledger[k]);
    }
    forall inst: nat
      ensures PositionOf(s', inst) == PositionOf(s, inst)
      ensures PositionOf(s', inst).net == Sum(s'.book, FilledOn(inst))
    {
      SumUpdate(s.book, i, s'.book[i], FilledOn(inst));
    }
  }

  lemma CloseTrades(s: Oms, s': Oms, id: OrderId)
    requires Closes(s, s', id) && LedgerInv(s) && TradesInv(s) && MintInv(s) && LiveInv(s)
    ensures Shape(s') && TradesInv(s')
  {
    var i := s.table[id.slot];
    forall k | 0 <= k < |s'.ledger| && !IsTerminal(s'.book[s'.ledger[k].order].status)
      ensures s'.ledger[k].trade in TradesOf(s', s'.book[s'.ledger[k].order].id)
    {
      assert EntryOk(s, s.ledger[k]);
      var j := s.ledger[k].order;
      assert Held(s, j) && j != i;
    }
    CloseRecords(s, s', id);
  }

  lemma CloseRecords(s: Oms, s': Oms, id: OrderId)
    requires Closes(s, s', id) && TradesInv(s)
    ensures forall x, t :: x in s'.trades && x.slot in s'.table && t in s'.trades[x] ==>
      exists k :: Records(s', k, s'.table[x.slot], t)
  {
    forall x, t | x in s'.trades && x.slot in s'.table && t in s'.trades[x]
      ensures exists k :: Records(s', k, s'.table[x.slot], t)
    {
      var k :| Records(s, k, s.table[x.slot], t);
      assert Records(s', k, s'.table[x.slot], t);
    }
  }

  lemma CloseShelved(s: Oms, s': Oms, id: OrderId)
    requires CoreInv(s) && Closes(s, s', id) && Shelves(s, s', id) && s'.venueSeq == s.venueSeq
    ensures CoreInv(s')
  {
    ShelveSlots(s, s', id);
    ClosePending(s, s', id);
    CloseLedger(s, s', id);
    CloseTrades(s, s', id);
  }

  lemma ShelveSlots(s: Oms, s': Oms, id: OrderId)
    requires SlotInv(s) && Shelves(s, s', id) && s'.venueSeq == s.venueSeq
    ensures SlotInv(s')
  {
    ShelvePool(s, s', id);
    ShelveMint(s, s', id);
    ShelveIndex(s, s', id);
    assert id in s.live && |s'.live| == |s.live| - 1;
  }

  /** What the close of a live order does before the grace queue is trimmed. */
  ghost function Closed(s: Oms, id: OrderId, o: Order): Oms
    requires Shape(s) && IsCurrent(s, id)
  {
    Shelve(Pend(Amend(s, id, o), o.instrument, -SignedQty(o.side, o.Remaining())), id)
  }

  /** `o` is the order of `id` with a terminal status other than Filled. */
  ghost predicate Closing(s: Oms, id: OrderId, o: Order) {
    && Shape(s) && IsCurrent(s, id) && Owns(s, id) && id in s.live
    && !IsTerminal(OrderOf(s, id).status) && (o.status.Cancelled? || o.status.Rejected?)
    && o == OrderOf(s, id).(status := o.status, pendingCancel := o.pendingCancel)
  }

  lemma ClosedIs(s: Oms, id: OrderId, o: Order)
    requires Closing(s, id, o) && o.Remaining() > 0 && id !in s.benign
    ensures Close(s, id, o) == Evict(Closed(s, id, o))
    ensures Closes(s, Closed(s, id, o), id) && Shelves(s, Closed(s, id, o), id)
    ensures Closed(s, id, o).venueSeq == s.venueSeq
    ensures Settled(Amend(s, id, o)) ==> Settled(Closed(s, id, o))
    ensures |Closed(s, id, o).retired| == |s.retired| + 1
  {
    hide Evict;
  }

  lemma CloseKeeps(s: Oms, id: OrderId, o: Order)
    requires CoreInv(s) && |s.retired| <= RETIRED_GRACE
    requires Closing(s, id, o) && Settled(Amend(s, id, o))
    ensures Inv(Close(s, id, o))
  {
    CloseFacts(s, id, o);
    hide *;
    ClosedIs(s, id, o);
    CloseShelved(s, Closed(s, id, o), id);
    EvictKeeps(Closed(s, id, o));
  }

  lemma CloseFacts(s: Oms, id: OrderId, o: Order)
    requires CoreInv(s) && Closing(s, id, o)
    ensures o.Remaining() > 0 && id !in s.benign
  {
    CloseRemaining(s, id, o);
    CloseBenign(s, id);
  }

  lemma CloseRemaining(s: Oms, id: OrderId, o: Order)
    requires Shape(s) && BookInv(s) && IsCurrent(s, id)
    requires !IsTerminal(OrderOf(s, id).status) && o.size == OrderOf(s, id).size && o.filled == OrderOf(s, id).filled
    ensures o.Remaining() > 0
  {
    assert OrderOk(OrderOf(s, id));
  }

  lemma CloseBenign(s: Oms, id: OrderId)
    requires Shape(s) && BenignInv(s) && id.slot in s.table && !IsTerminal(s.book[s.table[id.slot]].status)
    ensures id !in s.benign
  {
    assert forall x :: x in s.benign ==> x.slot in s.table && s.book[s.table[x.slot]].status.Filled?;
  }

  lemma PlaceRejectIs(s: Oms, e: Inbound)
    requires Shape(s) && e.PlaceReject?
    requires Validate(s, e) == Accepted ==> Owns(s, e.id) && e.id in s.live
    ensures Validate(s, e) != Accepted ==> Flags(s, OnPlaceReject(s, e))
    ensures Validate(s, e) == Accepted ==> (
      var s1 := CountReject(s);
      var o := OrderOf(s, e.id).(status := Rejected);
      && Flags(s, s1) && Shape(s1) && Closing(s1, e.id, o) && OnPlaceReject(s, e) == Close(s1, e.id, o))
  {
    hide Close;
  }

  lemma AmendSettled(s: Oms, id: OrderId, o: Order)
    requires Settled(s) && Shape(s) && IsCurrent(s, id) && !o.status.New?
    ensures Settled(Amend(s, id, o))
  {
  }

  lemma CloseSettled(s: Oms, s1: Oms, id: OrderId, o: Order)
    requires Inv(s) && Flags(s, s1) && Shape(s1) && Closing(s1, id, o)
    ensures Inv(Close(s1, id, o))
  {
    FlagsKeep(s, s1);
    hide PoolInv, MintInv, FirstInv, IndexInv, AccountInv, Settled, Close, Amend, Flags;
    AmendSettled(s1, id, o);
    CloseKeeps(s1, id, o);
  }

  lemma PlaceRejectKeeps(s: Oms, e: Inbound)
    requires Inv(s) && Shape(s) && e.PlaceReject? && Genuine(s, e.id)
    ensures Inv(OnPlaceReject(s, e))
  {
    if Validate(s, e) == Accepted {
      ValidIsLive(s, e);
    }
    hide PoolInv, MintInv, FirstInv, IndexInv, AccountInv, Settled;
    PlaceRejectIs(s, e);
    hide Inv, Validate, OnPlaceReject, Flags, Closing, Close, CountReject;
    if Validate(s, e) != Accepted {
      FlagsKeep(s, OnPlaceReject(s, e));
    } else {
      CloseSettled(s, CountReject(s), e.id, OrderOf(s, e.id).(status := Rejected));
    }
  }

  ghost function CountUnsolicited(s: Oms, e: Inbound): Oms {
    if e.Unsolicited? then s.(counts := s.counts.(unsolicited := s.counts.unsolicited + 1)) else s
  }

  lemma CancelledIs(s: Oms, e: Inbound)
    requires Shape(s) && (e.CancelAck? || e.Unsolicited?)
    requires Validate(s, e) == Accepted ==> Owns(s, e.id) && e.id in s.live
    ensures Validate(s, e) != Accepted ==> Flags(s, OnCancelled(s, e))
    ensures Validate(s, e) == Accepted ==> (
      var s1 := CountUnsolicited(s, e);
      var o := OrderOf(s, e.id).(pendingCancel := false, status := Cancelled);
      && Flags(s, s1) && Shape(s1) && Closing(s1, e.id, o) && OnCancelled(s, e) == Close(s1, e.id, o))
  {
    hide Close;
  }

  lemma CancelledKeeps(s: Oms, e: Inbound)
    requires Inv(s) && Shape(s) && (e.CancelAck? || e.Unsolicited?) && Genuine(s, e.id)
    ensures Inv(OnCancelled(s, e))
  {
    if Validate(s, e) == Accepted {
      ValidIsLive(s, e);
    }
    hide PoolInv, MintInv, FirstInv, IndexInv, AccountInv, Settled;
    CancelledIs(s, e);
    hide Inv, Validate, OnCancelled, Flags, Closing, Close, CountUnsolicited;
    if Validate(s, e) != Accepted {
      FlagsKeep(s, OnCancelled(s, e));
    } else {
      CloseSettled(s, CountUnsolicited(s, e), e.id, OrderOf(s, e.id).(pendingCancel := false, status := Cancelled));
    }
  }

  // ---- fills ----

  lemma ValidIsFillable(s: Oms, e: Inbound)
    requires SlotInv(s) && e.FillReport? && Genuine(s, e.id) && Validate(s, e) == Accepted
    ensures Fillable(s, e)
  {
    ValidIsLive(s, e);
  }

  lemma FillUnknown(s: Oms, e: Inbound)
    requires Shape(s) && e.FillReport? && Validate(s, e) == UnknownOrder
    ensures Flags(s, OnFill(s, e))
  {
  }

  lemma FillDropped(s: Oms, e: Inbound)
    requires Shape(s) && e.FillReport? && Validate(s, e) != Accepted && Validate(s, e) != UnknownOrder
    ensures Flags(s, OnFill(s, e))
  {
  }

  lemma AccountAccounts(s: Oms, e: Inbound)
    requires CoreInv(s) && Fillable(s, e)
    ensures AccountInv(Account(s, e))
  {
    hide Account, PoolInv, IndexInv, PendingInv, LedgerInv, PositionInv, TradesInv, MintInv, FirstInv, BookInv;
    AccountMint(s, e);
    AccountPending(s, e);
    AccountLedger(s, e);
    AccountPosition(s, e);
    AccountTrades(s, e);
  }

  lemma PartialFillKeeps(s: Oms, e: Inbound)
    requires CoreInv(s) && Fillable(s, e) && e.qty < OrderOf(s, e.id).Remaining()
    ensures CoreInv(Account(s, e))
  {
    hide Account, PoolInv, IndexInv, AccountInv, MintInv, FirstInv;
    AccountPool(s, e);
    PartialFillSlots(s, e);
    AccountAccounts(s, e);
  }

  lemma PartialFillSlots(s: Oms, e: Inbound)
    requires CoreInv(s) && Fillable(s, e) && e.qty < OrderOf(s, e.id).Remaining()
    ensures SlotInv(Account(s, e))
  {
    hide Account, PoolInv, IndexInv, MintInv, FirstInv, BookInv, PendingInv, LedgerInv, PositionInv, TradesInv;
    AccountPool(s, e);
    AccountMint(s, e);
    AccountIndex(s, e);
  }

  lemma PartialFillIs(s: Oms, e: Inbound)
    requires Fillable(s, e) && Settled(s) && OrderOf(s, e.id).filled + e.qty != OrderOf(s, e.id).size
    ensures Settled(Account(s, e)) && |Account(s, e).retired| == |s.retired|
    ensures OnFill(s, e) == Account(s, e)
    ensures e.qty < OrderOf(s, e.id).Remaining()
  {
  }

  /** The state after the final fill, before the grace queue is trimmed. */
  ghost function Completed(s: Oms, e: Inbound): Oms
    requires Shape(s) && e.FillReport? && IsCurrent(s, e.id)
  {
    var s1 := Account(s, e);
    var s2 := if !OrderOf(s, e.id).pendingCancel then s1
              else s1.(benign := s1.benign + {e.id},
                       counts := s1.counts.(falseCancelRejects := s1.counts.falseCancelRejects + 1));
    Shelve(s2, e.id)
  }

  /** s' is s with the terminal order `id` moved to the grace queue; the accounts are the same. */
  ghost predicate Moves(s: Oms, s': Oms, id: OrderId) {
    && Shape(s) && Owns(s, id) && IsTerminal(s.book[s.table[id.slot]].status)
    && s'.book == s.book && s'.births == s.births && s'.ledger == s.ledger && s'.positions == s.positions
    && s'.pending == s.pending && s'.table == s.table && s'.recycles == s.recycles && s'.free == s.free
    && s'.trades == s.trades - {id}
  }

  ghost predicate NoneWorking(s: Oms, id: OrderId) {
    forall i :: 0 <= i < |s.book| && !IsTerminal(s.book[i].status) ==> s.book[i].id != id
  }

  lemma CompletedMoves(s: Oms, e: Inbound)
    requires Fillable(s, e) && OrderOf(s, e.id).filled + e.qty == OrderOf(s, e.id).size
    ensures Shape(Account(s, e)) && Moves(Account(s, e), Completed(s, e), e.id)
  {
  }

  lemma CompletedShelves(s: Oms, e: Inbound)
    requires Fillable(s, e) && e.id in s.live && OrderOf(s, e.id).filled + e.qty == OrderOf(s, e.id).size
    requires s.trades.Keys <= s.live
    ensures Shelves(s, Completed(s, e), e.id)
    ensures Completed(s, e).venueSeq == s.venueSeq
    ensures |Completed(s, e).retired| == |s.retired| + 1
  {
  }

  lemma FinalFillIs(s: Oms, e: Inbound)
    requires Fillable(s, e) && Settled(s) && OrderOf(s, e.id).filled + e.qty == OrderOf(s, e.id).size
    ensures Settled(Completed(s, e))
    ensures OnFill(s, e) == Evict(Completed(s, e))
  {
    hide Evict;
  }

  lemma MoveTrades(s: Oms, s': Oms, id: OrderId)
    requires Moves(s, s', id) && LedgerInv(s) && TradesInv(s)
    requires NoneWorking(s, id)
    ensures Shape(s') && TradesInv(s')
  {
    forall k | 0 <= k < |s'.ledger| && !IsTerminal(s'.book[s'.ledger[k].order].status)
      ensures s'.ledger[k].trade in TradesOf(s', s'.book[s'.ledger[k].order].id)
    {
      assert EntryOk(s, s.ledger[k]);
    }
    forall x, t | x in s'.trades && x.slot in s'.table && t in s'.trades[x]
      ensures exists k :: Records(s', k, s'.table[x.slot], t)
    {
      var k :| Records(s, k, s.table[x.slot], t);
      assert Records(s', k, s'.table[x.slot], t);
    }
  }

  lemma MoveSums(s: Oms, s': Oms, id: OrderId)
    requires Moves(s, s', id) && BookInv(s) && PendingInv(s) && LedgerInv(s) && PositionInv(s)
    ensures BookInv(s') && PendingInv(s') && LedgerInv(s') && PositionInv(s')
  {
    forall inst: nat ensures PendingOf(s', inst) == Sum(s'.book, OpenOn(inst)) {
      assert PendingOf(s, inst) == Sum(s.book, OpenOn(inst));
    }
    forall k | 0 <= k < |s'.ledger| ensures EntryOk(s', s'.ledger[k]) {
      assert EntryOk(s, s.ledger[k]);
    }
    assert forall inst: nat :: PositionOf(s', inst) == PositionOf(s, inst);
  }

  lemma OthersNamed(s: Oms, e: Inbound)
    requires Fillable(s, e) && LiveInv(s) && OrderOf(s, e.id).filled + e.qty == OrderOf(s, e.id).size
    ensures NoneWorking(Account(s, e), e.id)
  {
    forall i | 0 <= i < |s.book| && !IsTerminal(Account(s, e).book[i].status)
      ensures Account(s, e).book[i].id != e.id
    {
      assert i != s.table[e.id.slot];
      assert Held(s, i);
    }
  }

  lemma CompletedAccounts(s: Oms, e: Inbound)
    requires CoreInv(s) && Fillable(s, e) && OrderOf(s, e.id).filled + e.qty == OrderOf(s, e.id).size
    ensures AccountInv(Completed(s, e))
  {
    hide Account, Completed, Moves, NoneWorking, PendingInv, LedgerInv, PositionInv, TradesInv, MintInv, FirstInv,
      BookInv, PoolInv;
    AccountAccounts(s, e);
    CompletedMoves(s, e);
    OthersNamed(s, e);
    MoveSums(Account(s, e), Completed(s, e), e.id);
    MoveTrades(Account(s, e), Completed(s, e), e.id);
  }

  lemma FinalFillKeeps(s: Oms, e: Inbound)
    requires Inv(s) && Fillable(s, e) && e.id in s.live
    requires OrderOf(s, e.id).filled + e.qty == OrderOf(s, e.id).size
    ensures Inv(OnFill(s, e))
  {
    assert LiveInv(s);
    hide Account, Completed, PendingInv, LedgerInv, PositionInv, TradesInv, MintInv, FirstInv, BookInv, PoolInv,
      RetiredInv, BenignInv, Evict;
    CompletedShelves(s, e);
    hide *;
    CompletedAccounts(s, e);
    ShelveSlots(s, Completed(s, e), e.id);
    FinalFillIs(s, e);
    EvictKeeps(Completed(s, e));
  }

  lemma FillKeeps(s: Oms, e: Inbound)
    requires Inv(s) && Shape(s) && e.FillReport? && Genuine(s, e.id)
    ensures Inv(OnFill(s, e))
  {
    hide PoolInv, MintInv, FirstInv, IndexInv, AccountInv, Settled, Shape, Validate, OnFill, Account, IsCurrent,
      Owns, Genuine;
    if Validate(s, e) == UnknownOrder {
      FillUnknown(s, e);
      FlagsKeep(s, OnFill(s, e));
    } else if Validate(s, e) != Accepted {
      FillDropped(s, e);
      FlagsKeep(s, OnFill(s, e));
    } else {
      ValidIsFillable(s, e);
      ValidIsLive(s, e);
      if OrderOf(s, e.id).filled + e.qty == OrderOf(s, e.id).size {
        FinalFillKeeps(s, e);
      } else {
        PartialFillIs(s, e);
        PartialFillKeeps(s, e);
      }
    }
  }

  /** Every inbound event keeps the invariant: duplicated, late, reordered or stale. */
  lemma ReceiveKeeps(s: Oms, e: Inbound)
    requires Inv(s) && Shape(s) && Genuine(s, e.id)
    ensures Inv(Receive(s, e))
  {
    hide Inv, OnConfirm, OnFill, OnPlaceReject, OnCancelReject, OnCancelled, Shape, Genuine;
    match e
    case Confirm(_) => ConfirmKeeps(s, e);
    case FillReport(_, _, _, _) => FillKeeps(s, e);
    case PlaceReject(_) => PlaceRejectKeeps(s, e);
    case CancelReject(_) => CancelRejectKeeps(s, e);
    case CancelAck(_) => CancelledKeeps(s, e);
    case Unsolicited(_) => CancelledKeeps(s, e);
  }

  // ---- strategy-facing operations ----

  lemma CancelAmends(s: Oms, id: OrderId, sent: bool)
    requires Shape(s) && CancelAccepted(s, id, sent)
    ensures Amends(s, Cancel(s, id, sent), id, CancelSent(OrderOf(s, id)))
  {
  }

  lemma CancelKeeps(s: Oms, id: OrderId, sent: bool)
    requires Inv(s) && Shape(s)
    ensures Inv(Cancel(s, id, sent))
  {
    hide Inv, Amends, CancelSent, OrderOf, CancelAccepted, Shape, Amend;
    if CancelAccepted(s, id, sent) {
      CancelAmends(s, id, sent);
      AmendKeeps(s, Cancel(s, id, sent), id, CancelSent(OrderOf(s, id)));
    }
  }

  lemma RelabelsKeep(s: Oms, s': Oms)
    requires Inv(s) && Relabels(s, s') && Settled(s')
    ensures Inv(s')
  {
    assert s'.retired == s.retired;
    hide PoolInv, MintInv, FirstInv, IndexInv, AccountInv, Settled, Relabels;
    RelabelKeeps(s, s');
  }

  lemma CancelWorkingRelabels(s: Oms, accepts: set<OrderId>)
    ensures Relabels(s, CancelWorking(s, accepts))
    ensures Settled(s) ==> Settled(CancelWorking(s, accepts))
  {
  }

  lemma CancelWorkingKeeps(s: Oms, accepts: set<OrderId>)
    requires Inv(s)
    ensures Inv(CancelWorking(s, accepts))
  {
    CancelWorkingRelabels(s, accepts);
    hide CoreInv, CancelWorking, Relabels, Settled;
    RelabelsKeep(s, CancelWorking(s, accepts));
  }

  lemma TimeoutsRelabel(s: Oms, now: int, timeout: int, accepts: set<OrderId>)
    ensures Relabels(s, CheckAckTimeouts(s, now, timeout, accepts))
    ensures Settled(s) ==> Settled(CheckAckTimeouts(s, now, timeout, accepts))
  {
  }

  lemma TimeoutsKeep(s: Oms, now: int, timeout: int, accepts: set<OrderId>)
    requires Inv(s)
    ensures Inv(CheckAckTimeouts(s, now, timeout, accepts))
  {
    TimeoutsRelabel(s, now, timeout, accepts);
    hide CoreInv, CheckAckTimeouts, Relabels, Settled;
    RelabelsKeep(s, CheckAckTimeouts(s, now, timeout, accepts));
  }

  // ---- submit ----

  /** The request and the route are ones the callers produce: a positive size, a tag offset inside
      the scratch array, an 8-bit venue. */
  ghost predicate WellFormed(req: OrderRequest, route: Route) {
    && req.size > 0 && req.workerOffset < SCRATCH_SLOTS
    && (route.Client? ==> route.venue < VENUES)
  }

  /** The state in the middle of submit: the order is registered but not yet sent. */
  ghost function Registered(s: Oms, req: OrderRequest, venue: nat): Oms
    requires Shape(s) && |s.free| > 0 && req.workerOffset < SCRATCH_SLOTS
  {
    Register(s, NewOrder(s, req, venue))
  }

  lemma RegisteredCore(s: Oms, req: OrderRequest, route: Route)
    requires Inv(s) && Shape(s) && |s.free| > 0 && WellFormed(req, route) && route.Client?
    ensures CoreInv(Registered(s, req, route.venue))
  {
    RegisterDoes(s, req, route.venue);
    hide PoolInv, MintInv, FirstInv, IndexInv, AccountInv, Settled, Registers, Register, NewOrder;
    RegisterKeeps(s, Registered(s, req, route.venue), NewOrder(s, req, route.venue));
  }

  lemma SentRelabels(s: Oms, req: OrderRequest, venue: nat, now: int)
    requires Shape(s) && |s.free| > 0 && req.workerOffset < SCRATCH_SLOTS && req.size > 0
    ensures Relabels(Registered(s, req, venue), Settle(Registered(s, req, venue),
      NewOrder(s, req, venue).(status := Sent, sentAt := now)))
    ensures Settled(s) ==>
      Settled(Settle(Registered(s, req, venue), NewOrder(s, req, venue).(status := Sent, sentAt := now)))
    ensures Registered(s, req, venue).retired == s.retired
  {
  }

  lemma SubmitSent(s: Oms, req: OrderRequest, route: Route, now: int, accepts: set<OrderId>)
    requires Shape(s) && WellFormed(req, route) && ReachesVenue(s, route) && route.result == Ok
    ensures Submit(s, req, route, now, accepts)
         == Settle(Registered(s, req, route.venue), NewOrder(s, req, route.venue).(status := Sent, sentAt := now))
  {
    hide Register, NewOrder;
  }

  lemma SubmitSentKeeps(s: Oms, req: OrderRequest, route: Route, now: int, accepts: set<OrderId>)
    requires Inv(s) && Shape(s) && WellFormed(req, route) && ReachesVenue(s, route) && route.result == Ok
    ensures Inv(Submit(s, req, route, now, accepts))
  {
    hide CoreInv, Settled, Registered, NewOrder, Settle, Relabels, Submit;
    SubmitSent(s, req, route, now, accepts);
    RegisteredCore(s, req, route);
    SentRelabels(s, req, route.venue, now);
    SentRetired(Registered(s, req, route.venue), Submit(s, req, route, now, accepts));
    RelabelKeeps(Registered(s, req, route.venue), Submit(s, req, route, now, accepts));
  }

  lemma SentRetired(s: Oms, s': Oms)
    requires Relabels(s, s')
    ensures s'.retired == s.retired
  {
  }

  lemma RefusedCloses(s: Oms, req: OrderRequest, route: Route, now: int, accepts: set<OrderId>)
    requires Shape(s) && WellFormed(req, route) && ReachesVenue(s, route) && route.result != Ok
    requires s.free[|s.free| - 1] !in s.table
    ensures (
      var s1 := CountReject(Registered(s, req, route.venue));
      var o := NewOrder(s, req, route.venue);
      && Flags(Registered(s, req, route.venue), s1) && s1.retired == s.retired
      && Closing(s1, o.id, o.(status := Rejected))
      && Submit(s, req, route, now, accepts) == Close(s1, o.id, o.(status := Rejected)))
  {
    hide Close;
  }

  lemma RefusedSettled(s: Oms, req: OrderRequest, route: Route)
    requires Shape(s) && Settled(s) && |s.free| > 0 && WellFormed(req, route) && route.Client?
    requires Shape(CountReject(Registered(s, req, route.venue))) &&
      IsCurrent(CountReject(Registered(s, req, route.venue)), NextId(s, route.venue))
    ensures Settled(Amend(CountReject(Registered(s, req, route.venue)), NextId(s, route.venue),
      NewOrder(s, req, route.venue).(status := Rejected)))
  {
  }

  lemma SubmitRefusedKeeps(s: Oms, req: OrderRequest, route: Route, now: int, accepts: set<OrderId>)
    requires Inv(s) && Shape(s) && WellFormed(req, route) && ReachesVenue(s, route) && route.result != Ok
    ensures Inv(Submit(s, req, route, now, accepts))
  {
    var s1 := CountReject(Registered(s, req, route.venue));
    var o := NewOrder(s, req, route.venue);
    assert PoolInv(s);
    hide MintInv, FirstInv, IndexInv, AccountInv, Registered, Close, Closing, Submit, Relabels, CountReject, Settled;
    RefusedCloses(s, req, route, now, accepts);
    RegisteredCore(s, req, route);
    FlagsRelabel(Registered(s, req, route.venue), s1);
    hide PoolInv, CoreInv, Flags;
    RelabelKeeps(Registered(s, req, route.venue), s1);
    ClosingShape(s1, o.id, o.(status := Rejected));
    RefusedSettled(s, req, route);
    CloseKeeps(s1, o.id, o.(status := Rejected));
  }

  lemma ClosingShape(s: Oms, id: OrderId, o: Order)
    requires Closing(s, id, o)
    ensures Shape(s) && IsCurrent(s, id)
  {
  }

  lemma SubmitKeeps(s: Oms, req: OrderRequest, route: Route, now: int, accepts: set<OrderId>)
    requires Inv(s) && Shape(s) && WellFormed(req, route)
    ensures Inv(Submit(s, req, route, now, accepts))
  {
    hide Inv, CancelWorking, Register, NewOrder, Settle, Close, Flags;
    if ReachesVenue(s, route) {
      if route.result == Ok {
        SubmitSentKeeps(s, req, route, now, accepts);
      } else {
        SubmitRefusedKeeps(s, req, route, now, accepts);
      }
    } else if !s.killed && route.NoVenue? {
      FlagUpdates(s);
      FlagsKeep(s, s.(incomplete := true));
      CancelWorkingKeeps(s.(incomplete := true), accepts);
    } else if !s.killed && route.Client? {
      FlagUpdates(s);
      FlagsKeep(s, s.(killed := true));
    }
  }

  lemma FlagUpdates(s: Oms)
    ensures Flags(s, s.(incomplete := true)) && Flags(s, s.(killed := true))
  {
  }
}
