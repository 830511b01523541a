/**
 The order manager as the source builds it: records live in the slots of a pool, ids are resolved
 by slot and generation, and trade sets and slots are dropped and reused. Every method is proved
 against the state machine of OrderManagerSpec, which forgets nothing; the ghost fields keep what
 the real fields no longer hold.

 The router's choice, the clients' answers and the clock are parameters of the methods that ask
 for them. Handlers return the event that the source publishes to its listeners.
 */
module OrderManagement {
  import opened OrderIds
  import opened Orders
  import opened OrderPools
  import opened OrderManagerSpec
  import opened OrderManagerInvariants
  import OrderManagerKeeps

  ghost function Recorded(s: Oms, e: Inbound): Oms
    requires Shape(s) && e.FillReport? && IsCurrent(s, e.id)
  {
    var o := OrderOf(s, e.id);
    s.(trades := s.trades[e.id := TradesOf(s, e.id) + {e.trade}],
       ledger := s.ledger + [FillEntry(s.table[e.id.slot], e.id, e.trade, o.instrument, o.side, e.qty, e.price)],
       book := s.book[s.table[e.id.slot] := FilledBy(o, e.qty, e.price)])
  }

  ghost function Remembered(s: Oms, e: Inbound): Oms
    requires Shape(s) && e.FillReport? && IsCurrent(s, e.id)
  {
    var o := OrderOf(s, e.id);
    s.(trades := s.trades[e.id := TradesOf(s, e.id) + {e.trade}],
       ledger := s.ledger + [FillEntry(s.table[e.id.slot], e.id, e.trade, o.instrument, o.side, e.qty, e.price)])
  }

  lemma RecordedIsSteps(s: Oms, e: Inbound)
    requires Shape(s) && e.FillReport? && IsCurrent(s, e.id)
    ensures Shape(Remembered(s, e)) && IsCurrent(Remembered(s, e), e.id)
    ensures Recorded(s, e) == Amend(Remembered(s, e), e.id, FilledBy(OrderOf(s, e.id), e.qty, e.price))
  {
  }

  lemma CancelIs(s: Oms, e: Inbound)
    requires Shape(s) && (e.CancelAck? || e.Unsolicited?)
    ensures Validate(s, e) != Accepted ==> OnCancelled(s, e) == Drop(s) && NoticeOf(s, e) == Silent
    ensures Validate(s, e) == Accepted ==>
      var s1 := OrderManagerKeeps.CountUnsolicited(s, e);
      && IsCurrent(s, e.id) && Shape(s1) && IsCurrent(s1, e.id)
      && var o := OrderOf(s, e.id).(pendingCancel := false, status := Cancelled);
      && OnCancelled(s, e) == Close(s1, e.id, o)
      && NoticeOf(s, e) == Published(if e.Unsolicited? then UnsolicitedEvent else CancelledEvent, o, 0, 0)
  {
    hide Close;
  }

  /** What follows the accounting of a fill that left the record `o`. */
  ghost function Finished(s: Oms, id: OrderId, o: Order): Oms {
    if o.filled != o.size then s
    else
      var s2 := if !o.pendingCancel then s
                else s.(benign := s.benign + {id},
                        counts := s.counts.(falseCancelRejects := s.counts.falseCancelRejects + 1));
      Retire(s2, id, o.instrument, 0, o.side)
  }

  lemma FillIsSteps(s: Oms, e: Inbound)
    requires Shape(s) && e.FillReport? && Validate(s, e) == Accepted
    ensures OnFill(s, e) == Finished(Account(s, e), e.id, FilledBy(OrderOf(s, e.id), e.qty, e.price))
  {
    hide Retire, Account;
  }

  ghost function Moved(s: Oms, inst: nat, signed: int, price: int): Oms {
    s.(positions := s.positions[inst := PositionOf(s, inst).Apply(signed, price)],
       pending := s.pending[inst := PendingOf(s, inst) - signed])
  }

  /** The accounting of a fill is its two halves one after the other. */
  lemma AccountIsSteps(s: Oms, e: Inbound)
    requires Shape(s) && e.FillReport? && IsCurrent(s, e.id)
    ensures (
      var o := OrderOf(s, e.id);
      Account(s, e) == Moved(Recorded(s, e), o.instrument, SignedQty(o.side, e.qty), e.price))
  {
  }

  // ---- the loops over the live index, part way ----

  ghost function WorkingDone(s: Oms, done: set<OrderId>, accepts: set<OrderId>): Oms {
    s.(book := seq(|s.book|, i requires 0 <= i < |s.book| =>
         if s.book[i].id in done then WorkingCancelled(s.book[i], accepts) else s.book[i]))
  }

  lemma WorkingStart(s: Oms, accepts: set<OrderId>)
    ensures WorkingDone(s, s.live - s.live, accepts) == s
  {
    assert WorkingDone(s, {}, accepts).book == s.book;
    assert s.live - s.live == {};
  }

  lemma WorkingEnd(s: Oms, accepts: set<OrderId>)
    ensures WorkingDone(s, s.live - {}, accepts) == CancelWorking(s, accepts)
  {
    assert s.live - {} == s.live;
    assert WorkingDone(s, s.live, accepts).book == CancelWorking(s, accepts).book;
  }

  /** The id names one working order; any other order with that id is terminal. */
  ghost predicate Names(s: Oms, id: OrderId) {
    && Shape(s) && IsCurrent(s, id) && OrderOf(s, id).id == id && id in s.live
    && forall i :: 0 <= i < |s.book| && s.book[i].id == id && i != s.table[id.slot] ==> IsTerminal(s.book[i].status)
  }

  lemma LiveNames(s: Oms, id: OrderId)
    requires Inv(s) && id in s.live
    ensures Names(s, id)
  {
    assert PoolInv(s) && Owns(s, id);
    forall i | 0 <= i < |s.book| && s.book[i].id == id && i != s.table[id.slot]
      ensures IsTerminal(s.book[i].status)
    {
      assert !IsTerminal(s.book[i].status) ==> Held(s, i);
    }
  }

  lemma WorkingStep(s: Oms, done: set<OrderId>, id: OrderId, accepts: set<OrderId>)
    requires Names(s, id) && id !in done
    ensures
      var s1 := WorkingDone(s, done, accepts);
      && Shape(s1) && IsCurrent(s1, id) && OrderOf(s1, id).id == id
      && WorkingDone(s, done + {id}, accepts) == Amend(s1, id, WorkingCancelled(OrderOf(s1, id), accepts))
      && (WorkingCancelled(OrderOf(s1, id), accepts) == OrderOf(s1, id) ==> WorkingDone(s, done + {id}, accepts) == s1)
  {
    var s1 := WorkingDone(s, done, accepts);
    assert WorkingDone(s, done + {id}, accepts).book == Amend(s1, id, WorkingCancelled(OrderOf(s1, id), accepts)).book;
  }

  ghost function TimeoutsDone(s: Oms, done: set<OrderId>, now: int, timeout: int, accepts: set<OrderId>): Oms {
    s.(book := seq(|s.book|, i requires 0 <= i < |s.book| =>
         if s.book[i].id in done then TimedOut(s.book[i], now, timeout, accepts) else s.book[i]),
       counts := s.counts.(ackTimeouts := s.counts.ackTimeouts + |Overdue(s, now, timeout) * done|))
  }

  ghost function Overran(s: Oms): Oms {
    s.(counts := s.counts.(ackTimeouts := s.counts.ackTimeouts + 1))
  }

  lemma TimeoutsStart(s: Oms, now: int, timeout: int, accepts: set<OrderId>)
    ensures TimeoutsDone(s, s.live - s.live, now, timeout, accepts) == s
  {
    assert TimeoutsDone(s, {}, now, timeout, accepts).book == s.book;
    assert s.live - s.live == {} && Overdue(s, now, timeout) * {} == {};
  }

  lemma TimeoutsEnd(s: Oms, now: int, timeout: int, accepts: set<OrderId>)
    ensures TimeoutsDone(s, s.live - {}, now, timeout, accepts) == CheckAckTimeouts(s, now, timeout, accepts)
  {
    assert s.live - {} == s.live && Overdue(s, now, timeout) * s.live == Overdue(s, now, timeout);
    assert TimeoutsDone(s, s.live, now, timeout, accepts).book == CheckAckTimeouts(s, now, timeout, accepts).book;
  }

  lemma TimeoutsStepBook(s: Oms, done: set<OrderId>, id: OrderId, now: int, timeout: int, accepts: set<OrderId>)
    requires Names(s, id) && id !in done
    ensures
      var s1 := TimeoutsDone(s, done, now, timeout, accepts);
      && Shape(s1) && IsCurrent(s1, id) && OrderOf(s1, id) == OrderOf(s, id)
      && TimeoutsDone(s, done + {id}, now, timeout, accepts).book
           == s1.book[s.table[id.slot] := TimedOut(OrderOf(s, id), now, timeout, accepts)]
  {
  }

  lemma TimeoutsStep(s: Oms, done: set<OrderId>, id: OrderId, now: int, timeout: int, accepts: set<OrderId>)
    requires Names(s, id) && id !in done
    ensures
      var s1 := TimeoutsDone(s, done, now, timeout, accepts);
      && Shape(s1) && IsCurrent(s1, id)
      && var o := OrderOf(s1, id);
      && o.id == id
      && (AckOverdue(o, now, timeout) ==>
            TimeoutsDone(s, done + {id}, now, timeout, accepts) ==
              Overran(Amend(s1, id, TimedOut(o, now, timeout, accepts))))
      && (!AckOverdue(o, now, timeout) ==> TimeoutsDone(s, done + {id}, now, timeout, accepts) == s1)
  {
    OverdueStep(s, done, id, now, timeout);
    TimeoutsStepBook(s, done, id, now, timeout, accepts);
    hide Overdue, TimedOut, AckOverdue, Shape, Names;
    TimeoutsStepCount(s, done, id, now, timeout, accepts);
  }

  lemma TimeoutsStepCount(s: Oms, done: set<OrderId>, id: OrderId, now: int, timeout: int, accepts: set<OrderId>)
    requires Names(s, id) && id !in done
    ensures !AckOverdue(OrderOf(s, id), now, timeout) ==>
      TimedOut(OrderOf(s, id), now, timeout, accepts) == OrderOf(s, id)
  {
  }

  lemma OverdueMember(s: Oms, id: OrderId, now: int, timeout: int)
    requires Names(s, id)
    ensures id in Overdue(s, now, timeout) <==> AckOverdue(OrderOf(s, id), now, timeout)
  {
  }

  lemma OverdueStep(s: Oms, done: set<OrderId>, id: OrderId, now: int, timeout: int)
    requires Names(s, id) && id !in done
    ensures |Overdue(s, now, timeout) * (done + {id})| == |Overdue(s, now, timeout) * done|
      + (if AckOverdue(OrderOf(s, id), now, timeout) then 1 else 0)
  {
    OverdueMember(s, id, now, timeout);
    hide Overdue, AckOverdue, Names;
    var all := Overdue(s, now, timeout);
    if id in all {
      assert all * (done + {id}) == all * done + {id};
    } else {
      assert all * (done + {id}) == all * done;
    }
  }

  // ---- submit, step by step ----

  ghost function Placed(s: Oms, o: Order): Oms
    requires Shape(s) && |s.free| > 0
  {
    var slot := s.free[|s.free| - 1];
    s.(book := s.book + [o], births := s.births + [s.recycles[slot]],
       table := s.table[slot := |s.book|], free := s.free[..|s.free| - 1],
       venueSeq := s.venueSeq[o.id.venue := VenueSeqOf(s, o.id.venue) + 1],
       live := s.live + {o.id})
  }

  ghost function Reserved(s: Oms, inst: nat, signed: int): Oms {
    s.(positions := s.positions[inst := PositionOf(s, inst)], pending := s.pending[inst := PendingOf(s, inst) + signed])
  }

  /** The state once the client has answered place_order. */
  ghost function Answered(s: Oms, req: OrderRequest, venue: nat, result: SendResult, now: int): Oms
    requires Shape(s) && |s.free| > 0 && req.workerOffset < SCRATCH_SLOTS
  {
    var o := NewOrder(s, req, venue);
    var s1 := Register(s, o);
    if result == Ok then Settle(s1, o.(status := Sent, sentAt := now))
    else Close(CountReject(s1), o.id, o.(status := Rejected))
  }

  lemma AnsweredIs(s: Oms, req: OrderRequest, venue: nat, result: SendResult, now: int)
    requires Shape(s) && |s.free| > 0 && req.workerOffset < SCRATCH_SLOTS
    ensures
      var o := NewOrder(s, req, venue);
      var s1 := Register(s, o);
      && Shape(s1) && IsCurrent(s1, o.id) && Shape(CountReject(s1)) && IsCurrent(CountReject(s1), o.id)
      && Answered(s, req, venue, result, now) ==
           if result == Ok then Amend(s1, o.id, o.(status := Sent, sentAt := now))
           else Close(CountReject(s1), o.id, o.(status := Rejected))
  {
    hide Close;
  }

  lemma SubmitIs(s: Oms, req: OrderRequest, route: Route, now: int, accepts: set<OrderId>)
    requires Shape(s) && req.workerOffset < SCRATCH_SLOTS
    ensures Submit(s, req, route, now, accepts) ==
      if s.killed || route.NoClient? then s
      else if route.NoVenue? then CancelWorking(s.(incomplete := true), accepts)
      else if |s.free| == 0 then s.(killed := true)
      else Answered(s, req, route.venue, route.result, now)
  {
    hide Close, Register, NewOrder, Settle, CancelWorking;
  }

  ghost function Stocked(s: Oms, o: Order): Oms
    requires Shape(s) && |s.free| > 0
  {
    var slot := s.free[|s.free| - 1];
    s.(book := s.book + [o], births := s.births + [s.recycles[slot]],
       table := s.table[slot := |s.book|], free := s.free[..|s.free| - 1])
  }

  ghost function Entered(s: Oms, id: OrderId): Oms {
    s.(venueSeq := s.venueSeq[id.venue := VenueSeqOf(s, id.venue) + 1], live := s.live + {id})
  }

  lemma PlacedIsSteps(s: Oms, o: Order)
    requires Shape(s) && |s.free| > 0
    ensures Placed(s, o) == Entered(Stocked(s, o), o.id)
  {
  }

  lemma RegisterIsSteps(s: Oms, req: OrderRequest, venue: nat)
    requires Shape(s) && |s.free| > 0 && req.workerOffset < SCRATCH_SLOTS
    ensures
      var o := NewOrder(s, req, venue);
      Register(s, o) == Reserved(Placed(s, o), req.instrument, SignedQty(req.side, req.size))
  {
  }

  class OrderManager {
    const pool: OrderPool
    var positions: map<nat, Position>
    var pendingSigned: map<nat, int>
    var venueSeq: map<nat, nat>
    var tradeIds: map<OrderId, set<nat>>
    var live: set<OrderId>
    var expectedFalseCancelRejects: set<OrderId>
    var retiredFifo: seq<OrderId>
    var killed: bool
    var rebalanceIncomplete: bool
    var reconcileRequested: bool
    var hardstopThreshold: nat
    var counts: Counters

    ghost var book: seq<Order>
    ghost var births: seq<nat>
    ghost var ledger: seq<FillEntry>
    ghost var table: map<nat, nat>

    /** The state of the specification that this object represents. */
    ghost function View(): Oms
      reads this, pool
    {
      Oms(book, births, ledger, table, pool.recycles, pool.freeList, positions, pendingSigned, venueSeq,
          tradeIds, live, expectedFalseCancelRejects, retiredFifo,
          killed, rebalanceIncomplete, reconcileRequested, hardstopThreshold, counts)
    }

    /** The pool's taken slots hold the records of the orders that own them, one order per slot. */
    ghost predicate Valid()
      reads this, pool, pool.orders, pool.generation, pool.taken
    {
      && pool.Valid() && Shape(View())
      && (forall k :: 0 <= k < pool.capacity ==> (pool.taken[k] <==> k in table))
      && (forall k :: k in table ==> pool.orders[k] == book[table[k]])
      && (forall k, l :: k in table && l in table && table[k] == table[l] ==> k == l)
    }

    constructor (capacity: nat, hardstop: nat)
      requires 0 < capacity <= MAX_SLOTS
      ensures Valid() && View() == Init(capacity, hardstop)
      ensures fresh(pool) && fresh(pool.orders) && fresh(pool.generation) && fresh(pool.taken)
    {
      pool := new OrderPool(capacity);
      positions, pendingSigned, venueSeq, tradeIds := map[], map[], map[], map[];
      live, expectedFalseCancelRejects, retiredFifo := {}, {}, [];
      killed, rebalanceIncomplete, reconcileRequested := false, false, false;
      hardstopThreshold := hardstop;
      counts := Counters(0, 0, 0, 0, 0, 0);
      book, births, ledger, table := [], [], [], map[];
    }

    lemma CurrentAgrees(id: OrderId)
      requires Valid()
      ensures pool.IsCurrent(id) == IsCurrent(View(), id)
      ensures IsCurrent(View(), id) ==> pool.orders[id.slot] == OrderOf(View(), id)
    {
    }

    /** The shared guard sequence: id, terminal state, duplicate trade, field sanity and overfill. */
    method ValidateEvent(e: Inbound) returns (vr: ValidationResult)
      requires Valid()
      ensures vr == Validate(View(), e)
      ensures vr != UnknownOrder ==> pool.IsCurrent(e.id)
    {
      CurrentAgrees(e.id);
      if !pool.IsCurrent(e.id) { return UnknownOrder; }
      var o := pool.orders[e.id.slot];
      if IsTerminal(o.status) { return TerminalState; }
      if e.FillReport? {
        if e.id in tradeIds && e.trade in tradeIds[e.id] { return DuplicateTrade; }
        if e.qty <= 0 || e.price <= 0 { return FieldMismatch; }
        if e.qty > o.Remaining() { return FieldMismatch; }
      }
      return Accepted;
    }

    method CountRejected()
      requires Valid()
      modifies this`counts
      ensures Valid() && View() == CountReject(old(View()))
    {
      counts := counts.(rejects := counts.rejects + 1);
    }

    /** Write the record of a current order. */
    method Store(id: OrderId, o: Order)
      requires Valid() && pool.IsCurrent(id)
      modifies this`book, pool.orders
      ensures Valid() && View() == Amend(old(View()), id, o)
      ensures pool.IsCurrent(id) && pool.orders[id.slot] == o
    {
      pool.orders[id.slot] := o;
      book := book[table[id.slot] := o];
    }

    method CountDropped()
      requires Valid()
      modifies this`counts
      ensures Valid() && View() == Drop(old(View()))
    {
      counts := counts.(dropped := counts.dropped + 1);
    }

    method AddPending(inst: nat, signed: int)
      requires Valid()
      modifies this`pendingSigned
      ensures Valid() && View() == Pend(old(View()), inst, signed)
    {
      var p := if inst in pendingSigned then pendingSigned[inst] else 0;
      pendingSigned := pendingSigned[inst := p + signed];
    }

    method LeaveLiveIndex(id: OrderId)
      requires Valid()
      modifies this`live, this`tradeIds, this`retiredFifo
      ensures Valid() && View() == Shelve(old(View()), id)
    {
      live := live - {id};
      tradeIds := tradeIds - {id};
      retiredFifo := retiredFifo + [id];
    }

    /** Leave the live index at once; free the oldest retired slot once the grace queue is full. */
    method RetireOrder(id: OrderId, inst: nat, remaining: int, side: Side)
      requires Valid()
      modifies this`pendingSigned, this`live, this`tradeIds, this`retiredFifo, this`expectedFalseCancelRejects,
        this`table
      modifies pool`freeList, pool`inUse, pool`recycles, pool.generation, pool.taken
      ensures Valid() && View() == Retire(old(View()), id, inst, remaining, side)
    {
      hide Valid, View, Pend, Shelve, Evict;
      if remaining > 0 {
        AddPending(inst, -SignedQty(side, remaining));
      }
      LeaveLiveIndex(id);
      EvictOldest();
    }

    method ReleaseSlot(slot: nat)
      requires Valid() && slot < pool.capacity && pool.taken[slot]
      modifies this`table
      modifies pool`freeList, pool`inUse, pool`recycles, pool.generation, pool.taken
      ensures slot < |old(View()).recycles|
      ensures Valid() && View() == Release(old(View()), slot)
    {
      pool.Release(slot);
      table := table - {slot};
    }

    method EvictOldest()
      requires Valid()
      modifies this`retiredFifo, this`expectedFalseCancelRejects, this`table
      modifies pool`freeList, pool`inUse, pool`recycles, pool.generation, pool.taken
      ensures Valid() && View() == Evict(old(View()))
    {
      if |retiredFifo| > RETIRED_GRACE {
        var oldest := retiredFifo[0];
        retiredFifo := retiredFifo[1..];
        expectedFalseCancelRejects := expectedFalseCancelRejects - {oldest};
        CurrentAgrees(oldest);
        if pool.IsCurrent(oldest) {
          hide Valid, Release, Shape;
          ReleaseSlot(oldest.slot);
        }
      }
    }

    /** A terminal status, the published event, and retirement. */
    method CloseOrder(id: OrderId, o: Order)
      requires Valid() && pool.IsCurrent(id)
      modifies this, pool.orders
      modifies pool`freeList, pool`inUse, pool`recycles, pool.generation, pool.taken
      ensures IsCurrent(old(View()), id)
      ensures Valid() && View() == Close(old(View()), id, o)
    {
      CurrentAgrees(id);
      Store(id, o);
      RetireOrder(id, o.instrument, o.Remaining(), o.side);
    }

    // ---- inbound handlers ----

    method OnConfirmed(e: Inbound) returns (note: Notice)
      requires Valid() && e.Confirm?
      modifies this, pool.orders
      ensures Valid() && View() == OnConfirm(old(View()), e) && note == NoticeOf(old(View()), e)
    {
      var vr := ValidateEvent(e);
      CurrentAgrees(e.id);
      hide Valid, View, Validate, Close, OrderOf, IsCurrent, Shape, Drop, CountReject, Amend;
      if vr != Accepted {
        CountDropped();
        return Silent;
      }
      var o := pool.orders[e.id.slot];
      if o.status.New? || o.status.Sent? {
        o := o.(status := Confirmed);
        Store(e.id, o);
      }
      note := Published(ConfirmedEvent, o, 0, 0);
    }

    method CountUnknownFill()
      requires Valid()
      modifies this`counts
      ensures Valid() && View() == Drop(old(View())).(counts := counts)
      ensures counts == old(counts).(dropped := old(counts).dropped + 1, unknownFills := old(counts).unknownFills + 1)
    {
      counts := counts.(dropped := counts.dropped + 1, unknownFills := counts.unknownFills + 1);
    }

    method OnUnknownFill()
      requires Valid()
      modifies this`counts, this`reconcileRequested, this`killed
      ensures Valid()
      ensures
        var s := old(View());
        var n := s.counts.unknownFills + 1;
        View() == Drop(s).(counts := Drop(s).counts.(unknownFills := n), reconcile := true,
                           killed := s.killed || n > s.hardstop)
    {
      CountUnknownFill();
      reconcileRequested := true;
      if counts.unknownFills > hardstopThreshold {
        killed := true;
      }
    }

    method RecordTrade(e: Inbound)
      requires Valid() && e.FillReport? && pool.IsCurrent(e.id)
      modifies this`tradeIds, this`ledger
      ensures Shape(old(View())) && IsCurrent(old(View()), e.id)
      ensures Valid() && View() == Remembered(old(View()), e)
    {
      CurrentAgrees(e.id);
      var o := pool.orders[e.id.slot];
      var seen := if e.id in tradeIds then tradeIds[e.id] else {};
      tradeIds := tradeIds[e.id := seen + {e.trade}];
      ledger := ledger + [FillEntry(table[e.id.slot], e.id, e.trade, o.instrument, o.side, e.qty, e.price)];
    }

    /** Remember the trade and write the fill into the record. */
    method RecordFill(e: Inbound)
      requires Valid() && e.FillReport? && pool.IsCurrent(e.id)
      modifies this`tradeIds, this`ledger, this`book, pool.orders
      ensures Shape(old(View())) && IsCurrent(old(View()), e.id)
      ensures Valid() && View() == Recorded(old(View()), e)
      ensures pool.IsCurrent(e.id) && pool.orders[e.id.slot] == FilledBy(old(pool.orders[e.id.slot]), e.qty, e.price)
    {
      CurrentAgrees(e.id);
      RecordedIsSteps(View(), e);
      var o := pool.orders[e.id.slot];
      var filled := o.filled + e.qty;
      var o' := o.(filled := filled, notional := o.notional + e.qty * e.price,
                   status := if filled == o.size then Filled else PartiallyFilled);
      assert o' == FilledBy(o, e.qty, e.price);
      hide Valid, View, IsCurrent, Shape, Recorded, Remembered, OrderOf, Amend, FilledBy;
      RecordTrade(e);
      Store(e.id, o');
    }

    /** The position moves in the same step as the pending quantity. */
    method MovePosition(inst: nat, signed: int, price: int)
      requires Valid()
      modifies this`positions, this`pendingSigned
      ensures Valid() && View() == Moved(old(View()), inst, signed, price)
    {
      var pos := if inst in positions then positions[inst] else FLAT;
      positions := positions[inst := pos.Apply(signed, price)];
      var p := if inst in pendingSigned then pendingSigned[inst] else 0;
      pendingSigned := pendingSigned[inst := p - signed];
    }

    /** Everything a fill changes before it is published. */
    method AccountFill(e: Inbound)
      requires Valid() && e.FillReport? && pool.IsCurrent(e.id)
      modifies this`tradeIds, this`positions, this`pendingSigned, this`book, this`ledger, pool.orders
      ensures Shape(old(View())) && IsCurrent(old(View()), e.id)
      ensures Valid() && View() == Account(old(View()), e)
      ensures pool.IsCurrent(e.id) && pool.orders[e.id.slot] == FilledBy(old(pool.orders[e.id.slot]), e.qty, e.price)
    {
      CurrentAgrees(e.id);
      AccountIsSteps(View(), e);
      var o := pool.orders[e.id.slot];
      hide Valid, View, IsCurrent, Shape, Account, Moved, Recorded, OrderOf, FilledBy;
      RecordFill(e);
      MovePosition(o.instrument, SignedQty(o.side, e.qty), e.price);
    }

    /** Publish comes first; a complete order then retires, its late cancel-reject expected. */
    method FinishFill(id: OrderId, o: Order)
      requires Valid()
      modifies this`pendingSigned, this`live, this`tradeIds, this`retiredFifo, this`expectedFalseCancelRejects,
        this`table
      modifies this`counts
      modifies pool`freeList, pool`inUse, pool`recycles, pool.generation, pool.taken
      ensures Valid() && View() == Finished(old(View()), id, o)
    {
      hide Valid, View, Retire;
      if o.filled == o.size {
        ExpectFalseCancelReject(id, o.pendingCancel);
        RetireOrder(id, o.instrument, 0, o.side);
      }
    }

    method ApplyFill(e: Inbound) returns (note: Notice)
      requires Valid() && e.FillReport? && pool.IsCurrent(e.id)
      requires Validate(View(), e) == Accepted
      modifies this, pool.orders
      modifies pool`freeList, pool`inUse, pool`recycles, pool.generation, pool.taken
      ensures Valid() && View() == OnFill(old(View()), e) && note == NoticeOf(old(View()), e)
    {
      CurrentAgrees(e.id);
      FillIsSteps(View(), e);
      hide Valid, View, Validate, OrderOf, IsCurrent, Shape, Account, Finished, OnFill;
      AccountFill(e);
      var o := pool.orders[e.id.slot];
      note := Published(if o.filled == o.size then FillEvent else PartialFillEvent, o, e.qty, e.price);
      FinishFill(e.id, o);
    }

    method OnFilled(e: Inbound) returns (note: Notice)
      requires Valid() && e.FillReport?
      modifies this, pool.orders
      modifies pool`freeList, pool`inUse, pool`recycles, pool.generation, pool.taken
      ensures Valid() && View() == OnFill(old(View()), e) && note == NoticeOf(old(View()), e)
    {
      var vr := ValidateEvent(e);
      hide Valid, View, Validate, OrderOf, IsCurrent, Shape, Account, Retire;
      if vr == UnknownOrder {
        OnUnknownFill();
        note := Silent;
      } else if vr != Accepted {
        CountDropped();
        note := Silent;
      } else {
        note := ApplyFill(e);
      }
    }

    /** Filled with a cancel in flight: the cancel-reject to come is benign. */
    method ExpectFalseCancelReject(id: OrderId, pendingCancel: bool)
      requires Valid()
      modifies this`expectedFalseCancelRejects, this`counts
      ensures Valid()
      ensures
        var s := old(View());
        View() == if !pendingCancel then s
                  else s.(benign := s.benign + {id},
                          counts := s.counts.(falseCancelRejects := s.counts.falseCancelRejects + 1))
    {
      if pendingCancel {
        expectedFalseCancelRejects := expectedFalseCancelRejects + {id};
        counts := counts.(falseCancelRejects := counts.falseCancelRejects + 1);
      }
    }

    method OnCancelRejected(e: Inbound) returns (note: Notice)
      requires Valid() && e.CancelReject?
      modifies this, pool.orders
      ensures Valid() && View() == OnCancelReject(old(View()), e)
      ensures note.Silent?
    {
      note := Silent;
      if e.id in expectedFalseCancelRejects {
        expectedFalseCancelRejects := expectedFalseCancelRejects - {e.id};
        return;
      }
      var vr := ValidateEvent(e);
      CurrentAgrees(e.id);
      hide Valid, View, Validate, Close, OrderOf, IsCurrent, Shape, Drop, CountReject, Amend;
      if vr != Accepted {
        CountDropped();
        return;
      }
      var o := pool.orders[e.id.slot];
      Store(e.id, o.(pendingCancel := false, status := if o.filled > 0 then PartiallyFilled else Confirmed));
      CountRejected();
    }

    method OnPlaceRejected(e: Inbound) returns (note: Notice)
      requires Valid() && e.PlaceReject?
      modifies this, pool.orders
      modifies pool`freeList, pool`inUse, pool`recycles, pool.generation, pool.taken
      ensures Valid() && View() == OnPlaceReject(old(View()), e) && note == NoticeOf(old(View()), e)
    {
      var vr := ValidateEvent(e);
      CurrentAgrees(e.id);
      hide Valid, View, Validate, Close, OrderOf, IsCurrent, Shape, Drop, CountReject, Amend;
      if vr != Accepted {
        CountDropped();
        return Silent;
      }
      CountRejected();
      var o := pool.orders[e.id.slot].(status := Rejected);
      note := Published(RejectedEvent, o, 0, 0);
      CloseOrder(e.id, o);
    }

    method CountUnsolicited(e: Inbound)
      requires Valid()
      modifies this`counts
      ensures Valid() && View() == OrderManagerKeeps.CountUnsolicited(old(View()), e)
    {
      if e.Unsolicited? {
        counts := counts.(unsolicited := counts.unsolicited + 1);
      }
    }

    /** Cancel acknowledgement and unsolicited cancel share this body. */
    method FinishCancel(e: Inbound) returns (note: Notice)
      requires Valid() && (e.CancelAck? || e.Unsolicited?)
      modifies this, pool.orders
      modifies pool`freeList, pool`inUse, pool`recycles, pool.generation, pool.taken
      ensures Valid() && View() == OnCancelled(old(View()), e) && note == NoticeOf(old(View()), e)
    {
      var vr := ValidateEvent(e);
      CurrentAgrees(e.id);
      CancelIs(View(), e);
      hide Valid, View, Validate, Close, OrderOf, IsCurrent, Shape, Drop, OnCancelled, NoticeOf;
      if vr != Accepted {
        CountDropped();
        return Silent;
      }
      CountUnsolicited(e);
      var o := pool.orders[e.id.slot].(pendingCancel := false, status := Cancelled);
      note := Published(if e.Unsolicited? then UnsolicitedEvent else CancelledEvent, o, 0, 0);
      CloseOrder(e.id, o);
    }

    // ---- strategy-facing operations ----

    /** `sent`: the order's client exists and its cancel_order returned Ok. */
    method CancelOrder(id: OrderId, sent: bool) returns (ok: bool)
      requires Valid()
      modifies this`book, pool.orders
      ensures Valid() && View() == Cancel(old(View()), id, sent) && ok == CancelAccepted(old(View()), id, sent)
    {
      CurrentAgrees(id);
      if !pool.IsCurrent(id) { return false; }
      var o := pool.orders[id.slot];
      if IsTerminal(o.status) || !sent { return false; }
      Store(id, o.(pendingCancel := true, status := SentCancel));
      ok := true;
    }

    lemma ViewLive()
      ensures View().live == live
    {
    }

    /** All-down policy: cancel every working order whose transport still permits. */
    method CancelWorkingOrders(accepts: set<OrderId>)
      requires Valid() && Inv(View())
      modifies this`book, pool.orders
      ensures Valid() && View() == CancelWorking(old(View()), accepts)
    {
      hide *;
      ghost var s := View();
      var todo := live;
      WorkingStart(s, accepts);
      ViewLive();
      while todo != {}
        invariant todo <= live && live == s.live
        invariant Valid() && View() == WorkingDone(s, s.live - todo, accepts)
      {
        var id :| id in todo;
        CancelIfWorking(s, s.live - todo, id, accepts);
        assert s.live - (todo - {id}) == s.live - todo + {id};
        todo := todo - {id};
      }
      WorkingEnd(s, accepts);
    }

    method CancelIfWorking(ghost s: Oms, ghost done: set<OrderId>, id: OrderId, accepts: set<OrderId>)
      requires Valid() && Inv(s) && id in s.live && id !in done && View() == WorkingDone(s, done, accepts)
      modifies this`book, pool.orders
      ensures Valid() && View() == WorkingDone(s, done + {id}, accepts)
    {
      LiveNames(s, id);
      WorkingStep(s, done, id, accepts);
      CurrentAgrees(id);
      var o := pool.orders[id.slot];
      hide Valid, View, WorkingDone, Inv, Names, Amend, Shape, IsCurrent, OrderOf;
      if !IsTerminal(o.status) && !o.pendingCancel && id in accepts {
        Store(id, o.(pendingCancel := true, status := SentCancel));
      }
    }

    /** Mode 1: mark the orders whose ack is overdue and try to cancel them; they stay live. */
    method CheckAcks(now: int, timeout: int, accepts: set<OrderId>)
      requires Valid() && Inv(View())
      modifies this`book, this`counts, pool.orders
      ensures Valid() && View() == CheckAckTimeouts(old(View()), now, timeout, accepts)
    {
      hide *;
      ghost var s := View();
      var todo := live;
      TimeoutsStart(s, now, timeout, accepts);
      ViewLive();
      while todo != {}
        invariant todo <= live && live == s.live
        invariant Valid() && View() == TimeoutsDone(s, s.live - todo, now, timeout, accepts)
      {
        var id :| id in todo;
        CheckAck(s, s.live - todo, id, now, timeout, accepts);
        assert s.live - (todo - {id}) == s.live - todo + {id};
        todo := todo - {id};
      }
      TimeoutsEnd(s, now, timeout, accepts);
    }

    method CheckAck(ghost s: Oms, ghost done: set<OrderId>, id: OrderId, now: int, timeout: int, accepts: set<OrderId>)
      requires Valid() && Inv(s) && id in s.live && id !in done
      requires View() == TimeoutsDone(s, done, now, timeout, accepts)
      modifies this`book, this`counts, pool.orders
      ensures Valid() && View() == TimeoutsDone(s, done + {id}, now, timeout, accepts)
    {
      LiveNames(s, id);
      TimeoutsStep(s, done, id, now, timeout, accepts);
      CurrentAgrees(id);
      var o := pool.orders[id.slot];
      hide Valid, View, TimeoutsDone, Inv, Names, Amend, Shape, IsCurrent, OrderOf;
      if !o.ackTimedOut && o.status.Sent? && now - o.sentAt >= timeout {
        o := o.(ackTimedOut := true);
        if id in accepts && !o.pendingCancel {
          o := o.(pendingCancel := true, status := SentCancel);
        }
        Store(id, o);
        CountAckTimeout();
      }
    }

    method CountAckTimeout()
      requires Valid()
      modifies this`counts
      ensures Valid() && View() == Overran(old(View()))
    {
      counts := counts.(ackTimeouts := counts.ackTimeouts + 1);
    }

    /** Take a slot for the request and register the new order under its packed id. */
    method RegisterOrder(req: OrderRequest, venue: nat) returns (id: OrderId)
      requires Valid() && |pool.freeList| > 0 && req.workerOffset < SCRATCH_SLOTS
      modifies this, pool`freeList, pool`inUse, pool.orders, pool.taken
      ensures Shape(old(View())) && |old(View()).free| > 0
      ensures id == NextId(old(View()), venue)
      ensures Valid() && View() == Register(old(View()), NewOrder(old(View()), req, venue))
      ensures pool.IsCurrent(id) && pool.orders[id.slot] == NewOrder(old(View()), req, venue)
    {
      RegisterIsSteps(View(), req, venue);
      var slot := pool.freeList[|pool.freeList| - 1];
      id := MintId(venue, slot);
      var o := Order(id, req.instrument, req.side, req.size, 0, 0, req.price,
                     New, false, false, 0, Tagged(req), req.reconciliation);
      hide Valid, Shape, Placed, Reserved, Register;
      PlaceInSlot(o);
      Reserve(req);
    }

    function MintId(venue: nat, slot: nat): OrderId
      requires slot < pool.generation.Length
      reads this, pool.generation
    {
      OrderId(venue, pool.generation[slot], slot, ((if venue in venueSeq then venueSeq[venue] else 0) + 1) % SEQUENCES)
    }

    method PlaceInSlot(o: Order)
      requires Valid() && |pool.freeList| > 0 && o.id.slot == pool.freeList[|pool.freeList| - 1]
      requires o.id.generation == pool.generation[o.id.slot]
      modifies this`venueSeq, this`live, this`book, this`births, this`table
      modifies pool`freeList, pool`inUse, pool.orders, pool.taken
      ensures Shape(old(View())) && |old(View()).free| > 0
      ensures Valid() && View() == Placed(old(View()), o)
      ensures pool.IsCurrent(o.id) && pool.orders[o.id.slot] == o
    {
      PlacedIsSteps(View(), o);
      FreeAgrees();
      hide Valid, View, Stocked, Placed, Entered;
      FillSlot(o);
      EnterIndex(o.id);
    }

    lemma FreeAgrees()
      requires Valid()
      ensures Shape(View()) && View().free == pool.freeList
    {
    }

    method EnterIndex(id: OrderId)
      requires Valid()
      modifies this`venueSeq, this`live
      ensures Valid() && View() == Entered(old(View()), id)
    {
      venueSeq := venueSeq[id.venue := (if id.venue in venueSeq then venueSeq[id.venue] else 0) + 1];
      live := live + {id};
    }

    method FillSlot(o: Order)
      requires Valid() && |pool.freeList| > 0 && o.id.slot == pool.freeList[|pool.freeList| - 1]
      requires o.id.generation == pool.generation[o.id.slot]
      modifies this`book, this`births, this`table, pool`freeList, pool`inUse, pool.orders, pool.taken
      ensures Shape(old(View())) && |old(View()).free| > 0
      ensures Valid() && pool.IsCurrent(o.id) && pool.orders[o.id.slot] == o
      ensures View() == Stocked(old(View()), o)
    {
      FreeAgrees();
      TakeSlot(o);
      Enlist(o);
      hide Valid, Shape;
    }

    /** Give the order that was put into a taken slot its serial number. */
    ghost method Enlist(o: Order)
      requires pool.Valid() && Shape(View()) && o.id.slot < pool.capacity &&
        o.id.generation == pool.generation[o.id.slot]
      requires forall k :: 0 <= k < pool.capacity ==> (pool.taken[k] <==> k in table || k == o.id.slot)
      requires forall k :: k in table ==> k != o.id.slot && pool.orders[k] == book[table[k]]
      requires forall k, l :: k in table && l in table && table[k] == table[l] ==> k == l
      requires pool.orders[o.id.slot] == o
      modifies this`book, this`births, this`table
      ensures Valid() && pool.IsCurrent(o.id) && pool.orders[o.id.slot] == o
      ensures births == old(births) + [pool.recycles[o.id.slot]]
      ensures table == old(table)[o.id.slot := |old(book)|] && book == old(book) + [o]
    {
      births := births + [pool.recycles[o.id.slot]];
      table := table[o.id.slot := |book|];
      book := book + [o];
    }

    /** The slot on top of the free list becomes o's; every taken slot keeps its record. */
    method TakeSlot(o: Order)
      requires Valid() && |pool.freeList| > 0 && o.id.slot == pool.freeList[|pool.freeList| - 1]
      modifies pool`freeList, pool`inUse, pool.orders, pool.taken
      ensures pool.Valid() && Shape(View())
      ensures pool.freeList == old(pool.freeList)[..|old(pool.freeList)| - 1]
      ensures forall k :: 0 <= k < pool.capacity ==> (pool.taken[k] <==> k in table || k == o.id.slot)
      ensures forall k :: k in table ==> k != o.id.slot && pool.orders[k] == book[table[k]]
      ensures pool.orders[o.id.slot] == o
    {
      assert pool.freeList[|pool.freeList| - 1] !in table;
      var slot := pool.Acquire();
      pool.orders[slot] := o;
    }

    method Reserve(req: OrderRequest)
      requires Valid()
      modifies this`positions, this`pendingSigned
      ensures Valid() && View() == Reserved(old(View()), req.instrument, SignedQty(req.side, req.size))
    {
      var inst := req.instrument;
      if inst !in positions {
        positions := positions[inst := FLAT];
      }
      var p := if inst in pendingSigned then pendingSigned[inst] else 0;
      pendingSigned := pendingSigned[inst := p + SignedQty(req.side, req.size)];
    }

    /** The client answered `result` to place_order: send the new order, or unwind it. */
    method FinishSubmit(ghost s: Oms, req: OrderRequest, venue: nat, id: OrderId, result: SendResult, now: int)
      requires Valid() && pool.IsCurrent(id)
      requires Shape(s) && |s.free| > 0 && req.workerOffset < SCRATCH_SLOTS
      requires id == NextId(s, venue) && View() == Register(s, NewOrder(s, req, venue))
      requires pool.orders[id.slot] == NewOrder(s, req, venue)
      modifies this, pool.orders
      modifies pool`freeList, pool`inUse, pool`recycles, pool.generation, pool.taken
      ensures Valid() && View() == Answered(s, req, venue, result, now)
    {
      AnsweredIs(s, req, venue, result, now);
      var o := pool.orders[id.slot];
      hide Valid, View, Answered, Register, Close, Amend, Settle, CountReject, Shape, NewOrder, NextId;
      if result == Ok {
        Store(id, o.(status := Sent, sentAt := now));
      } else {
        CountRejected();
        CloseOrder(id, o.(status := Rejected));
      }
    }

    /** Submit, given the router's and the client's answers, the clock, and the clients' answers to
        the cancels that the all-down policy sends. None stands for the id word 0. */
    method SubmitOrder(req: OrderRequest, route: Route, now: int, accepts: set<OrderId>) returns (id: Option<OrderId>)
      requires Valid() && Inv(View()) && req.workerOffset < SCRATCH_SLOTS
      modifies this, pool.orders
      modifies pool`freeList, pool`inUse, pool`recycles, pool.generation, pool.taken
      ensures Shape(old(View()))
      ensures Valid() && View() == Submit(old(View()), req, route, now, accepts)
      ensures id == SubmittedId(old(View()), req, route)
    {
      SubmitIs(View(), req, route, now, accepts);
      ghost var s := View();
      FreeAgrees();
      assert pool.inUse >= pool.capacity <==> |pool.freeList| == 0;
      hide Valid, Inv, Shape, Submit, CancelWorking, Answered, Register;
      if killed { return None; }
      match route {
        case NoVenue =>
          MarkIncomplete();
          CancelWorkingOrders(accepts);
          return None;
        case NoClient(_) =>
          return None;
        case Client(venue, result) =>
          if pool.inUse >= pool.capacity {
            TripKillSwitch();
            return None;
          }
          var minted := RegisterOrder(req, venue);
          FinishSubmit(s, req, venue, minted, result, now);
          return if result == Ok then Some(minted) else None;
      }
    }

    method MarkIncomplete()
      requires Valid() && Inv(View())
      modifies this`rebalanceIncomplete
      ensures Valid() && View() == old(View()).(incomplete := true) && Inv(View())
    {
      hide Inv;
      FlaggedInv(View());
      rebalanceIncomplete := true;
    }

    lemma FlaggedInv(s: Oms)
      requires Inv(s)
      ensures Inv(s.(incomplete := true))
    {
      hide *;
      OrderManagerKeeps.FlagUpdates(s);
      OrderManagerKeeps.FlagsKeep(s, s.(incomplete := true));
    }

    method TripKillSwitch()
      requires Valid()
      modifies this`killed
      ensures Valid() && View() == old(View()).(killed := true)
    {
      killed := true;
    }

    // ---- queries ----

    /** The execution delta: target - (position + pending). */
    method ComputeExecutionDelta(inst: nat, target: int) returns (delta: int)
      requires Valid()
      ensures delta == ExecutionDelta(View(), inst, target)
    {
      var net := if inst in positions then positions[inst].net else 0;
      var pending := if inst in pendingSigned then pendingSigned[inst] else 0;
      delta := target - (net + pending);
    }

    /** The record of a current id, as subscribers look it up. */
    method Find(id: OrderId) returns (o: Option<Order>)
      requires Valid()
      ensures IsCurrent(View(), id) ==> o == Some(OrderOf(View(), id))
      ensures !IsCurrent(View(), id) ==> o == None
    {
      CurrentAgrees(id);
      o := if pool.IsCurrent(id) then Some(pool.orders[id.slot]) else None;
    }
  }
}
