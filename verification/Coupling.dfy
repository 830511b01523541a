/** The order manager and the simulated venue run together: what they must agree on. */
module Coupling {
  import opened OrderIds
  import opened Orders
  import opened OrderManagerSpec
  import opened OrderManagerInvariants
  import opened OrderManagerSteps
  import opened OrderManagerKeeps
  import opened OrderManagerRuns
  import opened SimExchangeSpec

  /** History of one order the venue accepted: its serial, its chunks (trades first, first + 1, ...)
      and which of them the venue has booked. */
  datatype Plan = Plan(order: nat, first: nat, count: nat, base: int, booked: set<nat>)

  datatype Coupled = Coupled(oms: Oms, ex: Exchange, plans: map<OrderId, Plan>)

  ghost function QtyAt(pl: Plan, size: int, k: nat): int {
    if k + 1 == pl.count then size - k * pl.base else pl.base
  }

  ghost predicate PlanOk(pl: Plan, size: int) {
    && (forall k :: k in pl.booked ==> k < pl.count)
    && (pl.count > 0 ==> 0 <= (pl.count - 1) * pl.base < size)
    && (pl.count > 1 ==> pl.base > 0)
  }

  /** The chunk that a trade of the plan carries. */
  function ChunkOf(pl: Plan, trade: nat): nat {
    if trade < pl.first then 0 else trade - pl.first
  }

  ghost predicate Planned(pl: Plan, trade: nat) {
    pl.first <= trade < pl.first + pl.count
  }

  /** Both sides give the order the same terms, the same life and the same remaining size, and have
      seen the same trades. The last chunk ends the order, so a working order has not had it. */
  ghost predicate OrderAgrees(s: Oms, w: Working, pl: Plan, id: OrderId) {
    && pl.order < |s.book|
    && var o := s.book[pl.order];
    && o.id == id && o.instrument == w.instrument && o.side == w.side && o.size == w.size && o.price == w.price
    && w.size > 0 && PlanOk(pl, w.size)
    && (w.alive <==> !IsTerminal(o.status))
    && (w.alive ==>
          && w.remaining == o.Remaining() == w.size - |pl.booked| * pl.base
          && (pl.count > 0 ==> pl.count - 1 !in pl.booked)
          && TradesOf(s, id) == w.seen
          && forall t: nat :: t in w.seen <==> t >= pl.first && ChunkOf(pl, t) in pl.booked)
  }

  ghost predicate OrdersAgree(c: Coupled) {
    && c.plans.Keys == c.ex.working.Keys
    && (forall id :: id in c.ex.working ==> OrderAgrees(c.oms, c.ex.working[id], c.plans[id], id))
  }

  /** Every order the manager believes to be working was accepted by the venue. */
  ghost predicate Covered(c: Coupled) {
    forall i :: 0 <= i < |c.oms.book| && !IsTerminal(c.oms.book[i].status) ==>
      c.oms.book[i].id in c.plans && c.plans[c.oms.book[i].id].order == i
  }

  ghost predicate PositionsAgree(c: Coupled) {
    forall inst: nat :: VenuePosition(c.ex, inst) == PositionOf(c.oms, inst).net
  }

  /** A scheduled event names an accepted order; a scheduled fill is one of its chunks. */
  ghost predicate EventOk(c: Coupled, e: SimEvent) {
    && e.what.id in c.plans && e.what.id in c.ex.working
    && !e.what.CancelReject?
    && (e.what.FillReport? ==>
          var pl := c.plans[e.what.id];
          var w := c.ex.working[e.what.id];
          && Planned(pl, e.what.trade)
          && e.what.qty == QtyAt(pl, w.size, ChunkOf(pl, e.what.trade))
          && e.what.price == w.price
          && (e.final <==> e.what.trade + 1 == pl.first + pl.count))
  }

  ghost predicate QueueAgrees(c: Coupled) {
    forall e :: e in c.ex.queue ==> EventOk(c, e)
  }

  ghost predicate Agree(c: Coupled) {
    Inv(c.oms) && OrdersAgree(c) && Covered(c) && PositionsAgree(c) && QueueAgrees(c)
  }

  /** What an observer compares: for every order known to both sides its life and, while it works, its
      remaining size; and every net position. */
  ghost predicate SidesAgree(c: Coupled) {
    && (forall i :: 0 <= i < |c.oms.book| && c.oms.book[i].id in c.ex.working ==> SameLife(c, i))
    && PositionsAgree(c)
  }

  ghost predicate SameLife(c: Coupled, i: nat)
    requires i < |c.oms.book| && c.oms.book[i].id in c.ex.working
  {
    var o := c.oms.book[i];
    var w := c.ex.working[o.id];
    (w.alive <==> !IsTerminal(o.status)) && (w.alive ==> w.remaining == o.Remaining())
  }

  // ---- the order of deliveries ----

  ghost predicate Carries(f: SimEvent, id: OrderId, t: nat) {
    f.what.FillReport? && f.what.id == id && f.what.trade == t
  }

  ghost predicate Preceded(queue: set<SimEvent>, e: SimEvent, t: nat) {
    exists f :: f in queue && Carries(f, e.what.id, t) && Before(f, e)
  }

  /** The last chunk of a working order is behind every chunk the venue has not booked yet. */
  ghost predicate InOrder(c: Coupled, e: SimEvent)
    requires EventOk(c, e)
  {
    e.what.FillReport? && e.final && c.ex.working[e.what.id].alive ==>
      var pl := c.plans[e.what.id];
      forall t: nat :: pl.first <= t < e.what.trade && ChunkOf(pl, t) !in pl.booked ==> Preceded(c.ex.queue, e, t)
  }

  /** No last chunk can come early, and everything at work has a positive price. */
  ghost predicate Orderly(c: Coupled) {
    && (forall e :: e in c.ex.queue ==> EventOk(c, e) && InOrder(c, e))
    && forall id :: id in c.ex.working ==> c.ex.working[id].price > 0
  }

  // ---- what an event does to the order manager ----

  /** s' has the same positions and trade sets as s, and no record differs but for its labels. */
  ghost predicate Quiet(s: Oms, s': Oms) {
    && s'.positions == s.positions && s'.trades == s.trades && |s'.book| == |s.book|
    && forall i :: 0 <= i < |s.book| ==> s'.book[i] == s.book[i] || Relabelled(s.book[i], s'.book[i])
  }

  /** Of all records only i differs, now `o`; trade sets of other ids are the same. */
  ghost predicate Touches(s: Oms, s': Oms, i: nat, o: Order) {
    && i < |s.book| && s'.book == s.book[i := o]
    && forall id :: id != o.id ==> TradesOf(s', id) == TradesOf(s, id)
  }

  lemma WorkingIsCurrent(s: Oms, i: nat)
    requires Inv(s) && i < |s.book| && !IsTerminal(s.book[i].status)
    ensures Shape(s) && IsCurrent(s, s.book[i].id) && s.table[s.book[i].id.slot] == i
    ensures OrderOf(s, s.book[i].id) == s.book[i] && Owns(s, s.book[i].id) && s.book[i].id in s.live
  {
    assert LiveInv(s) && PoolInv(s);
    assert Held(s, i);
  }

  lemma FlagsQuiet(s: Oms, s': Oms)
    requires Flags(s, s')
    ensures Quiet(s, s')
  {
  }

  lemma AmendsQuiet(s: Oms, s': Oms, id: OrderId, o: Order)
    requires Amends(s, s', id, o)
    ensures Quiet(s, s')
  {
  }

  lemma ConfirmQuiet(s: Oms, e: Inbound)
    requires Shape(s) && e.Confirm?
    ensures Quiet(s, Receive(s, e))
  {
    hide OnConfirm, Shape, Validate, FirstConfirm, Quiet, Flags, Amends, IsCurrent, OrderOf;
    if Validate(s, e) != Accepted {
      ConfirmDropped(s, e);
      FlagsQuiet(s, OnConfirm(s, e));
    } else if !FirstConfirm(s, e) {
      ConfirmRepeated(s, e);
      SelfQuiet(s);
    } else {
      ConfirmAmends(s, e);
      AmendsQuiet(s, OnConfirm(s, e), e.id, OrderOf(s, e.id).(status := Confirmed));
    }
  }

  lemma SelfQuiet(s: Oms)
    ensures Quiet(s, s)
  {
  }

  lemma RefusedQuiet(s: Oms, e: Inbound)
    requires Shape(s) && Validate(s, e) != Accepted && !e.CancelReject?
    ensures Quiet(s, Receive(s, e))
  {
    hide Validate, OnConfirm, OnFill, Drop, Quiet, Flags, Close;
    if e.Confirm? {
      ConfirmQuiet(s, e);
    } else if e.FillReport? {
      if Validate(s, e) == UnknownOrder {
        FillUnknown(s, e);
      } else {
        FillDropped(s, e);
      }
      FlagsQuiet(s, OnFill(s, e));
    } else {
      DropFlags(s);
      FlagsQuiet(s, Drop(s));
    }
  }

  lemma DropFlags(s: Oms)
    ensures Flags(s, Drop(s))
  {
  }

  /** An event for a terminal order, released or not, is refused. */
  lemma TerminalRefused(s: Oms, e: Inbound, i: nat)
    requires Inv(s) && NoWrap(s) && i < |s.book| && s.book[i].id == e.id && IsTerminal(s.book[i].status)
    ensures Shape(s) && Validate(s, e) != Accepted
  {
    CurrentIsHeld(s, i);
  }

  lemma EvictKeepsRecords(s: Oms)
    ensures Evict(s).book == s.book && Evict(s).positions == s.positions && Evict(s).trades == s.trades
  {
  }

  lemma CloseTouches(s: Oms, id: OrderId, o: Order)
    requires Closing(s, id, o)
    ensures Touches(s, Close(s, id, o), s.table[id.slot], o) && Close(s, id, o).positions == s.positions
  {
    hide *;
    ClosingParts(s, id, o);
    ShelvedTouches(s, id, o);
    CloseIsEvict(s, id, o);
    EvictKeepsRecords(Shelved(s, id, o));
    SameRecordsTouch(s, Shelved(s, id, o), Close(s, id, o), s.table[id.slot], o);
  }

  lemma ClosingParts(s: Oms, id: OrderId, o: Order)
    requires Closing(s, id, o)
    ensures Shape(s) && IsCurrent(s, id) && id.slot in s.table && o.id == id
  {
  }

  /** The state Close hands to the grace queue's eviction. */
  ghost function Shelved(s: Oms, id: OrderId, o: Order): Oms
    requires Shape(s) && IsCurrent(s, id)
  {
    var s1 := Amend(s, id, o);
    Shelve(if o.Remaining() > 0 then Pend(s1, o.instrument, -SignedQty(o.side, o.Remaining())) else s1, id)
  }

  lemma CloseIsEvict(s: Oms, id: OrderId, o: Order)
    requires Shape(s) && IsCurrent(s, id)
    ensures Close(s, id, o) == Evict(Shelved(s, id, o))
  {
    hide Evict, Shelve, Pend, Amend, Shape, IsCurrent;
  }

  lemma ShelvedTouches(s: Oms, id: OrderId, o: Order)
    requires Shape(s) && IsCurrent(s, id) && o.id == id
    ensures Touches(s, Shelved(s, id, o), s.table[id.slot], o) && Shelved(s, id, o).positions == s.positions
  {
    var s1 := Amend(s, id, o);
    assert Touches(s, s1, s.table[id.slot], o);
    hide Touches, Amend, Pend, Shelve, Shape, IsCurrent;
    PendKeepsRecords(s1, o.instrument, -SignedQty(o.side, o.Remaining()));
    var s2 := if o.Remaining() > 0 then Pend(s1, o.instrument, -SignedQty(o.side, o.Remaining())) else s1;
    SameRecordsTouch(s, s1, s2, s.table[id.slot], o);
    ShelveTouches(s, s2, id, s.table[id.slot], o);
    AmendKeepsPositions(s, id, o);
  }

  lemma PendKeepsRecords(s: Oms, inst: nat, signed: int)
    ensures
      var s' := Pend(s, inst, signed);
      s'.book == s.book && s'.trades == s.trades && s'.positions == s.positions
  {
  }

  lemma AmendKeepsPositions(s: Oms, id: OrderId, o: Order)
    requires Shape(s) && IsCurrent(s, id)
    ensures Amend(s, id, o).positions == s.positions
  {
  }

  lemma ShelveTouches(s: Oms, s1: Oms, id: OrderId, i: nat, o: Order)
    requires Touches(s, s1, i, o) && o.id == id
    ensures Touches(s, Shelve(s1, id), i, o) && Shelve(s1, id).positions == s1.positions
  {
  }

  lemma SameRecordsTouch(s: Oms, s1: Oms, s': Oms, i: nat, o: Order)
    requires Touches(s, s1, i, o) && s'.book == s1.book && s'.trades == s1.trades
    ensures Touches(s, s', i, o)
  {
  }

  ghost predicate Ends(o: Order, o': Order) {
    o' == o.(status := o'.status, pendingCancel := o'.pendingCancel) && IsTerminal(o'.status)
  }

  lemma FlagsTouches(s: Oms, s1: Oms, s': Oms, i: nat, o: Order)
    requires Flags(s, s1) && Touches(s1, s', i, o) && s'.positions == s1.positions
    ensures Touches(s, s', i, o) && s'.positions == s.positions
  {
  }

  lemma TouchedRecord(s: Oms, s': Oms, i: nat, o: Order)
    requires Touches(s, s', i, o)
    ensures i < |s.book| && |s'.book| == |s.book| && s'.book[i] == o
  {
  }

  lemma ClosedByReject(s: Oms, e: Inbound)
    requires Shape(s) && IsCurrent(s, e.id) && Owns(s, e.id) && e.id in s.live && e.PlaceReject?
    requires Validate(s, e) == Accepted
    ensures Touches(s, Receive(s, e), s.table[e.id.slot], OrderOf(s, e.id).(status := Rejected))
    ensures Receive(s, e).positions == s.positions
    ensures Ends(OrderOf(s, e.id), OrderOf(s, e.id).(status := Rejected))
  {
    hide Close, Validate, OnPlaceReject, Flags, Closing, Touches, Shape, Owns, Ends;
    PlaceRejectIs(s, e);
    var s1 := CountReject(s);
    var o := OrderOf(s, e.id).(status := Rejected);
    CountRejectTable(s);
    CloseTouches(s1, e.id, o);
    FlagsTouches(s, s1, Close(s1, e.id, o), s.table[e.id.slot], o);
    EndsStatus(OrderOf(s, e.id));
  }

  lemma CountRejectTable(s: Oms)
    ensures CountReject(s).table == s.table
  {
  }

  lemma CountUnsolicitedTable(s: Oms, e: Inbound)
    ensures CountUnsolicited(s, e).table == s.table
  {
  }

  lemma EndsStatus(o: Order)
    ensures Ends(o, o.(status := Rejected))
    ensures Ends(o, o.(pendingCancel := false, status := Cancelled))
  {
  }

  lemma ClosedByCancel(s: Oms, e: Inbound)
    requires Shape(s) && IsCurrent(s, e.id) && Owns(s, e.id) && e.id in s.live && (e.CancelAck? || e.Unsolicited?)
    requires Validate(s, e) == Accepted
    ensures Touches(s, Receive(s, e), s.table[e.id.slot],
      OrderOf(s, e.id).(pendingCancel := false, status := Cancelled))
    ensures Receive(s, e).positions == s.positions
    ensures Ends(OrderOf(s, e.id), OrderOf(s, e.id).(pendingCancel := false, status := Cancelled))
  {
    hide Close, Validate, OnCancelled, Flags, Closing, Touches, Shape, Owns, Ends;
    CancelledIs(s, e);
    var s1 := CountUnsolicited(s, e);
    var o := OrderOf(s, e.id).(pendingCancel := false, status := Cancelled);
    CountUnsolicitedTable(s, e);
    CloseTouches(s1, e.id, o);
    FlagsTouches(s, s1, Close(s1, e.id, o), s.table[e.id.slot], o);
    EndsStatus(OrderOf(s, e.id));
  }

  lemma WorkingAccepts(s: Oms, e: Inbound)
    requires Shape(s) && IsCurrent(s, e.id) && !IsTerminal(OrderOf(s, e.id).status)
    requires e.PlaceReject? || e.CancelAck? || e.Unsolicited?
    ensures Validate(s, e) == Accepted
  {
  }

  /** A reject or cancel of a working order makes exactly that record terminal. */
  lemma ClosedTouches(s: Oms, e: Inbound, i: nat)
    requires Inv(s) && i < |s.book| && s.book[i].id == e.id && !IsTerminal(s.book[i].status)
    requires e.PlaceReject? || e.CancelAck? || e.Unsolicited?
    ensures Shape(s) && Receive(s, e).positions == s.positions && |Receive(s, e).book| == |s.book|
    ensures Touches(s, Receive(s, e), i, Receive(s, e).book[i]) && Ends(s.book[i], Receive(s, e).book[i])
  {
    hide *;
    WorkingIsCurrent(s, i);
    WorkingAccepts(s, e);
    if e.PlaceReject? {
      ClosedByReject(s, e);
      TouchedRecord(s, Receive(s, e), i, OrderOf(s, e.id).(status := Rejected));
    } else {
      ClosedByCancel(s, e);
      TouchedRecord(s, Receive(s, e), i, OrderOf(s, e.id).(pendingCancel := false, status := Cancelled));
    }
  }

  /** Of all records only that of the filled order differs, the position moves by the fill, and
      while the order keeps working its trade set gains the trade. */
  ghost predicate FillsIn(s: Oms, s': Oms, e: Inbound, i: nat) {
    && i < |s.book| && e.FillReport?
    && var o := s.book[i];
    && Touches(s, s', i, FilledBy(o, e.qty, e.price))
    && s'.positions == s.positions[o.instrument := PositionOf(s, o.instrument).Apply(SignedQty(o.side, e.qty), e.price)]
    && (!FilledBy(o, e.qty, e.price).status.Filled? ==> TradesOf(s', e.id) == TradesOf(s, e.id) + {e.trade})
  }

  lemma AccountFillsIn(s: Oms, e: Inbound)
    requires Fillable(s, e)
    ensures FillsIn(s, Account(s, e), e, s.table[e.id.slot])
  {
  }

  lemma MovedFillsIn(s: Oms, s1: Oms, s': Oms, e: Inbound, i: nat)
    requires FillsIn(s, s1, e, i) && s.book[i].filled + e.qty == s.book[i].size && s.book[i].id == e.id
    requires s'.book == s1.book && s'.positions == s1.positions && s'.trades == s1.trades - {e.id}
    ensures FillsIn(s, s', e, i)
  {
  }

  lemma FinalFillsIn(s: Oms, e: Inbound)
    requires Fillable(s, e) && Settled(s) && OrderOf(s, e.id).filled + e.qty == OrderOf(s, e.id).size
    ensures FillsIn(s, OnFill(s, e), e, s.table[e.id.slot])
  {
    AccountFillsIn(s, e);
    CompletedMoves(s, e);
    hide Account, Completed, OnFill, Evict, FillsIn, Settled;
    FinalFillIs(s, e);
    EvictKeepsRecords(Completed(s, e));
    MovedFillsIn(s, Account(s, e), OnFill(s, e), e, s.table[e.id.slot]);
  }

  lemma PartialFillsIn(s: Oms, e: Inbound)
    requires Fillable(s, e) && Settled(s) && OrderOf(s, e.id).filled + e.qty != OrderOf(s, e.id).size
    ensures FillsIn(s, OnFill(s, e), e, s.table[e.id.slot])
  {
    hide *;
    PartialFillIs(s, e);
    AccountFillsIn(s, e);
  }

  lemma WorkingFillable(s: Oms, e: Inbound)
    requires Shape(s) && IsCurrent(s, e.id) && Owns(s, e.id) && !IsTerminal(OrderOf(s, e.id).status)
    requires e.FillReport? && e.trade !in TradesOf(s, e.id)
    requires e.qty > 0 && e.price > 0 && e.qty <= OrderOf(s, e.id).Remaining()
    ensures Fillable(s, e)
  {
  }

  lemma FillTouches(s: Oms, e: Inbound, i: nat)
    requires Inv(s) && i < |s.book| && s.book[i].id == e.id && !IsTerminal(s.book[i].status)
    requires e.FillReport? && e.trade !in TradesOf(s, e.id)
    requires e.qty > 0 && e.price > 0 && e.qty <= s.book[i].Remaining()
    ensures Shape(s) && FillsIn(s, Receive(s, e), e, i)
  {
    assert Settled(s);
    hide Inv, FillsIn, Settled, Fillable, OnFill;
    WorkingIsCurrent(s, i);
    WorkingFillable(s, e);
    if OrderOf(s, e.id).filled + e.qty == OrderOf(s, e.id).size {
      FinalFillsIn(s, e);
    } else {
      PartialFillsIn(s, e);
    }
  }
}
