/**
 The open orders of one execution algorithm, read off the order manager: the live orders that bear
 the algorithm's routing tag, each with the quantity it has left. The lemmas say how every order
 manager operation changes them.
 */
module AlgoChildren {
  import opened OrderIds
  import opened Orders
  import opened OrderManagerSpec
  import opened OrderManagerInvariants
  import opened OrderManagerSteps
  import opened OrderManagerKeeps
  import opened OrderManagerRuns
  import opened Coupling
  import opened CouplingSteps
  import opened Sums

  /** A slot of the scratch array and the value an algorithm stamps there. */
  datatype Tag = Tag(offset: nat, index: int)

  predicate Bears(o: Order, tag: Tag) {
    tag.offset < |o.intData| && o.intData[tag.offset] == tag.index
  }

  ghost predicate Indexed(s: Oms) {
    Shape(s) && LiveInv(s)
  }

  ghost function OpenOf(s: Oms, tag: Tag): map<OrderId, int>
    requires Indexed(s)
  {
    map id | id in s.live && Bears(s.book[s.table[id.slot]], tag) :: s.book[s.table[id.slot]].Remaining()
  }

  /** The quantity executed so far under a tag, over all orders ever sent. */
  ghost function FilledUnder(tag: Tag): Order -> int {
    (o: Order) => if Bears(o, tag) then o.filled else 0
  }

  lemma InvIndexed(s: Oms)
    requires Inv(s)
    ensures Indexed(s)
  {
  }

  lemma OpenAt(s: Oms, tag: Tag, i: nat)
    requires Indexed(s) && i < |s.book| && !IsTerminal(s.book[i].status)
    ensures s.book[i].id in s.live && s.table[s.book[i].id.slot] == i
    ensures s.book[i].id in OpenOf(s, tag) <==> Bears(s.book[i], tag)
    ensures Bears(s.book[i], tag) ==> OpenOf(s, tag)[s.book[i].id] == s.book[i].Remaining()
  {
    assert Held(s, i);
  }

  /** Every open order has a serial. */
  lemma SerialOf(s: Oms, id: OrderId) returns (i: nat)
    requires Indexed(s) && id in s.live
    ensures i < |s.book| && s.book[i].id == id && !IsTerminal(s.book[i].status) && i == s.table[id.slot]
  {
    assert Owns(s, id);
    i := s.table[id.slot];
  }

  // ---- operations that keep every order's quantity ----

  lemma QuietWithin(s: Oms, s': Oms, tag: Tag, id: OrderId)
    requires Indexed(s) && Indexed(s') && Quiet(s, s') && id in OpenOf(s, tag)
    ensures id in OpenOf(s', tag) && OpenOf(s', tag)[id] == OpenOf(s, tag)[id]
  {
    var i := SerialOf(s, id);
    assert s'.book[i] == s.book[i] || Relabelled(s.book[i], s'.book[i]);
    OpenAt(s', tag, i);
  }

  lemma QuietBack(s: Oms, s': Oms, tag: Tag, id: OrderId)
    requires Indexed(s) && Indexed(s') && Quiet(s, s') && id in OpenOf(s', tag)
    ensures id in OpenOf(s, tag)
  {
    var i := SerialOf(s', id);
    assert s'.book[i] == s.book[i] || Relabelled(s.book[i], s'.book[i]);
    OpenAt(s, tag, i);
  }

  lemma QuietOpen(s: Oms, s': Oms, tag: Tag)
    requires Indexed(s) && Indexed(s') && Quiet(s, s')
    ensures OpenOf(s', tag) == OpenOf(s, tag)
    ensures Sum(s'.book, FilledUnder(tag)) == Sum(s.book, FilledUnder(tag))
  {
    assert |s'.book| == |s.book|;
    forall i | 0 <= i < |s.book| ensures FilledUnder(tag)(s'.book[i]) == FilledUnder(tag)(s.book[i]) {
      assert s'.book[i] == s.book[i] || Relabelled(s.book[i], s'.book[i]);
    }
    hide Indexed, Quiet, OpenOf, FilledUnder;
    SumPointwise(s'.book, s.book, FilledUnder(tag));
    forall id | id in OpenOf(s, tag) ensures id in OpenOf(s', tag) && OpenOf(s', tag)[id] == OpenOf(s, tag)[id] {
      QuietWithin(s, s', tag, id);
    }
    forall id | id in OpenOf(s', tag) ensures id in OpenOf(s, tag) {
      QuietBack(s, s', tag, id);
    }
  }

  // ---- operations on one record ----

  /** The open orders after record i became `o`. */
  ghost function Updated(open: map<OrderId, int>, o: Order, tag: Tag): map<OrderId, int> {
    if !Bears(o, tag) then open
    else if IsTerminal(o.status) then open - {o.id}
    else open[o.id := o.Remaining()]
  }

  ghost predicate SameTask(o: Order, o': Order) {
    o'.id == o.id && o'.intData == o.intData && !IsTerminal(o.status)
  }

  lemma TouchedWithin(s: Oms, s': Oms, tag: Tag, i: nat, o: Order, id: OrderId)
    requires Indexed(s) && Indexed(s') && Touches(s, s', i, o) && SameTask(s.book[i], o)
    requires id in OpenOf(s', tag)
    ensures id in Updated(OpenOf(s, tag), o, tag) && OpenOf(s', tag)[id] == Updated(OpenOf(s, tag), o, tag)[id]
  {
    var j := SerialOf(s', id);
    if j != i {
      OpenAt(s, tag, j);
      OpenAt(s, tag, i);
    } else {
      OpenAt(s', tag, i);
    }
  }

  lemma TouchedBack(s: Oms, s': Oms, tag: Tag, i: nat, o: Order, id: OrderId)
    requires Indexed(s) && Indexed(s') && Touches(s, s', i, o) && SameTask(s.book[i], o)
    requires id in Updated(OpenOf(s, tag), o, tag)
    ensures id in OpenOf(s', tag)
  {
    OpenAt(s, tag, i);
    if id == o.id {
      assert s'.book[i] == o;
      assert Bears(o, tag) && !IsTerminal(o.status);
      OpenAt(s', tag, i);
    } else {
      var j := SerialOf(s, id);
      assert j != i && s'.book[j] == s.book[j];
      OpenAt(s', tag, j);
    }
  }

  lemma TouchedOpen(s: Oms, s': Oms, tag: Tag, i: nat, o: Order)
    requires Indexed(s) && Indexed(s') && Touches(s, s', i, o) && SameTask(s.book[i], o)
    ensures OpenOf(s', tag) == Updated(OpenOf(s, tag), o, tag)
    ensures Sum(s'.book, FilledUnder(tag))
         == Sum(s.book, FilledUnder(tag)) + (if Bears(o, tag) then o.filled - s.book[i].filled else 0)
    ensures Bears(o, tag) ==> o.id in OpenOf(s, tag) && OpenOf(s, tag)[o.id] == s.book[i].Remaining()
  {
    SumUpdate(s.book, i, o, FilledUnder(tag));
    OpenAt(s, tag, i);
    assert s'.book == s.book[i := o];
    assert Bears(s.book[i], tag) <==> Bears(o, tag);
    hide Indexed, Touches, OpenOf, Updated, SameTask;
    forall id | id in OpenOf(s', tag)
      ensures id in Updated(OpenOf(s, tag), o, tag) && OpenOf(s', tag)[id] == Updated(OpenOf(s, tag), o, tag)[id]
    {
      TouchedWithin(s, s', tag, i, o, id);
    }
    forall id | id in Updated(OpenOf(s, tag), o, tag) ensures id in OpenOf(s', tag) {
      TouchedBack(s, s', tag, i, o, id);
    }
  }

  // ---- one order more ----

  lemma GrownWithin(s: Oms, s': Oms, tag: Tag, o: Order, id: OrderId)
    requires Indexed(s) && Indexed(s') && Grows(s, s', o)
    requires id in OpenOf(s', tag)
    ensures (id == o.id && Bears(o, tag) && !IsTerminal(o.status) && OpenOf(s', tag)[id] == o.Remaining())
         || (id in OpenOf(s, tag) && OpenOf(s', tag)[id] == OpenOf(s, tag)[id] && (IsTerminal(o.status) || id != o.id))
  {
    var j := SerialOf(s', id);
    if j < |s.book| {
      OpenAt(s, tag, j);
      if !IsTerminal(o.status) {
        OpenAt(s', tag, |s.book|);
      }
    }
  }

  lemma GrownBack(s: Oms, s': Oms, tag: Tag, o: Order, id: OrderId)
    requires Indexed(s) && Indexed(s') && Grows(s, s', o) && id in OpenOf(s, tag)
    ensures id in OpenOf(s', tag) && OpenOf(s', tag)[id] == OpenOf(s, tag)[id]
    ensures !IsTerminal(o.status) ==> id != o.id
  {
    var j := SerialOf(s, id);
    assert s'.book[j] == s.book[j];
    OpenAt(s', tag, j);
    if !IsTerminal(o.status) {
      OpenAt(s', tag, |s.book|);
    }
  }

  lemma GrownNew(s: Oms, s': Oms, tag: Tag, o: Order)
    requires Indexed(s) && Indexed(s') && Grows(s, s', o) && !IsTerminal(o.status)
    ensures o.id in OpenOf(s', tag) <==> Bears(o, tag)
    ensures Bears(o, tag) ==> OpenOf(s', tag)[o.id] == o.Remaining()
  {
    OpenAt(s', tag, |s.book|);
  }

  lemma GrownOpen(s: Oms, s': Oms, tag: Tag, o: Order)
    requires Indexed(s) && Indexed(s') && Grows(s, s', o) && !IsTerminal(o.status)
    ensures Bears(o, tag) ==> o.id !in OpenOf(s, tag) && OpenOf(s', tag) == OpenOf(s, tag)[o.id := o.Remaining()]
    ensures !Bears(o, tag) ==> OpenOf(s', tag) == OpenOf(s, tag)
  {
    hide *;
    GrownNew(s, s', tag, o);
    var m, m' := OpenOf(s, tag), OpenOf(s', tag);
    forall id | id in m ensures id in m' && m'[id] == m[id] && id != o.id {
      GrownBack(s, s', tag, o, id);
    }
    forall id | id in m' && id != o.id ensures id in m {
      GrownWithin(s, s', tag, o, id);
    }
    if Bears(o, tag) {
      OneMoreKey(m, m', o.id, o.Remaining());
    } else {
      NoMoreKeys(m, m', o.id);
    }
  }

  lemma OneMoreKey(m: map<OrderId, int>, m': map<OrderId, int>, id: OrderId, v: int)
    requires forall x :: x in m ==> x in m' && m'[x] == m[x] && x != id
    requires (forall x :: x in m' && x != id ==> x in m) && id in m' && m'[id] == v
    ensures id !in m && m' == m[id := v]
  {
  }

  lemma NoMoreKeys(m: map<OrderId, int>, m': map<OrderId, int>, id: OrderId)
    requires forall x :: x in m ==> x in m' && m'[x] == m[x] && x != id
    requires (forall x :: x in m' && x != id ==> x in m) && id !in m'
    ensures m' == m
  {
  }

  lemma GrownClosed(s: Oms, s': Oms, tag: Tag, o: Order)
    requires Indexed(s) && Indexed(s') && Grows(s, s', o) && IsTerminal(o.status)
    ensures OpenOf(s', tag) == OpenOf(s, tag)
  {
    hide Indexed, Grows, OpenOf;
    forall id | id in OpenOf(s, tag) ensures id in OpenOf(s', tag) && OpenOf(s', tag)[id] == OpenOf(s, tag)[id] {
      GrownBack(s, s', tag, o, id);
    }
    forall id | id in OpenOf(s', tag) ensures id in OpenOf(s, tag) {
      GrownWithin(s, s', tag, o, id);
    }
  }

  lemma GrownFilled(s: Oms, s': Oms, tag: Tag, o: Order)
    requires Grows(s, s', o) && o.filled == 0
    ensures Sum(s'.book, FilledUnder(tag)) == Sum(s.book, FilledUnder(tag))
  {
    SumAppend(s.book, o, FilledUnder(tag));
  }

  // ---- inbound events ----

  /** How the algorithm's own book changes when it is told of an event. */
  ghost function AfterNotice(open: map<OrderId, int>, n: Notice, tag: Tag): map<OrderId, int> {
    if n.Silent? || !Bears(n.order, tag) || n.kind.ConfirmedEvent? then open
    else if (n.kind.PartialFillEvent? || n.kind.FillEvent?) && !n.order.status.Filled? then
      open[n.order.id := n.order.Remaining()]
    else open - {n.order.id}
  }

  predicate IsFill(n: Notice, tag: Tag) {
    n.Published? && Bears(n.order, tag) && (n.kind.PartialFillEvent? || n.kind.FillEvent?)
  }

  /** The notice tells the truth about the algorithm's orders: a fill is of an open one, for no more
      than it had left. */
  ghost predicate Truthful(open: map<OrderId, int>, n: Notice, tag: Tag) {
    IsFill(n, tag) ==>
      && n.order.id in open && n.lastQty > 0
      && open[n.order.id] == n.order.Remaining() + n.lastQty
      && n.order.Remaining() >= 0 && (n.order.status.Filled? <==> n.order.Remaining() == 0)
  }

  /** What the order manager publishes about an event keeps the algorithm's book equal to its own. */
  ghost predicate Tells(s: Oms, s': Oms, n: Notice, tag: Tag) {
    && Indexed(s) && Indexed(s')
    && OpenOf(s', tag) == AfterNotice(OpenOf(s, tag), n, tag)
    && Truthful(OpenOf(s, tag), n, tag)
    && Sum(s'.book, FilledUnder(tag)) == Sum(s.book, FilledUnder(tag)) + (if IsFill(n, tag) then n.lastQty else 0)
  }

  lemma QuietTells(s: Oms, s': Oms, n: Notice, tag: Tag)
    requires Indexed(s) && Indexed(s') && Quiet(s, s') && (n.Silent? || n.kind.ConfirmedEvent?)
    ensures Tells(s, s', n, tag)
  {
    hide Indexed, Quiet;
    QuietOpen(s, s', tag);
  }

  lemma CancelRejectQuiet(s: Oms, e: Inbound)
    requires Shape(s) && e.CancelReject?
    ensures Quiet(s, Receive(s, e))
  {
    hide OnCancelReject, Validate, Quiet, Flags, Amends;
    if e.id in s.benign {
      BenignFlags(s, e);
      FlagsQuiet(s, OnCancelReject(s, e));
    } else if Validate(s, e) != Accepted {
      CancelRejectDropped(s, e);
      FlagsQuiet(s, OnCancelReject(s, e));
    } else {
      CancelRejectAmends(s, e);
      AmendsQuiet(s, OnCancelReject(s, e), e.id, Uncancelled(OrderOf(s, e.id)));
    }
  }

  lemma SilentNotice(s: Oms, e: Inbound)
    requires Shape(s) && (Validate(s, e) != Accepted || e.CancelReject? || e.Confirm?)
    ensures NoticeOf(s, e).Silent? || NoticeOf(s, e).kind.ConfirmedEvent?
  {
  }

  lemma AcceptedOrder(s: Oms, e: Inbound)
    requires SlotInv(s) && Genuine(s, e.id) && Validate(s, e) == Accepted
    ensures e.id.slot in s.table && s.table[e.id.slot] < |s.book| && s.book[s.table[e.id.slot]].id == e.id
    ensures !IsTerminal(s.book[s.table[e.id.slot]].status) && OrderOf(s, e.id) == s.book[s.table[e.id.slot]]
  {
    ValidIsLive(s, e);
  }

  lemma ClosedNotice(s: Oms, e: Inbound, o': Order)
    requires Shape(s) && Validate(s, e) == Accepted && (e.PlaceReject? || e.CancelAck? || e.Unsolicited?)
    requires Ends(OrderOf(s, e.id), o')
    ensures var n := NoticeOf(s, e);
      && n.Published? && (n.kind.RejectedEvent? || n.kind.CancelledEvent? || n.kind.UnsolicitedEvent?)
      && n.order.id == o'.id && n.order.intData == o'.intData
    ensures IsTerminal(o'.status) && o'.filled == OrderOf(s, e.id).filled
    ensures o'.id == OrderOf(s, e.id).id && o'.intData == OrderOf(s, e.id).intData
  {
  }

  lemma ClosedTells(s: Oms, s': Oms, n: Notice, tag: Tag, i: nat, o: Order)
    requires Indexed(s) && Indexed(s') && Touches(s, s', i, o) && SameTask(s.book[i], o) && IsTerminal(o.status)
    requires o.filled == s.book[i].filled
    requires n.Published? && (n.kind.RejectedEvent? || n.kind.CancelledEvent? || n.kind.UnsolicitedEvent?)
    requires n.order.id == o.id && n.order.intData == o.intData
    ensures Tells(s, s', n, tag)
  {
    hide *;
    TouchedOpen(s, s', tag, i, o);
    TouchedRecord(s, s', i, o);
    ToldClosed(s, s', n, tag, o, if Bears(o, tag) then o.filled - s.book[i].filled else 0);
  }

  lemma ToldClosed(s: Oms, s': Oms, n: Notice, tag: Tag, o: Order, more: int)
    requires Indexed(s) && Indexed(s') && IsTerminal(o.status) && more == 0
    requires OpenOf(s', tag) == Updated(OpenOf(s, tag), o, tag)
    requires Sum(s'.book, FilledUnder(tag)) == Sum(s.book, FilledUnder(tag)) + more
    requires n.Published? && (n.kind.RejectedEvent? || n.kind.CancelledEvent? || n.kind.UnsolicitedEvent?)
    requires n.order.id == o.id && n.order.intData == o.intData
    ensures Tells(s, s', n, tag)
  {
    hide Indexed, OpenOf, Sum, FilledUnder, IsTerminal;
    assert Bears(n.order, tag) <==> Bears(o, tag);
  }

  lemma FillNotice(s: Oms, e: Inbound)
    requires Shape(s) && Validate(s, e) == Accepted && e.FillReport? && !IsTerminal(OrderOf(s, e.id).status)
    ensures var n := NoticeOf(s, e);
      && n.Published? && (n.kind.PartialFillEvent? || n.kind.FillEvent?)
      && n.order == FilledBy(OrderOf(s, e.id), e.qty, e.price) && n.lastQty == e.qty
    ensures SameTask(OrderOf(s, e.id), FilledBy(OrderOf(s, e.id), e.qty, e.price))
    ensures 0 < e.qty <= OrderOf(s, e.id).Remaining() && e.price > 0 && e.trade !in TradesOf(s, e.id)
  {
  }

  lemma FilledTells(s: Oms, s': Oms, n: Notice, tag: Tag, i: nat, qty: int, price: int)
    requires i < |s.book|
    requires var o := FilledBy(s.book[i], qty, price);
      Indexed(s) && Indexed(s') && Touches(s, s', i, o) && SameTask(s.book[i], o) && n.Published? && n.order == o
    requires 0 < qty <= s.book[i].Remaining() && n.lastQty == qty
    requires n.kind.PartialFillEvent? || n.kind.FillEvent?
    ensures Tells(s, s', n, tag)
  {
    var o := FilledBy(s.book[i], qty, price);
    assert o.filled == s.book[i].filled + qty && o.Remaining() == s.book[i].Remaining() - qty;
    assert IsTerminal(o.status) <==> o.status.Filled?;
    assert o.status.Filled? <==> o.Remaining() == 0;
    hide Indexed, Touches, OpenOf, Sum, FilledUnder;
    TouchedOpen(s, s', tag, i, o);
  }

  lemma FillTells(s: Oms, e: Inbound, tag: Tag)
    requires Inv(s) && Indexed(Receive(s, e)) && SlotInv(s) && Shape(s) && Genuine(s, e.id)
    requires Validate(s, e) == Accepted && e.FillReport?
    ensures Tells(s, Receive(s, e), NoticeOf(s, e), tag)
  {
    hide *;
    InvIndexed(s);
    AcceptedOrder(s, e);
    FillNotice(s, e);
    var i := s.table[e.id.slot];
    FillTouches(s, e, i);
    FillsInTouches(s, Receive(s, e), e, i);
    FilledTells(s, Receive(s, e), NoticeOf(s, e), tag, i, e.qty, e.price);
  }

  lemma FillsInTouches(s: Oms, s': Oms, e: Inbound, i: nat)
    requires FillsIn(s, s', e, i)
    ensures e.FillReport? && Touches(s, s', i, FilledBy(s.book[i], e.qty, e.price))
  {
  }

  lemma CloseTells(s: Oms, e: Inbound, tag: Tag)
    requires Inv(s) && Indexed(Receive(s, e)) && SlotInv(s) && Shape(s) && Genuine(s, e.id)
    requires Validate(s, e) == Accepted && (e.PlaceReject? || e.CancelAck? || e.Unsolicited?)
    ensures Tells(s, Receive(s, e), NoticeOf(s, e), tag)
  {
    hide *;
    InvIndexed(s);
    AcceptedOrder(s, e);
    var i := s.table[e.id.slot];
    ClosedTouches(s, e, i);
    ClosedNotice(s, e, Receive(s, e).book[i]);
    ClosedTask(s.book[i], Receive(s, e).book[i]);
    ClosedTells(s, Receive(s, e), NoticeOf(s, e), tag, i, Receive(s, e).book[i]);
  }

  lemma ClosedTask(o: Order, o': Order)
    requires Ends(o, o') && !IsTerminal(o.status)
    ensures SameTask(o, o') && IsTerminal(o'.status)
  {
  }

  /** Whatever event arrives, an algorithm that follows what is published about its tag keeps exactly
      the order manager's open orders of that tag. */
  lemma ReceiveTells(s: Oms, e: Inbound, tag: Tag)
    requires Inv(s) && Shape(s) && Genuine(s, e.id)
    ensures Inv(Receive(s, e)) && Tells(s, Receive(s, e), NoticeOf(s, e), tag)
  {
    assert SlotInv(s);
    hide *;
    ReceiveKeeps(s, e);
    InvIndexed(s);
    InvIndexed(Receive(s, e));
    if e.CancelReject? {
      CancelRejectQuiet(s, e);
      SilentNotice(s, e);
      QuietTells(s, Receive(s, e), NoticeOf(s, e), tag);
    } else if e.Confirm? {
      ConfirmQuiet(s, e);
      SilentNotice(s, e);
      QuietTells(s, Receive(s, e), NoticeOf(s, e), tag);
    } else if Validate(s, e) != Accepted {
      RefusedQuiet(s, e);
      SilentNotice(s, e);
      QuietTells(s, Receive(s, e), NoticeOf(s, e), tag);
    } else if e.FillReport? {
      FillTells(s, e, tag);
    } else {
      CloseTells(s, e, tag);
    }
  }

  // ---- submits ----

  /** An algorithm's book after its own submit: the new child if one was accepted. */
  ghost function AfterSend(open: map<OrderId, int>, id: Option<OrderId>, qty: int): map<OrderId, int> {
    if id.Some? then open[id.value := qty] else open
  }

  predicate Stamps(req: OrderRequest, tag: Tag)
    requires req.workerOffset < SCRATCH_SLOTS
  {
    tag.offset < SCRATCH_SLOTS && Tagged(req)[tag.offset] == tag.index
  }

  ghost predicate Sends(s: Oms, s': Oms, req: OrderRequest, id: Option<OrderId>, tag: Tag)
    requires req.workerOffset < SCRATCH_SLOTS
  {
    && Indexed(s) && Indexed(s')
    && (id.Some? && Stamps(req, tag) ==> id.value !in OpenOf(s, tag))
    && OpenOf(s', tag) == (if Stamps(req, tag) then AfterSend(OpenOf(s, tag), id, req.size) else OpenOf(s, tag))
    && Sum(s'.book, FilledUnder(tag)) == Sum(s.book, FilledUnder(tag))
  }

  lemma QuietSends(s: Oms, s': Oms, req: OrderRequest, tag: Tag)
    requires Indexed(s) && Indexed(s') && Quiet(s, s') && req.workerOffset < SCRATCH_SLOTS
    ensures Sends(s, s', req, None, tag)
  {
    hide Indexed, Quiet;
    QuietOpen(s, s', tag);
  }

  lemma NewBears(s: Oms, req: OrderRequest, venue: nat, now: int, tag: Tag)
    requires Shape(s) && |s.free| > 0 && req.workerOffset < SCRATCH_SLOTS
    ensures var o := NewOrder(s, req, venue);
      && (Bears(o.(status := Sent, sentAt := now), tag) <==> Stamps(req, tag))
      && o.id == NextId(s, venue) && o.filled == 0 && o.size == req.size && o.Remaining() == req.size
  {
  }

  /** The answers to cancels matter only when every venue is down. */
  lemma AcceptsUnused(s: Oms, req: OrderRequest, route: Route, now: int, accepts: set<OrderId>)
    requires Shape(s) && req.workerOffset < SCRATCH_SLOTS && !route.NoVenue?
    ensures Submit(s, req, route, now, accepts) == Submit(s, req, route, now, {})
  {
    hide Close, NewOrder, Register, Settle, CountReject, Shape;
  }

  lemma SentSends(s: Oms, req: OrderRequest, route: Route, now: int, tag: Tag)
    requires Inv(s) && Shape(s) && WellFormed(req, route) && ReachesVenue(s, route) && route.result == Ok
    requires Indexed(s) && Indexed(Submit(s, req, route, now, {}))
    ensures Sends(s, Submit(s, req, route, now, {}), req, Some(NextId(s, route.venue)), tag)
  {
    var o := NewOrder(s, req, route.venue).(status := Sent, sentAt := now);
    NewBears(s, req, route.venue, now, tag);
    assert o.filled == 0 && o.id == NextId(s, route.venue) && o.Remaining() == req.size && !IsTerminal(o.status);
    hide Inv, Indexed, Submit, NewOrder, Grows, Bears, Stamps, Shape;
    SentGrows(s, req, route, now);
    GrownOpen(s, Submit(s, req, route, now, {}), tag, o);
    GrownFilled(s, Submit(s, req, route, now, {}), tag, o);
  }

  lemma RefusedSends(s: Oms, req: OrderRequest, route: Route, now: int, tag: Tag)
    requires Inv(s) && Shape(s) && WellFormed(req, route) && ReachesVenue(s, route) && route.result != Ok
    requires Indexed(s) && Indexed(Submit(s, req, route, now, {}))
    ensures Sends(s, Submit(s, req, route, now, {}), req, None, tag)
  {
    var o := NewOrder(s, req, route.venue).(status := Rejected);
    NewBears(s, req, route.venue, now, tag);
    assert o.filled == 0 && IsTerminal(o.status);
    hide Inv, Indexed, Submit, NewOrder, Grows, Bears, Stamps, Shape;
    RefusedGrows(s, req, route, now);
    GrownClosed(s, Submit(s, req, route, now, {}), tag, o);
    GrownFilled(s, Submit(s, req, route, now, {}), tag, o);
  }

  lemma NoClientSame(s: Oms, req: OrderRequest, route: Route, now: int, accepts: set<OrderId>)
    requires Shape(s) && req.workerOffset < SCRATCH_SLOTS && route.NoClient?
    ensures Submit(s, req, route, now, accepts) == s
  {
  }

  lemma ReachingClient(s: Oms, req: OrderRequest, route: Route)
    requires Shape(s)
    ensures ReachesVenue(s, route) ==> route.Client? && |s.free| > 0
    ensures SubmittedId(s, req, route) ==
      (if ReachesVenue(s, route) && route.result == Ok then Some(NextId(s, route.venue)) else None)
  {
  }

  /** Whatever the router and the venue answer, a submit adds exactly its own order to the open
      orders of the tag it bears, and none to any other tag. */
  lemma SubmitSends(s: Oms, req: OrderRequest, route: Route, now: int, accepts: set<OrderId>, tag: Tag)
    requires Inv(s) && Shape(s) && WellFormed(req, route) && req.workerOffset < SCRATCH_SLOTS
    ensures Inv(Submit(s, req, route, now, accepts))
    ensures Sends(s, Submit(s, req, route, now, accepts), req, SubmittedId(s, req, route), tag)
  {
    hide *;
    SubmitKeeps(s, req, route, now, accepts);
    InvIndexed(s);
    InvIndexed(Submit(s, req, route, now, accepts));
    ReachingClient(s, req, route);
    if route.NoVenue? {
      AllDownQuiet(s, req, now, accepts);
      QuietSends(s, Submit(s, req, route, now, accepts), req, tag);
    } else if route.NoClient? {
      NoClientSame(s, req, route, now, accepts);
      SelfQuiet(s);
      QuietSends(s, s, req, tag);
    } else {
      AcceptsUnused(s, req, route, now, accepts);
      if !ReachesVenue(s, route) {
        IdleQuiet(s, req, route, now);
        QuietSends(s, Submit(s, req, route, now, accepts), req, tag);
      } else if route.result == Ok {
        SentSends(s, req, route, now, tag);
      } else {
        RefusedSends(s, req, route, now, tag);
      }
    }
  }

  // ---- cancels and timeouts ----

  lemma CancelQuiet(s: Oms, id: OrderId, sent: bool)
    requires Shape(s)
    ensures Quiet(s, Cancel(s, id, sent))
  {
    hide Shape, Cancel, Quiet, Amends, CancelSent, CancelAccepted;
    if CancelAccepted(s, id, sent) {
      CancelAmends(s, id, sent);
      AcceptedCurrent(s, id, sent);
      AmendsQuiet(s, Cancel(s, id, sent), id, CancelSent(OrderOf(s, id)));
    } else {
      CancelIdle(s, id, sent);
      SelfQuiet(s);
    }
  }

  lemma AcceptedCurrent(s: Oms, id: OrderId, sent: bool)
    requires Shape(s) && CancelAccepted(s, id, sent)
    ensures IsCurrent(s, id)
  {
  }

  /** Every other operation of the order manager leaves the open orders of a tag as they are. */
  lemma OtherOpsQuiet(s: Oms, op: Op)
    requires Shape(s) && OpOk(op) && !op.Deliver? && !op.SubmitOp?
    ensures Quiet(s, Apply(s, op))
  {
    hide Shape, Cancel, Quiet, CheckAckTimeouts, Relabels, Flags;
    if op.CancelOp? {
      CancelQuiet(s, op.id, op.sent);
    } else if op.TimeoutsOp? {
      TimeoutsRelabel(s, op.now, op.timeout, op.accepts);
      RelabelsQuiet(s, Apply(s, op));
    } else {
      FlagOps(s, op);
      FlagsQuiet(s, Apply(s, op));
    }
  }
}
