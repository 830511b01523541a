/** The execution algorithms as objects, proved against the state machines on values. */
module ExecutionAlgos {
  import opened OrderIds
  import opened Orders
  import opened OrderManagerSpec
  import opened OrderManagerInvariants
  import opened OrderManagement
  import opened CouplingSteps
  import opened AlgoChildren
  import opened ExecutionAlgoSpec
  import opened Arithmetic
  import opened TwapSafety
  import opened Sums

  lemma SentInv(s: Oms, s': Oms, tag: Tag, id: Option<OrderId>, qty: int)
    requires TwapSafety.Sent(s, s', tag, id, qty)
    ensures Inv(s')
  {
  }

  lemma CancelsStep(s: Oms, order: seq<OrderId>, id: OrderId, sent: set<OrderId>)
    requires Shape(s)
    ensures CancelEach(s, order + [id], sent) == Cancel(CancelEach(s, order, sent), id, id in sent)
  {
    assert (order + [id])[..|order|] == order;
  }

  lemma CancelsInv(s: Oms, order: seq<OrderId>, sent: set<OrderId>, tag: Tag)
    requires Inv(s) && Shape(s)
    ensures Inv(CancelEach(s, order, sent))
  {
    hide *;
    CancelsSteady(s, order, sent, tag);
    SteadyInv(s, CancelEach(s, order, sent), tag);
  }

  lemma SendInv(d: Desk<Base>, tag: Tag, qty: int, price: int, ans: Answer)
    requires Inv(d.oms) && Shape(d.oms) && tag.offset < SCRATCH_SLOTS && AnswerOk(ans)
    ensures Inv(SendChild(d, tag, qty, price, ans).oms)
  {
    hide *;
    SendSends(d, tag, qty, price, ans);
    SentInv(d.oms, SendChild(d, tag, qty, price, ans).oms, tag, ChildId(d.oms, d.algo.parent, tag, qty, price, ans),
      qty);
  }

  lemma SendIs(d: Desk<Base>, tag: Tag, qty: int, price: int, ans: Answer)
    requires Shape(d.oms) && tag.offset < SCRATCH_SLOTS && qty > 0
    ensures
      var req := ChildRequest(d.algo.parent, tag, qty, price);
      var id := SubmittedId(d.oms, req, ans.route);
      && req.workerOffset < SCRATCH_SLOTS
      && SendChild(d, tag, qty, price, ans).oms == Submit(d.oms, req, ans.route, ans.now, ans.accepts)
      && (id.None? ==> SendChild(d, tag, qty, price, ans).algo == d.algo)
      && (id.Some? ==> (
            SendChild(d, tag, qty, price, ans).algo ==
              d.algo.(children := d.algo.children[id.value := qty], sent := d.algo.sent + qty)))
  {
    hide Submit, SubmittedId, Shape;
  }

  /** Child bookkeeping shared by both algorithms. */
  class AlgoBase {
    const om: OrderManager
    const tag: Tag
    var parent: Parent
    var filled: int
    var sentTotal: int
    var children: map<OrderId, int>
    var incomplete: bool
    var done: bool

    ghost function View(): Base reads this {
      Base(parent, filled, sentTotal, children, incomplete, done)
    }

    ghost predicate Valid()
      reads om, om.pool, om.pool.orders, om.pool.generation, om.pool.taken
    {
      om.Valid() && Inv(om.View()) && tag.offset < SCRATCH_SLOTS
    }

    constructor (om: OrderManager, tag: Tag, parent: Parent)
      ensures this.om == om && this.tag == tag && View() == NewBase(parent)
    {
      this.om, this.tag, this.parent := om, tag, parent;
      filled, sentTotal, children, incomplete, done := 0, 0, map[], false, false;
    }

    method Send(qty: int, price: int, ans: Answer)
      requires Valid() && AnswerOk(ans)
      modifies this, om, om.pool, om.pool.orders, om.pool.generation, om.pool.taken
      ensures Valid() && Shape(old(om.View()))
      ensures Desk(om.View(), View()) == SendChild(old(Desk(om.View(), View())), tag, qty, price, ans)
    {
      hide *;
      ghost var d := Desk(om.View(), View());
      Parts();
      if qty <= 0 {
        NothingSent(d, tag, qty, price, ans);
        return;
      }
      SendIs(d, tag, qty, price, ans);
      SendInv(d, tag, qty, price, ans);
      ViewIs();
      var req := ChildRequest(parent, tag, qty, price);
      var id := om.SubmitOrder(req, ans.route, ans.now, ans.accepts);
      Whole();
      if id.Some? {
        Record(id.value, qty);
      }
    }

    method Record(id: OrderId, qty: int)
      modifies this
      ensures View() == old(View()).(children := old(View()).children[id := qty], sent := old(View()).sent + qty)
    {
      children, sentTotal := children[id := qty], sentTotal + qty;
    }

    lemma ViewIs()
      ensures View().parent == parent && View().children == children
    {
    }

    lemma Parts()
      requires Valid()
      ensures om.Valid() && Inv(om.View()) && Shape(om.View()) && tag.offset < SCRATCH_SLOTS
    {
    }

    lemma Whole()
      requires om.Valid() && Inv(om.View()) && tag.offset < SCRATCH_SLOTS
      ensures Valid()
    {
    }

    /** A fill of one of the orders that bear the tag. */
    method OnFill(o: Order, qty: int)
      modifies this
      ensures View() == BaseFill(old(View()), o, qty)
    {
      filled := filled + qty;
      if o.id in children {
        if o.status.Filled? {
          children := children - {o.id};
        } else {
          children := children[o.id := o.Remaining()];
        }
      }
      if filled >= parent.qty {
        done := true;
      }
    }

    method OnGone(id: OrderId)
      modifies this
      ensures View() == BaseGone(old(View()), id)
    {
      children := children - {id};
    }

    /** Cancel every child; `order` is the order in which the map was walked. */
    method CancelChildren(sent: set<OrderId>) returns (ghost order: seq<OrderId>)
      requires Valid()
      modifies om, om.pool, om.pool.orders, om.pool.generation, om.pool.taken
      ensures Valid() && Shape(old(om.View())) && Lists(order, children.Keys)
      ensures om.View() == CancelEach(old(om.View()), order, sent)
    {
      hide *;
      ghost var s := om.View();
      Parts();
      order := [];
      var left := children.Keys;
      CancelsNone(s, sent);
      while left != {}
        invariant om.Valid() && Inv(s) && Shape(s) && left <= children.Keys
        invariant om.View() == CancelEach(s, order, sent)
        invariant forall id :: id in order <==> id in children.Keys - left
        invariant forall i, j :: 0 <= i < j < |order| ==> order[i] != order[j]
        decreases |left|
      {
        var id :| id in left;
        CancelsStep(s, order, id, sent);
        var ok := om.CancelOrder(id, id in sent);
        assert forall i :: 0 <= i < |order| ==> order[i] in order;
        order, left := order + [id], left - {id};
      }
      CancelsInv(s, order, sent, tag);
      Whole();
      ListsAll(order, children.Keys);
    }

    /** Open child quantity. */
    method OpenQuantity() returns (sum: int)
      ensures sum == InFlight(View())
    {
      sum := 0;
      var left := children;
      while left != map[]
        invariant sum + MapSum(left) == MapSum(children)
        decreases |left|
      {
        var id :| id in left;
        MapSumRemove(left, id);
        sum, left := sum + left[id], left - {id};
      }
    }

    method Finish(inflight: int)
      modifies this
      ensures View() == Conclude(old(View()), inflight)
    {
      if inflight == 0 {
        if filled < parent.qty {
          incomplete := true;
        }
        done := true;
      }
    }
  }

  lemma ListsAll(order: seq<OrderId>, ids: set<OrderId>)
    requires forall id :: id in order <==> id in ids
    requires forall i, j :: 0 <= i < j < |order| ==> order[i] != order[j]
    ensures Lists(order, ids)
  {
  }

  lemma CancelsNone(s: Oms, sent: set<OrderId>)
    requires Shape(s)
    ensures CancelEach(s, [], sent) == s
  {
  }

  lemma DueStep(d: Desk<Twap>, tag: Tag, now: int, m: Meeting)
    requires Shape(d.oms) && tag.offset < SCRATCH_SLOTS && SliceDue(d.algo, now)
    ensures FireSlices(d, tag, now, m) == FireSlices(FireSlice(d, tag, m.answers(d.algo.slicesDone)), tag, now, m)
  {
    hide FireSlice, Shape;
  }

  lemma DueOver(d: Desk<Twap>, tag: Tag, now: int, m: Meeting)
    requires Shape(d.oms) && tag.offset < SCRATCH_SLOTS && !SliceDue(d.algo, now)
    ensures FireSlices(d, tag, now, m) == d
  {
  }

  lemma AnswersOk(m: Meeting, k: nat)
    requires MeetingOk(m)
    ensures AnswerOk(m.answers(k)) && AnswerOk(m.cross)
  {
  }

  lemma TimerDone(d: Desk<Twap>, tag: Tag, now: int, m: Meeting)
    requires Shape(d.oms) && tag.offset < SCRATCH_SLOTS
    ensures d.algo.base.done ==> TwapTimer(d, tag, now, m) == d
    ensures !d.algo.base.done && now >= d.algo.base.parent.end ==> (
      var d' := TwapCross(d, tag, m);
      TwapTimer(d, tag, now, m) == Desk(d'.oms, d'.algo.(base := Conclude(d'.algo.base, InFlight(d'.algo.base)))))
    ensures !d.algo.base.done && now < d.algo.base.parent.end ==> (
      var d' := FireSlices(d, tag, now, m);
      TwapTimer(d, tag, now, m) ==
        Desk(d'.oms, d'.algo.(base := d'.algo.base.(done := d'.algo.base.done ||
          d'.algo.base.filled >= d'.algo.base.parent.qty))))
  {
    hide TwapCross, FireSlices, Conclude, InFlight, Shape;
  }

  /** Time-weighted execution: equal slices of what is left, then one cross at the deadline. */
  class TwapAlgo {
    const base: AlgoBase
    var slices: int
    var sliceDur: int
    var slicesDone: nat
    var deadlineDone: bool

    ghost function View(): Twap reads this, base {
      Twap(base.View(), slices, sliceDur, slicesDone, deadlineDone)
    }

    ghost function Desk(): Desk<Twap> reads this, base, base.om, base.om.pool {
      ExecutionAlgoSpec.Desk(base.om.View(), View())
    }

    constructor (om: OrderManager, tag: Tag, parent: Parent, slices: int)
      ensures fresh(base) && base.om == om && base.tag == tag && View() == StartTwap(parent, slices)
    {
      var n := Max(1, slices);
      var span := if parent.end > parent.start then parent.end - parent.start else 1;
      base := new AlgoBase(om, tag, parent);
      this.slices, sliceDur, slicesDone, deadlineDone := n, Max(1, span / n), 0, false;
    }

    lemma ViewIs()
      ensures View().base == base.View() && View().slices == slices && View().slicesDone == slicesDone
      ensures View().sliceDur == sliceDur && View().deadlineDone == deadlineDone
      ensures Desk() == ExecutionAlgoSpec.Desk(base.om.View(), View())
      ensures base.View().parent == base.parent && base.View().filled == base.filled && base.View().done == base.done
    {
    }

    /** The view after the base and the flags were set to these values. */
    lemma ViewBecomes(b: Base, done: nat, crossed: bool, t: Twap)
      requires b == base.View() && done == slicesDone && crossed == deadlineDone
      requires slices == t.slices && sliceDur == t.sliceDur
      ensures View() == t.(base := b, slicesDone := done, deadlineDone := crossed)
    {
    }

    method FireNext(ans: Answer)
      requires base.Valid() && AnswerOk(ans)
      modifies this`slicesDone, base, base.om, base.om.pool, base.om.pool.orders, base.om.pool.generation,
        base.om.pool.taken
      ensures base.Valid() && Shape(old(base.om.View())) && base.tag.offset < SCRATCH_SLOTS
      ensures Desk() == FireSlice(old(Desk()), base.tag, ans)
    {
      hide *;
      ghost var d := Desk();
      ViewIs();
      base.Parts();
      var inflight := base.OpenQuantity();
      var qty := SliceQty(Unsent(base.parent, base.filled, inflight), slices - slicesDone);
      SliceIs(d, base.tag, ans, qty);
      slicesDone := slicesDone + 1;
      base.Send(qty, base.parent.limit, ans);
      ViewBecomes(base.View(), slicesDone, deadlineDone, d.algo);
      ViewIs();
    }

    /** Every slice boundary that is due by now. */
    method FireDue(now: int, m: Meeting, ghost all: Meeting)
      requires base.Valid() && MeetingOk(m) && all == m.(order := all.order)
      modifies this`slicesDone, base, base.om, base.om.pool, base.om.pool.orders, base.om.pool.generation,
        base.om.pool.taken
      ensures base.Valid() && Shape(old(base.om.View())) && base.tag.offset < SCRATCH_SLOTS
      ensures Desk() == FireSlices(old(Desk()), base.tag, now, all)
    {
      hide *;
      ghost var d := Desk();
      ViewIs();
      base.Parts();
      DueIs(now);
      while slicesDone < slices && base.parent.start + slicesDone * sliceDur <= now
        invariant base.Valid() && Shape(d.oms) && Shape(Desk().oms) && base.tag.offset < SCRATCH_SLOTS
        invariant FireSlices(Desk(), base.tag, now, all) == FireSlices(d, base.tag, now, all)
        decreases slices - slicesDone
      {
        ghost var d1 := Desk();
        DueIs(now);
        ViewIs();
        DueStep(d1, base.tag, now, all);
        AnswersOk(m, slicesDone);
        SliceCounts(d1, base.tag, m.answers(slicesDone));
        FireNext(m.answers(slicesDone));
        ViewIs();
        base.Parts();
      }
      DueIs(now);
      ViewIs();
      DueOver(Desk(), base.tag, now, all);
    }

    lemma DueIs(now: int)
      ensures SliceDue(View(), now) <==> slicesDone < slices && base.parent.start + slicesDone * sliceDur <= now
    {
    }

    /** At the deadline, once: cancel the children and cross what is neither filled nor in flight. */
    method DeadlineCross(m: Meeting) returns (ghost order: seq<OrderId>)
      requires base.Valid() && MeetingOk(m)
      modifies this`deadlineDone, base, base.om, base.om.pool, base.om.pool.orders, base.om.pool.generation,
        base.om.pool.taken
      ensures base.Valid() && Shape(old(base.om.View())) && base.tag.offset < SCRATCH_SLOTS
      ensures Lists(order, old(base.children.Keys)) || old(deadlineDone)
      ensures Desk() == TwapCross(old(Desk()), base.tag, m.(order := order))
    {
      hide *;
      ghost var d := Desk();
      ViewIs();
      base.Parts();
      order := [];
      if deadlineDone {
        CrossOnce(d, base.tag, m.(order := order));
        return;
      }
      deadlineDone := true;
      order := base.CancelChildren(m.sent);
      ghost var s1 := base.om.View();
      base.Parts();
      var inflight := base.OpenQuantity();
      var residual := base.parent.qty - base.filled - inflight;
      AnswersOk(m, 0);
      CrossIs(d, base.tag, m.(order := order), residual);
      base.Send(residual, CrossPrice(base.parent, m.touch), m.cross);
      ViewBecomes(base.View(), slicesDone, deadlineDone, d.algo);
      ViewIs();
    }

    method OnTimer(now: int, m: Meeting) returns (ghost order: seq<OrderId>)
      requires base.Valid() && MeetingOk(m)
      modifies this, base, base.om, base.om.pool, base.om.pool.orders, base.om.pool.generation, base.om.pool.taken
      ensures base.Valid() && Shape(old(base.om.View())) && base.tag.offset < SCRATCH_SLOTS
      ensures Lists(order, old(base.children.Keys)) || old(deadlineDone || base.done || now < base.parent.end)
      ensures Desk() == TwapTimer(old(Desk()), base.tag, now, m.(order := order))
    {
      hide *;
      ghost var d := Desk();
      ViewIs();
      base.Parts();
      order := [];
      if base.done {
        TimerDone(d, base.tag, now, m.(order := order));
      } else if now >= base.parent.end {
        order := DeadlineCross(m);
        TimerDone(d, base.tag, now, m.(order := order));
        Close();
      } else {
        TimerDone(d, base.tag, now, m.(order := order));
        FireDue(now, m, m.(order := order));
        Reach();
      }
    }

    method Close()
      requires base.Valid()
      modifies base
      ensures base.Valid()
      ensures var d := old(Desk()); Desk() == d.(algo := d.algo.(base := Conclude(d.algo.base, InFlight(d.algo.base))))
    {
      var inflight := base.OpenQuantity();
      base.Finish(inflight);
    }

    method Reach()
      requires base.Valid()
      modifies base
      ensures base.Valid()
      ensures var d := old(Desk()); var b := d.algo.base;
        Desk() == d.(algo := d.algo.(base := b.(done := b.done || b.filled >= b.parent.qty)))
    {
      if base.filled >= base.parent.qty {
        base.done := true;
      }
    }

    /** A published event for an order that bears the tag. */
    method Tell(n: Notice)
      modifies base
      ensures View() == TellTwap(old(View()), n, base.tag)
    {
      if n.Silent? || !Bears(n.order, base.tag) || n.kind.ConfirmedEvent? { return; }
      if n.kind.PartialFillEvent? || n.kind.FillEvent? {
        base.OnFill(n.order, n.lastQty);
      } else {
        base.OnGone(n.order.id);
      }
    }
  }
}
