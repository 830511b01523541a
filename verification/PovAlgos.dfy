/** POV as an object that comes to hold a TWAP, proved against the state machine on values. */
module PovAlgos {
  import opened OrderIds
  import opened Orders
  import opened OrderManagerSpec
  import opened OrderManagement
  import opened CouplingSteps
  import opened AlgoChildren
  import opened ExecutionAlgoSpec
  import opened ExecutionAlgos
  import opened TwapSafety
  import opened PovSafety

  lemma CrossCases(d: Desk<Pov>, cfg: PovConfig, now: int, m: Meeting)
    requires Shape(d.oms) && cfg.tag.offset < SCRATCH_SLOTS
    ensures d.algo.deadlineDone ==> PovCross(d, cfg, now, m) == d
    ensures !d.algo.deadlineDone && d.algo.held.Some? ==> (
      var d' := HeldTimer(d, cfg, now, m);
      PovCross(d, cfg, now, m) == Desk(d'.oms, d'.algo.(deadlineDone := true)))
    ensures !d.algo.deadlineDone && d.algo.held.None? ==> (
      var b := d.algo.base;
      var d' := SendChild(Desk(CancelEach(d.oms, m.order, m.sent), b), cfg.tag, b.parent.qty - b.filled,
                          CrossPrice(b.parent, m.touch), m.cross);
      PovCross(d, cfg, now, m) == Desk(d'.oms, d.algo.(base := d'.algo, deadlineDone := true)))
  {
    hide SendChild, CancelEach, HeldTimer, Shape;
  }

  lemma TimerCases(d: Desk<Pov>, cfg: PovConfig, now: int, m: Meeting)
    requires Shape(d.oms) && cfg.tag.offset < SCRATCH_SLOTS
    ensures d.algo.base.done ==> PovTimer(d, cfg, now, m) == d
    ensures !d.algo.base.done && now >= d.algo.base.parent.end ==> (
      var d' := PovCross(d, cfg, now, m);
      PovTimer(d, cfg, now, m) == Desk(d'.oms, d'.algo.(base := Conclude(d'.algo.base, PovInFlight(d'.algo)))))
    ensures !d.algo.base.done && now < d.algo.base.parent.end && d.algo.held.Some? ==> (
      var d' := HeldTimer(d, cfg, now, m);
      && d'.algo.held.Some?
      && PovTimer(d, cfg, now, m) ==
        Desk(d'.oms, d'.algo.(base := d'.algo.base.(done := d'.algo.held.value.base.done))))
    ensures !d.algo.base.done && now < d.algo.base.parent.end && d.algo.held.None? ==>
      PovTimer(d, cfg, now, m) == PovInterval(d, cfg, now, m)
  {
    HeldStays(d, cfg, now, m);
    hide PovCross, HeldTimer, PovInterval, Conclude, PovInFlight, Shape;
  }

  lemma HeldStays(d: Desk<Pov>, cfg: PovConfig, now: int, m: Meeting)
    requires Shape(d.oms) && cfg.tag.offset < SCRATCH_SLOTS
    ensures d.algo.held.Some? ==>
      HeldTimer(d, cfg, now, m).algo.held.Some? && HeldTimer(d, cfg, now, m).algo.base == d.algo.base
  {
    hide TwapTimer, Shape;
  }

  /** Percentage-of-volume execution: a share of the observed volume each interval. */
  class PovAlgo {
    const base: AlgoBase
    const cfg: PovConfig
    var lastTick: int
    var volume: int
    var idle: nat
    var held: TwapAlgo?
    var deadlineDone: bool

    ghost function Owned(): set<object> reads this {
      {this, base} + if held == null then {} else {held, held.base}
    }

    ghost function View(): Pov reads this, Owned() {
      Pov(base.View(), lastTick, volume, idle, if held == null then None else Some(held.View()), deadlineDone)
    }

    ghost function Desk(): Desk<Pov> reads this, Owned(), base.om, base.om.pool {
      ExecutionAlgoSpec.Desk(base.om.View(), View())
    }

    ghost predicate Linked() reads this {
      && base.tag == cfg.tag
      && (held != null ==> held.base != base && held.base.om == base.om && held.base.tag == base.tag)
    }

    constructor (om: OrderManager, cfg: PovConfig, parent: Parent)
      ensures fresh(base) && base.om == om && this.cfg == cfg && Linked() && View() == StartPov(parent)
    {
      base := new AlgoBase(om, cfg.tag, parent);
      this.cfg := cfg;
      lastTick, volume, idle, held, deadlineDone := parent.start, 0, 0, null, false;
    }

    lemma ViewIs()
      requires Linked()
      ensures Desk() == ExecutionAlgoSpec.Desk(base.om.View(), View()) && base.tag == cfg.tag
      ensures View().base == base.View() && View().deadlineDone == deadlineDone
      ensures View().lastTick == lastTick && View().volume == volume && View().idle == idle
      ensures View().held == if held == null then None else Some(held.View())
      ensures held != null ==> held.base != base && held.base.om == base.om && held.base.tag == base.tag
      ensures base.View().parent == base.parent && base.View().filled == base.filled && base.View().done == base.done
      ensures base.View().children == base.children
    {
    }

    /** The held TWAP is bound to the same order manager and tag, so it is in order whenever POV is. */
    lemma HeldValid()
      requires held != null && Linked() && base.Valid()
      ensures held.base.Valid()
    {
    }

    lemma OwnValid()
      requires held != null && Linked() && held.base.Valid()
      ensures base.Valid()
    {
    }

    lemma HeldDesk()
      requires held != null && Linked()
      ensures held.Desk() == ExecutionAlgoSpec.Desk(base.om.View(), held.View())
    {
    }

    method OnHeldTimer(now: int, m: Meeting) returns (ghost order: seq<OrderId>)
      requires Linked() && base.Valid() && MeetingOk(m) && held != null
      modifies Owned(), base.om, base.om.pool, base.om.pool.orders, base.om.pool.generation, base.om.pool.taken
      ensures Linked() && base.Valid() && held == old(held) && Shape(old(base.om.View())) &&
        cfg.tag.offset < SCRATCH_SLOTS
      ensures old(View()).held.Some?
      ensures Desk() == HeldTimer(old(Desk()), cfg, now, m.(order := order))
      ensures base.View() == old(base.View()) && deadlineDone == old(deadlineDone)
      ensures lastTick == old(lastTick) && volume == old(volume) && idle == old(idle)
    {
      hide *;
      ghost var d := Desk();
      ViewIs();
      base.Parts();
      HeldValid();
      HeldDesk();
      OwnedIs();
      order := held.OnTimer(now, m);
      LinkedStill();
      OwnValid();
      ViewIs();
      HeldDesk();
      HeldTimerIs(d, cfg, now, m.(order := order));
      ViewBecomes(d.algo.(held := Some(held.View())));
    }

    lemma OwnedIs()
      requires Linked()
      ensures Owned() == {this, base} + if held == null then {} else {held, held.base}
    {
    }

    twostate lemma LinkedStill()
      requires old(Linked()) && held == old(held)
      ensures Linked()
    {
    }

    lemma ViewBecomes(p: Pov)
      requires p.base == base.View() && p.deadlineDone == deadlineDone
      requires p.lastTick == lastTick && p.volume == volume && p.idle == idle
      requires p.held == if held == null then None else Some(held.View())
      ensures View() == p
    {
    }

    /** Fall back to a TWAP over the rest of the window. */
    method DegradeToTwap(now: int)
      requires Linked() && held == null
      modifies this`held
      ensures Linked() && held != null && fresh(held) && fresh(held.base)
      ensures View() == Degrade(old(View()), cfg, now)
    {
      var inflight := base.OpenQuantity();
      var resid := base.parent.(qty := Unsent(base.parent, base.filled, inflight), start := now);
      held := new TwapAlgo(base.om, base.tag, resid, cfg.residualSlices);
    }

    method DeadlineCross(now: int, m: Meeting) returns (ghost order: seq<OrderId>)
      requires Linked() && base.Valid() && MeetingOk(m)
      modifies Owned(), base.om, base.om.pool, base.om.pool.orders, base.om.pool.generation, base.om.pool.taken
      ensures Linked() && base.Valid() && held == old(held) && Shape(old(base.om.View())) &&
        cfg.tag.offset < SCRATCH_SLOTS
      ensures Desk() == PovCross(old(Desk()), cfg, now, m.(order := order))
    {
      hide *;
      ghost var d := Desk();
      ViewIs();
      base.Parts();
      OwnedIs();
      order := [];
      if deadlineDone {
        CrossCases(d, cfg, now, m.(order := order));
      } else if held != null {
        order := OnHeldTimer(now, m);
        CrossCases(d, cfg, now, m.(order := order));
        FlagDeadline();
      } else {
        order := CrossOwn(m);
        CrossCases(d, cfg, now, m.(order := order));
      }
    }

    method FlagDeadline()
      requires Linked() && base.Valid()
      modifies this`deadlineDone
      ensures Linked() && base.Valid() && Desk() == old(Desk()).(algo := old(Desk()).algo.(deadlineDone := true))
    {
      deadlineDone := true;
    }

    /** Cancel the children and cross what is not filled. */
    method CrossOwn(m: Meeting) returns (ghost order: seq<OrderId>)
      requires Linked() && base.Valid() && MeetingOk(m) && held == null
      modifies this`deadlineDone, base, base.om, base.om.pool, base.om.pool.orders, base.om.pool.generation,
        base.om.pool.taken
      ensures Linked() && base.Valid() && Shape(old(base.om.View())) && cfg.tag.offset < SCRATCH_SLOTS
      ensures Lists(order, old(base.children.Keys))
      ensures
        var d := old(Desk());
        var b := d.algo.base;
        var d' := SendChild(ExecutionAlgoSpec.Desk(CancelEach(d.oms, order, m.sent), b), cfg.tag,
          b.parent.qty - b.filled,
                            CrossPrice(b.parent, m.touch), m.cross);
        Desk() == ExecutionAlgoSpec.Desk(d'.oms, d.algo.(base := d'.algo, deadlineDone := true))
    {
      hide *;
      ghost var d := Desk();
      ViewIs();
      base.Parts();
      AnswersOk(m, 0);
      deadlineDone := true;
      order := base.CancelChildren(m.sent);
      base.Parts();
      base.Send(base.parent.qty - base.filled, CrossPrice(base.parent, m.touch), m.cross);
      LinkedStill();
      ViewIs();
      ViewBecomes(d.algo.(base := base.View(), deadlineDone := true));
    }

    /** One interval of observed volume: idle, degrade, or send a share of it. */
    method OnInterval(now: int, m: Meeting) returns (ghost order: seq<OrderId>)
      requires Linked() && base.Valid() && MeetingOk(m) && held == null
      modifies Owned(), base.om, base.om.pool, base.om.pool.orders, base.om.pool.generation, base.om.pool.taken
      ensures Linked() && base.Valid() && Shape(old(base.om.View())) && cfg.tag.offset < SCRATCH_SLOTS
      ensures Desk() == PovInterval(old(Desk()), cfg, now, m.(order := order))
    {
      hide *;
      ghost var d := Desk();
      ViewIs();
      base.Parts();
      OwnedIs();
      order := [];
      ghost var p := Ticked(d.algo, now, m.volume);
      IntervalIs(d, cfg, now, m.(order := order));
      SameInterval(p, cfg, m, order);
      Tick(now, m.volume);
      base.Parts();
      ViewIs();
      IntervalTests(p, cfg, m);
      if m.volume < cfg.volumeFloor || m.volume <= 0 {
        CountIdle();
      } else if cfg.catchUp > 0 && VolumeShare(cfg, volume) - base.filled > cfg.catchUp {
        DegradeToTwap(now);
        ViewIs();
        OwnedIs();
        order := OnHeldTimer(now, m);
        IntervalIs(d, cfg, now, m.(order := order));
        SameInterval(p, cfg, m, order);
      } else {
        SendShare(m);
      }
    }

    lemma SameInterval(p: Pov, cfg: PovConfig, m: Meeting, order: seq<OrderId>)
      ensures Idles(cfg, m.(order := order)) <==> Idles(cfg, m)
      ensures ShareQty(p, cfg, m.(order := order)) == ShareQty(p, cfg, m)
    {
    }

    lemma IntervalTests(p: Pov, cfg: PovConfig, m: Meeting)
      ensures Idles(cfg, m) <==> m.volume < cfg.volumeFloor || m.volume <= 0
      ensures FallsBehind(p, cfg) <==> cfg.catchUp > 0 && VolumeShare(cfg, p.volume) - p.base.filled > cfg.catchUp
    {
    }

    method Tick(now: int, seen: int)
      requires Linked() && base.Valid()
      modifies this`lastTick, this`volume
      ensures Linked() && base.Valid() && Desk() == old(Desk()).(algo := Ticked(old(Desk()).algo, now, seen))
    {
      lastTick, volume := now, volume + seen;
    }

    method CountIdle()
      requires Linked() && base.Valid()
      modifies this`idle
      ensures Linked() && base.Valid() && Desk() ==
        old(Desk()).(algo := old(Desk()).algo.(idle := old(Desk()).algo.idle + 1))
    {
      idle := idle + 1;
    }

    method SendShare(m: Meeting)
      requires Linked() && base.Valid() && MeetingOk(m) && held == null
      modifies base, base.om, base.om.pool, base.om.pool.orders, base.om.pool.generation, base.om.pool.taken
      ensures Linked() && base.Valid() && Shape(old(base.om.View())) && cfg.tag.offset < SCRATCH_SLOTS
      ensures
        var d := old(Desk());
        var p := d.algo;
        var d' := SendChild(ExecutionAlgoSpec.Desk(d.oms, p.base), cfg.tag, ShareQty(p, cfg, m), p.base.parent.limit,
          m.cross);
        Desk() == ExecutionAlgoSpec.Desk(d'.oms, p.(base := d'.algo))
    {
      hide *;
      ghost var d := Desk();
      ViewIs();
      base.Parts();
      AnswersOk(m, 0);
      var inflight := base.OpenQuantity();
      var share, rem := VolumeShare(cfg, m.volume), Unsent(base.parent, base.filled, inflight);
      var qty := if share > rem then rem else share;
      ShareIs(d.algo, cfg, m, inflight, share, rem);
      base.Send(qty, base.parent.limit, m.cross);
      LinkedStill();
      ViewIs();
      ViewBecomes(d.algo.(base := base.View()));
    }

    lemma ShareIs(p: Pov, cfg: PovConfig, m: Meeting, inflight: int, share: int, rem: int)
      requires p.held.None? && inflight == InFlight(p.base)
      requires share == VolumeShare(cfg, m.volume) && rem == Unsent(p.base.parent, p.base.filled, inflight)
      ensures ShareQty(p, cfg, m) == if share > rem then rem else share
    {
    }

    /** Own children, plus those of the held TWAP. */
    method OpenQuantity() returns (sum: int)
      ensures sum == PovInFlight(View())
    {
      sum := base.OpenQuantity();
      if held != null {
        var more := held.base.OpenQuantity();
        sum := sum + more;
      }
    }

    method OnTimer(now: int, m: Meeting) returns (ghost order: seq<OrderId>)
      requires Linked() && base.Valid() && MeetingOk(m)
      modifies Owned(), base.om, base.om.pool, base.om.pool.orders, base.om.pool.generation, base.om.pool.taken
      ensures Linked() && base.Valid() && Shape(old(base.om.View())) && cfg.tag.offset < SCRATCH_SLOTS
      ensures Desk() == PovTimer(old(Desk()), cfg, now, m.(order := order))
    {
      hide *;
      ghost var d := Desk();
      ViewIs();
      base.Parts();
      OwnedIs();
      order := [];
      if base.done {
        TimerCases(d, cfg, now, m.(order := order));
      } else if now >= base.parent.end {
        order := DeadlineCross(now, m);
        TimerCases(d, cfg, now, m.(order := order));
        Close();
      } else if held != null {
        order := OnHeldTimer(now, m);
        TimerCases(d, cfg, now, m.(order := order));
        ViewIs();
        FollowHeld();
      } else {
        order := OnInterval(now, m);
        TimerCases(d, cfg, now, m.(order := order));
      }
    }

    method Close()
      requires Linked() && base.Valid()
      modifies base
      ensures Linked() && base.Valid()
      ensures var d := old(Desk()); Desk() == d.(algo := d.algo.(base := Conclude(d.algo.base, PovInFlight(d.algo))))
    {
      hide *;
      ghost var d := Desk();
      ViewIs();
      base.Parts();
      var inflight := OpenQuantity();
      ViewBecomes(d.algo);
      base.Finish(inflight);
      LinkedStill();
      base.Whole();
      ViewIs();
      ViewBecomes(d.algo.(base := base.View()));
    }

    method FollowHeld()
      requires Linked() && base.Valid() && held != null && !base.done
      modifies base
      ensures Linked() && base.Valid()
      ensures var d := old(Desk());
        && d.algo.held.Some?
        && Desk() == d.(algo := d.algo.(base := d.algo.base.(done := d.algo.held.value.base.done)))
    {
      if held.base.done {
        base.done := true;
      }
    }

    /** A published event for an order that bears the tag: own children first, else the held TWAP's. */
    method Tell(n: Notice)
      requires Linked()
      modifies Owned()
      ensures Linked() && View() == TellPov(old(View()), n, cfg.tag)
    {
      if n.Silent? || !Bears(n.order, cfg.tag) || n.kind.ConfirmedEvent? { return; }
      var own := n.order.id in base.children;
      if n.kind.PartialFillEvent? || n.kind.FillEvent? {
        base.OnFill(n.order, n.lastQty);
        if !own && held != null {
          held.base.OnFill(n.order, n.lastQty);
        }
      } else {
        base.OnGone(n.order.id);
        if !own && held != null {
          held.base.OnGone(n.order.id);
        }
      }
    }
  }
}
