/**
 The execution algorithms as state machines on values, run against the order manager. What the
 router, the venue, the clock and the market data answer is a parameter of each timer.
 */
module ExecutionAlgoSpec {
  import opened OrderIds
  import opened Orders
  import opened OrderManagerSpec
  import opened AlgoChildren
  import opened Sums
  import opened Arithmetic

  datatype Parent = Parent(instrument: nat, side: Side, qty: int, start: int, end: int, limit: int)

  /** What one submit meets: the router and venue, the clock, and the cancels an all-down sends. */
  datatype Answer = Answer(route: Route, now: int, accepts: set<OrderId>)

  /** What one timer meets. `order` lists the children in the order their map is walked, `sent` those
      whose venue takes the cancel, `touch` is the price on the other side of the book (0: none),
      `volume` the volume traded since the last tick. */
  datatype Meeting = Meeting(
    answers: nat -> Answer, cross: Answer, touch: int, order: seq<OrderId>, sent: set<OrderId>, volume: int)

  /** Child bookkeeping shared by both algorithms; `children` maps ids to what they have left. */
  datatype Base = Base(
    parent: Parent, filled: int, sent: int, children: map<OrderId, int>, incomplete: bool, done: bool)

  /** An algorithm next to the order manager it sends to. */
  datatype Desk<+A> = Desk(oms: Oms, algo: A)

  function CeilDiv(a: int, b: int): int {
    if b <= 0 then a else TruncDiv(a + b - 1, b)
  }

  function NewBase(p: Parent): Base {
    Base(p, 0, 0, map[], false, false)
  }

  function ChildRequest(p: Parent, tag: Tag, qty: int, price: int): OrderRequest {
    OrderRequest(p.instrument, p.side, qty, price, tag.index, tag.offset, false)
  }

  lemma ReleaseShape(s: Oms, slot: nat)
    requires Shape(s) && slot < |s.recycles|
    ensures Shape(Release(s, slot))
  {
  }

  lemma EvictShape(s: Oms)
    requires Shape(s)
    ensures Shape(Evict(s))
  {
    if |s.retired| > RETIRED_GRACE {
      var s1 := s.(retired := s.retired[1..], benign := s.benign - {s.retired[0]});
      assert Shape(s1);
      if IsCurrent(s1, s.retired[0]) {
        ReleaseShape(s1, s.retired[0].slot);
      }
    }
    hide Release, Shape;
  }

  lemma CloseShape(s: Oms, id: OrderId, o: Order)
    requires Shape(s) && IsCurrent(s, id)
    ensures Shape(Close(s, id, o))
  {
    hide Evict;
    forall s1: Oms | Shape(s1) ensures Shape(Evict(s1)) {
      EvictShape(s1);
    }
  }

  lemma RegisterShape(s: Oms, req: OrderRequest, venue: nat)
    requires Shape(s) && |s.free| > 0 && req.workerOffset < SCRATCH_SLOTS
    ensures
      var o := NewOrder(s, req, venue);
      var s1 := Register(s, o);
      && Shape(s1) && Shape(CountReject(s1)) && IsCurrent(CountReject(s1), o.id)
      && forall o' :: |s1.book| > 0 && Shape(Settle(s1, o'))
  {
  }

  lemma SubmitShape(s: Oms, req: OrderRequest, ans: Answer)
    requires Shape(s) && req.workerOffset < SCRATCH_SLOTS
    ensures Shape(Submit(s, req, ans.route, ans.now, ans.accepts))
  {
    if ReachesVenue(s, ans.route) {
      var o := NewOrder(s, req, ans.route.venue);
      hide Shape, Close, Settle, NewOrder, Register, CountReject, IsCurrent;
      RegisterShape(s, req, ans.route.venue);
      CloseShape(CountReject(Register(s, o)), o.id, o.(status := Rejected));
    } else {
      UnsentShape(s, req, ans);
    }
  }

  lemma UnsentShape(s: Oms, req: OrderRequest, ans: Answer)
    requires Shape(s) && req.workerOffset < SCRATCH_SLOTS && !ReachesVenue(s, ans.route)
    ensures Shape(Submit(s, req, ans.route, ans.now, ans.accepts))
  {
    hide Close, Settle, NewOrder, Register, CountReject, CancelWorking, Shape;
    SameShape(s);
    WorkingShape(s.(incomplete := true), ans.accepts);
  }

  lemma SameShape(s: Oms)
    requires Shape(s)
    ensures Shape(s.(incomplete := true)) && Shape(s.(killed := true))
  {
  }

  lemma WorkingShape(s: Oms, accepts: set<OrderId>)
    requires Shape(s)
    ensures Shape(CancelWorking(s, accepts))
  {
  }

  function SendChild(d: Desk<Base>, tag: Tag, qty: int, price: int, ans: Answer): (d': Desk<Base>)
    requires Shape(d.oms) && tag.offset < SCRATCH_SLOTS
    ensures Shape(d'.oms)
  {
    if qty <= 0 then d
    else
      var req := ChildRequest(d.algo.parent, tag, qty, price);
      var id := SubmittedId(d.oms, req, ans.route);
      SubmitShape(d.oms, req, ans);
      Desk(Submit(d.oms, req, ans.route, ans.now, ans.accepts),
           if id.None? then d.algo
           else d.algo.(children := d.algo.children[id.value := qty], sent := d.algo.sent + qty))
  }

  function BaseFill(b: Base, o: Order, qty: int): Base {
    var filled := b.filled + qty;
    b.(filled := filled,
       children := if o.id !in b.children then b.children
                   else if o.status.Filled? then b.children - {o.id}
                   else b.children[o.id := o.Remaining()],
       done := b.done || filled >= b.parent.qty)
  }

  function BaseGone(b: Base, id: OrderId): Base {
    b.(children := b.children - {id})
  }

  function CancelEach(s: Oms, order: seq<OrderId>, sent: set<OrderId>): (r: Oms)
    requires Shape(s)
    ensures Shape(r)
    decreases |order|
  {
    if |order| == 0 then s
    else
      var before := CancelEach(s, order[..|order| - 1], sent);
      Cancel(before, order[|order| - 1], order[|order| - 1] in sent)
  }

  /** Open child quantity. */
  ghost function InFlight(b: Base): int {
    MapSum(b.children)
  }

  function CrossPrice(p: Parent, touch: int): int {
    if touch > 0 then touch else p.limit
  }

  // ---- TWAP ----

  datatype Twap = Twap(base: Base, slices: int, sliceDur: int, slicesDone: nat, deadlineDone: bool)

  function StartTwap(p: Parent, slices: int): Twap {
    var n := Max(1, slices);
    var span := if p.end > p.start then p.end - p.start else 1;
    Twap(NewBase(p), n, Max(1, span / n), 0, false)
  }

  predicate SliceDue(t: Twap, now: int) {
    t.slicesDone < t.slices && t.base.parent.start + t.slicesDone * t.sliceDur <= now
  }

  function SliceQty(rem: int, left: int): int {
    var qty := if left <= 1 then rem else CeilDiv(rem, left);
    if qty > rem then rem else qty
  }

  /** target - filled - in flight, but not below 0 */
  function Unsent(p: Parent, filled: int, inflight: int): int {
    Max(p.qty - filled - inflight, 0)
  }

  ghost function FireSlice(d: Desk<Twap>, tag: Tag, ans: Answer): (d': Desk<Twap>)
    requires Shape(d.oms) && tag.offset < SCRATCH_SLOTS
    ensures Shape(d'.oms)
  {
    var b := d.algo.base;
    var qty := SliceQty(Unsent(b.parent, b.filled, InFlight(b)), d.algo.slices - d.algo.slicesDone);
    var d' := SendChild(Desk(d.oms, b), tag, qty, b.parent.limit, ans);
    Desk(d'.oms, d.algo.(base := d'.algo, slicesDone := d.algo.slicesDone + 1))
  }

  /** Every slice boundary that is due, one after another. */
  ghost function FireSlices(d: Desk<Twap>, tag: Tag, now: int, m: Meeting): Desk<Twap>
    requires Shape(d.oms) && tag.offset < SCRATCH_SLOTS
    decreases d.algo.slices - d.algo.slicesDone
  {
    if !SliceDue(d.algo, now) then d
    else
      var d' := FireSlice(d, tag, m.answers(d.algo.slicesDone));
      FireSlices(d', tag, now, m)
  }

  /** At the deadline, once: cancel the children and cross what is neither filled nor in flight. */
  ghost function TwapCross(d: Desk<Twap>, tag: Tag, m: Meeting): Desk<Twap>
    requires Shape(d.oms) && tag.offset < SCRATCH_SLOTS
  {
    if d.algo.deadlineDone then d
    else
      var b := d.algo.base;
      var residual := b.parent.qty - b.filled - InFlight(b);
      var d' := SendChild(Desk(CancelEach(d.oms, m.order, m.sent), b), tag, residual, CrossPrice(b.parent, m.touch),
        m.cross);
      Desk(d'.oms, d.algo.(base := d'.algo, deadlineDone := true))
  }

  /** Done once nothing is in flight any more; incomplete if the target was not reached. */
  ghost function Conclude(b: Base, inflight: int): Base {
    if inflight != 0 then b else b.(incomplete := b.incomplete || b.filled < b.parent.qty, done := true)
  }

  ghost function TwapTimer(d: Desk<Twap>, tag: Tag, now: int, m: Meeting): Desk<Twap>
    requires Shape(d.oms) && tag.offset < SCRATCH_SLOTS
  {
    if d.algo.base.done then d
    else if now >= d.algo.base.parent.end then
      var d' := TwapCross(d, tag, m);
      Desk(d'.oms, d'.algo.(base := Conclude(d'.algo.base, InFlight(d'.algo.base))))
    else
      var d' := FireSlices(d, tag, now, m);
      var b := d'.algo.base;
      Desk(d'.oms, d'.algo.(base := b.(done := b.done || b.filled >= b.parent.qty)))
  }

  // ---- POV ----

  datatype PovConfig = PovConfig(
    tag: Tag, rate: real, volumeFloor: int, catchUp: int, residualSlices: int)

  datatype Pov = Pov(base: Base, lastTick: int, volume: int, idle: nat, held: Option<Twap>, deadlineDone: bool)

  function StartPov(p: Parent): Pov {
    Pov(NewBase(p), p.start, 0, 0, None, false)
  }

  /** The configured share of a traded volume. */
  function VolumeShare(cfg: PovConfig, volume: int): int {
    Trunc(cfg.rate * volume as real)
  }

  /** Own children, plus those of the held TWAP. */
  ghost function PovInFlight(p: Pov): int {
    InFlight(p.base) + (if p.held.Some? then InFlight(p.held.value.base) else 0)
  }

  function PovFill(p: Pov, o: Order, qty: int): Pov {
    var held := if o.id in p.base.children || p.held.None? then p.held
                else Some(p.held.value.(base := BaseFill(p.held.value.base, o, qty)));
    p.(base := BaseFill(p.base, o, qty), held := held)
  }

  function PovGone(p: Pov, id: OrderId): Pov {
    var held := if id in p.base.children || p.held.None? then p.held
                else Some(p.held.value.(base := BaseGone(p.held.value.base, id)));
    p.(base := BaseGone(p.base, id), held := held)
  }

  /** Hand the residual over the rest of the window to a TWAP. */
  ghost function Degrade(p: Pov, cfg: PovConfig, now: int): Pov {
    var resid := p.base.parent.(qty := Unsent(p.base.parent, p.base.filled, PovInFlight(p)), start := now);
    p.(held := Some(StartTwap(resid, cfg.residualSlices)))
  }

  ghost function HeldTimer(d: Desk<Pov>, cfg: PovConfig, now: int, m: Meeting): Desk<Pov>
    requires Shape(d.oms) && cfg.tag.offset < SCRATCH_SLOTS && d.algo.held.Some?
  {
    var d' := TwapTimer(Desk(d.oms, d.algo.held.value), cfg.tag, now, m);
    Desk(d'.oms, d.algo.(held := Some(d'.algo)))
  }

  /** At the deadline, once: a held TWAP runs its own deadline; else cancel the children and cross
      what is not filled, without subtracting what is still in flight. */
  ghost function PovCross(d: Desk<Pov>, cfg: PovConfig, now: int, m: Meeting): Desk<Pov>
    requires Shape(d.oms) && cfg.tag.offset < SCRATCH_SLOTS
  {
    if d.algo.deadlineDone then d
    else if d.algo.held.Some? then
      var d' := HeldTimer(d, cfg, now, m);
      Desk(d'.oms, d'.algo.(deadlineDone := true))
    else
      var b := d.algo.base;
      var d' := SendChild(Desk(CancelEach(d.oms, m.order, m.sent), b), cfg.tag, b.parent.qty - b.filled,
                          CrossPrice(b.parent, m.touch), m.cross);
      Desk(d'.oms, d.algo.(base := d'.algo, deadlineDone := true))
  }

  /** One interval of observed volume: idle, degrade, or send a share of the volume. */
  ghost function PovInterval(d: Desk<Pov>, cfg: PovConfig, now: int, m: Meeting): Desk<Pov>
    requires Shape(d.oms) && cfg.tag.offset < SCRATCH_SLOTS
  {
    var p := d.algo.(lastTick := now, volume := d.algo.volume + m.volume);
    if m.volume < cfg.volumeFloor || m.volume <= 0 then Desk(d.oms, p.(idle := p.idle + 1))
    else if cfg.catchUp > 0 && VolumeShare(cfg, p.volume) - p.base.filled > cfg.catchUp then
      HeldTimer(Desk(d.oms, Degrade(p, cfg, now)), cfg, now, m)
    else
      var share := VolumeShare(cfg, m.volume);
      var rem := Unsent(p.base.parent, p.base.filled, PovInFlight(p));
      var d' := SendChild(Desk(d.oms, p.base), cfg.tag,
                          if share > rem then rem else share, p.base.parent.limit, m.cross);
      Desk(d'.oms, p.(base := d'.algo))
  }

  ghost function PovTimer(d: Desk<Pov>, cfg: PovConfig, now: int, m: Meeting): Desk<Pov>
    requires Shape(d.oms) && cfg.tag.offset < SCRATCH_SLOTS
  {
    if d.algo.base.done then d
    else if now >= d.algo.base.parent.end then
      var d' := PovCross(d, cfg, now, m);
      Desk(d'.oms, d'.algo.(base := Conclude(d'.algo.base, PovInFlight(d'.algo))))
    else if d.algo.held.Some? then
      var d' := HeldTimer(d, cfg, now, m);
      Desk(d'.oms, d'.algo.(base := d'.algo.base.(done := d'.algo.held.value.base.done)))
    else PovInterval(d, cfg, now, m)
  }

  // ---- routing ----

  /** What the dispatcher does to one registered TWAP with a published event. */
  function TellTwap(t: Twap, n: Notice, tag: Tag): Twap {
    if n.Silent? || !Bears(n.order, tag) || n.kind.ConfirmedEvent? then t
    else if IsFill(n, tag) then t.(base := BaseFill(t.base, n.order, n.lastQty))
    else t.(base := BaseGone(t.base, n.order.id))
  }

  function TellPov(p: Pov, n: Notice, tag: Tag): Pov {
    if n.Silent? || !Bears(n.order, tag) || n.kind.ConfirmedEvent? then p
    else if IsFill(n, tag) then PovFill(p, n.order, n.lastQty)
    else PovGone(p, n.order.id)
  }

  /** Exactly whose fills an algorithm registered under tag b hears of: those of requests tagged b and,
      if its index is 0, those of every request tagged at another slot of the scratch array, among them
      the requests that name no worker. */
  lemma HearsExactly(req: OrderRequest, b: Tag)
    requires req.workerOffset < SCRATCH_SLOTS && b.offset < SCRATCH_SLOTS
    ensures Stamps(req, b) <==>
      if req.workerOffset == b.offset then req.workerIndex == b.index else b.index == 0
  {
  }
}
