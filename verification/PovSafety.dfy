/** POV, holding a TWAP once it has fallen behind: what is filled and in flight stays within the parent. */
module PovSafety {
  import opened OrderIds
  import opened Orders
  import opened OrderManagerSpec
  import opened OrderManagerInvariants
  import opened OrderManagerSteps
  import opened OrderManagerKeeps
  import opened OrderManagerRuns
  import opened CouplingSteps
  import opened AlgoChildren
  import opened ExecutionAlgoSpec
  import opened Arithmetic
  import opened TwapSafety
  import opened TwapSlicing
  import opened Sums

  ghost function HeldChildren(p: Pov): map<OrderId, int> {
    if p.held.Some? then p.held.value.base.children else map[]
  }

  /** While POV works alone, before its deadline, its own book is within the parent order. Once it
      holds a TWAP, the held target leaves room for its own fills and children. */
  ghost predicate PovOk(p: Pov) {
    && p.base.filled >= 0 && Positive(p.base.children)
    && (p.held.None? && !p.deadlineDone ==> p.base.filled + InFlight(p.base) <= Max(p.base.parent.qty, 0))
    && (p.held.Some? ==> HeldOk(p, p.held.value))
  }

  ghost predicate HeldOk(p: Pov, h: Twap) {
    && TwapOk(h) && h.base.filled <= p.base.filled
    && p.base.filled - h.base.filled + InFlight(p.base) + Max(h.base.parent.qty, 0) <= Max(p.base.parent.qty, 0)
  }

  ghost predicate PovInv(d: Desk<Pov>, tag: Tag, before: int) {
    && d.algo.base.children.Keys !! HeldChildren(d.algo).Keys
    && Tracks(d.oms, d.algo.base.children + HeldChildren(d.algo), before + d.algo.base.filled, tag)
    && PovOk(d.algo)
  }

  lemma PovParts(d: Desk<Pov>, tag: Tag, before: int)
    requires PovInv(d, tag, before)
    ensures d.algo.base.children.Keys !! HeldChildren(d.algo).Keys && PovOk(d.algo)
    ensures Tracks(d.oms, d.algo.base.children + HeldChildren(d.algo), before + d.algo.base.filled, tag)
  {
  }

  lemma PovTracks(d: Desk<Pov>, tag: Tag, before: int)
    requires PovInv(d, tag, before)
    ensures Inv(d.oms) && Indexed(d.oms) && Shape(d.oms)
    ensures OpenOf(d.oms, tag) == d.algo.base.children + HeldChildren(d.algo)
  {
    hide *;
    PovParts(d, tag, before);
    TracksParts(d.oms, d.algo.base.children + HeldChildren(d.algo), before + d.algo.base.filled, tag);
  }

  lemma PovWhole(s: Oms, p: Pov, tag: Tag, before: int, open: map<OrderId, int>, filled: int)
    requires p.base.children.Keys !! HeldChildren(p).Keys && PovOk(p)
    requires open == p.base.children + HeldChildren(p) && filled == p.base.filled &&
      Tracks(s, open, before + filled, tag)
    ensures PovInv(Desk(s, p), tag, before)
  {
  }

  /** The bound the invariant gives on filled plus everything in flight. */
  lemma PovBound(p: Pov)
    requires PovOk(p) && (p.held.Some? || !p.deadlineDone)
    ensures p.base.filled + PovInFlight(p) <= Max(p.base.parent.qty, 0)
  {
  }

  // ---- events ----

  /** A notice about own children is AfterNotice on them; any other, on the held TWAP's. */
  lemma NoticeSplits(own: map<OrderId, int>, held: map<OrderId, int>, n: Notice, tag: Tag)
    requires own.Keys !! held.Keys && Truthful(own + held, n, tag)
    ensures n.Published? && n.order.id in own ==> (
      && Truthful(own, n, tag) && AfterNotice(own + held, n, tag) == AfterNotice(own, n, tag) + held
      && AfterNotice(own, n, tag).Keys <= own.Keys)
    ensures n.Silent? || n.order.id !in own ==> (
      && Truthful(held, n, tag) && AfterNotice(own + held, n, tag) == own + AfterNotice(held, n, tag)
      && AfterNotice(held, n, tag).Keys <= held.Keys)
  {
  }

  lemma ToldOwn(p: Pov, n: Notice, tag: Tag)
    requires PovOk(p) && n.Published? && n.order.id in p.base.children && Truthful(p.base.children, n, tag)
    ensures
      var p' := TellPov(p, n, tag);
      && PovOk(p') && p'.held == p.held
      && p'.base.children == AfterNotice(p.base.children, n, tag)
      && p'.base.filled == p.base.filled + (if IsFill(n, tag) then n.lastQty else 0)
  {
    NoticeSum(p.base.children, n, tag);
    if Bears(n.order, tag) && !n.kind.ConfirmedEvent? {
      ToldBase(p.base, n, tag);
    }
    hide AfterNotice, Positive, TwapOk, MapSum;
  }

  lemma ToldHeld(p: Pov, n: Notice, tag: Tag)
    requires PovOk(p) && (n.Silent? || n.order.id !in p.base.children) && Truthful(HeldChildren(p), n, tag)
    ensures
      var p' := TellPov(p, n, tag);
      && PovOk(p') && p'.base.children == p.base.children
      && HeldChildren(p') == AfterNotice(HeldChildren(p), n, tag)
      && p'.base.filled == p.base.filled + (if IsFill(n, tag) then n.lastQty else 0)
  {
    if n.Published? {
      assert p.base.children - {n.order.id} == p.base.children;
    }
    if p.held.Some? {
      ToldTwap(p.held.value, n, tag);
    }
    hide Positive, TwapOk, MapSum;
  }

  lemma SplitKeys(own: map<OrderId, int>, held: map<OrderId, int>, own': map<OrderId, int>, held': map<OrderId, int>)
    requires own.Keys !! held.Keys && own'.Keys <= own.Keys && held'.Keys <= held.Keys
    ensures own'.Keys !! held'.Keys
  {
  }

  lemma PovEventKeeps(d: Desk<Pov>, tag: Tag, before: int, e: Inbound)
    requires PovInv(d, tag, before) && Shape(d.oms) && Genuine(d.oms, e.id)
    ensures PovInv(Desk(Receive(d.oms, e), TellPov(d.algo, NoticeOf(d.oms, e), tag)), tag, before)
  {
    hide *;
    var p, n := d.algo, NoticeOf(d.oms, e);
    var own, held := p.base.children, HeldChildren(p);
    var p' := TellPov(p, n, tag);
    PovParts(d, tag, before);
    PovTracks(d, tag, before);
    ReceiveTells(d.oms, e, tag);
    TracksTold(d.oms, Receive(d.oms, e), own + held, before + p.base.filled, tag, n);
    NoticeSplits(own, held, n, tag);
    if n.Published? && n.order.id in own {
      ToldOwn(p, n, tag);
      SameHeld(p, p');
      SplitKeys(own, held, p'.base.children, held);
    } else {
      ToldHeld(p, n, tag);
      SplitKeys(own, held, own, HeldChildren(p'));
    }
    PovWhole(Receive(d.oms, e), p', tag, before, AfterNotice(own + held, n, tag), p'.base.filled);
  }

  lemma SameHeld(p: Pov, p': Pov)
    requires p'.held == p.held
    ensures HeldChildren(p') == HeldChildren(p)
  {
  }

  // ---- the held TWAP's timer ----

  lemma UnionSwaps(a: map<OrderId, int>, b: map<OrderId, int>)
    requires a.Keys !! b.Keys
    ensures a + b == b + a
  {
  }

  lemma HeldInv(d: Desk<Pov>, tag: Tag, before: int)
    requires PovInv(d, tag, before) && d.algo.held.Some?
    ensures TwapInv(Desk(d.oms, d.algo.held.value), tag, d.algo.base.children,
                    before + d.algo.base.filled - d.algo.held.value.base.filled)
  {
    hide Tracks, TwapOk;
    UnionSwaps(d.algo.base.children, HeldChildren(d.algo));
  }

  lemma HeldBack(s: Oms, p: Pov, h: Twap, tag: Tag, before: int)
    requires PovOk(p) && p.held.Some? && h.base.filled == p.held.value.base.filled
    requires h.base.parent == p.held.value.base.parent
    requires TwapInv(Desk(s, h), tag, p.base.children, before + p.base.filled - h.base.filled)
    ensures PovInv(Desk(s, p.(held := Some(h))), tag, before)
  {
    hide Tracks, TwapOk, InFlight;
    UnionSwaps(p.base.children, h.base.children);
  }

  lemma HeldTimerKeeps(d: Desk<Pov>, cfg: PovConfig, before: int, now: int, m: Meeting)
    requires PovInv(d, cfg.tag, before) && Shape(d.oms) && d.algo.held.Some? && cfg.tag.offset < SCRATCH_SLOTS &&
      MeetingOk(m)
    ensures PovInv(HeldTimer(d, cfg, now, m), cfg.tag, before)
    ensures HeldTimer(d, cfg, now, m).algo == d.algo.(held := HeldTimer(d, cfg, now, m).algo.held)
    ensures HeldTimer(d, cfg, now, m).algo.held.Some?
  {
    hide *;
    var h := d.algo.held.value;
    var b := before + d.algo.base.filled - h.base.filled;
    var d' := TwapTimer(Desk(d.oms, h), cfg.tag, now, m);
    HeldInv(d, cfg.tag, before);
    PovParts(d, cfg.tag, before);
    TimerKeeps(Desk(d.oms, h), cfg.tag, d.algo.base.children, b, now, m);
    TimerParent(Desk(d.oms, h), cfg.tag, now, m);
    HeldBack(d'.oms, d.algo, d'.algo, cfg.tag, before);
    HeldTimerIs(d, cfg, now, m);
  }

  lemma HeldTimerIs(d: Desk<Pov>, cfg: PovConfig, now: int, m: Meeting)
    requires Shape(d.oms) && d.algo.held.Some? && cfg.tag.offset < SCRATCH_SLOTS
    ensures
      var d' := TwapTimer(Desk(d.oms, d.algo.held.value), cfg.tag, now, m);
      HeldTimer(d, cfg, now, m) == Desk(d'.oms, d.algo.(held := Some(d'.algo)))
  {
    hide TwapTimer, Shape;
  }

  // ---- POV's own children ----

  lemma OwnFits(p: Pov, b': Base, id: Option<OrderId>, qty: int)
    requires PovOk(p) && p.held.None? && (id.Some? ==> qty > 0 && id.value !in p.base.children)
    requires b' == p.base.(children := AfterSend(p.base.children, id, qty),
      sent := p.base.sent + (if id.Some? then qty else 0))
    ensures b'.filled + InFlight(b') == p.base.filled + InFlight(p.base) + (if id.Some? then qty else 0)
    ensures
      var room := p.base.filled + InFlight(p.base) + qty <= Max(p.base.parent.qty, 0);
      PovOk(p.(base := b', deadlineDone := true)) && (room ==> PovOk(p.(base := b')))
  {
    SentSum(p.base.children, id, qty);
  }

  lemma NoneHeld(p: Pov)
    requires p.held.None?
    ensures HeldChildren(p) == map[] && p.base.children + HeldChildren(p) == p.base.children
    ensures p.base.children.Keys !! HeldChildren(p).Keys
  {
  }

  /** One own child, sent after a round of cancels or without: the invariant holds again, and the
      room it needs is only a question before the deadline. */
  lemma OwnSendKeeps(d: Desk<Pov>, tag: Tag, before: int, qty: int, price: int, ans: Answer, crossed: bool)
    requires PovInv(d, tag, before) && Shape(d.oms) && d.algo.held.None? && tag.offset < SCRATCH_SLOTS && AnswerOk(ans)
    requires crossed || (qty > 0 ==> d.algo.base.filled + InFlight(d.algo.base) + qty <= Max(d.algo.base.parent.qty, 0))
    ensures
      var d' := SendChild(Desk(d.oms, d.algo.base), tag, qty, price, ans);
      && PovInv(Desk(d'.oms, d.algo.(base := d'.algo, deadlineDone := d.algo.deadlineDone || crossed)), tag, before)
      && d'.algo.filled == d.algo.base.filled && d'.algo.parent == d.algo.base.parent &&
        d'.algo.done == d.algo.base.done
      && InFlight(d'.algo) == InFlight(d.algo.base)
           + (if ChildId(d.oms, d.algo.base.parent, tag, qty, price, ans).Some? then qty else 0)
  {
    hide *;
    var p, b := d.algo, d.algo.base;
    var d' := SendChild(Desk(d.oms, b), tag, qty, price, ans);
    var id := ChildId(d.oms, b.parent, tag, qty, price, ans);
    var p' := p.(base := d'.algo, deadlineDone := p.deadlineDone || crossed);
    NoneHeld(p);
    NoneHeld(p');
    PovParts(d, tag, before);
    PovTracks(d, tag, before);
    SendBooks(Desk(d.oms, b), tag, qty, price, ans);
    SendSends(Desk(d.oms, b), tag, qty, price, ans);
    TracksSent(d.oms, d'.oms, b.children, before + b.filled, tag, id, qty);
    OwnFits(p, d'.algo, id, qty);
    NoChildId(d.oms, b.parent, tag, qty, price, ans);
    OwnOk(p, d'.algo, id, qty, crossed);
    PovWhole(d'.oms, p', tag, before, AfterSend(b.children, id, qty), b.filled);
  }

  lemma NoChildId(s: Oms, parent: Parent, tag: Tag, qty: int, price: int, ans: Answer)
    requires Shape(s)
    ensures qty <= 0 ==> ChildId(s, parent, tag, qty, price, ans).None?
  {
  }

  lemma OwnOk(p: Pov, b': Base, id: Option<OrderId>, qty: int, crossed: bool)
    requires PovOk(p) && p.held.None? && (id.Some? ==> qty > 0 && id.value !in p.base.children)
    requires b' == p.base.(children := AfterSend(p.base.children, id, qty),
      sent := p.base.sent + (if id.Some? then qty else 0))
    requires crossed || (qty > 0 ==> p.base.filled + InFlight(p.base) + qty <= Max(p.base.parent.qty, 0))
    ensures PovOk(p.(base := b', deadlineDone := p.deadlineDone || crossed))
  {
    SentSum(p.base.children, id, qty);
  }

  lemma PovCancelsKeep(d: Desk<Pov>, tag: Tag, before: int, order: seq<OrderId>, sent: set<OrderId>)
    requires PovInv(d, tag, before) && Shape(d.oms)
    ensures PovInv(Desk(CancelEach(d.oms, order, sent), d.algo), tag, before)
  {
    hide *;
    PovParts(d, tag, before);
    PovTracks(d, tag, before);
    var open := d.algo.base.children + HeldChildren(d.algo);
    CancelsSteady(d.oms, order, sent, tag);
    TracksSteady(d.oms, CancelEach(d.oms, order, sent), open, before + d.algo.base.filled, tag);
    PovWhole(CancelEach(d.oms, order, sent), d.algo, tag, before, open, d.algo.base.filled);
  }

  // ---- degrading ----

  lemma DegradeKeeps(d: Desk<Pov>, cfg: PovConfig, before: int, now: int)
    requires PovInv(d, cfg.tag, before) && d.algo.held.None? && !d.algo.deadlineDone
    ensures PovInv(Desk(d.oms, Degrade(d.algo, cfg, now)), cfg.tag, before)
  {
    hide Tracks;
    PositiveSum(d.algo.base.children);
    assert d.algo.base.children + HeldChildren(d.algo) == d.algo.base.children;
    var p' := Degrade(d.algo, cfg, now);
    StartOk(p'.held.value.base.parent, cfg.residualSlices);
    assert p'.base.children + HeldChildren(p') == p'.base.children;
  }

  /** Fields the invariant does not speak about. */
  lemma PovFields(d: Desk<Pov>, p': Pov, tag: Tag, before: int)
    requires PovInv(d, tag, before)
    requires p' == d.algo.(lastTick := p'.lastTick, volume := p'.volume, idle := p'.idle,
                           base := d.algo.base.(done := p'.base.done, incomplete := p'.base.incomplete),
                           deadlineDone := p'.deadlineDone)
    requires d.algo.deadlineDone ==> p'.deadlineDone
    ensures PovInv(Desk(d.oms, p'), tag, before)
  {
    hide Tracks, TwapOk;
  }

  // ---- timers ----

  lemma PovCrossKeeps(d: Desk<Pov>, cfg: PovConfig, before: int, now: int, m: Meeting)
    requires PovInv(d, cfg.tag, before) && Shape(d.oms) && cfg.tag.offset < SCRATCH_SLOTS && MeetingOk(m)
    ensures PovInv(PovCross(d, cfg, now, m), cfg.tag, before) && PovCross(d, cfg, now, m).algo.deadlineDone
    ensures PovCross(d, cfg, now, m).algo.base.parent == d.algo.base.parent
    ensures PovCross(d, cfg, now, m).algo.held.Some? <==> d.algo.held.Some?
  {
    hide PovInv, Shape, HeldTimer, SendChild, CancelEach, InFlight, MeetingOk;
    if d.algo.deadlineDone {
    } else if d.algo.held.Some? {
      HeldTimerKeeps(d, cfg, before, now, m);
      var d1 := HeldTimer(d, cfg, now, m);
      PovFields(d1, d1.algo.(deadlineDone := true), cfg.tag, before);
    } else {
      CrossedMeeting(m);
      PovCancelsKeep(d, cfg.tag, before, m.order, m.sent);
      OwnSendKeeps(Desk(CancelEach(d.oms, m.order, m.sent), d.algo), cfg.tag, before,
                   d.algo.base.parent.qty - d.algo.base.filled, CrossPrice(d.algo.base.parent, m.touch), m.cross, true);
    }
  }

  ghost function Ticked(p: Pov, now: int, volume: int): Pov {
    p.(lastTick := now, volume := p.volume + volume)
  }

  ghost predicate Idles(cfg: PovConfig, m: Meeting) {
    m.volume < cfg.volumeFloor || m.volume <= 0
  }

  ghost predicate FallsBehind(p: Pov, cfg: PovConfig) {
    cfg.catchUp > 0 && VolumeShare(cfg, p.volume) - p.base.filled > cfg.catchUp
  }

  ghost function ShareQty(p: Pov, cfg: PovConfig, m: Meeting): int {
    var share := VolumeShare(cfg, m.volume);
    var rem := Unsent(p.base.parent, p.base.filled, PovInFlight(p));
    if share > rem then rem else share
  }

  lemma IntervalIs(d: Desk<Pov>, cfg: PovConfig, now: int, m: Meeting)
    requires Shape(d.oms) && cfg.tag.offset < SCRATCH_SLOTS
    ensures
      var p := Ticked(d.algo, now, m.volume);
      PovInterval(d, cfg, now, m) ==
        if Idles(cfg, m) then Desk(d.oms, p.(idle := p.idle + 1))
        else if FallsBehind(p, cfg) then HeldTimer(Desk(d.oms, Degrade(p, cfg, now)), cfg, now, m)
        else
          var d' := SendChild(Desk(d.oms, p.base), cfg.tag, ShareQty(p, cfg, m), p.base.parent.limit, m.cross);
          Desk(d'.oms, p.(base := d'.algo))
  {
    hide SendChild, HeldTimer, Shape, Degrade;
    DegradeIs(Ticked(d.algo, now, m.volume), cfg, now);
  }

  lemma TickKeeps(d: Desk<Pov>, tag: Tag, before: int, now: int, volume: int)
    requires PovInv(d, tag, before)
    ensures
      var p := Ticked(d.algo, now, volume);
      && PovInv(Desk(d.oms, p), tag, before) && PovInv(Desk(d.oms, p.(idle := p.idle + 1)), tag, before)
      && p.held == d.algo.held && p.base == d.algo.base && p.deadlineDone == d.algo.deadlineDone
  {
    hide PovInv;
    PovFields(d, Ticked(d.algo, now, volume), tag, before);
    PovFields(d, Ticked(d.algo, now, volume).(idle := d.algo.idle + 1), tag, before);
  }

  lemma ShareFits(p: Pov, cfg: PovConfig, m: Meeting)
    requires PovOk(p) && p.held.None? && !p.deadlineDone
    ensures ShareQty(p, cfg, m) > 0 ==>
      p.base.filled + InFlight(p.base) + ShareQty(p, cfg, m) <= Max(p.base.parent.qty, 0)
  {
    hide VolumeShare;
  }

  lemma ShareKeeps(d: Desk<Pov>, cfg: PovConfig, before: int, m: Meeting)
    requires PovInv(d, cfg.tag, before) && Shape(d.oms) && cfg.tag.offset < SCRATCH_SLOTS && AnswerOk(m.cross)
    requires d.algo.held.None? && !d.algo.deadlineDone
    ensures
      var d' := SendChild(Desk(d.oms, d.algo.base), cfg.tag, ShareQty(d.algo, cfg, m), d.algo.base.parent.limit,
        m.cross);
      PovInv(Desk(d'.oms, d.algo.(base := d'.algo)), cfg.tag, before) && d'.algo.parent == d.algo.base.parent
  {
    hide *;
    PovParts(d, cfg.tag, before);
    ShareFits(d.algo, cfg, m);
    var d' := SendChild(Desk(d.oms, d.algo.base), cfg.tag, ShareQty(d.algo, cfg, m), d.algo.base.parent.limit, m.cross);
    OwnSendKeeps(d, cfg.tag, before, ShareQty(d.algo, cfg, m), d.algo.base.parent.limit, m.cross, false);
    assert d.algo.(base := d'.algo, deadlineDone := d.algo.deadlineDone || false) == d.algo.(base := d'.algo);
  }

  lemma PovIntervalKeeps(d: Desk<Pov>, cfg: PovConfig, before: int, now: int, m: Meeting)
    requires PovInv(d, cfg.tag, before) && Shape(d.oms) && cfg.tag.offset < SCRATCH_SLOTS && MeetingOk(m)
    requires d.algo.held.None? && !d.algo.deadlineDone
    ensures PovInv(PovInterval(d, cfg, now, m), cfg.tag, before) && !PovInterval(d, cfg, now, m).algo.deadlineDone
    ensures PovInterval(d, cfg, now, m).algo.base.parent == d.algo.base.parent
  {
    hide *;
    var p := Ticked(d.algo, now, m.volume);
    IntervalIs(d, cfg, now, m);
    CrossedMeeting(m);
    TickKeeps(d, cfg.tag, before, now, m.volume);
    if Idles(cfg, m) {
    } else if FallsBehind(p, cfg) {
      DegradeKeeps(Desk(d.oms, p), cfg, before, now);
      DegradeIs(p, cfg, now);
      HeldTimerKeeps(Desk(d.oms, Degrade(p, cfg, now)), cfg, before, now, m);
    } else {
      ShareKeeps(Desk(d.oms, p), cfg, before, m);
    }
  }

  lemma DegradeIs(p: Pov, cfg: PovConfig, now: int)
    ensures Degrade(p, cfg, now) == p.(held := Degrade(p, cfg, now).held) && Degrade(p, cfg, now).held.Some?
  {
  }

  /** A timer keeps the invariant, provided the clock has not gone back behind a deadline met. */
  lemma PovTimerKeeps(d: Desk<Pov>, cfg: PovConfig, before: int, now: int, m: Meeting)
    requires PovInv(d, cfg.tag, before) && Shape(d.oms) && cfg.tag.offset < SCRATCH_SLOTS && MeetingOk(m)
    requires d.algo.deadlineDone ==> now >= d.algo.base.parent.end
    ensures PovInv(PovTimer(d, cfg, now, m), cfg.tag, before)
    ensures PovTimer(d, cfg, now, m).algo.base.parent == d.algo.base.parent
    ensures PovTimer(d, cfg, now, m).algo.deadlineDone ==> d.algo.deadlineDone || now >= d.algo.base.parent.end
  {
    hide PovInv, Shape, PovCross, PovInterval, HeldTimer, MeetingOk, PovInFlight;
    if !d.algo.base.done {
      if now >= d.algo.base.parent.end {
        PovCrossKeeps(d, cfg, before, now, m);
        var d1 := PovCross(d, cfg, now, m);
        PovFields(d1, d1.algo.(base := Conclude(d1.algo.base, PovInFlight(d1.algo))), cfg.tag, before);
      } else if d.algo.held.Some? {
        HeldTimerKeeps(d, cfg, before, now, m);
        var d1 := HeldTimer(d, cfg, now, m);
        PovFields(d1, d1.algo.(base := d1.algo.base.(done := d1.algo.held.value.base.done)), cfg.tag, before);
      } else {
        PovIntervalKeeps(d, cfg, before, now, m);
      }
    }
  }

  // ---- the deadline of a POV that holds no TWAP ----

  /** Filled plus in flight is more than the parent order. */
  ghost predicate Exceeds(a: Pov, p: Parent) {
    a.base.filled + PovInFlight(a) > Max(p.qty, 0)
  }

  /** Exactly when POV's own deadline cross stays within the parent order: when none of its children
      is still in flight, or the crossing order reaches no venue or is refused there. The residual is
      computed from the fills alone, so a child whose cancel loses the race is executed on top of it. */
  lemma PovCrossExactly(d: Desk<Pov>, cfg: PovConfig, before: int, now: int, m: Meeting)
    requires PovInv(d, cfg.tag, before) && Shape(d.oms) && cfg.tag.offset < SCRATCH_SLOTS && MeetingOk(m)
    requires d.algo.held.None? && !d.algo.deadlineDone && !d.algo.base.done && now >= d.algo.base.parent.end
    ensures
      !Exceeds(PovTimer(d, cfg, now, m).algo, d.algo.base.parent) <==>
        InFlight(d.algo.base) == 0 || !ReachesVenue(d.oms, m.cross.route) || m.cross.route.result != Ok
  {
    hide *;
    var p := d.algo;
    var qty := p.base.parent.qty - p.base.filled;
    var price := CrossPrice(p.base.parent, m.touch);
    var s1 := CancelEach(d.oms, m.order, m.sent);
    var d1 := SendChild(Desk(s1, p.base), cfg.tag, qty, price, m.cross);
    var crossing := ChildId(s1, p.base.parent, cfg.tag, qty, price, m.cross);
    OpenSum(d, cfg.tag, before);
    NoChildId(s1, p.base.parent, cfg.tag, qty, price, m.cross);
    CrossedMeeting(m);
    PovCancelsKeep(d, cfg.tag, before, m.order, m.sent);
    OwnSendKeeps(Desk(s1, p), cfg.tag, before, qty, price, m.cross, true);
    OwnCross(d, cfg, now, m);
    MaxIs(p.base.parent.qty);
    ExceedsMeans(PovTimer(d, cfg, now, m).algo, p.base.parent);
    CancelsReach(d.oms, m.order, m.sent, m.cross.route);
    CrossingExactly(s1, p.base.parent, cfg.tag, qty, price, m.cross);
  }

  lemma ExceedsMeans(a: Pov, p: Parent)
    ensures Exceeds(a, p) <==> a.base.filled + PovInFlight(a) > Max(p.qty, 0)
  {
  }

  /** Cancels neither kill the manager nor take a slot. */
  lemma {:induction false} CancelsReach(s: Oms, order: seq<OrderId>, sent: set<OrderId>, route: Route)
    requires Shape(s)
    ensures CancelEach(s, order, sent).killed == s.killed && CancelEach(s, order, sent).free == s.free
    ensures ReachesVenue(CancelEach(s, order, sent), route) <==> ReachesVenue(s, route)
  {
    hide Shape, CancelAccepted;
    if |order| > 0 {
      CancelsReach(s, order[..|order| - 1], sent, route);
    }
  }

  lemma CrossingExactly(s: Oms, parent: Parent, tag: Tag, qty: int, price: int, ans: Answer)
    requires Shape(s)
    ensures ChildId(s, parent, tag, qty, price, ans).None? <==>
      qty <= 0 || !ReachesVenue(s, ans.route) || ans.route.result != Ok
  {
    hide Shape, NextId, ReachesVenue;
    assert ReachesVenue(s, ans.route) ==> ans.route.Client? by {
      ReachesClient(s, ans.route);
    }
  }

  lemma ReachesClient(s: Oms, route: Route)
    ensures ReachesVenue(s, route) ==> route.Client?
  {
  }

  lemma MaxIs(a: int)
    ensures Max(a, 0) == if a >= 0 then a else 0
  {
  }

  lemma OwnCross(d: Desk<Pov>, cfg: PovConfig, now: int, m: Meeting)
    requires Shape(d.oms) && cfg.tag.offset < SCRATCH_SLOTS
    requires d.algo.held.None? && !d.algo.deadlineDone && !d.algo.base.done && now >= d.algo.base.parent.end
    ensures
      var p, p' := d.algo, PovTimer(d, cfg, now, m).algo;
      var b := SendChild(Desk(CancelEach(d.oms, m.order, m.sent), p.base), cfg.tag, p.base.parent.qty - p.base.filled,
                         CrossPrice(p.base.parent, m.touch), m.cross).algo;
      p'.base.filled == b.filled && PovInFlight(p') == InFlight(b)
  {
    hide SendChild, CancelEach, Shape;
  }

  lemma OpenSum(d: Desk<Pov>, tag: Tag, before: int)
    requires PovInv(d, tag, before) && d.algo.held.None? && !d.algo.deadlineDone
    ensures InFlight(d.algo.base) >= 0 && d.algo.base.filled + InFlight(d.algo.base) <= Max(d.algo.base.parent.qty, 0)
    ensures d.algo.base.filled >= 0
  {
    hide Tracks;
    PositiveSum(d.algo.base.children);
  }

  // ---- runs ----

  ghost predicate PovAllowed(d: Desk<Pov>, tag: Tag, a: AlgoAct)
    requires Shape(d.oms)
  {
    match a
    case Arrive(e) => Genuine(d.oms, e.id)
    case Timer(_, m) => MeetingOk(m) && Lists(m.order, if d.algo.held.Some? then HeldChildren(d.algo).Keys
      else d.algo.base.children.Keys)
    case Withdraw(order, _) => Lists(order, d.algo.base.children.Keys + HeldChildren(d.algo).Keys)
    case Elsewhere(op) => OpOk(op) && !op.Deliver? && (op.SubmitOp? ==> !Stamps(op.req, tag))
  }

  ghost function PovStep(d: Desk<Pov>, cfg: PovConfig, a: AlgoAct): Desk<Pov>
    requires Shape(d.oms) && cfg.tag.offset < SCRATCH_SLOTS && PovAllowed(d, cfg.tag, a)
  {
    match a
    case Arrive(e) => Desk(Receive(d.oms, e), TellPov(d.algo, NoticeOf(d.oms, e), cfg.tag))
    case Timer(now, m) => PovTimer(d, cfg, now, m)
    case Withdraw(order, sent) => Desk(CancelEach(d.oms, order, sent), d.algo)
    case Elsewhere(op) => Desk(Apply(d.oms, op), d.algo)
  }

  ghost predicate PovRun(cfg: PovConfig, p: Parent, states: seq<Desk<Pov>>, acts: seq<AlgoAct>) {
    && cfg.tag.offset < SCRATCH_SLOTS && |states| == |acts| + 1 && Ascending(acts)
    && Inv(states[0].oms) && Indexed(states[0].oms) && OpenOf(states[0].oms, cfg.tag) == map[]
    && states[0].algo == StartPov(p)
    && (forall k :: 0 <= k < |acts| ==> Shape(states[k].oms))
    && (forall k :: 0 <= k < |acts| ==> PovAllowed(states[k], cfg.tag, acts[k]))
    && (forall k :: 0 <= k < |acts| ==> states[k + 1] == PovStep(states[k], cfg, acts[k]))
  }

  lemma PovElsewhere(d: Desk<Pov>, tag: Tag, before: int, op: Op)
    requires PovInv(d, tag, before) && Shape(d.oms) && Allowed(d.oms, map[], tag, Elsewhere(op)) && OpOk(op)
    ensures PovInv(Desk(Apply(d.oms, op), d.algo), tag, before)
  {
    hide *;
    PovParts(d, tag, before);
    PovTracks(d, tag, before);
    var open := d.algo.base.children + HeldChildren(d.algo);
    ElsewhereSteady(d.oms, tag, op);
    TracksSteady(d.oms, Apply(d.oms, op), open, before + d.algo.base.filled, tag);
    PovWhole(Apply(d.oms, op), d.algo, tag, before, open, d.algo.base.filled);
  }

  lemma TellPovFields(p: Pov, n: Notice, tag: Tag)
    ensures TellPov(p, n, tag).base.parent == p.base.parent && TellPov(p, n, tag).deadlineDone == p.deadlineDone
    ensures TellPov(p, n, tag).held.Some? <==> p.held.Some?
  {
  }

  lemma PovStepKeeps(d: Desk<Pov>, cfg: PovConfig, before: int, a: AlgoAct)
    requires PovInv(d, cfg.tag, before) && Shape(d.oms) && cfg.tag.offset < SCRATCH_SLOTS
    requires PovAllowed(d, cfg.tag, a) && (a.Timer? && d.algo.deadlineDone ==> a.now >= d.algo.base.parent.end)
    ensures PovInv(PovStep(d, cfg, a), cfg.tag, before)
    ensures PovStep(d, cfg, a).algo.base.parent == d.algo.base.parent
    ensures PovStep(d, cfg, a).algo.deadlineDone ==>
      d.algo.deadlineDone || (a.Timer? && a.now >= d.algo.base.parent.end)
  {
    hide PovInv, Shape, Receive, NoticeOf, TellPov, PovTimer, CancelEach, Apply, IsCurrent, OpOk;
    hide Inv, MeetingOk, Lists, Genuine, Stamps, Indexed, OpenOf, HeldChildren;
    PovTracks(d, cfg.tag, before);
    match a {
      case Arrive(e) =>
        PovEventKeeps(d, cfg.tag, before, e);
        TellPovFields(d.algo, NoticeOf(d.oms, e), cfg.tag);
      case Timer(now, m) =>
        PovTimerKeeps(d, cfg, before, now, m);
      case Withdraw(order, sent) =>
        PovCancelsKeep(d, cfg.tag, before, order, sent);
      case Elsewhere(op) =>
        PovElsewhere(d, cfg.tag, before, op);
    }
  }

  lemma PovStarts(s: Oms, p: Parent, tag: Tag)
    requires Inv(s) && Indexed(s) && OpenOf(s, tag) == map[]
    ensures PovInv(Desk(s, StartPov(p)), tag, Sum(s.book, FilledUnder(tag)))
    ensures !StartPov(p).deadlineDone && StartPov(p).base.parent == p
  {
    hide Inv, Indexed, OpenOf;
    assert StartPov(p).base.children + HeldChildren(StartPov(p)) == OpenOf(s, tag);
  }

  lemma {:induction false} PovRunKeeps(cfg: PovConfig, p: Parent, states: seq<Desk<Pov>>, acts: seq<AlgoAct>, n: nat)
    requires PovRun(cfg, p, states, acts) && n < |states|
    ensures PovInv(states[n], cfg.tag, Sum(states[0].oms.book, FilledUnder(cfg.tag)))
    ensures states[n].algo.base.parent == p
    ensures states[n].algo.deadlineDone ==> LastTimer(acts, n).Some? && LastTimer(acts, n).value >= p.end
  {
    hide PovStep, PovAllowed, Inv, PovInv, StartPov, Ascending, Indexed, OpenOf;
    if n == 0 {
      PovStarts(states[0].oms, p, cfg.tag);
    } else {
      var k := n - 1;
      PovRunKeeps(cfg, p, states, acts, k);
      if acts[k].Timer? {
        TimersAscend(acts, k);
      }
      assert states[k + 1] == PovStep(states[k], cfg, acts[k]);
      PovStepKeeps(states[k], cfg, Sum(states[0].oms.book, FilledUnder(cfg.tag)), acts[k]);
    }
  }

  /** In every state of every run, whatever the volumes, fills, rejects and cancels: POV's children and
      the held TWAP's together are exactly the order manager's open orders with the tag, executed
      quantity is what POV counts, and until its own deadline cross, and at all times once it holds a
      TWAP, filled plus everything in flight never exceeds the parent order. */
  lemma PovNeverOverSends(cfg: PovConfig, p: Parent, states: seq<Desk<Pov>>, acts: seq<AlgoAct>, n: nat)
    requires PovRun(cfg, p, states, acts) && n < |states|
    ensures
      var a := states[n].algo;
      && Indexed(states[n].oms)
      && a.base.children.Keys !! HeldChildren(a).Keys
      && a.base.children + HeldChildren(a) == OpenOf(states[n].oms, cfg.tag)
      && Sum(states[n].oms.book, FilledUnder(cfg.tag)) - Sum(states[0].oms.book, FilledUnder(cfg.tag)) == a.base.filled
      && (a.held.Some? || !a.deadlineDone ==> a.base.filled + PovInFlight(a) <= Max(p.qty, 0))
  {
    hide PovStep, PovAllowed, Inv, StartPov, Ascending, Indexed, OpenOf, PovOk, PovInFlight, HeldChildren;
    PovRunKeeps(cfg, p, states, acts, n);
    PovParts(states[n], cfg.tag, Sum(states[0].oms.book, FilledUnder(cfg.tag)));
    if states[n].algo.held.Some? || !states[n].algo.deadlineDone {
      PovBound(states[n].algo);
    }
  }

  // ---- after the cross ----

  /** POV has crossed at its deadline on its own. */
  ghost predicate Crossed(p: Pov) {
    p.deadlineDone && p.held.None?
  }

  lemma CrossedEvent(p: Pov, n: Notice, tag: Tag)
    requires PovOk(p) && Crossed(p) && Truthful(p.base.children, n, tag)
    ensures
      var p' := TellPov(p, n, tag);
      Crossed(p') && p'.base.filled + PovInFlight(p') <= p.base.filled + PovInFlight(p)
  {
    TellPovFields(p, n, tag);
    if n.Published? && n.order.id in p.base.children {
      ToldOwn(p, n, tag);
      NoticeSum(p.base.children, n, tag);
    } else {
      ToldHeld(p, n, tag);
    }
    hide AfterNotice, TellPov, MapSum, Positive;
  }

  lemma CrossedTimer(d: Desk<Pov>, cfg: PovConfig, now: int, m: Meeting)
    requires Shape(d.oms) && cfg.tag.offset < SCRATCH_SLOTS && Crossed(d.algo) && now >= d.algo.base.parent.end
    ensures
      var p' := PovTimer(d, cfg, now, m).algo;
      Crossed(p') && p'.base.filled + PovInFlight(p') == d.algo.base.filled + PovInFlight(d.algo)
  {
    hide Shape, HeldTimer, PovInterval, MapSum;
  }

  lemma CrossedStep(d: Desk<Pov>, cfg: PovConfig, before: int, a: AlgoAct)
    requires PovInv(d, cfg.tag, before) && Shape(d.oms) && cfg.tag.offset < SCRATCH_SLOTS && Crossed(d.algo)
    requires PovAllowed(d, cfg.tag, a) && (a.Timer? ==> a.now >= d.algo.base.parent.end)
    ensures
      var p, p' := d.algo, PovStep(d, cfg, a).algo;
      Crossed(p') && p'.base.filled + PovInFlight(p') <= p.base.filled + PovInFlight(p)
  {
    PovTracks(d, cfg.tag, before);
    PovParts(d, cfg.tag, before);
    NoneHeld(d.algo);
    hide PovInv, Shape, Receive, NoticeOf, TellPov, PovTimer, CancelEach, Apply, IsCurrent, OpOk, PovInFlight;
    hide Inv, MeetingOk, Lists, Genuine, Stamps, Indexed, OpenOf, HeldChildren, Tracks, PovOk, Truthful;
    if a.Arrive? {
      ReceiveTells(d.oms, a.event, cfg.tag);
      TellsTruth(d.oms, Receive(d.oms, a.event), NoticeOf(d.oms, a.event), cfg.tag);
      CrossedEvent(d.algo, NoticeOf(d.oms, a.event), cfg.tag);
    } else if a.Timer? {
      CrossedTimer(d, cfg, a.now, a.meeting);
    }
  }

  lemma TellsTruth(s: Oms, s': Oms, n: Notice, tag: Tag)
    requires Tells(s, s', n, tag)
    ensures Truthful(OpenOf(s, tag), n, tag)
  {
    hide Indexed, OpenOf, Truthful;
  }

  /** Past its own cross POV sends nothing more: filled plus in flight never grows again. */
  lemma {:induction false} PovShrinksAfterCross(
    cfg: PovConfig, p: Parent, states: seq<Desk<Pov>>, acts: seq<AlgoAct>, m: nat, n: nat)
    requires PovRun(cfg, p, states, acts) && m <= n < |states| && Crossed(states[m].algo)
    ensures Crossed(states[n].algo)
    ensures states[n].algo.base.filled + PovInFlight(states[n].algo)
         <= states[m].algo.base.filled + PovInFlight(states[m].algo)
    decreases n
  {
    hide PovStep, PovAllowed, Inv, PovInv, StartPov, Ascending, Indexed, OpenOf, PovInFlight;
    if m < n {
      var k := n - 1;
      PovShrinksAfterCross(cfg, p, states, acts, m, k);
      PovRunKeeps(cfg, p, states, acts, k);
      if acts[k].Timer? {
        TimersAscend(acts, k);
      }
      assert states[k + 1] == PovStep(states[k], cfg, acts[k]);
      CrossedStep(states[k], cfg, Sum(states[0].oms.book, FilledUnder(cfg.tag)), acts[k]);
    }
  }

  /** So the rest of the run stays within the parent order exactly when the cross did. */
  lemma PovBoundAfterCross(cfg: PovConfig, p: Parent, states: seq<Desk<Pov>>, acts: seq<AlgoAct>, m: nat)
    requires PovRun(cfg, p, states, acts) && m < |states| && Crossed(states[m].algo)
    ensures (forall n :: m <= n < |states| ==> !Exceeds(states[n].algo, p)) <==> !Exceeds(states[m].algo, p)
  {
    hide PovRun, Crossed, PovInFlight;
    forall n | m <= n < |states| && !Exceeds(states[m].algo, p) ensures !Exceeds(states[n].algo, p) {
      PovShrinksAfterCross(cfg, p, states, acts, m, n);
    }
  }

  // ---- a run in which POV sends too much ----

  const EXAMPLE_PARENT := Parent(0, Buy, 10, 0, 100, 5)
  const EXAMPLE_CONFIG := PovConfig(Tag(0, 7), 1.0, 0, 0, 5)

  function ExampleAnswer(): Answer {
    Answer(Client(0, Ok), 1, {})
  }

  function ExampleMeeting(order: seq<OrderId>, volume: int): Meeting {
    Meeting(_ => ExampleAnswer(), ExampleAnswer(), 0, order, {}, volume)
  }

  lemma AcceptedLeaves(s: Oms, req: OrderRequest, ans: Answer)
    requires Shape(s) && req.workerOffset < SCRATCH_SLOTS && ReachesVenue(s, ans.route) && ans.route.result == Ok
    ensures !Submit(s, req, ans.route, ans.now, ans.accepts).killed
    ensures |Submit(s, req, ans.route, ans.now, ans.accepts).free| == |s.free| - 1
    ensures Submit(s, req, ans.route, ans.now, ans.accepts).recycles == s.recycles
  {
  }

  lemma ExampleStart(s: Oms, tag: Tag)
    requires s == Init(8, 0) && Inv(s)
    ensures Indexed(s) && OpenOf(s, tag) == map[] && Shape(s) && |s.free| == 8 && !s.killed
  {
    hide Inv;
  }

  /** The first interval: a share of four is sent. */
  lemma ExampleFirst(d0: Desk<Pov>, d1: Desk<Pov>, m1: Meeting)
    requires Shape(d0.oms) && |d0.oms.free| == 8 && !d0.oms.killed
    requires d0.algo == StartPov(EXAMPLE_PARENT) && m1 == ExampleMeeting([], 4)
    requires d1 == PovTimer(d0, EXAMPLE_CONFIG, 1, m1)
    ensures d1.algo.held.None? && !d1.algo.deadlineDone && !d1.algo.base.done
    ensures d1.algo.base.parent == EXAMPLE_PARENT && d1.algo.base.filled == 0
    ensures d1.algo.base.children == map[NextId(d0.oms, 0) := 4]
    ensures !d1.oms.killed && |d1.oms.free| == 7
  {
    var cfg := EXAMPLE_CONFIG;
    AcceptedLeaves(d0.oms, ChildRequest(EXAMPLE_PARENT, cfg.tag, 4, 5), ExampleAnswer());
    hide Shape, Submit, NextId;
    assert InFlight(d0.algo.base) == 0;
    assert VolumeShare(cfg, 4) == 4;
    assert PovTimer(d0, cfg, 1, m1) == PovInterval(d0, cfg, 1, m1);
    assert SubmittedId(d0.oms, ChildRequest(EXAMPLE_PARENT, cfg.tag, 4, 5), ExampleAnswer().route) ==
      Some(NextId(d0.oms, 0));
    assert map[][NextId(d0.oms, 0) := 4] == map[NextId(d0.oms, 0) := 4];
  }

  /** The deadline: ten are crossed while four are in flight. */
  lemma ExampleSecond(d1: Desk<Pov>, d2: Desk<Pov>, m2: Meeting, id: OrderId, before: int)
    requires PovInv(d1, EXAMPLE_CONFIG.tag, before) && Shape(d1.oms)
    requires d1.algo.held.None? && !d1.algo.deadlineDone && !d1.algo.base.done
    requires d1.algo.base.parent == EXAMPLE_PARENT && d1.algo.base.filled == 0 && d1.algo.base.children == map[id := 4]
    requires !d1.oms.killed && |d1.oms.free| == 7 && m2 == ExampleMeeting([id], 0)
    requires d2 == PovTimer(d1, EXAMPLE_CONFIG, 100, m2)
    ensures Exceeds(d2.algo, EXAMPLE_PARENT)
  {
    hide *;
    ExampleCrossing(d1.oms, id, m2);
    ExampleInFlight(d1.algo, id);
    PovCrossExactly(d1, EXAMPLE_CONFIG, before, 100, m2);
  }

  lemma ExampleCrossing(s: Oms, id: OrderId, m: Meeting)
    requires Shape(s) && !s.killed && |s.free| == 7 && m == ExampleMeeting([id], 0)
    ensures MeetingOk(m) && EXAMPLE_CONFIG.tag.offset < SCRATCH_SLOTS && EXAMPLE_PARENT.end == 100
    ensures ReachesVenue(s, m.cross.route) && m.cross.route.result == Ok
  {
  }

  lemma ExampleInFlight(p: Pov, id: OrderId)
    requires p.base.children == map[id := 4]
    ensures InFlight(p.base) == 4
  {
    MapSumPut(map[], id, 4);
    assert map[][id := 4] == map[id := 4];
  }

  /** Ten to buy; four are in flight when the deadline comes; POV crosses ten more. */
  lemma PovCanOverSend()
    ensures exists cfg: PovConfig, p: Parent, states: seq<Desk<Pov>>, acts: seq<AlgoAct> ::
      PovRun(cfg, p, states, acts) && |states| > 0 && Exceeds(states[|states| - 1].algo, p)
  {
    hide *;
    var cfg, p := EXAMPLE_CONFIG, EXAMPLE_PARENT;
    var s0 := Init(8, 0);
    ExampleReady(s0);
    var id := NextId(s0, 0);
    var d0 := Desk(s0, StartPov(p));
    var m1, m2 := ExampleMeeting([], 4), ExampleMeeting([id], 0);
    ExampleMeetings(id);
    var d1 := PovTimer(d0, cfg, 1, m1);
    var before := Sum(s0.book, FilledUnder(cfg.tag));
    ExampleFirst(d0, d1, m1);
    PovStarts(s0, p, cfg.tag);
    PovTimerKeeps(d0, cfg, before, 1, m1);
    PovTracks(d1, cfg.tag, before);
    var d2 := PovTimer(d1, cfg, 100, m2);
    ExampleSecond(d1, d2, m2, id, before);
    ExampleRun(d0, d1, d2, m1, m2, id);
    var states := [d0, d1, d2];
    assert states[|states| - 1] == d2;
    assert PovRun(cfg, p, states, [Timer(1, m1), Timer(100, m2)]);
  }

  lemma ExampleReady(s: Oms)
    requires s == Init(8, 0)
    ensures Inv(s) && Indexed(s) && OpenOf(s, EXAMPLE_CONFIG.tag) == map[] && Shape(s)
    ensures |s.free| == 8 && !s.killed && EXAMPLE_CONFIG.tag.offset < SCRATCH_SLOTS
  {
    InitKeeps(8, 0);
    ExampleStart(s, EXAMPLE_CONFIG.tag);
  }

  lemma ExampleMeetings(id: OrderId)
    ensures MeetingOk(ExampleMeeting([], 4)) && ExampleMeeting([], 4).order == []
    ensures MeetingOk(ExampleMeeting([id], 0)) && ExampleMeeting([id], 0).order == [id]
  {
  }

  lemma ExampleRun(d0: Desk<Pov>, d1: Desk<Pov>, d2: Desk<Pov>, m1: Meeting, m2: Meeting, id: OrderId)
    requires Inv(d0.oms) && Indexed(d0.oms) && OpenOf(d0.oms, EXAMPLE_CONFIG.tag) == map[] && Shape(d0.oms)
    requires Shape(d1.oms) && MeetingOk(m1) && MeetingOk(m2) && m1.order == [] && m2.order == [id]
    requires d0.algo == StartPov(EXAMPLE_PARENT)
    requires d1.algo.held.None? && d1.algo.base.children == map[id := 4]
    requires d1 == PovTimer(d0, EXAMPLE_CONFIG, 1, m1) && d2 == PovTimer(d1, EXAMPLE_CONFIG, 100, m2)
    ensures PovRun(EXAMPLE_CONFIG, EXAMPLE_PARENT, [d0, d1, d2], [Timer(1, m1), Timer(100, m2)])
  {
    hide Inv, Indexed, OpenOf, Shape, PovTimer, MeetingOk;
    var states, acts := [d0, d1, d2], [Timer(1, m1), Timer(100, m2)];
    assert PovAllowed(d0, EXAMPLE_CONFIG.tag, acts[0]);
    assert PovAllowed(d1, EXAMPLE_CONFIG.tag, acts[1]);
    assert states[1] == PovStep(states[0], EXAMPLE_CONFIG, acts[0]);
    assert states[2] == PovStep(states[1], EXAMPLE_CONFIG, acts[1]);
  }
}
