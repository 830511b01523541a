/** TWAP never sends more than its parent order, in any run of timers, cancels and venue events. */
module TwapSafety {
  import opened OrderIds
  import opened Orders
  import opened OrderManagerSpec
  import opened OrderManagerInvariants
  import opened OrderManagerKeeps
  import opened OrderManagerRuns
  import opened Coupling
  import opened CouplingSteps
  import opened AlgoChildren
  import opened ExecutionAlgoSpec
  import opened Sums
  import opened Arithmetic

  // ---- sums of positive quantities ----

  ghost predicate Positive(m: map<OrderId, int>) {
    forall id :: id in m ==> m[id] > 0
  }

  lemma {:induction false} PositiveSum(m: map<OrderId, int>)
    requires Positive(m)
    ensures MapSum(m) >= 0 && (MapSum(m) == 0 <==> m == map[])
    decreases |m|
  {
    if m != map[] {
      var id :| id in m;
      MapSumRemove(m, id);
      PositiveSum(m - {id});
    }
  }

  /** A fill takes its quantity out of flight; a reject or a cancel, what the child had left. */
  lemma NoticeSum(open: map<OrderId, int>, n: Notice, tag: Tag)
    requires Positive(open) && Truthful(open, n, tag)
    ensures Positive(AfterNotice(open, n, tag)) && MapSum(AfterNotice(open, n, tag)) <= MapSum(open)
    ensures IsFill(n, tag) ==> MapSum(AfterNotice(open, n, tag)) == MapSum(open) - n.lastQty
  {
    if n.Published? {
      var id := n.order.id;
      MapSumPut(open, id, n.order.Remaining());
      if id in open {
        MapSumRemove(open, id);
      } else {
        assert open - {id} == open;
      }
    }
  }

  /** Following the notices, a book of children changes as the order manager's open orders do. */
  lemma ToldBase(b: Base, n: Notice, tag: Tag)
    requires Truthful(b.children, n, tag) && n.Published? && Bears(n.order, tag) && !n.kind.ConfirmedEvent?
    ensures IsFill(n, tag) ==> BaseFill(b, n.order, n.lastQty).children == AfterNotice(b.children, n, tag)
    ensures !IsFill(n, tag) ==> BaseGone(b, n.order.id).children == AfterNotice(b.children, n, tag)
  {
  }

  // ---- what a submit and a round of cancels do to the open orders ----

  ghost predicate AnswerOk(ans: Answer) {
    ans.route.Client? ==> ans.route.venue < VENUES
  }

  ghost function ChildId(s: Oms, p: Parent, tag: Tag, qty: int, price: int, ans: Answer): Option<OrderId>
    requires Shape(s)
  {
    if qty <= 0 then None else SubmittedId(s, ChildRequest(p, tag, qty, price), ans.route)
  }

  lemma ChildStamps(p: Parent, tag: Tag, qty: int, price: int, ans: Answer)
    requires tag.offset < SCRATCH_SLOTS && qty > 0 && AnswerOk(ans)
    ensures Stamps(ChildRequest(p, tag, qty, price), tag) && WellFormed(ChildRequest(p, tag, qty, price), ans.route)
    ensures ChildRequest(p, tag, qty, price).size == qty
  {
  }

  /** The order manager's side of sending a child. */
  ghost predicate Sent(s: Oms, s': Oms, tag: Tag, id: Option<OrderId>, qty: int) {
    && Inv(s') && Indexed(s) && Indexed(s')
    && (id.Some? ==> qty > 0 && id.value !in OpenOf(s, tag))
    && OpenOf(s', tag) == AfterSend(OpenOf(s, tag), id, qty)
    && Sum(s'.book, FilledUnder(tag)) == Sum(s.book, FilledUnder(tag))
  }

  lemma SendSends(d: Desk<Base>, tag: Tag, qty: int, price: int, ans: Answer)
    requires Inv(d.oms) && Shape(d.oms) && tag.offset < SCRATCH_SLOTS && AnswerOk(ans)
    ensures Sent(d.oms, SendChild(d, tag, qty, price, ans).oms, tag,
      ChildId(d.oms, d.algo.parent, tag, qty, price, ans), qty)
  {
    hide Inv, Indexed, Submit, SubmittedId, Shape, Stamps, WellFormed, OpenOf, FilledUnder;
    InvIndexed(d.oms);
    if qty > 0 {
      var req := ChildRequest(d.algo.parent, tag, qty, price);
      ChildStamps(d.algo.parent, tag, qty, price, ans);
      SubmitSends(d.oms, req, ans.route, ans.now, ans.accepts, tag);
    }
  }

  /** The algorithm's side: the book gains the child, and nothing else changes. */
  lemma SendBooks(d: Desk<Base>, tag: Tag, qty: int, price: int, ans: Answer)
    requires Shape(d.oms) && tag.offset < SCRATCH_SLOTS
    ensures
      var id := ChildId(d.oms, d.algo.parent, tag, qty, price, ans);
      SendChild(d, tag, qty, price, ans).algo ==
        d.algo.(children := AfterSend(d.algo.children, id, qty), sent := d.algo.sent + (if id.Some? then qty else 0))
  {
    hide Submit, SubmittedId, Shape;
  }

  lemma SentSum(open: map<OrderId, int>, id: Option<OrderId>, qty: int)
    requires Positive(open) && (id.Some? ==> qty > 0 && id.value !in open)
    ensures Positive(AfterSend(open, id, qty))
    ensures MapSum(AfterSend(open, id, qty)) == MapSum(open) + (if id.Some? then qty else 0)
  {
    if id.Some? {
      MapSumPut(open, id.value, qty);
    }
  }

  /** s and s' have the same open orders and the same executed quantity under the tag. */
  ghost predicate Steady(s: Oms, s': Oms, tag: Tag) {
    && Inv(s') && Indexed(s) && Indexed(s') && OpenOf(s', tag) == OpenOf(s, tag)
    && Sum(s'.book, FilledUnder(tag)) == Sum(s.book, FilledUnder(tag))
  }

  lemma QuietSteady(s: Oms, s': Oms, tag: Tag)
    requires Inv(s) && Inv(s') && Quiet(s, s')
    ensures Steady(s, s', tag)
  {
    hide Inv, Quiet, Indexed, OpenOf;
    InvIndexed(s);
    InvIndexed(s');
    QuietOpen(s, s', tag);
  }

  lemma SteadyChain(s: Oms, s1: Oms, s2: Oms, tag: Tag)
    requires Steady(s, s1, tag) && Steady(s1, s2, tag)
    ensures Steady(s, s2, tag)
  {
    hide Inv, Indexed, OpenOf;
  }

  lemma {:induction false} CancelsSteady(s: Oms, order: seq<OrderId>, sent: set<OrderId>, tag: Tag)
    requires Inv(s) && Shape(s)
    ensures Steady(s, CancelEach(s, order, sent), tag)
    decreases |order|
  {
    hide Inv, Quiet, Steady, Cancel, Shape;
    if |order| == 0 {
      SelfQuiet(s);
      QuietSteady(s, s, tag);
    } else {
      var before := CancelEach(s, order[..|order| - 1], sent);
      var id := order[|order| - 1];
      CancelsSteady(s, order[..|order| - 1], sent, tag);
      assert Inv(before) by { SteadyInv(s, before, tag); }
      CancelKeeps(before, id, id in sent);
      CancelQuiet(before, id, id in sent);
      QuietSteady(before, Cancel(before, id, id in sent), tag);
      SteadyChain(s, before, Cancel(before, id, id in sent), tag);
    }
  }

  lemma SteadyInv(s: Oms, s': Oms, tag: Tag)
    requires Steady(s, s', tag)
    ensures Inv(s')
  {
  }

  // ---- the invariant of TWAP ----

  /** The bookkeeping on its own: no over-send, and a done algorithm has nothing in flight and is
      flagged incomplete exactly when it missed its target. */
  ghost predicate TwapOk(t: Twap) {
    var b := t.base;
    && t.slices >= 1 && t.slicesDone <= t.slices && t.sliceDur >= 1
    && b.filled >= 0 && Positive(b.children)
    && b.filled + InFlight(b) <= Max(b.parent.qty, 0)
    && b.filled + InFlight(b) <= b.sent
    && (b.incomplete ==> b.done)
    && (b.done ==> b.children == map[] && (b.incomplete <==> b.filled < b.parent.qty))
  }

  /** `open` and `executed` are the order manager's view of this algorithm. */
  ghost predicate Tracks(s: Oms, open: map<OrderId, int>, executed: int, tag: Tag) {
    Inv(s) && Indexed(s) && OpenOf(s, tag) == open && Sum(s.book, FilledUnder(tag)) == executed
  }

  /** `rest`: open orders with the same tag that are not this algorithm's own, as when a POV holds
      it; `before`: what was executed under the tag besides what this algorithm counts. */
  ghost predicate TwapInv(d: Desk<Twap>, tag: Tag, rest: map<OrderId, int>, before: int) {
    && d.algo.base.children.Keys !! rest.Keys
    && Tracks(d.oms, d.algo.base.children + rest, before + d.algo.base.filled, tag) && TwapOk(d.algo)
  }

  lemma TracksParts(s: Oms, open: map<OrderId, int>, executed: int, tag: Tag)
    requires Tracks(s, open, executed, tag)
    ensures Inv(s) && Indexed(s) && Shape(s) && OpenOf(s, tag) == open && Sum(s.book, FilledUnder(tag)) == executed
  {
  }

  lemma TracksSteady(s: Oms, s': Oms, open: map<OrderId, int>, executed: int, tag: Tag)
    requires Tracks(s, open, executed, tag) && Steady(s, s', tag)
    ensures Tracks(s', open, executed, tag)
  {
    hide Inv, Indexed, OpenOf;
  }

  lemma TracksSent(s: Oms, s': Oms, open: map<OrderId, int>, executed: int, tag: Tag, id: Option<OrderId>, qty: int)
    requires Tracks(s, open, executed, tag) && Sent(s, s', tag, id, qty)
    ensures Tracks(s', AfterSend(open, id, qty), executed, tag)
    ensures id.Some? ==> qty > 0 && id.value !in open
  {
    hide Inv, Indexed, OpenOf;
  }

  lemma TracksTold(s: Oms, s': Oms, open: map<OrderId, int>, executed: int, tag: Tag, n: Notice)
    requires Tracks(s, open, executed, tag) && Inv(s') && Tells(s, s', n, tag)
    ensures Tracks(s', AfterNotice(open, n, tag), executed + (if IsFill(n, tag) then n.lastQty else 0), tag)
    ensures Truthful(open, n, tag)
  {
    hide Inv, Indexed, OpenOf, AfterNotice, Truthful;
  }

  // ---- events ----

  lemma ToldTwap(t: Twap, n: Notice, tag: Tag)
    requires TwapOk(t) && Truthful(t.base.children, n, tag)
    ensures TwapOk(TellTwap(t, n, tag))
    ensures TellTwap(t, n, tag).base.children == AfterNotice(t.base.children, n, tag)
    ensures TellTwap(t, n, tag).base.filled == t.base.filled + (if IsFill(n, tag) then n.lastQty else 0)
  {
    NoticeSum(t.base.children, n, tag);
    PositiveSum(AfterNotice(t.base.children, n, tag));
    if n.Published? && Bears(n.order, tag) && !n.kind.ConfirmedEvent? {
      ToldBase(t.base, n, tag);
    }
    hide AfterNotice, Positive;
  }

  /** An algorithm on its own: no open order with its tag but its own. */
  lemma TwapAlone(s: Oms, t: Twap, tag: Tag, before: int)
    ensures TwapInv(Desk(s, t), tag, map[], before) <==>
      Tracks(s, t.base.children, before + t.base.filled, tag) && TwapOk(t)
  {
    hide Tracks, TwapOk;
    assert t.base.children + map[] == t.base.children;
  }

  lemma EventKeeps(d: Desk<Twap>, tag: Tag, before: int, e: Inbound)
    requires TwapInv(d, tag, map[], before) && Shape(d.oms) && Genuine(d.oms, e.id)
    ensures TwapInv(Desk(Receive(d.oms, e), TellTwap(d.algo, NoticeOf(d.oms, e), tag)), tag, map[], before)
  {
    hide *;
    var n := NoticeOf(d.oms, e);
    TwapAlone(d.oms, d.algo, tag, before);
    TracksParts(d.oms, d.algo.base.children, before + d.algo.base.filled, tag);
    ReceiveTells(d.oms, e, tag);
    TracksTold(d.oms, Receive(d.oms, e), d.algo.base.children, before + d.algo.base.filled, tag, n);
    ToldTwap(d.algo, n, tag);
    TwapAlone(Receive(d.oms, e), TellTwap(d.algo, n, tag), tag, before);
  }

  // ---- sending ----

  /** A child that fits in the room left keeps the bookkeeping sound. */
  lemma ChildFits(t: Twap, b': Base, id: Option<OrderId>, qty: int)
    requires TwapOk(t) && !t.base.done && (id.Some? ==> qty > 0 && id.value !in t.base.children)
    requires b' == t.base.(children := AfterSend(t.base.children, id, qty),
      sent := t.base.sent + (if id.Some? then qty else 0))
    requires t.base.filled + InFlight(t.base) + qty <= Max(t.base.parent.qty, 0)
    ensures TwapOk(t.(base := b'))
  {
    SentSum(t.base.children, id, qty);
  }

  lemma TwapParts(d: Desk<Twap>, tag: Tag, rest: map<OrderId, int>, before: int)
    requires TwapInv(d, tag, rest, before)
    ensures d.algo.base.children.Keys !! rest.Keys
    ensures Tracks(d.oms, d.algo.base.children + rest, before + d.algo.base.filled, tag) && TwapOk(d.algo)
  {
  }

  lemma TwapWhole(s: Oms, t: Twap, tag: Tag, rest: map<OrderId, int>, before: int, filled: int)
    requires t.base.children.Keys !! rest.Keys && filled == t.base.filled
    requires Tracks(s, t.base.children + rest, before + filled, tag) && TwapOk(t)
    ensures TwapInv(Desk(s, t), tag, rest, before)
  {
  }

  lemma SendBeside(open: map<OrderId, int>, rest: map<OrderId, int>, id: Option<OrderId>, qty: int)
    requires open.Keys !! rest.Keys && (id.Some? ==> id.value !in open + rest)
    ensures AfterSend(open + rest, id, qty) == AfterSend(open, id, qty) + rest
    ensures AfterSend(open, id, qty).Keys !! rest.Keys && (id.Some? ==> id.value !in open)
  {
  }

  lemma NothingSent(d: Desk<Base>, tag: Tag, qty: int, price: int, ans: Answer)
    requires Shape(d.oms) && tag.offset < SCRATCH_SLOTS && qty <= 0
    ensures SendChild(d, tag, qty, price, ans) == d
  {
  }

  lemma SendKeeps(d: Desk<Twap>, tag: Tag, rest: map<OrderId, int>, before: int, qty: int, price: int, ans: Answer)
    requires TwapInv(d, tag, rest, before) && Shape(d.oms) && !d.algo.base.done && tag.offset < SCRATCH_SLOTS &&
      AnswerOk(ans)
    requires qty > 0 ==> d.algo.base.filled + InFlight(d.algo.base) + qty <= Max(d.algo.base.parent.qty, 0)
    ensures
      var d' := SendChild(Desk(d.oms, d.algo.base), tag, qty, price, ans);
      TwapInv(Desk(d'.oms, d.algo.(base := d'.algo)), tag, rest, before) && !d'.algo.done &&
        d'.algo.parent == d.algo.base.parent
  {
    hide *;
    var b := d.algo.base;
    var d' := SendChild(Desk(d.oms, b), tag, qty, price, ans);
    if qty <= 0 {
      NothingSent(Desk(d.oms, b), tag, qty, price, ans);
      assert Desk(d'.oms, d.algo.(base := d'.algo)) == d;
    } else {
      var id := ChildId(d.oms, b.parent, tag, qty, price, ans);
      TwapParts(d, tag, rest, before);
      TracksParts(d.oms, b.children + rest, before + b.filled, tag);
      SendBooks(Desk(d.oms, b), tag, qty, price, ans);
      SendSends(Desk(d.oms, b), tag, qty, price, ans);
      TracksSent(d.oms, d'.oms, b.children + rest, before + b.filled, tag, id, qty);
      SendBeside(b.children, rest, id, qty);
      ChildFits(d.algo, d'.algo, id, qty);
      TwapWhole(d'.oms, d.algo.(base := d'.algo), tag, rest, before, b.filled);
    }
  }

  lemma CeilBounds(a: int, b: int)
    requires a >= 0 && b >= 1
    ensures a <= CeilDiv(a, b) * b < a + b && 0 <= CeilDiv(a, b) <= a
  {
    var n := a + b - 1;
    var q := n / b;
    assert q * b + n % b == n;
    assert a * b >= a;
    assert (a + 1) * b == a * b + b;
    MulCancel(q, a + 1, b);
    MulCancel(-1, q, b);
  }

  lemma SliceFits(rem: int, left: int)
    requires rem >= 0
    ensures 0 <= SliceQty(rem, left) <= rem
  {
    if left > 1 {
      CeilBounds(rem, left);
    }
  }

  lemma SliceAdvances(d: Desk<Twap>, tag: Tag, rest: map<OrderId, int>, before: int)
    requires TwapInv(d, tag, rest, before) && d.algo.slicesDone < d.algo.slices
    ensures TwapInv(Desk(d.oms, d.algo.(slicesDone := d.algo.slicesDone + 1)), tag, rest, before)
  {
    hide Tracks;
  }

  lemma SliceRoom(d: Desk<Twap>, tag: Tag, rest: map<OrderId, int>, before: int, qty: int)
    requires TwapInv(d, tag, rest, before)
    requires var b := d.algo.base; qty == SliceQty(Unsent(b.parent, b.filled, InFlight(b)),
      d.algo.slices - d.algo.slicesDone)
    ensures qty > 0 ==> d.algo.base.filled + InFlight(d.algo.base) + qty <= Max(d.algo.base.parent.qty, 0)
  {
    hide Tracks, SliceQty;
    var b := d.algo.base;
    SliceFits(Unsent(b.parent, b.filled, InFlight(b)), d.algo.slices - d.algo.slicesDone);
  }

  lemma SliceIs(d: Desk<Twap>, tag: Tag, ans: Answer, qty: int)
    requires Shape(d.oms) && tag.offset < SCRATCH_SLOTS
    requires var b := d.algo.base; qty == SliceQty(Unsent(b.parent, b.filled, InFlight(b)),
      d.algo.slices - d.algo.slicesDone)
    ensures
      var d' := SendChild(Desk(d.oms, d.algo.base), tag, qty, d.algo.base.parent.limit, ans);
      FireSlice(d, tag, ans) == Desk(d'.oms, d.algo.(base := d'.algo).(slicesDone := d.algo.slicesDone + 1))
  {
    hide SendChild, Shape, SliceQty, Unsent;
  }

  lemma SliceKeeps(d: Desk<Twap>, tag: Tag, rest: map<OrderId, int>, before: int, ans: Answer)
    requires TwapInv(d, tag, rest, before) && Shape(d.oms) && !d.algo.base.done && tag.offset < SCRATCH_SLOTS &&
      AnswerOk(ans)
    requires d.algo.slicesDone < d.algo.slices
    ensures TwapInv(FireSlice(d, tag, ans), tag, rest, before) && !FireSlice(d, tag, ans).algo.base.done
    ensures FireSlice(d, tag, ans).algo.base.parent == d.algo.base.parent
  {
    hide *;
    var b := d.algo.base;
    var qty := SliceQty(Unsent(b.parent, b.filled, InFlight(b)), d.algo.slices - d.algo.slicesDone);
    SliceRoom(d, tag, rest, before, qty);
    SendKeeps(d, tag, rest, before, qty, b.parent.limit, ans);
    var d' := SendChild(Desk(d.oms, b), tag, qty, b.parent.limit, ans);
    SliceAdvances(Desk(d'.oms, d.algo.(base := d'.algo)), tag, rest, before);
    SliceIs(d, tag, ans, qty);
  }

  ghost predicate MeetingOk(m: Meeting) {
    AnswerOk(m.cross) && forall k: nat :: AnswerOk(m.answers(k))
  }

  lemma {:induction false} SlicesKeep(d: Desk<Twap>, tag: Tag, rest: map<OrderId, int>, before: int, now: int,
      m: Meeting)
    requires TwapInv(d, tag, rest, before) && Shape(d.oms) && !d.algo.base.done && tag.offset < SCRATCH_SLOTS &&
      MeetingOk(m)
    ensures TwapInv(FireSlices(d, tag, now, m), tag, rest, before) && !FireSlices(d, tag, now, m).algo.base.done
    ensures FireSlices(d, tag, now, m).algo.base.parent == d.algo.base.parent
    decreases d.algo.slices - d.algo.slicesDone
  {
    hide TwapInv, Shape, FireSlice, AnswerOk;
    if SliceDue(d.algo, now) {
      SliceKeeps(d, tag, rest, before, m.answers(d.algo.slicesDone));
      SliceCounts(d, tag, m.answers(d.algo.slicesDone));
      SlicesKeep(FireSlice(d, tag, m.answers(d.algo.slicesDone)), tag, rest, before, now, m);
    }
  }

  lemma SliceCounts(d: Desk<Twap>, tag: Tag, ans: Answer)
    requires Shape(d.oms) && tag.offset < SCRATCH_SLOTS
    ensures FireSlice(d, tag, ans).algo == d.algo.(base := FireSlice(d, tag, ans).algo.base,
      slicesDone := d.algo.slicesDone + 1)
  {
  }

  lemma CrossRoom(d: Desk<Twap>, tag: Tag, rest: map<OrderId, int>, before: int, residual: int)
    requires TwapInv(d, tag, rest, before)
    requires residual == d.algo.base.parent.qty - d.algo.base.filled - InFlight(d.algo.base)
    ensures residual > 0 ==> d.algo.base.filled + InFlight(d.algo.base) + residual <= Max(d.algo.base.parent.qty, 0)
  {
  }

  lemma CrossIs(d: Desk<Twap>, tag: Tag, m: Meeting, residual: int)
    requires Shape(d.oms) && tag.offset < SCRATCH_SLOTS && !d.algo.deadlineDone
    requires residual == d.algo.base.parent.qty - d.algo.base.filled - InFlight(d.algo.base)
    ensures
      var b := d.algo.base;
      var d' := SendChild(Desk(CancelEach(d.oms, m.order, m.sent), b), tag, residual, CrossPrice(b.parent, m.touch),
        m.cross);
      TwapCross(d, tag, m) == Desk(d'.oms, d.algo.(base := d'.algo).(deadlineDone := true))
  {
    hide SendChild, Shape, CancelEach;
  }

  lemma CrossedMeeting(m: Meeting)
    requires MeetingOk(m)
    ensures AnswerOk(m.cross)
  {
  }

  lemma CancelsKeep(d: Desk<Twap>, tag: Tag, rest: map<OrderId, int>, before: int, order: seq<OrderId>,
      sent: set<OrderId>)
    requires TwapInv(d, tag, rest, before) && Shape(d.oms)
    ensures TwapInv(Desk(CancelEach(d.oms, order, sent), d.algo), tag, rest, before)
  {
    hide *;
    var b := d.algo.base;
    TwapParts(d, tag, rest, before);
    TracksParts(d.oms, b.children + rest, before + b.filled, tag);
    CancelsSteady(d.oms, order, sent, tag);
    TracksSteady(d.oms, CancelEach(d.oms, order, sent), b.children + rest, before + b.filled, tag);
    TwapWhole(CancelEach(d.oms, order, sent), d.algo, tag, rest, before, b.filled);
  }

  lemma CrossOnce(d: Desk<Twap>, tag: Tag, m: Meeting)
    requires Shape(d.oms) && tag.offset < SCRATCH_SLOTS && d.algo.deadlineDone
    ensures TwapCross(d, tag, m) == d
  {
  }

  lemma CrossKeeps(d: Desk<Twap>, tag: Tag, rest: map<OrderId, int>, before: int, m: Meeting)
    requires TwapInv(d, tag, rest, before) && Shape(d.oms) && !d.algo.base.done && tag.offset < SCRATCH_SLOTS &&
      MeetingOk(m)
    ensures TwapInv(TwapCross(d, tag, m), tag, rest, before) && !TwapCross(d, tag, m).algo.base.done
    ensures TwapCross(d, tag, m).algo.base.parent == d.algo.base.parent
  {
    hide *;
    if d.algo.deadlineDone {
      CrossOnce(d, tag, m);
    } else {
      var b := d.algo.base;
      var s1 := CancelEach(d.oms, m.order, m.sent);
      var residual := b.parent.qty - b.filled - InFlight(b);
      CrossedMeeting(m);
      CancelsKeep(d, tag, rest, before, m.order, m.sent);
      CrossRoom(d, tag, rest, before, residual);
      SendKeeps(Desk(s1, d.algo), tag, rest, before, residual, CrossPrice(b.parent, m.touch), m.cross);
      var d' := SendChild(Desk(s1, b), tag, residual, CrossPrice(b.parent, m.touch), m.cross);
      CrossFlag(Desk(d'.oms, d.algo.(base := d'.algo)), tag, rest, before);
      CrossIs(d, tag, m, residual);
    }
  }

  lemma CrossFlag(d: Desk<Twap>, tag: Tag, rest: map<OrderId, int>, before: int)
    requires TwapInv(d, tag, rest, before)
    ensures TwapInv(Desk(d.oms, d.algo.(deadlineDone := true)), tag, rest, before)
  {
    hide Tracks;
  }

  lemma ConcludeKeeps(d: Desk<Twap>, tag: Tag, rest: map<OrderId, int>, before: int)
    requires TwapInv(d, tag, rest, before) && !d.algo.base.done
    ensures TwapInv(Desk(d.oms, d.algo.(base := Conclude(d.algo.base, InFlight(d.algo.base)))), tag, rest, before)
  {
    hide Tracks;
    PositiveSum(d.algo.base.children);
  }

  lemma ReachedKeeps(d: Desk<Twap>, tag: Tag, rest: map<OrderId, int>, before: int)
    requires TwapInv(d, tag, rest, before) && !d.algo.base.done
    ensures TwapInv(Desk(d.oms, d.algo.(base := d.algo.base.(done := d.algo.base.done ||
      d.algo.base.filled >= d.algo.base.parent.qty))), tag, rest, before)
  {
    hide Tracks;
    PositiveSum(d.algo.base.children);
  }

  /** A timer, early or late, before or after the deadline, keeps the invariant. */
  lemma TimerKeeps(d: Desk<Twap>, tag: Tag, rest: map<OrderId, int>, before: int, now: int, m: Meeting)
    requires TwapInv(d, tag, rest, before) && Shape(d.oms) && tag.offset < SCRATCH_SLOTS && MeetingOk(m)
    ensures TwapInv(TwapTimer(d, tag, now, m), tag, rest, before)
  {
    hide TwapInv, Shape, TwapCross, FireSlices, MeetingOk, Conclude;
    if !d.algo.base.done {
      if now >= d.algo.base.parent.end {
        CrossKeeps(d, tag, rest, before, m);
        ConcludeKeeps(TwapCross(d, tag, m), tag, rest, before);
      } else {
        SlicesKeep(d, tag, rest, before, now, m);
        ReachedKeeps(FireSlices(d, tag, now, m), tag, rest, before);
      }
    }
  }

  // ---- runs ----

  /** One step of an algorithm and the order manager it sends to. */
  datatype AlgoAct =
    | Arrive(event: Inbound)                            // the venue reports, subscribers are told
    | Timer(now: int, meeting: Meeting)
    | Withdraw(order: seq<OrderId>, sent: set<OrderId>) // the strategy cancels the algorithm's children
    | Elsewhere(op: Op)                                 // anything else that happens to the order manager

  /** An event names the order that holds the slot of its id, or no current order; nobody else
      stamps this algorithm's tag. */
  ghost predicate Allowed(s: Oms, children: map<OrderId, int>, tag: Tag, a: AlgoAct)
    requires Shape(s)
  {
    match a
    case Arrive(e) => Genuine(s, e.id)
    case Timer(_, m) => MeetingOk(m) && Lists(m.order, children.Keys)
    case Withdraw(order, _) => Lists(order, children.Keys)
    case Elsewhere(op) => OpOk(op) && !op.Deliver? && (op.SubmitOp? ==> !Stamps(op.req, tag))
  }

  ghost function TwapStep(d: Desk<Twap>, tag: Tag, a: AlgoAct): Desk<Twap>
    requires Shape(d.oms) && tag.offset < SCRATCH_SLOTS && Allowed(d.oms, d.algo.base.children, tag, a)
  {
    match a
    case Arrive(e) => Desk(Receive(d.oms, e), TellTwap(d.algo, NoticeOf(d.oms, e), tag))
    case Timer(now, m) => TwapTimer(d, tag, now, m)
    case Withdraw(order, sent) => Desk(CancelEach(d.oms, order, sent), d.algo)
    case Elsewhere(op) => Desk(Apply(d.oms, op), d.algo)
  }

  ghost predicate TwapRun(tag: Tag, p: Parent, slices: int, states: seq<Desk<Twap>>, acts: seq<AlgoAct>) {
    && tag.offset < SCRATCH_SLOTS && |states| == |acts| + 1
    && Inv(states[0].oms) && Indexed(states[0].oms) && OpenOf(states[0].oms, tag) == map[]
    && states[0].algo == StartTwap(p, slices)
    && (forall k :: 0 <= k < |acts| ==> Shape(states[k].oms))
    && (forall k :: 0 <= k < |acts| ==> Allowed(states[k].oms, states[k].algo.base.children, tag, acts[k]))
    && (forall k :: 0 <= k < |acts| ==> states[k + 1] == TwapStep(states[k], tag, acts[k]))
  }

  lemma RequestInArray(req: OrderRequest, route: Route)
    requires WellFormed(req, route)
    ensures req.workerOffset < SCRATCH_SLOTS
  {
  }

  lemma ElsewhereSteady(s: Oms, tag: Tag, op: Op)
    requires Inv(s) && Shape(s) && Allowed(s, map[], tag, Elsewhere(op))
    ensures Steady(s, Apply(s, op), tag)
  {
    hide Inv, Shape, Quiet, Submit, Cancel, CheckAckTimeouts, Stamps, Indexed, OpenOf, WellFormed, Steady;
    if op.SubmitOp? {
      RequestInArray(op.req, op.route);
      SubmitSends(s, op.req, op.route, op.now, op.accepts, tag);
      UnstampedSteady(s, Apply(s, op), op.req, SubmittedId(s, op.req, op.route), tag);
    } else {
      ApplyKeeps(s, op);
      OtherOpsQuiet(s, op);
      QuietSteady(s, Apply(s, op), tag);
    }
  }

  lemma UnstampedSteady(s: Oms, s': Oms, req: OrderRequest, id: Option<OrderId>, tag: Tag)
    requires req.workerOffset < SCRATCH_SLOTS && !Stamps(req, tag) && Inv(s') && Sends(s, s', req, id, tag)
    ensures Steady(s, s', tag)
  {
    hide Inv, Indexed, OpenOf, Stamps;
  }

  lemma StepKeeps(d: Desk<Twap>, tag: Tag, before: int, a: AlgoAct)
    requires TwapInv(d, tag, map[], before) && Shape(d.oms) && tag.offset < SCRATCH_SLOTS
    requires Allowed(d.oms, d.algo.base.children, tag, a)
    ensures TwapInv(TwapStep(d, tag, a), tag, map[], before)
  {
    hide TwapInv, TwapOk, Tracks, Shape, Receive, NoticeOf, TellTwap, TwapTimer, CancelEach, Apply;
    hide Inv, MeetingOk, Lists, Genuine, Steady, IsCurrent, OpOk, Stamps;
    TracksIf(d, tag, before);
    match a {
      case Arrive(e) =>
        EventKeeps(d, tag, before, e);
      case Timer(now, m) =>
        TimerKeeps(d, tag, map[], before, now, m);
      case Withdraw(order, sent) =>
        CancelsKeep(d, tag, map[], before, order, sent);
      case Elsewhere(op) =>
        ElsewhereKeeps(d, tag, before, op);
    }
  }

  lemma ElsewhereKeeps(d: Desk<Twap>, tag: Tag, before: int, op: Op)
    requires TwapInv(d, tag, map[], before) && Shape(d.oms) && Allowed(d.oms, map[], tag, Elsewhere(op)) && OpOk(op)
    ensures TwapInv(Desk(Apply(d.oms, op), d.algo), tag, map[], before)
  {
    hide *;
    TwapAlone(d.oms, d.algo, tag, before);
    TracksIf(d, tag, before);
    ElsewhereSteady(d.oms, tag, op);
    TracksSteady(d.oms, Apply(d.oms, op), d.algo.base.children, before + d.algo.base.filled, tag);
    TwapAlone(Apply(d.oms, op), d.algo, tag, before);
  }

  lemma TracksIf(d: Desk<Twap>, tag: Tag, before: int)
    requires TwapInv(d, tag, map[], before)
    ensures Inv(d.oms)
  {
    hide Inv;
  }

  lemma StartOk(p: Parent, slices: int)
    ensures TwapOk(StartTwap(p, slices))
  {
  }

  lemma {:induction false} TwapRunKeeps(tag: Tag, p: Parent, slices: int, states: seq<Desk<Twap>>,
      acts: seq<AlgoAct>, n: nat)
    requires TwapRun(tag, p, slices, states, acts) && n < |states|
    ensures TwapInv(states[n], tag, map[], Sum(states[0].oms.book, FilledUnder(tag)))
  {
    hide TwapStep, Allowed, Inv, TwapOk, StartTwap;
    if n == 0 {
      StartOk(p, slices);
      StartEmpty(p, slices);
      assert states[0].algo.base.children + map[] == map[];
    } else {
      hide TwapInv;
      TwapRunKeeps(tag, p, slices, states, acts, n - 1);
      var k := n - 1;
      assert states[k + 1] == TwapStep(states[k], tag, acts[k]);
      StepKeeps(states[k], tag, Sum(states[0].oms.book, FilledUnder(tag)), acts[k]);
    }
  }

  lemma StartEmpty(p: Parent, slices: int)
    ensures StartTwap(p, slices).base.children == map[] && StartTwap(p, slices).base.filled == 0
  {
  }

  lemma {:induction false} SameParent(tag: Tag, p: Parent, slices: int, states: seq<Desk<Twap>>, acts: seq<AlgoAct>,
      n: nat)
    requires TwapRun(tag, p, slices, states, acts) && n < |states|
    ensures states[n].algo.base.parent == p
  {
    hide Inv, Shape, Indexed, OpenOf, TwapTimer, Receive, Apply, CancelEach, NoticeOf, Allowed;
    if n > 0 {
      SameParent(tag, p, slices, states, acts, n - 1);
      var k := n - 1;
      assert states[k + 1] == TwapStep(states[k], tag, acts[k]);
      if acts[k].Timer? {
        TimerParent(states[k], tag, acts[k].now, acts[k].meeting);
      }
    }
  }

  lemma TimerParent(d: Desk<Twap>, tag: Tag, now: int, m: Meeting)
    requires Shape(d.oms) && tag.offset < SCRATCH_SLOTS
    ensures TwapTimer(d, tag, now, m).algo.base.parent == d.algo.base.parent
    ensures TwapTimer(d, tag, now, m).algo.base.filled == d.algo.base.filled
  {
    hide SendChild, CancelEach, Shape, FireSlices, InFlight;
    forall d0: Desk<Base>, qty: int, price: int, ans: Answer | Shape(d0.oms)
      ensures SendChild(d0, tag, qty, price, ans).algo.parent == d0.algo.parent
      ensures SendChild(d0, tag, qty, price, ans).algo.filled == d0.algo.filled
    {
      SendBooks(d0, tag, qty, price, ans);
    }
    SlicesParent(d, tag, now, m);
  }

  lemma {:induction false} SlicesParent(d: Desk<Twap>, tag: Tag, now: int, m: Meeting)
    requires Shape(d.oms) && tag.offset < SCRATCH_SLOTS
    ensures FireSlices(d, tag, now, m).algo.base.parent == d.algo.base.parent
    ensures FireSlices(d, tag, now, m).algo.base.filled == d.algo.base.filled
    decreases d.algo.slices - d.algo.slicesDone
  {
    hide SendChild, Shape, InFlight;
    if SliceDue(d.algo, now) {
      var b := d.algo.base;
      SendBooks(Desk(d.oms, b), tag, SliceQty(Unsent(b.parent, b.filled, InFlight(b)),
        d.algo.slices - d.algo.slicesDone),
                b.parent.limit, m.answers(d.algo.slicesDone));
      SlicesParent(FireSlice(d, tag, m.answers(d.algo.slicesDone)), tag, now, m);
    }
  }

  /** In every state of every run: what is filled and in flight never exceeds the parent order; the
      children are exactly the order manager's open orders with this tag, each with the quantity it
      has left there; what was executed under the tag since the start is what the algorithm counts;
      and once done, nothing is in flight and the target was hit or the run is flagged incomplete. */
  lemma TwapNeverOverSends(tag: Tag, p: Parent, slices: int, states: seq<Desk<Twap>>, acts: seq<AlgoAct>, n: nat)
    requires TwapRun(tag, p, slices, states, acts) && n < |states|
    ensures
      var b := states[n].algo.base;
      && Indexed(states[n].oms)
      && b.filled + InFlight(b) <= Max(p.qty, 0)
      && b.children == OpenOf(states[n].oms, tag)
      && Sum(states[n].oms.book, FilledUnder(tag)) - Sum(states[0].oms.book, FilledUnder(tag)) == b.filled
      && (b.done ==> b.children == map[] && if b.incomplete then b.filled < p.qty else b.filled == Max(p.qty, 0))
  {
    hide TwapStep, Allowed, Inv, StartTwap;
    TwapRunKeeps(tag, p, slices, states, acts, n);
    SameParent(tag, p, slices, states, acts, n);
    var before := Sum(states[0].oms.book, FilledUnder(tag));
    TwapAlone(states[n].oms, states[n].algo, tag, before);
    TracksParts(states[n].oms, states[n].algo.base.children, before + states[n].algo.base.filled, tag);
    hide Tracks, TwapInv, Indexed, OpenOf;
    PositiveSum(states[n].algo.base.children);
  }
}
