/** How TWAP divides its parent order: exact slices that do not depend on how timers fall. */
module TwapSlicing {
  import opened Orders
  import opened OrderManagerSpec
  import opened OrderManagerInvariants
  import opened OrderManagerKeeps
  import opened OrderManagerRuns
  import opened AlgoChildren
  import opened ExecutionAlgoSpec
  import opened TwapSafety
  import opened Sums
  import opened Arithmetic

  // ---- the arithmetic of slicing ----

  /** What has been sent after k slices when every slice is the ceiling of the rest over the slices
      left. */
  function SentAfter(qty: int, n: int, k: nat): int {
    if k == 0 then 0
    else
      var s := SentAfter(qty, n, k - 1);
      s + SliceQty(qty - s, n - (k - 1))
  }

  /** The ceiling of rest over slices left is one more than the floor exactly while there is a
      remainder to give away. */
  lemma NextSlice(qty: int, n: int, k: nat, b: int, r: int)
    requires qty >= 0 && n >= 1 && k < n && qty == n * b + r && 0 <= r < n && b >= 0
    ensures SliceQty(qty - (k * b + Min(k, r)), n - k) == b + (if k < r then 1 else 0)
  {
    var left := n - k;
    var rem := qty - (k * b + Min(k, r));
    var extra := if k < r then r - k else 0;
    assert n * b - k * b == left * b;
    assert rem == left * b + extra && 0 <= extra < left;
    assert left * b >= b;
    if left > 1 {
      if k < r {
        assert (b + 1) * left == left * b + left;
        DivisionOf(rem + left - 1, left, b + 1, extra - 1);
      } else {
        assert b * left == left * b;
        DivisionOf(rem + left - 1, left, b, left - 1);
      }
    }
  }

  lemma {:induction false} SentIs(qty: int, n: int, k: nat, b: int, r: int)
    requires qty >= 0 && n >= 1 && k <= n && qty == n * b + r && 0 <= r < n && b >= 0
    ensures SentAfter(qty, n, k) == k * b + Min(k, r)
  {
    if k > 0 {
      SentIs(qty, n, k - 1, b, r);
      NextSlice(qty, n, k - 1, b, r);
      assert k * b == (k - 1) * b + b;
    }
    hide SliceQty;
  }

  lemma Divided(qty: int, n: int)
    requires qty >= 0 && n >= 1
    ensures qty == n * (qty / n) + qty % n && 0 <= qty % n < n && qty / n >= 0
  {
  }

  /** After k slices, k times the floor plus one unit for each of the first qty mod n. */
  lemma SentInClosedForm(qty: int, n: int, k: nat)
    requires qty >= 0 && n >= 1 && k <= n
    ensures SentAfter(qty, n, k) == k * (qty / n) + Min(k, qty % n)
  {
    hide SentAfter, Min;
    Divided(qty, n);
    SentIs(qty, n, k, qty / n, qty % n);
  }

  lemma CeilOf(qty: int, n: int, b: int, r: int)
    requires qty >= 0 && n >= 1 && qty == n * b + r && 0 <= r < n
    ensures CeilDiv(qty, n) == b + (if r > 0 then 1 else 0)
  {
    assert b * n == n * b && (b + 1) * n == n * b + n;
    if r == 0 {
      DivisionOf(qty + n - 1, n, b, n - 1);
    } else {
      DivisionOf(qty + n - 1, n, b + 1, r - 1);
    }
  }

  lemma SliceIsFloorOrMore(qty: int, n: int, k: nat, b: int, r: int)
    requires qty >= 0 && n >= 1 && k < n && qty == n * b + r && 0 <= r < n && b >= 0
    ensures SentAfter(qty, n, k + 1) - SentAfter(qty, n, k) == b + (if k < r then 1 else 0)
  {
    SentIs(qty, n, k, b, r);
    SentIs(qty, n, k + 1, b, r);
    hide SentAfter;
    assert (k + 1) * b == k * b + b;
  }

  /** Every slice is the floor or the ceiling of qty over n, no slice is larger than the one before,
      and all n together are the whole parent order. */
  lemma SlicesAreEven(qty: int, n: int, k: nat)
    requires qty >= 0 && n >= 1 && k < n
    ensures
      var slice := SentAfter(qty, n, k + 1) - SentAfter(qty, n, k);
      && qty / n <= slice <= CeilDiv(qty, n)
      && (k + 1 < n ==> SentAfter(qty, n, k + 2) - SentAfter(qty, n, k + 1) <= slice)
    ensures SentAfter(qty, n, n) == qty
  {
    hide SentAfter, CeilDiv;
    Divided(qty, n);
    var b, r := qty / n, qty % n;
    CeilOf(qty, n, b, r);
    SliceIsFloorOrMore(qty, n, k, b, r);
    if k + 1 < n {
      SliceIsFloorOrMore(qty, n, k + 1, b, r);
    }
    SentIs(qty, n, n, b, r);
  }

  // ---- runs without refusals, rejects and cancels ----

  ghost predicate SliceAccepted(d: Desk<Twap>, tag: Tag, ans: Answer)
    requires Shape(d.oms)
  {
    var b := d.algo.base;
    var qty := SliceQty(Unsent(b.parent, b.filled, InFlight(b)), d.algo.slices - d.algo.slicesDone);
    qty > 0 ==> ChildId(d.oms, b.parent, tag, qty, b.parent.limit, ans).Some?
  }

  ghost predicate SlicesAccepted(d: Desk<Twap>, tag: Tag, now: int, m: Meeting)
    requires Shape(d.oms) && tag.offset < SCRATCH_SLOTS
    decreases d.algo.slices - d.algo.slicesDone
  {
    SliceDue(d.algo, now) ==>
      && SliceAccepted(d, tag, m.answers(d.algo.slicesDone))
      && SlicesAccepted(FireSlice(d, tag, m.answers(d.algo.slicesDone)), tag, now, m)
  }

  /** No timer at or past the deadline, no submit refused, no child rejected or cancelled. */
  ghost predicate Clean(d: Desk<Twap>, tag: Tag, a: AlgoAct)
    requires Shape(d.oms) && tag.offset < SCRATCH_SLOTS
  {
    match a
    case Arrive(e) =>
      var n := NoticeOf(d.oms, e);
      n.Silent? || !Bears(n.order, tag) || n.kind.ConfirmedEvent? || IsFill(n, tag)
    case Timer(now, m) => d.algo.base.done || (now < d.algo.base.parent.end && SlicesAccepted(d, tag, now, m))
    case Withdraw(_, _) => true
    case Elsewhere(_) => true
  }

  /** Nothing is lost, and what was sent depends on the number of slices alone. */
  ghost predicate Sliced(t: Twap) {
    && t.base.filled + InFlight(t.base) == t.base.sent
    && t.base.sent == SentAfter(Max(t.base.parent.qty, 0), t.slices, t.slicesDone)
    && !t.base.incomplete
  }

  lemma SendGrowsSum(d: Desk<Base>, tag: Tag, before: int, qty: int, price: int, ans: Answer)
    requires Tracks(d.oms, d.algo.children, before, tag) && Shape(d.oms) && tag.offset < SCRATCH_SLOTS && AnswerOk(ans)
    requires Positive(d.algo.children) && qty >= 0
    requires qty > 0 ==> ChildId(d.oms, d.algo.parent, tag, qty, price, ans).Some?
    ensures
      var b' := SendChild(d, tag, qty, price, ans).algo;
      b' == d.algo.(children := b'.children, sent := d.algo.sent + qty) && InFlight(b') == InFlight(d.algo) + qty
  {
    hide Tracks, Inv, Shape, SendChild, TwapSafety.Sent, AnswerOk, Positive, AfterSend, MapSum;
    var id := ChildId(d.oms, d.algo.parent, tag, qty, price, ans);
    var d' := SendChild(d, tag, qty, price, ans);
    TracksParts(d.oms, d.algo.children, before, tag);
    SendBooks(d, tag, qty, price, ans);
    SendSends(d, tag, qty, price, ans);
    TracksSent(d.oms, d'.oms, d.algo.children, before, tag, id, qty);
    SentSum(d.algo.children, id, qty);
  }

  lemma SlicedParts(d: Desk<Twap>, tag: Tag, before: int)
    requires TwapInv(d, tag, map[], before) && Sliced(d.algo)
    ensures var b := d.algo.base;
      var q := Max(b.parent.qty, 0);
      && Positive(b.children) && b.sent <= q
      && Unsent(b.parent, b.filled, InFlight(b)) == q - b.sent
      && b.sent == SentAfter(q, d.algo.slices, d.algo.slicesDone)
      && b.filled + InFlight(b) == b.sent && !b.incomplete
  {
    hide Tracks, SentAfter;
    PositiveSum(d.algo.base.children);
  }

  lemma AcceptedMeans(d: Desk<Twap>, tag: Tag, ans: Answer, qty: int)
    requires Shape(d.oms) && SliceAccepted(d, tag, ans)
    requires var b := d.algo.base; qty == SliceQty(Unsent(b.parent, b.filled, InFlight(b)),
      d.algo.slices - d.algo.slicesDone)
    ensures qty > 0 ==> ChildId(d.oms, d.algo.base.parent, tag, qty, d.algo.base.parent.limit, ans).Some?
  {
    hide ChildId, SliceQty, Unsent, Shape;
  }

  lemma SliceStays(d: Desk<Twap>, tag: Tag, before: int, ans: Answer)
    requires TwapInv(d, tag, map[], before) && Shape(d.oms) && tag.offset < SCRATCH_SLOTS && AnswerOk(ans)
    requires Sliced(d.algo) && d.algo.slicesDone < d.algo.slices && SliceAccepted(d, tag, ans)
    ensures Sliced(FireSlice(d, tag, ans).algo)
  {
    hide *;
    var b := d.algo.base;
    var rem := Unsent(b.parent, b.filled, InFlight(b));
    var qty := SliceQty(rem, d.algo.slices - d.algo.slicesDone);
    AcceptedMeans(d, tag, ans, qty);
    SlicedParts(d, tag, before);
    assert rem >= 0;
    SliceFits(rem, d.algo.slices - d.algo.slicesDone);
    TwapParts(d, tag, map[], before);
    assert b.children + map[] == b.children;
    SendGrowsSum(Desk(d.oms, b), tag, before + b.filled, qty, b.parent.limit, ans);
    SliceIs(d, tag, ans, qty);
    SlicedAfter(d.algo, FireSlice(d, tag, ans).algo, qty);
  }

  lemma SlicedAfter(t: Twap, t': Twap, qty: int)
    requires t.base.filled + InFlight(t.base) == t.base.sent && !t.base.incomplete
    requires t.base.sent == SentAfter(Max(t.base.parent.qty, 0), t.slices, t.slicesDone)
    requires qty == SliceQty(Max(t.base.parent.qty, 0) - t.base.sent, t.slices - t.slicesDone)
    requires t'.base == t.base.(children := t'.base.children, sent := t.base.sent + qty)
    requires InFlight(t'.base) == InFlight(t.base) + qty
    requires t'.slices == t.slices && t'.slicesDone == t.slicesDone + 1
    ensures Sliced(t')
  {
    hide SliceQty, InFlight;
  }

  /** How many slice boundaries lie at or before `now`. */
  function Boundaries(t: Twap, now: int): int
    requires t.sliceDur > 0
  {
    if now < t.base.parent.start then 0 else Min(t.slices, (now - t.base.parent.start) / t.sliceDur + 1)
  }

  lemma DueExactly(t: Twap, now: int)
    requires t.sliceDur > 0 && t.slicesDone < t.slices
    ensures SliceDue(t, now) <==> t.slicesDone < Boundaries(t, now)
  {
    var x := now - t.base.parent.start;
    WholeSteps(t.slicesDone, t.sliceDur, x);
    hide *;
  }

  lemma WholeSteps(k: nat, d: int, x: int)
    requires d > 0
    ensures k * d <= x <==> k <= x / d
  {
    var q := x / d;
    assert x == q * d + x % d;
    assert (q + 1) * d == q * d + d;
    if k * d <= x {
      MulCancel(k, q + 1, d);
    }
    if k <= q {
      assert (q - k) * d >= 0;
    }
  }

  lemma {:induction false} SlicesStay(d: Desk<Twap>, tag: Tag, before: int, now: int, m: Meeting)
    requires TwapInv(d, tag, map[], before) && Shape(d.oms) && !d.algo.base.done && tag.offset < SCRATCH_SLOTS &&
      MeetingOk(m)
    requires Sliced(d.algo) && SlicesAccepted(d, tag, now, m) && d.algo.sliceDur > 0
    requires d.algo.slicesDone <= Max(Boundaries(d.algo, now), 0) && d.algo.slicesDone <= d.algo.slices
    ensures
      var t' := FireSlices(d, tag, now, m).algo;
      Sliced(t') && t' == d.algo.(base := t'.base, slicesDone := Max(Boundaries(d.algo, now), 0))
      && t'.base.parent == d.algo.base.parent && !t'.base.done
    decreases d.algo.slices - d.algo.slicesDone
  {
    hide TwapInv, Shape, FireSlice, AnswerOk, Sliced, SliceAccepted;
    if d.algo.slicesDone < d.algo.slices {
      DueExactly(d.algo, now);
    }
    hide SliceDue;
    if SliceDue(d.algo, now) {
      DueMeans(d.algo, now);
      var ans := m.answers(d.algo.slicesDone);
      SliceKeeps(d, tag, map[], before, ans);
      SliceStays(d, tag, before, ans);
      SliceCounts(d, tag, ans);
      SlicesStay(FireSlice(d, tag, ans), tag, before, now, m);
    } else {
      NotDueMeans(d.algo, now);
    }
  }

  lemma DueMeans(t: Twap, now: int)
    requires SliceDue(t, now)
    ensures t.slicesDone < t.slices
  {
  }

  lemma NotDueMeans(t: Twap, now: int)
    requires t.sliceDur > 0 && !SliceDue(t, now) && t.slicesDone <= t.slices &&
      t.slicesDone <= Max(Boundaries(t, now), 0)
    requires t.slicesDone < t.slices ==> (SliceDue(t, now) <==> t.slicesDone < Boundaries(t, now))
    ensures t.slicesDone == Max(Boundaries(t, now), 0)
  {
  }

  lemma ToldSliced(t: Twap, n: Notice, tag: Tag)
    requires TwapOk(t) && Sliced(t) && Truthful(t.base.children, n, tag)
    requires n.Silent? || !Bears(n.order, tag) || n.kind.ConfirmedEvent? || IsFill(n, tag)
    ensures Sliced(TellTwap(t, n, tag))
  {
    NoticeSum(t.base.children, n, tag);
    if IsFill(n, tag) {
      ToldBase(t.base, n, tag);
    }
    hide AfterNotice, SentAfter, MapSum, Truthful;
  }

  lemma ArriveStays(d: Desk<Twap>, tag: Tag, before: int, e: Inbound)
    requires TwapInv(d, tag, map[], before) && Shape(d.oms) && Genuine(d.oms, e.id) && Sliced(d.algo)
    requires var n := NoticeOf(d.oms, e); n.Silent? || !Bears(n.order, tag) || n.kind.ConfirmedEvent? || IsFill(n, tag)
    ensures Sliced(TellTwap(d.algo, NoticeOf(d.oms, e), tag))
  {
    hide *;
    var n := NoticeOf(d.oms, e);
    TwapAlone(d.oms, d.algo, tag, before);
    TracksParts(d.oms, d.algo.base.children, before + d.algo.base.filled, tag);
    ReceiveTells(d.oms, e, tag);
    TracksTold(d.oms, Receive(d.oms, e), d.algo.base.children, before + d.algo.base.filled, tag, n);
    ToldSliced(d.algo, n, tag);
  }

  /** The latest timer among the first n acts. */
  ghost function LastTimer(acts: seq<AlgoAct>, n: nat): Option<int>
    requires n <= |acts|
  {
    if n == 0 then None
    else if acts[n - 1].Timer? then Some(acts[n - 1].now)
    else LastTimer(acts, n - 1)
  }

  lemma {:induction false} TimersAscend(acts: seq<AlgoAct>, n: nat)
    requires n < |acts| && acts[n].Timer? && Ascending(acts)
    ensures LastTimer(acts, n).Some? ==> LastTimer(acts, n).value <= acts[n].now
  {
    hide Ascending;
    TimersBefore(acts, n, n);
  }

  lemma {:induction false} TimersBefore(acts: seq<AlgoAct>, j: nat, n: nat)
    requires j <= n < |acts| && acts[n].Timer? && Ascending(acts)
    ensures LastTimer(acts, j).Some? ==> LastTimer(acts, j).value <= acts[n].now
  {
    if j > 0 && !acts[j - 1].Timer? {
      TimersBefore(acts, j - 1, n);
    }
  }

  ghost predicate Ascending(acts: seq<AlgoAct>) {
    forall i, j :: 0 <= i < j < |acts| && acts[i].Timer? && acts[j].Timer? ==> acts[i].now <= acts[j].now
  }

  ghost function DueAt(t: Twap, last: Option<int>): int
    requires t.sliceDur > 0
  {
    if last.None? then 0 else Max(Boundaries(t, last.value), 0)
  }

  lemma BoundariesGrow(t: Twap, a: int, b: int)
    requires t.sliceDur > 0 && t.slices >= 1 && a <= b
    ensures Boundaries(t, a) <= Boundaries(t, b)
  {
    if a >= t.base.parent.start {
      var x, y := a - t.base.parent.start, b - t.base.parent.start;
      assert x == (x / t.sliceDur) * t.sliceDur + x % t.sliceDur;
      assert y == (y / t.sliceDur) * t.sliceDur + y % t.sliceDur;
      assert (y / t.sliceDur + 1) * t.sliceDur == (y / t.sliceDur) * t.sliceDur + t.sliceDur;
      MulCancel(x / t.sliceDur, y / t.sliceDur + 1, t.sliceDur);
    } else if b >= t.base.parent.start {
      assert (b - t.base.parent.start) / t.sliceDur >= 0;
    }
  }

  /** Sliced, and while the algorithm works, exactly the boundaries due by the last timer have fired. */
  ghost predicate OnSchedule(t: Twap, last: Option<int>) {
    Sliced(t) && t.sliceDur > 0 && (t.base.done || t.slicesDone == DueAt(t, last))
  }

  lemma TimerStays(d: Desk<Twap>, tag: Tag, before: int, now: int, m: Meeting, last: Option<int>)
    requires TwapInv(d, tag, map[], before) && Shape(d.oms) && tag.offset < SCRATCH_SLOTS && MeetingOk(m)
    requires OnSchedule(d.algo, last) && Clean(d, tag, Timer(now, m)) && (last.Some? ==> last.value <= now)
    ensures OnSchedule(TwapTimer(d, tag, now, m).algo, Some(now))
  {
    hide *;
    if d.algo.base.done {
      DoneStays(d, tag, now, m, last);
    } else {
      var t, t' := FireSlices(d, tag, now, m).algo, TwapTimer(d, tag, now, m).algo;
      TwapNumbers(d, tag, before);
      DueSoFar(d.algo, last, now);
      TimerIsSlices(d, tag, now, m);
      SlicesStay(d, tag, before, now, m);
      SameBoundaries(d.algo, t, now);
      DoneSliced(t, t');
      OnScheduleNow(t, t', now);
    }
  }

  lemma DoneStays(d: Desk<Twap>, tag: Tag, now: int, m: Meeting, last: Option<int>)
    requires Shape(d.oms) && tag.offset < SCRATCH_SLOTS && d.algo.base.done && OnSchedule(d.algo, last)
    ensures OnSchedule(TwapTimer(d, tag, now, m).algo, Some(now))
  {
    hide Sliced, Shape, FireSlices, Boundaries;
  }

  lemma DueSoFar(t: Twap, last: Option<int>, now: int)
    requires OnSchedule(t, last) && !t.base.done && t.slices >= 1 && (last.Some? ==> last.value <= now)
    ensures Sliced(t) && t.sliceDur > 0 && t.slicesDone <= Max(Boundaries(t, now), 0)
  {
    hide Sliced, Boundaries;
    if last.Some? {
      BoundariesGrow(t, last.value, now);
    }
  }

  lemma TimerIsSlices(d: Desk<Twap>, tag: Tag, now: int, m: Meeting)
    requires Shape(d.oms) && tag.offset < SCRATCH_SLOTS && !d.algo.base.done && Clean(d, tag, Timer(now, m))
    ensures SlicesAccepted(d, tag, now, m) && now < d.algo.base.parent.end
    ensures
      var t, t' := FireSlices(d, tag, now, m).algo, TwapTimer(d, tag, now, m).algo;
      t' == t.(base := t.base.(done := t'.base.done))
  {
    hide Shape, FireSlices, SlicesAccepted;
  }

  lemma OnScheduleNow(t: Twap, t': Twap, now: int)
    requires Sliced(t') && t'.sliceDur > 0 && t' == t.(base := t.base.(done := t'.base.done))
    requires t.sliceDur > 0 && t.slicesDone == Max(Boundaries(t, now), 0)
    ensures OnSchedule(t', Some(now))
  {
    hide Sliced;
  }

  lemma SameBoundaries(t: Twap, t': Twap, now: int)
    requires t.sliceDur > 0 && t'.sliceDur == t.sliceDur && t'.slices == t.slices && t'.base.parent == t.base.parent
    ensures Boundaries(t', now) == Boundaries(t, now)
  {
  }

  lemma DoneSliced(t: Twap, t': Twap)
    requires Sliced(t) && t' == t.(base := t.base.(done := t'.base.done))
    ensures Sliced(t')
  {
  }

  lemma TwapNumbers(d: Desk<Twap>, tag: Tag, before: int)
    requires TwapInv(d, tag, map[], before)
    ensures d.algo.slices >= 1 && d.algo.slicesDone <= d.algo.slices && d.algo.sliceDur >= 1
  {
  }

  lemma ToldSchedule(t: Twap, n: Notice, tag: Tag)
    ensures
      var t' := TellTwap(t, n, tag);
      && t' == t.(base := t'.base) && t'.base.parent == t.base.parent
      && (t.base.done ==> t'.base.done)
  {
  }

  lemma StepStays(d: Desk<Twap>, tag: Tag, before: int, a: AlgoAct, last: Option<int>)
    requires TwapInv(d, tag, map[], before) && Shape(d.oms) && tag.offset < SCRATCH_SLOTS
    requires Allowed(d.oms, d.algo.base.children, tag, a) && Clean(d, tag, a)
    requires OnSchedule(d.algo, last) && (a.Timer? && last.Some? ==> last.value <= a.now)
    ensures OnSchedule(TwapStep(d, tag, a).algo, if a.Timer? then Some(a.now) else last)
  {
    hide TwapOk, Shape, Receive, NoticeOf, TellTwap, TwapTimer, CancelEach, Apply, IsCurrent;
    hide Inv, MeetingOk, Genuine, Sliced, SlicesAccepted, Indexed, OpenOf;
    if a.Timer? {
      TimerStays(d, tag, before, a.now, a.meeting, last);
    } else if a.Arrive? {
      ArriveStays(d, tag, before, a.event);
      ToldSchedule(d.algo, NoticeOf(d.oms, a.event), tag);
    }
  }

  lemma {:induction false} RunStays(tag: Tag, p: Parent, slices: int, states: seq<Desk<Twap>>, acts: seq<AlgoAct>,
      n: nat)
    requires TwapRun(tag, p, slices, states, acts) && n < |states| && Ascending(acts)
    requires forall k :: 0 <= k < n ==> Clean(states[k], tag, acts[k])
    ensures OnSchedule(states[n].algo, LastTimer(acts, n))
  {
    hide TwapStep, Allowed, Inv, Clean, OnSchedule, Ascending, Indexed, OpenOf, TwapInv;
    if n == 0 {
      StartOnSchedule(p, slices);
    } else {
      var k := n - 1;
      RunStays(tag, p, slices, states, acts, k);
      TwapRunKeeps(tag, p, slices, states, acts, k);
      if acts[k].Timer? {
        TimersAscend(acts, k);
      }
      assert states[k + 1] == TwapStep(states[k], tag, acts[k]);
      StepStays(states[k], tag, Sum(states[0].oms.book, FilledUnder(tag)), acts[k], LastTimer(acts, k));
    }
  }

  lemma StartOnSchedule(p: Parent, slices: int)
    ensures OnSchedule(StartTwap(p, slices), None)
  {
  }

  /** With every submit accepted and nothing rejected or cancelled before the deadline, however the
      timers fall and the fills interleave, what has been sent is a function of the parent order, the
      number of slices and the number k of boundaries due at the last timer; an algorithm that is
      done has sent the whole parent order. */
  lemma SentDependsOnBoundaries(
    tag: Tag, p: Parent, slices: int, states: seq<Desk<Twap>>, acts: seq<AlgoAct>, n: nat)
    requires TwapRun(tag, p, slices, states, acts) && n < |states| && Ascending(acts)
    requires forall k :: 0 <= k < n ==> Clean(states[k], tag, acts[k])
    ensures
      var t := states[n].algo;
      var q, m := Max(p.qty, 0), Max(1, slices);
      && t.sliceDur > 0 && t.slices == m
      && t.base.filled + InFlight(t.base) == t.base.sent
      && var k := DueAt(t, LastTimer(acts, n));
      t.base.sent == if t.base.done then q else k * (q / m) + Min(k, q % m)
  {
    hide TwapStep, Allowed, Inv, Clean, Ascending, Indexed, OpenOf, TwapInv, SentAfter, InFlight;
    RunStays(tag, p, slices, states, acts, n);
    TwapRunKeeps(tag, p, slices, states, acts, n);
    SameParent(tag, p, slices, states, acts, n);
    SameSlices(tag, p, slices, states, acts, n);
    TwapNumbers(states[n], tag, Sum(states[0].oms.book, FilledUnder(tag)));
    SentInClosedForm(Max(p.qty, 0), Max(1, slices), states[n].algo.slicesDone);
    if states[n].algo.base.done {
      DoneSentAll(states[n], tag, Sum(states[0].oms.book, FilledUnder(tag)));
    }
  }

  lemma DoneSentAll(d: Desk<Twap>, tag: Tag, before: int)
    requires TwapInv(d, tag, map[], before) && d.algo.base.done && Sliced(d.algo)
    ensures d.algo.base.sent == Max(d.algo.base.parent.qty, 0)
  {
    hide Tracks, SentAfter;
    PositiveSum(d.algo.base.children);
  }

  lemma {:induction false} SameSlices(
    tag: Tag, p: Parent, slices: int, states: seq<Desk<Twap>>, acts: seq<AlgoAct>, n: nat)
    requires TwapRun(tag, p, slices, states, acts) && n < |states|
    ensures states[n].algo.slices == Max(1, slices)
  {
    hide Inv, Shape, Indexed, OpenOf, TwapTimer, Receive, Apply, CancelEach, NoticeOf, Allowed;
    if n > 0 {
      var k := n - 1;
      SameSlices(tag, p, slices, states, acts, k);
      assert states[k + 1] == TwapStep(states[k], tag, acts[k]);
      if acts[k].Timer? {
        TimerSlices(states[k], tag, acts[k].now, acts[k].meeting);
      } else if acts[k].Arrive? {
        ToldSchedule(states[k].algo, NoticeOf(states[k].oms, acts[k].event), tag);
      }
    }
  }

  lemma TimerSlices(d: Desk<Twap>, tag: Tag, now: int, m: Meeting)
    requires Shape(d.oms) && tag.offset < SCRATCH_SLOTS
    ensures TwapTimer(d, tag, now, m).algo.slices == d.algo.slices
  {
    hide SendChild, CancelEach, Shape, FireSlices, InFlight;
    FiredSlices(d, tag, now, m);
  }

  lemma {:induction false} FiredSlices(d: Desk<Twap>, tag: Tag, now: int, m: Meeting)
    requires Shape(d.oms) && tag.offset < SCRATCH_SLOTS
    ensures FireSlices(d, tag, now, m).algo.slices == d.algo.slices
    decreases d.algo.slices - d.algo.slicesDone
  {
    hide Shape, FireSlice;
    if SliceDue(d.algo, now) {
      SliceCounts(d, tag, m.answers(d.algo.slicesDone));
      FiredSlices(FireSlice(d, tag, m.answers(d.algo.slicesDone)), tag, now, m);
    }
  }
}
