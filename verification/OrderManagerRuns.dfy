/** Safety of the order manager over whole runs of submits, cancels, timeouts and venue events. */
module OrderManagerRuns {
  import opened OrderIds
  import opened Orders
  import opened OrderManagerSpec
  import opened OrderManagerInvariants
  import opened OrderManagerKeeps
  import opened OrderManagerHistory
  import opened Sums

  datatype Op =
    | Deliver(event: Inbound)
    | SubmitOp(req: OrderRequest, route: Route, now: int, accepts: set<OrderId>)
    | CancelOp(id: OrderId, sent: bool)
    | TimeoutsOp(now: int, timeout: int, accepts: set<OrderId>)
    | ReconnectOp           // a venue reconnected: request a reconcile
    | ClearReconcileOp
    | ResetCycleOp

  ghost predicate OpOk(op: Op) {
    op.SubmitOp? ==> WellFormed(op.req, op.route)
  }

  ghost function Apply(s: Oms, op: Op): Oms
    requires Shape(s) && OpOk(op)
  {
    match op
    case Deliver(e) => Receive(s, e)
    case SubmitOp(req, route, now, accepts) => Submit(s, req, route, now, accepts)
    case CancelOp(id, sent) => Cancel(s, id, sent)
    case TimeoutsOp(now, timeout, accepts) => CheckAckTimeouts(s, now, timeout, accepts)
    case ReconnectOp => s.(reconcile := true)
    case ClearReconcileOp => s.(reconcile := false)
    case ResetCycleOp => s.(incomplete := false)
  }

  ghost predicate Minted(s: Oms, id: OrderId) {
    exists i :: 0 <= i < |s.book| && s.book[i].id == id
  }

  /** No slot has been recycled 2^16 times, so no generation has wrapped. */
  ghost predicate NoWrap(s: Oms) {
    forall k :: 0 <= k < |s.recycles| ==> s.recycles[k] < GENERATIONS
  }

  /** An inbound event names the order that holds the slot of its id, or no current order at all. */
  ghost predicate Admissible(s: Oms, op: Op)
    requires Shape(s)
  {
    OpOk(op) && (op.Deliver? ==> Genuine(s, op.event.id))
  }

  /** Venues report ids they were given; any other id must at least not pass for a current one. */
  ghost predicate Reported(s: Oms, op: Op) {
    OpOk(op) && (op.Deliver? ==> Minted(s, op.event.id) || !IsCurrent(s, op.event.id))
  }

  // ---- ids ----

  /** Exactly when the id of an order whose slot was released passes for a current one again: its
      slot is in use and has been recycled a positive multiple of 2^16 times since. */
  lemma StaleExactly(s: Oms, i: nat)
    requires Inv(s) && i < |s.book| && !Held(s, i)
    ensures s.recycles[s.book[i].id.slot] > s.births[i]
    ensures IsCurrent(s, s.book[i].id) <==>
      s.book[i].id.slot in s.table && (s.recycles[s.book[i].id.slot] - s.births[i]) % GENERATIONS == 0
  {
    assert MintInv(s);
    SameResidue(s.recycles[s.book[i].id.slot], s.births[i]);
  }

  lemma SameResidue(a: nat, b: nat)
    ensures a % GENERATIONS == b % GENERATIONS <==> (a - b) % GENERATIONS == 0
  {
  }

  /** An id is current exactly while its own order holds the slot. */
  lemma CurrentIsHeld(s: Oms, i: nat)
    requires Inv(s) && NoWrap(s) && i < |s.book|
    ensures IsCurrent(s, s.book[i].id) <==> Held(s, i)
    ensures Genuine(s, s.book[i].id)
  {
    assert MintInv(s) && PoolInv(s);
    hide Inv, IsCurrent, Held, Genuine, MintInv, PoolInv, NoWrap;
    MintedHeld(s, i);
  }

  lemma MintedHeld(s: Oms, i: nat)
    requires PoolInv(s) && Shape(s) && MintInv(s) && NoWrap(s) && i < |s.book|
    ensures IsCurrent(s, s.book[i].id) <==> Held(s, i)
    ensures Genuine(s, s.book[i].id)
  {
  }

  lemma MintedGenuine(s: Oms, id: OrderId)
    requires Inv(s) && NoWrap(s) && (Minted(s, id) || !IsCurrent(s, id))
    ensures Genuine(s, id)
  {
    if Minted(s, id) {
      var i :| 0 <= i < |s.book| && s.book[i].id == id;
      CurrentIsHeld(s, i);
    }
  }

  /** While no generation has wrapped, whatever a venue reports is admissible. */
  lemma ReportedIsAdmissible(s: Oms, op: Op)
    requires Inv(s) && Shape(s) && NoWrap(s) && Reported(s, op)
    ensures Admissible(s, op)
  {
    hide Inv, NoWrap, Shape;
    if op.Deliver? {
      MintedGenuine(s, op.event.id);
    }
  }

  /** No two orders of a run share an id, in spite of slot reuse and the 16-bit sequence. */
  lemma IdsDistinct(s: Oms, i: nat, j: nat)
    requires Inv(s) && NoWrap(s) && i < j < |s.book|
    ensures s.book[i].id != s.book[j].id
  {
    assert MintInv(s);
  }

  /** Exactly when an order carries the id that packs to the word 0, which submit returns for "not
      sent": venue 0, slot 0 after a positive multiple of 2^16 releases, and a wrapped sequence. */
  lemma ZeroExactly(s: Oms, i: nat)
    requires Inv(s) && i < |s.book|
    ensures s.book[i].id.slot < |s.recycles| && s.births[i] <= s.recycles[s.book[i].id.slot]
    ensures EncodeId(s.book[i].id) == 0 <==>
      var id := s.book[i].id;
      id.venue == 0 && id.slot == 0 && id.sequence == 0 && s.births[i] > 0 && s.births[i] % GENERATIONS == 0
  {
    assert MintInv(s) && FirstInv(s);
    ZeroWord(s.book[i].id);
  }

  /** So until slot 0 has been recycled 2^16 times no order's word is 0. */
  lemma NeverZero(s: Oms, i: nat)
    requires Inv(s) && i < |s.book| && (|s.recycles| > 0 ==> s.recycles[0] < GENERATIONS)
    ensures EncodeId(s.book[i].id) != 0
  {
    ZeroExactly(s, i);
    hide Inv, EncodeId;
  }

  /** Allocated orders have distinct ids whatever was recycled, and the packed word gives back the
      slot and the venue. */
  lemma AllocatedIds(s: Oms, k: nat, l: nat)
    requires Inv(s) && Shape(s) && k in s.table && l in s.table
    ensures Decode(EncodeId(s.book[s.table[k]].id)) == s.book[s.table[k]].id
    ensures Decode(EncodeId(s.book[s.table[k]].id)).slot == k
    ensures EncodeId(s.book[s.table[k]].id) == EncodeId(s.book[s.table[l]].id) <==> k == l
  {
    AllocatedId(s, k);
    AllocatedId(s, l);
    hide *;
    RoundTrip(s.book[s.table[k]].id);
    EncodeInjective(s.book[s.table[k]].id, s.book[s.table[l]].id);
  }

  lemma AllocatedId(s: Oms, k: nat)
    requires Inv(s) && Shape(s) && k in s.table
    ensures s.table[k] < |s.book| && InRange(s.book[s.table[k]].id) && s.book[s.table[k]].id.slot == k
  {
    assert PoolInv(s) && MintInv(s);
  }

  // ---- runs ----

  ghost predicate Run(states: seq<Oms>, ops: seq<Op>) {
    && |states| == |ops| + 1
    && Inv(states[0])
    && (forall k :: 0 <= k < |ops| ==> Shape(states[k]) && Admissible(states[k], ops[k]))
    && (forall k :: 0 <= k < |ops| ==> states[k + 1] == Apply(states[k], ops[k]))
  }

  lemma InvShape(s: Oms)
    requires Inv(s)
    ensures Shape(s)
  {
  }

  lemma FlagOps(s: Oms, op: Op)
    requires Shape(s) && (op.ReconnectOp? || op.ClearReconcileOp? || op.ResetCycleOp?)
    ensures Flags(s, Apply(s, op))
  {
  }

  lemma ApplyKeeps(s: Oms, op: Op)
    requires Inv(s) && Shape(s) && Admissible(s, op)
    ensures Inv(Apply(s, op)) && Extends(s, Apply(s, op))
  {
    hide Inv, Extends, Receive, Submit, Cancel, CheckAckTimeouts, Flags, Genuine, Shape, WellFormed;
    match op {
      case Deliver(e) =>
        ReceiveKeeps(s, e);
        ReceiveExtends(s, e);
      case SubmitOp(req, route, now, accepts) =>
        SubmitKeeps(s, req, route, now, accepts);
        SubmitExtends(s, req, route, now, accepts);
      case CancelOp(id, sent) =>
        CancelKeeps(s, id, sent);
        CancelExtends(s, id, sent);
      case TimeoutsOp(now, timeout, accepts) =>
        TimeoutsKeep(s, now, timeout, accepts);
        TimeoutsExtend(s, now, timeout, accepts);
      case _ =>
        FlagOps(s, op);
        FlagsKeep(s, Apply(s, op));
        FlagsExtend(s, Apply(s, op));
    }
  }

  /** Every state of a run satisfies the invariant. */
  lemma {:induction false} RunKeeps(states: seq<Oms>, ops: seq<Op>, k: nat)
    requires Run(states, ops) && k < |states|
    ensures Inv(states[k])
  {
    hide Inv, Extends, Admissible, Apply, Shape;
    if k > 0 {
      RunKeeps(states, ops, k - 1);
      ApplyKeeps(states[k - 1], ops[k - 1]);
    }
  }

  /** Along a run orders keep their terms, terminal records never change, and no fill is forgotten. */
  lemma {:induction false} RunExtends(states: seq<Oms>, ops: seq<Op>, j: nat, k: nat)
    requires Run(states, ops) && j <= k < |states|
    ensures Extends(states[j], states[k])
    decreases k
  {
    hide Inv, Extends, Admissible, Apply, Shape;
    if j == k {
      SelfExtends(states[j]);
    } else {
      RunExtends(states, ops, j, k - 1);
      RunKeeps(states, ops, k - 1);
      ApplyKeeps(states[k - 1], ops[k - 1]);
      ExtendsTransitive(states[j], states[k - 1], states[k]);
    }
  }

  /** Reports of ids the manager minted, or of ids that are not current, make a run as long as no
      generation has wrapped. */
  lemma {:induction false} ReportedRun(states: seq<Oms>, ops: seq<Op>, n: nat)
    requires |states| == |ops| + 1 && Inv(states[0]) && n < |states|
    requires forall k :: 0 <= k < |ops| ==> (
      && Shape(states[k]) && NoWrap(states[k]) && OpOk(ops[k]) && Reported(states[k], ops[k])
      && states[k + 1] == Apply(states[k], ops[k]))
    ensures Run(states[..n + 1], ops[..n]) && Inv(states[n])
  {
    hide Inv, Extends, NoWrap, Admissible, Reported, Apply, Shape;
    if n > 0 {
      var k := n - 1;
      ReportedRun(states, ops, k);
      forall j | 0 <= j < n ensures Admissible(states[j], ops[j]) {
        if j < k {
          assert states[..n][j] == states[j] && ops[..k][j] == ops[j];
        } else {
          ReportedIsAdmissible(states[k], ops[k]);
        }
      }
      ApplyKeeps(states[k], ops[k]);
      assert states[k + 1] == Apply(states[k], ops[k]);
    }
  }

  /** Recycle counts only grow, so a run that ends unwrapped was unwrapped throughout. */
  lemma UnwrappedBefore(states: seq<Oms>, ops: seq<Op>, m: nat, n: nat)
    requires Run(states, ops) && m <= n < |states| && NoWrap(states[n])
    ensures NoWrap(states[m])
  {
    hide Inv, Admissible, Apply, Shape;
    RunExtends(states, ops, m, n);
  }

  /** Exactly once, by serial number: over a whole run, however often slots are recycled, no trade of
      an order is recorded twice. */
  lemma ExactlyOncePerOrder(states: seq<Oms>, ops: seq<Op>, n: nat, k: nat, l: nat)
    requires Run(states, ops) && n < |states| && k < l < |states[n].ledger|
    ensures states[n].ledger[k].order != states[n].ledger[l].order ||
      states[n].ledger[k].trade != states[n].ledger[l].trade
  {
    RunKeeps(states, ops, n);
    assert TradesInv(states[n]);
  }

  /** Exactly once: over a whole run each (id, trade) pair is recorded at most once, although the
      trade set of an order is erased when it retires and its slot is later reused. */
  lemma ExactlyOnce(states: seq<Oms>, ops: seq<Op>, n: nat, k: nat, l: nat)
    requires Run(states, ops) && n < |states| && NoWrap(states[n]) && k < l < |states[n].ledger|
    ensures states[n].ledger[k].id != states[n].ledger[l].id || states[n].ledger[k].trade != states[n].ledger[l].trade
  {
    RunKeeps(states, ops, n);
    EntriesDistinct(states[n], k, l);
  }

  lemma EntriesDistinct(s: Oms, k: nat, l: nat)
    requires Inv(s) && NoWrap(s) && k < l < |s.ledger|
    ensures s.ledger[k].id != s.ledger[l].id || s.ledger[k].trade != s.ledger[l].trade
  {
    assert TradesInv(s) && EntryOk(s, s.ledger[k]) && EntryOk(s, s.ledger[l]);
    var i, j := s.ledger[k].order, s.ledger[l].order;
    if i < j {
      IdsDistinct(s, i, j);
    } else if j < i {
      IdsDistinct(s, j, i);
    }
  }

  /** Positions are the signed sum of the recorded fills, and of every order's filled size. */
  lemma PositionsAreFills(states: seq<Oms>, ops: seq<Op>, n: nat, inst: nat)
    requires Run(states, ops) && n < |states|
    ensures PositionOf(states[n], inst).net == Sum(states[n].ledger, NetOn(inst))
    ensures PositionOf(states[n], inst).net == Sum(states[n].book, FilledOn(inst))
    ensures PositionOf(states[n], inst).amount == Sum(states[n].ledger, AmountOn(inst))
    ensures PositionOf(states[n], inst).volume == Sum(states[n].ledger, VolumeOn(inst))
  {
    RunKeeps(states, ops, n);
    assert PositionInv(states[n]);
  }

  /** Pending quantity is the signed sum of what the live orders have left. */
  lemma PendingIsOpen(states: seq<Oms>, ops: seq<Op>, n: nat, inst: nat)
    requires Run(states, ops) && n < |states|
    ensures PendingOf(states[n], inst) == Sum(states[n].book, OpenOn(inst))
  {
    RunKeeps(states, ops, n);
    assert PendingInv(states[n]);
  }

  /** The guards hand over to one another: once a fill is recorded, reporting its trade again
      changes no record, no position, no pending quantity and no trade set, in any later state. */
  lemma ReplayIsDropped(states: seq<Oms>, ops: seq<Op>, m: nat, n: nat, k: nat, e: Inbound)
    requires Run(states, ops) && m <= n < |states| && NoWrap(states[n])
    requires k < |states[m].ledger|
    requires e.FillReport? && e.id == states[m].ledger[k].id && e.trade == states[m].ledger[k].trade
    ensures Inv(states[n]) && Shape(states[n])
    ensures Validate(states[n], e) != Accepted
    ensures Flags(states[n], OnFill(states[n], e))
  {
    RunKeeps(states, ops, n);
    RunExtends(states, ops, m, n);
    assert states[n].ledger[k] == states[m].ledger[k];
    RecordedIsRefused(states[n], k, e);
    hide Inv, NoWrap, Run, Validate, OnFill, Flags, Extends;
    if Validate(states[n], e) == UnknownOrder {
      FillUnknown(states[n], e);
    } else {
      FillDropped(states[n], e);
    }
  }

  lemma RecordedIsRefused(s: Oms, k: nat, e: Inbound)
    requires Inv(s) && NoWrap(s) && k < |s.ledger|
    requires e.FillReport? && e.id == s.ledger[k].id && e.trade == s.ledger[k].trade
    ensures Shape(s) && Validate(s, e) != Accepted
  {
    var i := s.ledger[k].order;
    assert EntryOk(s, s.ledger[k]);
    CurrentIsHeld(s, i);
    assert TradesInv(s);
  }

  /** A terminal order's record is the same in every later state of the run. */
  lemma TerminalIsFinal(states: seq<Oms>, ops: seq<Op>, m: nat, n: nat, i: nat)
    requires Run(states, ops) && m <= n < |states|
    requires i < |states[m].book| && IsTerminal(states[m].book[i].status)
    ensures i < |states[n].book| && states[n].book[i] == states[m].book[i]
  {
    RunExtends(states, ops, m, n);
    assert Succeeds(states[m].book[i], states[n].book[i]);
  }

  /** Once released, an id is never current again. */
  lemma ReleasedStaysStale(states: seq<Oms>, ops: seq<Op>, m: nat, n: nat, i: nat)
    requires Run(states, ops) && m <= n < |states| && NoWrap(states[n]) && Inv(states[m])
    requires i < |states[m].book| && !Held(states[m], i)
    ensures !IsCurrent(states[n], states[m].book[i].id)
  {
    RunKeeps(states, ops, n);
    RunExtends(states, ops, m, n);
    StaleExactly(states[m], i);
    assert Succeeds(states[m].book[i], states[n].book[i]);
    assert states[n].births[i] == states[m].births[i];
    CurrentIsHeld(states[n], i);
    assert PoolInv(states[n]);
  }
}
