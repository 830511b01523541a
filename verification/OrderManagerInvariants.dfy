/** What every operation of the order manager keeps, one predicate per concern. */
module OrderManagerInvariants {
  import opened OrderIds
  import opened Orders
  import opened OrderManagerSpec
  import opened Sums

  /** The order with serial i holds the slot its id names. */
  ghost predicate Held(s: Oms, i: nat)
    requires i < |s.book|
  {
    var slot := s.book[i].id.slot;
    slot in s.table && s.table[slot] == i
  }

  /** Every slot is free or holds exactly one order, whose id carries the slot's generation. */
  ghost predicate PoolInv(s: Oms) {
    && Shape(s)
    && |s.recycles| <= MAX_SLOTS
    && (forall k :: k in s.table ==>
          && s.book[s.table[k]].id.slot == k
          && s.book[s.table[k]].id.generation == s.recycles[k] % GENERATIONS
          && s.births[s.table[k]] == s.recycles[k])
    && (forall j :: 0 <= j < |s.free| ==> s.free[j] !in s.table)
    && (forall j, l :: 0 <= j < l < |s.free| ==> s.free[j] != s.free[l])
    && (forall k :: 0 <= k < |s.recycles| ==> k in s.table || k in s.free)
  }

  /** Each serial has its own (slot, birth): births in one slot increase with the serial. */
  ghost predicate MintInv(s: Oms)
    requires Shape(s)
  {
    && (forall i :: 0 <= i < |s.book| ==>
          && InRange(s.book[i].id)
          && s.book[i].id.slot < |s.recycles|
          && s.births[i] <= s.recycles[s.book[i].id.slot]
          && s.book[i].id.generation == s.births[i] % GENERATIONS
          && (s.births[i] == s.recycles[s.book[i].id.slot] ==> Held(s, i)))
    && (forall i, j :: 0 <= i < j < |s.book| && s.book[i].id.slot == s.book[j].id.slot ==>
          s.births[i] < s.births[j])
  }

  /** The first order of all takes slot 0 with sequence 1; nothing else is born there unreleased. */
  ghost predicate FirstInv(s: Oms)
    requires Shape(s)
  {
    && |s.recycles| > 0
    && (|s.book| == 0 ==> |s.free| > 0 && s.free[|s.free| - 1] == 0 && s.venueSeq == map[])
    && (|s.book| > 0 ==> 0 in s.table || s.recycles[0] > 0)
    && (forall i :: 0 <= i < |s.book| && s.book[i].id.slot == 0 && s.births[i] == 0 ==>
          s.book[i].id.sequence == 1)
  }

  /** The lifecycle facts of one record. `New` occurs only inside submit. */
  ghost predicate OrderOk(o: Order) {
    && o.size > 0
    && 0 <= o.filled <= o.size
    && !o.status.CancelRejected?
    && |o.intData| == SCRATCH_SLOTS
    && (o.status.New? || o.status.Sent? || o.status.Confirmed? ==> o.filled == 0)
    && (o.status.PartiallyFilled? ==> o.filled > 0)
    && (o.status.SentCancel? ==> o.pendingCancel)
    && (o.status.Filled? <==> o.filled == o.size)
  }

  ghost predicate BookInv(s: Oms) {
    forall i :: 0 <= i < |s.book| ==> OrderOk(s.book[i])
  }

  /** No order is left in the status that exists only inside submit. */
  ghost predicate Settled(s: Oms) {
    forall i :: 0 <= i < |s.book| ==> !s.book[i].status.New?
  }

  /** The slot of `id` is allocated to the order that carries exactly this id. */
  ghost predicate Owns(s: Oms, id: OrderId)
    requires Shape(s)
  {
    id.slot in s.table && s.book[s.table[id.slot]].id == id
  }

  ghost predicate HeldTerminal(s: Oms, id: OrderId)
    requires Shape(s)
  {
    Owns(s, id) && IsTerminal(s.book[s.table[id.slot]].status)
  }

  /** The live index lists exactly the non-terminal orders, each of which holds its slot. */
  ghost predicate LiveInv(s: Oms)
    requires Shape(s)
  {
    && (forall i :: 0 <= i < |s.book| && !IsTerminal(s.book[i].status) ==> Held(s, i) && s.book[i].id in s.live)
    && (forall id :: id in s.live ==> Owns(s, id) && !IsTerminal(s.book[s.table[id.slot]].status))
    && s.trades.Keys <= s.live
  }

  /** The grace queue lists, once each, the terminal orders that still hold a slot. */
  ghost predicate RetiredInv(s: Oms)
    requires Shape(s)
  {
    && (forall j :: 0 <= j < |s.retired| ==> HeldTerminal(s, s.retired[j]))
    && (forall j, l :: 0 <= j < l < |s.retired| ==> s.retired[j].slot != s.retired[l].slot)
    && (forall k :: k in s.table && IsTerminal(s.book[s.table[k]].status) ==> s.book[s.table[k]].id in s.retired)
  }

  /** A benign cancel-reject is expected only for a filled order still in the grace queue. */
  ghost predicate BenignInv(s: Oms)
    requires Shape(s)
  {
    forall id :: id in s.benign ==>
      id in s.retired && HeldTerminal(s, id) && s.book[s.table[id.slot]].status.Filled?
  }

  /** Slots are conserved: each is free, live or retired. */
  ghost predicate CountInv(s: Oms) {
    |s.free| + |s.live| + |s.retired| == |s.recycles|
  }

  ghost predicate IndexInv(s: Oms)
    requires Shape(s)
  {
    LiveInv(s) && RetiredInv(s) && BenignInv(s) && CountInv(s)
  }

  // ---- sums over the book and the ledger ----

  ghost function OpenOn(inst: nat): Order -> int {
    (o: Order) => if o.instrument == inst && !IsTerminal(o.status) then SignedQty(o.side, o.Remaining()) else 0
  }

  ghost function FilledOn(inst: nat): Order -> int {
    (o: Order) => if o.instrument == inst then SignedQty(o.side, o.filled) else 0
  }

  ghost function NetOn(inst: nat): FillEntry -> int {
    (f: FillEntry) => if f.instrument == inst then SignedQty(f.side, f.qty) else 0
  }

  ghost function AmountOn(inst: nat): FillEntry -> int {
    (f: FillEntry) => if f.instrument == inst then SignedQty(f.side, f.qty) * f.price else 0
  }

  ghost function VolumeOn(inst: nat): FillEntry -> int {
    (f: FillEntry) => if f.instrument == inst then Abs(SignedQty(f.side, f.qty)) else 0
  }

  ghost function QtyOf(order: nat): FillEntry -> int {
    (f: FillEntry) => if f.order == order then f.qty else 0
  }

  ghost function NotionalOf(order: nat): FillEntry -> int {
    (f: FillEntry) => if f.order == order then f.qty * f.price else 0
  }

  /** The pending ledger is the signed open quantity of the live orders. */
  ghost predicate PendingInv(s: Oms) {
    forall inst: nat :: PendingOf(s, inst) == Sum(s.book, OpenOn(inst))
  }

  ghost predicate EntryOk(s: Oms, f: FillEntry) {
    && f.order < |s.book|
    && f.id == s.book[f.order].id
    && f.instrument == s.book[f.order].instrument
    && f.side == s.book[f.order].side
    && f.qty > 0 && f.price > 0
  }

  /** Records and positions are the sums of the accepted fills. */
  ghost predicate LedgerInv(s: Oms) {
    && (forall k :: 0 <= k < |s.ledger| ==> EntryOk(s, s.ledger[k]))
    && (forall i: nat :: i < |s.book| ==> s.book[i].filled == Sum(s.ledger, QtyOf(i)))
    && (forall i: nat :: i < |s.book| ==> s.book[i].notional == Sum(s.ledger, NotionalOf(i)))
  }

  ghost predicate PositionInv(s: Oms) {
    && (forall inst: nat :: PositionOf(s, inst).net == Sum(s.ledger, NetOn(inst)))
    && (forall inst: nat :: PositionOf(s, inst).amount == Sum(s.ledger, AmountOn(inst)))
    && (forall inst: nat :: PositionOf(s, inst).volume == Sum(s.ledger, VolumeOn(inst)))
    && (forall inst: nat :: PositionOf(s, inst).net == Sum(s.book, FilledOn(inst)))
  }

  /** Entry k records trade t of order i. */
  ghost predicate Records(s: Oms, k: int, i: nat, t: nat) {
    0 <= k < |s.ledger| && s.ledger[k].order == i && s.ledger[k].trade == t
  }

  /** No (order, trade) pair is recorded twice, and a live order's trade set is exactly the set of
      its recorded trades. */
  ghost predicate TradesInv(s: Oms)
    requires Shape(s)
  {
    && (forall k, l :: 0 <= k < l < |s.ledger| ==>
          s.ledger[k].order != s.ledger[l].order || s.ledger[k].trade != s.ledger[l].trade)
    && (forall k ::
          0 <= k < |s.ledger| && s.ledger[k].order < |s.book| && !IsTerminal(s.book[s.ledger[k].order].status) ==>
          s.ledger[k].trade in TradesOf(s, s.book[s.ledger[k].order].id))
    && (forall id, t :: id in s.trades && id.slot in s.table && t in s.trades[id] ==>
          exists k :: Records(s, k, s.table[id.slot], t))
  }

  ghost predicate SlotInv(s: Oms) {
    PoolInv(s) && MintInv(s) && FirstInv(s) && IndexInv(s)
  }

  ghost predicate AccountInv(s: Oms) {
    Shape(s) && BookInv(s) && PendingInv(s) && LedgerInv(s) && PositionInv(s) && TradesInv(s)
  }

  /** Everything but the bound of the grace queue, which retiring exceeds by one for a moment. */
  ghost predicate CoreInv(s: Oms) {
    SlotInv(s) && AccountInv(s)
  }

  ghost predicate Inv(s: Oms) {
    CoreInv(s) && Settled(s) && |s.retired| <= RETIRED_GRACE
  }
}
