/** Each operation of the order manager keeps the invariant. */
module OrderManagerSteps {
  import opened OrderIds
  import opened Orders
  import opened OrderManagerSpec
  import opened OrderManagerInvariants
  import opened Sums

  // ---- the initial state ----

  lemma InitKeeps(capacity: nat, hardstop: nat)
    requires 0 < capacity <= MAX_SLOTS
    ensures Inv(Init(capacity, hardstop))
  {
    var s := Init(capacity, hardstop);
    forall k | 0 <= k < |s.recycles| ensures k in s.free {
      assert s.free[capacity - 1 - k] == k;
    }
  }

  // ---- changes that keep identity, quantity and liveness of every record ----

  /** Only the book, the counters and the flags may differ. */
  ghost predicate SameLedgers(s: Oms, s': Oms) {
    && s'.births == s.births && s'.ledger == s.ledger && s'.table == s.table
    && s'.recycles == s.recycles && s'.free == s.free && s'.positions == s.positions
    && s'.pending == s.pending && s'.venueSeq == s.venueSeq && s'.trades == s.trades
    && s'.live == s.live && s'.retired == s.retired
  }

  /** A working order stays a working order: only status, flags and send time change. */
  ghost predicate Relabelled(o: Order, o': Order) {
    && o' == o.(status := o'.status, pendingCancel := o'.pendingCancel,
                ackTimedOut := o'.ackTimedOut, sentAt := o'.sentAt)
    && !IsTerminal(o.status) && !IsTerminal(o'.status)
    && (OrderOk(o) ==> OrderOk(o'))
  }

  ghost predicate Relabels(s: Oms, s': Oms) {
    && SameLedgers(s, s')
    && s'.benign <= s.benign
    && |s'.book| == |s.book|
    && forall i :: 0 <= i < |s.book| ==> s'.book[i] == s.book[i] || Relabelled(s.book[i], s'.book[i])
  }

  lemma RelabelPool(s: Oms, s': Oms)
    requires Relabels(s, s') && PoolInv(s)
    ensures PoolInv(s')
  {
    assert forall i :: 0 <= i < |s.book| ==> s'.book[i].id == s.book[i].id;
  }

  lemma RelabelMint(s: Oms, s': Oms)
    requires Relabels(s, s') && Shape(s) && MintInv(s) && FirstInv(s)
    ensures Shape(s') && MintInv(s') && FirstInv(s')
  {
    assert forall i :: 0 <= i < |s.book| ==> s'.book[i].id == s.book[i].id;
    assert forall i :: 0 <= i < |s.book| ==> Held(s', i) == Held(s, i);
  }

  lemma RelabelIndex(s: Oms, s': Oms)
    requires Relabels(s, s') && Shape(s) && IndexInv(s)
    ensures Shape(s') && IndexInv(s')
  {
    SameLiveness(s, s');
  }

  lemma RelabelTotals(s: Oms, s': Oms)
    requires Relabels(s, s') && PendingInv(s) && PositionInv(s)
    ensures PendingInv(s') && PositionInv(s')
  {
    forall inst: nat ensures PendingOf(s', inst) == Sum(s'.book, OpenOn(inst)) {
      SumPointwise(s.book, s'.book, OpenOn(inst));
    }
    forall inst: nat ensures PositionOf(s', inst).net == Sum(s'.book, FilledOn(inst)) {
      SumPointwise(s.book, s'.book, FilledOn(inst));
    }
  }

  lemma RelabelSums(s: Oms, s': Oms)
    requires Relabels(s, s') && Shape(s) && PendingInv(s) && LedgerInv(s) && PositionInv(s) && TradesInv(s)
    ensures Shape(s') && PendingInv(s') && LedgerInv(s') && PositionInv(s') && TradesInv(s')
  {
    RelabelTotals(s, s');
    hide PendingInv, PositionInv, Sum;
    forall id, t | id in s'.trades && id.slot in s'.table && t in s'.trades[id]
      ensures exists k :: Records(s', k, s'.table[id.slot], t)
    {
      var k :| Records(s, k, s.table[id.slot], t);
      assert Records(s', k, s'.table[id.slot], t);
    }
  }

  lemma RelabelKeeps(s: Oms, s': Oms)
    requires Relabels(s, s') && CoreInv(s)
    ensures CoreInv(s')
  {
    RelabelPool(s, s');
    RelabelMint(s, s');
    RelabelIndex(s, s');
    RelabelSums(s, s');
  }

  // ---- an accepted fill ----

  /** What validation established about the order a fill is applied to. */
  ghost predicate Fillable(s: Oms, e: Inbound) {
    && Shape(s) && e.FillReport? && Owns(s, e.id) && IsCurrent(s, e.id)
    && !IsTerminal(OrderOf(s, e.id).status)
    && e.trade !in TradesOf(s, e.id)
    && e.qty > 0 && e.price > 0 && e.qty <= OrderOf(s, e.id).Remaining()
  }

  lemma AccountPool(s: Oms, e: Inbound)
    requires Fillable(s, e) && PoolInv(s)
    ensures PoolInv(Account(s, e))
  {
    var s' := Account(s, e);
    assert forall i :: 0 <= i < |s.book| ==> s'.book[i].id == s.book[i].id;
  }

  lemma AccountMint(s: Oms, e: Inbound)
    requires Fillable(s, e) && MintInv(s) && FirstInv(s) && BookInv(s)
    ensures Shape(Account(s, e)) && MintInv(Account(s, e)) && FirstInv(Account(s, e)) && BookInv(Account(s, e))
  {
    var s' := Account(s, e);
    assert forall i :: 0 <= i < |s.book| ==> s'.book[i].id == s.book[i].id;
    assert forall i :: 0 <= i < |s.book| ==> Held(s', i) == Held(s, i);
  }

  lemma AccountPending(s: Oms, e: Inbound)
    requires Fillable(s, e) && PendingInv(s) && BookInv(s)
    ensures PendingInv(Account(s, e))
  {
    var s' := Account(s, e);
    var i := s.table[e.id.slot];
    forall inst: nat ensures PendingOf(s', inst) == Sum(s'.book, OpenOn(inst)) {
      SumUpdate(s.book, i, s'.book[i], OpenOn(inst));
    }
  }

  lemma AccountLedger(s: Oms, e: Inbound)
    requires Fillable(s, e) && LedgerInv(s)
    ensures LedgerInv(Account(s, e))
  {
    var s' := Account(s, e);
    var f := s'.ledger[|s.ledger|];
    forall i: nat | i < |s.book|
      ensures s'.book[i].filled == Sum(s'.ledger, QtyOf(i))
      ensures s'.book[i].notional == Sum(s'.ledger, NotionalOf(i))
    {
      SumAppend(s.ledger, f, QtyOf(i));
      SumAppend(s.ledger, f, NotionalOf(i));
    }
    forall k | 0 <= k < |s'.ledger| ensures EntryOk(s', s'.ledger[k]) {
      assert k < |s.ledger| ==> EntryOk(s, s.ledger[k]);
    }
  }

  lemma AccountPosition(s: Oms, e: Inbound)
    requires Fillable(s, e) && PositionInv(s)
    ensures PositionInv(Account(s, e))
  {
    var s' := Account(s, e);
    forall inst: nat
      ensures PositionOf(s', inst).net == Sum(s'.ledger, NetOn(inst))
      ensures PositionOf(s', inst).amount == Sum(s'.ledger, AmountOn(inst))
      ensures PositionOf(s', inst).volume == Sum(s'.ledger, VolumeOn(inst))
      ensures PositionOf(s', inst).net == Sum(s'.book, FilledOn(inst))
    {
      AccountPositionAt(s, e, inst);
    }
    hide Account, Sum;
  }

  lemma AccountPositionAt(s: Oms, e: Inbound, inst: nat)
    requires Fillable(s, e) && PositionInv(s)
    ensures
      var s' := Account(s, e);
      && PositionOf(s', inst).net == Sum(s'.ledger, NetOn(inst)) == Sum(s'.book, FilledOn(inst))
      && PositionOf(s', inst).amount == Sum(s'.ledger, AmountOn(inst))
      && PositionOf(s', inst).volume == Sum(s'.ledger, VolumeOn(inst))
  {
    var s' := Account(s, e);
    var f := s'.ledger[|s.ledger|];
    var i := s.table[e.id.slot];
    SumAppend(s.ledger, f, NetOn(inst));
    SumAppend(s.ledger, f, AmountOn(inst));
    SumAppend(s.ledger, f, VolumeOn(inst));
    SumUpdate(s.book, i, s'.book[i], FilledOn(inst));
  }

  /** The new pair is fresh because the live order's trade set held all its recorded trades. */
  lemma AccountTrades(s: Oms, e: Inbound)
    requires Fillable(s, e) && LedgerInv(s) && TradesInv(s)
    ensures Shape(Account(s, e)) && TradesInv(Account(s, e))
  {
    var s' := Account(s, e);
    AccountDistinct(s, e);
    AccountSeen(s, e);
    AccountRecords(s, e);
    AccountShape(s, e);
    hide Account, Shape, TradesOf, Records;
  }

  lemma AccountShape(s: Oms, e: Inbound)
    requires Fillable(s, e)
    ensures Shape(Account(s, e))
  {
  }

  lemma AccountDistinct(s: Oms, e: Inbound)
    requires Fillable(s, e) && LedgerInv(s) && TradesInv(s)
    ensures forall k, l :: 0 <= k < l < |Account(s, e).ledger| ==>
      Account(s, e).ledger[k].order != Account(s, e).ledger[l].order ||
        Account(s, e).ledger[k].trade != Account(s, e).ledger[l].trade
  {
    var s' := Account(s, e);
    assert forall k :: 0 <= k < |s.ledger| ==> EntryOk(s, s.ledger[k]);
    forall k, l | 0 <= k < l < |s'.ledger|
      ensures s'.ledger[k].order != s'.ledger[l].order || s'.ledger[k].trade != s'.ledger[l].trade
    {
      assert s'.ledger[k] == s.ledger[k];
    }
  }

  lemma AccountSeen(s: Oms, e: Inbound)
    requires Fillable(s, e) && LedgerInv(s) && TradesInv(s)
    ensures
      var s' := Account(s, e);
      forall k :: 0 <= k < |s'.ledger| && s'.ledger[k].order < |s'.book| &&
        !IsTerminal(s'.book[s'.ledger[k].order].status)
        ==> s'.ledger[k].trade in TradesOf(s', s'.book[s'.ledger[k].order].id)
  {
    var s' := Account(s, e);
    var n := |s.ledger|;
    assert forall k :: 0 <= k < n ==> EntryOk(s, s.ledger[k]);
    forall k | 0 <= k < |s'.ledger| && s'.ledger[k].order < |s'.book|
            && !IsTerminal(s'.book[s'.ledger[k].order].status)
      ensures s'.ledger[k].trade in TradesOf(s', s'.book[s'.ledger[k].order].id)
    {
      assert k < n ==> s'.ledger[k] == s.ledger[k];
    }
  }

  lemma AccountRecords(s: Oms, e: Inbound)
    requires Fillable(s, e) && TradesInv(s)
    ensures forall id, t ::
        id in Account(s, e).trades && id.slot in Account(s, e).table && t in Account(s, e).trades[id] ==>
        exists k :: Records(Account(s, e), k, Account(s, e).table[id.slot], t)
  {
    var s' := Account(s, e);
    forall id, t | id in s'.trades && id.slot in s'.table && t in s'.trades[id]
      ensures exists k :: Records(s', k, s'.table[id.slot], t)
    {
      if id == e.id && t == e.trade {
        assert Records(s', |s.ledger|, s'.table[id.slot], t);
      } else {
        var k :| Records(s, k, s.table[id.slot], t);
        assert Records(s', k, s'.table[id.slot], t);
      }
    }
  }

  /** A partial fill leaves the indices as they were. */
  lemma AccountIndex(s: Oms, e: Inbound)
    requires Fillable(s, e) && IndexInv(s) && BookInv(s)
    requires e.qty < OrderOf(s, e.id).Remaining()
    ensures Shape(Account(s, e)) && IndexInv(Account(s, e))
  {
    var s' := Account(s, e);
    assert Held(s, s.table[e.id.slot]);
    SameLiveness(s, s');
  }

  /** Indices that agree with a book still agree when no identity and no terminal record changes. */
  lemma SameLiveness(s: Oms, s': Oms)
    requires Shape(s) && IndexInv(s) && |s'.book| == |s.book|
    requires s'.births == s.births && s'.table == s.table && s'.recycles == s.recycles && s'.free == s.free
    requires s'.live == s.live && s'.retired == s.retired && s'.benign <= s.benign && s'.trades.Keys <= s.live
    requires forall i :: 0 <= i < |s.book| ==> (
        && s'.book[i].id == s.book[i].id
        && (IsTerminal(s.book[i].status) ==> s'.book[i] == s.book[i])
        && IsTerminal(s'.book[i].status) == IsTerminal(s.book[i].status))
    ensures Shape(s') && IndexInv(s')
  {
    assert forall i :: 0 <= i < |s.book| ==> Held(s', i) == Held(s, i);
    assert forall id :: Owns(s', id) == Owns(s, id);
    assert forall id :: HeldTerminal(s', id) == HeldTerminal(s, id);
  }

  // ---- an order becomes terminal and joins the grace queue ----

  /** s' is s with the live order `id` terminal and moved from the live index to the grace queue. */
  ghost predicate Shelves(s: Oms, s': Oms, id: OrderId) {
    && Shape(s) && Owns(s, id) && id in s.live && !IsTerminal(s.book[s.table[id.slot]].status)
    && s'.table == s.table && s'.recycles == s.recycles && s'.free == s.free && s'.births == s.births
    && s'.live == s.live - {id} && s'.retired == s.retired + [id]
    && s'.trades.Keys <= s.trades.Keys - {id}
    && |s'.book| == |s.book|
    && s'.book == s.book[s.table[id.slot] := s'.book[s.table[id.slot]]]
    && s'.book[s.table[id.slot]].id == id && IsTerminal(s'.book[s.table[id.slot]].status)
    && s'.benign <= s.benign + {id}
    && (id in s'.benign ==> s'.book[s.table[id.slot]].status.Filled?)
  }

  lemma ShelvePool(s: Oms, s': Oms, id: OrderId)
    requires Shelves(s, s', id) && PoolInv(s)
    ensures PoolInv(s')
  {
    assert forall i :: 0 <= i < |s.book| ==> s'.book[i].id == s.book[i].id;
  }

  lemma ShelveMint(s: Oms, s': Oms, id: OrderId)
    requires Shelves(s, s', id) && MintInv(s) && FirstInv(s) && s'.venueSeq == s.venueSeq
    ensures Shape(s') && MintInv(s') && FirstInv(s')
  {
    assert forall i :: 0 <= i < |s.book| ==> s'.book[i].id == s.book[i].id;
    assert forall i :: 0 <= i < |s.book| ==> Held(s', i) == Held(s, i);
  }

  lemma ShelveLive(s: Oms, s': Oms, id: OrderId)
    requires Shelves(s, s', id) && LiveInv(s)
    ensures Shape(s') && LiveInv(s')
  {
    var i := s.table[id.slot];
    assert forall j :: 0 <= j < |s.book| ==> s'.book[j].id == s.book[j].id && (j != i ==> s'.book[j] == s.book[j]);
    assert forall j :: 0 <= j < |s.book| ==> Held(s', j) == Held(s, j);
    assert forall x :: Owns(s', x) == Owns(s, x);
    forall x | x in s'.live ensures !IsTerminal(s'.book[s'.table[x.slot]].status) {
      assert x in s.live && Owns(s, x);
    }
  }

  lemma ShelveRetired(s: Oms, s': Oms, id: OrderId)
    requires Shelves(s, s', id) && RetiredInv(s) && PoolInv(s)
    ensures Shape(s') && RetiredInv(s')
  {
    assert HeldTerminal(s', id);
    forall j | 0 <= j < |s.retired| ensures HeldTerminal(s', s'.retired[j]) && s'.retired[j].slot != id.slot {
      assert s'.retired[j] == s.retired[j] && HeldTerminal(s, s.retired[j]);
    }
    ShelveListed(s, s', id);
  }

  lemma ShelveListed(s: Oms, s': Oms, id: OrderId)
    requires Shelves(s, s', id) && RetiredInv(s) && PoolInv(s)
    ensures forall k :: k in s'.table && IsTerminal(s'.book[s'.table[k]].status) ==>
      s'.book[s'.table[k]].id in s'.retired
  {
    forall k | k in s'.table && IsTerminal(s'.book[s'.table[k]].status)
      ensures s'.book[s'.table[k]].id in s'.retired
    {
      assert s'.retired[|s.retired|] == id;
      if k != id.slot {
        var j :| 0 <= j < |s.retired| && s.retired[j] == s.book[s.table[k]].id;
        assert s'.retired[j] == s.retired[j];
      }
    }
  }

  lemma ShelveBenign(s: Oms, s': Oms, id: OrderId)
    requires Shelves(s, s', id) && BenignInv(s) && PoolInv(s)
    ensures Shape(s') && BenignInv(s')
  {
    assert s'.retired[|s.retired|] == id;
    forall x | x in s'.benign && x != id
      ensures x in s'.retired && HeldTerminal(s', x) && s'.book[s'.table[x.slot]].status.Filled?
    {
      assert HeldTerminal(s, x);
      var j :| 0 <= j < |s.retired| && s.retired[j] == x;
      assert s'.retired[j] == x;
    }
  }

  lemma ShelveIndex(s: Oms, s': Oms, id: OrderId)
    requires Shelves(s, s', id) && PoolInv(s) && IndexInv(s)
    ensures Shape(s') && IndexInv(s')
  {
    ShelveLive(s, s', id);
    ShelveRetired(s, s', id);
    ShelveBenign(s, s', id);
  }

  // ---- the oldest retired order leaves the grace queue ----

  /** The guard in `retire` always holds: what leaves the queue still owns its slot. */
  lemma OldestIsCurrent(s: Oms)
    requires PoolInv(s) && RetiredInv(s) && |s.retired| > 0
    ensures HeldTerminal(s, s.retired[0]) && IsCurrent(s, s.retired[0])
  {
  }

  /** s' is s with its oldest retired order's slot freed. */
  ghost predicate Evicts(s: Oms, s': Oms) {
    && Shape(s) && |s.retired| > 0 && HeldTerminal(s, s.retired[0])
    && s'.book == s.book && s'.births == s.births && s'.ledger == s.ledger
    && s'.positions == s.positions && s'.pending == s.pending && s'.venueSeq == s.venueSeq
    && s'.trades == s.trades && s'.live == s.live
    && s'.benign == s.benign - {s.retired[0]} && s'.retired == s.retired[1..]
    && s'.table == s.table - {s.retired[0].slot}
    && s'.recycles == s.recycles[s.retired[0].slot := s.recycles[s.retired[0].slot] + 1]
    && s'.free == s.free + [s.retired[0].slot]
  }

  lemma EvictDoes(s: Oms)
    requires PoolInv(s) && RetiredInv(s)
    ensures Evict(s) == s || Evicts(s, Evict(s))
    ensures |Evict(s).retired| == if |s.retired| > RETIRED_GRACE then |s.retired| - 1 else |s.retired|
  {
    if |s.retired| > RETIRED_GRACE {
      OldestIsCurrent(s);
    }
  }

  lemma EvictPool(s: Oms, s': Oms)
    requires Evicts(s, s') && PoolInv(s)
    ensures PoolInv(s')
  {
    var slot := s.retired[0].slot;
    forall k | 0 <= k < |s'.recycles| ensures k in s'.table || k in s'.free {
      assert s'.free[|s.free|] == slot;
      assert k in s.free ==> k in s'.free;
    }
  }

  lemma EvictMint(s: Oms, s': Oms)
    requires Evicts(s, s') && MintInv(s) && PoolInv(s)
    ensures Shape(s') && MintInv(s')
  {
    var slot := s.retired[0].slot;
    forall i | 0 <= i < |s.book| && s'.births[i] == s'.recycles[s'.book[i].id.slot]
      ensures Held(s', i)
    {
      assert s.book[i].id.slot != slot;
      assert Held(s, i);
    }
  }

  lemma EvictFirst(s: Oms, s': Oms)
    requires Evicts(s, s') && FirstInv(s)
    ensures Shape(s') && FirstInv(s')
  {
  }

  lemma EvictTrades(s: Oms, s': Oms)
    requires Evicts(s, s') && TradesInv(s)
    ensures Shape(s') && TradesInv(s')
  {
    forall id, t | id in s'.trades && id.slot in s'.table && t in s'.trades[id]
      ensures exists k :: Records(s', k, s'.table[id.slot], t)
    {
      var k :| Records(s, k, s.table[id.slot], t);
      assert Records(s', k, s'.table[id.slot], t);
    }
  }

  lemma EvictLive(s: Oms, s': Oms)
    requires Evicts(s, s') && LiveInv(s)
    ensures Shape(s') && LiveInv(s')
  {
    var slot := s.retired[0].slot;
    forall i | 0 <= i < |s.book| && !IsTerminal(s.book[i].status) ensures Held(s', i) {
      assert Held(s, i);
    }
    forall id | id in s.live ensures Owns(s', id) && !IsTerminal(s'.book[s'.table[id.slot]].status) {
      assert Owns(s, id);
    }
  }

  lemma EvictRetired(s: Oms, s': Oms)
    requires Evicts(s, s') && RetiredInv(s) && PoolInv(s)
    ensures Shape(s') && RetiredInv(s')
  {
    var first := s.retired[0];
    assert forall j :: 0 <= j < |s'.retired| ==> s'.retired[j] == s.retired[j + 1];
    forall j | 0 <= j < |s'.retired| ensures HeldTerminal(s', s'.retired[j]) {
      assert HeldTerminal(s, s.retired[j + 1]);
    }
    forall k | k in s'.table && IsTerminal(s'.book[s'.table[k]].status)
      ensures s'.book[s'.table[k]].id in s'.retired
    {
      var j :| 0 <= j < |s.retired| && s.retired[j] == s.book[s.table[k]].id;
      assert s'.retired[j - 1] == s.retired[j];
    }
  }

  lemma EvictBenign(s: Oms, s': Oms)
    requires Evicts(s, s') && BenignInv(s) && RetiredInv(s)
    ensures Shape(s') && BenignInv(s')
  {
    var first := s.retired[0];
    forall id | id in s'.benign
      ensures id in s'.retired && HeldTerminal(s', id) && s'.book[s'.table[id.slot]].status.Filled?
    {
      assert HeldTerminal(s, id);
      var j :| 0 <= j < |s.retired| && s.retired[j] == id;
      assert s'.retired[j - 1] == id;
    }
  }

  lemma EvictSums(s: Oms, s': Oms)
    requires Evicts(s, s') && PendingInv(s) && LedgerInv(s) && PositionInv(s) && BookInv(s)
    ensures PendingInv(s') && LedgerInv(s') && PositionInv(s') && BookInv(s')
  {
    forall inst: nat ensures PendingOf(s', inst) == Sum(s'.book, OpenOn(inst)) {
      assert PendingOf(s, inst) == Sum(s.book, OpenOn(inst));
    }
    forall k | 0 <= k < |s'.ledger| ensures EntryOk(s', s'.ledger[k]) {
      assert EntryOk(s, s.ledger[k]);
    }
    assert forall inst: nat :: PositionOf(s', inst) == PositionOf(s, inst);
  }

  lemma EvictSlots(s: Oms, s': Oms)
    requires Evicts(s, s') && SlotInv(s)
    ensures SlotInv(s')
  {
    EvictPool(s, s');
    EvictMint(s, s');
    EvictFirst(s, s');
    EvictLive(s, s');
    EvictRetired(s, s');
    EvictBenign(s, s');
  }

  lemma EvictCore(s: Oms)
    requires CoreInv(s)
    ensures CoreInv(Evict(s)) && Evict(s).book == s.book
  {
    EvictDoes(s);
    var s' := Evict(s);
    if s' != s {
      EvictSlots(s, s');
      EvictTrades(s, s');
      EvictSums(s, s');
    }
  }

  lemma EvictKeeps(s: Oms)
    requires CoreInv(s) && Settled(s) && |s.retired| <= RETIRED_GRACE + 1
    ensures Inv(Evict(s))
  {
    EvictDoes(s);
    EvictCore(s);
  }

  // ---- a new order ----

  /** s' is s with the order `o` on the slot on top of the free list. */
  ghost predicate Registers(s: Oms, s': Oms, o: Order) {
    && Shape(s) && |s.free| > 0 && o.id == NextId(s, o.id.venue) && o.id.venue < VENUES
    && OrderOk(o) && o.status.New? && o.filled == 0 && o.notional == 0
    && s'.book == s.book + [o] && s'.births == s.births + [s.recycles[o.id.slot]]
    && s'.table == s.table[o.id.slot := |s.book|] && s'.free == s.free[..|s.free| - 1]
    && s'.recycles == s.recycles && s'.ledger == s.ledger && s'.trades == s.trades
    && s'.live == s.live + {o.id} && s'.retired == s.retired && s'.benign == s.benign
    && s'.positions == s.positions[o.instrument := PositionOf(s, o.instrument)]
    && s'.pending == s.pending[o.instrument := PendingOf(s, o.instrument) + SignedQty(o.side, o.size)]
    && s'.venueSeq == s.venueSeq[o.id.venue := VenueSeqOf(s, o.id.venue) + 1]
  }

  lemma RegisterDoes(s: Oms, req: OrderRequest, venue: nat)
    requires Shape(s) && |s.free| > 0 && venue < VENUES
    requires req.size > 0 && req.workerOffset < SCRATCH_SLOTS
    ensures Registers(s, Register(s, NewOrder(s, req, venue)), NewOrder(s, req, venue))
  {
  }

  lemma RegisterPool(s: Oms, s': Oms, o: Order)
    requires Registers(s, s', o) && PoolInv(s)
    ensures PoolInv(s')
  {
    RegisterShape(s, s', o);
    RegisterFree(s, s', o);
    assert s.free[|s.free| - 1] == o.id.slot;
    hide Shape;
  }

  lemma RegisterShape(s: Oms, s': Oms, o: Order)
    requires Registers(s, s', o)
    ensures Shape(s') && Shape(s)
  {
  }

  lemma RegisterFree(s: Oms, s': Oms, o: Order)
    requires Registers(s, s', o) && PoolInv(s)
    ensures forall j :: 0 <= j < |s'.free| ==> s'.free[j] !in s'.table
    ensures forall k :: 0 <= k < |s'.recycles| ==> k in s'.table || k in s'.free
  {
    assert s.free[|s.free| - 1] == o.id.slot;
    forall k | 0 <= k < |s'.recycles| ensures k in s'.table || k in s'.free {
      if k !in s'.table {
        var j :| 0 <= j < |s.free| && s.free[j] == k;
        assert s'.free[j] == k;
      }
    }
  }

  lemma RegisterMint(s: Oms, s': Oms, o: Order)
    requires Registers(s, s', o) && PoolInv(s) && MintInv(s)
    ensures Shape(s') && MintInv(s')
  {
    var n := |s.book|;
    RegisterSlot(s, s', o);
    assert Held(s', n);
    hide PoolInv, Held;
    forall i | 0 <= i < n
      ensures s'.book[i] == s.book[i] && s'.births[i] == s.births[i]
      ensures s'.births[i] == s'.recycles[s'.book[i].id.slot] ==> Held(s', i)
    {
      RegisterHeld(s, s', o, i);
    }
  }

  /** The slot was free, so its earlier orders were born before its last release. */
  lemma RegisterSlot(s: Oms, s': Oms, o: Order)
    requires Registers(s, s', o) && PoolInv(s) && MintInv(s)
    ensures o.id.slot < |s.recycles| && o.id.slot !in s.table
    ensures forall i :: 0 <= i < |s.book| && s.book[i].id.slot == o.id.slot ==> s.births[i] < s.recycles[o.id.slot]
  {
    assert s.free[|s.free| - 1] == o.id.slot;
    forall i | 0 <= i < |s.book| && s.book[i].id.slot == o.id.slot ensures s.births[i] < s.recycles[o.id.slot] {
      assert !Held(s, i);
    }
  }

  lemma RegisterHeld(s: Oms, s': Oms, o: Order, i: nat)
    requires Registers(s, s', o) && MintInv(s) && i < |s.book| && o.id.slot < |s.recycles| && o.id.slot !in s.table
    ensures s'.book[i] == s.book[i] && s'.births[i] == s.births[i] && s.book[i].id.slot < |s'.recycles|
    ensures s'.births[i] == s'.recycles[s'.book[i].id.slot] ==> Held(s', i)
  {
    assert Held(s, i) ==> s.book[i].id.slot != o.id.slot;
  }

  lemma RegisterFirst(s: Oms, s': Oms, o: Order)
    requires Registers(s, s', o) && PoolInv(s) && FirstInv(s)
    ensures Shape(s') && FirstInv(s')
  {
    assert s.free[|s.free| - 1] == o.id.slot;
    assert forall i :: 0 <= i < |s.book| ==> s'.book[i] == s.book[i] && s'.births[i] == s.births[i];
  }

  lemma RegisterLive(s: Oms, s': Oms, o: Order)
    requires Registers(s, s', o) && PoolInv(s) && LiveInv(s)
    ensures Shape(s') && LiveInv(s') && o.id !in s.live
  {
    assert s.free[|s.free| - 1] == o.id.slot;
    assert forall i :: 0 <= i < |s.book| ==> s'.book[i] == s.book[i];
    forall i | 0 <= i < |s'.book| && !IsTerminal(s'.book[i].status)
      ensures Held(s', i) && s'.book[i].id in s'.live
    {
      assert i < |s.book| ==> Held(s, i);
    }
    forall id | id in s'.live ensures Owns(s', id) && !IsTerminal(s'.book[s'.table[id.slot]].status) {
      assert id in s.live ==> Owns(s, id);
    }
  }

  lemma RegisterRetired(s: Oms, s': Oms, o: Order)
    requires Registers(s, s', o) && PoolInv(s) && RetiredInv(s) && BenignInv(s)
    ensures Shape(s') && RetiredInv(s') && BenignInv(s')
  {
    RegisterTerminals(s, s', o);
    hide PoolInv, HeldTerminal;
    forall j | 0 <= j < |s'.retired| ensures HeldTerminal(s', s'.retired[j]) {
      assert HeldTerminal(s, s.retired[j]);
    }
  }

  lemma RegisterTerminals(s: Oms, s': Oms, o: Order)
    requires Registers(s, s', o) && PoolInv(s)
    ensures Shape(s') && forall x :: HeldTerminal(s, x) ==>
      HeldTerminal(s', x) && s'.table[x.slot] == s.table[x.slot] && s'.book[s'.table[x.slot]] == s.book[s.table[x.slot]]
  {
    assert s.free[|s.free| - 1] == o.id.slot;
    assert forall i :: 0 <= i < |s.book| ==> s'.book[i] == s.book[i];
  }

  lemma RegisterPending(s: Oms, s': Oms, o: Order)
    requires Registers(s, s', o) && PendingInv(s)
    ensures PendingInv(s')
  {
    forall inst: nat ensures PendingOf(s', inst) == Sum(s'.book, OpenOn(inst)) {
      SumAppend(s.book, o, OpenOn(inst));
    }
  }

  lemma RegisterPosition(s: Oms, s': Oms, o: Order)
    requires Registers(s, s', o) && PositionInv(s)
    ensures PositionInv(s')
  {
    forall inst: nat ensures PositionOf(s', inst) == PositionOf(s, inst)
      && PositionOf(s', inst).net == Sum(s'.book, FilledOn(inst))
    {
      SumAppend(s.book, o, FilledOn(inst));
    }
  }

  /** No fill is recorded for the serial that is about to be used. */
  lemma {:induction false} NoEntries(ledger: seq<FillEntry>, n: nat)
    requires forall k :: 0 <= k < |ledger| ==> ledger[k].order < n
    ensures Sum(ledger, QtyOf(n)) == 0 && Sum(ledger, NotionalOf(n)) == 0
  {
    if |ledger| > 0 {
      NoEntries(ledger[..|ledger| - 1], n);
    }
  }

  lemma RegisterLedger(s: Oms, s': Oms, o: Order)
    requires Registers(s, s', o) && LedgerInv(s)
    ensures LedgerInv(s')
  {
    forall k | 0 <= k < |s'.ledger| ensures EntryOk(s', s'.ledger[k]) && s.ledger[k].order < |s.book| {
      assert EntryOk(s, s.ledger[k]);
    }
    NoEntries(s.ledger, |s.book|);
    assert forall i :: 0 <= i < |s.book| ==> s'.book[i] == s.book[i];
  }

  lemma RegisterRecords(s: Oms, s': Oms, o: Order)
    requires Registers(s, s', o) && PoolInv(s) && LiveInv(s) && TradesInv(s)
    ensures forall id, t :: id in s'.trades && id.slot in s'.table && t in s'.trades[id] ==>
      exists k :: Records(s', k, s'.table[id.slot], t)
  {
    assert s.free[|s.free| - 1] == o.id.slot;
    forall id, t | id in s'.trades && id.slot in s'.table && t in s'.trades[id]
      ensures exists k :: Records(s', k, s'.table[id.slot], t)
    {
      assert id in s.live && Owns(s, id);
      var k :| Records(s, k, s.table[id.slot], t);
      assert Records(s', k, s'.table[id.slot], t);
    }
  }

  lemma RegisterTrades(s: Oms, s': Oms, o: Order)
    requires Registers(s, s', o) && PoolInv(s) && LiveInv(s) && LedgerInv(s) && TradesInv(s)
    ensures Shape(s') && TradesInv(s')
  {
    RegisterShape(s, s', o);
    RegisterSeen(s, s', o);
    RegisterRecords(s, s', o);
    hide Shape, TradesOf, Records, PoolInv, LiveInv, LedgerInv;
  }

  lemma RegisterSeen(s: Oms, s': Oms, o: Order)
    requires Registers(s, s', o) && LedgerInv(s) && TradesInv(s)
    ensures forall k ::
      0 <= k < |s'.ledger| && s'.ledger[k].order < |s'.book| && !IsTerminal(s'.book[s'.ledger[k].order].status) ==>
        s'.ledger[k].trade in TradesOf(s', s'.book[s'.ledger[k].order].id)
  {
    forall k | 0 <= k < |s'.ledger| && !IsTerminal(s'.book[s'.ledger[k].order].status)
      ensures s'.ledger[k].trade in TradesOf(s', s'.book[s'.ledger[k].order].id)
    {
      assert EntryOk(s, s.ledger[k]);
    }
  }

  lemma RegisterSlots(s: Oms, s': Oms, o: Order)
    requires Registers(s, s', o) && SlotInv(s)
    ensures SlotInv(s')
  {
    RegisterPool(s, s', o);
    RegisterMint(s, s', o);
    RegisterFirst(s, s', o);
    RegisterLive(s, s', o);
    RegisterRetired(s, s', o);
  }

  lemma RegisterAccounts(s: Oms, s': Oms, o: Order)
    requires Registers(s, s', o) && CoreInv(s)
    ensures AccountInv(s')
  {
    RegisterPending(s, s', o);
    RegisterPosition(s, s', o);
    RegisterLedger(s, s', o);
    RegisterTrades(s, s', o);
  }

  lemma RegisterKeeps(s: Oms, s': Oms, o: Order)
    requires Registers(s, s', o) && CoreInv(s)
    ensures CoreInv(s')
  {
    RegisterSlots(s, s', o);
    RegisterAccounts(s, s', o);
  }
}
