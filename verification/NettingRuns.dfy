/** What netting keeps over whole runs, and when a fill lands every strategy on its target. */
module NettingRuns {
  import opened Orders
  import opened NettingSpec
  import opened NettingLaws
  import opened Arithmetic
  import opened SortedIds
  import opened Sums

  // ---- sub-positions ----

  lemma {:induction false} AddAllElsewhere(m: map<Key, int>, inst: nat, cs: seq<Contribution>, s: nat, other: nat)
    requires other != inst || forall i :: 0 <= i < |cs| ==> cs[i].strategy != s
    ensures ValueAt(AddAll(m, inst, cs), s, other) == ValueAt(m, s, other)
  {
    if |cs| > 0 {
      AddAllElsewhere(m, inst, cs[..|cs| - 1], s, other);
    }
  }

  /** Each contributor's own delta is added, once. */
  lemma {:induction false} AddAllAt(m: map<Key, int>, inst: nat, cs: seq<Contribution>, k: nat)
    requires k < |cs| && forall i, j :: 0 <= i < j < |cs| ==> cs[i].strategy != cs[j].strategy
    ensures ValueAt(AddAll(m, inst, cs), cs[k].strategy, inst) == ValueAt(m, cs[k].strategy, inst) + cs[k].delta
  {
    var n := |cs| - 1;
    if k == n {
      AddAllElsewhere(m, inst, cs[..n], cs[n].strategy, inst);
    } else {
      AddAllAt(m, inst, cs[..n], k);
    }
  }

  lemma SubsPut(m: map<Key, int>, strategies: set<nat>, inst: nat, s: nat, v: int)
    requires s in strategies
    ensures SubPositions(m[(s, inst) := v], strategies, inst) == SubPositions(m, strategies, inst)[s := v]
    ensures s in SubPositions(m, strategies, inst) && SubPositions(m, strategies, inst)[s] == ValueAt(m, s, inst)
  {
  }

  lemma {:induction false} AddAllTotal(m: map<Key, int>, strategies: set<nat>, inst: nat, cs: seq<Contribution>)
    requires forall i :: 0 <= i < |cs| ==> cs[i].strategy in strategies
    ensures MapSum(SubPositions(AddAll(m, inst, cs), strategies, inst)) ==
      MapSum(SubPositions(m, strategies, inst)) + Net(cs)
  {
    if |cs| > 0 {
      var n := |cs| - 1;
      var c := cs[n];
      var before := AddAll(m, inst, cs[..n]);
      AddAllTotal(m, strategies, inst, cs[..n]);
      var subs := SubPositions(before, strategies, inst);
      var v := ValueAt(before, c.strategy, inst) + c.delta;
      SubsPut(before, strategies, inst, c.strategy, v);
      hide SubPositions, ValueAt;
      MapSumPut(subs, c.strategy, v);
    }
  }

  lemma AddAllOthers(m: map<Key, int>, strategies: set<nat>, inst: nat, cs: seq<Contribution>, other: nat)
    requires other != inst
    ensures SubPositions(AddAll(m, inst, cs), strategies, other) == SubPositions(m, strategies, other)
  {
    forall s | s in strategies ensures ValueAt(AddAll(m, inst, cs), s, other) == ValueAt(m, s, other) {
      AddAllElsewhere(m, inst, cs, s, other);
    }
  }

  // ---- contributions ----

  lemma {:induction false} ContribsProper(b: Book, strats: seq<nat>, inst: nat)
    requires Ascends(strats)
    ensures Proper(ContribsOf(b, strats, inst))
    ensures forall c :: c in ContribsOf(b, strats, inst) ==> c.strategy in strats
  {
    if |strats| > 0 {
      var n := |strats| - 1;
      ContribsProper(b, strats[..n], inst);
      var rest := ContribsOf(b, strats[..n], inst);
      forall i | 0 <= i < |rest| ensures rest[i].strategy != strats[n] {
        assert rest[i] in rest;
        var k :| 0 <= k < n && strats[k] == rest[i].strategy;
      }
    }
  }

  /** Who contributes, and what: exactly the strategies that are off their target. */
  lemma {:induction false} ContribsExactly(b: Book, strats: seq<nat>, inst: nat, s: nat)
    requires Ascends(strats)
    ensures (exists c :: c in ContribsOf(b, strats, inst) && c.strategy == s) <==>
      s in strats && (s, inst) in b.targets && b.targets[(s, inst)] != Attributed(b, s, inst)
    ensures forall c :: c in ContribsOf(b, strats, inst) && c.strategy == s ==>
      (s, inst) in b.targets && c.delta == b.targets[(s, inst)] - Attributed(b, s, inst)
  {
    if |strats| > 0 {
      var n := |strats| - 1;
      var rest := ContribsOf(b, strats[..n], inst);
      ContribsExactly(b, strats[..n], inst, s);
      ContribsProper(b, strats[..n], inst);
      assert strats == strats[..n] + [strats[n]];
      var all := ContribsOf(b, strats, inst);
      if all != rest {
        var last := Contribution(strats[n], b.targets[(strats[n], inst)] - Attributed(b, strats[n], inst));
        assert all == rest + [last];
        assert last in all;
        assert forall c :: c in all <==> c in rest || c == last;
      }
    }
  }

  lemma {:induction false} ContribsAgree(b: Book, b': Book, strats: seq<nat>, inst: nat)
    requires b'.targets == b.targets
    requires forall s :: s in strats ==> Attributed(b', s, inst) == Attributed(b, s, inst)
    ensures ContribsOf(b', strats, inst) == ContribsOf(b, strats, inst)
  {
    if |strats| > 0 {
      var n := |strats| - 1;
      assert forall s :: s in strats[..n] ==> s in strats;
      assert strats[n] in strats;
      ContribsAgree(b, b', strats[..n], inst);
    }
  }

  lemma {:induction false} NoneOff(b: Book, strats: seq<nat>, inst: nat)
    requires forall s :: s in strats && (s, inst) in b.targets ==> b.targets[(s, inst)] == Attributed(b, s, inst)
    ensures ContribsOf(b, strats, inst) == []
  {
    if |strats| > 0 {
      var n := |strats| - 1;
      assert forall s :: s in strats[..n] ==> s in strats;
      assert strats[n] in strats;
      NoneOff(b, strats[..n], inst);
    }
  }

  // ---- what a transfer saves ----

  ghost function BoughtOf(): Contribution -> int {
    (c: Contribution) => if c.delta > 0 then c.delta else 0
  }

  lemma {:induction false} GrossOfBought(cs: seq<Contribution>)
    ensures Gross(cs) == 2 * Sum(cs, BoughtOf()) - Net(cs)
  {
    if |cs| > 0 {
      GrossOfBought(cs[..|cs| - 1]);
    }
  }

  /** A zero-net instrument saves exactly the notional that buyers and sellers crossed inside: the
      halving in the code loses nothing. */
  lemma SavedIsCrossedVolume(b: Book, strats: seq<nat>, inst: nat, price: int)
    ensures
      var cs := ContribsOf(b, strats, inst);
      NetInstrument(b, strats, inst, price).0.saved ==
        b.saved + (if Net(cs) == 0 then Sum(cs, BoughtOf()) * price else 0)
  {
    var cs := ContribsOf(b, strats, inst);
    GrossOfBought(cs);
    var v := Sum(cs, BoughtOf()) * price;
    assert Net(cs) == 0 ==> Gross(cs) * price == 2 * v;
    assert TruncDiv(2 * v, 2) == v;
  }

  // ---- a cycle settles ----

  /** After a zero-net transfer every strategy is on its target. */
  lemma TransferSettles(b: Book, strats: seq<nat>, inst: nat)
    requires Ascends(strats)
    ensures var cs := ContribsOf(b, strats, inst);
      ContribsOf(b.(attributed := AddAll(b.attributed, inst, cs)), strats, inst) == []
  {
    var cs := ContribsOf(b, strats, inst);
    var b' := b.(attributed := AddAll(b.attributed, inst, cs));
    ContribsProper(b, strats, inst);
    forall s | s in strats && (s, inst) in b.targets ensures b'.targets[(s, inst)] == Attributed(b', s, inst) {
      ContribsExactly(b, strats, inst, s);
      if b.targets[(s, inst)] != Attributed(b, s, inst) {
        var c :| c in cs && c.strategy == s;
        var k :| 0 <= k < |cs| && cs[k] == c;
        AddAllAt(b.attributed, inst, cs, k);
      } else {
        assert forall i :: 0 <= i < |cs| ==> cs[i] in cs;
        AddAllElsewhere(b.attributed, inst, cs, s, inst);
      }
    }
    NoneOff(b', strats, inst);
  }

  /** Nothing is left to transfer on an instrument, and its order, if any, is on record. */
  ghost predicate Settled(b: Book, strats: seq<nat>, inst: nat, orders: seq<NetOrder>) {
    var cs := ContribsOf(b, strats, inst);
    if |cs| == 0 then orders == []
    else Net(cs) != 0 && orders == [NetOrder(inst, Net(cs))] && inst in b.contrib && b.contrib[inst] == cs
  }

  lemma SettledRepeats(b: Book, strats: seq<nat>, inst: nat, orders: seq<NetOrder>, price: int)
    requires Settled(b, strats, inst, orders)
    ensures NetInstrument(b, strats, inst, price) == (b, orders)
  {
    var cs := ContribsOf(b, strats, inst);
    if |cs| != 0 {
      assert b.contrib[inst := cs] == b.contrib;
    }
  }

  lemma NetInstrumentSettles(b: Book, strats: seq<nat>, inst: nat, price: int)
    requires Ascends(strats)
    ensures var r := NetInstrument(b, strats, inst, price); Settled(r.0, strats, inst, r.1)
  {
    var cs := ContribsOf(b, strats, inst);
    var r := NetInstrument(b, strats, inst, price);
    if |cs| != 0 && Net(cs) == 0 {
      TransferSettles(b, strats, inst);
      ContribsAgree(b.(attributed := AddAll(b.attributed, inst, cs)), r.0, strats, inst);
    } else {
      ContribsAgree(b, r.0, strats, inst);
    }
  }

  /** Netting one instrument leaves every other one settled. */
  lemma SettledStays(b: Book, strats: seq<nat>, inst: nat, price: int, other: nat, orders: seq<NetOrder>)
    requires other != inst && Settled(b, strats, other, orders)
    ensures Settled(NetInstrument(b, strats, inst, price).0, strats, other, orders)
  {
    var b' := NetInstrument(b, strats, inst, price).0;
    forall s | s in strats ensures Attributed(b', s, other) == Attributed(b, s, other) {
      AddAllElsewhere(b.attributed, inst, ContribsOf(b, strats, inst), s, other);
    }
    ContribsAgree(b, b', strats, other);
  }

  ghost function OrdersOn(orders: seq<NetOrder>, inst: nat): seq<NetOrder> {
    if |orders| == 0 then []
    else
      var rest := OrdersOn(orders[..|orders| - 1], inst);
      if orders[|orders| - 1].instrument == inst then rest + [orders[|orders| - 1]] else rest
  }

  lemma OrdersOnJoin(a: seq<NetOrder>, b: seq<NetOrder>, inst: nat)
    requires |b| <= 1
    ensures OrdersOn(a + b, inst) == OrdersOn(a, inst) + OrdersOn(b, inst)
  {
    if |b| == 1 {
      assert (a + b)[..|a|] == a;
      assert b[..0] == [];
    } else {
      assert a + b == a;
    }
  }

  /** After a cycle every instrument it went over is settled, with exactly its orders. */
  lemma {:induction false} CycleSettles(b: Book, insts: seq<nat>, strats: seq<nat>, prices: map<nat, int>, inst: nat)
    requires Ascends(strats) && Ascends(insts)
    ensures var r := Cycle(b, insts, strats, prices);
      if inst in insts then Settled(r.0, strats, inst, OrdersOn(r.1, inst)) else OrdersOn(r.1, inst) == []
  {
    if |insts| > 0 {
      var n := |insts| - 1;
      var before := Cycle(b, insts[..n], strats, prices);
      var price := PriceOf(prices, insts[n]);
      var here := NetInstrument(before.0, strats, insts[n], price);
      hide NetInstrument, Settled;
      CycleSettles(b, insts[..n], strats, prices, inst);
      OneOrder(before.0, strats, insts[n], price);
      OrdersOnJoin(before.1, here.1, inst);
      LastId(insts, n, inst);
      NetInstrumentSettles(before.0, strats, insts[n], price);
      if inst == insts[n] {
        OrdersOnOne(here.1, inst, insts[n]);
        assert [] + here.1 == here.1;
      } else {
        OrdersOnOne(here.1, inst, insts[n]);
        assert OrdersOn(before.1, inst) + [] == OrdersOn(before.1, inst);
        if inst in insts[..n] {
          SettledStays(before.0, strats, insts[n], price, inst, OrdersOn(before.1, inst));
        }
      }
    }
  }

  lemma OneOrder(b: Book, strats: seq<nat>, inst: nat, price: int)
    ensures var orders := NetInstrument(b, strats, inst, price).1;
      |orders| <= 1 && forall o :: o in orders ==> o.instrument == inst
  {
  }

  lemma OrdersOnOne(orders: seq<NetOrder>, inst: nat, of: nat)
    requires |orders| <= 1 && forall o :: o in orders ==> o.instrument == of
    ensures OrdersOn(orders, inst) == if inst == of then orders else []
  {
    if |orders| == 1 {
      assert orders[0] in orders && orders == [orders[0]] && orders[..0] == [];
    }
  }

  lemma LastId(insts: seq<nat>, n: nat, inst: nat)
    requires Ascends(insts) && |insts| == n + 1
    ensures Ascends(insts[..n]) && insts[n] !in insts[..n]
    ensures inst in insts <==> inst in insts[..n] || inst == insts[n]
  {
    assert insts == insts[..n] + [insts[n]];
  }

  /** A cycle over settled instruments changes nothing and yields their orders in turn. */
  lemma {:induction false} SettledCycle(b: Book, insts: seq<nat>, strats: seq<nat>, prices: map<nat, int>,
      orders: seq<NetOrder>)
    requires forall inst :: inst in insts ==> Settled(b, strats, inst, OrdersOn(orders, inst))
    ensures Cycle(b, insts, strats, prices) == (b, Listed(insts, orders))
  {
    if |insts| > 0 {
      var n := |insts| - 1;
      assert forall inst :: inst in insts[..n] ==> inst in insts;
      assert insts[n] in insts;
      SettledCycle(b, insts[..n], strats, prices, orders);
      SettledRepeats(b, strats, insts[n], OrdersOn(orders, insts[n]), PriceOf(prices, insts[n]));
    }
  }

  /** The orders instrument by instrument, in the order of `insts`. */
  ghost function Listed(insts: seq<nat>, orders: seq<NetOrder>): seq<NetOrder> {
    if |insts| == 0 then [] else Listed(insts[..|insts| - 1], orders) + OrdersOn(orders, insts[|insts| - 1])
  }

  lemma {:induction false} ListedAgree(insts: seq<nat>, a: seq<NetOrder>, b: seq<NetOrder>)
    requires forall inst :: inst in insts ==> OrdersOn(a, inst) == OrdersOn(b, inst)
    ensures Listed(insts, a) == Listed(insts, b)
  {
    if |insts| > 0 {
      var n := |insts| - 1;
      assert forall inst :: inst in insts[..n] ==> inst in insts;
      assert insts[n] in insts;
      ListedAgree(insts[..n], a, b);
    }
  }

  /** A cycle lists its orders instrument by instrument. */
  lemma {:induction false} CycleLists(b: Book, insts: seq<nat>, strats: seq<nat>, prices: map<nat, int>)
    requires Ascends(strats) && Ascends(insts)
    ensures Listed(insts, Cycle(b, insts, strats, prices).1) == Cycle(b, insts, strats, prices).1
  {
    if |insts| > 0 {
      var n := |insts| - 1;
      var before := Cycle(b, insts[..n], strats, prices);
      var here := NetInstrument(before.0, strats, insts[n], PriceOf(prices, insts[n]));
      CycleLists(b, insts[..n], strats, prices);
      assert here.1[..0] == [] && (|here.1| == 1 ==> here.1[..|here.1| - 1] == []);
      forall inst | inst in insts[..n] ensures OrdersOn(before.1 + here.1, inst) == OrdersOn(before.1, inst) {
        OrdersOnJoin(before.1, here.1, inst);
        assert inst != insts[n];
        assert OrdersOn(here.1, inst) == [];
      }
      ListedAgree(insts[..n], before.1 + here.1, before.1);
      OrdersOnJoin(before.1, here.1, insts[n]);
      CycleSettles(b, insts[..n], strats, prices, insts[n]);
      assert insts[n] !in insts[..n];
      assert OrdersOn(here.1, insts[n]) == here.1;
    }
  }

  /** Repeating a cycle returns the same orders, saves no further notional and changes nothing at all,
      whatever the prices are by then. */
  lemma CycleIdempotent(b: Book, insts: seq<nat>, strats: seq<nat>, prices: map<nat, int>, later: map<nat, int>)
    requires Ascends(strats) && Ascends(insts)
    ensures var r := Cycle(b, insts, strats, prices); Cycle(r.0, insts, strats, later) == r
  {
    var r := Cycle(b, insts, strats, prices);
    forall inst | inst in insts ensures Settled(r.0, strats, inst, OrdersOn(r.1, inst)) {
      CycleSettles(b, insts, strats, prices, inst);
    }
    hide Settled, Cycle;
    SettledCycle(r.0, insts, strats, later, r.1);
    CycleLists(b, insts, strats, prices);
  }

  // ---- conservation over runs ----

  /** All attributed positions belong to strategies the engine knows; recorded contributions are each
      a known strategy's, once, and not zero. */
  ghost predicate BookOk(b: Book) {
    && (forall key :: key in b.attributed ==> key.0 in b.strategies)
    && (forall inst :: inst in b.contrib ==> ContribOk(b, b.contrib[inst]))
  }

  ghost predicate ContribOk(b: Book, cs: seq<Contribution>) {
    |cs| > 0 && Proper(cs) && forall i :: 0 <= i < |cs| ==> cs[i].strategy in b.strategies
  }

  datatype NetOp =
    | TargetOp(strategy: nat, inst: nat, target: int)
    | SeedOp(strategy: nat, inst: nat, qty: int)
    | CycleOp(insts: seq<nat>, strats: seq<nat>, prices: map<nat, int>)
    | FillOp(inst: nat, qty: int)

  ghost predicate NetAllowed(b: Book, op: NetOp) {
    op.CycleOp? ==> Enumerates(op.insts, b.instruments) && Enumerates(op.strats, b.strategies)
  }

  ghost function NetApply(b: Book, op: NetOp): Book {
    match op
    case TargetOp(s, inst, target) => SetTarget(b, s, inst, target)
    case SeedOp(s, inst, qty) => SetAttributed(b, s, inst, qty)
    case CycleOp(insts, strats, prices) => Cycle(b, insts, strats, prices).0
    case FillOp(inst, qty) => AttributeFill(b, inst, qty)
  }

  ghost predicate AllBalanced(b: Book) {
    forall inst: nat :: Balanced(b, inst)
  }

  lemma KnownMore(b: Book, s: nat, inst: nat)
    requires BookOk(b)
    ensures MapSum(SubPositions(b.attributed, b.strategies + {s}, inst)) ==
      MapSum(SubPositions(b.attributed, b.strategies, inst))
  {
    var subs := SubPositions(b.attributed, b.strategies, inst);
    var more := SubPositions(b.attributed, b.strategies + {s}, inst);
    if s in b.strategies {
      assert b.strategies + {s} == b.strategies;
    } else {
      assert ValueAt(b.attributed, s, inst) == 0;
      assert more == subs[s := 0];
      MapSumPut(subs, s, 0);
    }
  }

  lemma TargetKeeps(b: Book, s: nat, inst: nat, target: int)
    requires BookOk(b) && AllBalanced(b)
    ensures BookOk(SetTarget(b, s, inst, target)) && AllBalanced(SetTarget(b, s, inst, target))
  {
    forall other: nat ensures Balanced(SetTarget(b, s, inst, target), other) {
      assert Balanced(b, other);
      KnownMore(b, s, other);
    }
  }

  lemma SeedKeeps(b: Book, s: nat, inst: nat, qty: int)
    requires BookOk(b) && AllBalanced(b)
    ensures BookOk(SetAttributed(b, s, inst, qty)) && AllBalanced(SetAttributed(b, s, inst, qty))
  {
    var b' := SetAttributed(b, s, inst, qty);
    forall other: nat ensures Balanced(b', other) {
      assert Balanced(b, other);
      KnownMore(b, s, other);
      var more := SubPositions(b.attributed, b.strategies + {s}, other);
      if other == inst {
        SubsPut(b.attributed, b'.strategies, inst, s, qty);
        hide SubPositions;
        MapSumPut(more, s, qty);
      } else {
        assert SubPositions(b'.attributed, b'.strategies, other) == more;
      }
    }
  }

  ghost predicate KnownStrategies(cs: seq<Contribution>, strategies: set<nat>) {
    forall i :: 0 <= i < |cs| ==> cs[i].strategy in strategies
  }

  lemma {:induction false} AddAllKeys(m: map<Key, int>, inst: nat, cs: seq<Contribution>, strategies: set<nat>)
    requires KnownStrategies(cs, strategies) && forall key :: key in m ==> key.0 in strategies
    ensures forall key :: key in AddAll(m, inst, cs) ==> key.0 in strategies
  {
    if |cs| > 0 {
      AddAllKeys(m, inst, cs[..|cs| - 1], strategies);
    }
  }

  lemma NetInstrumentKeeps(b: Book, strats: seq<nat>, inst: nat, price: int)
    requires BookOk(b) && AllBalanced(b) && Enumerates(strats, b.strategies)
    ensures var b' := NetInstrument(b, strats, inst, price).0;
      BookOk(b') && AllBalanced(b') && b'.strategies == b.strategies && b'.instruments == b.instruments
  {
    var cs := ContribsOf(b, strats, inst);
    var b' := NetInstrument(b, strats, inst, price).0;
    ContribsProper(b, strats, inst);
    forall i | 0 <= i < |cs| ensures cs[i].strategy in b.strategies {
      assert cs[i] in cs;
    }
    AddAllKeys(b.attributed, inst, cs, b.strategies);
    forall other: nat ensures Balanced(b', other) {
      assert Balanced(b, other);
      if |cs| != 0 && Net(cs) == 0 {
        if other == inst {
          AddAllTotal(b.attributed, b.strategies, inst, cs);
        } else {
          AddAllOthers(b.attributed, b.strategies, inst, cs, other);
        }
      }
    }
  }

  lemma {:induction false} CycleKeeps(b: Book, insts: seq<nat>, strats: seq<nat>, prices: map<nat, int>)
    requires BookOk(b) && AllBalanced(b) && Enumerates(strats, b.strategies)
    ensures var b' := Cycle(b, insts, strats, prices).0;
      BookOk(b') && AllBalanced(b') && b'.strategies == b.strategies && b'.instruments == b.instruments
  {
    hide BookOk, AllBalanced, NetInstrument;
    if |insts| > 0 {
      var n := |insts| - 1;
      CycleKeeps(b, insts[..n], strats, prices);
      NetInstrumentKeeps(Cycle(b, insts[..n], strats, prices).0, strats, insts[n], PriceOf(prices, insts[n]));
    }
  }

  lemma {:induction false} SignedNet(allocs: seq<Alloc>, sign: int)
    ensures Net(Signed(allocs, sign)) == sign * Sum(allocs, BaseOf())
    decreases |allocs|
  {
    if |allocs| > 0 {
      var n := |allocs| - 1;
      assert Signed(allocs, sign)[..n] == Signed(allocs[..n], sign);
      SignedNet(allocs[..n], sign);
      assert sign * (Sum(allocs[..n], BaseOf()) + allocs[n].base) ==
        sign * Sum(allocs[..n], BaseOf()) + sign * allocs[n].base;
    }
  }

  /** Whoever gets a share contributed. */
  lemma SharedKnown(cs: seq<Contribution>, qty: nat, sign: int, strategies: set<nat>)
    requires Proper(cs) && |cs| > 0 && KnownStrategies(cs, strategies)
    ensures Gross(cs) > 0 && KnownStrategies(Signed(Shares(cs, qty, Gross(cs)), sign), strategies)
  {
    QuotaFacts(cs, qty);
    var q := Quotas(cs, qty, Gross(cs));
    var r := Ranked(q);
    QuotasAre(cs, qty, Gross(cs));
    forall i | 0 <= i < |r| ensures r[i].strategy in strategies {
      InMultiset(r, q, r[i]);
      var k :| 0 <= k < |q| && q[k] == r[i];
    }
  }

  /** On an instrument with recorded contributions, sub-positions take up the whole fill. */
  lemma FillAttributed(b: Book, inst: nat, qty: int)
    requires BookOk(b) && inst in b.contrib
    ensures var b' := AttributeFill(b, inst, qty);
      && BookOk(b')
      && MapSum(SubPositions(b'.attributed, b'.strategies, inst)) ==
        MapSum(SubPositions(b.attributed, b.strategies, inst)) + qty
      && forall other: nat :: other != inst ==>
           SubPositions(b'.attributed, b'.strategies, other) == SubPositions(b.attributed, b.strategies, other)
  {
    var cs := b.contrib[inst];
    assert ContribOk(b, cs);
    SharesAddUp(cs, Abs(qty));
    var shares := Shares(cs, Abs(qty), Gross(cs));
    var parts := Signed(shares, Sign(qty));
    SignedNet(shares, Sign(qty));
    SharedKnown(cs, Abs(qty), Sign(qty), b.strategies);
    hide Shares, Gross, Sum, AddAll, Net;
    AddAllTotal(b.attributed, b.strategies, inst, parts);
    AddAllKeys(b.attributed, inst, parts, b.strategies);
    forall other: nat | other != inst
      ensures SubPositions(AddAll(b.attributed, inst, parts), b.strategies, other) ==
        SubPositions(b.attributed, b.strategies, other)
    {
      AddAllOthers(b.attributed, b.strategies, inst, parts, other);
    }
  }

  /** Exactly when a fill keeps an instrument balanced: when contributions are on record for it, or
      the fill is of nothing. Without them only the global position moves. */
  lemma FillBalancedExactly(b: Book, inst: nat, qty: int)
    requires BookOk(b) && Balanced(b, inst)
    ensures Balanced(AttributeFill(b, inst, qty), inst) <==> inst in b.contrib || qty == 0
  {
    if inst in b.contrib {
      assert ContribOk(b, b.contrib[inst]);
      GrossPositive(b.contrib[inst]);
      FillAttributed(b, inst, qty);
    }
  }

  lemma FillKeeps(b: Book, inst: nat, qty: int)
    requires BookOk(b) && AllBalanced(b) && inst in b.contrib
    ensures BookOk(AttributeFill(b, inst, qty)) && AllBalanced(AttributeFill(b, inst, qty))
  {
    FillAttributed(b, inst, qty);
    assert Balanced(b, inst);
    FillBalancedExactly(b, inst, qty);
    var b' := AttributeFill(b, inst, qty);
    forall other: nat ensures Balanced(b', other) {
      assert Balanced(b, other);
      if other != inst {
        assert GlobalOf(b', other) == GlobalOf(b, other);
      }
    }
  }

  ghost predicate NetRun(states: seq<Book>, ops: seq<NetOp>) {
    && |states| == |ops| + 1 && states[0] == EMPTY_BOOK
    && (forall k :: 0 <= k < |ops| ==> NetAllowed(states[k], ops[k]) && states[k + 1] == NetApply(states[k], ops[k]))
  }

  /** In every run whose fills are on instruments already ordered, the global position of every
      instrument is the sum of its sub-positions. */
  lemma {:induction false} GlobalIsSumOfParts(states: seq<Book>, ops: seq<NetOp>, n: nat)
    requires NetRun(states, ops) && n < |states|
    requires forall k :: 0 <= k < n && ops[k].FillOp? ==> ops[k].inst in states[k].contrib
    ensures BookOk(states[n]) && AllBalanced(states[n])
  {
    hide BookOk, AllBalanced, AttributeFill, Cycle, SetTarget, SetAttributed;
    if n == 0 {
      EmptyOk();
    } else {
      var k := n - 1;
      GlobalIsSumOfParts(states, ops, k);
      assert states[k + 1] == NetApply(states[k], ops[k]);
      match ops[k] {
        case TargetOp(s, inst, target) => TargetKeeps(states[k], s, inst, target);
        case SeedOp(s, inst, qty) => SeedKeeps(states[k], s, inst, qty);
        case CycleOp(insts, strats, prices) => CycleKeeps(states[k], insts, strats, prices);
        case FillOp(inst, qty) => FillKeeps(states[k], inst, qty);
      }
    }
  }

  lemma EmptyOk()
    ensures BookOk(EMPTY_BOOK) && AllBalanced(EMPTY_BOOK)
  {
    forall inst: nat ensures Balanced(EMPTY_BOOK, inst) {
      assert SubPositions(EMPTY_BOOK.attributed, EMPTY_BOOK.strategies, inst) == map[];
    }
  }

  // ---- where fills land ----

  /** How far a contributor's sub-position is from its exact pro-rata part of `filled`, times total. */
  ghost function Off(b: Book, b': Book, inst: nat, c: Contribution, filled: int, total: int): int {
    (Attributed(b', c.strategy, inst) - Attributed(b, c.strategy, inst)) * total - filled * Abs(c.delta)
  }

  /** |off| is below k units; with no units, it is nothing. */
  ghost predicate Within(off: int, k: nat, total: int) {
    if k == 0 then off == 0 else -(k * total) < off < k * total
  }

  /** One fill moves a contributor by its signed share. */
  lemma FillMoves(b: Book, inst: nat, qty: int, i: nat)
    requires BookOk(b) && inst in b.contrib && i < |b.contrib[inst]|
    ensures var cs := b.contrib[inst];
      var b' := AttributeFill(b, inst, qty);
      Gross(cs) > 0 && b'.contrib == b.contrib && BookOk(b') &&
        Within(Off(b, b', inst, cs[i], qty, Gross(cs)), 1, Gross(cs))
  {
    var cs := b.contrib[inst];
    assert ContribOk(b, cs);
    FillAttributed(b, inst, qty);
    ShareMoves(b, inst, qty, i);
    var k := ShareNearQuota(cs, Abs(qty), i);
    hide Shares, Gross, AddAll, Attributed, AttributeFill, BookOk;
    var base := Shares(cs, Abs(qty), Gross(cs))[k].base;
    if qty < 0 {
      SignFlips(base, Gross(cs), qty, Abs(cs[i].delta));
    }
  }

  lemma SignFlips(base: int, total: int, qty: int, w: int)
    ensures (-1 * base) * total - qty * w == -(base * total - (-qty) * w)
  {
  }

  lemma ShareMoves(b: Book, inst: nat, qty: int, i: nat)
    requires BookOk(b) && inst in b.contrib && i < |b.contrib[inst]|
    ensures var cs := b.contrib[inst];
      && Gross(cs) > 0 && |Shares(cs, Abs(qty), Gross(cs))| == |cs|
      && forall k :: 0 <= k < |cs| && Shares(cs, Abs(qty), Gross(cs))[k].strategy == cs[i].strategy ==>
           Attributed(AttributeFill(b, inst, qty), cs[i].strategy, inst)
             == Attributed(b, cs[i].strategy, inst) + Sign(qty) * Shares(cs, Abs(qty), Gross(cs))[k].base
  {
    var cs := b.contrib[inst];
    assert ContribOk(b, cs);
    SharesAddUp(cs, Abs(qty));
    RankedOnce(cs, Abs(qty));
    var shares := Shares(cs, Abs(qty), Gross(cs));
    var parts := Signed(shares, Sign(qty));
    assert AttributeFill(b, inst, qty).attributed == AddAll(b.attributed, inst, parts);
    hide Shares, Gross, AddAll, AttributeFill, BookOk, ContribOk;
    assert forall i, j :: 0 <= i < j < |parts| ==> parts[i].strategy != parts[j].strategy;
    forall k | 0 <= k < |cs| && shares[k].strategy == cs[i].strategy
      ensures Attributed(AttributeFill(b, inst, qty), cs[i].strategy, inst)
           == Attributed(b, cs[i].strategy, inst) + Sign(qty) * shares[k].base
    {
      AddAllAt(b.attributed, inst, parts, k);
    }
  }

  lemma RankedOnce(cs: seq<Contribution>, qty: nat)
    requires Proper(cs) && |cs| > 0
    ensures Gross(cs) > 0 && OneEach(Shares(cs, qty, Gross(cs)))
  {
    QuotaFacts(cs, qty);
    var q := Quotas(cs, qty, Gross(cs));
    var r := Ranked(q);
    OnceEachKept(r, q);
  }

  lemma {:induction false} OnceEachKept(r: seq<Alloc>, q: seq<Alloc>)
    requires IsRanked(r) && OneEach(q) && multiset(r) == multiset(q)
    ensures OneEach(r)
  {
    forall i, j | 0 <= i < j < |r| ensures r[i].strategy != r[j].strategy {
      InMultiset(r, q, r[i]);
      InMultiset(r, q, r[j]);
      assert Ahead(r[i], r[j]);
      var a :| 0 <= a < |q| && q[a] == r[i];
      var c :| 0 <= c < |q| && q[c] == r[j];
    }
  }

  ghost function FillAll(b: Book, inst: nat, fills: seq<int>): Book {
    if |fills| == 0 then b else AttributeFill(FillAll(b, inst, fills[..|fills| - 1]), inst, fills[|fills| - 1])
  }

  ghost function Whole(): int -> int {
    (x: int) => x
  }

  /** After k fills on unchanged contributions each contributor is less than k units from its exact
      pro-rata part of everything filled. */
  lemma {:induction false} DriftBounded(b: Book, inst: nat, fills: seq<int>, i: nat)
    requires BookOk(b) && inst in b.contrib && i < |b.contrib[inst]|
    ensures var cs := b.contrib[inst];
      var b' := FillAll(b, inst, fills);
      && b'.contrib == b.contrib && BookOk(b') && Gross(cs) > 0
      && Within(Off(b, b', inst, cs[i], Sum(fills, Whole()), Gross(cs)), |fills|, Gross(cs))
  {
    hide BookOk, Gross, AttributeFill, Within, Off, Whole, Sum;
    var cs := b.contrib[inst];
    RecordedGross(b, inst);
    if |fills| == 0 {
      SumNone(fills);
      NoDrift(b, inst, cs[i], Gross(cs));
    } else {
      var n := |fills| - 1;
      var mid := FillAll(b, inst, fills[..n]);
      DriftBounded(b, inst, fills[..n], i);
      FillMoves(mid, inst, fills[n], i);
      OffAdds(b, mid, AttributeFill(mid, inst, fills[n]), inst, cs[i], Sum(fills[..n], Whole()), fills[n], Gross(cs),
        n);
      SumSplit(fills, n);
    }
  }

  lemma SumNone(fills: seq<int>)
    requires |fills| == 0
    ensures Sum(fills, Whole()) == 0
  {
  }

  lemma SumSplit(fills: seq<int>, n: nat)
    requires |fills| == n + 1
    ensures Sum(fills, Whole()) == Sum(fills[..n], Whole()) + fills[n]
  {
  }

  lemma RecordedGross(b: Book, inst: nat)
    requires BookOk(b) && inst in b.contrib
    ensures Gross(b.contrib[inst]) > 0
  {
    assert ContribOk(b, b.contrib[inst]);
    GrossPositive(b.contrib[inst]);
  }

  lemma NoDrift(b: Book, inst: nat, c: Contribution, total: int)
    ensures Within(Off(b, b, inst, c, 0, total), 0, total)
  {
  }

  lemma OffAdds(b: Book, mid: Book, last: Book, inst: nat, c: Contribution, f1: int, f2: int, total: int, n: nat)
    requires total > 0 && Within(Off(b, mid, inst, c, f1, total), n, total) &&
      Within(Off(mid, last, inst, c, f2, total), 1, total)
    ensures Within(Off(b, last, inst, c, f1 + f2, total), n + 1, total)
  {
    hide Attributed;
    var m1 := Attributed(mid, c.strategy, inst) - Attributed(b, c.strategy, inst);
    var m2 := Attributed(last, c.strategy, inst) - Attributed(mid, c.strategy, inst);
    var w := Abs(c.delta);
    assert (m1 + m2) * total - (f1 + f2) * w == (m1 * total - f1 * w) + (m2 * total - f2 * w);
    assert (n + 1) * total == n * total + total;
  }

  /** All contributors want to trade the same way. */
  ghost predicate SameSign(cs: seq<Contribution>) {
    forall i, j :: 0 <= i < |cs| && 0 <= j < |cs| ==> Sign(cs[i].delta) == Sign(cs[j].delta)
  }

  lemma {:induction false} NetOfOneSign(cs: seq<Contribution>, sign: int)
    requires sign == 1 || sign == -1
    requires forall i :: 0 <= i < |cs| ==> cs[i].delta != 0 && Sign(cs[i].delta) == sign
    ensures Net(cs) == sign * Gross(cs)
  {
    if |cs| > 0 {
      NetOfOneSign(cs[..|cs| - 1], sign);
    }
  }

  ghost predicate OnTarget(b: Book, b': Book, inst: nat) {
    inst in b.contrib && forall i :: 0 <= i < |b.contrib[inst]| ==>
      Attributed(b', b.contrib[inst][i].strategy, inst)
        == Attributed(b, b.contrib[inst][i].strategy, inst) + b.contrib[inst][i].delta
  }

  /** Exactly when one full fill of the net order lands every contributor on its target: when all of
      them trade the same way. With opposed contributors the fill moves one away from its target. */
  lemma FullFillLandsExactly(b: Book, inst: nat)
    requires BookOk(b) && inst in b.contrib
    ensures OnTarget(b, AttributeFill(b, inst, Net(b.contrib[inst])), inst) <==> SameSign(b.contrib[inst])
  {
    var cs := b.contrib[inst];
    var b' := AttributeFill(b, inst, Net(cs));
    assert ContribOk(b, cs);
    if SameSign(cs) {
      var sign := Sign(cs[0].delta);
      NetOfOneSign(cs, sign);
      GrossPositive(cs);
      forall i | 0 <= i < |cs| ensures Attributed(b', cs[i].strategy, inst) ==
        Attributed(b, cs[i].strategy, inst) + cs[i].delta {
        WholeShare(b, inst, i, sign);
      }
    } else {
      var i, j :| 0 <= i < |cs| && 0 <= j < |cs| && Sign(cs[i].delta) != Sign(cs[j].delta);
      var k := if Sign(cs[i].delta) != Sign(Net(cs)) then i else j;
      WrongWay(b, inst, k);
    }
  }

  lemma WholeShare(b: Book, inst: nat, i: nat, sign: int)
    requires BookOk(b) && inst in b.contrib && i < |b.contrib[inst]|
    requires var cs := b.contrib[inst];
      Gross(cs) > 0 && Net(cs) == sign * Gross(cs) && (sign == 1 || sign == -1) && Sign(cs[i].delta) == sign
    ensures var cs := b.contrib[inst];
      Attributed(AttributeFill(b, inst, Net(cs)), cs[i].strategy, inst) ==
        Attributed(b, cs[i].strategy, inst) + cs[i].delta
  {
    var cs := b.contrib[inst];
    var total, w := Gross(cs), Abs(cs[i].delta);
    assert ContribOk(b, cs);
    ShareMoves(b, inst, Net(cs), i);
    assert Abs(Net(cs)) == total && Sign(Net(cs)) == sign;
    var k := ShareOf(cs, total, i);
    hide Shares, Gross, AttributeFill, Net;
    DivisionOf(total * w, total, w, 0);
  }

  lemma WrongWay(b: Book, inst: nat, i: nat)
    requires BookOk(b) && inst in b.contrib && i < |b.contrib[inst]|
    requires var cs := b.contrib[inst]; Sign(cs[i].delta) != Sign(Net(cs))
    ensures var cs := b.contrib[inst];
      Attributed(AttributeFill(b, inst, Net(cs)), cs[i].strategy, inst)
        != Attributed(b, cs[i].strategy, inst) + cs[i].delta
  {
    var cs := b.contrib[inst];
    assert ContribOk(b, cs);
    ShareMoves(b, inst, Net(cs), i);
    var k := ShareOf(cs, Abs(Net(cs)), i);
    var n, total := Abs(Net(cs)) * Abs(cs[i].delta), Gross(cs);
    hide Shares, Gross, AttributeFill, Net;
    NotNegative(Abs(Net(cs)), Abs(cs[i].delta), total);
  }

  lemma NotNegative(a: int, b: int, total: int)
    requires a >= 0 && b >= 0 && total > 0
    ensures a * b / total >= 0
  {
    assert a * b >= 0;
  }
}
