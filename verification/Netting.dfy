/** The netting engine as an object, proved against the state machine on values. */
module Netting {
  import opened Orders
  import opened NettingSpec
  import opened NettingLaws
  import opened SortedIds
  import opened Sums

  /** Sort in place, ahead first. */
  method SortAllocs(a: array<Alloc>)
    requires OneEach(a[..])
    modifies a
    ensures a[..] == Ranked(old(a[..]))
  {
    ghost var q := a[..];
    var i := 0;
    while i < a.Length
      invariant 0 <= i <= a.Length && multiset(a[..]) == multiset(q) && IsRanked(a[..i])
    {
      SinkIn(a, i, q);
      i := i + 1;
    }
    assert a[..i] == a[..];
    RankedKeeps(q);
    RankingUnique(a[..], Ranked(q));
  }

  method SwapBack(a: array<Alloc>, j: nat)
    requires 0 < j < a.Length
    modifies a
    ensures a[..] == old(a[..])[j - 1 := old(a[j])][j := old(a[j - 1])]
    ensures multiset(a[..]) == multiset(old(a[..]))
  {
    a[j - 1], a[j] := a[j], a[j - 1];
  }

  /** Ranked but for element j, which is ahead of everything behind it. */
  ghost predicate SunkTo(s: seq<Alloc>, i: nat, j: nat) {
    && j <= i < |s|
    && (forall k, l :: 0 <= k < l <= i && k != j && l != j ==> Ahead(s[k], s[l]))
    && (forall l :: j < l <= i ==> Ahead(s[j], s[l]))
  }

  lemma SinkStep(s: seq<Alloc>, s': seq<Alloc>, i: nat, j: nat)
    requires 0 < j && SunkTo(s, i, j) && Ahead(s[j], s[j - 1]) && s' == s[j - 1 := s[j]][j := s[j - 1]]
    ensures SunkTo(s', i, j - 1)
  {
  }

  lemma SinkDone(s: seq<Alloc>, i: nat, j: nat)
    requires SunkTo(s, i, j) && OneEach(s) && (j > 0 ==> !Ahead(s[j], s[j - 1]))
    ensures IsRanked(s[..i + 1])
  {
    forall k | 0 <= k < j ensures Ahead(s[k], s[j]) {
      assert s[j - 1].strategy != s[j].strategy;
      assert k < j - 1 ==> Ahead(s[k], s[j - 1]);
    }
  }

  /** Move element i forward to its place among the first i. */
  method SinkIn(a: array<Alloc>, i: nat, ghost q: seq<Alloc>)
    requires i < a.Length && IsRanked(a[..i]) && multiset(a[..]) == multiset(q) && OneEach(q)
    modifies a
    ensures IsRanked(a[..i + 1]) && multiset(a[..]) == multiset(q)
  {
    var j := i;
    assert a[..][..i] == a[..i];
    RankedFront(a[..], i);
    hide SunkTo, OneEach, IsRanked;
    while j > 0 && Ahead(a[j], a[j - 1])
      invariant 0 <= j <= i && multiset(a[..]) == multiset(q) && SunkTo(a[..], i, j)
    {
      SinkStep(a[..], a[..][j - 1 := a[j]][j := a[j - 1]], i, j);
      SwapBack(a, j);
      j := j - 1;
    }
    StrategiesDiffer(a[..], q);
    SinkDone(a[..], i, j);
    assert a[..][..i + 1] == a[..i + 1];
  }

  lemma RankedFront(s: seq<Alloc>, i: nat)
    requires i < |s| && IsRanked(s[..i])
    ensures SunkTo(s, i, i)
  {
    forall k, l | 0 <= k < l < i ensures Ahead(s[k], s[l]) {
      assert Ahead(s[..i][k], s[..i][l]);
    }
  }

  lemma StrategiesDiffer(r: seq<Alloc>, q: seq<Alloc>)
    requires OneEach(q) && multiset(r) == multiset(q)
    ensures OneEach(r)
  {
    forall i, j | 0 <= i < j < |r| ensures r[i].strategy != r[j].strategy {
      TwoOf(r, i, j);
      InMultiset(r, q, r[i]);
      InMultiset(r, q, r[j]);
      if r[i] == r[j] {
        OnlyOnce(q, r[i]);
      }
    }
  }

  lemma TwoOf(r: seq<Alloc>, i: nat, j: nat)
    requires i < j < |r|
    ensures r[i] == r[j] ==> multiset(r)[r[i]] >= 2
  {
    assert r == r[..j] + [r[j]] + r[j + 1..];
    assert r[..j][i] == r[i];
    assert r[i] in multiset(r[..j]);
  }

  lemma {:induction false} OnlyOnce(q: seq<Alloc>, x: Alloc)
    requires OneEach(q)
    ensures multiset(q)[x] <= 1
  {
    if |q| > 0 {
      var n := |q| - 1;
      assert q == q[..n] + [q[n]];
      OnlyOnce(q[..n], x);
      assert q[n] !in q[..n];
    }
  }

  lemma QuotasNext(cs: seq<Contribution>, i: nat, qty: nat, total: int)
    requires i < |cs| && total > 0
    ensures Quotas(cs[..i + 1], qty, total) == Quotas(cs[..i], qty, total) + [Quota(cs[i], qty, total)]
  {
    assert cs[..i + 1][..i] == cs[..i];
  }

  method QuotaAlloc(c: Contribution, qty: nat, total: int) returns (a: Alloc)
    requires total > 0
    ensures a == Quota(c, qty, total)
  {
    var w := Abs(c.delta);
    return Alloc(c.strategy, qty * w / total, qty * w % total, w);
  }

  class NettingEngine {
    var targets: map<Key, int>
    var attributed: map<Key, int>
    var global: map<nat, int>
    var contrib: map<nat, seq<Contribution>>
    var instruments: set<nat>
    var strategies: set<nat>
    var savedNotional: int

    ghost function View(): Book reads this {
      Book(targets, attributed, global, contrib, instruments, strategies, savedNotional)
    }

    constructor ()
      ensures View() == EMPTY_BOOK
    {
      targets, attributed, global, contrib := map[], map[], map[], map[];
      instruments, strategies, savedNotional := {}, {}, 0;
    }

    method SetTargetOf(s: nat, inst: nat, target: int)
      modifies this
      ensures View() == SetTarget(old(View()), s, inst, target)
    {
      targets := targets[(s, inst) := target];
      instruments, strategies := instruments + {inst}, strategies + {s};
    }

    method SetAttributedOf(s: nat, inst: nat, qty: int)
      modifies this
      ensures View() == SetAttributed(old(View()), s, inst, qty)
    {
      var was := ValueAt(attributed, s, inst);
      attributed := attributed[(s, inst) := qty];
      AddGlobal(inst, qty - was);
      instruments, strategies := instruments + {inst}, strategies + {s};
    }

    method AddGlobal(inst: nat, qty: int)
      modifies this`global
      ensures global == old(global)[inst := GlobalOf(old(View()), inst) + qty]
    {
      global := global[inst := (if inst in global then global[inst] else 0) + qty];
    }

    /** The deltas of one instrument, their sum and the sum of their sizes. */
    method CollectContribs(strats: seq<nat>, inst: nat) returns (cs: seq<Contribution>, net: int, gross: int)
      ensures cs == ContribsOf(View(), strats, inst) && net == Net(cs) && gross == Gross(cs)
    {
      cs, net, gross := [], 0, 0;
      var i := 0;
      while i < |strats|
        invariant 0 <= i <= |strats|
        invariant cs == ContribsOf(View(), strats[..i], inst) && net == Net(cs) && gross == Gross(cs)
      {
        var s := strats[i];
        assert strats[..i + 1][..i] == strats[..i];
        i := i + 1;
        if (s, inst) in targets {
          var delta := targets[(s, inst)] - ValueAt(attributed, s, inst);
          if delta != 0 {
            SumAppend(cs, Contribution(s, delta), DeltaOf());
            SumAppend(cs, Contribution(s, delta), WeightOf());
            cs, net, gross := cs + [Contribution(s, delta)], net + delta, gross + Abs(delta);
          }
        }
      }
      assert strats[..i] == strats;
    }

    method AddToAttributed(inst: nat, cs: seq<Contribution>)
      modifies this`attributed
      ensures attributed == AddAll(old(attributed), inst, cs)
    {
      var i := 0;
      while i < |cs|
        invariant 0 <= i <= |cs| && attributed == AddAll(old(attributed), inst, cs[..i])
      {
        assert cs[..i + 1][..i] == cs[..i];
        var c := cs[i];
        attributed := attributed[(c.strategy, inst) := ValueAt(attributed, c.strategy, inst) + c.delta];
        i := i + 1;
      }
      assert cs[..i] == cs;
    }

    method NetOne(strats: seq<nat>, inst: nat, price: int) returns (orders: seq<NetOrder>)
      modifies this
      ensures (View(), orders) == NetInstrument(old(View()), strats, inst, price)
    {
      var cs, net, gross := CollectContribs(strats, inst);
      if |cs| == 0 { return []; }
      if net == 0 {
        savedNotional := savedNotional + TruncDiv(gross * price, 2);
        AddToAttributed(inst, cs);
        return [];
      }
      contrib := contrib[inst := cs];
      return [NetOrder(inst, net)];
    }

    /** Collapse the targets of this cycle into one net order per instrument. */
    method ComputeCycle(prices: map<nat, int>) returns (orders: seq<NetOrder>, ghost insts: seq<nat>,
      ghost strats: seq<nat>)
      modifies this
      ensures Enumerates(insts, old(instruments)) && Enumerates(strats, old(strategies))
      ensures (View(), orders) == Cycle(old(View()), insts, strats, prices)
    {
      var ids := SortIds(instruments);
      var who := SortIds(strategies);
      insts, strats := ids, who;
      orders := [];
      var i := 0;
      while i < |ids|
        invariant 0 <= i <= |ids| && (View(), orders) == Cycle(old(View()), ids[..i], who, prices)
      {
        assert ids[..i + 1][..i] == ids[..i];
        var more := NetOne(who, ids[i], PriceOf(prices, ids[i]));
        orders := orders + more;
        i := i + 1;
      }
      assert ids[..i] == ids;
    }

    /** The floors of the pro-rata quotas, and what they leave over. */
    method Apportion(cs: seq<Contribution>, qty: nat, total: int) returns (allocs: array<Alloc>, leftover: int)
      requires total > 0
      ensures fresh(allocs) && allocs[..] == Quotas(cs, qty, total) && leftover == Leftover(cs, qty, total)
    {
      allocs := new Alloc[|cs|];
      var distributed, i := 0, 0;
      assert Sum([], BaseOf()) == 0 && Quotas([], qty, total) == [];
      hide Quotas, Quota, Sum;
      while i < |cs|
        invariant 0 <= i <= |cs| && allocs[..i] == Quotas(cs[..i], qty, total)
        invariant distributed == Sum(allocs[..i], BaseOf())
      {
        QuotasNext(cs, i, qty, total);
        SumAppend(allocs[..i], Quota(cs[i], qty, total), BaseOf());
        allocs[i] := QuotaAlloc(cs[i], qty, total);
        assert allocs[..i + 1] == allocs[..i] + [allocs[i]];
        distributed := distributed + allocs[i].base;
        i := i + 1;
      }
      assert cs[..i] == cs && allocs[..i] == allocs[..];
      leftover := qty - distributed;
    }

    /** One unit more to each of the first, as long as units are left over. */
    method TopUp(allocs: array<Alloc>, leftover: int)
      modifies allocs
      ensures allocs[..] == Topped(old(allocs[..]), leftover)
    {
      var i := 0;
      while i < allocs.Length && leftover - i > 0
        invariant 0 <= i <= allocs.Length && (i <= leftover || i == 0)
        invariant forall k :: 0 <= k < i ==> allocs[k] == old(allocs[k]).(base := old(allocs[k]).base + 1)
        invariant forall k :: i <= k < allocs.Length ==> allocs[k] == old(allocs[k])
      {
        allocs[i] := allocs[i].(base := allocs[i].base + 1);
        i := i + 1;
      }
      assert forall k :: 0 <= k < allocs.Length ==> old(allocs[..])[k] == old(allocs[k]);
    }

    /** Attribute a fill of the net order back to the strategies that contributed to it. */
    method OnFill(inst: nat, qty: int)
      requires forall i :: i in contrib ==> Proper(contrib[i])
      modifies this
      ensures View() == AttributeFill(old(View()), inst, qty)
    {
      AddGlobal(inst, qty);
      if inst !in contrib || |contrib[inst]| == 0 { return; }
      var cs := contrib[inst];
      GrossPositive(cs);
      var total := TotalWeight(cs);
      if total == 0 { return; }
      var parts := SignedShares(cs, qty, total);
      AddToAttributed(inst, parts);
    }

    method TotalWeight(cs: seq<Contribution>) returns (total: int)
      ensures total == Gross(cs)
    {
      total := 0;
      var i := 0;
      while i < |cs|
        invariant 0 <= i <= |cs| && total == Gross(cs[..i])
      {
        assert cs[..i + 1][..i] == cs[..i];
        total := total + Abs(cs[i].delta);
        i := i + 1;
      }
      assert cs[..i] == cs;
    }

    method SignedShares(cs: seq<Contribution>, qty: int, total: int) returns (parts: seq<Contribution>)
      requires Proper(cs) && |cs| > 0 && total == Gross(cs) && total > 0
      ensures parts == Signed(Shares(cs, Abs(qty), total), Sign(qty))
    {
      var allocs := ShareOut(cs, Abs(qty), total);
      parts := WithSign(allocs, Sign(qty));
    }

    method ShareOut(cs: seq<Contribution>, qty: nat, total: int) returns (allocs: array<Alloc>)
      requires Proper(cs) && |cs| > 0 && total == Gross(cs) && total > 0
      ensures allocs[..] == Shares(cs, qty, total)
    {
      QuotaFacts(cs, qty);
      hide Quotas, Gross, Ranked, OneEach, IsRanked, Proper;
      var leftover;
      allocs, leftover := Apportion(cs, qty, total);
      SortAllocs(allocs);
      TopUp(allocs, leftover);
    }

    method WithSign(allocs: array<Alloc>, sign: int) returns (parts: seq<Contribution>)
      ensures parts == Signed(allocs[..], sign)
    {
      parts := [];
      var i := 0;
      while i < allocs.Length
        invariant 0 <= i <= allocs.Length && |parts| == i
        invariant forall k :: 0 <= k < i ==> parts[k] == Contribution(allocs[k].strategy, sign * allocs[k].base)
      {
        parts := parts + [Contribution(allocs[i].strategy, sign * allocs[i].base)];
        i := i + 1;
      }
    }

    /** Is the global position of every instrument the engine was told of the sum of its parts? */
    method CheckInvariant() returns (ok: bool)
      ensures ok <==> ChecksOut(View())
    {
      var left := instruments;
      while left != {}
        invariant left <= instruments && forall inst :: inst in instruments - left ==> Balanced(View(), inst)
        decreases |left|
      {
        var inst :| inst in left;
        var sum := SumOfParts(inst);
        if sum != (if inst in global then global[inst] else 0) {
          assert !Balanced(View(), inst);
          return false;
        }
        left := left - {inst};
      }
      return true;
    }

    method SumOfParts(inst: nat) returns (sum: int)
      ensures sum == MapSum(SubPositions(attributed, strategies, inst))
    {
      sum := 0;
      var left := strategies;
      ghost var all := SubPositions(attributed, strategies, inst);
      while left != {}
        invariant left <= strategies
        invariant sum + MapSum(SubPositions(attributed, left, inst)) == MapSum(all)
        decreases |left|
      {
        var s :| s in left;
        ghost var subs := SubPositions(attributed, left, inst);
        MapSumRemove(subs, s);
        assert SubPositions(attributed, left - {s}, inst) == subs - {s};
        sum, left := sum + ValueAt(attributed, s, inst), left - {s};
      }
    }
  }
}
