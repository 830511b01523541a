/** Largest-remainder apportionment, and what netting conserves over whole runs. */
module NettingLaws {
  import opened Orders
  import opened NettingSpec
  import opened Sums
  import opened Arithmetic

  // ---- ranking ----

  ghost predicate IsRanked(allocs: seq<Alloc>) {
    forall i, j :: 0 <= i < j < |allocs| ==> Ahead(allocs[i], allocs[j])
  }

  ghost predicate OneEach(allocs: seq<Alloc>) {
    forall i, j :: 0 <= i < j < |allocs| ==> allocs[i].strategy != allocs[j].strategy
  }

  lemma {:induction false} InsertHolds(a: Alloc, sorted: seq<Alloc>)
    ensures multiset(Insert(a, sorted)) == multiset(sorted) + multiset{a}
  {
    if |sorted| == 0 || Ahead(a, sorted[0]) {
    } else {
      InsertHolds(a, sorted[1..]);
      assert sorted == [sorted[0]] + sorted[1..];
    }
  }

  lemma {:induction false} InsertKeeps(a: Alloc, sorted: seq<Alloc>)
    requires IsRanked(sorted) && forall x :: x in sorted ==> x.strategy != a.strategy
    ensures IsRanked(Insert(a, sorted))
  {
    if |sorted| == 0 || Ahead(a, sorted[0]) {
      assert forall j :: 0 < j < |sorted| ==> Ahead(sorted[0], sorted[j]);
    } else {
      var rest := sorted[1..];
      InsertKeeps(a, rest);
      InsertHolds(a, rest);
      var r := Insert(a, rest);
      forall j | 0 <= j < |r| ensures Ahead(sorted[0], r[j]) {
        InRest(a, rest, r, r[j]);
        if r[j] != a {
          var k :| 0 <= k < |rest| && rest[k] == r[j];
          assert Ahead(sorted[0], sorted[k + 1]);
        }
      }
    }
  }

  lemma InRest(a: Alloc, rest: seq<Alloc>, r: seq<Alloc>, x: Alloc)
    requires multiset(r) == multiset(rest) + multiset{a} && x in r
    ensures x == a || x in rest
  {
    assert x in multiset(r);
  }

  lemma InMultiset(a: seq<Alloc>, b: seq<Alloc>, x: Alloc)
    requires multiset(a) == multiset(b)
    ensures x in a <==> x in b
  {
    assert x in multiset(a) <==> x in multiset(b);
  }

  lemma {:induction false} RankedKeeps(allocs: seq<Alloc>)
    requires OneEach(allocs)
    ensures IsRanked(Ranked(allocs)) && multiset(Ranked(allocs)) == multiset(allocs) && |Ranked(allocs)| == |allocs|
  {
    if |allocs| > 0 {
      var front, last := allocs[..|allocs| - 1], allocs[|allocs| - 1];
      RankedKeeps(front);
      assert allocs == front + [last];
      forall x | x in Ranked(front) ensures x.strategy != last.strategy {
        InMultiset(Ranked(front), front, x);
        var k :| 0 <= k < |front| && front[k] == x;
        assert allocs[k] == x;
      }
      InsertKeeps(last, Ranked(front));
      InsertHolds(last, Ranked(front));
    }
    assert |multiset(Ranked(allocs))| == |multiset(allocs)|;
  }

  lemma HeadFirst(a: seq<Alloc>, x: Alloc)
    requires IsRanked(a) && x in a
    ensures x == a[0] || Ahead(a[0], x)
  {
  }

  lemma SameHead(a: seq<Alloc>, b: seq<Alloc>)
    requires IsRanked(a) && IsRanked(b) && multiset(a) == multiset(b) && |a| > 0 && |b| > 0
    ensures a[0] == b[0]
  {
    InMultiset(a, b, a[0]);
    InMultiset(a, b, b[0]);
    HeadFirst(a, b[0]);
    HeadFirst(b, a[0]);
  }

  lemma TailOf(a: seq<Alloc>)
    requires |a| > 0
    ensures multiset(a[1..]) == multiset(a) - multiset{a[0]}
  {
    assert a == [a[0]] + a[1..];
  }

  /** Any two rankings of the same shares are equal, so the sorting algorithm does not matter. */
  lemma {:induction false} RankingUnique(a: seq<Alloc>, b: seq<Alloc>)
    requires IsRanked(a) && IsRanked(b) && multiset(a) == multiset(b)
    ensures a == b
  {
    if |a| == 0 {
      assert |multiset(b)| == 0;
    } else {
      assert |multiset(b)| == |multiset(a)|;
      SameHead(a, b);
      TailOf(a);
      TailOf(b);
      RankingUnique(a[1..], b[1..]);
      assert a == [a[0]] + a[1..] && b == [b[0]] + b[1..];
    }
  }

  lemma {:induction false} SumPermuted(a: seq<Alloc>, b: seq<Alloc>, f: Alloc -> int)
    requires multiset(a) == multiset(b)
    ensures Sum(a, f) == Sum(b, f)
    decreases |a|
  {
    assert |multiset(a)| == |multiset(b)|;
    if |a| > 0 {
      var x := a[|a| - 1];
      InMultiset(a, b, x);
      var k :| 0 <= k < |b| && b[k] == x;
      hide Sum;
      LastOff(a);
      SumLast(a, f);
      Without(b, k);
      SumRemoved(b, k, f);
      SumPermuted(a[..|a| - 1], b[..k] + b[k + 1..], f);
    }
  }

  lemma LastOff(a: seq<Alloc>)
    requires |a| > 0
    ensures multiset(a[..|a| - 1]) == multiset(a) - multiset{a[|a| - 1]}
  {
    assert a == a[..|a| - 1] + [a[|a| - 1]];
  }

  lemma SumLast(a: seq<Alloc>, f: Alloc -> int)
    requires |a| > 0
    ensures Sum(a, f) == Sum(a[..|a| - 1], f) + f(a[|a| - 1])
  {
  }

  lemma SumRemoved(b: seq<Alloc>, k: nat, f: Alloc -> int)
    requires k < |b|
    ensures Sum(b, f) == Sum(b[..k] + b[k + 1..], f) + f(b[k])
  {
    hide Sum;
    assert b == b[..k] + [b[k]] + b[k + 1..];
    SumWithout(b[..k], b[k], b[k + 1..], f);
  }

  lemma Without(b: seq<Alloc>, k: nat)
    requires k < |b|
    ensures multiset(b[..k] + b[k + 1..]) == multiset(b) - multiset{b[k]}
  {
    assert b == b[..k] + [b[k]] + b[k + 1..];
  }

  lemma SumWithout<T>(front: seq<T>, x: T, back: seq<T>, f: T -> int)
    ensures Sum(front + [x] + back, f) == Sum(front + back, f) + f(x)
  {
    SumAppend(front, x, f);
    SumConcat(front + [x], back, f);
    SumConcat(front, back, f);
  }

  // ---- quotas ----

  /** The contributors of one net order: each once, each with something to trade. */
  ghost predicate Proper(cs: seq<Contribution>) {
    && (forall i :: 0 <= i < |cs| ==> cs[i].delta != 0)
    && (forall i, j :: 0 <= i < j < |cs| ==> cs[i].strategy != cs[j].strategy)
  }

  lemma {:induction false} QuotasAre(cs: seq<Contribution>, qty: nat, total: int)
    requires total > 0
    ensures forall i :: 0 <= i < |cs| ==> Quotas(cs, qty, total)[i] == Quota(cs[i], qty, total)
  {
    if |cs| > 0 {
      QuotasAre(cs[..|cs| - 1], qty, total);
    }
  }

  lemma {:induction false} GrossPositive(cs: seq<Contribution>)
    requires forall i :: 0 <= i < |cs| ==> cs[i].delta != 0
    ensures Gross(cs) >= |cs|
  {
    if |cs| > 0 {
      GrossPositive(cs[..|cs| - 1]);
    }
  }

  /** base * total + rem over all contributors is qty * gross */
  lemma {:induction false} QuotaSums(cs: seq<Contribution>, qty: nat, total: int)
    requires total > 0
    ensures var q := Quotas(cs, qty, total);
      Sum(q, BaseOf()) * total + Sum(q, RemOf()) == qty * Gross(cs)
  {
    var q := Quotas(cs, qty, total);
    if |cs| > 0 {
      var c := cs[|cs| - 1];
      var front := cs[..|cs| - 1];
      QuotaSums(front, qty, total);
      var a, f := Quota(c, qty, total), Quotas(front, qty, total);
      assert q == f + [a];
      SumAppend(f, a, BaseOf());
      SumAppend(f, a, RemOf());
      assert Gross(cs) == Gross(front) + Abs(c.delta);
      hide Quotas, Sum, Gross, Abs;
      QuotaAdds(qty, total, Abs(c.delta), Gross(front), Sum(f, BaseOf()), Sum(f, RemOf()));
    }
  }

  lemma QuotaAdds(qty: nat, total: int, w: int, gross: int, bases: int, rems: int)
    requires total > 0 && bases * total + rems == qty * gross
    ensures (bases + qty * w / total) * total + (rems + qty * w % total) == qty * (gross + w)
  {
    var n := qty * w;
    var b := n / total;
    assert b * total + n % total == n;
    assert (bases + b) * total == bases * total + b * total;
    assert qty * (gross + w) == qty * gross + n;
  }

  ghost predicate SmallRems(allocs: seq<Alloc>, total: int) {
    forall i :: 0 <= i < |allocs| ==> 0 <= allocs[i].rem < total
  }

  ghost function Uneven(): Alloc -> int {
    (a: Alloc) => if a.rem > 0 then 1 else 0
  }

  /** Remainders below total: their sum is below total times the number of those that are not zero. */
  lemma {:induction false} RemsBounded(allocs: seq<Alloc>, total: int)
    requires total > 0 && SmallRems(allocs, total)
    ensures 0 <= Sum(allocs, RemOf()) <= Sum(allocs, Uneven()) * (total - 1)
    ensures 0 <= Sum(allocs, Uneven()) <= |allocs|
  {
    if |allocs| > 0 {
      var front, a := allocs[..|allocs| - 1], allocs[|allocs| - 1];
      RemsBounded(front, total);
      assert (Sum(front, Uneven()) + Uneven()(a)) * (total - 1) ==
        Sum(front, Uneven()) * (total - 1) + Uneven()(a) * (total - 1);
    }
  }

  /** The units the floors leave over are not negative, and fewer than there are contributors with a
      non-zero remainder unless there are none left over. */
  lemma LeftoverFits(cs: seq<Contribution>, qty: nat)
    requires Proper(cs) && |cs| > 0
    ensures
      var total := Gross(cs);
      && total > 0 && var q := Quotas(cs, qty, total);
      && 0 <= Leftover(cs, qty, total) <= Sum(q, Uneven()) <= |cs|
      && (Leftover(cs, qty, total) > 0 ==> Leftover(cs, qty, total) < Sum(q, Uneven()))
  {
    GrossPositive(cs);
    var total := Gross(cs);
    var q := Quotas(cs, qty, total);
    QuotasAre(cs, qty, total);
    QuotaSums(cs, qty, total);
    RemsBounded(q, total);
    assert Leftover(cs, qty, total) == qty - Sum(q, BaseOf());
    var l, u := Leftover(cs, qty, total), Sum(q, Uneven());
    hide Quotas, Sum, Leftover, Gross, Uneven, BaseOf, RemOf;
    LeftoverProduct(qty, Sum(q, BaseOf()), Sum(q, RemOf()), total);
    LeftoverBounds(l, total, u);
  }

  lemma LeftoverProduct(qty: int, bases: int, rems: int, total: int)
    requires bases * total + rems == qty * total
    ensures (qty - bases) * total == rems
  {
  }

  lemma LeftoverBounds(l: int, total: int, u: int)
    requires total > 0 && 0 <= l * total <= u * (total - 1) && u >= 0
    ensures 0 <= l <= u && (l > 0 ==> l < u)
  {
    assert u * (total - 1) == u * total - u;
    MulCancel(-1, l, total);
    if u == 0 {
      MulCancel(l, 1, total);
    } else {
      MulCancel(l, u, total);
    }
  }

  // ---- shares ----

  /** In a ranking, non-zero remainders come first: position i holds one exactly while i is below
      their number. */
  lemma {:induction false} UnevenFirst(allocs: seq<Alloc>, total: int, i: nat)
    requires total > 0 && IsRanked(allocs) && SmallRems(allocs, total) && i < |allocs|
    ensures allocs[i].rem > 0 <==> i < Sum(allocs, Uneven())
  {
    var n := |allocs| - 1;
    var front := allocs[..n];
    if allocs[n].rem > 0 {
      AllUneven(allocs);
      assert i < n ==> Ahead(allocs[i], allocs[n]);
    } else if i < n {
      UnevenFirst(front, total, i);
    } else {
      RemsBounded(front, total);
    }
  }

  lemma {:induction false} AllUneven(allocs: seq<Alloc>)
    requires IsRanked(allocs) && |allocs| > 0 && allocs[|allocs| - 1].rem > 0
    ensures Sum(allocs, Uneven()) == |allocs|
  {
    var n := |allocs| - 1;
    if n > 0 {
      assert Ahead(allocs[n - 1], allocs[n]);
      AllUneven(allocs[..n]);
    }
  }

  lemma {:induction false} ToppedSum(allocs: seq<Alloc>, n: int)
    requires 0 <= n <= |allocs|
    ensures Sum(Topped(allocs, n), BaseOf()) == Sum(allocs, BaseOf()) + n
    decreases |allocs|
  {
    if |allocs| > 0 {
      var k := |allocs| - 1;
      var m := if n > k then k else n;
      assert Topped(allocs, n)[..k] == Topped(allocs[..k], m);
      ToppedSum(allocs[..k], m);
    }
  }

  lemma QuotaFacts(cs: seq<Contribution>, qty: nat)
    requires Proper(cs) && |cs| > 0
    ensures
      && Gross(cs) > 0
      && var q := Quotas(cs, qty, Gross(cs));
      var r := Ranked(q);
      && OneEach(q) && SmallRems(q, Gross(cs))
      && IsRanked(r) && multiset(r) == multiset(q) && |r| == |cs| && SmallRems(r, Gross(cs))
      && Sum(r, BaseOf()) == Sum(q, BaseOf()) && Sum(r, Uneven()) == Sum(q, Uneven())
  {
    GrossPositive(cs);
    var q := Quotas(cs, qty, Gross(cs));
    QuotasAre(cs, qty, Gross(cs));
    RankedKeeps(q);
    SumPermuted(Ranked(q), q, BaseOf());
    SumPermuted(Ranked(q), q, Uneven());
    forall i | 0 <= i < |Ranked(q)| ensures 0 <= Ranked(q)[i].rem < Gross(cs) {
      InMultiset(Ranked(q), q, Ranked(q)[i]);
      var k :| 0 <= k < |q| && q[k] == Ranked(q)[i];
    }
  }

  /** The shares add up to the filled quantity exactly: one pass uses up all leftover units. */
  lemma SharesAddUp(cs: seq<Contribution>, qty: nat)
    requires Proper(cs) && |cs| > 0
    ensures Gross(cs) > 0 && |Shares(cs, qty, Gross(cs))| == |cs|
    ensures Sum(Shares(cs, qty, Gross(cs)), BaseOf()) == qty
  {
    QuotaFacts(cs, qty);
    LeftoverFits(cs, qty);
    ToppedSum(Ranked(Quotas(cs, qty, Gross(cs))), Leftover(cs, qty, Gross(cs)));
  }

  /** Each contributor's quota is in the ranking once; its share is the quota's floor, or one more,
      and then only if its remainder is not zero: the floor or the ceiling of qty * weight / total. */
  lemma ShareOf(cs: seq<Contribution>, qty: nat, i: nat) returns (k: nat)
    requires Proper(cs) && i < |cs|
    ensures
      && Gross(cs) > 0 && |Shares(cs, qty, Gross(cs))| == |cs| && k < |cs|
      && var total := Gross(cs);
      var share, w := Shares(cs, qty, total)[k], Abs(cs[i].delta);
      && share.strategy == cs[i].strategy
      && share.base == qty * w / total + (if k < Leftover(cs, qty, total) then 1 else 0)
      && (k < Leftover(cs, qty, total) ==> qty * w % total > 0)
  {
    QuotaFacts(cs, qty);
    LeftoverFits(cs, qty);
    var total := Gross(cs);
    var q := Quotas(cs, qty, total);
    var r := Ranked(q);
    QuotasAre(cs, qty, total);
    InMultiset(r, q, q[i]);
    k :| 0 <= k < |r| && r[k] == q[i];
    UnevenFirst(r, total, k);
  }

  /** The same as a bound: no share is a whole unit away from its exact pro-rata part. */
  lemma ShareNearQuota(cs: seq<Contribution>, qty: nat, i: nat) returns (k: nat)
    requires Proper(cs) && i < |cs|
    ensures
      && Gross(cs) > 0 && |Shares(cs, qty, Gross(cs))| == |cs| && k < |cs|
      && Shares(cs, qty, Gross(cs))[k].strategy == cs[i].strategy
      && -Gross(cs) < Shares(cs, qty, Gross(cs))[k].base * Gross(cs) - qty * Abs(cs[i].delta) < Gross(cs)
  {
    hide *;
    k := ShareOf(cs, qty, i);
    QuotientNear(qty * Abs(cs[i].delta), Gross(cs), if k < Leftover(cs, qty, Gross(cs)) then 1 else 0);
  }

  /** Leftover units go to the contributors that come first by remainder, weight and id: none is
      passed over for one behind it. */
  lemma ExtrasInOrder(cs: seq<Contribution>, qty: nat, i: nat, j: nat)
    requires Proper(cs) && i < j < |cs|
    ensures
      && Gross(cs) > 0 && |Shares(cs, qty, Gross(cs))| == |cs|
      && var r := Ranked(Quotas(cs, qty, Gross(cs)));
      && |r| == |cs| && Ahead(r[i], r[j])
      && (Shares(cs, qty, Gross(cs))[j].base > r[j].base ==> Shares(cs, qty, Gross(cs))[i].base > r[i].base)
  {
    QuotaFacts(cs, qty);
  }

  // ---- who gets the residual ----

  /** The contributors whose quota ranks ahead of that of c. */
  ghost function AheadOf(cs: seq<Contribution>, qty: nat, total: int, c: Contribution): set<Contribution>
    requires total > 0
  {
    set d | d in cs && Ahead(Quota(d, qty, total), Quota(c, qty, total))
  }

  lemma SameStrategy(cs: seq<Contribution>, c: Contribution, d: Contribution)
    requires Proper(cs) && c in cs && d in cs
    ensures c.strategy == d.strategy <==> c == d
  {
    var i, j :| 0 <= i < |cs| && cs[i] == c && 0 <= j < |cs| && cs[j] == d;
  }

  /** Of two contributors exactly one is ahead of the other. */
  lemma EitherAhead(cs: seq<Contribution>, qty: nat, total: int, c: Contribution, d: Contribution)
    requires Proper(cs) && total > 0 && c in cs && d in cs && c != d
    ensures Ahead(Quota(c, qty, total), Quota(d, qty, total)) <==> !Ahead(Quota(d, qty, total), Quota(c, qty, total))
  {
    SameStrategy(cs, c, d);
  }

  /** r ranks the quotas of the contributors. */
  ghost predicate RanksQuotas(cs: seq<Contribution>, qty: nat, total: int, r: seq<Alloc>)
    requires total > 0
  {
    && IsRanked(r)
    && (forall k :: 0 <= k < |r| ==> exists c :: c in cs && Quota(c, qty, total) == r[k])
    && (forall c :: c in cs ==> Quota(c, qty, total) in r)
  }

  lemma NoneAhead(cs: seq<Contribution>, qty: nat, total: int, r: seq<Alloc>, c: Contribution)
    requires total > 0 && RanksQuotas(cs, qty, total, r) && |r| > 0 && r[0] == Quota(c, qty, total)
    ensures AheadOf(cs, qty, total, c) == {}
  {
    forall d | d in cs ensures !Ahead(Quota(d, qty, total), r[0]) {
      var m :| 0 <= m < |r| && r[m] == Quota(d, qty, total);
      assert m > 0 ==> Ahead(r[0], r[m]);
    }
  }

  lemma OneMoreAhead(cs: seq<Contribution>, qty: nat, total: int, r: seq<Alloc>, k: nat, b: Contribution,
      c: Contribution)
    requires Proper(cs) && total > 0 && RanksQuotas(cs, qty, total, r) && 0 < k < |r| && b in cs && c in cs
    requires r[k - 1] == Quota(b, qty, total) && r[k] == Quota(c, qty, total)
    ensures AheadOf(cs, qty, total, c) == AheadOf(cs, qty, total, b) + {b} && b !in AheadOf(cs, qty, total, b)
  {
    assert Ahead(r[k - 1], r[k]);
    forall d | d in cs && d != b
      ensures Ahead(Quota(d, qty, total), r[k]) <==> Ahead(Quota(d, qty, total), r[k - 1])
    {
      var m :| 0 <= m < |r| && r[m] == Quota(d, qty, total);
      SameStrategy(cs, b, d);
      assert m < k - 1 ==> Ahead(r[m], r[k - 1]) && Ahead(r[m], r[k]);
      assert m > k - 1 ==> Ahead(r[k - 1], r[m]);
      assert m > k ==> Ahead(r[k], r[m]);
    }
  }

  /** Position k of a ranking has exactly k contributors ahead of it. */
  lemma {:induction false} PositionCounts(cs: seq<Contribution>, qty: nat, total: int, r: seq<Alloc>, k: nat,
      c: Contribution)
    requires Proper(cs) && total > 0 && RanksQuotas(cs, qty, total, r) && k < |r| && c in cs &&
      r[k] == Quota(c, qty, total)
    ensures |AheadOf(cs, qty, total, c)| == k
  {
    if k == 0 {
      NoneAhead(cs, qty, total, r, c);
    } else {
      var b :| b in cs && Quota(b, qty, total) == r[k - 1];
      PositionCounts(cs, qty, total, r, k - 1, b);
      OneMoreAhead(cs, qty, total, r, k, b, c);
    }
  }

  lemma RankingRanks(cs: seq<Contribution>, qty: nat)
    requires Proper(cs) && |cs| > 0
    ensures Gross(cs) > 0 && RanksQuotas(cs, qty, Gross(cs), Ranked(Quotas(cs, qty, Gross(cs))))
  {
    QuotaFacts(cs, qty);
    var total := Gross(cs);
    var q := Quotas(cs, qty, total);
    var r := Ranked(q);
    QuotasAre(cs, qty, total);
    hide Quotas, Ranked, Quota;
    forall k | 0 <= k < |r| ensures exists c :: c in cs && Quota(c, qty, total) == r[k] {
      InMultiset(r, q, r[k]);
      var m :| 0 <= m < |q| && q[m] == r[k];
      assert cs[m] in cs;
    }
    forall c | c in cs ensures Quota(c, qty, total) in r {
      var m :| 0 <= m < |cs| && cs[m] == c;
      assert q[m] in q;
      InMultiset(r, q, q[m]);
    }
  }

  ghost function Floor(cs: seq<Contribution>, qty: nat, c: Contribution): int
    requires Gross(cs) > 0
  {
    qty * Abs(c.delta) / Gross(cs)
  }

  /** The strategy of c is given `units` of the fill. */
  ghost predicate Gets(cs: seq<Contribution>, qty: nat, c: Contribution, units: int)
    requires Gross(cs) > 0
  {
    exists k :: 0 <= k < |Shares(cs, qty, Gross(cs))|
      && Shares(cs, qty, Gross(cs))[k] == Alloc(c.strategy, units, qty * Abs(c.delta) % Gross(cs), Abs(c.delta))
  }

  lemma ShareAt(cs: seq<Contribution>, qty: nat, k: nat, c: Contribution)
    requires Proper(cs) && |cs| > 0 && Gross(cs) > 0 && c in cs
    requires k < |Shares(cs, qty, Gross(cs))| && Shares(cs, qty, Gross(cs))[k].strategy == c.strategy
    ensures k == |AheadOf(cs, qty, Gross(cs), c)|
    ensures Shares(cs, qty, Gross(cs))[k].base
         == Floor(cs, qty, c) + (if k < Leftover(cs, qty, Gross(cs)) then 1 else 0)
  {
    RankingRanks(cs, qty);
    var r := Ranked(Quotas(cs, qty, Gross(cs)));
    hide Ranked, Quotas, Leftover;
    var d :| d in cs && Quota(d, qty, Gross(cs)) == r[k];
    SameStrategy(cs, c, d);
    PositionCounts(cs, qty, Gross(cs), r, k, c);
  }

  /** Exactly who gets what: a contributor is given its floor, and one unit more if and only if fewer
      contributors rank ahead of it than there are units left over. */
  lemma GetsExactly(cs: seq<Contribution>, qty: nat, c: Contribution, units: int)
    requires Proper(cs) && c in cs
    ensures Gross(cs) > 0
    ensures Gets(cs, qty, c, units) <==>
      units == Floor(cs, qty, c)
             + (if |AheadOf(cs, qty, Gross(cs), c)| < Leftover(cs, qty, Gross(cs)) then 1 else 0)
  {
    var i :| 0 <= i < |cs| && cs[i] == c;
    var k := ShareOf(cs, qty, i);
    var shares := Shares(cs, qty, Gross(cs));
    ShareAt(cs, qty, k, c);
    ShareTerms(cs, qty, k, c);
    hide Shares, Leftover, Gross, AheadOf, Floor;
    forall l | 0 <= l < |shares| && shares[l] == Alloc(c.strategy, units, qty * Abs(c.delta) % Gross(cs), Abs(c.delta))
      ensures shares[l].base == shares[k].base
    {
      ShareAt(cs, qty, l, c);
    }
  }

  lemma ShareTerms(cs: seq<Contribution>, qty: nat, k: nat, c: Contribution)
    requires Proper(cs) && |cs| > 0 && Gross(cs) > 0 && c in cs
    requires k < |Shares(cs, qty, Gross(cs))| && Shares(cs, qty, Gross(cs))[k].strategy == c.strategy
    ensures Shares(cs, qty, Gross(cs))[k].rem == qty * Abs(c.delta) % Gross(cs)
    ensures Shares(cs, qty, Gross(cs))[k].weight == Abs(c.delta)
  {
    RankingRanks(cs, qty);
    var r := Ranked(Quotas(cs, qty, Gross(cs)));
    hide Ranked, Quotas, Leftover;
    var d :| d in cs && Quota(d, qty, Gross(cs)) == r[k];
    SameStrategy(cs, c, d);
  }

  /** Every contributor gets its floor, and m all the units the floors leave over. */
  ghost predicate ResidualGoesTo(cs: seq<Contribution>, qty: nat, m: Contribution)
    requires Gross(cs) > 0
  {
    forall c :: c in cs ==> Gets(cs, qty, c, Floor(cs, qty, c) + if c == m then Leftover(cs, qty, Gross(cs)) else 0)
  }

  /** No contributor weighs more than m. */
  ghost predicate Largest(cs: seq<Contribution>, m: Contribution) {
    m in cs && forall c :: c in cs ==> Abs(c.delta) <= Abs(m.delta)
  }

  /** When the documented rule is met: the residual goes to a largest contributor exactly when there
      is none, or it is a single unit and no other contributor has a larger remainder, or the same
      remainder and weight with a smaller strategy id. */
  lemma ResidualToLargestExactly(cs: seq<Contribution>, qty: nat, m: Contribution)
    requires Proper(cs) && Largest(cs, m)
    ensures Gross(cs) > 0
    ensures
      var rem := (c: Contribution) => qty * Abs(c.delta) % Gross(cs);
      var left := Leftover(cs, qty, Gross(cs));
      ResidualGoesTo(cs, qty, m) <==>
        left == 0 || (left == 1 && forall c :: c in cs && c != m ==>
          rem(c) < rem(m) || (rem(c) == rem(m) && (Abs(c.delta) < Abs(m.delta) || m.strategy < c.strategy)))
  {
    GrossPositive(cs);
    var total := Gross(cs);
    forall c | c in cs && c != m
      ensures Ahead(Quota(m, qty, total), Quota(c, qty, total)) <==>
        qty * Abs(c.delta) % total < qty * Abs(m.delta) % total
        || (qty * Abs(c.delta) % total == qty * Abs(m.delta) % total &&
          (Abs(c.delta) < Abs(m.delta) || m.strategy < c.strategy))
    {
      SameStrategy(cs, c, m);
    }
    ResidualGoesToExactly(cs, qty, m);
  }

  /** The same for any contributor, in terms of the ranking. */
  lemma ResidualGoesToExactly(cs: seq<Contribution>, qty: nat, m: Contribution)
    requires Proper(cs) && m in cs
    ensures Gross(cs) > 0
    ensures
      var left := Leftover(cs, qty, Gross(cs));
      ResidualGoesTo(cs, qty, m) <==>
        left == 0 || (left == 1 && forall c :: c in cs && c != m ==>
          Ahead(Quota(m, qty, Gross(cs)), Quota(c, qty, Gross(cs))))
  {
    GrossPositive(cs);
    LeftoverFits(cs, qty);
    var total, left := Gross(cs), Leftover(cs, qty, Gross(cs));
    hide Shares, Leftover, Gross, Gets, Floor, Quota, Ahead;
    forall c | c in cs
      ensures Gets(cs, qty, c, Floor(cs, qty, c) + if c == m then left else 0) <==>
        (if c == m then left else 0) == if |AheadOf(cs, qty, total, c)| < left then 1 else 0
    {
      GetsExactly(cs, qty, c, Floor(cs, qty, c) + if c == m then left else 0);
    }
    FrontExactly(cs, qty, total, m);
    if left == 1 {
      forall c | c in cs && c != m && AheadOf(cs, qty, total, m) == {} ensures |AheadOf(cs, qty, total, c)| >= 1 {
        EitherAhead(cs, qty, total, c, m);
        assert m in AheadOf(cs, qty, total, c);
      }
    }
  }

  lemma FrontExactly(cs: seq<Contribution>, qty: nat, total: int, m: Contribution)
    requires Proper(cs) && total > 0 && m in cs
    ensures |AheadOf(cs, qty, total, m)| == 0 <==>
      forall c :: c in cs && c != m ==> Ahead(Quota(m, qty, total), Quota(c, qty, total))
    ensures |AheadOf(cs, qty, total, m)| == 0 <==> AheadOf(cs, qty, total, m) == {}
  {
    forall c | c in cs && c != m ensures c in AheadOf(cs, qty, total, m) <==>
      !Ahead(Quota(m, qty, total), Quota(c, qty, total)) {
      EitherAhead(cs, qty, total, c, m);
    }
    assert m !in AheadOf(cs, qty, total, m);
    assert |AheadOf(cs, qty, total, m)| == 0 <==> forall c :: c !in AheadOf(cs, qty, total, m);
  }

  lemma Sum3<T>(a: T, b: T, c: T, f: T -> int)
    ensures Sum([a, b, c], f) == f(a) + f(b) + f(c)
  {
    SumAppend([], a, f);
    SumAppend([a], b, f);
    SumAppend([a, b], c, f);
    assert [] + [a] == [a] && [a] + [b] == [a, b] && [a, b] + [c] == [a, b, c];
  }

  /** The residual units need not go to the largest contributor: weights 5, 2, 2 and a fill of 4. */
  lemma LargestCanGoWithout()
    ensures exists cs: seq<Contribution>, qty: nat, k: nat ::
      && Proper(cs) && Gross(cs) > 0 && k < |cs| && k < |Shares(cs, qty, Gross(cs))|
      && Leftover(cs, qty, Gross(cs)) > 0
      && (forall i :: 0 <= i < |cs| ==> Abs(cs[i].delta) <= Shares(cs, qty, Gross(cs))[k].weight)
      && Shares(cs, qty, Gross(cs))[k].base == qty * Shares(cs, qty, Gross(cs))[k].weight / Gross(cs)
  {
    var cs := EXAMPLE;
    ExampleGross();
    ExampleShares();
    hide Shares, Leftover, Gross;
    assert Shares(cs, 4, Gross(cs))[2].weight == 5;
    assert Proper(cs);
  }

  const EXAMPLE := [Contribution(1, 5), Contribution(2, 2), Contribution(3, 2)]

  lemma ExampleGross()
    ensures Gross(EXAMPLE) == 9
  {
    Sum3(EXAMPLE[0], EXAMPLE[1], EXAMPLE[2], WeightOf());
  }

  const EXAMPLE_QUOTAS := [Alloc(1, 2, 2, 5), Alloc(2, 0, 8, 2), Alloc(3, 0, 8, 2)]
  const EXAMPLE_RANKED := [Alloc(2, 0, 8, 2), Alloc(3, 0, 8, 2), Alloc(1, 2, 2, 5)]

  lemma ExampleQuotas()
    ensures Quotas(EXAMPLE, 4, 9) == EXAMPLE_QUOTAS
  {
    QuotasAre(EXAMPLE, 4, 9);
  }

  lemma ExampleRanking()
    ensures Ranked(EXAMPLE_QUOTAS) == EXAMPLE_RANKED
  {
    hide Ranked;
    var a, b, c := EXAMPLE_QUOTAS[0], EXAMPLE_QUOTAS[1], EXAMPLE_QUOTAS[2];
    assert multiset([b, c, a]) == multiset([a, b, c]);
    RankedKeeps(EXAMPLE_QUOTAS);
    RankingUnique(Ranked(EXAMPLE_QUOTAS), EXAMPLE_RANKED);
  }

  lemma ExampleShares()
    ensures Leftover(EXAMPLE, 4, 9) == 2 && |Shares(EXAMPLE, 4, 9)| == 3 &&
      Shares(EXAMPLE, 4, 9)[2] == Alloc(1, 2, 2, 5)
  {
    ExampleQuotas();
    ExampleRanking();
    hide Quotas, Ranked, Sum;
    Sum3(EXAMPLE_QUOTAS[0], EXAMPLE_QUOTAS[1], EXAMPLE_QUOTAS[2], BaseOf());
  }
}
