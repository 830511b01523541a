/** A fixed-capacity ring of samples: the window of the latest ones, and percentiles over it. */
module Rings {
  import opened Arithmetic

  /** The latest `capacity` of the samples pushed so far. */
  function Window(history: seq<int>, capacity: nat): seq<int> {
    if |history| <= capacity then history else history[|history| - capacity..]
  }

  /** Each of the latest samples sits at its number modulo the capacity. */
  ghost predicate Holds(buf: seq<int>, history: seq<int>, capacity: nat)
    requires capacity > 0
  {
    && |buf| == Min(|history|, capacity)
    && forall i :: |history| - |buf| <= i < |history| ==> 0 <= i % capacity < |buf| && buf[i % capacity] == history[i]
  }

  lemma NextHead(n: nat, capacity: nat)
    requires capacity > 0
    ensures (n % capacity + 1) % capacity == (n + 1) % capacity
  {
    var q, r := n / capacity, n % capacity;
    assert n == q * capacity + r;
    if r + 1 == capacity {
      assert n + 1 == (q + 1) * capacity;
      Residue(n + 1, capacity, q + 1, 0);
    } else {
      Residue(n + 1, capacity, q, r + 1);
    }
  }

  lemma Residue(a: int, b: nat, q: int, r: nat)
    requires b > 0 && a == q * b + r && r < b
    ensures a % b == r
  {
    DivisionOf(a, b, q, r);
  }

  /** Numbers less than the capacity apart have different places. */
  lemma PlacesDiffer(i: nat, n: nat, capacity: nat)
    requires capacity > 0 && i < n < i + capacity
    ensures i % capacity != n % capacity
  {
    assert i == (i / capacity) * capacity + i % capacity;
    assert n == (n / capacity) * capacity + n % capacity;
    if i % capacity == n % capacity {
      assert (n / capacity - i / capacity) * capacity == n - i;
      Between(n / capacity - i / capacity, capacity);
    }
  }

  lemma Between(q: int, b: nat)
    requires b > 0
    ensures !(0 < q * b < b)
  {
    if q >= 1 {
      assert q * b >= 1 * b;
    } else {
      assert q * b <= 0;
    }
  }

  /** Writing at the head keeps the ring: the sample that ages out is the one overwritten. */
  lemma PushKeeps(buf: seq<int>, history: seq<int>, capacity: nat, v: int)
    requires capacity > 0 && Holds(buf, history, capacity)
    ensures |history| < capacity ==> Holds(buf + [v], history + [v], capacity)
    ensures |history| >= capacity ==>
      |history| % capacity < |buf| && Holds(buf[|history| % capacity := v], history + [v], capacity)
  {
    var n := |history|;
    var h := history + [v];
    if n < capacity {
      forall i | 0 <= i < n + 1 ensures i % capacity == i {
        Residue(i, capacity, 0, i);
      }
    } else {
      var b := buf[n % capacity := v];
      forall i | n + 1 - capacity <= i < n + 1 ensures 0 <= i % capacity < |b| && b[i % capacity] == h[i] {
        if i < n {
          PlacesDiffer(i, n, capacity);
        }
      }
    }
  }

  /** From the head on, and then from the start, the ring reads as the window in order. */
  lemma RotationIsWindow(buf: seq<int>, history: seq<int>, capacity: nat)
    requires capacity > 0 && Holds(buf, history, capacity)
    ensures
      if |history| < capacity then buf == Window(history, capacity)
      else
        var head := |history| % capacity;
        |buf| == capacity && buf[head..] + buf[..head] == Window(history, capacity)
    ensures multiset(buf) == multiset(Window(history, capacity))
  {
    var n := |history|;
    if n < capacity {
      forall i | 0 <= i < n ensures buf[i] == history[i] {
        Residue(i, capacity, 0, i);
      }
    } else {
      var head, w := n % capacity, Window(history, capacity);
      forall k | 0 <= k < capacity ensures (buf[head..] + buf[..head])[k] == w[k] {
        PlaceOf(n, capacity, k);
      }
      hide Holds, Window;
      Rotated(buf, head, w);
    }
  }

  /** Where the k-th of the latest samples sits. */
  lemma PlaceOf(n: nat, capacity: nat, k: nat)
    requires capacity > 0 && n >= capacity && k < capacity
    ensures
      var head := n % capacity;
      (n - capacity + k) % capacity == if head + k < capacity then head + k else head + k - capacity
  {
    var q, head := n / capacity, n % capacity;
    assert n == q * capacity + head;
    if head + k < capacity {
      assert (q - 1) * capacity == q * capacity - capacity;
      Residue(n - capacity + k, capacity, q - 1, head + k);
    } else {
      Residue(n - capacity + k, capacity, q, head + k - capacity);
    }
  }

  lemma Rotated(buf: seq<int>, head: nat, w: seq<int>)
    requires head <= |buf| == |w| && forall k :: 0 <= k < |w| ==> (buf[head..] + buf[..head])[k] == w[k]
    ensures buf[head..] + buf[..head] == w && multiset(buf) == multiset(w)
  {
    assert buf == buf[..head] + buf[head..];
  }

  // ---- percentiles ----

  ghost predicate Ordered(s: seq<int>) {
    forall i, j :: 0 <= i <= j < |s| ==> s[i] <= s[j]
  }

  function Place(x: int, s: seq<int>): seq<int> {
    if |s| == 0 || x <= s[0] then [x] + s else [s[0]] + Place(x, s[1..])
  }

  function Sorted(s: seq<int>): seq<int> {
    if |s| == 0 then [] else Place(s[|s| - 1], Sorted(s[..|s| - 1]))
  }

  lemma {:induction false} PlaceHolds(x: int, s: seq<int>)
    ensures multiset(Place(x, s)) == multiset(s) + multiset{x} && |Place(x, s)| == |s| + 1
    ensures forall y :: y in Place(x, s) <==> y == x || y in s
  {
    if |s| > 0 && x > s[0] {
      PlaceHolds(x, s[1..]);
      assert s == [s[0]] + s[1..];
    }
  }

  lemma {:induction false} PlaceKeeps(x: int, s: seq<int>)
    requires Ordered(s)
    ensures Ordered(Place(x, s))
  {
    if |s| > 0 && x > s[0] {
      PlaceKeeps(x, s[1..]);
      PlaceHolds(x, s[1..]);
      var r := Place(x, s[1..]);
      forall j | 0 <= j < |r| ensures s[0] <= r[j] {
        assert r[j] in r;
      }
    } else {
      assert |s| > 0 ==> forall j :: 0 <= j < |s| ==> s[0] <= s[j];
    }
  }

  lemma {:induction false} SortedKeeps(s: seq<int>)
    ensures Ordered(Sorted(s)) && multiset(Sorted(s)) == multiset(s) && |Sorted(s)| == |s|
  {
    if |s| > 0 {
      var front, x := s[..|s| - 1], s[|s| - 1];
      SortedKeeps(front);
      SortedIs(s);
      hide *;
      PlaceKeeps(x, Sorted(front));
      PlaceHolds(x, Sorted(front));
      FrontAndLast(s);
    }
  }

  lemma SortedIs(s: seq<int>)
    requires |s| > 0
    ensures Sorted(s) == Place(s[|s| - 1], Sorted(s[..|s| - 1]))
  {
    hide Place;
  }

  lemma FrontAndLast(s: seq<int>)
    requires |s| > 0
    ensures multiset(s) == multiset(s[..|s| - 1]) + multiset{s[|s| - 1]}
  {
    assert s == s[..|s| - 1] + [s[|s| - 1]];
  }

  lemma Shared(a: seq<int>, b: seq<int>, x: int)
    requires multiset(a) == multiset(b)
    ensures |a| == |b| && (x in a <==> x in b)
  {
    assert |multiset(a)| == |multiset(b)|;
    assert x in multiset(a) <==> x in multiset(b);
  }

  lemma Behead(a: seq<int>)
    requires |a| > 0
    ensures multiset(a[1..]) == multiset(a) - multiset{a[0]} && (Ordered(a) ==> Ordered(a[1..]))
  {
    assert a == [a[0]] + a[1..];
  }

  /** There is one way to put given values in order, whatever order they were pushed in. */
  lemma {:induction false} OrderUnique(a: seq<int>, b: seq<int>)
    requires Ordered(a) && Ordered(b) && multiset(a) == multiset(b)
    ensures a == b
  {
    hide *;
    Shared(a, b, 0);
    if |a| > 0 {
      SameLeast(a, b);
      Behead(a);
      Behead(b);
      OrderUnique(a[1..], b[1..]);
      Unbehead(a);
      Unbehead(b);
    }
  }

  lemma SameLeast(a: seq<int>, b: seq<int>)
    requires Ordered(a) && Ordered(b) && multiset(a) == multiset(b) && |a| > 0 && |b| > 0
    ensures a[0] == b[0]
  {
    Shared(a, b, a[0]);
    Shared(a, b, b[0]);
  }

  lemma Unbehead(a: seq<int>)
    requires |a| > 0
    ensures a == [a[0]] + a[1..]
  {
  }

  lemma InsertedAt(s: seq<int>, k: nat, x: int)
    requires Ordered(s) && k <= |s| && (forall j :: 0 <= j < k ==> s[j] < x) && (k < |s| ==> x <= s[k])
    ensures Ordered(s[..k] + [x] + s[k..]) && multiset(s[..k] + [x] + s[k..]) == multiset(s) + multiset{x}
  {
    assert multiset(s[..k] + [x] + s[k..]) == multiset(s) + multiset{x} by {
      hide Ordered;
      assert s == s[..k] + s[k..];
    }
    assert k < |s| ==> forall j :: k <= j < |s| ==> s[k] <= s[j];
  }

  /** Linear interpolation between the two samples around a fractional index. */
  function Interpolated(s: seq<int>, index: real): real
    requires |s| > 0 && 0.0 <= index <= (|s| - 1) as real
  {
    var lo := index.Floor;
    var hi := Min(lo + 1, |s| - 1);
    s[lo] as real + (s[hi] - s[lo]) as real * (index - lo as real)
  }

  /** The fractional index of a percentile among n ordered samples. */
  function IndexAt(n: nat, p: real): (index: real)
    requires n > 0 && 0.0 <= p <= 1.0
    ensures 0.0 <= index <= (n - 1) as real
  {
    ScaleInside(p, (n - 1) as real);
    p * (n - 1) as real
  }

  lemma ScaleInside(p: real, c: real)
    requires 0.0 <= p <= 1.0 && c >= 0.0
    ensures 0.0 <= p * c <= c
  {
    assert (1.0 - p) * c >= 0.0;
    assert (1.0 - p) * c == c - p * c;
  }

  lemma IndexMonotone(n: nat, p: real, q: real)
    requires n > 0 && 0.0 <= p <= q <= 1.0
    ensures IndexAt(n, p) <= IndexAt(n, q)
  {
    ScaleLe(p, q, (n - 1) as real);
  }

  /** The percentile over ordered samples; 0 when there are none. */
  function PercentileOf(s: seq<int>, p: real): int {
    if |s| == 0 then 0
    else if p <= 0.0 then s[0]
    else if p >= 1.0 then s[|s| - 1]
    else Trunc(Interpolated(s, IndexAt(|s|, p)))
  }

  lemma ScaleLe(a: real, b: real, c: real)
    requires a <= b && c >= 0.0
    ensures a * c <= b * c
  {
    assert (b - a) * c >= 0.0;
  }

  lemma TruncMonotone(x: real, y: real)
    requires x <= y
    ensures Trunc(x) <= Trunc(y)
  {
  }

  lemma TruncInside(x: real, lo: int, hi: int)
    requires lo as real <= x <= hi as real
    ensures lo <= Trunc(x) <= hi
  {
  }

  /** Between two neighbouring samples interpolation stays between them. */
  lemma Segment(a: int, b: int, f: real)
    requires a <= b && 0.0 <= f <= 1.0
    ensures a as real <= a as real + (b - a) as real * f <= b as real
  {
    ScaleInside(f, (b - a) as real);
  }

  lemma InterpolatedBounds(s: seq<int>, index: real)
    requires |s| > 0 && Ordered(s) && 0.0 <= index <= (|s| - 1) as real
    ensures
      var lo := index.Floor;
      s[lo] as real <= Interpolated(s, index) <= s[Min(lo + 1, |s| - 1)] as real
  {
    var lo := index.Floor;
    Segment(s[lo], s[Min(lo + 1, |s| - 1)], index - lo as real);
  }

  lemma InterpolatedMonotone(s: seq<int>, x: real, y: real)
    requires |s| > 0 && Ordered(s) && 0.0 <= x <= y <= (|s| - 1) as real
    ensures Interpolated(s, x) <= Interpolated(s, y)
  {
    var a, b := x.Floor, y.Floor;
    if a == b {
      var hi := Min(a + 1, |s| - 1);
      ScaleLe(x - a as real, y - a as real, (s[hi] - s[a]) as real);
    } else {
      InterpolatedBounds(s, x);
      InterpolatedBounds(s, y);
      assert s[Min(a + 1, |s| - 1)] <= s[b];
    }
  }

  /** A percentile lies between the smallest and the largest sample and does not fall as p grows. */
  lemma PercentileLaws(s: seq<int>, p: real, q: real)
    requires |s| > 0 && Ordered(s) && p <= q
    ensures s[0] <= PercentileOf(s, p) <= PercentileOf(s, q) <= s[|s| - 1]
  {
    PercentileInside(s, p);
    PercentileInside(s, q);
    hide IndexAt, Interpolated, Trunc;
    if 0.0 < p && q < 1.0 {
      IndexMonotone(|s|, p, q);
      InterpolatedMonotone(s, IndexAt(|s|, p), IndexAt(|s|, q));
      TruncMonotone(Interpolated(s, IndexAt(|s|, p)), Interpolated(s, IndexAt(|s|, q)));
    }
  }

  lemma PercentileInside(s: seq<int>, p: real)
    requires |s| > 0 && Ordered(s)
    ensures s[0] <= PercentileOf(s, p) <= s[|s| - 1]
  {
    if 0.0 < p < 1.0 {
      var index := IndexAt(|s|, p);
      InterpolatedBounds(s, index);
      var lo := index.Floor;
      assert s[0] <= s[lo] && s[Min(lo + 1, |s| - 1)] <= s[|s| - 1];
      TruncInside(Interpolated(s, index), s[0], s[|s| - 1]);
    }
  }

  /** How many samples satisfy the predicate. */
  function CountIf(s: seq<int>, pred: int -> bool): nat {
    if |s| == 0 then 0 else CountIf(s[..|s| - 1], pred) + (if pred(s[|s| - 1]) then 1 else 0)
  }

  function PartOf(n: nat, of: nat): real
    requires of > 0
  {
    n as real / of as real
  }

  /** The part of the samples that satisfy the predicate; 0 when there are none. */
  function FractionOf(s: seq<int>, pred: int -> bool): real {
    if |s| == 0 then 0.0 else PartOf(CountIf(s, pred), |s|)
  }

  lemma CountNone(s: seq<int>, pred: int -> bool)
    ensures CountIf(s[..0], pred) == 0
  {
  }

  lemma CountNext(s: seq<int>, i: nat, pred: int -> bool)
    requires i < |s|
    ensures CountIf(s[..i + 1], pred) == CountIf(s[..i], pred) + (if pred(s[i]) then 1 else 0)
  {
    assert s[..i + 1][..i] == s[..i];
  }

  lemma {:induction false} CountConcat(a: seq<int>, b: seq<int>, pred: int -> bool)
    ensures CountIf(a + b, pred) == CountIf(a, pred) + CountIf(b, pred)
  {
    if |b| == 0 {
      assert a + b == a;
    } else {
      CountConcat(a, b[..|b| - 1], pred);
      assert (a + b)[..|a + b| - 1] == a + b[..|b| - 1];
    }
  }

  /** Counting around the ring gives what counting the window in order gives. */
  lemma CountRotated(buf: seq<int>, head: nat, pred: int -> bool)
    requires head <= |buf|
    ensures CountIf(buf[head..] + buf[..head], pred) == CountIf(buf, pred)
  {
    hide CountIf;
    CountConcat(buf[head..], buf[..head], pred);
    CountConcat(buf[..head], buf[head..], pred);
    assert buf == buf[..head] + buf[head..];
  }

  class RingBuffer {
    const capacity: nat
    var head: nat
    var buf: seq<int>
    ghost var history: seq<int>

    ghost predicate Valid() reads this {
      capacity > 0 && head == |history| % capacity && Holds(buf, history, capacity)
    }

    ghost function Latest(): seq<int> reads this {
      Window(history, capacity)
    }

    constructor (capacity: nat)
      requires capacity > 0
      ensures Valid() && this.capacity == capacity && history == []
    {
      this.capacity, head, buf := capacity, 0, [];
      history := [];
    }

    method Push(v: int)
      requires Valid()
      modifies this
      ensures Valid() && history == old(history) + [v]
    {
      PushKeeps(buf, history, capacity, v);
      NextHead(|history|, capacity);
      if |buf| < capacity {
        buf := buf + [v];
      } else {
        buf := buf[head := v];
      }
      head := (head + 1) % capacity;
      history := history + [v];
    }

    method Size() returns (n: nat)
      requires Valid()
      ensures n == |Latest()|
    {
      RotationIsWindow(buf, history, capacity);
      n := |buf|;
    }

    lemma SameSamples(pred: int -> bool)
      requires Valid()
      ensures FractionOf(Latest(), pred) == if |buf| == 0 then 0.0 else PartOf(CountIf(buf, pred), |buf|)
    {
      RotationIsWindow(buf, history, capacity);
      if |history| >= capacity {
        CountRotated(buf, head, pred);
      }
    }

    /** The part of the latest samples that satisfy the predicate. */
    method Fraction(pred: int -> bool) returns (f: real)
      requires Valid()
      ensures f == FractionOf(Latest(), pred)
    {
      SameSamples(pred);
      hide *;
      if |buf| == 0 { return 0.0; }
      var n, i := 0, 0;
      CountNone(buf, pred);
      while i < |buf|
        invariant 0 <= i <= |buf| && n == CountIf(buf[..i], pred)
      {
        CountNext(buf, i, pred);
        if pred(buf[i]) { n := n + 1; }
        i := i + 1;
      }
      assert buf[..i] == buf;
      f := PartOf(n, |buf|);
    }

    /** The percentile of the latest samples, from an ordered copy of the ring. */
    method Percentile(p: real) returns (x: int)
      requires Valid()
      ensures x == PercentileOf(Sorted(Latest()), p)
    {
      RotationIsWindow(buf, history, capacity);
      SortedKeeps(Latest());
      hide Interpolated, IndexAt, Trunc, Window, Holds, Sorted;
      var s := OrderedCopy();
      OrderUnique(s, Sorted(Latest()));
      if |s| == 0 { return 0; }
      if p <= 0.0 { return s[0]; }
      if p >= 1.0 { return s[|s| - 1]; }
      return Trunc(Interpolated(s, IndexAt(|s|, p)));
    }

    method OrderedCopy() returns (s: seq<int>)
      ensures Ordered(s) && multiset(s) == multiset(buf)
    {
      s := [];
      var i := 0;
      while i < |buf|
        invariant 0 <= i <= |buf| && Ordered(s) && multiset(s) == multiset(buf[..i])
      {
        assert buf[..i + 1] == buf[..i] + [buf[i]];
        s := Inserted(s, buf[i]);
        i := i + 1;
      }
      assert buf[..i] == buf;
    }

    static method Inserted(s: seq<int>, x: int) returns (r: seq<int>)
      requires Ordered(s)
      ensures Ordered(r) && multiset(r) == multiset(s) + multiset{x}
    {
      var k := 0;
      while k < |s| && s[k] < x
        invariant 0 <= k <= |s| && forall j :: 0 <= j < k ==> s[j] < x
      {
        k := k + 1;
      }
      InsertedAt(s, k, x);
      r := s[..k] + [x] + s[k..];
    }
  }
}
