/**
 The netting engine as a state machine on values: targets and attributed sub-positions per
 (strategy, instrument), one net order per instrument and cycle, fills attributed back pro rata.
 */
module NettingSpec {
  import opened Orders
  import opened Sums

  const INSTRUMENT_RANGE: nat := 0x10000

  /** The word both maps are keyed by. */
  function PackKey(strategy: nat, inst: nat): nat {
    strategy * INSTRUMENT_RANGE + inst
  }

  lemma PackKeyInjective(s: nat, i: nat, t: nat, j: nat)
    requires i < INSTRUMENT_RANGE && j < INSTRUMENT_RANGE
    ensures PackKey(s, i) == PackKey(t, j) <==> s == t && i == j
  {
  }

  type Key = (nat, nat)

  /** A strategy's part in the net order of one instrument. */
  datatype Contribution = Contribution(strategy: nat, delta: int)

  datatype NetOrder = NetOrder(instrument: nat, delta: int)

  datatype Book = Book(
    targets: map<Key, int>, attributed: map<Key, int>, global: map<nat, int>,
    contrib: map<nat, seq<Contribution>>, instruments: set<nat>, strategies: set<nat>, saved: int)

  const EMPTY_BOOK := Book(map[], map[], map[], map[], {}, {}, 0)

  function ValueAt(m: map<Key, int>, s: nat, inst: nat): int {
    if (s, inst) in m then m[(s, inst)] else 0
  }

  function Attributed(b: Book, s: nat, inst: nat): int {
    ValueAt(b.attributed, s, inst)
  }

  function GlobalOf(b: Book, inst: nat): int {
    if inst in b.global then b.global[inst] else 0
  }

  function PriceOf(prices: map<nat, int>, inst: nat): int {
    if inst in prices then prices[inst] else 0
  }

  // ---- setters ----

  function SetTarget(b: Book, s: nat, inst: nat, target: int): Book {
    b.(targets := b.targets[(s, inst) := target], instruments := b.instruments + {inst},
      strategies := b.strategies + {s})
  }

  function SetAttributed(b: Book, s: nat, inst: nat, qty: int): Book {
    b.(attributed := b.attributed[(s, inst) := qty],
       global := b.global[inst := GlobalOf(b, inst) + (qty - Attributed(b, s, inst))],
       instruments := b.instruments + {inst}, strategies := b.strategies + {s})
  }

  // ---- one cycle ----

  /** The strategies among `strats` whose target differs from what is attributed to them. */
  function ContribsOf(b: Book, strats: seq<nat>, inst: nat): seq<Contribution> {
    if |strats| == 0 then []
    else
      var s := strats[|strats| - 1];
      var rest := ContribsOf(b, strats[..|strats| - 1], inst);
      if (s, inst) !in b.targets || b.targets[(s, inst)] == Attributed(b, s, inst) then rest
      else rest + [Contribution(s, b.targets[(s, inst)] - Attributed(b, s, inst))]
  }

  function DeltaOf(): Contribution -> int {
    (c: Contribution) => c.delta
  }

  function WeightOf(): Contribution -> int {
    (c: Contribution) => Abs(c.delta)
  }

  function Net(cs: seq<Contribution>): int {
    Sum(cs, DeltaOf())
  }

  function Gross(cs: seq<Contribution>): int {
    Sum(cs, WeightOf())
  }

  /** Add each delta to its strategy's sub-position. */
  function AddAll(m: map<Key, int>, inst: nat, cs: seq<Contribution>): map<Key, int> {
    if |cs| == 0 then m
    else
      var c := cs[|cs| - 1];
      var before := AddAll(m, inst, cs[..|cs| - 1]);
      before[(c.strategy, inst) := ValueAt(before, c.strategy, inst) + c.delta]
  }

  /** Zero net: no order, but the transfer is booked. Otherwise one order, whose contributions are
      remembered. */
  function NetInstrument(b: Book, strats: seq<nat>, inst: nat, price: int): (Book, seq<NetOrder>) {
    var cs := ContribsOf(b, strats, inst);
    if |cs| == 0 then (b, [])
    else if Net(cs) == 0 then
      (b.(saved := b.saved + TruncDiv(Gross(cs) * price, 2), attributed := AddAll(b.attributed, inst, cs)), [])
    else (b.(contrib := b.contrib[inst := cs]), [NetOrder(inst, Net(cs))])
  }

  function Cycle(b: Book, insts: seq<nat>, strats: seq<nat>, prices: map<nat, int>): (Book, seq<NetOrder>) {
    if |insts| == 0 then (b, [])
    else
      var inst := insts[|insts| - 1];
      var before := Cycle(b, insts[..|insts| - 1], strats, prices);
      var here := NetInstrument(before.0, strats, inst, PriceOf(prices, inst));
      (here.0, before.1 + here.1)
  }

  // ---- attribution of a fill ----

  datatype Alloc = Alloc(strategy: nat, base: int, rem: int, weight: int)

  /** The order in which leftover units are given: larger remainder, then larger weight, then smaller
      strategy id. */
  predicate Ahead(a: Alloc, b: Alloc) {
    if a.rem != b.rem then a.rem > b.rem
    else if a.weight != b.weight then a.weight > b.weight
    else a.strategy < b.strategy
  }

  function Quota(c: Contribution, qty: nat, total: int): Alloc
    requires total > 0
  {
    Alloc(c.strategy, qty * Abs(c.delta) / total, qty * Abs(c.delta) % total, Abs(c.delta))
  }

  function Quotas(cs: seq<Contribution>, qty: nat, total: int): (allocs: seq<Alloc>)
    requires total > 0
    ensures |allocs| == |cs|
  {
    if |cs| == 0 then []
    else Quotas(cs[..|cs| - 1], qty, total) + [Quota(cs[|cs| - 1], qty, total)]
  }

  function BaseOf(): Alloc -> int {
    (a: Alloc) => a.base
  }

  function RemOf(): Alloc -> int {
    (a: Alloc) => a.rem
  }

  function Insert(a: Alloc, sorted: seq<Alloc>): seq<Alloc> {
    if |sorted| == 0 || Ahead(a, sorted[0]) then [a] + sorted else [sorted[0]] + Insert(a, sorted[1..])
  }

  function Ranked(allocs: seq<Alloc>): seq<Alloc> {
    if |allocs| == 0 then [] else Insert(allocs[|allocs| - 1], Ranked(allocs[..|allocs| - 1]))
  }

  /** One unit more to each of the first n. */
  function Topped(allocs: seq<Alloc>, n: int): (r: seq<Alloc>)
    ensures |r| == |allocs|
    ensures forall i :: 0 <= i < |r| ==> r[i] == if i < n then allocs[i].(base := allocs[i].base + 1) else allocs[i]
  {
    seq(|allocs|, i requires 0 <= i < |allocs| => if i < n then allocs[i].(base := allocs[i].base + 1) else allocs[i])
  }

  function Leftover(cs: seq<Contribution>, qty: nat, total: int): int
    requires total > 0
  {
    qty - Sum(Quotas(cs, qty, total), BaseOf())
  }

  /** What each contributor gets of `qty` units. */
  function Shares(cs: seq<Contribution>, qty: nat, total: int): seq<Alloc>
    requires total > 0
  {
    Topped(Ranked(Quotas(cs, qty, total)), Leftover(cs, qty, total))
  }

  function Sign(x: int): int {
    if x < 0 then -1 else 1
  }

  function Signed(allocs: seq<Alloc>, sign: int): (cs: seq<Contribution>)
    ensures |cs| == |allocs|
  {
    seq(|allocs|, i requires 0 <= i < |allocs| => Contribution(allocs[i].strategy, sign * allocs[i].base))
  }

  function AttributeFill(b: Book, inst: nat, qty: int): Book {
    var b1 := b.(global := b.global[inst := GlobalOf(b, inst) + qty]);
    if inst !in b.contrib || |b.contrib[inst]| == 0 then b1
    else
      var cs := b.contrib[inst];
      if Gross(cs) <= 0 then b1
      else b1.(attributed := AddAll(b.attributed, inst, Signed(Shares(cs, Abs(qty), Gross(cs)), Sign(qty))))
  }

  // ---- conservation ----

  /** The sub-positions of one instrument, by strategy. */
  ghost function SubPositions(m: map<Key, int>, strategies: set<nat>, inst: nat): map<nat, int> {
    map s | s in strategies :: ValueAt(m, s, inst)
  }

  ghost predicate Balanced(b: Book, inst: nat) {
    GlobalOf(b, inst) == MapSum(SubPositions(b.attributed, b.strategies, inst))
  }

  /** check_invariant, which looks at the instruments it has been told of */
  ghost predicate ChecksOut(b: Book) {
    forall inst :: inst in b.instruments ==> Balanced(b, inst)
  }
}
