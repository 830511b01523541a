/**
 The staleness gate: modular sequence numbers, checked against a gate that counts without wrapping.
 */
module SignalGates {
  import opened Orders
  import opened SignalCodec
  import opened Arithmetic

  datatype Verdict = Accept | RejectDNT | RejectAge | RejectAbsurd | GapAcceptedLogged | DuplicateDropped

  datatype GateConfig = GateConfig(
    maxAge: int, modulo: nat, missThreshold: nat, hbInterval: int, hbThreshold: int, maxAbsTarget: int)

  datatype Producer = Producer(expected: nat, seen: bool, lastAccept: int)

  datatype Gate = Gate(enabled: bool, producers: map<nat, Producer>)

  const UNSEEN := Producer(0, false, 0)

  predicate ConfigOk(cfg: GateConfig) {
    cfg.missThreshold < cfg.modulo && cfg.modulo < WORD64
  }

  function ProducerOf(g: Gate, id: nat): Producer {
    if id in g.producers then g.producers[id] else UNSEEN
  }

  predicate Absurd(cfg: GateConfig, m: Message) {
    exists i :: 0 <= i < |m.targets| && Abs(m.targets[i].qty) > cfg.maxAbsTarget
  }

  /** How far a sequence number is ahead of the expected one, modulo the wrap space; the sum is
      formed in unsigned 64-bit arithmetic. */
  function Ahead(cfg: GateConfig, sequence: nat, expected: nat): nat
    requires cfg.modulo > 0
  {
    (sequence + cfg.modulo - expected) % WORD64 % cfg.modulo
  }

  predicate Applied(v: Verdict) {
    v.Accept? || v.GapAcceptedLogged?
  }

  function SequenceVerdict(cfg: GateConfig, p: Producer, sequence: nat): Verdict
    requires cfg.modulo > 0
  {
    if !p.seen || Ahead(cfg, sequence, p.expected) == 0 then Accept
    else if Ahead(cfg, sequence, p.expected) >= (cfg.modulo - cfg.missThreshold) % WORD64 then DuplicateDropped
    else GapAcceptedLogged
  }

  function Check(cfg: GateConfig, g: Gate, m: Message, now: int): (Gate, Verdict)
    requires cfg.modulo > 0
  {
    if !g.enabled then (g, RejectDNT)
    else if Absurd(cfg, m) then (g, RejectAbsurd)
    else if now - m.generatedAt > cfg.maxAge then (g, RejectAge)
    else
      var v := SequenceVerdict(cfg, ProducerOf(g, m.strategy), m.sequence);
      if !Applied(v) then (g, v)
      else
        (g.(producers := g.producers[m.strategy := Producer((m.sequence + 1) % WORD64 % cfg.modulo, true, now)]), v)
  }

  function HeartbeatAlive(cfg: GateConfig, g: Gate, id: nat, now: int): bool {
    id in g.producers && g.producers[id].seen && now - g.producers[id].lastAccept <= cfg.hbInterval * cfg.hbThreshold
  }

  // ---- the gate that counts without wrapping ----

  /** The same checks on true sequence numbers, which a producer counts up without bound. */
  function IdealVerdict(p: Producer, number: nat): Verdict {
    if !p.seen || number == p.expected then Accept
    else if number < p.expected then DuplicateDropped
    else GapAcceptedLogged
  }

  function IdealCheck(cfg: GateConfig, g: Gate, m: Message, number: nat, now: int): (Gate, Verdict) {
    if !g.enabled then (g, RejectDNT)
    else if Absurd(cfg, m) then (g, RejectAbsurd)
    else if now - m.generatedAt > cfg.maxAge then (g, RejectAge)
    else
      var v := IdealVerdict(ProducerOf(g, m.strategy), number);
      if !Applied(v) then (g, v)
      else (g.(producers := g.producers[m.strategy := Producer(number + 1, true, now)]), v)
  }

  /** The modular gate holds what the ideal gate holds, expected numbers reduced. */
  ghost predicate Refines(cfg: GateConfig, g: Gate, ideal: Gate)
    requires cfg.modulo > 0
  {
    && g.enabled == ideal.enabled && g.producers.Keys == ideal.producers.Keys
    && forall id :: id in g.producers ==>
         g.producers[id] == ideal.producers[id].(expected := ideal.producers[id].expected % cfg.modulo)
  }

  /** A true number lies at most missThreshold behind what is expected, and less than modulo minus
      missThreshold ahead of it. */
  predicate InWindow(cfg: GateConfig, expected: nat, number: nat) {
    expected - cfg.missThreshold <= number < expected + cfg.modulo - cfg.missThreshold
  }

  /** A message carries its true number reduced to the wrap space; a wrap space that does not divide
      the machine word needs sequence words whose sums do not overflow. */
  predicate Carries(cfg: GateConfig, m: Message, number: nat)
    requires cfg.modulo > 0
  {
    m.sequence % cfg.modulo == number % cfg.modulo && (WORD64 % cfg.modulo == 0 || m.sequence + cfg.modulo < WORD64)
  }

  lemma AheadIsDistance(cfg: GateConfig, m: Message, number: nat, expected: nat)
    requires ConfigOk(cfg) && Carries(cfg, m, number)
    ensures Ahead(cfg, m.sequence, expected % cfg.modulo) == (number - expected) % cfg.modulo
  {
    WordResidue(m.sequence + cfg.modulo - expected % cfg.modulo, cfg.modulo);
    Distance(m.sequence, number, expected, cfg.modulo);
  }

  /** Reducing modulo the machine word first makes no difference, if nothing overflows or the wrap
      space divides the word. */
  lemma WordResidue(x: nat, n: nat)
    requires n > 0 && (x < WORD64 || WORD64 % n == 0)
    ensures x % WORD64 % n == x % n
  {
    if x >= WORD64 {
      assert x == (x / WORD64) * WORD64 + x % WORD64 && WORD64 == (WORD64 / n) * n;
      ProductOfDivisor(x / WORD64, WORD64 / n, n);
      ShiftedResidue(x % WORD64, (x / WORD64) * (WORD64 / n), n);
    }
  }

  lemma ProductOfDivisor(a: int, b: int, n: int)
    ensures a * (b * n) == a * b * n
  {
  }

  lemma Distance(a: nat, number: nat, expected: nat, n: nat)
    requires n > 0 && a % n == number % n
    ensures (a + n - expected % n) % n == (number - expected) % n
  {
    var qa, qn, qe := a / n, number / n, expected / n;
    assert a == qa * n + a % n && number == qn * n + number % n && expected == qe * n + expected % n;
    var q := qa - qn + qe + 1;
    assert q * n == qa * n - qn * n + qe * n + n;
    ShiftedResidue(number - expected, q, n);
  }

  lemma ShiftedResidue(x: int, q: int, n: nat)
    requires n > 0
    ensures (x + q * n) % n == x % n
  {
    var y := x + q * n;
    assert x == (x / n) * n + x % n;
    assert y == (x / n + q) * n + x % n by {
      assert (x / n + q) * n == (x / n) * n + q * n;
    }
    DivisionOf(y, n, x / n + q, x % n);
  }

  lemma SmallResidue(d: int, n: nat)
    requires n > 0 && 0 < d + n && d < n
    ensures d % n == if d >= 0 then d else d + n
  {
    if d >= 0 {
      DivisionOf(d, n, 0, d);
    } else {
      DivisionOf(d, n, -1, d + n);
    }
  }

  lemma VerdictRefines(cfg: GateConfig, p: Producer, ideal: Producer, m: Message, number: nat)
    requires ConfigOk(cfg) && Carries(cfg, m, number)
    requires p == ideal.(expected := ideal.expected % cfg.modulo)
    requires ideal.seen ==> InWindow(cfg, ideal.expected, number)
    ensures SequenceVerdict(cfg, p, m.sequence) == IdealVerdict(ideal, number)
  {
    Threshold(cfg);
    if ideal.seen {
      AheadIsDistance(cfg, m, number, ideal.expected);
      SmallResidue(number - ideal.expected, cfg.modulo);
    }
    hide Ahead, Carries;
  }

  lemma Threshold(cfg: GateConfig)
    requires ConfigOk(cfg)
    ensures (cfg.modulo - cfg.missThreshold) % WORD64 == cfg.modulo - cfg.missThreshold
  {
  }

  lemma NextExpected(cfg: GateConfig, m: Message, number: nat)
    requires ConfigOk(cfg) && Carries(cfg, m, number)
    ensures (m.sequence + 1) % WORD64 % cfg.modulo == (number + 1) % cfg.modulo
  {
    var n, a := cfg.modulo, m.sequence;
    var q := a / n - number / n;
    assert a == (a / n) * n + a % n && number == (number / n) * n + number % n;
    assert a + 1 == (number + 1) + q * n by {
      assert q * n == (a / n) * n - (number / n) * n;
    }
    ShiftedResidue(number + 1, q, n);
    WordResidue(a + 1, n);
  }

  /** One message: the verdicts are equal and the states still correspond. */
  lemma CheckRefines(cfg: GateConfig, g: Gate, ideal: Gate, m: Message, number: nat, now: int)
    requires ConfigOk(cfg) && Refines(cfg, g, ideal) && Carries(cfg, m, number)
    requires ProducerOf(ideal, m.strategy).seen ==> InWindow(cfg, ProducerOf(ideal, m.strategy).expected, number)
    ensures
      var (g', v) := Check(cfg, g, m, now);
      var (ideal', v') := IdealCheck(cfg, ideal, m, number, now);
      v == v' && Refines(cfg, g', ideal')
  {
    if g.enabled && !Absurd(cfg, m) && now - m.generatedAt <= cfg.maxAge {
      UnseenReduced(cfg);
      VerdictRefines(cfg, ProducerOf(g, m.strategy), ProducerOf(ideal, m.strategy), m, number);
      NextExpected(cfg, m, number);
    }
    hide Absurd, SequenceVerdict, IdealVerdict, Carries, InWindow;
  }

  lemma UnseenReduced(cfg: GateConfig)
    requires cfg.modulo > 0
    ensures UNSEEN == UNSEEN.(expected := UNSEEN.expected % cfg.modulo)
  {
    SmallResidue(0, cfg.modulo);
  }

  /** The window cannot be widened: one number further on either side gets the wrong verdict. */
  lemma WindowIsTight(cfg: GateConfig, p: Producer, ideal: Producer, m: Message, number: nat)
    requires ConfigOk(cfg) && Carries(cfg, m, number) && ideal.seen
    requires p == ideal.(expected := ideal.expected % cfg.modulo)
    requires number + cfg.missThreshold + 1 == ideal.expected ||
      number == ideal.expected + cfg.modulo - cfg.missThreshold
    ensures SequenceVerdict(cfg, p, m.sequence) != IdealVerdict(ideal, number)
  {
    Threshold(cfg);
    AheadIsDistance(cfg, m, number, ideal.expected);
    hide Ahead, Carries;
    var d := number - ideal.expected;
    if d + cfg.modulo == 0 {
      ShiftedResidue(0, -1, cfg.modulo);
      SmallResidue(0, cfg.modulo);
    } else if d == cfg.modulo {
      ShiftedResidue(0, 1, cfg.modulo);
      SmallResidue(0, cfg.modulo);
    } else {
      SmallResidue(d, cfg.modulo);
    }
  }

  /** A message that is not applied leaves every producer's sequence and heartbeat state alone. */
  lemma RejectedLeavesNoTrace(cfg: GateConfig, g: Gate, m: Message, now: int)
    requires cfg.modulo > 0
    ensures !Applied(Check(cfg, g, m, now).1) ==> Check(cfg, g, m, now).0 == g
    ensures forall id :: id != m.strategy ==> ProducerOf(Check(cfg, g, m, now).0, id) == ProducerOf(g, id)
  {
    hide SequenceVerdict, Absurd;
  }

  // ---- runs of messages from many producers ----

  datatype Arrival = Arrival(msg: Message, number: nat, now: int)

  /** `gates` is a run of the gate of the source, `ideals` the run of the ideal gate on the same
      arrivals; each number arrives within the window of what its producer is expected to send. */
  ghost predicate GateRun(cfg: GateConfig, gates: seq<Gate>, ideals: seq<Gate>, arrivals: seq<Arrival>) {
    && ConfigOk(cfg) && GateSteps(cfg, gates, arrivals) && |ideals| == |arrivals| + 1 && gates[0] == ideals[0]
    && (forall k :: 0 <= k < |arrivals| ==> Carries(cfg, arrivals[k].msg, arrivals[k].number))
    && (forall k :: 0 <= k < |arrivals| ==> Expected(cfg, ideals[k], arrivals[k]))
    && (forall k :: 0 <= k < |arrivals| ==>
          ideals[k + 1] == IdealCheck(cfg, ideals[k], arrivals[k].msg, arrivals[k].number, arrivals[k].now).0)
  }

  /** The gate of the source alone, on any arrivals. */
  ghost predicate GateSteps(cfg: GateConfig, gates: seq<Gate>, arrivals: seq<Arrival>) {
    && cfg.modulo > 0 && |gates| == |arrivals| + 1 && gates[0].producers == map[]
    && (forall k :: 0 <= k < |arrivals| ==> gates[k + 1] == Check(cfg, gates[k], arrivals[k].msg, arrivals[k].now).0)
  }

  ghost predicate Expected(cfg: GateConfig, ideal: Gate, a: Arrival) {
    ProducerOf(ideal, a.msg.strategy).seen ==> InWindow(cfg, ProducerOf(ideal, a.msg.strategy).expected, a.number)
  }

  ghost function VerdictAt(cfg: GateConfig, gates: seq<Gate>, arrivals: seq<Arrival>, k: nat): Verdict
    requires cfg.modulo > 0 && k < |arrivals| && k < |gates|
  {
    Check(cfg, gates[k], arrivals[k].msg, arrivals[k].now).1
  }

  /** At every arrival the modular gate gives the verdict of the gate that never wraps. */
  lemma {:induction false} GateRefinesCounter(cfg: GateConfig, gates: seq<Gate>, ideals: seq<Gate>,
      arrivals: seq<Arrival>, n: nat)
    requires GateRun(cfg, gates, ideals, arrivals) && n < |gates|
    ensures Refines(cfg, gates[n], ideals[n])
    ensures n < |arrivals| ==>
      VerdictAt(cfg, gates, arrivals, n) == IdealCheck(cfg, ideals[n], arrivals[n].msg, arrivals[n].number,
        arrivals[n].now).1
  {
    hide Check, IdealCheck, Carries, Refines;
    if n == 0 {
      EmptyRefines(cfg, gates[0]);
    } else {
      var k := n - 1;
      GateRefinesCounter(cfg, gates, ideals, arrivals, k);
      CheckRefines(cfg, gates[k], ideals[k], arrivals[k].msg, arrivals[k].number, arrivals[k].now);
      assert gates[k + 1] == Check(cfg, gates[k], arrivals[k].msg, arrivals[k].now).0;
      assert ideals[k + 1] == IdealCheck(cfg, ideals[k], arrivals[k].msg, arrivals[k].number, arrivals[k].now).0;
    }
    if n < |arrivals| {
      CheckRefines(cfg, gates[n], ideals[n], arrivals[n].msg, arrivals[n].number, arrivals[n].now);
    }
  }

  lemma EmptyRefines(cfg: GateConfig, g: Gate)
    requires cfg.modulo > 0 && g.producers == map[]
    ensures Refines(cfg, g, g)
  {
  }

  lemma IdealStep(cfg: GateConfig, g: Gate, a: Arrival, p: nat)
    ensures
      var (g', v) := IdealCheck(cfg, g, a.msg, a.number, a.now);
      var before, after := ProducerOf(g, p), ProducerOf(g', p);
      && (a.msg.strategy == p && Applied(v) ==>
            after == Producer(a.number + 1, true, a.now) && (before.seen ==> a.number >= before.expected))
      && (a.msg.strategy != p || !Applied(v) ==> after == before)
  {
    hide Absurd;
  }

  lemma {:induction false} ExpectedGrows(
    cfg: GateConfig, gates: seq<Gate>, ideals: seq<Gate>, arrivals: seq<Arrival>, i: nat, j: nat, p: nat)
    requires GateRun(cfg, gates, ideals, arrivals) && i <= j < |ideals|
    ensures ProducerOf(ideals[i], p).seen ==>
      ProducerOf(ideals[j], p).seen && ProducerOf(ideals[i], p).expected <= ProducerOf(ideals[j], p).expected
    decreases j
  {
    hide Check, IdealCheck, Carries;
    if i < j {
      var k := j - 1;
      ExpectedGrows(cfg, gates, ideals, arrivals, i, k, p);
      IdealStep(cfg, ideals[k], arrivals[k], p);
      assert ideals[k + 1] == IdealCheck(cfg, ideals[k], arrivals[k].msg, arrivals[k].number, arrivals[k].now).0;
    }
  }

  /** The true numbers a producer gets applied are strictly increasing: each is applied at most once,
      although sequence numbers on the wire wrap. */
  lemma AppliedNumbersIncrease(
    cfg: GateConfig, gates: seq<Gate>, ideals: seq<Gate>, arrivals: seq<Arrival>, i: nat, j: nat)
    requires GateRun(cfg, gates, ideals, arrivals) && i < j < |arrivals|
    requires arrivals[i].msg.strategy == arrivals[j].msg.strategy
    requires Applied(VerdictAt(cfg, gates, arrivals, i)) && Applied(VerdictAt(cfg, gates, arrivals, j))
    ensures arrivals[i].number < arrivals[j].number
  {
    var p := arrivals[i].msg.strategy;
    GateRefinesCounter(cfg, gates, ideals, arrivals, i);
    GateRefinesCounter(cfg, gates, ideals, arrivals, j);
    hide Check, IdealCheck, Carries, Refines;
    IdealStep(cfg, ideals[i], arrivals[i], p);
    assert ideals[i + 1] == IdealCheck(cfg, ideals[i], arrivals[i].msg, arrivals[i].number, arrivals[i].now).0;
    ExpectedGrows(cfg, gates, ideals, arrivals, i + 1, j, p);
    IdealStep(cfg, ideals[j], arrivals[j], p);
  }

  /** The last arrival before n that was applied for producer p. */
  ghost predicate LastApplied(cfg: GateConfig, gates: seq<Gate>, arrivals: seq<Arrival>, p: nat, n: nat, k: nat)
    requires cfg.modulo > 0 && n <= |arrivals| && n < |gates|
  {
    && k < n && arrivals[k].msg.strategy == p && Applied(VerdictAt(cfg, gates, arrivals, k))
    && forall j :: k < j < n && arrivals[j].msg.strategy == p ==> !Applied(VerdictAt(cfg, gates, arrivals, j))
  }

  lemma CheckStep(cfg: GateConfig, g: Gate, a: Arrival, p: nat)
    requires cfg.modulo > 0
    ensures
      var (g', v) := Check(cfg, g, a.msg, a.now);
      && (a.msg.strategy == p && Applied(v) ==>
            p in g'.producers && g'.producers[p].seen && g'.producers[p].lastAccept == a.now)
      && (a.msg.strategy != p || !Applied(v) ==> (
            (p in g'.producers <==> p in g.producers) && (p in g.producers ==> g'.producers[p] == g.producers[p])))
  {
    hide Absurd, SequenceVerdict;
  }

  /** A producer is alive exactly when a message of its own was applied, the last such no longer ago
      than the heartbeat deadline; refused messages do not keep it alive. */
  lemma {:induction false} AliveExactly(
    cfg: GateConfig, gates: seq<Gate>, arrivals: seq<Arrival>, p: nat, n: nat, now: int)
    requires GateSteps(cfg, gates, arrivals) && n < |gates|
    ensures HeartbeatAlive(cfg, gates[n], p, now) <==>
      exists k: nat ::
        LastApplied(cfg, gates, arrivals, p, n, k) && now - arrivals[k].now <= cfg.hbInterval * cfg.hbThreshold
  {
    SeenBy(cfg, gates, arrivals, p, n);
    if p in gates[n].producers {
      var k: nat :| LastApplied(cfg, gates, arrivals, p, n, k) && gates[n].producers[p].lastAccept == arrivals[k].now;
      forall j: nat | LastApplied(cfg, gates, arrivals, p, n, j) ensures j == k {
        OneLast(cfg, gates, arrivals, p, n, j, k);
      }
    }
  }

  lemma OneLast(cfg: GateConfig, gates: seq<Gate>, arrivals: seq<Arrival>, p: nat, n: nat, j: nat, k: nat)
    requires cfg.modulo > 0 && n <= |arrivals| && n < |gates|
    requires LastApplied(cfg, gates, arrivals, p, n, j) && LastApplied(cfg, gates, arrivals, p, n, k)
    ensures j == k
  {
  }

  lemma {:induction false} SeenBy(cfg: GateConfig, gates: seq<Gate>, arrivals: seq<Arrival>, p: nat, n: nat)
    requires GateSteps(cfg, gates, arrivals) && n < |gates|
    ensures p in gates[n].producers ==> (
      && gates[n].producers[p].seen
      && exists k: nat ::
           LastApplied(cfg, gates, arrivals, p, n, k) && gates[n].producers[p].lastAccept == arrivals[k].now)
    ensures p !in gates[n].producers ==> forall k: nat :: !LastApplied(cfg, gates, arrivals, p, n, k)
  {
    hide Check;
    if n > 0 {
      var m := n - 1;
      SeenBy(cfg, gates, arrivals, p, m);
      CheckStep(cfg, gates[m], arrivals[m], p);
      assert gates[m + 1] == Check(cfg, gates[m], arrivals[m].msg, arrivals[m].now).0;
      var applied := arrivals[m].msg.strategy == p && Applied(VerdictAt(cfg, gates, arrivals, m));
      if applied {
        assert LastApplied(cfg, gates, arrivals, p, n, m);
      } else {
        forall k: nat ensures LastApplied(cfg, gates, arrivals, p, n, k) <==>
          LastApplied(cfg, gates, arrivals, p, m, k) {
        }
      }
    }
  }

  /** The gate as an object. */
  class SignalGate {
    const cfg: GateConfig
    var tradingEnabled: bool
    var producers: map<nat, Producer>

    ghost function View(): Gate reads this {
      Gate(tradingEnabled, producers)
    }

    constructor (cfg: GateConfig)
      ensures this.cfg == cfg && View() == Gate(false, map[])
    {
      this.cfg := cfg;
      tradingEnabled, producers := false, map[];
    }

    method EnableTrading(on: bool)
      modifies this`tradingEnabled
      ensures View() == old(View()).(enabled := on)
    {
      tradingEnabled := on;
    }

    method CheckSignal(m: Message, now: int) returns (verdict: Verdict)
      requires cfg.modulo > 0
      modifies this`producers
      ensures (View(), verdict) == Check(cfg, old(View()), m, now)
    {
      if !tradingEnabled { return RejectDNT; }
      var i := 0;
      while i < |m.targets|
        invariant 0 <= i <= |m.targets|
        invariant forall k :: 0 <= k < i ==> Abs(m.targets[k].qty) <= cfg.maxAbsTarget
      {
        if Abs(m.targets[i].qty) > cfg.maxAbsTarget { return RejectAbsurd; }
        i := i + 1;
      }
      if now - m.generatedAt > cfg.maxAge { return RejectAge; }
      var p := if m.strategy in producers then producers[m.strategy] else UNSEEN;
      verdict := Accept;
      if p.seen {
        var delta := Ahead(cfg, m.sequence, p.expected);
        if delta == 0 {
          verdict := Accept;
        } else if delta >= (cfg.modulo - cfg.missThreshold) % WORD64 {
          return DuplicateDropped;
        } else {
          verdict := GapAcceptedLogged;
        }
      }
      producers := producers[m.strategy := Producer((m.sequence + 1) % WORD64 % cfg.modulo, true, now)];
    }

    method IsAlive(id: nat, now: int) returns (alive: bool)
      ensures alive == HeartbeatAlive(cfg, View(), id, now)
    {
      if id !in producers || !producers[id].seen { return false; }
      return now - producers[id].lastAccept <= cfg.hbInterval * cfg.hbThreshold;
    }
  }
}
