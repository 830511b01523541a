/** The per-venue circuit breaker: conditions with hysteresis, dwell times and probing. */
module VenueHealth {
  import opened Rings

  datatype HealthState = Healthy | Degraded | Down | Probing

  datatype TripReason = NoTrip | Connectivity | RejectionRate | AckLatency

  datatype HealthConfig = HealthConfig(
    heartbeatTolerance: int, rejectWindow: nat, rejectMinSamples: nat, rejectHigh: real, rejectLow: real,
    latencyWindow: nat, latencyHigh: int, latencyLow: int, degradeDwell: int, downDwell: int, probeRequired: int)

  /** One venue. `rejects` (1 reject, 0 success) and `latencies` are all samples ever pushed; only the
      windows of the latest ones are read. */
  datatype Venue = Venue(
    connected: bool, lastSeen: int, rejects: seq<int>, latencies: seq<int>, state: HealthState, reason: TripReason,
    degradedSince: int, goodSince: int, probeSuccess: int, trips: nat, unresolved: nat)

  datatype Conditions = Conditions(anyHigh: bool, allLow: bool, reason: TripReason)

  /** What happens to a venue, apart from the clock. */
  datatype HealthEvent =
    | OrderSent(at: int)
    | Acked(latency: int)
    | Rejected(falseCancelReject: bool)
    | FillSeen
    | TimedOut
    | Disconnected
    | Reconnected
    | Ticked

  function NewVenue(now: int): Venue {
    Venue(true, now, [], [], Healthy, NoTrip, 0, 0, 0, 0, 0)
  }

  function ConnectionBad(cfg: HealthConfig, v: Venue, now: int): bool {
    !v.connected || now - v.lastSeen > cfg.heartbeatTolerance
  }

  function IsReject(): int -> bool {
    (x: int) => x == 1
  }

  function RejectRate(cfg: HealthConfig, v: Venue): real {
    FractionOf(Window(v.rejects, cfg.rejectWindow), IsReject())
  }

  function EnoughSamples(cfg: HealthConfig, v: Venue): bool {
    |Window(v.rejects, cfg.rejectWindow)| >= cfg.rejectMinSamples
  }

  function SlowAck(cfg: HealthConfig, v: Venue): int {
    PercentileOf(Sorted(Window(v.latencies, cfg.latencyWindow)), 0.99)
  }

  function Assess(cfg: HealthConfig, v: Venue, now: int): Conditions {
    var connBad := ConnectionBad(cfg, v, now);
    var enough := EnoughSamples(cfg, v);
    var rejHigh, rejLow := enough && RejectRate(cfg, v) > cfg.rejectHigh, !enough || RejectRate(cfg, v) < cfg.rejectLow;
    var haveLat := |Window(v.latencies, cfg.latencyWindow)| > 0;
    var latHigh, latLow := haveLat && SlowAck(cfg, v) > cfg.latencyHigh, !haveLat || SlowAck(cfg, v) < cfg.latencyLow;
    Conditions(connBad || rejHigh || latHigh, !connBad && rejLow && latLow,
               if connBad then Connectivity else if rejHigh then RejectionRate else if latHigh then AckLatency
                 else NoTrip)
  }

  function Resolved(v: Venue): Venue {
    v.(state := Healthy, reason := NoTrip, unresolved := if v.unresolved > 0 then v.unresolved - 1 else 0)
  }

  function WentDown(v: Venue, reason: TripReason): Venue {
    v.(state := Down, reason := reason, goodSince := 0)
  }

  /** The transition for given conditions. */
  function Judge(cfg: HealthConfig, v: Venue, c: Conditions, now: int): Venue {
    match v.state
    case Healthy =>
      if !c.anyHigh then v
      else v.(state := Degraded, degradedSince := now, reason := c.reason, trips := v.trips + 1,
        unresolved := v.unresolved + 1)
    case Degraded =>
      if c.allLow then Resolved(v)
      else if c.anyHigh && now - v.degradedSince >= cfg.degradeDwell then WentDown(v, c.reason)
      else v
    case Down =>
      if !c.allLow then v.(goodSince := 0)
      else if v.goodSince == 0 then v.(goodSince := now)
      else if now - v.goodSince >= cfg.downDwell then v.(state := Probing, probeSuccess := 0)
      else v
    case Probing =>
      if c.anyHigh then WentDown(v, c.reason)
      else if v.probeSuccess >= cfg.probeRequired then Resolved(v)
      else v
  }

  function Evaluate(cfg: HealthConfig, v: Venue, now: int): Venue {
    Judge(cfg, v, Assess(cfg, v, now), now)
  }

  function FastAck(cfg: HealthConfig, v: Venue, e: HealthEvent): bool {
    v.state.Probing? && e.Acked? && e.latency <= cfg.latencyHigh
  }

  /** What an event records before the evaluation. */
  function Observe(cfg: HealthConfig, v: Venue, e: HealthEvent, now: int): Venue {
    match e
    case OrderSent(at) => v.(lastSeen := at)
    case Acked(latency) =>
      v.(lastSeen := now, latencies := v.latencies + [latency], rejects := v.rejects + [0],
         probeSuccess := if FastAck(cfg, v, e) then v.probeSuccess + 1 else v.probeSuccess)
    case Rejected(falseCancelReject) =>
      v.(lastSeen := now, rejects := if falseCancelReject then v.rejects else v.rejects + [1])
    case FillSeen => v.(lastSeen := now)
    case TimedOut => v.(rejects := v.rejects + [1])
    case Disconnected => v.(connected := false)
    case Reconnected => v.(connected := true, lastSeen := now)
    case Ticked => v
  }

  function Next(cfg: HealthConfig, v: Venue, e: HealthEvent, now: int): Venue {
    Evaluate(cfg, Observe(cfg, v, e, now), now)
  }

  // ---- one evaluation ----

  /** With each low threshold at or below its high one, "some condition is bad" and "all conditions
      are good" exclude each other. */
  lemma HighAndLowExclude(cfg: HealthConfig, v: Venue, now: int)
    requires cfg.rejectLow <= cfg.rejectHigh && cfg.latencyLow <= cfg.latencyHigh
    ensures !(Assess(cfg, v, now).anyHigh && Assess(cfg, v, now).allLow)
  {
  }

  // ---- whole traces ----

  ghost predicate Trace(cfg: HealthConfig, states: seq<Venue>, events: seq<HealthEvent>, times: seq<int>) {
    && |states| == |events| + 1 && |times| == |events|
    && (exists t :: states[0] == NewVenue(t))
    && (forall k :: 0 <= k < |events| ==> states[k + 1] == Next(cfg, states[k], events[k], times[k]))
  }

  /** Everything was good when step k was evaluated. */
  ghost predicate GoodAt(cfg: HealthConfig, states: seq<Venue>, events: seq<HealthEvent>, times: seq<int>, k: nat)
    requires k < |events| && |states| == |events| + 1 && |times| == |events|
  {
    Assess(cfg, Observe(cfg, states[k], events[k], times[k]), times[k]).allLow
  }

  ghost function Recoveries(states: seq<Venue>, n: nat): nat
    requires n < |states|
  {
    if n == 0 then 0
    else Recoveries(states, n - 1) + (if !states[n - 1].state.Healthy? && states[n].state.Healthy? then 1 else 0)
  }

  ghost predicate Counted(v: Venue, recoveries: nat) {
    v.unresolved == (if v.state.Healthy? then 0 else 1) && v.trips - v.unresolved == recoveries
  }

  lemma StepCounts(cfg: HealthConfig, v: Venue, e: HealthEvent, now: int, recoveries: nat)
    requires Counted(v, recoveries)
    ensures var v' := Next(cfg, v, e, now);
      Counted(v', recoveries + (if !v.state.Healthy? && v'.state.Healthy? then 1 else 0))
  {
    hide Assess;
  }

  /** One trip is open exactly while the venue is not healthy, and trips less open ones count the
      recoveries so far. */
  lemma {:induction false} TripsCountRecoveries(
    cfg: HealthConfig, states: seq<Venue>, events: seq<HealthEvent>, times: seq<int>, n: nat)
    requires Trace(cfg, states, events, times) && n < |states|
    ensures states[n].unresolved == (if states[n].state.Healthy? then 0 else 1)
    ensures states[n].trips - states[n].unresolved == Recoveries(states, n)
  {
    hide Next;
    if n > 0 {
      var k := n - 1;
      TripsCountRecoveries(cfg, states, events, times, k);
      assert states[k + 1] == Next(cfg, states[k], events[k], times[k]);
      StepCounts(cfg, states[k], events[k], times[k], Recoveries(states, k));
    }
  }

  /** A reason is on record exactly while a trip is open. */
  lemma {:induction false} ReasonWhileTripped(
    cfg: HealthConfig, states: seq<Venue>, events: seq<HealthEvent>, times: seq<int>, n: nat)
    requires Trace(cfg, states, events, times) && n < |states|
    ensures states[n].reason.NoTrip? <==> states[n].state.Healthy?
  {
    hide Next;
    if n > 0 {
      var k := n - 1;
      ReasonWhileTripped(cfg, states, events, times, k);
      assert states[k + 1] == Next(cfg, states[k], events[k], times[k]);
      StepReason(cfg, states[k], events[k], times[k]);
    }
  }

  lemma StepReason(cfg: HealthConfig, v: Venue, e: HealthEvent, now: int)
    requires v.reason.NoTrip? <==> v.state.Healthy?
    ensures Next(cfg, v, e, now).reason.NoTrip? <==> Next(cfg, v, e, now).state.Healthy?
  {
    ReasonNamesCause(cfg, Observe(cfg, v, e, now), now);
    hide Assess;
  }

  lemma ReasonNamesCause(cfg: HealthConfig, v: Venue, now: int)
    ensures Assess(cfg, v, now).anyHigh <==> !Assess(cfg, v, now).reason.NoTrip?
  {
  }

  // ---- entering Down ----

  /** The venue tripped in step j and has been degraded since. */
  ghost predicate Slump(states: seq<Venue>, j: nat, n: nat)
    requires n < |states|
  {
    j < n && states[j].state.Healthy? && forall i: nat :: j < i <= n ==> states[i].state.Degraded?
  }

  lemma StepDegraded(cfg: HealthConfig, v: Venue, e: HealthEvent, now: int)
    ensures
      var v', bad := Next(cfg, v, e, now), Assess(cfg, Observe(cfg, v, e, now), now).anyHigh;
      && (v'.state.Degraded? && !v.state.Degraded? ==> v.state.Healthy? && bad && v'.degradedSince == now)
      && (v'.state.Degraded? && v.state.Degraded? ==> v'.degradedSince == v.degradedSince)
      && (v.state.Degraded? && v'.state.Down? ==> bad && now - v.degradedSince >= cfg.degradeDwell)
      && (v'.state.Down? && !v.state.Down? ==> bad && (v.state.Degraded? || v.state.Probing?))
  {
    hide Assess;
  }

  lemma {:induction false} DegradedSinceMeans(
    cfg: HealthConfig, states: seq<Venue>, events: seq<HealthEvent>, times: seq<int>, n: nat)
    requires Trace(cfg, states, events, times) && n < |states| && states[n].state.Degraded?
    ensures exists j: nat :: Slump(states, j, n) && times[j] == states[n].degradedSince
  {
    hide Next, Assess, Observe;
    assert n > 0;
    var k := n - 1;
    assert states[k + 1] == Next(cfg, states[k], events[k], times[k]);
    StepDegraded(cfg, states[k], events[k], times[k]);
    if !states[k].state.Degraded? {
      assert Slump(states, k, n);
    } else {
      DegradedSinceMeans(cfg, states, events, times, k);
      var j: nat :| Slump(states, j, k) && times[j] == states[k].degradedSince;
      assert Slump(states, j, n);
    }
  }

  /** A venue goes down only while something is bad: from Probing at once, otherwise only after being
      degraded without a break for at least the dwell time since its trip. */
  lemma GoingDownNeedsDwell(cfg: HealthConfig, states: seq<Venue>, events: seq<HealthEvent>, times: seq<int>, k: nat)
    requires Trace(cfg, states, events, times) && k < |events| && !states[k].state.Down? && states[k + 1].state.Down?
    ensures Assess(cfg, Observe(cfg, states[k], events[k], times[k]), times[k]).anyHigh
    ensures !states[k].state.Probing? ==>
      exists j: nat :: Slump(states, j, k) && times[k] - times[j] >= cfg.degradeDwell
  {
    hide Next, Assess, Observe;
    assert states[k + 1] == Next(cfg, states[k], events[k], times[k]);
    StepDegraded(cfg, states[k], events[k], times[k]);
    if !states[k].state.Probing? {
      DegradedSinceMeans(cfg, states, events, times, k);
    }
  }

  // ---- leaving Down ----

  /** From step j to step n - 1 the venue was down and everything was good. */
  ghost predicate GoodStretch(
    cfg: HealthConfig, states: seq<Venue>, events: seq<HealthEvent>, times: seq<int>, j: nat, n: nat)
    requires |states| == |events| + 1 && |times| == |events| && n <= |events|
  {
    j < n && forall i: nat :: j <= i < n ==> states[i].state.Down? && GoodAt(cfg, states, events, times, i)
  }

  lemma StepFromDown(cfg: HealthConfig, v: Venue, e: HealthEvent, now: int)
    requires v.state.Down?
    ensures
      var v', good := Next(cfg, v, e, now), Assess(cfg, Observe(cfg, v, e, now), now).allLow;
      && (v'.state.Down? || v'.state.Probing?)
      && (v'.state.Probing? ==> good && v.goodSince != 0 && now - v.goodSince >= cfg.downDwell && v'.probeSuccess == 0)
      && (v'.state.Down? && v'.goodSince != 0 ==> good && v'.goodSince == if v.goodSince == 0 then now else v.goodSince)
  {
    hide Assess;
  }

  lemma StepToDown(cfg: HealthConfig, v: Venue, e: HealthEvent, now: int)
    requires !v.state.Down?
    ensures Next(cfg, v, e, now).state.Down? ==> Next(cfg, v, e, now).goodSince == 0
  {
    hide Assess;
  }

  /** While down, goodSince is 0 or the time of the step that began the good stretch still going on. */
  lemma {:induction false} GoodSinceMeans(
    cfg: HealthConfig, states: seq<Venue>, events: seq<HealthEvent>, times: seq<int>, n: nat)
    requires Trace(cfg, states, events, times) && n < |states| && states[n].state.Down? && states[n].goodSince != 0
    ensures exists j: nat :: GoodStretch(cfg, states, events, times, j, n) && times[j] == states[n].goodSince
  {
    hide Next, Assess, Observe;
    assert n > 0;
    var k := n - 1;
    assert states[k + 1] == Next(cfg, states[k], events[k], times[k]);
    if !states[k].state.Down? {
      StepToDown(cfg, states[k], events[k], times[k]);
    } else {
      StepFromDown(cfg, states[k], events[k], times[k]);
      if states[k].goodSince == 0 {
        assert GoodStretch(cfg, states, events, times, k, n);
      } else {
        GoodSinceMeans(cfg, states, events, times, k);
        var j: nat :| GoodStretch(cfg, states, events, times, j, k) && times[j] == states[k].goodSince;
        assert GoodStretch(cfg, states, events, times, j, n);
      }
    }
  }

  /** A venue leaves Down only for Probing, and only after everything was good at every evaluation of
      an unbroken stretch of at least the dwell time. */
  lemma DownNeedsDwell(cfg: HealthConfig, states: seq<Venue>, events: seq<HealthEvent>, times: seq<int>, k: nat)
    requires Trace(cfg, states, events, times) && k < |events| && states[k].state.Down? && !states[k + 1].state.Down?
    ensures states[k + 1].state.Probing?
    ensures exists j: nat ::
      GoodStretch(cfg, states, events, times, j, k + 1) && j < k && times[k] - times[j] >= cfg.downDwell
  {
    hide Next, Assess, Observe;
    assert states[k + 1] == Next(cfg, states[k], events[k], times[k]);
    StepFromDown(cfg, states[k], events[k], times[k]);
    GoodSinceMeans(cfg, states, events, times, k);
    var j: nat :| GoodStretch(cfg, states, events, times, j, k) && times[j] == states[k].goodSince;
    assert GoodStretch(cfg, states, events, times, j, k + 1);
  }

  // ---- leaving Probing ----

  /** How many of the steps from a to b - 1 were fast acks while probing. */
  ghost function FastAcks(cfg: HealthConfig, states: seq<Venue>, events: seq<HealthEvent>, a: nat, b: nat): nat
    requires |states| == |events| + 1 && b <= |events|
  {
    if b <= a then 0
    else FastAcks(cfg, states, events, a, b - 1) + (if FastAck(cfg, states[b - 1], events[b - 1]) then 1 else 0)
  }

  /** The venue went from Down to Probing in step j and has been probing since. */
  ghost predicate Episode(states: seq<Venue>, j: nat, n: nat)
    requires n < |states|
  {
    j < n && states[j].state.Down? && forall i: nat :: j < i <= n ==> states[i].state.Probing?
  }

  lemma StepProbing(cfg: HealthConfig, v: Venue, e: HealthEvent, now: int)
    requires v.state.Probing?
    ensures
      var v', done := Next(cfg, v, e, now), v.probeSuccess + (if FastAck(cfg, v, e) then 1 else 0);
      && (v'.state.Probing? ==> v'.probeSuccess == done)
      && (v'.state.Healthy? ==> done >= cfg.probeRequired)
      && !v'.state.Degraded?
  {
    hide Assess;
  }

  lemma StepToProbing(cfg: HealthConfig, v: Venue, e: HealthEvent, now: int)
    requires !v.state.Probing? && Next(cfg, v, e, now).state.Probing?
    ensures v.state.Down? && Next(cfg, v, e, now).probeSuccess == 0
  {
    hide Assess;
  }

  lemma {:induction false} ProbesCounted(
    cfg: HealthConfig, states: seq<Venue>, events: seq<HealthEvent>, times: seq<int>, n: nat)
    requires Trace(cfg, states, events, times) && n < |states| && states[n].state.Probing?
    ensures exists j: nat :: Episode(states, j, n) && states[n].probeSuccess == FastAcks(cfg, states, events, j + 1, n)
  {
    hide Next, FastAck;
    assert n > 0;
    var k := n - 1;
    assert states[k + 1] == Next(cfg, states[k], events[k], times[k]);
    if !states[k].state.Probing? {
      StepToProbing(cfg, states[k], events[k], times[k]);
      assert Episode(states, k, n) && FastAcks(cfg, states, events, k + 1, n) == 0;
    } else {
      ProbesCounted(cfg, states, events, times, k);
      var j: nat :| Episode(states, j, k) && states[k].probeSuccess == FastAcks(cfg, states, events, j + 1, k);
      StepProbing(cfg, states[k], events[k], times[k]);
      assert Episode(states, j, n);
    }
  }

  /** A full recovery from Down: an episode of probing with enough fast acks ends in Healthy. */
  ghost predicate ProvedHealthy(cfg: HealthConfig, states: seq<Venue>, events: seq<HealthEvent>, j: nat, m: nat)
    requires |states| == |events| + 1 && m < |events|
  {
    Episode(states, j, m) && states[m + 1].state.Healthy? &&
      FastAcks(cfg, states, events, j + 1, m + 1) >= cfg.probeRequired
  }

  /** Probing ends in Healthy only with the required number of fast acks within that one episode. */
  lemma HealthyNeedsProbes(cfg: HealthConfig, states: seq<Venue>, events: seq<HealthEvent>, times: seq<int>, m: nat)
    requires Trace(cfg, states, events, times) && m < |events| && states[m].state.Probing? &&
      states[m + 1].state.Healthy?
    ensures exists j: nat :: ProvedHealthy(cfg, states, events, j, m)
  {
    hide Next, FastAck;
    assert states[m + 1] == Next(cfg, states[m], events[m], times[m]);
    ProbesCounted(cfg, states, events, times, m);
    var j: nat :| Episode(states, j, m) && states[m].probeSuccess == FastAcks(cfg, states, events, j + 1, m);
    StepProbing(cfg, states[m], events[m], times[m]);
    assert FastAcks(cfg, states, events, j + 1, m + 1)
        == FastAcks(cfg, states, events, j + 1, m) + (if FastAck(cfg, states[m], events[m]) then 1 else 0);
    assert ProvedHealthy(cfg, states, events, j, m);
  }

  lemma StepToGood(cfg: HealthConfig, v: Venue, e: HealthEvent, now: int)
    requires v.state.Down? || v.state.Probing?
    ensures Next(cfg, v, e, now).state.Healthy? ==> v.state.Probing?
    ensures !Next(cfg, v, e, now).state.Degraded?
  {
    hide Assess;
  }

  /** A venue that was down is healthy again, or degraded, only after a complete episode of probing
      with the required fast acks in between. */
  lemma {:induction false} DownToHealthyIsProved(
    cfg: HealthConfig, states: seq<Venue>, events: seq<HealthEvent>, times: seq<int>, i: nat, k: nat)
    requires Trace(cfg, states, events, times) && i < k < |states|
    requires states[i].state.Down? && (states[k].state.Healthy? || states[k].state.Degraded?)
    ensures exists j: nat, m: nat :: i <= j < m < k && ProvedHealthy(cfg, states, events, j, m)
    decreases k
  {
    hide Next, FastAck, FastAcks;
    var m := k - 1;
    assert states[m + 1] == Next(cfg, states[m], events[m], times[m]);
    if states[m].state.Healthy? || states[m].state.Degraded? {
      DownToHealthyIsProved(cfg, states, events, times, i, m);
      var a: nat, b: nat :| i <= a < b < m && ProvedHealthy(cfg, states, events, a, b);
      assert i <= a < b < k && ProvedHealthy(cfg, states, events, a, b);
    } else {
      StepToGood(cfg, states[m], events[m], times[m]);
      HealthyNeedsProbes(cfg, states, events, times, m);
      var j: nat :| ProvedHealthy(cfg, states, events, j, m);
      assert i <= j;
    }
  }

  /** One venue's breaker as an object, with its rings of samples. */
  class Breaker {
    const cfg: HealthConfig
    const rejects: RingBuffer
    const latencies: RingBuffer
    var connected: bool
    var lastSeen: int
    var state: HealthState
    var reason: TripReason
    var degradedSince: int
    var goodSince: int
    var probeSuccess: int
    var trips: nat
    var unresolved: nat

    ghost predicate Valid() reads this, rejects, latencies {
      && rejects != latencies && rejects.Valid() && latencies.Valid()
      && rejects.capacity == cfg.rejectWindow && latencies.capacity == cfg.latencyWindow
    }

    ghost function View(): Venue reads this, rejects, latencies {
      Venue(connected, lastSeen, rejects.history, latencies.history, state, reason,
            degradedSince, goodSince, probeSuccess, trips, unresolved)
    }

    constructor (cfg: HealthConfig, now: int)
      requires cfg.rejectWindow > 0 && cfg.latencyWindow > 0
      ensures this.cfg == cfg && Valid() && View() == NewVenue(now) && fresh(rejects) && fresh(latencies)
    {
      this.cfg := cfg;
      rejects := new RingBuffer(cfg.rejectWindow);
      latencies := new RingBuffer(cfg.latencyWindow);
      connected, lastSeen, state, reason := true, now, Healthy, NoTrip;
      degradedSince, goodSince, probeSuccess, trips, unresolved := 0, 0, 0, 0, 0;
    }

    method AssessNow(now: int) returns (c: Conditions)
      requires Valid()
      ensures c == Assess(cfg, View(), now)
    {
      hide PercentileOf, Sorted, FractionOf, Window, RingBuffer.Valid;
      var connBad := !connected || now - lastSeen > cfg.heartbeatTolerance;
      var samples := rejects.Size();
      var rej := rejects.Fraction(IsReject());
      var enough := samples >= cfg.rejectMinSamples;
      var rejHigh, rejLow := enough && rej > cfg.rejectHigh, !enough || rej < cfg.rejectLow;
      var acks := latencies.Size();
      var p99 := latencies.Percentile(0.99);
      var latHigh, latLow := acks > 0 && p99 > cfg.latencyHigh, acks == 0 || p99 < cfg.latencyLow;
      var why := NoTrip;
      if connBad {
        why := Connectivity;
      } else if rejHigh {
        why := RejectionRate;
      } else if latHigh {
        why := AckLatency;
      }
      return Conditions(connBad || rejHigh || latHigh, !connBad && rejLow && latLow, why);
    }

    method Reevaluate(now: int)
      requires Valid()
      modifies this
      ensures Valid() && View() == Evaluate(cfg, old(View()), now)
    {
      hide Assess, RingBuffer.Valid;
      var c := AssessNow(now);
      match state {
        case Healthy =>
          if c.anyHigh {
            state, degradedSince, reason := Degraded, now, c.reason;
            trips, unresolved := trips + 1, unresolved + 1;
          }
        case Degraded =>
          if c.allLow {
            Resolve();
          } else if c.anyHigh && now - degradedSince >= cfg.degradeDwell {
            state, reason, goodSince := Down, c.reason, 0;
          }
        case Down =>
          if c.allLow {
            if goodSince == 0 {
              goodSince := now;
            } else if now - goodSince >= cfg.downDwell {
              state, probeSuccess := Probing, 0;
            }
          } else {
            goodSince := 0;
          }
        case Probing =>
          if c.anyHigh {
            state, reason, goodSince := Down, c.reason, 0;
          } else if probeSuccess >= cfg.probeRequired {
            Resolve();
          }
      }
    }

    method Resolve()
      requires Valid()
      modifies this
      ensures Valid() && View() == Resolved(old(View()))
    {
      state, reason := Healthy, NoTrip;
      if unresolved > 0 {
        unresolved := unresolved - 1;
      }
    }

    method OnOrderSent(at: int, now: int)
      requires Valid()
      modifies this
      ensures Valid() && View() == Next(cfg, old(View()), OrderSent(at), now)
    {
      hide Evaluate, RingBuffer.Valid;
      lastSeen := at;
      Reevaluate(now);
    }

    method OnAck(latency: int, now: int)
      requires Valid()
      modifies this, rejects, latencies
      ensures Valid() && View() == Next(cfg, old(View()), Acked(latency), now)
    {
      hide Evaluate, RingBuffer.Valid;
      lastSeen := now;
      latencies.Push(latency);
      rejects.Push(0);
      if state.Probing? && latency <= cfg.latencyHigh {
        probeSuccess := probeSuccess + 1;
      }
      Reevaluate(now);
    }

    /** A false cancel-reject comes from the race of a cancel with a fill and is not counted. */
    method OnReject(falseCancelReject: bool, now: int)
      requires Valid()
      modifies this, rejects
      ensures Valid() && View() == Next(cfg, old(View()), Rejected(falseCancelReject), now)
    {
      hide Evaluate, RingBuffer.Valid;
      lastSeen := now;
      if !falseCancelReject {
        rejects.Push(1);
      }
      Reevaluate(now);
    }

    method OnFill(now: int)
      requires Valid()
      modifies this
      ensures Valid() && View() == Next(cfg, old(View()), FillSeen, now)
    {
      hide Evaluate, RingBuffer.Valid;
      lastSeen := now;
      Reevaluate(now);
    }

    method OnTimeout(now: int)
      requires Valid()
      modifies this, rejects
      ensures Valid() && View() == Next(cfg, old(View()), TimedOut, now)
    {
      hide Evaluate, RingBuffer.Valid;
      rejects.Push(1);
      Reevaluate(now);
    }

    method OnDisconnect(now: int)
      requires Valid()
      modifies this
      ensures Valid() && View() == Next(cfg, old(View()), Disconnected, now)
    {
      hide Evaluate, RingBuffer.Valid;
      connected := false;
      Reevaluate(now);
    }

    method OnReconnect(now: int)
      requires Valid()
      modifies this
      ensures Valid() && View() == Next(cfg, old(View()), Reconnected, now)
    {
      hide Evaluate, RingBuffer.Valid;
      connected, lastSeen := true, now;
      Reevaluate(now);
    }
  }
}
