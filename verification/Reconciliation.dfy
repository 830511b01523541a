/** Periodic reconciliation: act on drift only when it persists, and stop when it is too large. */
module Reconciliation {
  import opened Orders
  import opened OrderManagerSpec
  import opened OrderManagerInvariants
  import opened OrderManagerKeeps
  import opened OrderManagerRuns
  import opened OrderManagement
  import opened SimExchangeSpec
  import opened Coupling
  import opened CouplingDelivery
  import opened CouplingRequests
  import opened CouplingSteps
  import opened CouplingRuns
  import opened AlgoChildren
  import opened ExecutionAlgoSpec
  import opened TwapSafety
  import opened SortedIds
  import opened Sums

  datatype DriftAction = InSync | PendingConfirm | AutoHealed | Halted

  datatype DriftRecord = DriftRecord(inst: nat, exchange: int, oms: int, drift: int, action: DriftAction, at: int)

  datatype ReconConfig = ReconConfig(threshold: int, healBand: int, persistCycles: int)

  /** `persist` counts, per instrument, the drifts seen in a row. */
  datatype Recon = Recon(halted: bool, corrective: nat, halts: nat, persist: map<nat, nat>)

  const FRESH := Recon(false, 0, 0, map[])

  function PersistOf(r: Recon, inst: nat): nat {
    if inst in r.persist then r.persist[inst] else 0
  }

  function QtyAtKey(m: map<nat, int>, inst: nat): int {
    if inst in m then m[inst] else 0
  }

  function ActionFor(cfg: ReconConfig, seen: nat, drift: int): DriftAction {
    if Abs(drift) <= cfg.threshold then InSync
    else if seen + 1 < cfg.persistCycles then PendingConfirm
    else if Abs(drift) <= cfg.healBand then AutoHealed
    else Halted
  }

  /** One instrument of a cycle. */
  function ReconOne(cfg: ReconConfig, r: Recon, inst: nat, exchange: int, oms: int, at: int): (Recon, DriftRecord) {
    var action := ActionFor(cfg, PersistOf(r, inst), exchange - oms);
    var r' := r.(persist := r.persist[inst := if action.PendingConfirm? then PersistOf(r, inst) + 1 else 0],
                 corrective := if action.AutoHealed? then r.corrective + 1 else r.corrective,
                 halts := if action.Halted? then r.halts + 1 else r.halts,
                 halted := action.Halted?);
    (r', DriftRecord(inst, exchange, oms, exchange - oms, action, at))
  }

  /** A cycle over `insts` in order; a halt ends it, and while halted there is no cycle at all. */
  function ReconAll(
    cfg: ReconConfig, r: Recon, insts: seq<nat>, exPos: map<nat, int>, omsPos: map<nat, int>, at: int)
    : (Recon, seq<DriftRecord>)
  {
    if |insts| == 0 then (r, [])
    else
      var inst := insts[|insts| - 1];
      var before := ReconAll(cfg, r, insts[..|insts| - 1], exPos, omsPos, at);
      if before.0.halted then before
      else
        var here := ReconOne(cfg, before.0, inst, QtyAtKey(exPos, inst), QtyAtKey(omsPos, inst), at);
        (here.0, before.1 + [here.1])
  }

  /** The corrective order of an auto-healed record. */
  function Corrective(rec: DriftRecord, mid: int): OrderRequest {
    OrderRequest(rec.inst, if rec.drift > 0 then Buy else Sell, Abs(rec.drift), if mid <= 0 then 1 else mid, 0, 0, true)
  }

  // ---- persistence ----

  /** How many records at the end of a history wait for confirmation. */
  ghost function Trailing(h: seq<DriftRecord>): nat {
    if |h| == 0 || !h[|h| - 1].action.PendingConfirm? then 0 else 1 + Trailing(h[..|h| - 1])
  }

  ghost function LogOf(log: seq<DriftRecord>, inst: nat): seq<DriftRecord> {
    if |log| == 0 then []
    else
      var rest := LogOf(log[..|log| - 1], inst);
      if log[|log| - 1].inst == inst then rest + [log[|log| - 1]] else rest
  }

  /** The number of drifts in a row that is acted upon. */
  function Patience(cfg: ReconConfig): int {
    if cfg.persistCycles < 1 then 1 else cfg.persistCycles
  }

  ghost predicate Acts(rec: DriftRecord) {
    rec.action.AutoHealed? || rec.action.Halted?
  }

  /** Record t of one instrument's history has the action its drift and its streak call for. */
  ghost predicate Paced(cfg: ReconConfig, h: seq<DriftRecord>, t: nat)
    requires t < |h|
  {
    var streak := Trailing(h[..t]) + 1;
    && (h[t].action.InSync? <==> Abs(h[t].drift) <= cfg.threshold)
    && (h[t].action.PendingConfirm? ==> streak < Patience(cfg))
    && (Acts(h[t]) ==> streak == Patience(cfg))
    && (h[t].action.AutoHealed? ==> Abs(h[t].drift) <= cfg.healBand)
    && (h[t].action.Halted? ==> Abs(h[t].drift) > cfg.healBand)
  }

  ghost predicate AllPaced(cfg: ReconConfig, h: seq<DriftRecord>) {
    forall t: nat :: t < |h| ==> Paced(cfg, h, t)
  }

  /** The counters of the reconciler are the streaks at the end of each instrument's history. */
  ghost predicate Counts(cfg: ReconConfig, r: Recon, log: seq<DriftRecord>) {
    forall inst: nat :: AllPaced(cfg, LogOf(log, inst))
      && PersistOf(r, inst) == Trailing(LogOf(log, inst)) && PersistOf(r, inst) < Patience(cfg)
  }

  lemma LogOfNext(log: seq<DriftRecord>, rec: DriftRecord, inst: nat)
    ensures LogOf(log + [rec], inst) == if rec.inst == inst then LogOf(log, inst) + [rec] else LogOf(log, inst)
  {
    assert (log + [rec])[..|log|] == log;
  }

  lemma PacedNext(cfg: ReconConfig, h: seq<DriftRecord>, rec: DriftRecord)
    requires AllPaced(cfg, h) && Trailing(h) < Patience(cfg)
    requires rec.action == ActionFor(cfg, Trailing(h), rec.drift)
    ensures AllPaced(cfg, h + [rec])
    ensures Trailing(h + [rec]) == (if rec.action.PendingConfirm? then Trailing(h) + 1 else 0) < Patience(cfg)
  {
    var g := h + [rec];
    assert g[..|h|] == h;
    forall t: nat | t < |g| ensures Paced(cfg, g, t) {
      if t < |h| {
        assert Paced(cfg, h, t);
        assert g[..t] == h[..t];
      }
    }
  }

  lemma OneCounts(cfg: ReconConfig, r: Recon, log: seq<DriftRecord>, inst: nat, exchange: int, oms: int, at: int)
    requires Counts(cfg, r, log)
    ensures var (r', rec) := ReconOne(cfg, r, inst, exchange, oms, at); Counts(cfg, r', log + [rec])
  {
    var (r', rec) := ReconOne(cfg, r, inst, exchange, oms, at);
    hide AllPaced, Trailing, ActionFor, LogOf;
    forall other: nat
      ensures AllPaced(cfg, LogOf(log + [rec], other))
      ensures PersistOf(r', other) == Trailing(LogOf(log + [rec], other)) < Patience(cfg)
    {
      LogOfNext(log, rec, other);
      assert PersistOf(r, other) == Trailing(LogOf(log, other));
      if other == inst {
        PacedNext(cfg, LogOf(log, inst), rec);
      }
    }
  }

  lemma {:induction false} CycleCounts(
    cfg: ReconConfig, r: Recon, log: seq<DriftRecord>, insts: seq<nat>, exPos: map<nat, int>, omsPos: map<nat, int>,
      at: int)
    requires Counts(cfg, r, log)
    ensures var (r', out) := ReconAll(cfg, r, insts, exPos, omsPos, at); Counts(cfg, r', log + out)
  {
    hide Counts, ReconOne;
    if |insts| == 0 {
      assert log + [] == log;
    } else {
      var n := |insts| - 1;
      CycleCounts(cfg, r, log, insts[..n], exPos, omsPos, at);
      var (r1, out1) := ReconAll(cfg, r, insts[..n], exPos, omsPos, at);
      if !r1.halted {
        var inst := insts[n];
        OneCounts(cfg, r1, log + out1, inst, QtyAtKey(exPos, inst), QtyAtKey(omsPos, inst), at);
        var here := ReconOne(cfg, r1, inst, QtyAtKey(exPos, inst), QtyAtKey(omsPos, inst), at);
        assert log + (out1 + [here.1]) == log + out1 + [here.1];
      }
    }
  }

  // ---- runs ----

  datatype ReconOp =
    | CycleOp(insts: seq<nat>, exPos: map<nat, int>, omsPos: map<nat, int>, at: int)
    | RearmOp

  ghost function ReconApply(cfg: ReconConfig, r: Recon, op: ReconOp): (Recon, seq<DriftRecord>) {
    match op
    case CycleOp(insts, exPos, omsPos, at) => if r.halted then (r, []) else ReconAll(cfg, r, insts, exPos, omsPos, at)
    case RearmOp => (r.(halted := false), [])
  }

  ghost predicate ReconRun(cfg: ReconConfig, states: seq<Recon>, ops: seq<ReconOp>) {
    && |states| == |ops| + 1 && states[0] == FRESH
    && forall k :: 0 <= k < |ops| ==> states[k + 1] == ReconApply(cfg, states[k], ops[k]).0
  }

  /** Everything recorded by the first n operations. */
  ghost function LogUpTo(cfg: ReconConfig, states: seq<Recon>, ops: seq<ReconOp>, n: nat): seq<DriftRecord>
    requires |states| == |ops| + 1 && n <= |ops|
  {
    if n == 0 then [] else LogUpTo(cfg, states, ops, n - 1) + ReconApply(cfg, states[n - 1], ops[n - 1]).1
  }

  lemma RearmCounts(cfg: ReconConfig, r: Recon, r': Recon, log: seq<DriftRecord>)
    requires Counts(cfg, r, log) && r'.persist == r.persist
    ensures Counts(cfg, r', log + [])
  {
    hide AllPaced, Trailing, LogOf;
    assert log + [] == log;
    forall inst: nat ensures PersistOf(r', inst) == PersistOf(r, inst) {
    }
  }

  /** The reconciler acts only on drift that persists: in every run, each corrective order and each
      halt closes a streak of exactly the required number of drifts of its instrument, with no record
      in sync and none acted upon among them. */
  lemma {:induction false} ActsOnlyOnPersistence(cfg: ReconConfig, states: seq<Recon>, ops: seq<ReconOp>, n: nat)
    requires ReconRun(cfg, states, ops) && n <= |ops|
    ensures Counts(cfg, states[n], LogUpTo(cfg, states, ops, n))
  {
    if n == 0 {
      assert Counts(cfg, FRESH, []);
    } else {
      var k := n - 1;
      ActsOnlyOnPersistence(cfg, states, ops, k);
      hide Counts, ReconAll;
      assert states[k + 1] == ReconApply(cfg, states[k], ops[k]).0;
      var log := LogUpTo(cfg, states, ops, k);
      if ops[k].CycleOp? && !states[k].halted {
        CycleCounts(cfg, states[k], log, ops[k].insts, ops[k].exPos, ops[k].omsPos, ops[k].at);
      } else {
        RearmCounts(cfg, states[k], states[k + 1], log);
      }
    }
  }

  ghost function IsAction(action: DriftAction): DriftRecord -> int {
    (rec: DriftRecord) => if rec.action == action then 1 else 0
  }

  lemma {:induction false} CycleTallies(
    cfg: ReconConfig, r: Recon, insts: seq<nat>, exPos: map<nat, int>, omsPos: map<nat, int>, at: int)
    ensures var (r', out) := ReconAll(cfg, r, insts, exPos, omsPos, at);
      r'.corrective == r.corrective + Sum(out, IsAction(AutoHealed)) && r'.halts == r.halts + Sum(out, IsAction(Halted))
  {
    if |insts| > 0 {
      var n := |insts| - 1;
      CycleTallies(cfg, r, insts[..n], exPos, omsPos, at);
      var (r1, out1) := ReconAll(cfg, r, insts[..n], exPos, omsPos, at);
      var here := ReconOne(cfg, r1, insts[n], QtyAtKey(exPos, insts[n]), QtyAtKey(omsPos, insts[n]), at);
      SumAppend(out1, here.1, IsAction(AutoHealed));
      SumAppend(out1, here.1, IsAction(Halted));
    }
  }

  /** The counters of corrective orders and halts are the numbers of such records in the log. */
  lemma {:induction false} CountersTally(cfg: ReconConfig, states: seq<Recon>, ops: seq<ReconOp>, n: nat)
    requires ReconRun(cfg, states, ops) && n <= |ops|
    ensures states[n].corrective == Sum(LogUpTo(cfg, states, ops, n), IsAction(AutoHealed))
    ensures states[n].halts == Sum(LogUpTo(cfg, states, ops, n), IsAction(Halted))
  {
    if n > 0 {
      var k := n - 1;
      CountersTally(cfg, states, ops, k);
      hide ReconAll;
      assert states[k + 1] == ReconApply(cfg, states[k], ops[k]).0;
      var log, out := LogUpTo(cfg, states, ops, k), ReconApply(cfg, states[k], ops[k]).1;
      SumConcat(log, out, IsAction(AutoHealed));
      SumConcat(log, out, IsAction(Halted));
      if ops[k].CycleOp? && !states[k].halted {
        CycleTallies(cfg, states[k], ops[k].insts, ops[k].exPos, ops[k].omsPos, ops[k].at);
      }
    }
  }

  lemma {:induction false} HaltIsLast(
    cfg: ReconConfig, r: Recon, insts: seq<nat>, exPos: map<nat, int>, omsPos: map<nat, int>, at: int)
    requires !r.halted
    ensures var (r', out) := ReconAll(cfg, r, insts, exPos, omsPos, at);
      && (r'.halted <==> |out| > 0 && out[|out| - 1].action.Halted?)
      && forall i :: 0 <= i < |out| - 1 ==> !out[i].action.Halted?
  {
    if |insts| > 0 {
      var n := |insts| - 1;
      HaltIsLast(cfg, r, insts[..n], exPos, omsPos, at);
      var (r1, out1) := ReconAll(cfg, r, insts[..n], exPos, omsPos, at);
      if !r1.halted {
        assert forall i :: 0 <= i < |out1| ==> !out1[i].action.Halted?;
      }
    }
  }

  ghost predicate NotRearmed(ops: seq<ReconOp>, j: nat, k: nat) {
    forall i: nat :: j <= i < k && i < |ops| ==> !ops[i].RearmOp?
  }

  /** After a halt nothing at all is recorded, and nothing submitted, until the reconciler is re-armed. */
  lemma {:induction false} HaltIsSticky(cfg: ReconConfig, states: seq<Recon>, ops: seq<ReconOp>, j: nat, k: nat)
    requires ReconRun(cfg, states, ops) && j <= k < |ops| && states[j].halted && NotRearmed(ops, j, k)
    ensures states[k].halted && (ops[k].CycleOp? ==> ReconApply(cfg, states[k], ops[k]) == (states[k], []))
  {
    if j < k {
      var m := k - 1;
      HaltIsSticky(cfg, states, ops, j, m);
      assert states[m + 1] == ReconApply(cfg, states[m], ops[m]).0;
    }
  }

  // ---- what a corrective order does ----

  /** The corrective order is for exactly the drift, never for nothing, and within the heal band. */
  lemma CorrectiveClosesDrift(cfg: ReconConfig, r: Recon, inst: nat, exchange: int, oms: int, at: int, mid: int)
    requires cfg.threshold >= 0
    ensures var (_, rec) := ReconOne(cfg, r, inst, exchange, oms, at);
      rec.action.AutoHealed? ==>
        var req := Corrective(rec, mid);
        && oms + SignedQty(req.side, req.size) == exchange && cfg.threshold < req.size <= cfg.healBand
        && req.price >= 1 && req.reconciliation
  {
  }

  /** But it does not shrink the drift when the venue fills it: both positions move by the fill. */
  lemma BothSidesMove(c: Coupled, e: SimEvent, i: nat, inst: nat)
    requires DueFill(c, e, i) && e.what.price > 0
    ensures Shape(c.oms)
    ensures VenuePosition(DeliverNext(c, e).ex, inst) - PositionOf(DeliverNext(c, e).oms, inst).net
         == VenuePosition(c.ex, inst) - PositionOf(c.oms, inst).net
  {
    hide *;
    DueFillParts(c, e, i);
    FillFields(c, e);
    BookSide(c.ex, e);
    var c' := DeliverNext(c, e);
    var w := c.ex.working[e.what.id];
    FillTouches(c.oms, e.what, i);
    FillsInParts(c.oms, c'.oms, e.what, i);
    MovedAlike(c, c', w.instrument, SignedQty(w.side, e.what.qty), e.what.price, inst);
  }

  lemma MovedAlike(c: Coupled, c': Coupled, inst: nat, signed: int, price: int, x: nat)
    requires c'.ex.positions == c.ex.positions[inst := VenuePosition(c.ex, inst) + signed]
    requires c'.oms.positions == c.oms.positions[inst := PositionOf(c.oms, inst).Apply(signed, price)]
    ensures VenuePosition(c'.ex, x) - PositionOf(c'.oms, x).net == VenuePosition(c.ex, x) - PositionOf(c.oms, x).net
  {
  }

  // ---- against the simulated venue ----

  function Nets(positions: map<nat, Position>): map<nat, int> {
    map inst | inst in positions :: positions[inst].net
  }

  lemma {:induction false} AllInSync(
    cfg: ReconConfig, r: Recon, insts: seq<nat>, exPos: map<nat, int>, omsPos: map<nat, int>, at: int)
    requires cfg.threshold >= 0 && forall inst: nat :: QtyAtKey(exPos, inst) == QtyAtKey(omsPos, inst)
    ensures forall rec :: rec in ReconAll(cfg, r, insts, exPos, omsPos, at).1 ==> rec.action == InSync && rec.drift == 0
  {
    if |insts| > 0 {
      AllInSync(cfg, r, insts[..|insts| - 1], exPos, omsPos, at);
    }
  }

  /** In every state of a coupled run, with the venue connected, every record is in sync however many
      orders are in flight. */
  lemma CoupledRunsAreInSync(
    sim: SimConfig, venue: nat, states: seq<Coupled>, acts: seq<Act>, n: nat,
    cfg: ReconConfig, r: Recon, insts: seq<nat>, at: int)
    requires CoupledRun(sim, venue, states, acts) && LastChunkLast(sim) && Priced(acts)
    requires n < |states| && states[n].ex.connected && cfg.threshold >= 0
    ensures forall rec ::
      rec in ReconAll(cfg, r, insts, states[n].ex.positions, Nets(states[n].oms.positions), at).1 ==>
      rec.action == InSync && rec.drift == 0
  {
    hide CoupledRun, ReconAll, LastChunkLast, Priced;
    forall inst: nat ensures QtyAtKey(states[n].ex.positions, inst) == QtyAtKey(Nets(states[n].oms.positions), inst) {
      PositionsAgreeInRuns(sim, venue, states, acts, n, inst);
    }
    AllInSync(cfg, r, insts, states[n].ex.positions, Nets(states[n].oms.positions), at);
  }

  // ---- the reconciler as an object, next to the order manager it corrects ----

  /** The order manager after the corrective orders of a cycle. */
  ghost function SubmitAll(s: Oms, reqs: seq<OrderRequest>, answers: nat -> Answer): (s': Oms)
    requires Shape(s) && forall i :: 0 <= i < |reqs| ==> reqs[i].workerOffset < SCRATCH_SLOTS
    ensures Shape(s')
  {
    if |reqs| == 0 then s
    else
      var n := |reqs| - 1;
      var before := SubmitAll(s, reqs[..n], answers);
      SubmitShape(before, reqs[n], answers(n));
      Submit(before, reqs[n], answers(n).route, answers(n).now, answers(n).accepts)
  }

  /** Submitting moves no position. */
  lemma SubmitMovesNothing(s: Oms, req: OrderRequest, ans: Answer, inst: nat)
    requires Inv(s) && Shape(s) && WellFormed(req, ans.route)
    ensures PositionOf(Submit(s, req, ans.route, ans.now, ans.accepts), inst) == PositionOf(s, inst)
  {
    var route, now, accepts := ans.route, ans.now, ans.accepts;
    RequestInArray(req, route);
    hide *;
    ReachingClient(s, req, route);
    if route.NoVenue? {
      AllDownQuiet(s, req, now, accepts);
      QuietPosition(s, Submit(s, req, route, now, accepts), inst);
    } else if route.NoClient? {
      NoClientSame(s, req, route, now, accepts);
    } else {
      AcceptsUnused(s, req, route, now, accepts);
      if !ReachesVenue(s, route) {
        IdleQuiet(s, req, route, now);
        QuietPosition(s, Submit(s, req, route, now, accepts), inst);
      } else if route.result == Ok {
        SentGrows(s, req, route, now);
        GrownPosition(s, Submit(s, req, route, now, accepts),
          NewOrder(s, req, route.venue).(status := Sent, sentAt := now), inst);
      } else {
        RefusedGrows(s, req, route, now);
        GrownPosition(s, Submit(s, req, route, now, accepts), NewOrder(s, req, route.venue).(status := Rejected), inst);
      }
    }
  }

  lemma QuietPosition(s: Oms, s': Oms, inst: nat)
    requires Quiet(s, s')
    ensures PositionOf(s', inst) == PositionOf(s, inst)
  {
  }

  lemma GrownPosition(s: Oms, s': Oms, o: Order, inst: nat)
    requires Grows(s, s', o)
    ensures PositionOf(s', inst) == PositionOf(s, inst)
  {
  }

  /** The corrective orders of a cycle's records, in turn. */
  ghost function Correctives(records: seq<DriftRecord>, mids: map<nat, int>): (reqs: seq<OrderRequest>)
    ensures forall i :: 0 <= i < |reqs| ==> reqs[i].workerOffset < SCRATCH_SLOTS
  {
    if |records| == 0 then []
    else
      var n := |records| - 1;
      var rest := Correctives(records[..n], mids);
      if records[n].action.AutoHealed? then rest + [Corrective(records[n], QtyAtKey(mids, records[n].inst))] else rest
  }

  lemma CorrectivesNext(records: seq<DriftRecord>, rec: DriftRecord, mids: map<nat, int>)
    ensures Correctives(records + [rec], mids) ==
      if rec.action.AutoHealed? then Correctives(records, mids) + [Corrective(rec, QtyAtKey(mids, rec.inst))]
      else Correctives(records, mids)
  {
    assert (records + [rec])[..|records|] == records;
  }

  lemma SubmitNext(s: Oms, reqs: seq<OrderRequest>, req: OrderRequest, answers: nat -> Answer)
    requires Shape(s) && forall i :: 0 <= i < |reqs| ==> reqs[i].workerOffset < SCRATCH_SLOTS
    requires req.workerOffset < SCRATCH_SLOTS
    ensures forall i :: 0 <= i < |reqs + [req]| ==> (reqs + [req])[i].workerOffset < SCRATCH_SLOTS
    ensures SubmitAll(s, reqs + [req], answers) ==
      Submit(SubmitAll(s, reqs, answers), req, answers(|reqs|).route, answers(|reqs|).now, answers(|reqs|).accepts)
  {
    assert (reqs + [req])[..|reqs|] == reqs;
  }

  class PeriodicReconciler {
    const om: OrderManager
    const cfg: ReconConfig
    var halted: bool
    var correctiveOrders: nat
    var halts: nat
    var persist: map<nat, nat>

    ghost function View(): Recon reads this {
      Recon(halted, correctiveOrders, halts, persist)
    }

    constructor (om: OrderManager, cfg: ReconConfig)
      ensures this.om == om && this.cfg == cfg && View() == FRESH
    {
      this.om, this.cfg := om, cfg;
      halted, correctiveOrders, halts, persist := false, 0, 0, map[];
    }

    method Rearm()
      modifies this`halted
      ensures View() == old(View()).(halted := false)
    {
      halted := false;
    }

    /** Compare one instrument and update its counter. */
    method CompareOne(inst: nat, exchange: int, oms: int, at: int) returns (rec: DriftRecord)
      requires !halted
      modifies this
      ensures (View(), rec) == ReconOne(cfg, old(View()), inst, exchange, oms, at)
    {
      var drift := exchange - oms;
      if Abs(drift) <= cfg.threshold {
        persist := persist[inst := 0];
        return DriftRecord(inst, exchange, oms, drift, InSync, at);
      }
      var seen := (if inst in persist then persist[inst] else 0) + 1;
      if seen < cfg.persistCycles {
        persist := persist[inst := seen];
        return DriftRecord(inst, exchange, oms, drift, PendingConfirm, at);
      }
      persist := persist[inst := 0];
      if Abs(drift) <= cfg.healBand {
        correctiveOrders := correctiveOrders + 1;
        return DriftRecord(inst, exchange, oms, drift, AutoHealed, at);
      }
      halted, halts := true, halts + 1;
      return DriftRecord(inst, exchange, oms, drift, Halted, at);
    }

    lemma PositionsIs()
      ensures om.View().positions == om.positions
      ensures View() == Recon(halted, correctiveOrders, halts, persist)
    {
    }

    /** One instrument of a cycle, with its corrective order if there is one to send. */
    method ReconcileOne(ghost s: Oms, ghost records: seq<DriftRecord>, inst: nat, exchange: int, mids: map<nat, int>,
                        at: int, sent: nat, answers: nat -> Answer) returns (rec: DriftRecord)
      requires om.Valid() && Inv(om.View()) && !halted && cfg.threshold >= 0 && forall k: nat :: AnswerOk(answers(k))
      requires Shape(s) && om.View() == SubmitAll(s, Correctives(records, mids), answers) &&
        sent == |Correctives(records, mids)|
      requires PositionOf(om.View(), inst) == PositionOf(s, inst)
      modifies this, om, om.pool, om.pool.orders, om.pool.generation, om.pool.taken
      ensures om.Valid() && Inv(om.View())
      ensures (View(), rec) == ReconOne(cfg, old(View()), inst, exchange, PositionOf(s, inst).net, at)
      ensures om.View() == SubmitAll(s, Correctives(records + [rec], mids), answers)
      ensures forall other: nat :: PositionOf(om.View(), other) == PositionOf(old(om.View()), other)
      ensures |Correctives(records + [rec], mids)| == if rec.action.AutoHealed? then sent + 1 else sent
    {
      hide *;
      PositionsIs();
      ghost var was := om.View();
      PositionRead(inst);
      var net := if inst in om.positions then om.positions[inst].net else 0;
      rec := CompareOne(inst, exchange, net, at);
      CorrectivesNext(records, rec, mids);
      if rec.action.AutoHealed? {
        var req := Corrective(rec, if inst in mids then mids[inst] else 0);
        CorrectiveIs(cfg, old(View()), inst, exchange, net, at, mids, rec);
        HealedFits(cfg, old(View()), inst, exchange, net, at,
                   if inst in mids then mids[inst] else 0, answers(sent), rec);
        SubmitNext(s, Correctives(records, mids), req, answers);
        AnswersFit(req, answers(sent));
        SubmitKeeps(was, req, answers(sent).route, answers(sent).now, answers(sent).accepts);
        forall other: nat
          ensures PositionOf(Submit(was, req, answers(sent).route, answers(sent).now, answers(sent).accepts),
            other) == PositionOf(was, other)
        {
          SubmitMovesNothing(was, req, answers(sent), other);
        }
        var id := om.SubmitOrder(req, answers(sent).route, answers(sent).now, answers(sent).accepts);
      }
    }

    /** One cycle: compare every instrument either side knows, in ascending order, with the positions
        as they stood at its start; submit a corrective order for each healed drift; stop at a halt. */
    method Reconcile(exPos: map<nat, int>, mids: map<nat, int>, at: int, answers: nat -> Answer)
      returns (out: seq<DriftRecord>, ghost insts: seq<nat>)
      requires om.Valid() && Inv(om.View()) && cfg.threshold >= 0 && forall k: nat :: AnswerOk(answers(k))
      modifies this, om, om.pool, om.pool.orders, om.pool.generation, om.pool.taken
      ensures om.Valid() && Inv(om.View()) && Shape(old(om.View()))
      ensures Enumerates(insts, exPos.Keys + old(om.positions).Keys)
      ensures (View(), out) ==
        if old(halted) then (old(View()), [])
        else ReconAll(cfg, old(View()), insts, exPos, Nets(old(om.positions)), at)
      ensures om.View() == SubmitAll(old(om.View()), Correctives(out, mids), answers)
    {
      hide *;
      ghost var s, r := om.View(), View();
      ghost var nets := Nets(om.positions);
      InvShape(s);
      PositionsIs();
      NothingYet(s, mids, answers);
      out := [];
      var ids := SortIds(exPos.Keys + om.positions.Keys);
      insts := ids;
      if halted { return; }
      var sent, i := 0, 0;
      NoneCompared(cfg, r, exPos, nets, at);
      assert ids[..0] == [];
      while i < |ids| && !halted
        invariant 0 <= i <= |ids| && om.Valid() && Inv(om.View()) && Shape(s)
        invariant (View(), out) == ReconAll(cfg, r, ids[..i], exPos, nets, at)
        invariant om.View() == SubmitAll(s, Correctives(out, mids), answers) && sent == |Correctives(out, mids)|
        invariant forall inst: nat :: PositionOf(om.View(), inst) == PositionOf(s, inst)
      {
        var inst := ids[i];
        ghost var before := out;
        PositionsIs();
        NetsAre(s, inst);
        ReconNext(cfg, r, ids, i, exPos, nets, at);
        QtyIs(exPos, inst);
        var rec := ReconcileOne(s, out, inst, if inst in exPos then exPos[inst] else 0, mids, at, sent, answers);
        CorrectivesNext(out, rec, mids);
        if rec.action.AutoHealed? { sent := sent + 1; }
        out, i := out + [rec], i + 1;
        PositionsIs();
      }
      PositionsIs();
      ReconStops(cfg, r, ids, i, exPos, nets, at);
    }

    lemma PositionRead(inst: nat)
      ensures PositionOf(om.View(), inst).net == if inst in om.positions then om.positions[inst].net else 0
    {
    }
  }

  lemma NothingYet(s: Oms, mids: map<nat, int>, answers: nat -> Answer)
    requires Shape(s)
    ensures Correctives([], mids) == [] && SubmitAll(s, Correctives([], mids), answers) == s
  {
  }

  lemma NoneCompared(cfg: ReconConfig, r: Recon, exPos: map<nat, int>, omsPos: map<nat, int>, at: int)
    ensures ReconAll(cfg, r, [], exPos, omsPos, at) == (r, [])
  {
  }

  lemma NetsAre(s: Oms, inst: nat)
    ensures QtyAtKey(Nets(s.positions), inst) == PositionOf(s, inst).net
  {
  }

  lemma QtyIs(m: map<nat, int>, inst: nat)
    ensures QtyAtKey(m, inst) == if inst in m then m[inst] else 0
  {
  }

  lemma ReconNext(
    cfg: ReconConfig, r: Recon, ids: seq<nat>, i: nat, exPos: map<nat, int>, omsPos: map<nat, int>, at: int)
    requires i < |ids| && !ReconAll(cfg, r, ids[..i], exPos, omsPos, at).0.halted
    ensures
      var before := ReconAll(cfg, r, ids[..i], exPos, omsPos, at);
      var here := ReconOne(cfg, before.0, ids[i], QtyAtKey(exPos, ids[i]), QtyAtKey(omsPos, ids[i]), at);
      ReconAll(cfg, r, ids[..i + 1], exPos, omsPos, at) == (here.0, before.1 + [here.1])
  {
    assert ids[..i + 1][..i] == ids[..i];
  }

  lemma {:induction false} ReconStops(
    cfg: ReconConfig, r: Recon, ids: seq<nat>, i: nat, exPos: map<nat, int>, omsPos: map<nat, int>, at: int)
    requires i <= |ids| && (i < |ids| ==> ReconAll(cfg, r, ids[..i], exPos, omsPos, at).0.halted)
    ensures ReconAll(cfg, r, ids, exPos, omsPos, at) == ReconAll(cfg, r, ids[..i], exPos, omsPos, at)
    decreases |ids|
  {
    if i < |ids| {
      assert ids[..|ids| - 1][..i] == ids[..i];
      ReconStops(cfg, r, ids[..|ids| - 1], i, exPos, omsPos, at);
    } else {
      assert ids[..i] == ids;
    }
  }

  lemma AnswersFit(req: OrderRequest, ans: Answer)
    requires WellFormed(req, ans.route)
    ensures req.workerOffset < SCRATCH_SLOTS
  {
  }

  lemma CorrectiveIs(cfg: ReconConfig, r: Recon, inst: nat, exchange: int, oms: int, at: int, mids: map<nat, int>,
      rec: DriftRecord)
    requires rec == ReconOne(cfg, r, inst, exchange, oms, at).1
    ensures rec.inst == inst
    ensures QtyAtKey(mids, inst) == if inst in mids then mids[inst] else 0
  {
  }

  lemma HealedFits(cfg: ReconConfig, r: Recon, inst: nat, exchange: int, oms: int, at: int, mid: int, ans: Answer,
      rec: DriftRecord)
    requires cfg.threshold >= 0 && rec == ReconOne(cfg, r, inst, exchange, oms, at).1 && rec.action.AutoHealed? &&
      AnswerOk(ans)
    ensures WellFormed(Corrective(rec, mid), ans.route)
  {
  }
}
