# Order path: a verified model

This project models the order path of a small order management system and proves what it promises, for every
input, every answer of the environment and every run. Each component is a state machine on values (a `...Spec`
module or the functions at the head of a module), a set of lemmas about it, and, where the program changes state in
place, a class whose methods are proved to do exactly what the state machine does.

- **Order manager and pool** (`OrderIds`, `Orders`, `OrderManagerSpec`, `OrderManagerInvariants`,
  `OrderManagerSteps`, `OrderManagerKeeps`, `OrderManagerHistory`, `OrderManagerRuns`, `OrderManagerLaws`, `OrderPools`,
  `OrderManagement`): slots with 16-bit generations, the live index, the grace queue of retired orders, per-order trade
  sets, position and pending ledgers. The model numbers orders by submission and keeps the ledger of accepted fills as history, so exactly-once
  accounting can be stated across retirement and slot reuse.
- **Simulated venue, coupled to the order manager** (`SimExchangeSpec`, `SimulatedVenue`, `Coupling...`): two state
  machines that agree on every order's remaining size and every position after every step, and exactly when they do not.
- **Execution algorithms** (`AlgoChildren`, `ExecutionAlgoSpec`, `TwapSafety`, `TwapSlicing`, `PovSafety`,
  `ExecutionAlgos`, `PovAlgos`): TWAP, and POV holding a TWAP, run against the order manager.
- **Netting** (`NettingSpec`, `NettingLaws`, `NettingRuns`, `Netting`), **signals** (`SignalCodec`, `SignalGates`),
  **venue health** (`Rings`, `VenueHealth`) and **periodic reconciliation** (`Reconciliation`).
- `Sums`, `Arithmetic` and `SortedIds` hold the mathematics the others share.

`dafny verify dfyconfig.toml` checks the whole project.

## Assumptions

They are preconditions of the lemmas that need them, never assumed silently.

- A request has a positive size and a tag offset inside the scratch array; a venue id fits 8 bits. The sink is called only from a
  poll, and listeners do not call back into the order manager.
- An inbound event names the order that holds the slot of its id, or no current order (`Admissible`). `is_current` compares slot
  and generation only, so a forged id with a live slot and generation would pass for another order. While no slot was recycled
  2^16 times, reports of minted ids meet this by themselves (`ReportedRun`).
- Statements about ids alone (`IdsDistinct`, `ReleasedStaysStale`, `ExactlyOnce`, `ReplayIsDropped`, `AbsorbedOnce`) and the coupled
  runs ask for fewer than 2^16 recycles of every slot (`NoWrap`); `StaleExactly` and `ZeroExactly` say what happens beyond.
- Coupled runs (`CoupledRun`) have one venue, no injectors and no `set_position`. Theirs is agreement in every state under two
  conditions, positive prices (`Priced`) and no chunk scheduled after the last (`LastChunkLast`); `AgreementExactly` proves that
  nothing less will do, and `RunAgreesExactly` needs neither.
- For the algorithms, nobody else stamps the tag (`HearsExactly` says when tags overlap), and POV's clock does not run backwards.
- For the gate, true numbers arrive within the window, which `WindowIsTight` shows cannot be widened; where the wrap space does not
  divide 2^64, sequence words lie below 2^64 less the wrap space.

## Where code and documentation differ

The model follows the code.

- `include/oms/Netting.h:10-11` says the rounding residual goes to the largest contributor; the code gives it by
  largest remainder. `ResidualToLargestExactly` says when the two agree, and `LargestCanGoWithout` is a fill in which the
  largest contributor gets none of it.
- `src/OrderManager.cpp:157` argues that ids are never 0 because sequences start at 1; the 16-bit sequence wraps to 0.
  Ids are still never 0 until slot 0 has been recycled 2^16 times (`NeverZero`); `ZeroExactly` says exactly when one is.
- `src/ExecutionAlgo.cpp:192` computes POV's deadline residual without what is in flight, unlike TWAP
  (`src/ExecutionAlgo.cpp:121`); `PovCrossExactly` says when that over-sends, `PovBoundAfterCross` that it decides the rest
  of the run, and `PovCanOverSend` is a run that does.
- `sim/SimulatedExchange.cpp:122-126` ends an order with the chunk scheduled last by number, whenever it arrives, and books
  fills at any price; the order manager ends it with the last unit and refuses prices of 0 or less (`DeliverExactly`).
- `src/Reconciliation.cpp:131-132` says a corrective order moves the order manager toward the exchange; when the
  exchange fills it both move alike (`BothSidesMove`).
- `ValidationResult::StaleCumulative` is declared but never returned (`src/OrderManager.cpp:19-42`).

## Model

| member | source | states |
|---|---|---|
| OrderIds.DecodeEncode | include/oms/OrderId.h:44-59 | decoding an encoded id gives back all four fields, for every field value in range |
| OrderIds.EncodeDecode | include/oms/OrderId.h:44-59 | encoding a decoded word gives back the word, for all 2^64 words |
| OrderIds.EncodeInjective | include/oms/OrderId.h:44-50 | ids in range are equal exactly when their words are |
| OrderIds.ShiftOrIsSum | include/oms/OrderId.h:44-50 | on 64-bit vectors, or-ing the shifted fields adds them: they do not overlap |
| OrderIds.EncodeIsShifts | include/oms/OrderId.h:44-50 | the integer encoding is the word that shifting the fields left, masking the slot and or-ing them bit by bit makes |
| OrderIds.DecodeIsShifts | include/oms/OrderId.h:52-59 | the integer decoding is what shifting right and masking bit by bit reads |
| OrderIds.ZeroWord | include/oms/OrderId.h:44-50 | only the id with all fields 0 packs to the word 0 |
| OrderManagerRuns.StaleExactly | src/OrderPool.cpp:54-68 | the id of a released order passes for a current one again exactly when its slot is in use and was recycled a positive multiple of 2^16 times since |
| OrderManagerRuns.CurrentIsHeld | src/OrderPool.cpp:63-68 | while no generation has wrapped, an id is current exactly while its own order holds the slot, although venue and sequence are not compared |
| OrderManagerRuns.ReleasedStaysStale | src/OrderPool.cpp:54-68 | over a whole run a released id is never current again while no slot is recycled 2^16 times |
| OrderManagerRuns.IdsDistinct | src/OrderManager.cpp:154-159 | while no slot was recycled 2^16 times, no two orders of a run share an id, in spite of slot reuse and the 16-bit sequence |
| OrderManagerRuns.ZeroExactly | src/OrderManager.cpp:154-159 | exactly when an order carries the id word 0: venue 0, slot 0 after a positive multiple of 2^16 releases, and a sequence wrapped to 0 |
| OrderManagerRuns.NeverZero | src/OrderManager.cpp:154-159 | no order carries the id word 0 while slot 0 was recycled fewer than 2^16 times, although the 16-bit sequence wraps to 0 earlier |
| OrderManagerRuns.AllocatedIds | src/OrderManager.cpp:154-159 | allocated orders have distinct id words whatever was recycled, and the word gives back venue and slot |
| OrderManagerRuns.RunKeeps | src/OrderManager.cpp:19-416 | every state of every run of submits, cancels, timeouts and venue events (duplicated, late, reordered or stale) satisfies the invariant: pool, ids, live index, grace queue, pending, positions, trade sets |
| OrderManagerRuns.RunExtends | src/OrderManager.cpp:19-416 | along a run orders keep their terms, the ledger of accepted fills only grows, terminal records never change |
| OrderManagerRuns.ReportedRun | src/OrderPool.cpp:63-68 | while no slot was recycled 2^16 times, reports of minted ids and of ids that are not current make a run: nothing more is asked of venues |
| OrderManagerRuns.ExactlyOncePerOrder | src/OrderManager.cpp:250-303 | over a whole run, however often slots are recycled, each trade of each order is accepted at most once, although trade sets are erased at retirement |
| OrderManagerRuns.ExactlyOnce | src/OrderManager.cpp:250-303 | the same by packed id, while no slot was recycled 2^16 times: each (id, trade) pair is accepted at most once |
| OrderManagerRuns.ReplayIsDropped | src/OrderManager.cpp:19-42 | once accepted, a trade reported again in any later state changes no record, position, pending quantity or trade set: trade set, terminal state and generation hand over to each other |
| OrderManagerRuns.PositionsAreFills | src/OrderManager.cpp:275-281 | net position, traded volume and notional of an instrument are the sums over the accepted fills, and the net also over all orders' filled sizes |
| OrderManagerRuns.PendingIsOpen | src/OrderManager.cpp:177-193 | the pending quantity of an instrument is the signed sum of what its live orders have left, in every state of a run |
| OrderManagerRuns.TerminalIsFinal | src/OrderManager.cpp:25-27 | the record of a terminal order is the same in every later state of the run |
| OrderManagerLaws.DeltaKept | include/oms/OrderManager.h:112-115 | confirms, fills, cancel-rejects, duplicates and dropped events leave target - (position + pending) as it is |
| OrderManagerLaws.DeltaClosed | src/OrderManager.cpp:82-97 | a reject or cancel that closes an order gives back exactly its signed remainder |
| OrderManagerLaws.DeltaSubmitted | src/OrderManager.cpp:177-193 | a sent order takes exactly its signed size from the execution delta; a submit that sends nothing, even after reserving, takes nothing |
| OrderManagerLaws.DeltaRequested | src/OrderManager.cpp:200-223 | requesting cancels, one, all or overdue ones, leaves position plus pending alone |
| OrderManagerLaws.AvgPriceBetween | include/oms/Order.h:74-78 | the average fill price lies between the lowest and the highest accepted fill price of the order |
| OrderManagerLaws.LiveLifecycle | src/OrderManager.cpp:200-223 | between operations a live order is Sent, Confirmed, PartiallyFilled or SentCancel with 0 <= filled < size; Sent or Confirmed means nothing filled, SentCancel means a cancel is in flight |
| OrderManagerLaws.RetiredLifecycle | src/OrderManager.cpp:91-96 | every id in the grace queue is still current (so the guard on eviction always holds), its order terminal, and Filled exactly when the whole size was filled |
| OrderManagerLaws.SlotPartition | src/OrderManager.cpp:82-97 | every slot is in exactly one of free list, live index and grace queue; their sizes add up to the capacity; the queue never exceeds the grace |
| OrderManagerLaws.ExhaustionMeansLive | src/OrderManager.cpp:148-152 | submit trips the kill switch exactly when a client is reached with no slot free, and then at least capacity - 4096 orders are live |
| OrderManagerLaws.BenignAdded | src/OrderManager.cpp:295-303 | a cancel-reject becomes expected only through the accepted last fill of that very order while its cancel is in flight |
| OrderManagerLaws.BenignIsFilled | src/OrderManager.cpp:295-301 | cancel-rejects are expected only for completely filled orders still in the grace queue |
| OrderManagerLaws.AbsorbedOnce | src/OrderManager.cpp:308-315 | each expected cancel-reject is absorbed at most once: after it has been, no later state of the run expects another for that id |
| OrderManagerKeeps.ReceiveKeeps | src/OrderManager.cpp:226-378 | every inbound event keeps the whole invariant |
| OrderManagerKeeps.SubmitKeeps | src/OrderManager.cpp:117-198 | submit keeps the whole invariant on every path: killed, all venues down, no client, exhausted, refused locally, sent |
| OrderManagerKeeps.TimeoutsKeep | src/OrderManager.cpp:389-416 | the ack-timeout scan keeps the whole invariant |
| OrderPools.OrderPool.Acquire | src/OrderPool.cpp:24-52 | takes the slot on top of the free list, blanks it and touches no other |
| OrderPools.OrderPool.Release | src/OrderPool.cpp:54-61 | frees a taken slot and moves its generation on by one modulo 2^16, so every older id of the slot is stale |
| OrderManagement.OrderManager.ValidateEvent | src/OrderManager.cpp:19-42 | the guard sequence, on the pool itself, gives the specified verdict |
| OrderManagement.OrderManager.RetireOrder | src/OrderManager.cpp:82-97 | in place, equals the specified retirement with its eviction of the oldest order |
| OrderManagement.OrderManager.CancelWorkingOrders | src/OrderManager.cpp:99-114 | walking the live index in any order has the effect of the specified all-down policy |
| OrderManagement.OrderManager.SubmitOrder | src/OrderManager.cpp:117-198 | returns the specified id and leaves exactly the specified state on every path |
| OrderManagement.OrderManager.CancelOrder | src/OrderManager.cpp:200-223 | answers and changes the order exactly as specified |
| OrderManagement.OrderManager.OnConfirmed | src/OrderManager.cpp:226-248 | new state and published event are the specified ones |
| OrderManagement.OrderManager.OnFilled | src/OrderManager.cpp:250-303 | final state and published event are the specified ones; the event shows the record after the fill |
| OrderManagement.OrderManager.OnCancelRejected | src/OrderManager.cpp:308-330 | new state is the specified one: benign rejects absorbed, real ones put the order back to work |
| OrderManagement.OrderManager.OnPlaceRejected | src/OrderManager.cpp:332-352 | new state and published event are the specified ones |
| OrderManagement.OrderManager.FinishCancel | src/OrderManager.cpp:354-378 | new state and published event are the specified ones, for acknowledged and unsolicited cancels |
| OrderManagement.OrderManager.CheckAcks | src/OrderManager.cpp:389-416 | walking the live index in any order has the effect of the specified scan, including the count of timeouts |
| OrderManagement.OrderManager.ComputeExecutionDelta | include/oms/OrderManager.h:112-115 | target less position and pending of the represented state |
| OrderManagement.OrderManager.Find | src/OrderManager.cpp:444-447 | the record of a current id, and nothing for any other id |
| SimulatedVenue.SimulatedExchange.Place | sim/SimulatedExchange.cpp:22-81 | state and answer are the specified ones, with the chunk loop equal to its recursive description |
| SimulatedVenue.SimulatedExchange.CancelOrder | sim/SimulatedExchange.cpp:83-95 | schedules an acknowledgement exactly for a working order, else a refusal; nothing while disconnected |
| SimulatedVenue.SimulatedExchange.Take | sim/SimulatedExchange.cpp:108-149 | takes an event that no other precedes and updates the venue's own book as specified |
| SimulatedVenue.SimulatedExchange.Poll | sim/SimulatedExchange.cpp:151-158 | one poll delivers exactly the events due by the new time, each once, in the total order on (time, sequence) |
| CouplingRequests.LastChunkLastExactly | sim/SimulatedExchange.cpp:57-68 | in terms of the settings, exactly when no chunk of an order is scheduled after its last one |
| CouplingRequests.PlaceDoes | sim/SimulatedExchange.cpp:22-81 | place_order schedules, for the order alone, the chunks of a plan that sums to its size, each no earlier than its delay, duplicates included, and the last behind all others if the settings put it there |
| CouplingDelivery.DeliverAgrees | sim/SimulatedExchange.cpp:108-149 | whatever event the venue delivers, in order or not, venue and order manager agree again on every order and position unless it is a fill that only one of them can book |
| CouplingSteps.SubmitAgrees | src/OrderManager.cpp:117-198 | a submit, sent, refused or not reaching the venue, keeps the two in agreement |
| CouplingSteps.CancelAgrees | src/OrderManager.cpp:200-223 | a cancel of any id the manager minted, or any id that is not current, keeps the two in agreement |
| CouplingSteps.StepAgrees | sim/SimulatedExchange.cpp:22-158 | at any settings and prices every step of the coupled system keeps the agreement: submits, all-down, cancels, timeouts, connects, ticks, and deliveries that are harmless |
| CouplingSteps.StepOrderly | sim/SimulatedExchange.cpp:57-68 | with the last chunk scheduled last and positive prices every step keeps each last chunk behind all chunks not yet booked, duplicates and interleaved orders included |
| CouplingRuns.OrdersAgreeInRuns | sim/SimulatedExchange.cpp:108-149 | in every state of a coupled run with positive prices and the last chunk scheduled last, an order accepted by the venue is alive there exactly while it is non-terminal in the order manager, with equal remaining sizes |
| CouplingRuns.SameOrdersInRuns | sim/SimulatedExchange.cpp:22-81 | in the same runs every order the venue accepted was sent by the manager, and every live order of the manager works at the venue |
| CouplingRuns.PositionsAgreeInRuns | sim/SimulatedExchange.cpp:119-127 | in the same runs net positions are equal on every instrument after every step |
| CouplingRuns.NoCancelRejects | sim/SimulatedExchange.cpp:83-95 | in the same runs the venue never schedules a cancel-reject |
| CouplingRuns.PositionsNeedPrice | sim/SimulatedExchange.cpp:116-131 | after a due fill positions still agree exactly when its price is positive: the venue books any price, the order manager refuses prices of 0 or less |
| CouplingRuns.FinalChunkMustComplete | sim/SimulatedExchange.cpp:122-126 | after a due fill both sides still give the order the same life exactly when the chunk flagged final is the whole remainder |
| CouplingRuns.DeliverExactly | sim/SimulatedExchange.cpp:108-149 | exactly which deliveries part the two sides: a booked fill at a price of 0 or less, and a last chunk that comes before another chunk of its order |
| CouplingRuns.RunAgreesExactly | sim/SimulatedExchange.cpp:108-149 | over every run, at any settings and prices, lives, remaining sizes and positions agree in every state exactly when every delivered event was harmless |
| CouplingLimits.AgreementExactly | sim/SimulatedExchange.cpp:57-68 | for every setting with an advancing clock and every price: the two sides agree in every state of every run at that price if and only if the price is positive and no chunk is scheduled after the last |
| CouplingLimits.PartingSettings | sim/SimulatedExchange.h:13-24 | runs that part: the default settings at a price of 0, and two chunks with a negative gap |
| AlgoChildren.ReceiveTells | src/ExecutionAlgo.cpp:257-278 | an algorithm that follows what is published for its tag keeps exactly the order manager's open orders of that tag, each with its remaining size, and counts exactly what was executed |
| AlgoChildren.SubmitSends | src/ExecutionAlgo.cpp:10-30 | whatever router and venue answer, a submit adds exactly its own order to the open orders of its tag, and none to another tag |
| ExecutionAlgoSpec.HearsExactly | src/ExecutionAlgo.cpp:257-278 | exactly whose fills a registered algorithm is told of: orders tagged with its slot and index and, if its index is 0, every order tagged at another slot, requests that name no worker among them |
| TwapSafety.SendKeeps | src/ExecutionAlgo.cpp:10-30 | a child that fits in the room left keeps bookkeeping and order manager in step |
| TwapSafety.TimerKeeps | src/ExecutionAlgo.cpp:88-129 | a timer, before or after the deadline, with any answers to submits and cancels, keeps the no-over-send invariant |
| TwapSafety.EventKeeps | src/ExecutionAlgo.cpp:32-49 | any venue event, late fills racing the deadline cancel included, keeps the no-over-send invariant |
| TwapSafety.TwapNeverOverSends | src/ExecutionAlgo.cpp:32-129 | in every state of every run filled plus in flight stays within the parent quantity, children are the order manager's open orders with their remaining sizes, executed quantity is what is counted, and done means nothing in flight and either the target hit or the run flagged incomplete |
| TwapSlicing.SentInClosedForm | include/oms/Detail.h:16-19 | after k slices exactly k * (qty / n) + min(k, qty mod n) has been sent |
| TwapSlicing.SlicesAreEven | src/ExecutionAlgo.cpp:100-112 | each slice is the floor or the ceiling of qty / n, slices do not grow, and all n sum to the parent quantity |
| TwapSlicing.SentDependsOnBoundaries | src/ExecutionAlgo.cpp:100-115 | with submits accepted and nothing rejected or cancelled, for any timer schedule before the deadline and any fills between, the quantity sent is a function of parent, slice count and boundaries due |
| PovSafety.PovTimerKeeps | src/ExecutionAlgo.cpp:169-247 | a POV timer (idle, share, degrade, held TWAP, deadline) keeps the invariant on own fills, own children and the held target |
| PovSafety.PovNeverOverSends | src/ExecutionAlgo.cpp:138-182 | before its deadline, and at all times once it holds a TWAP, POV's filled quantity plus its own and the held TWAP's children never exceeds the parent quantity, whatever the volumes, fills, rejects and cancels |
| PovSafety.PovCrossExactly | src/ExecutionAlgo.cpp:184-198 | POV's own deadline cross stays within the parent quantity exactly when none of its children is in flight, or the manager is killed, full or without a client, or the client refuses the crossing order |
| PovSafety.PovShrinksAfterCross | src/ExecutionAlgo.cpp:184-198 | past its own cross POV sends nothing more: filled plus in flight never grows in any later state |
| PovSafety.PovBoundAfterCross | src/ExecutionAlgo.cpp:184-198 | so every later state of the run is within the parent quantity exactly when the state of the cross was |
| PovSafety.PovCanOverSend | src/ExecutionAlgo.cpp:184-198 | a concrete run: ten to buy, four in flight at the deadline, ten more crossed |
| ExecutionAlgos.AlgoBase.Send | src/ExecutionAlgo.cpp:10-30 | sends and books the child exactly as specified |
| ExecutionAlgos.AlgoBase.OnFill | src/ExecutionAlgo.cpp:32-41 | fill bookkeeping as specified |
| ExecutionAlgos.AlgoBase.CancelChildren | src/ExecutionAlgo.cpp:51-57 | requests a cancel of every child exactly once, in some order |
| ExecutionAlgos.AlgoBase.OpenQuantity | src/ExecutionAlgo.cpp:59-63 | the loop over the children sums what is in flight |
| ExecutionAlgos.TwapAlgo.FireDue | src/ExecutionAlgo.cpp:100-112 | the loop fires every slice boundary due, each with its specified size |
| ExecutionAlgos.TwapAlgo.DeadlineCross | src/ExecutionAlgo.cpp:117-129 | cancels and crosses once, as specified |
| ExecutionAlgos.TwapAlgo.OnTimer | src/ExecutionAlgo.cpp:88-115 | algorithm and order manager end in exactly the specified states |
| PovAlgos.PovAlgo.DegradeToTwap | src/ExecutionAlgo.cpp:169-182 | a new TWAP over the residual quantity and window |
| PovAlgos.PovAlgo.DeadlineCross | src/ExecutionAlgo.cpp:184-198 | the held TWAP's deadline, or cancels and a cross of what is not filled, once |
| PovAlgos.PovAlgo.OnTimer | src/ExecutionAlgo.cpp:200-247 | algorithm, held TWAP and order manager end in exactly the specified states |
| PovAlgos.PovAlgo.Tell | src/ExecutionAlgo.cpp:143-162 | a fill or an end of a child reaches own children first, else the held TWAP's |
| NettingSpec.PackKeyInjective | include/oms/Netting.h:57-59 | the packed key names one strategy and one 16-bit instrument |
| NettingLaws.SharesAddUp | src/Netting.cpp:70-101 | shares add up to the filled quantity exactly: one pass over the ranking uses up all leftover units |
| NettingLaws.LeftoverFits | src/Netting.cpp:91-101 | leftover units are not negative and fewer than the contributors with a non-zero remainder, unless there are none |
| NettingLaws.ShareOf | src/Netting.cpp:82-101 | each contributor gets the floor of its pro-rata quota, or one more, and one more only with a non-zero remainder |
| NettingLaws.ExtrasInOrder | src/Netting.cpp:92-101 | leftover units go by remainder, then weight, then strategy id: nobody is passed over for one behind |
| NettingLaws.RankingUnique | src/Netting.cpp:94-98 | the comparison leaves one possible ranking, so the sorting algorithm does not matter |
| NettingLaws.GetsExactly | src/Netting.cpp:91-101 | exactly who gets what, on the inputs: a contributor gets its floor, and one unit more if and only if fewer contributors rank ahead of it by remainder, weight and id than there are units left over |
| NettingLaws.ResidualToLargestExactly | include/oms/Netting.h:8-11 | the whole residual goes to a largest contributor if and only if there is none, or it is one unit and nobody else has a larger remainder, or the same remainder and weight with a smaller id |
| NettingLaws.LargestCanGoWithout | include/oms/Netting.h:8-11 | a concrete fill whose residual units all miss the largest contributor, against the header comment |
| NettingRuns.ContribsExactly | src/Netting.cpp:15-27 | the contributors of an instrument are exactly the strategies off their target, each with its gap |
| NettingRuns.SavedIsCrossedVolume | src/Netting.cpp:34-38 | a zero-net instrument saves exactly the notional crossed between its buyers and sellers; the halving loses nothing |
| NettingRuns.CycleIdempotent | src/Netting.cpp:15-59 | a repeated cycle returns the same orders, saves no further notional and changes nothing, at any later prices |
| NettingRuns.FillBalancedExactly | src/Netting.cpp:61-67 | a fill keeps global equal to the sum of sub-positions exactly when contributions are on record or the fill is of nothing |
| NettingRuns.GlobalIsSumOfParts | src/Netting.cpp:108-115 | in every run whose fills are on instruments already ordered, global equals the sum of sub-positions on every instrument |
| NettingRuns.DriftBounded | src/Netting.cpp:70-105 | after k fills on unchanged contributions every contributor is less than k units from its exact pro-rata part of all that was filled |
| NettingRuns.FullFillLandsExactly | src/Netting.cpp:74-105 | one full fill of the net order lands every contributor on target exactly when all contributors trade the same way |
| Netting.SortAllocs | src/Netting.cpp:94-98 | sorts the shares in place into the one ranking |
| Netting.NettingEngine.ComputeCycle | src/Netting.cpp:5-59 | orders and books as specified, over instruments and strategies in ascending order |
| Netting.NettingEngine.Apportion | src/Netting.cpp:82-91 | floors, remainders and leftover of the pro-rata quotas |
| Netting.NettingEngine.OnFill | src/Netting.cpp:61-106 | global and sub-positions as specified |
| Netting.NettingEngine.CheckInvariant | src/Netting.cpp:108-115 | true exactly when every instrument it was told of is balanced |
| SignalCodec.RoundTripExactly | src/Signal.cpp:10-42 | a message comes back from its bytes exactly when it has fewer than 2^32 targets; longer lists have their count cut and are refused |
| SignalCodec.AcceptedIsEncoding | src/Signal.cpp:25-42 | every accepted buffer re-serialises to itself, and its fields are in range |
| SignalCodec.PrefixesRefused | src/Signal.cpp:25-42 | no accepted buffer is a strict prefix of another, so truncated and extended encodings are refused |
| SignalCodec.SerializeSignal | src/Signal.cpp:10-23 | appending field by field gives the specified bytes |
| SignalCodec.DeserializeSignal | src/Signal.cpp:25-42 | reading field by field accepts and returns exactly what is specified |
| SignalGates.CheckRefines | src/Signal.cpp:73-102 | within the window the modular check gives the verdict of a gate on unbounded numbers, and the states keep corresponding |
| SignalGates.WindowIsTight | src/Signal.cpp:77-89 | one number beyond the window on either side gets the wrong verdict |
| SignalGates.GateRefinesCounter | src/Signal.cpp:44-103 | at every arrival of every run, producers interleaved, the verdict equals that of the unbounded gate |
| SignalGates.AppliedNumbersIncrease | src/Signal.cpp:73-102 | the true numbers applied per producer are strictly increasing: each at most once |
| SignalGates.RejectedLeavesNoTrace | src/Signal.cpp:44-103 | a message not applied changes nothing, and no message touches another producer |
| SignalGates.AliveExactly | src/Signal.cpp:105-110 | on any arrivals, a producer is alive exactly when its last applied message is within the heartbeat deadline |
| SignalGates.SignalGate.CheckSignal | src/Signal.cpp:44-103 | verdict and new state are the specified ones |
| Rings.PushKeeps | include/oms/RingBuffer.h:15-22 | writing at the head overwrites exactly the sample that ages out |
| Rings.RotationIsWindow | include/oms/RingBuffer.h:15-27 | read from the head on, and then from the start, the ring is the window of the latest samples in order; as a multiset it is that window |
| Rings.PercentileLaws | include/oms/RingBuffer.h:39-50 | a percentile lies between smallest and largest sample and does not fall as p grows |
| Rings.OrderUnique | include/oms/RingBuffer.h:41-42 | there is one sorted copy, so a percentile depends on the window only |
| Rings.RingBuffer.Push | include/oms/RingBuffer.h:15-22 | the history gains the sample, with the head at the number of pushes modulo the capacity |
| Rings.RingBuffer.Fraction | include/oms/RingBuffer.h:31-36 | the part of the window that satisfies the predicate, whatever predicate is asked |
| Rings.RingBuffer.Percentile | include/oms/RingBuffer.h:39-50 | the interpolated percentile of the sorted window |
| VenueHealth.HighAndLowExclude | src/Health.cpp:33-59 | with low thresholds at or below high ones, any_high and all_low never hold together |
| VenueHealth.TripsCountRecoveries | src/Health.cpp:66-110 | unresolved is 1 exactly while not healthy, and trips - unresolved counts the recoveries of the trace |
| VenueHealth.ReasonWhileTripped | src/Health.cpp:53-56 | a trip reason is on record exactly while the venue is not healthy |
| VenueHealth.GoingDownNeedsDwell | src/Health.cpp:76-86 | a venue goes down only while something is bad, from Probing at once, otherwise only after being degraded without a break for the dwell since its trip |
| VenueHealth.DownNeedsDwell | src/Health.cpp:88-99 | Down is left only for Probing, after an unbroken stretch of good evaluations at least the dwell long |
| VenueHealth.HealthyNeedsProbes | src/Health.cpp:101-111 | Probing ends healthy only after the required fast acks within that one episode |
| VenueHealth.DownToHealthyIsProved | src/Health.cpp:61-112 | a venue that was down is healthy or degraded again only after a complete probing episode in between |
| VenueHealth.Breaker.Reevaluate | src/Health.cpp:61-112 | the transition is the specified one |
| VenueHealth.Breaker.OnAck | src/Health.cpp:130-140 | samples, probe count and transition as specified |
| VenueHealth.Breaker.OnReject | src/Health.cpp:142-150 | a false cancel-reject leaves the rejection samples alone; then the specified transition |
| Reconciliation.ActsOnlyOnPersistence | src/Reconciliation.cpp:105-160 | every corrective order and every halt of a run closes a streak of exactly the required number of out-of-threshold records of its instrument, none in sync and none acted upon among them |
| Reconciliation.CountersTally | src/Reconciliation.cpp:141-153 | the counters of corrective orders and halts are the numbers of such records over the whole run |
| Reconciliation.HaltIsSticky | src/Reconciliation.cpp:77-79 | after a halt nothing is recorded or submitted until re-armed |
| Reconciliation.HaltIsLast | src/Reconciliation.cpp:149-159 | a halt ends its cycle: it is the last record, and the reconciler is halted exactly then |
| Reconciliation.CorrectiveClosesDrift | src/Reconciliation.cpp:130-142 | the corrective order is signed and sized as exactly the drift, within the band, at a positive price |
| Reconciliation.BothSidesMove | src/Reconciliation.cpp:130-142 | a fill that venue and manager both book leaves the drift as it was, so a filled corrective order does not shrink it |
| Reconciliation.CoupledRunsAreInSync | src/Reconciliation.cpp:95-114 | in every state of a coupled run with positive prices, the last chunk scheduled last and the venue connected, every record is in sync, however many orders are in flight |
| Reconciliation.SubmitMovesNothing | src/Reconciliation.cpp:96-102 | submitting moves no position, so a cycle compares the positions of its start |
| Reconciliation.PeriodicReconciler.Reconcile | src/Reconciliation.cpp:77-163 | records, counters and the submitted corrective orders are the specified ones, over the instruments either side knows, in ascending order |

## Left out

- Logging, metrics, reports, demo drivers and benchmarks, registries, factories and clocks: input, output and plumbing.
- Router and health model inside the order manager: the chosen venue, the client's answer and the clock are parameters of each submit, the clients' answers to cancels a parameter of each cancel; calls into the health model are not made.
- Order fields that no modelled decision reads: exchange id, strategy id, algo tag, order type and the timestamps other than the time sent; of positions, fees and the overnight carry.
- Machine widths of quantities, prices, notionals and 64-bit counters: they are mathematical integers; 16-bit generations and sequences, the 64-bit id word, the codec's fields and the gate's 64-bit sums are modelled with their width.
- Order ids inside the order manager are the decoded records; `OrderIds` proves them interchangeable with the packed words.
- Several venues at once in the coupled runs and in the reconciler's snapshot, which takes the summed exchange positions as input.
- `mass_cancel`, `set_book`, the injectors and `set_position` of the simulated venue; its random draws are parameters, so proofs cover every seed.
- Floating point: participation rate, reject fraction and percentile interpolation are computed over reals, then truncated as in the code.
- The host's byte order: fields are written least significant byte first.
- The set of registered venues of the health model, its scores and weights: one `Breaker` is one venue.
- Startup reconciliation: one comparison per instrument, with no state between calls.
- The signal queue, the seeded signal producer and the market data source: their outputs are parameters.
- The dispatcher's list of registrations: each run has one algorithm, told of events by its tag.
- SimulatedVenue.SimulatedExchange.Poll: the sink is not called inside the loop; the delivered events are returned in order for the caller to pass on, so a sink that calls back into the venue during a poll is not modelled.
- OrderManagement.OrderManager.OnFilled: the contract gives the state after the call and the published event; that the position moves before the event is published and the order retires after is the order of the statements, not of the contract.
- OrderIds.ShiftOrIsSum: stays within 64-bit vectors; the integer model is tied to shifts and masks by `EncodeIsShifts` and `DecodeIsShifts`.
- SignalCodec.DeserializeSignal: the source reserves room for the unchecked count before it reads the targets, so a short buffer with a huge count can throw there; the model returns None.
- Reconciliation.PeriodicReconciler.Reconcile: the venues' positions and which venues are connected are inputs of the cycle.
- Netting.NettingEngine.OnFill: asks for recorded contributions that are not zero and one per strategy, which every cycle leaves behind (`ContribsProper`).
