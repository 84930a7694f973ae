# QuantCore execution engine: a verified model

This project models the order-execution side of QuantCore and proves what its comments and
tests promise about it. It covers four parts.

- **The two-leg execution engine** (`Engine.dfy`, with its invariants in `EngineState.dfy` and what
  its steps keep in `EngineSteps.dfy`). A single-goroutine state machine that rests passive orders,
  hedges fills with market orders, retires orders by cancel and then status, parks unanswered work
  in two obligation queues, and reconciles with the broker. `OrderRegistry.dfy` has the per-order account, `FillSink.dfy` the
  position ledger, `RecoveryMachine.dfy` the degraded-operation state, `Trace.dfy` what a run did,
  `Ports.dfy` the broker and the decider as arbitrary answers, `Domain.dfy` the vocabulary.
- **The quota limiter** (`Limiter.dfy`), as a class and as a system of interleaved steps beside
  the broker's own counter.
- **The lost-response placement protocol** (`Placer.dfy`).
- **The simulated broker and the client's book** (`OrderBook.dfy`, `SimBroker.dfy`).

Classes and methods follow the source's objects and handlers; each is proved against
specification functions and value-level predicates. `dafny verify dfyconfig.toml` checks it all.

How the engine's claims are stated. `sink` is the ledger fed by every fill and amend, and `feed`
the fill stream as it was received. `totA` and `totB` are each leg's sink lots plus the signed lots
it still owes. Between handlers an engine that is not halted satisfies `totB + R * totA == drift`,
where `R` is the hedge ratio and `drift` changes only when a taker fills beyond the count the broker
had settled it at. `log` has the opens, doubts and reconciles, `closed` the end of every clip: its
target and side, how far each leg moved since its open, and how many retires were parked and acks
exceeded meanwhile. The broker keeps every request, id and terminal count it gave and counts its
refusals; the decider keeps the intents booked. The broker's answers are arbitrary, with one
assumption: a taker is never handed the id of one of the engine's passive orders (empty ids and ids
of earlier takers are allowed). Where a clause speaks of a broker that answers and accepts
everything, it is about the refusals counted during that call.

`EngineSteps.dfy` relates two records of the engine: what a step inside a handler keeps (`Later`,
`Undisturbed`, `Steady`), what a handler and a run keep (`Aged`, `Paced`), and how they compose.
An order's line remembers how many stream events came before its registration (`born`), so that
"since it was placed" is a suffix of the stream; a run never changes it while the order lives.

Lots are integers, prices reals, times integers. The book and the simulated broker count lots in
reals too. Map iteration picks keys in any order. The two concurrent requests of a taker-only open
are two independent answers committed A then B.

Where the code and its own comments disagree the model follows the code: `settleTaker`
(strategies/execengine/engine_hedge.go:105-111) and `Reconcile`
(strategies/execengine/engine_recovery.go:152-165) speak of halting, while the code defers a debt
and stays suspended; the retry gap is said to be capped at a minute, which the first gap of an
episode is not if the configured backoff is longer (`RecoveryMachine.StalledGapClosedForm` gives
the exact condition).

Two promises are false as stated and are given with a failing input and their exact condition. A
definitive rejection proves that nothing rests only when it came in the first round
(`Placer.RejectProvesNothingRests`; `Placer.RestsUnseen` builds a history for every other). The
pairing survives everything but a taker that outruns its settled count, which the engine credits
without a hedge: `EngineState.LateFillUnhedged` is such a taker, `EngineState.WhenOverfilled` says
exactly which events do it, and over a run the pair is off by exactly their sum (`Engine.Run`,
`Engine.Paired`).

## Model

| member | source | states |
|---|---|---|
| ExecEngine.Trade | strategies/execengine/engine.go:214-233 | from construction through any events in any order: unless halted, sink lots plus owed lots of LegB are minus the ratio times those of LegA, off by exactly what settled takers were shown filling past their counts on the way; every own order is exact against the run's own fill events; every open was trusted, every open but the one in hand has its end on record, as many intents were booked as clips ended booked, and each clip that ended with honest acks landed where it should; a misconfigured ratio never places anything |
| ExecEngine.Engine.Run | strategies/execengine/engine.go:337-506 | every run of events keeps the invariant; the fill stream is exactly the run's fill events, the pair is off by exactly the sum of the events' overfills at the states they met, and across any two states of the run: a halted engine stays halted and places nothing, requests, ids, answers, marks and ends are only added, orders live on with their birth and terminal count, a parked retire leaves its queue only with its terminal count and an owed hedge only for an accepted request of its leg, side and size; each intent booked is one more clip that ended booked |
| ExecEngine.Engine.Handle | strategies/execengine/engine.go:306-506 | any one event keeps the invariant and all that Run keeps; it adds itself to the stream if it is a fill, moves the pair by exactly its overfill, and counts an exceeded ack exactly when it shows one; a clip opens only on a bar from an idle engine neither halted, impaired, suspect nor unverified; a clip that is gone has exactly one end on record, with its target, side, and the retires parked and acks exceeded since its open, and its intent is booked exactly when that end says so, and unless the engine was impaired the end's moves are the legs' moves since the open; impaired mode keeps its pace or was serviced when due, a fruitless service losing no obligation, and ends only on record |
| ExecEngine.Engine.Paired | strategies/execengine/engine.go:314-336 | LegB's sink and owed lots are the drift less the ratio times LegA's: the pairing holds if and only if the drift is zero |
| EngineState.WhenOverfilled | strategies/execengine/engine.go:366-392 | an event pushes the pair if and only if it is about a settled taker and takes what was seen, capped at the size, past both what was seen before and the terminal count |
| EngineState.LateFillUnhedged | strategies/execengine/engine.go:366-392 | a taker of two lots settled at zero whose next fill is one lot breaks the pair by exactly that lot |
| ExecEngine.Engine.ExactlyOnce | strategies/execengine/engine.go:357-430 | for any own order, whatever the order of fills, acks and duplicates: seen is the lots the stream reported since the order was registered, capped at its size; credited is max(seen, final) (a taker's full size until settled); sink lots and cash equal the reported lots at their prices, none past the size, plus the lots ahead of the stream at the credit price; and a terminal count was really reported |
| ExecEngine.AnyOrderSameAccount | strategies/execengine/engine.go:357-430 | two histories whose streams reported the same about an order in any order, with the same terminal count, leave the same lots, and the same cash if and while no more was reported than placed |
| OrderRegistry.ReportsInAnyOrder | strategies/execengine/engine.go:337-363 | lots and value the stream reports for an order do not depend on the order of its events |
| ExecEngine.Engine.LedgerAddsUp | strategies/execengine/types.go:42-61 | the sink's position is the sum of all order lines and of what was booked without an id |
| ExecEngine.Engine.ObligationsHeld | strategies/execengine/engine_recovery.go:15-79 | a parked order is in the retire queue exactly once, every queued id is a passive still parked or already answered, debts are positive, and a non-empty queue means impaired or halted |
| ExecEngine.Engine.NoPassiveLegB | strategies/execengine/engine_hedge.go:185-214 | at a hedge ratio above one no reachable registry holds a passive on LegB, so the branch that cannot convert a LegB stray is dead |
| ExecEngine.Engine.NoOrphans | strategies/execengine/engine_orders.go:53-68 | every passive whose terminal count is unknown is either parked in the retire queue or one of the working clip's two orders |
| ExecEngine.Engine.NoOvershoot | strategies/execengine/engine_clip.go:263-297 | while since its open no retire was parked and no fill exceeded a reported count, each leg of the working clip has moved by exactly the maker's fills (times the ratio on LegB), short of the target |
| ExecEngine.Engine.ClipsNeverOvershoot | strategies/execengine/engine_clip.go:141-297 | every clip so far that ended not halted, with no retire parked and no ack exceeded since its open, moved LegA by some x in its direction and LegB by the hedge of x, with x the target when booked and between zero and the target when not; opens are as many as ends, plus the clip in hand |
| ExecEngine.Engine.constructor | strategies/execengine/engine.go:214-233 | a ratio with both legs resting starts halted, anything else starts clean |
| ExecEngine.Engine.StartsSound | strategies/execengine/engine.go:214-233 | a new engine satisfies the whole invariant |
| ExecEngine.Engine.OnFill | strategies/execengine/engine.go:337-506 | one event is added to the stream and to its order's line; foreign or empty events change nothing else, taker fills place nothing, an ack is counted exceeded exactly when it was, and the pair moves only by an overfill |
| ExecEngine.Engine.OnTakerFill | strategies/execengine/engine.go:366-392 | a taker fill never pairs; only lots past its settled count move the pair, by their weight, and nothing is placed |
| ExecEngine.Engine.OnSettledFill | strategies/execengine/engine.go:393-422 | an event on a retired passive within its terminal count places nothing and moves nothing; lots beyond it are pair-hedged, both legs moving by exactly them |
| ExecEngine.Engine.OnStrayFill | strategies/execengine/engine.go:426-457 | a live fill no clip accounts for belongs to a parked order and is hedged at once: both legs move by exactly its lots |
| ExecEngine.Engine.OnMakerFill | strategies/execengine/engine.go:440-505 | below target and with a counterpart that did not run ahead, the clip goes on with its count raised and both legs moved by exactly the fill; otherwise it ends on record, with both legs moved by at least the fill and what the counterpart was caught with, booked at its target or more unless an opening partial is kept |
| ExecEngine.Engine.FoldLive | strategies/execengine/engine.go:423-430 | all accepted lots of a live order are new: seen, folded, credited and the sink move together |
| ExecEngine.Engine.FoldOverlap | strategies/execengine/engine.go:366-416 | lots already credited are only re-priced, lots beyond the terminal count are booked new |
| ExecEngine.Engine.DropEvent | strategies/execengine/engine.go:357-363 | a re-delivered event past the placed size changes nothing but the delivery count |
| ExecEngine.Engine.FirstFill | strategies/execengine/engine.go:458-494 | at the first fill the counterpart is retired, never catching more than the target, and both legs land at one size: the maker's fill while below target, or, if the counterpart ran ahead or the target is met, the clip's end, booked unless an opening partial is kept |
| ExecEngine.Engine.RetireCounterpart | strategies/execengine/engine.go:458-463 | the counterpart's full executed count is what the sink is credited, never more than the target nor than its order had open |
| ExecEngine.Engine.MatchFirst | strategies/execengine/engine.go:490-505 | the counterpart is topped up in its own contracts so that both legs have moved by exactly the maker's first fill, plus lots a commit's last cancel caught when the clip is full |
| ExecEngine.Engine.Overrun | strategies/execengine/engine.go:464-489 | a counterpart that ran ahead ends the clip: both legs land at one size, at least the target and each leg's lots and committed, or, for an opening clip that keeps partials, at no more than the cancels could catch |
| ExecEngine.Engine.LaterFill | strategies/execengine/engine.go:495-505 | each later maker increment moves both legs by exactly its lots (times the ratio on LegB), and a full maker commits the clip |
| ExecEngine.Engine.AfterIncrement | strategies/execengine/engine.go:500-505 | the clip is committed exactly when the maker has filled the target, and otherwise left as it is |
| ExecEngine.Engine.SettleClip | strategies/execengine/engine_clip.go:273-297 | both legs are retired and land level at one size, at least each leg's realized lots and the target when completing, at most what the cancels could still catch; halted, nothing is placed |
| ExecEngine.Engine.RetireLegs | strategies/execengine/engine_clip.go:278-279 | each leg moves by exactly the gap its cancel caught and no order of the clip stays live |
| ExecEngine.Engine.CancelClip | strategies/execengine/engine_clip.go:255-261 | the clip is gone and its end on record, both legs moved by the same lots, and nothing is booked |
| ExecEngine.Engine.CommitClip | strategies/execengine/engine_clip.go:199-222 | the intent is booked once and the end recorded; lots the maker's late cancel catches are matched, so both legs move as a pair |
| ExecEngine.Engine.CompletePair | strategies/execengine/engine_clip.go:183-191 | whatever each leg had realized, takers land both legs at one size: the target, or more only where a leg had or was still caught with more; the clip is committed |
| ExecEngine.Engine.CompleteClip | strategies/execengine/engine_clip.go:239-249 | both legs move by the lots the maker was short of the target, or by more only where a cancel caught more, and the intent is committed |
| ExecEngine.Engine.AbandonClip | strategies/execengine/engine_clip.go:171-192 | an unfilled clip is dropped without a move, or, if its cancels caught fills, completed to at least its target and committed (an opening clip keeps the level partial instead) |
| ExecEngine.Engine.ResolveClip | strategies/execengine/engine_clip.go:141-159 | an unwanted clip ends in exactly one of booked with the target reached, kept level as a partial, or dropped unmoved, as its kind and the configuration say |
| ExecEngine.Engine.CheckTimeout | strategies/execengine/engine_clip.go:227-233 | no clip survives its deadline |
| ExecEngine.Engine.ManageWorkingClip | strategies/execengine/engine_clip.go:75-86 | a clip is kept untouched or disposed of |
| ExecEngine.Engine.PullIfUnwanted | strategies/execengine/engine_clip.go:106-121 | a clip is kept untouched or cancelled without a commit |
| ExecEngine.Engine.OnState | strategies/execengine/engine_clip.go:21-67 | halted it does nothing; otherwise obligations were serviced and, outside doubt, every watched taker had its look, and a clip opens only if the engine was idle, not impaired, not suspect and not unverified before the bar |
| ExecEngine.Engine.TendObligations | strategies/execengine/engine_clip.go:21-36 | a bar or tick first services obligations, then looks at takers: unless halted or in doubt every watched taker had its look, an impaired engine's clip is pulled on record, and an impaired engine ends impaired or in doubt |
| ExecEngine.Engine.TryOpenClip | strategies/execengine/engine_clip.go:302-341 | an opening clip is attempted once at its asked size; only a definitively rejected close is retried, smaller and never below the floor; attempts are counted, and the first is on record with what its gate saw |
| ExecEngine.Engine.OpenClip | strategies/execengine/engine_clip.go:383-449 | every attempt passes the gate and is marked with it; a clip left working has the asked size, direction and a resting shape with nothing moved yet; it is retryable if and only if it is a close whose first passive request was definitively rejected, and then nothing changed |
| ExecEngine.Engine.RestBoth | strategies/execengine/engine_clip.go:416-448 | both legs rest under two live ids of their own, or the open has its end on record; LegA's own error is handed back, and a refused LegB pulls LegA again |
| ExecEngine.Engine.Unwind | strategies/execengine/engine_clip.go:427-432 | lots the lone LegA order caught before its cancel, at most the target, are matched on LegB, and the clip's end is recorded |
| ExecEngine.Engine.PlaceLeg | strategies/execengine/engine_clip.go:543-583 | a passive is registered with a fresh account, or the registry is untouched; an empty or reused id, and nothing else, fails as possibly delivered with the book in doubt on record |
| ExecEngine.Engine.OpenTakerOnlyClip | strategies/execengine/engine_clip.go:476-539 | both legs move by exactly the clip (LegB times the ratio) whatever the two raced answers were, and the intent is booked at the size acted on; halted, nothing moves |
| ExecEngine.Engine.CrossBoth | strategies/execengine/engine_clip.go:494-529 | each leg ends with its full size placed or owed, and owes nothing new unless the broker refused something |
| Domain.ShapeResolved | strategies/execengine/engine_clip.go:358-375 | a clip always gets a concrete shape, the intent's own where possible, and LegB never rests at a ratio above one |
| ExecEngine.Engine.TakerRetry | strategies/execengine/engine_hedge.go:221-257 | lots placed plus new debt are the lots asked for, and there is new debt only if the broker refused something; halted, nothing is placed |
| ExecEngine.Engine.TakerRetryFrom | strategies/execengine/engine_hedge.go:248-257 | the shrinking and the same-size attempts form one chase, and the debt is what it could not place |
| ExecEngine.Engine.TakerRetryPlain | strategies/execengine/engine_hedge.go:269-281 | same-size attempts continue a chase and end in one accepted order or one debt of the whole remainder |
| ExecEngine.Engine.ShrinkTakerChase | strategies/execengine/engine_hedge.go:290-315 | accepted parts add up to what was taken off the remainder, which terminates within the asked lots |
| Trace.UnknownNeverShrinks | strategies/execengine/engine_hedge.go:283-315 | after an answer of unknown fate every later attempt of the chase asks for the whole remainder |
| Trace.ChaseBounded | strategies/execengine/engine_hedge.go:290-315 | a chase never takes more than was owed |
| ExecEngine.Engine.CommitTakerPlacement | strategies/execengine/engine_hedge.go:342-400 | an accepted taker is credited in full at once, tracked or blind; an empty or reused id, and nothing else, puts the book in doubt on record, and without doubt no other order is disturbed |
| ExecEngine.Engine.HedgeStrayMakerFill | strategies/execengine/engine_hedge.go:185-214 | the other leg gets the opposite side in its own contracts, unless halted or a LegB count at a ratio |
| ExecEngine.Engine.SettleTaker | strategies/execengine/engine_hedge.go:112-150 | the phantom lots leave and the shortfall is placed or owed, so the pair is where it was; after three dead takers in a row the shortfall is only owed; the taker leaves the watch list settled |
| ExecEngine.Engine.CloseTakerAccount | strategies/execengine/engine_hedge.go:112-136 | the settled count is the reported one clamped into what was seen and placed, and the credit above it is reversed |
| ExecEngine.Engine.CheckPendingTakers | strategies/execengine/engine_hedge.go:33-72 | unless halted or in doubt, every watched taker had its look in the pass: a probe if one was due, and it leaves the list exactly when settled; the pair does not move |
| ExecEngine.Engine.CheckOneTaker | strategies/execengine/engine_hedge.go:36-71 | a terminal answer settles the taker, a fully seen one is settled by arithmetic, a due one is probed |
| ExecEngine.Engine.ConfirmDeadTaker | strategies/execengine/engine_hedge.go:95-103 | a taker reported dead is settled with a count of the broker's and off the watch list, or is only flagged for the watchdog; the pair does not move |
| ExecEngine.Engine.RetireOrder | strategies/execengine/engine_orders.go:69-106 | the order is no longer live: its gap is booked and returned, exactly the terminal count above what was acted on and never more than it had open, or, unanswered, it is parked once and counts nothing |
| ExecEngine.Engine.FinishRetire | strategies/execengine/engine_orders.go:112-139 | the terminal count is clamped to the placed size and only lots not yet credited are credited, at the resting price |
| ExecEngine.Engine.SettleRetired | strategies/execengine/engine_orders.go:100-139 | folding a terminal count keeps the account exact, settles it at the count clamped to its size, and books exactly the gap |
| ExecEngine.Engine.OnOrderStatus | strategies/execengine/engine_orders.go:20-51 | a live taker reported dead is confirmed; a parked passive is settled unless a cancel went unanswered; a dead leg of the clip, not yet settled, takes it down on record and unbooked; any other report changes nothing |
| ExecEngine.Engine.DeferRetire | strategies/execengine/engine_recovery.go:15-21 | an unanswered order is parked at most once, and counted when it is |
| ExecEngine.Engine.DeferHedge | strategies/execengine/engine_recovery.go:26-28 | the debt counts toward the pair until it is placed |
| ExecEngine.Engine.ServiceImpaired | strategies/execengine/engine_recovery.go:35-79 | nothing unless impaired; then the clip is pulled on record and, before the retry time, nothing else; at it, one pass over both queues: it made progress exactly when a retire or a debt left its queue, otherwise both stay as they were, and the gap doubles up to the ceiling or returns to the base accordingly; impaired ends only with both queues empty, then unverified, and always so when the broker refused nothing |
| ExecEngine.Engine.RetryRetires | strategies/execengine/engine_recovery.go:50-60 | the queue keeps exactly the unanswered: what leaves has its terminal count, about what stays the broker said nothing, and resolving moves both legs as a pair; it progressed exactly when the queue got shorter |
| ExecEngine.Engine.RetryDebts | strategies/execengine/engine_recovery.go:61-71 | each owed hedge is asked for once, in order, and exactly those not accepted stay, in order; the pair does not move; it progressed exactly when the queue got shorter |
| EngineState.UnpaidHeld | strategies/execengine/engine_recovery.go:61-71 | of each debt, as many leave the queue as requests of its leg, side and size were accepted |
| ExecEngine.Engine.EndImpaired | strategies/execengine/engine_recovery.go:72-79 | leaving impaired mode is put on record and enters the unverified gate |
| ExecEngine.Engine.BoundedPace | strategies/execengine/recoverymachine/recoverymachine.go:129-163 | in an episode the retry gap is the base doubled once for each fruitless pass since it began or last made progress, up to the ceiling, exactly unless it is the first gap and the base is above the ceiling |
| ExecEngine.Engine.TryDeferredRetire | strategies/execengine/engine_recovery.go:86-111 | an answer settles the order and pair-hedges what it reveals; no answer changes nothing |
| ExecEngine.Engine.Halt | strategies/execengine/engine_recovery.go:145-150 | the clip is pulled, the engine is halted for good, and not one order is placed doing so |
| ExecEngine.Engine.Reconcile | strategies/execengine/engine_recovery.go:166-201 | doubt is lifted exactly by a match of (P, -R*P) on an idle, healthy engine; any mismatch suspends and none halts |
| ExecEngine.Engine.OpensTrusted | strategies/execengine/engine_clip.go:42-67 | in any run no clip was opened at a divergence or with a taker overdue, and between an untrackable id or the end of impaired mode and a later open lies a reconcile in which the broker held exactly P and -R*P |
| Trace.TrustedOpens | strategies/execengine/engine_clip.go:42-67 | the same about any mark log that obeys the gates |
| EngineState.FilterDone | strategies/execengine/engine_recovery.go:50-60 | filtering the retire queue loses no order without a terminal count |
| EngineState.QueuedOnce | strategies/execengine/engine_recovery.go:15-21 | membership of the queue means exactly one entry |
| ExecEngine.Engine.OnBook | strategies/execengine/engine_quote.go:17-24 | a book update never creates a clip and does nothing while halted; a clip goes on on its own terms or ends on record |
| ExecEngine.Engine.MaybeRepeg | strategies/execengine/engine_quote.go:41-60 | only a resting leg the clip's shape rests, of a clip no one has filled, is moved; otherwise nothing happens |
| ExecEngine.Engine.RepegLeg | strategies/execengine/engine_quote.go:66-128 | re-posting never rests on an unconfirmed predecessor: a caught fill completes the clip to at least its target, an unanswered cancel stops the re-peg with nothing placed, a dead predecessor is replaced by a fresh order of the clip's size on its side, and a refused placement drops the clip level; the pair never moves otherwise |
| ExecEngine.Engine.CheckStaleBooks | strategies/execengine/engine_quote.go:136-146 | a stale book disposes of the clip as a lost signal does, or changes nothing |
| ExecEngine.Engine.OnTick | strategies/execengine/engine.go:306-312 | unless halted or in doubt every watched taker had its look at the current time, no clip outlives its deadline, and nothing is placed while halted |
| OrderRegistry.OverlapFill | strategies/execengine/engine.go:374-416 | re-pricing the overlap and booking the excess keeps the order's cash exact |
| OrderRegistry.Reversal | strategies/execengine/engine_hedge.go:126-136 | a dead taker's phantom lots leave cash exactly as they came |
| OrderRegistry.RetireKeepsAccount | strategies/execengine/engine_orders.go:112-139 | a cancel-ack keeps count and cash exact, and the credit it adds is the gap |
| OrderRegistry.OverlapKeepsAccount | strategies/execengine/engine.go:366-416 | an overlapping event keeps count and cash exact for takers and settled passives alike |
| OrderRegistry.LiveKeepsAccount | strategies/execengine/engine.go:423-430 | a live fill keeps count and cash exact |
| OrderRegistry.SettleKeepsTaker | strategies/execengine/engine_hedge.go:112-136 | settling a taker keeps count and cash exact |
| OrderRegistry.CaughtUpCash | strategies/execengine/engine_orders.go:130-138 | once the stream has caught up only true fill prices are left |
| OrderRegistry.ValueIsProduct | strategies/execengine/engine.go:386-397 | repeated addition of a price is lots times price |
| FillSink.TotalUpdate | strategies/execengine/types.go:42-61 | replacing one order's line moves the ledger total by exactly the difference |
| FillSink.Ledger.Fill | strategies/execengine/types.go:58-61 | a tracked fill moves the position and its order line alike |
| FillSink.Ledger.Amend | strategies/execengine/types.go:58-61 | an amend never moves inventory |
| RecoveryMachine.Machine.EnterImpaired | strategies/execengine/recoverymachine/recoverymachine.go:129-137 | the episode's pace starts at the backoff and a running episode is not restarted; halted, it never starts |
| RecoveryMachine.Machine.AdvancePace | strategies/execengine/recoverymachine/recoverymachine.go:156-163 | the next retry follows the pace law from now, and fruitless passes are counted |
| RecoveryMachine.StalledGapClosedForm | strategies/execengine/recoverymachine/recoverymachine.go:154-163 | after k fruitless passes the gap is min(base * 2^k, ceiling), exactly when k > 0 or the base is within the ceiling |
| Limiter.NeverOverestimates | strategies/execengine/limiter.go:90-189 | for every interleaving of placements, bookings, lost spends, late or repeated answers and broker refills: from an applied Set until its reset, local remaining is at most the broker's plus the operations not booked yet |
| Limiter.RunKeepsWorld | strategies/execengine/limiter.go:90-189 | the invariant behind it, over every run of steps |
| Limiter.AppliedUntilReset | strategies/execengine/limiter.go:144-157 | an applied Set stops counting only by a local rollover at its reported end |
| Limiter.SupersededForGood | strategies/execengine/limiter.go:99-137 | once a newer answer was applied or, in fail-safe mode, the window it was asked in is over, a poll's answer changes nothing, after any further steps and however often delivered |
| Limiter.RolloverSupersedes | strategies/execengine/limiter.go:99-157 | a local rollover does that, for good, to every poll asked before it |
| Limiter.SameWindowNeverRises | strategies/execengine/limiter.go:119-141 | within one reported window the local view never goes up |
| Limiter.HedgeReserve | strategies/execengine/limiter.go:144-189 | without a refresher remaining is the budget less everything spent in the window, and granted opens never exceed the budget less the margin, under any ungated hedges |
| Limiter.ReserveFromStart | strategies/execengine/limiter.go:81-86 | the reserve holds from a new limiter on |
| Limiter.QuotaLimiter.constructor | strategies/execengine/limiter.go:72-86 | a new limiter knows nothing and always has a positive window |
| Limiter.QuotaLimiter.Set | strategies/execengine/limiter.go:125-142 | the method refines the step the theorems are about |
| Limiter.QuotaLimiter.Spend | strategies/execengine/limiter.go:181-189 | the window is rolled over before the debit, and the spend count is monotone |
| Limiter.QuotaLimiter.Allow | strategies/execengine/limiter.go:162-173 | a grant leaves the margin in reserve and debits nothing |
| Limiter.QuotaLimiter.RefreshWindow | strategies/execengine/limiter.go:148-157 | the budget is restored only when the window has elapsed |
| Placer.Placer.PlaceResolved | finambroker/finambroker.go:207-257 | one call creates at most one order and it matches what was asked; every attempt and probe carries the one id; each was made only after everything before was inconclusive; success is the broker's own order or a matching listed one; exhaustion keeps round 0's error as possibly delivered; a round-0 rejection leaves nothing |
| Placer.Placer.ProbeRound | finambroker/finambroker.go:225-239 | up to three looks; a match adopts the listed order, with an honest list the one really created |
| Placer.Placer.NextClientId | finambroker/finambroker.go:178-181 | the minted id was never used before |
| Placer.RejectProvesNothingRests | finambroker/finambroker.go:192-219 | a rejected call proves that nothing rests, over all histories that agree with every answer and probe, if and only if it was rejected in its first round (an honest broker having listed a stranger meanwhile is impossible) |
| Placer.AmbiguousWhenNothingSettled | strategies/execengine/broker_errors.go:64-73 | the error handed to the engine is possibly delivered exactly when no attempt and no probe ever settled the order's fate |
| Placer.Broker.Place | brokersim/orders.go:62-126 | the broker admits a client id at most once, and a definitive error admits nothing |
| OrderBook.DiffSide | brokersim/book.go:124-149 | whatever the map order, the rows take the old side to exactly the new levels, once per price |
| OrderBook.DeltaOrderIrrelevant | brokersim/book.go:124-149 | two orders of the same delta leave a follower with the same side |
| OrderBook.SymbolState.SetBook | brokersim/book.go:116-121 | a follower of the old book that applies the rows has the new book |
| OrderBook.SymbolState.SnapshotRows | brokersim/book.go:87-96 | the snapshot rebuilds the whole book from nothing |
| OrderBook.SortedPrices | brokersim/book.go:98-112 | all and only the prices with volume, strictly best first |
| OrderBook.BestPrice | brokersim/book.go:49-61 | the best price with volume, or none when there is none |
| OrderBook.SymbolState.ConsumeBounded | brokersim/book.go:154-185 | greedy along the sorted prices within the limit, the book loses exactly the fills, and the rows take a follower along |
| OrderBook.GreedyIsExact | brokersim/book.go:154-185 | a taker gets the smaller of its lots and the volume its limit reaches |
| OrderBook.PricePriority | brokersim/book.go:154-185 | no level is touched before every better one is taken whole |
| OrderBook.GreedyIsOptimal | brokersim/book.go:154-185 | no other selection of as many lots from the book is cheaper for a buyer or richer for a seller |
| OrderBook.LosesWhatIsFilled | brokersim/book.go:173-181 | each level loses exactly what was filled at it and vanishes when that was all |
| OrderBook.SymbolState.CrossRows | brokersim/book.go:190-205 | the injected bid crosses any non-empty ask side |
| OrderBook.Replica.ApplyOne | trade/finam/orderbook.go:147-182 | one row changes one level of one side; a REMOVE or an empty size deletes it |
| OrderBook.SortedLevels | trade/finam/orderbook.go:186-200 | all and only the non-empty levels, strictly best first |
| OrderBook.Replica.Fold | trade/finam/orderbook.go:276-311 | a snapshot is emitted exactly when the book is not crossed, sorted and positive; fifty crossed messages in a row force a resync |
| OrderBook.Follow | trade/finam/orderbook.go:214-311 | through any sets, consumptions and crossings of a book, a client that takes the snapshot and every later message, and subscribes anew when it must, holds exactly the server's book; every emission is that book, sorted, positive and uncrossed, and it resynchronizes only after fifty crossed books in a row |
| OrderBook.NotCrossed | trade/finam/orderbook.go:206-208 | comparing the two best levels decides whether any bid is above any ask |
| OrderBook.ReplicaAgrees | trade/finam/orderbook.go:276-289 | after the snapshot and all deltas of any server history the client holds exactly the server's book; Follow shows that the operations produce such a history |
| SimBroker.ApplyFill | brokersim/orders.go:258-292 | the quantity moves by the signed lots and cash less book cost falls by what was paid; averaging in leaves cash alone, a partial close keeps the average, an exact close is flat, a flip opens at the trade price |
| SimBroker.MarkToMarket | brokersim/orders.go:258-292 | at every mark price equity is the starting equity plus the signed lots times their distance to the mark, over any fills |
| SimBroker.Sim.Fill | brokersim/orders.go:217-254 | one fill, clamped to what is left, moves order, trade list, position and cash together; a terminal order does not change |
| SimBroker.Sim.TakerExec | brokersim/orders.go:193-213 | a taker executes the smaller of its rest and the reachable volume; a market order never stays active, and an empty one is rejected |
| SimBroker.Sim.ExecOrder | brokersim/orders.go:147-189 | a post-only order never trades and is rejected whole if it would cross; a limit order that does not cross is left alone |
| SimBroker.Sim.PlaceOrder | brokersim/orders.go:30-126 | each error exactly when its condition holds; a client id is admitted once per account; the quota of the window is respected |
| SimBroker.Sim.CancelOrder | brokersim/orders.go:305-368 | only a live order of that account changes, and only its status |
| SimBroker.Sim.FinishCancel | brokersim/orders.go:336-349 | a deferred cancel ends what is still active and nothing else |
| SimBroker.Sim.MatchPrint | brokersim/marketdata.go:67-92 | touched limits are filled first come, first served, for the print's size or all they could take |
| SimBroker.Sim.PrintStep | brokersim/marketdata.go:72-91 | a touched order gets the smaller of its rest and the print's, at its own limit |
| SimBroker.Sim.OrdersByTime | brokersim/marketdata.go:95-112 | every active order once, in the order placed |
| SimBroker.SortByTime | brokersim/marketdata.go:104-111 | the in-place insertion sort permutes and orders by placement time |
| SimBroker.Sim.FillOrder | brokersim/control.go:405-437 | a forced fill is one matched trade on an active order, the whole rest by default |
| SimBroker.Sim.InjectFill | brokersim/control.go:459-486 | an injected fill moves position and cash but never the order |
| SimBroker.Sim.KillOrder | brokersim/control.go:506-526 | only an active order is ended, and only its status changes |
| SimBroker.Sim.SetPosition | brokersim/control.go:550-567 | a forced position restarts the account's origin and touches nothing else |

## Left out

- Backtest configuration without a fill sink: the live engine, whose sink is always installed, is modelled; without one `Credited` stays zero and the ledger claims do not apply.
- Quote book, touch validity, staleness timing, re-peg throttling, MinRest and open backoff: arbitrary answers of `Ports.Desk`, since no claim here depends on them.
- The engine's calls of the rate limiter: `Allow` is an arbitrary answer in the engine, `Spend` is not called there; the limiter is modelled on its own.
- The decider's own lot book and persistence: only the sequence of booked intents is kept; its position is an arbitrary answer.
- Negative executed counts and hand-built accounts without a placed size: cancel and status answers are natural numbers, and every account has a positive size, as every placement makes it.
- A taker that is handed the id of one of the engine's passive orders: excluded by assumption, because it replaces a live account.
- ExecEngine.Engine.OnTakerFill: lots beyond a settled taker's terminal count are credited without a hedge, as the code does; the pairing claim carries them as `drift`.
- ExecEngine.Engine.CheckPendingTakers: that every watched taker had its look, there and for a bar or a tick, is stated for a pass that ends neither halted nor unverified, because a reused id replaces the account under the watchdog.
- ExecEngine.Engine.Handle: the pair's move over a whole event is the drift; how far each leg moved is stated by the methods an event goes through, since one event may both end a clip and settle parked orders.
- ExecEngine.Engine.OnBook: whether a due re-peg is carried out is up to the desk's arbitrary answer.
- Log lines, critical messages, heartbeats, reconnects and operator reports of the engine's state.
- Placer.Placer.NextClientId: the unix-seconds part of the id is dropped; uniqueness in one process comes from the counter and across processes from the nonce, as assumed of other orders at construction.
- Pauses between probes and rounds, and the text of the final error.
- Equality of limiter spends with raw broker requests: `Spend` counts port calls, not the placer's internal retries.
- Fault injection, token expiry, sessions, auto-market randomness and HTTP or gRPC plumbing of the simulated broker.
- SimBroker.Sim.PlaceOrder: one symbol and its book; unknown symbols, over-long client ids and generated client ids are not modelled.
- Decimal strings and float rounding: sizes and prices survive transport exactly.
- OrderBook.Follow: a full subscription channel drops whole messages in the source; agreement is stated for a client that receives all of them. Heartbeat timeouts and stream errors, after which the client subscribes anew, are not modelled; a crossed book that persists is.
- `calculateExecutionPrice`, `sendKeepNewest` and the trade-id dedup: only easy members.
