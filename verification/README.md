# Dispatch, billing and sessions of a transport platform

A model of the parts of a NestJS backend that several requests change at once,
and of the self-contained algorithms beside them, with proofs.

* **Dispatch and billing** (`Tables`, `Dispatch`, `Billing`, `Protocol`,
  `Theorems`, `Coverage`, `Cascade`, `Scenarios` and the invariants): orders, drivers, assignments, offers, payments,
  refunds and credit lines as one set of tables. Every committed transaction is
  one atomic step, and steps of any number of requests interleave freely. The
  dispatch, offer and ledger invariants are inductive; the theorems are about
  every reachable state. The code states none of these invariants, though its
  unchecked updates rely on them. `Transitions`, `DispatchOutcomes` and
  `BillingOutcomes` say row by row what each step does, apart from the functions
  that define the steps, in the states the invariant `Inv` holds in, which every
  reachable state is (`Theorems.ReachedInv`).
* **The services** (`Storage`, `Assignments`, `Offers`, `Payments`, `Refunds`,
  `Customers`, `Trips`): classes that change the tables row by row by conditional
  updates, as the source does, each method proved to do exactly its protocol step
  or to leave every table as it was. `Refusals` says which error each refusal carries.
* **Refresh tokens** (`Sessions`, `SessionRuns`, `SessionTheorems`, `SessionOutcomes`): find,
  compare-and-set, grace read and revocation are separate steps of any number of
  concurrent calls, with a moving clock.
* **Presence** (`Presence`, `PresenceRuns`, `PresenceOutcomes`), **ranking** (`Matching`,
  `Scoring`, `MatchingTheorems`, `RankingOutcomes`, `SearchOutcomes`, `PresenceRanking`,
  `Sorting`) and **the dispatch sweep** (`Scheduler`, `SchedulerRuns`, `SweepOutcomes`).
* **Polyline encoding** (`Polyline`), **demand** (`DemandBands`, `BandOutcomes`, `Demand`,
  `DemandOutcomes`), **fares** (`Fare`, `FareOutcomes`, `Numbers`) and the **TTL cache**
  (`TtlCaching`).

Money is in integer cents, except in the fare formula, which is in exact reals.
Time is in integer milliseconds.

Nine promises a reader could expect of the code turned out to need a condition.
Each has a failing input and the exact condition:

* The presence index equals a scan of the records only when nine presence TTLs
  cover the 30 s of clock skew, so not with a `PRESENCE_TTL_SEC` under 4; the
  settings accept any positive value (`PresenceRuns.IndexMatchesScanIffSkewFits`,
  `PresenceRuns.OutlivingIsReported`).
* Quotes inside one demand tick agree only when twice `DEMAND_WINDOW_SEC` covers
  the tick, so not under 30; the settings accept any positive value
  (`Demand.TickIsStableIff`, `Demand.ShortWindowForgets`).
* A reached demand band is dropped at once by a quote under the observation floor,
  and loses its margin when the state is too old to read
  (`Demand.BandSurvivesIff`, `Demand.QuietQuoteDropsBand`).
* A session's `expiresAt` falls when an older price is written, which takes two
  refreshes in the second the token was signed in
  (`SessionTheorems.ExpiryFallsIffOlderPrice`, `SessionTheorems.ExpiryCanFall`).
* A refund leaves the order's payment status as it was unless the order is
  cancelled and holds no more money, so an order can be assigned with nothing
  settled (`Coverage.StepUncoversIff`, `Coverage.DriverIsSentWithoutMoney`).
* Overlapping attempts of the automatic cascade offer an order to a driver twice
  when one inserts on a read the other made stale
  (`Cascade.OfferedOnceIffNeverStale`, `Cascade.OverlappingAttemptsRepeat`).
* A wake-up that failed and is retained keeps its minute slot, so an order that
  opens later in that minute is not woken (`SchedulerRuns.SweepIsSafeIff`,
  `SchedulerRuns.FailedJobTakesItsSlot`).
* An arming that lands between the reads of a sweep and its disarming is erased, so
  a paid order may wait with nothing to wake the sweep
  (`SchedulerRuns.DisarmIsSafeIff`, `SchedulerRuns.ArmingIsErased`).
* A polyline value survives the encoder only when it is a 31-bit value, which every
  difference of coordinates on Earth is (`Polyline.ValueRoundTrip`).

`dafny verify dfyconfig.toml` checks everything.

## Model

| member | source | states |
|---|---|---|
| Protocol.StepKeeps | src/modules/operations/assignments/assignments.service.ts:276-324 | every committed step of dispatch and billing keeps the dispatch, offer and ledger invariants together, and only extends history |
| Protocol.RunKeeps | src/modules/operations/assignments/assignments.service.ts:409-458 | so does every run, over any interleaving of any number of requests |
| Theorems.OneTripPerDriver | src/modules/operations/assignments/assignments.service.ts:276-324 | in every reachable state as many drivers are BUSY as assignments are PENDING or ACCEPTED, and no driver or order has two of those |
| DispatchInvariants.BusyDriversMatchLiveAssignments | src/modules/operations/assignments/assignments.service.ts:296-309 | BUSY drivers and live assignments are equally many |
| Theorems.OrderFollowsAssignment | src/modules/operations/assignments/assignments.service.ts:480-534 | an order is ASSIGNED exactly when it has a PENDING assignment; an ACCEPTED one means ACCEPTED or IN_PROGRESS; an order with either is never waiting for dispatch |
| Theorems.RejectReopens | src/modules/operations/assignments/assignments.service.ts:536-577 | the order update whose count reject does not look at always moves the row: the order is REQUESTED and the driver free afterwards |
| DispatchInvariants.CancelOrderKeeps | src/modules/transport/orders/orders.service.ts:1417-1449 | cancelling an order closes its assignments and frees exactly the drivers that held them, so the invariant survives |
| DispatchInvariants.DeliverKeeps | src/modules/transport/orders/orders.service.ts:928-976 | delivering an order completes its live assignment and frees the driver without breaking the invariant |
| Theorems.OffersAreSound | src/modules/operations/offers/offers.service.ts:356-409 | an ACCEPTED offer, and no other, names an assignment of the same order, driver and vehicle; none is shared; at most one offer per order is PENDING |
| Theorems.AnswerIsFinal | src/modules/operations/offers/offers.service.ts:411-460 | an offer leaves PENDING once and its row never changes again |
| Theorems.CascadeOffersOnce | src/modules/operations/offers/offers.service.ts:254-350 | with each attempt atomic no driver gets two AUTO offers of one order |
| Theorems.CascadeTerminates | src/modules/operations/offers/offers.service.ts:254-350 | so an order gets at most as many AUTO offers as there are drivers |
| Theorems.AttemptShrinksChoice | src/modules/operations/offers/offers.service.ts:266-319 | an attempt that opens an offer takes its driver out of the ones not offered yet |
| Cascade.OfferedOnceIffNeverStale | src/modules/operations/offers/offers.service.ts:266-326 | with the read and the insert of an attempt apart and any steps between them: no driver gets two AUTO offers of one order exactly when no attempt inserts after another offered the order to the same driver since it read |
| Cascade.OverlappingAttemptsRepeat | src/modules/operations/offers/offers.service.ts:266-319 | and that happens: from the empty tables, two attempts rank before either inserts, the first offer is rejected, and the driver is offered the order again |
| Theorems.DispatchIsBacked | src/modules/operations/assignments/assignments.service.ts:277-287 | every step that creates an assignment finds an order that collected its whole total |
| Theorems.PaidMeansCovered | src/modules/billing/payments/payments.service.ts:1249-1303 | in runs where no refund succeeds, an order PAID or AUTHORIZED has settled payments of at least its total |
| Theorems.DispatchIsCovered | src/modules/operations/assignments/assignments.service.ts:277-287 | so in such runs every assignment is created for an order that settled payments cover |
| Coverage.StepUncoversIff | src/modules/billing/refunds/refunds.service.ts:232-288 | a step leaves a covered order PAID or AUTHORIZED and uncovered exactly when it confirms a pending refund that completes the return of a settled payment the order needs, and the order is not cancelled or another payment of it is PAID or AUTHORIZED |
| Coverage.EverUnbackedIff | src/modules/billing/refunds/refunds.service.ts:261-287 | so in any run an order is ever PAID or AUTHORIZED without the money for it exactly when such a refund was confirmed for it |
| Theorems.FullRefund | src/modules/billing/refunds/refunds.service.ts:77-145 | asking back and returning the whole of an authorized check leaves it REFUNDED and the order untouched |
| Coverage.DriverIsSentWithoutMoney | src/modules/billing/refunds/refunds.service.ts:232-288 | from the empty tables: an order is paid by check, the check is returned, and a driver is assigned with nothing settled |
| Theorems.RefundLeavesOrderDispatchable | src/modules/billing/refunds/refunds.service.ts:232-288 | the premise of Theorems.PaidMeansCovered is needed: after a full refund of the check it waits on, an order keeps its AUTHORIZED status and can still be assigned with nothing settled |
| Theorems.LedgerBalances | src/modules/billing/payments/payments.service.ts:768-848 | a payment has at most one successful capture; committed refunds never exceed it; refund transactions sum to its successful refunds; it is REFUNDED exactly when those reach its amount |
| Theorems.PaidIsSettled | src/modules/billing/payments/payments.service.ts:773-812 | once PAID a payment can only become REFUNDED, whatever verify, cancel and refund steps race |
| Theorems.RefundIsFinal | src/modules/billing/refunds/refunds.service.ts:178-201 | a refund leaves PENDING once |
| Theorems.ManualAuthorizationFits | src/modules/billing/payments/payments.service.ts:1187-1247 | after a check or credit is booked the settled total is at most the order total, for any payments before it, and exactly that total unless another amount was asked for |
| Theorems.CreditReplays | src/modules/billing/payments/payments.service.ts:485-518 | an ACTIVE line has balanceUsed within its limit, balanceUsed is the sum of its AUTHORIZATION movements and equals the last balanceAfter |
| Storage.Database.ClaimOrderRow | src/modules/operations/assignments/assignments.service.ts:277-287 | the conditional update moves the row and counts one exactly when the order waits, is paid for and is free |
| Assignments.AssignmentsService.Create | src/modules/operations/assignments/assignments.service.ts:244-324 | the new tables and the exact error: missing order, not dispatchable, unfit driver, lost race; a lost race leaves every table as it was |
| Assignments.AssignmentsService.ClaimOrder | src/modules/operations/assignments/assignments.service.ts:347-458 | order, driver, assignment and, through an offer, the offer move together or nothing does; when it succeeds and with which error it fails |
| Assignments.AssignmentsService.Accept | src/modules/operations/assignments/assignments.service.ts:480-523 | the order leaves ASSIGNED and the assignment PENDING together, or nothing changes, with the exact error |
| Assignments.AssignmentsService.Reject | src/modules/operations/assignments/assignments.service.ts:536-577 | the assignment is refused, the driver freed, and under the invariant the unchecked count is one |
| Assignments.AssignmentsService.Complete | src/modules/operations/assignments/assignments.service.ts:594-617 | an accepted assignment is completed and its driver freed |
| Offers.BestIsNew | src/modules/operations/offers/offers.service.ts:266-275 | the driver the cascade picks has rank 1 and was never offered the order |
| Offers.OffersService.OfferNext | src/modules/operations/offers/offers.service.ts:254-349 | one whole attempt: nothing when off, cooling down or not waiting; else an offer to the best new driver, or a cooldown and the order back in the queue |
| Offers.OffersService.Accept | src/modules/operations/offers/offers.service.ts:356-409 | accepting succeeds exactly on an open offer of a ready driver whose order can be taken; a failing one leaves offer, order, driver and assignments unchanged |
| Offers.OffersService.Reject | src/modules/operations/offers/offers.service.ts:411-439 | a pending offer of the driver is rejected, any other is a conflict |
| Offers.OffersService.Expire | src/modules/operations/offers/offers.service.ts:442-460 | a pending offer past its deadline expires, and nothing else does |
| Offers.OffersService.ExpireDue | src/modules/operations/offers/offers.service.ts:697-706 | exactly the found rows expire, and when fewer than the page were found no due offer is left |
| Offers.OffersService.CancelPendingOffers | src/modules/operations/offers/offers.service.ts:728-749 | exactly the rows still pending are cancelled, and each is answered once |
| Offers.OffersService.ManualAssign | src/modules/operations/offers/offers.service.ts:469-562 | the refusals before any write, and the tables after each commit: a failed creation leaves the superseded offers cancelled and the order in the queue |
| ServiceRuns.ManualAssignIsRun | src/modules/operations/offers/offers.service.ts:514-559 | the commits of a manual assignment are a run of the protocol, so its invariants hold between them |
| ServiceRuns.ManualAssignKeeps | src/modules/operations/offers/offers.service.ts:530-559 | and hold again once the audit row is written |
| ServiceRuns.ExpiringIsRun | src/modules/operations/offers/offers.service.ts:697-706 | expiring a page of offers is a run of the protocol |
| Trips.DriversService.UpdateStatus | src/modules/operations/drivers/drivers.service.ts:263-303 | a driver only moves their own approved profile between AVAILABLE and OFFLINE |
| Trips.TripsService.Start | src/modules/tracking/trips/trips.service.ts:36-57 | only ACCEPTED becomes IN_PROGRESS; an order already under way is left alone; anything else is a conflict |
| Payments.PaymentsService.DispatchAuthorizedAmount | src/modules/billing/payments/payments.service.ts:1311-1334 | the loop adds up the payments an order may be dispatched on |
| Payments.PaymentsService.LockAndPrice | src/modules/billing/payments/payments.service.ts:1042-1072 | the amount to authorize, or the exact error, from fresh rows |
| Payments.PaymentsService.SyncOrderAfterPayment | src/modules/billing/payments/payments.service.ts:1249-1303 | the order's payment status follows its payments and a covered order becomes REQUESTED |
| Payments.PaymentsService.RegisterCheck | src/modules/billing/payments/payments.service.ts:325-377 | a check is booked at the price under the lock, or nothing changes |
| Payments.PaymentsService.ApproveCorporateCredit | src/modules/billing/payments/payments.service.ts:404-523 | credit is drawn only when the line as stored still has the limit that was read and room for the amount; otherwise everything is rolled back |
| Payments.PaymentsService.VerifyBySession | src/modules/billing/payments/payments.service.ts:700-848 | a session is settled by whoever comes first; a capture the order cannot use is set aside for one refund |
| Payments.PaymentsService.CannotApplyCapture | src/modules/billing/payments/payments.service.ts:1079-1113 | a capture is rejected exactly when the order is not payable or the other payments already cover it |
| Payments.PaymentsService.RequestRefundForCapture | src/modules/billing/payments/payments.service.ts:1116-1141 | one pending refund of the whole capture, unless one exists |
| Payments.PaymentsService.CancelBySession | src/modules/billing/payments/payments.service.ts:857-915 | the cancel redirect never overwrites PAID or REFUNDED |
| Refunds.RefundsService.Create | src/modules/billing/refunds/refunds.service.ts:77-155 | a refund is accepted exactly within what is left after pending and paid-out refunds |
| Refunds.RefundsService.UpdateStatus | src/modules/billing/refunds/refunds.service.ts:157-225 | a pending refund is settled once, a success needs a reference, with the exact errors |
| Refunds.RefundsService.Apply | src/modules/billing/refunds/refunds.service.ts:232-288 | a success is booked, closes a fully returned payment and a cancelled order that holds no money |
| Customers.CustomersService.UpsertCreditAccount | src/modules/identity/customers/customers.service.ts:444-505 | the limit is never set under the used balance, which is kept |
| Customers.CustomersService.RequestCreditAccount | src/modules/identity/customers/customers.service.ts:527-615 | an active line is left as it is, and refuses a limit not above its own; a blocked one is a conflict; any other becomes PENDING with its used balance kept |
| Customers.CustomersService.CloseCreditAccount | src/modules/identity/customers/customers.service.ts:982-1015 | closing keeps the used balance and writes it down, once |
| Scheduler.OfferScheduler.ScheduleWake | src/modules/operations/offers/offer-scheduler.service.ts:90-112 | a wake-up is queued unless its minute slot holds a job, waiting or retained after a failure; it fires at the time asked for, or at once when that is past |
| Scheduler.OfferScheduler.ProcessWake | src/modules/operations/offers/offers.service.ts:139-142 | a wake-up that completes leaves the queue and arms the sweep; one that fails is retained and arms nothing |
| Scheduler.SettleSweep | src/modules/operations/offers/offers.service.ts:150-187 | disarms exactly when nothing is pending or, in auto mode, due, after asking for a wake-up at the next opening |
| Scheduler.FirstIsEarliest | src/modules/operations/offers/offers.service.ts:170-178 | that opening is the earliest among the orders scheduled further ahead, if there is one |
| SchedulerRuns.PlayKeepsQueue | src/modules/operations/offers/offer-scheduler.service.ts:90-112 | in every run, working or not, each queued wake-up is in the slot of the time asked for, fires no earlier, and is still to fire |
| SchedulerRuns.SweepWakesInTime | src/modules/operations/offers/offers.service.ts:144-187 | over every run of sweeps, wake-ups asked for and fired, changes and waits that work, an unarmed sweep leaves nothing pending or immediate, every scheduled order has a wake-up still to fire in its own or an earlier slot, and the sweep is armed less than a slot after each opening |
| SchedulerRuns.DisarmIsSafeIff | src/modules/operations/offers/offers.service.ts:150-187 | whatever landed since the reads, disarming keeps that promise exactly when by now nothing is open, nobody waits whose time came more than a slot ago, and a wake-up is left at or before the slot of the next opening |
| SchedulerRuns.ArmingIsErased | src/modules/operations/offers/offers.service.ts:151-186 | a run in which an arming lands between the reads and the disarming and is erased: a paid order waits and nothing will wake the sweep |
| SchedulerRuns.SweepIsBoth | src/modules/operations/offers/offers.service.ts:150-187 | with nothing in between, the reads and the disarming are the decision of the sweep method |
| SchedulerRuns.SweepIsSafeIff | src/modules/operations/offers/offers.service.ts:170-186 | a sweep that stops at once keeps that promise exactly when nobody is scheduled ahead, the queue takes the wake-up and no failed job is retained for its slot, or another wake-up is left at or before that slot |
| SchedulerRuns.LostWakeIsSafeIff | src/modules/operations/offers/offer-scheduler.service.ts:95-111 | a wake-up that does not arm the sweep keeps it exactly when another is left at or before the slot of the next opening |
| SchedulerRuns.FailedJobTakesItsSlot | src/modules/operations/offers/offer-scheduler.service.ts:99-105 | a run in which a failed job keeps its minute slot and a later order of that minute is never woken |
| Matching.RankForOrder | src/modules/operations/matching/matching.service.ts:110-274 | the loops compute the ranking of the specification, stage by stage |
| Matching.FilterEligible | src/modules/operations/matching/matching.service.ts:364-516 | each driver asked about is either eligible or reported with the first filter it fails |
| MatchingTheorems.EveryoneIsAccountedFor | src/modules/operations/matching/matching.service.ts:138-265 | every driver seen in a searched ring is exactly once among candidates and excluded, and nobody else is |
| PresenceRanking.KeptDriversAreAccountedFor | src/modules/operations/matching/matching.service.ts:146-175 | fed by the presence index, whoever is kept in a cell of a searched ring is exactly once among candidates and excluded, and nobody else is |
| PresenceRanking.ReadRing | src/modules/operations/matching/matching.service.ts:148-151 | reading the cells of a ring answers two disjoint sets, the fresh drivers and the others that are kept |
| PresenceRanking.PruningKeepsAnswers | src/modules/operations/presence/presence.service.ts:306-309 | what reading one ring prunes changes nothing about the answers for the next |
| MatchingTheorems.PreselectionIsClosest | src/modules/operations/matching/matching.service.ts:178-186 | the matrix is asked for at most its limit of drivers, all eligible and none farther than one left out |
| MatchingTheorems.FitIffAllPass | src/modules/operations/matching/matching.service.ts:436-512 | a driver is eligible exactly when all filters pass, with a vehicle whose documents are in order, the one being driven if it is one |
| MatchingTheorems.CandidatesPass | src/modules/operations/matching/matching.service.ts:157-169 | no candidate was already offered the order, and each passes every filter with the vehicle chosen there |
| MatchingTheorems.RanksFollowTheComparator | src/modules/operations/matching/matching.service.ts:267-271 | ranks are 1 to n in comparator order |
| MatchingTheorems.BestIsFirst | src/modules/operations/offers/offers.service.ts:270-275 | candidates with a road ETA precede those without, so the cascade offers to rank 1 or to nobody |
| Scoring.CompareRankedIsWeakOrder | src/modules/operations/matching/scoring.ts:138-151 | the comparator is a strict weak order |
| Scoring.NormalizedIsConvex | src/modules/operations/matching/scoring.ts:67-83 | whatever is configured, the weights in use are non-negative and add up to one |
| Scoring.ScoreInRange | src/modules/operations/matching/scoring.ts:85-126 | scores stay between 0 and 1 |
| Scoring.ScoreMonotone | src/modules/operations/matching/scoring.ts:85-126 | a driver no worse on any signal never scores less |
| Sessions.SessionsRepository.RotateRefreshToken | src/modules/identity/sessions/sessions.repository.ts:62-85 | the compare-and-set moves the row exactly when the presented hash is current and the session not revoked |
| Sessions.SessionsService.RotateSession | src/modules/identity/sessions/sessions.service.ts:110-179 | a call with nobody in between does the steps of the interleaved model one after the other |
| SessionRuns.ApplyKeeps | src/modules/identity/sessions/sessions.service.ts:110-179 | every step of any call, and every outside event, keeps the rotation invariant |
| SessionTheorems.ReplacedIsNeverCurrent | src/modules/identity/sessions/sessions.service.ts:139-156 | a token replaced by one signed in a later second is never current again |
| SessionTheorems.LaterCallsGetTheReplacement | src/modules/identity/sessions/sessions.service.ts:158-166 | a call that presents it afterwards gets exactly the token that replaced it, or none |
| SessionTheorems.CurrentIsReproducible | src/modules/identity/sessions/token.service.ts:48-65 | signing again with the stored rotation time gives the stored token, so the mismatch branch is dead |
| SessionTheorems.RefusalRevokes | src/modules/identity/sessions/sessions.service.ts:168-175 | a call refused for reuse, or for an inactive account, leaves the session revoked |
| SessionTheorems.RevokedForGood | src/modules/identity/sessions/sessions.repository.ts:69-82 | after a revocation the session stays revoked with the same token, and only a call whose grace read came before still answers |
| SessionTheorems.CapIsFinal | src/modules/identity/sessions/sessions.service.ts:64-75 | expiresAt never passes createdAt plus the maximum age, and a call arriving once that is reached gets no token |
| SessionTheorems.ExpiryFallsIffOlderPrice | src/modules/identity/sessions/sessions.service.ts:150-156 | a step lowers expiresAt exactly when it writes an expiry under the cap that was computed before the one in the row; the current token had then replaced itself within a second |
| SessionTheorems.ExpiryCanFall | src/modules/identity/sessions/sessions.service.ts:141-156 | and then it can: two calls in that second, the one that priced first writing last |
| Presence.PresenceIndex.Record | src/modules/operations/presence/presence.service.ts:153-230 | the index after a fix, and why it was refused, in the order of the checks |
| Presence.PresenceIndex.Remove | src/modules/operations/presence/presence.service.ts:237-252 | the record goes, and its entry only when the record was still there |
| Presence.PresenceIndex.MembersOfCells | src/modules/operations/presence/presence.service.ts:295-335 | fresh and stale drivers of the cells, fresh winning, and entries past retention pruned |
| PresenceRuns.IndexMatchesScanIffSkewFits | src/modules/operations/presence/presence.service.ts:78-84 | over every run the cells report exactly the drivers a scan of the records would, if and only if nine TTLs cover the 30 s of clock skew |
| PresenceRuns.OutlivingIsReported | src/modules/operations/presence/presence.service.ts:204-220 | with a shorter TTL: a fix dated ahead outlives its record and is still reported as fresh |
| PresenceRuns.LeftoversAreStale | src/modules/operations/presence/presence.service.ts:213-221 | an entry left in another cell, or by a record that is gone, is never reported as fresh |
| PresenceRuns.RetainedAreReported | src/modules/operations/presence/presence.service.ts:290-335 | a driver whose fix is within retention is reported, as fresh or as stale |
| Polyline.EncodeValue | src/integrations/google-maps/google-routes.service.ts:380-389 | the shifting loop ends and emits the five-bit groups of the zig-zag value |
| Polyline.EncodePolyline | src/integrations/google-maps/google-routes.service.ts:363-378 | the loop emits the encoded differences of the rounded points |
| Polyline.ValueRoundTrip | src/integrations/google-maps/google-routes.service.ts:380-389 | the decoder reads a value back, and stops at its end whatever follows, if and only if it is a 31-bit value |
| Polyline.LinePrintable | src/integrations/google-maps/google-routes.service.ts:380-389 | every character code lies between 63 and 126 |
| Polyline.LineRoundTrip | src/integrations/google-maps/google-routes.service.ts:363-378 | a whole line whose differences fit decodes to its rounded points |
| Polyline.EarthStepsFit | src/integrations/google-maps/google-routes.service.ts:368-374 | coordinates on Earth never overflow the shift |
| Polyline.PolylineRoundTrip | src/integrations/google-maps/google-routes.service.ts:363-378 | so every list of points on Earth decodes to its coordinates rounded to 1e-5 |
| DemandBands.NormalizeNormalizes | src/modules/transport/pricing/demand-bands.ts:21-40 | the bands are ascending with a catch-all first, and are the usable ones, plus that catch-all when missing |
| DemandBands.ResolveBandIndex | src/modules/transport/pricing/demand-bands.ts:60-83 | the loops compute the closed form: the larger of the plain band and the highest one up to the previous whose floor less the margin is exceeded |
| DemandBands.ResolvedIdempotent | src/modules/transport/pricing/demand-bands.ts:60-83 | resolving again at the same ratio stays in the same band |
| DemandBands.ResolvedMonotone | src/modules/transport/pricing/demand-bands.ts:60-83 | a higher ratio never gives a lower band |
| DemandBands.BandKept | src/modules/transport/pricing/demand-bands.ts:54-59 | a band reached is kept exactly while the ratio stays above its floor less the margin |
| Demand.DemandState.Snapshot | src/modules/transport/pricing/demand.service.ts:146-189 | the stored state and the quote, advancing once per tick |
| Demand.TickIsStableIff | src/modules/transport/pricing/demand.service.ts:159-168 | whatever quotes came before, all quotes inside the tick of a stored state see its ratio and band, exactly when twice the window covers the tick |
| Demand.ShortWindowForgets | src/modules/transport/pricing/demand.service.ts:224-229 | in a shorter window two quotes of one tick differ, starting from no state: the second, at its last millisecond, no longer sees the first |
| Demand.AdvanceAnswersItself | src/modules/transport/pricing/demand.service.ts:169-189 | the quote that advances the state agrees with the later ones of its tick |
| Demand.RatioStaysInRange | src/modules/transport/pricing/demand-bands.ts:43-52 | the smoothed ratio stays within the range of its inputs, over any run |
| Demand.BandSurvivesIff | src/modules/transport/pricing/demand.service.ts:162-189 | over a run a reached band is kept exactly when each quote that advances the state has enough requests and a ratio above the floor, less the margin unless the state was too old to read |
| Demand.QuietQuoteDropsBand | src/modules/transport/pricing/demand.service.ts:175-182 | starting from no state, one quote with too few requests drops the bands a busy one reached although the smoothed ratio stays above their floor less the margin |
| Fare.FareMonotone | src/modules/transport/pricing/fare.ts:62-101 | the fare and the total never fall with distance, duration or multiplier |
| Fare.DemandAddsUp | src/modules/transport/pricing/fare.ts:74-93 | demandAmount is never negative and serviceFare is serviceBeforeDemand plus it |
| Fare.TotalClose | src/modules/transport/pricing/fare.ts:55-101 | the total is within (0.01 m + 0.005)(1 + t) + 0.005, and the nudges, of the unrounded formula |
| Fare.DecimalIsLawful | src/modules/transport/pricing/fare.ts:56-59 | rounding gives whole cents, leaves them alone, keeps order and moves an amount by at most half a cent and the nudge |
| TtlCaching.TtlCache.Get | src/common/utils/ttl-cache.util.ts:21-34 | an expired entry is dropped and not returned, and nothing else changes |
| TtlCaching.TtlCache.Set | src/common/utils/ttl-cache.util.ts:36-48 | the key moves to the back of the queue and the oldest entries go while there are too many |
| TtlCaching.ReadsLastWrite | src/common/utils/ttl-cache.util.ts:21-34 | a key only ever reads the last value set for it, unexpired and not deleted |
| TtlCaching.NeverOverfull | src/common/utils/ttl-cache.util.ts:41-47 | after a set there are at most maxEntries entries |
| TtlCaching.KeepsLiveValue | src/common/utils/ttl-cache.util.ts:36-48 | a live value with fewer than maxEntries distinct other keys set since is still returned |
| Transitions.StepKeepsEdges | src/modules/operations/assignments/assignments.service.ts:276-617 | in any state, whatever a step does: an order, driver, assignment or offer changes status only along the edge that step has, said status by status (an order is ACCEPTED by a claim or an accepted offer, or from ASSIGNED by its driver's acceptance; IN_PROGRESS from ACCEPTED by starting the trip; and so on) |
| Transitions.TripsAreStarted | src/modules/tracking/trips/trips.service.ts:36-57 | over every run, an order that is IN_PROGRESS became so by a StartTrip step that found it ACCEPTED |
| DispatchOutcomes.CreateAssigns | src/modules/operations/assignments/assignments.service.ts:276-324 | in every reachable state: a queued paid order and an available driver give ASSIGNED, BUSY and a PENDING row, and otherwise nothing changes; that nobody holds the order need not be checked |
| DispatchOutcomes.ClaimAccepts | src/modules/operations/assignments/assignments.service.ts:409-458 | the same for a claim, with ACCEPTED and an ACCEPTED row |
| DispatchOutcomes.AcceptMovesBoth | src/modules/operations/assignments/assignments.service.ts:480-523 | accepting a PENDING row makes its order and the row ACCEPTED and changes nothing else; any other row is left alone |
| DispatchOutcomes.CompleteFrees | src/modules/operations/assignments/assignments.service.ts:594-617 | completing an ACCEPTED row completes it, makes its driver AVAILABLE and leaves the order |
| DispatchOutcomes.DutyChanges | src/modules/operations/drivers/drivers.service.ts:263-303 | going on or off duty changes exactly an approved driver who is AVAILABLE or OFFLINE, and to those only |
| DispatchOutcomes.CancelReleasesHolders | src/modules/transport/orders/orders.service.ts:1417-1449 | cancelling frees exactly the drivers with a live assignment of the order, cancels exactly those assignments, and touches nothing else |
| DispatchOutcomes.DeliverCompletes | src/modules/transport/orders/orders.service.ts:928-976 | delivering an order with a live assignment makes the order DELIVERED, the row COMPLETED and its driver AVAILABLE |
| DispatchOutcomes.OfferIsTaken | src/modules/operations/offers/offers.service.ts:356-409 | an offer is taken exactly when it is PENDING, its driver's, before its deadline, the order queued and paid and the driver available; then all four rows move |
| DispatchOutcomes.AttemptOffers | src/modules/operations/offers/offers.service.ts:254-349 | an attempt on an order that is paid, due, queued and without an open offer inserts one for a driver not asked before and marks the order, or puts it back when there is nobody |
| DispatchOutcomes.NoAttemptOutsideCascade | src/modules/operations/offers/offers.service.ts:190-214 | and on any other order does nothing |
| DispatchOutcomes.RequeueReturns | src/modules/operations/offers/offers.service.ts:217-226 | exactly the orders marked as being offered that have no open offer go back to REQUESTED |
| BillingOutcomes.OrderIsSynchronised | src/modules/billing/payments/payments.service.ts:1249-1303 | the order is PAID when PAID and authorized check and credit payments reach a positive total, AUTHORIZED when one of those is only authorized, PROCESSING when a payment is open, else PENDING; and REQUESTED when covered while it awaited payment |
| BillingOutcomes.PriceIff | src/modules/billing/payments/payments.service.ts:1042-1072 | an amount may be authorized exactly when the order takes payments, is not paid or covered, and the amount is positive and within what the settled payments leave of the total; without a requested amount it is all of that |
| BillingOutcomes.CheckIsBooked | src/modules/billing/payments/payments.service.ts:325-377 | then a check adds its payment and its transaction, and the order follows |
| BillingOutcomes.CreditIsDrawn | src/modules/billing/payments/payments.service.ts:404-523 | and credit also draws the line and adds its movement, when the line is ACTIVE with the limit that was read and room for the amount |
| BillingOutcomes.CreditHasNoRoom | src/modules/billing/payments/payments.service.ts:485-505 | without that room nothing changes |
| BillingOutcomes.UsableCapturePays | src/modules/billing/payments/payments.service.ts:768-848 | an approved capture in an open session of an order awaiting payment or confirmed, which the other settled payments do not cover, adds no refund, and the order follows its payments: when the total is reached it is REQUESTED, and PAID without an authorized check or credit |
| BillingOutcomes.UnusableCaptureIsSetAside | src/modules/billing/payments/payments.service.ts:1079-1141 | of any other order it leaves the orders as they were and adds one pending refund of the whole payment |
| BillingOutcomes.UnsettledCapture | src/modules/billing/payments/payments.service.ts:768-848 | a declined or unfinished result moves the payment, adds its transaction and the order follows |
| BillingOutcomes.SettledSessionStays | src/modules/billing/payments/payments.service.ts:773-812 | a session that is not open is left alone by results and by the cancel link |
| BillingOutcomes.CancelLinkCancels | src/modules/billing/payments/payments.service.ts:857-915 | the cancel link cancels the payment of an open session with a failed VOID, and the order follows |
| BillingOutcomes.SessionIsOpened | src/modules/billing/payments/payments.service.ts:605-666 | a created session is PROCESSING with its authorization pending, and one that cannot be created fails its payment |
| BillingOutcomes.CheckoutIsAnswered | src/modules/billing/payments/payments.service.ts:279-320 | the first answer to a checkout sets its payment and adds one authorization with the matching status |
| BillingOutcomes.RefundIsAskedFor | src/modules/billing/refunds/refunds.service.ts:77-145 | a refund is added exactly when the payment is PAID or AUTHORIZED, not corporate credit, and the amount is positive and within what pending and paid-out refunds leave |
| BillingOutcomes.RefundIsConfirmed | src/modules/billing/refunds/refunds.service.ts:232-288 | a confirmed refund adds its transaction; the payment is REFUNDED exactly when its refunds now reach its amount, and the order's payment REFUNDED exactly when it is cancelled and no payment of it is PAID or AUTHORIZED any more |
| BillingOutcomes.LineIsSet | src/modules/identity/customers/customers.service.ts:444-505 | an operator sets limit and status, keeping the used balance, or nothing when the limit is under it |
| BillingOutcomes.LineIsAskedFor | src/modules/identity/customers/customers.service.ts:527-615 | a request makes the line PENDING with its used balance, unless it is ACTIVE or BLOCKED |
| BillingOutcomes.LineIsClosed | src/modules/identity/customers/customers.service.ts:982-1015 | closing leaves limit and balance and adds one movement of nothing with the balance |
| Refusals.CreationIsRefused | src/modules/operations/assignments/assignments.service.ts:244-295 | with which error an assignment is refused: the first of the conditions that fails |
| Refusals.ClaimIsRefused | src/modules/operations/assignments/assignments.service.ts:347-408 | the same for a claim |
| Refusals.PriceIsRefused | src/modules/billing/payments/payments.service.ts:1042-1072 | the same for an amount to authorize |
| Refusals.CreditIsRefusedFor | src/modules/billing/payments/payments.service.ts:404-505 | the same for corporate credit |
| Refusals.RefundIsRefused | src/modules/billing/refunds/refunds.service.ts:77-145 | the same for a refund |
| Refusals.PickIsRefused | src/modules/operations/offers/offers.service.ts:469-512 | the same for an operator's pick: not a candidate while that is enforced, not the first without a reason, or without a vehicle |
| Offers.BestIsFirstCandidate | src/modules/operations/offers/offers.service.ts:266-275 | the cascade offers to the first candidate of the ranking without the drivers offered before when it has a road ETA, and to nobody otherwise |
| SchedulerRuns.SweepIsArmedForWork | src/modules/operations/offers/offers.service.ts:144-187 | in the working runs: while an immediate paid order waits, or an offer is open, the sweep is armed, and so it is for a scheduled order from a minute after half an hour before its time |
| RankingOutcomes.CandidatesAreRankedWell | src/modules/operations/matching/scoring.ts:138-151 | of two candidates the earlier has an ETA if the later has; when both have or both lack one its score is no lower, with equal scores its ETA is no longer, and with those equal its straight line is no longer; ranks count from one |
| RankingOutcomes.CandidateCarriesItsAnswer | src/modules/operations/matching/matching.service.ts:203-265 | a candidate has the time, and the score by the distance, of the first matrix answer for its own origin; without an ETA exactly when that is missing or failed |
| RankingOutcomes.CandidateHasItsVehicle | src/modules/operations/matching/matching.service.ts:482-500 | a candidate has the vehicle being driven when its documents are valid, and else the first whose are |
| RankingOutcomes.UnfitIffFails | src/modules/operations/matching/matching.service.ts:450-495 | a driver is refused with a reason exactly when that filter is the first one it fails |
| RankingOutcomes.ExclusionsAreJustified | src/modules/operations/matching/matching.service.ts:157-265 | every exclusion of a ranking carries a reason that is true of its driver |
| RankingOutcomes.WeightsAreShares | src/modules/operations/matching/scoring.ts:67-83 | each weight in use is the configured one's share of their sum, or 0.55 and three times 0.15 when one is negative or the sum is not positive |
| RankingOutcomes.EtaIsWorth | src/modules/operations/matching/scoring.ts:85-101 | what each part of a half-hour ETA costs in score |
| RankingOutcomes.DistanceIsWorth | src/modules/operations/matching/scoring.ts:95-101 | what each part of 15 km costs, by road when known and else in a straight line |
| RankingOutcomes.BalanceIsWorth | src/modules/operations/matching/scoring.ts:110-126 | what each of up to ten trips today costs |
| RankingOutcomes.ReliabilityIsWorth | src/modules/operations/matching/scoring.ts:102-110 | what stars are worth, alone and with a history of answers; no rating counts as four |
| SearchOutcomes.RingIsFirst | src/modules/operations/matching/matching.service.ts:146-176 | candidates and exclusions carry the first ring that reports their driver |
| SearchOutcomes.SearchStopsWhenEnough | src/modules/operations/matching/matching.service.ts:144-176 | the rings searched are the fewest that find enough drivers, counted as reported, current, not skipped and fit, or all of them |
| SearchOutcomes.AlertsAreExact | src/modules/operations/matching/matching.service.ts:129-205 | which alerts a ranking raises, and exactly when |
| SessionOutcomes.StaleTokenGetsNothing | src/modules/identity/sessions/sessions.service.ts:188-229 | over every run, a call that arrives later than graceSeconds after the rotation that replaced its token, by one signed in a later second, gets no token; with no grace at all, once that rotation is written |
| SessionOutcomes.GraceGivesCurrent | src/modules/identity/sessions/sessions.service.ts:188-229 | and one that finds its token to be the previous one of a live row, and checks within graceSeconds of the rotation, gets exactly the current token and changes nothing |
| SessionOutcomes.NoGraceRevokes | src/modules/identity/sessions/sessions.service.ts:168-175 | outside the window it is refused for reuse and the session is revoked |
| SessionOutcomes.FindDecides | src/modules/identity/sessions/sessions.service.ts:110-137 | a call goes on exactly when its token has not expired and the session is live and under its cap as it arrives; an inactive account's session is revoked |
| SessionOutcomes.NewSessionLives | src/modules/identity/sessions/sessions.service.ts:64-101 | a new session has its token and lives its lifetime, or up to the cap |
| SessionOutcomes.RefreshRotates | src/modules/identity/sessions/sessions.service.ts:139-179 | a lone refresh with the current token returns one signed now, keeps the old one as previous and slides the expiry under the cap |
| SessionOutcomes.RefreshReuses | src/modules/identity/sessions/sessions.service.ts:158-229 | a lone refresh with any other token gets the current one within the grace, and else revokes the session |
| SessionOutcomes.RefreshIsRefused | src/modules/identity/sessions/sessions.service.ts:110-137 | a lone refresh that is not let in gets no token, and revokes exactly when the account is inactive |
| SessionOutcomes.HourOldTokenRevokes | src/modules/identity/sessions/sessions.service.ts:168-229 | with a grace of 30 s, the token replaced an hour ago is denied for reuse and the session revoked |
| PresenceOutcomes.RefusalIsFirstFault | src/modules/operations/presence/presence.service.ts:386-428 | a fix is refused with a reason exactly when that is the first thing wrong with it |
| PresenceOutcomes.TakenIffNotRefused | src/modules/operations/presence/presence.service.ts:153-230 | and taken exactly when it is located in the area, not mocked, accurate enough, dated within [now - TTL, now + 30 s], and after a live record late enough, newer and within the speed limit |
| PresenceOutcomes.Submit | src/modules/operations/presence/presence.service.ts:153-230 | so a call answers to keep a fix exactly then, in its cell, and otherwise with the first fault |
| PresenceOutcomes.TakenIsStored | src/modules/operations/presence/presence.service.ts:204-230 | what is stored of a taken fix: its record, its entry in its cell, none left in the cell before, and nobody else's changed |
| PresenceOutcomes.RefusedIsNoted | src/modules/operations/presence/presence.service.ts:372-384 | a refused fix leaves only a note on a live record, for five of the ten reasons |
| PresenceOutcomes.DroppedIsGone | src/modules/operations/presence/presence.service.ts:237-252 | a dropped driver has no record and no entry in the cell it named; other entries stay |
| PresenceOutcomes.RecordsAreBelievable | src/modules/operations/presence/presence.service.ts:386-428 | over every run, each record stored came from a fix that by itself was believable when it came: never a mocked one |
| Polyline.RoundedIsClose | src/integrations/google-maps/google-routes.service.ts:363-378 | a rounded coordinate is within half of 1e-5 of the point |
| DemandOutcomes.QuoteBandIff | src/modules/transport/pricing/demand.service.ts:169-189 | its band is reached exactly when its ratio is over the floor, or the state it read was as high and the ratio is over the floor less the margin |
| BandOutcomes.UsableIff | src/modules/transport/pricing/demand-bands.ts:21-34 | the configured bands that count, and no others: a finite multiplier of at least one, above a finite ratio or above everything |
| BandOutcomes.BandIsReachedIff | src/modules/transport/pricing/demand-bands.ts:60-83 | on any normalized bands a quote is in a band or higher exactly when the ratio is over its floor, or the last band was as high and the ratio is over the floor less the margin |
| BandOutcomes.DefaultsMultiply | src/modules/transport/pricing/demand-bands.ts:12-40 | without a usable configuration demand multiplies by 1, 1.1 over a ratio of 1, 1.2 over 1.5 and 1.35 over 2 |
| DemandOutcomes.InputIsRatio | src/modules/transport/pricing/demand.service.ts:162-175 | what comes in is requests a driver, a missing driver counting as one, and zero under the observation floor |
| DemandOutcomes.QuoteRepeats | src/modules/transport/pricing/demand.service.ts:154-168 | a quote within a minute of a state no older than twice the window repeats it and leaves it |
| DemandOutcomes.QuoteAdvances | src/modules/transport/pricing/demand.service.ts:169-189 | any other moves the ratio by the smoothing weight of the way to the new one, or starts there, and is stored |
| DemandOutcomes.DistanceShrinks | src/modules/transport/pricing/demand-bands.ts:43-52 | under a steady ratio the distance to it shrinks by the same factor at every tick |
| FareOutcomes.TripIsPriced | src/modules/transport/pricing/fare.ts:62-73 | distance and time are each priced and rounded to the nearest cent, and the base adds them to the start and the running cost |
| FareOutcomes.ServiceIsPriced | src/modules/transport/pricing/fare.ts:74-93 | the minimum holds before and after demand, demand never makes a fare cheaper, and the flag says whether the minimum is what is charged |
| FareOutcomes.SumsAreExact | src/modules/transport/pricing/fare.ts:80-101 | subtotal, taxable base and total are exact sums of whole cents, tolls being taxed only when they are to be |
| FareOutcomes.BillAddsUp | src/modules/transport/pricing/fare.ts:80-101 | tolls, charges and tax to the nearest cent, and what each sum is made of |
| FareOutcomes.HalvesGoAway | src/modules/transport/pricing/fare.ts:55-59 | half a cent goes away from zero on either side |
| TtlCaching.ReadDropsExpired | src/common/utils/ttl-cache.util.ts:21-34 | a read drops the entry of its key when it has expired, and no other |
| BillingOutcomes.CheckIsRefused | src/modules/billing/payments/payments.service.ts:325-377 | when no amount may be authorized a check changes nothing |
| BillingOutcomes.CreditIsRefused | src/modules/billing/payments/payments.service.ts:404-470 | and neither does credit |
| BillingOutcomes.CardIsOpened | src/modules/billing/payments/payments.service.ts:600-620 | a card payment starts as a PENDING row of a positive amount |
| BillingOutcomes.RefundFails | src/modules/billing/refunds/refunds.service.ts:157-225 | a refund that failed changes its own row and nothing else |
| BillingOutcomes.SettledRefundStays | src/modules/billing/refunds/refunds.service.ts:178-201 | a refund that is not pending is left alone |
| DemandOutcomes.HalfAMinuteOutlivesTick | src/modules/transport/pricing/demand.service.ts:154-168 | twice the window covers the tick exactly from 30 s on |
| DispatchOutcomes.PickAssigns | src/modules/operations/offers/offers.service.ts:525-532 | an operator's pick assigns like a creation and is remembered for its audit row |
| DispatchOutcomes.PickIsAudited | src/modules/operations/offers/offers.service.ts:530-559 | which becomes an ACCEPTED MANUAL offer naming the order, driver, vehicle and assignment, once |
| DispatchOutcomes.TripStarts | src/modules/tracking/trips/trips.service.ts:36-57 | starting makes exactly an ACCEPTED order IN_PROGRESS |
| DispatchOutcomes.ClosedOrderStays | src/modules/transport/orders/orders.service.ts:1417-1449 | cancelling changes nothing when the order is closed or its status is not the one that was read |
| DispatchOutcomes.DeliverUnassigned | src/modules/transport/orders/orders.service.ts:928-976 | an order nobody holds is only marked DELIVERED |
| DispatchOutcomes.OfferIsInserted | src/modules/operations/offers/offers.service.ts:290-326 | an offer is inserted exactly when the order has no open one |
| DispatchOutcomes.OfferIsRejected | src/modules/operations/offers/offers.service.ts:411-439 | exactly a pending offer of that driver becomes REJECTED |
| DispatchOutcomes.OfferExpires | src/modules/operations/offers/offers.service.ts:442-460 | exactly a pending offer whose deadline has come becomes EXPIRED |
| DispatchOutcomes.OfferIsCancelled | src/modules/operations/offers/offers.service.ts:728-749 | exactly a pending offer becomes CANCELLED |
| DispatchOutcomes.OfferingIsMarked | src/modules/operations/offers/offers.service.ts:320-349 | the order moves between REQUESTED and ASSIGNING_DRIVER, and only from the one to the other |
| RankingOutcomes.SentIsWhatWasFound | src/modules/operations/matching/matching.service.ts:500-512 | rating, straight line and vehicle of a preselected driver are those found about that driver |
| RankingOutcomes.ScoreIsRawRounded | src/modules/operations/matching/scoring.ts:117-126 | the score is the weighted sum to within half of the fourth decimal |
| Refusals.PickHasVehicle | src/modules/operations/offers/offers.service.ts:506-512 | a pick's vehicle is the one named, or the candidate's |
| TtlCaching.WriteIsLast | src/common/utils/ttl-cache.util.ts:36-48 | a write puts its entry last and keeps the newest others that fit |
| DispatchOutcomes.DeliveryNeedsItsAssignment | src/modules/transport/orders/orders.service.ts:928-976 | a delivery naming no assignment of an order that has one, or an assignment that is not a live one of the order, is no step |
| DispatchOutcomes.RowsEnter | src/modules/operations/drivers/drivers.service.ts:222-232 | a driver enters OFFLINE and not approved, and an order not paid |
| SweepOutcomes.BusySweepStays | src/modules/operations/offers/offers.service.ts:151-169 | a sweep leaves everything as it is while an offer is open or, in automatic mode, a paid order without driver and offer is immediate or due within half an hour |
| SweepOutcomes.IdleSweepDisarms | src/modules/operations/offers/offers.service.ts:150-187 | otherwise it disarms, and queues nothing when nobody is scheduled further ahead or automatic mode is off |
| SweepOutcomes.IdleSweepAsks | src/modules/operations/offers/offers.service.ts:170-187 | in automatic mode it queues a wake-up half an hour before the earliest of the others, or at once when that is past, unless the minute of it holds one, waiting or failed |
| SweepOutcomes.WakeIsQueued | src/modules/operations/offers/offer-scheduler.service.ts:90-112 | when a wake-up is queued, and for when |
| SweepOutcomes.WakeFires | src/modules/operations/offers/offers.service.ts:139-142 | what a wake-up that fires leaves of the queue, the failed ones and the armed flag |

## Left out

- OrdersService: only the dispatch half of cancelling and delivering an order is modelled; its payment settlement, credit releases, fees and other status changes are not.
- The second entry point of a trip (tracking sessions): it makes the same conditional update as Trips.TripsService.Start and does not fail when no row moved.
- Staff overrides that write any status (drivers, payments, raw transactions, verification and soft deletion): they bypass the state machines on purpose.
- HTTP, guards, validation, realtime events, notifications, audit logs, tracking session rows and order events: no stated property depends on them.
- SQL isolation: each transaction is atomic; the separate commits of a manual assignment, of a card checkout and of a token refresh are separate steps.
- Ids: rows are never removed and an id is a row's position, so collisions of generated ids do not exist.
- Checks before a transaction on driver, licence, vehicle, ownership and customer type: their outcome is an input of the service methods.
- Fail-fast estimates before a check or credit is priced under the lock: they repeat the checks that are modelled.
- Answers of Google, CardNET and Redis failures: arbitrary inputs (any matrix, any response code, a queue or store that may fail).
- Which rows a paged query returns first: any answer consistent with the query is allowed.
- The loop that offers up to 50 waiting orders and the cleanup of stale offers: they repeat single attempts and cancellations.
- H3 cells and great-circle distance: functions given to the presence index and the matching request, with nothing assumed of them.
- The order of the driver ids a cell read returns, names, ages and details of excluded drivers, and the cached driver gate in front of presence.
- SchedulerRuns.SweepWakesInTime: assumes a worker that fires wake-ups when they are due, a sweep that disarms within a minute of reading the time, that no arming lands between its reads and its disarming, and that a change which brings work arms the sweep; the three reads of a sweep are one step; the throttle of the arming by HTTP requests (30 s) is not modelled.
- The repeated sweep job, the limit of 100 retained failed jobs (any of them may be forgotten at any time) and why a job fails: outside the model.
- One clock: the store and the service of the presence index read the same clock, and its calls are serialised.
- Floating point: scores, ratios and fares are exact reals; a stored ratio that is not finite is not modelled.
- JWT contents: a refresh token is the second it was signed in; secret, lifetime, user and session are fixed, hashing is injective and tokens cannot be forged.
- Other sessions of the user: a token of one session never matches another, so one session is modelled at a time.
- Search of demand counts, runtime settings and the cap of the multiplier: the number of requests and drivers is an input.
- Fares of inputs that are negative: they only occur through price lists the settings refuse; the rounding of negative amounts is modelled.
- Theorems.CascadeOffersOnce: assumes attempts do not overlap, because the source only guards against two open offers; Cascade.OfferedOnceIffNeverStale says exactly when it holds otherwise.
- Theorems.PaidMeansCovered: assumes no refund succeeds, because the source does not revise the order of a refunded payment; Coverage.EverUnbackedIff says exactly when it fails otherwise.
