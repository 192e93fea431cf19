# Worksetu: a model of the server's transactional core

The server matches customers with cooperative workers, follows each booking from request to
settlement, and keeps a ledger of what workers are owed. This project models that core in Dafny and
proves what its design relies on: that a booking is never given to two workers, that no balance is
overdrawn, that no cent is lost, which bookings a crash leaves behind for good and which are recovered.
Where a promise fails, the exact condition under which it holds is proved instead.

## How it is built

* `Schema` holds the tables as one value, `State`, and as the mutable class `Database`. Money is in
  integer cents, time in integer milliseconds.
* One module per controller or service gives each handler twice: a function on `State` that says what
  the handler does, and a method that does it to a `Database` statement by statement, proved equal to it.
* `Steps` makes every handler, timer callback and sweep action an `Event`, and a run any sequence of
  events. The theorems about "every run" or "every reachable state" quantify over all such sequences.
* `DispatchEngine` and `ReconciliationSweep` are the two long-running algorithms. Both are proved to be
  runs of those events, so whatever every run keeps, they keep.
* Where the promise is about concurrency inside a handler, the handler is cut into its separate
  database or Redis calls: `AcceptLock`, `WalletRace`, `Idempotency` and `Settlement` each quantify over
  all interleavings of any number of requests.
* `AuthService`, `RefreshTokens` and `SessionWindows` treat sessions with their own tables.
* `Permissions`, `Assignments` and `WorkerDuty` say what the handlers come to together: who may do what in any
  reachable state, and what is left of a job seen through or given back.

## Granularity

* In `Steps` each handler is atomic, its checks included. `Occupancy.BareCancellationIsSafeIff` says what
  the pool deadline's read and write need of that, and `cancelBooking` and `adminCancelBooking`, which
  read the booking before their transaction (server/src/controllers/booking.controller.ts:186-212).
  `AcceptanceLog.LateOutcomeKeepsLogIff` says what the answers to an offer need of it.
* `AcceptLock` splits an accept into the Redis SET, the read of the booking and the commit of the write.
  `AcceptLock.AloneIsAtomicAccept` ties the split steps to the atomic handler.
* `WalletRace` splits a withdrawal into lock, read, check, insert and commit;
  `WalletRace.CommitIsAtomicWithdrawal` and `WalletRace.RefusalIsAtomicRefusal` tie it to the atomic one.
* `Settlement` splits the status check from the transaction (`Settlement.AloneIsAtomic`), `Idempotency`
  splits lookup, insert, run, answer and persist. Dividend runs and token refreshes are atomic;
  `RefreshTokens.RotationLeavesOneLiveIff` says exactly what a refresh needs of that.

## Model

| member | source | states |
|---|---|---|
| BookingStateMachine.TransitionBookingStatus | server/src/services/booking-state-machine.service.ts:25-64 | a legal transition writes status, its timestamp and one audit row; an illegal one changes nothing |
| DispatchController.AcquireBookingLock | server/src/lib/redis-lock.ts:20-32 | the key is taken for 5000 ms exactly when no unexpired key is there, also when the call is rejected because the answer came too late |
| DispatchController.RespondToDispatch | server/src/controllers/dispatch.controller.ts:16-116 | what each answer to an offer does to log, lock, booking, worker and audit rows, refusals and a lost Redis answer included |
| BookingController.RequestBooking | server/src/controllers/booking.controller.ts:43-71 | a new REQUESTED booking and its BOOKING_CREATED row |
| BookingController.CancelBooking | server/src/controllers/booking.controller.ts:182-233 | who may cancel when, and that the assigned worker is released |
| BookingController.StartBooking | server/src/controllers/booking.controller.ts:235-248 | only the assigned worker starts, only from CONFIRMED |
| AdminOperations.ForceAssignBooking | server/src/controllers/admin-operations.controller.ts:98-181 | the assignment that bypasses the transition table, with the displaced worker released |
| AdminOperations.AdminCancelBooking | server/src/controllers/admin-operations.controller.ts:186-213 | the administrator's cancellation |
| BookingCompletion.CompleteBooking | server/src/controllers/booking-completion.controller.ts:9-50 | completion, invoice and release of the worker in one transaction |
| ReviewController.ReviewBooking | server/src/controllers/review.controller.ts:19-111 | rating, payment, payout, SETTLED and feedback credit in one transaction |
| ReviewController.IssueCredit | server/src/services/feedback-credit.service.ts:8-42 | nothing for a share of zero, else both running totals and one ledger row |
| WorkerController.UpdateAvailability | server/src/controllers/worker.controller.ts:9-27 | a suspended worker cannot go available |
| WorkerController.SetWorkerSuspension | server/src/controllers/admin-worker.controller.ts:141-180 | suspension takes the worker off duty |
| Permissions.AnswerAllowedIff | server/src/controllers/dispatch.controller.ts:31-62 | who can answer an offer and who can take its booking, in terms of the tables and the lock key |
| Permissions.CancellationAllowedIff | server/src/controllers/booking.controller.ts:190-198 | in every reachable state the customer and an administrator can cancel until the work starts, the worker while ASSIGNED or CONFIRMED, and nobody else |
| Permissions.ForceAssignmentAllowedIff | server/src/controllers/admin-operations.controller.ts:98-130 | any approved worker on any booking that is not over |
| Permissions.WorkAllowedIff | server/src/controllers/booking-completion.controller.ts:20-25 | the assigned worker alone starts a CONFIRMED booking and completes an IN_PROGRESS one |
| Permissions.SettlingAllowedIff | server/src/controllers/review.controller.ts:33-38 | in every reachable state a COMPLETED booking can be reviewed by its customer, no key or missing row in the way, and a payment recorded once, between completion and review |
| Assignments.JobIsDone | server/src/controllers/review.controller.ts:43-111 | from every reachable state in which an offer is accepted, and for any delays, confirmation, start, completion and review all go through and leave exactly the right time stamps, invoice fee, payment, payout, feedback credit, review score and a free worker |
| Assignments.JobCountsItsHours | server/src/controllers/worker.controller.ts:122-129 | and exactly the time from start to completion on that worker's hours, on nobody else's |
| Assignments.AcceptIs | server/src/controllers/dispatch.controller.ts:47-83 | an acceptance in terms of lock, offer, booking, worker and audit columns, and nothing else |
| Assignments.ForceAssignIs | server/src/controllers/admin-operations.controller.ts:130-165 | a forced assignment likewise, with whoever had the booking freed |
| Assignments.CancellationGivesBack | server/src/controllers/booking.controller.ts:206-215 | accepting and then cancelling, by whichever of the three, frees the worker and restores all worker rows if the worker was free before |
| Assignments.LockTurnsOthersAway | server/src/controllers/dispatch.controller.ts:47-62 | after an acceptance other answers lose the lock and their offers for exactly five seconds, after which they find the booking taken and keep their offers open |
| Assignments.LostReplyBlocksFiveSeconds | server/src/lib/redis-lock.ts:20-32 | an attempt whose Redis answer is late keeps everybody off an unassigned booking for exactly five seconds, and the next answer gets it |
| WorkerDuty.StepChangesDuty | server/src/controllers/booking.controller.ts:206-215 | every event's effect on every worker's availability, current booking, approval and suspension |
| WorkerDuty.SuspendedGoesAvailableIff | server/src/controllers/booking-completion.controller.ts:44-47 | a step makes a suspended worker AVAILABLE if and only if it releases the worker from a booking |
| WorkerDuty.OtherwiseSuspensionHolds | server/src/controllers/worker.controller.ts:16-18 | in every run that releases no suspended worker, no suspended worker is ever AVAILABLE |
| BookingChanges.StepMakesChange | server/src/controllers/dispatch.controller.ts:58-83 | every event makes at most one of three kinds of write to one booking, with the one audit row that belongs to it |
| Lifecycle.RunKeepsShape | server/src/controllers/dispatch.controller.ts:58-70 | in every run REQUESTED and DISPATCHING_* bookings are unassigned and ASSIGNED to SETTLED ones are assigned |
| Lifecycle.AcceptanceIsLegalIff | server/src/controllers/dispatch.controller.ts:67-70 | the acceptance's direct write is a transition of the table if and only if the booking is being dispatched; otherwise the booking is REQUESTED or CANCELLED |
| Lifecycle.FinalStatusesAreKept | server/src/controllers/admin-operations.controller.ts:112-139 | over any run COMPLETED becomes only SETTLED, and SETTLED and cancelled-after-assignment never change, worker included, although two writers bypass the table |
| Lifecycle.AtMostEightChanges | server/src/services/booking-state-machine.service.ts:5-15 | without forced assignment no booking's status changes more than eight times in any run |
| Lifecycle.ChangesAreSpent | server/src/controllers/dispatch.controller.ts:58-70 | the measure behind it: changes made plus changes left never exceed what was left before |
| LongestHistory.EightChangesHappen | server/src/services/dispatch.service.ts:61-71 | eight is reached in a run whose offers are the engine's for four approved, available workers: three refuse, and the pool offer is accepted after the customer cancelled |
| Cancellation.CancellationIsFinalIff | server/src/services/dispatch.service.ts:81-120 | no run whatever takes a cancelled booking out of CANCELLED if and only if it was assigned |
| Cancellation.UnofferedCancellationIsFinalIff | server/src/controllers/dispatch.controller.ts:34-70 | once no more offers are sent for it, if and only if it was assigned or none of its offers is open, lock or no lock |
| Lifecycle.CancelledRevivesIff | server/src/controllers/dispatch.controller.ts:34-70 | and the very next step can revive it if and only if it was never assigned, no lock is held on it and one of its offers is open |
| Lifecycle.ForcedChangesAreUnbounded | server/src/controllers/admin-operations.controller.ts:98-181 | with forced assignment there is no bound |
| AuditReplay.ReachableTrailIsFaithful | server/src/services/booking-state-machine.service.ts:25-43 | replaying a booking's audit rows gives its status and worker, and each recorded `from` is the replay of the rows before it |
| AuditReplay.AuditTrailIsFaithful | server/src/controllers/dispatch.controller.ts:63-82 | every run keeps that |
| Occupancy.ReachableStatesAreOccupied | server/src/controllers/location.controller.ts:84-90 | a worker's currentBookingId is a booking assigned to that worker and ASSIGNED, CONFIRMED or IN_PROGRESS; no two workers share one; ON_JOB implies one |
| Occupancy.EngagedUnlessOverbooked | server/src/controllers/admin-operations.controller.ts:132-140 | the converse, that every active booking is its worker's current one, is broken by exactly the assignments of a worker who has another current booking |
| Occupancy.BareCancellationIsSafeIff | server/src/services/dispatch.service.ts:172-178 | cancelling without releasing the worker, as the pool deadline does, keeps the invariant if and only if the booking is past cancelling by its status or is not its worker's current one |
| Occupancy.SplitPoolDeadlineStrandsWorker | server/src/services/dispatch.service.ts:172-178 | an accept between the read of the booking and its cancellation is such a case, whatever the status read |
| Timeline.RunKeepsOrdered | server/src/services/booking-state-machine.service.ts:17-34 | confirmedAt <= startedAt <= completedAt <= settledAt at each stage of every run, forced reassignments included |
| Timeline.WelfareHoursMakeSense | server/src/controllers/worker.controller.ts:122-129 | hours worked today are never negative and never exceed the week's, in every run, before and after rounding to hundredths |
| Timeline.HoursAreRounded | server/src/controllers/worker.controller.ts:128-129 | to the nearest hundredth of an hour |
| Timeline.ConsecutiveJobStreak | server/src/controllers/worker.controller.ts:131-137 | the streak is the number of UTC days in a row with a completed job, going back from the UTC day in which the server's day began |
| Timeline.TodaysJobsCountIff | server/src/controllers/worker.controller.ts:108-137 | a job of the server's present day counts as today's if and only if it was completed before the next UTC midnight; all of them do if and only if the server's days begin at one |
| MoneySplit.ReachableMoneyIsRight | server/src/controllers/review.controller.ts:43-111 | an invoice exactly for COMPLETED and SETTLED bookings, one payout, payment and review exactly for SETTLED ones, totals equal payouts plus fees to the cent, feedback credits equal their running totals and never exceed the fees |
| MoneySplit.FeeIsRoundedCommission | server/src/controllers/booking-completion.controller.ts:26-27 | the fee is within half a cent of the commission and at most the total |
| MoneySplit.ShareIsRoundedFifth | server/src/services/feedback-credit.service.ts:14 | the feedback share is within half a cent of a fifth of the fee and at most the fee |
| Ratings.ReachableRatingsAreMeans | server/src/controllers/review.controller.ts:62-68 | the incremental rating is the mean of all reviews: 0 without any, else between 1 and 5 |
| ContinuityScoring.ScoredListIsTop | server/src/services/continuity-scoring.service.ts:70-71 | the list is sorted, has at most twenty rows, and leaves out only rows scoring no higher |
| ContinuityScoring.RowsAreEligibleWorkers | server/src/services/continuity-scoring.service.ts:49-69 | one row for each eligible worker and no other |
| ContinuityScoring.RowsTellTheTables | server/src/services/continuity-scoring.service.ts:36-69 | who is listed, and with what score, column by column; for those listed the distance term is never cut off at zero |
| ContinuityScoring.LoyalWorkersComeFirst | server/src/services/continuity-scoring.service.ts:41-48 | in every reachable state and for every order of ties, four more prior jobs with the customer rank a worker ahead |
| AcceptLock.TimelyAcceptsAssignOnce | server/src/controllers/dispatch.controller.ts:47-83 | over all interleavings, if every acceptor commits before its lock expires the booking is assigned at most once, to the one request answered ACCEPTED |
| AcceptLock.AssignmentStands | server/src/controllers/dispatch.controller.ts:58-70 | and that assignment is never replaced |
| AcceptLock.SafeExactlyBelowLockTtl | server/src/lib/redis-lock.ts:6-32 | a commit deadline is safe in all interleavings if and only if it is below the lock's 5000 ms |
| AcceptLock.AloneIsAtomicAccept | server/src/controllers/dispatch.controller.ts:47-115 | run without interleaving, the split steps give the atomic handler's answer, clock, lock and assigned worker |
| DispatchEngine.Dispatch.EnqueueDispatch | server/src/services/dispatch.service.ts:44-73 | for any candidates, answers and other events: at most one open top-3 offer at every moment, offers sent rank by rank, the pool all or nothing, nothing sent and no status written after an acceptance is heard, no waiting between a heard answer and the next offer, over within three top-3 timeouts and one pool timeout, in neither dispatching status; when nothing else happens, everyone is offered it and it is CANCELLED |
| DispatchEngine.Dispatch.RunSequentialOfferQueue | server/src/services/dispatch.service.ts:75-121 | the queue ends with the first three ranks offered or the booking out of dispatch; a heard acceptance ends it at once, a heard refusal moves it on at once |
| DispatchEngine.Dispatch.RunBroadcastOfferPool | server/src/services/dispatch.service.ts:123-193 | all remaining candidates are offered the booking; by the deadline it is out of dispatch, and the phase ends within two seconds of that |
| DispatchEngine.Dispatch.WaitForResponseOrTimeout | server/src/services/dispatch.service.ts:195-239 | the offer is closed when the wait ends, heard answer or not, and without one the wait lasts the whole timeout |
| DispatchEngine.PlanIsRankByRank | server/src/services/dispatch.service.ts:63-64 | the plan offers nobody twice, the three attempts to the first three ranks, the pool to exactly those after the third |
| DispatchEngine.OutsideKeepsGoing | server/src/services/dispatch.service.ts:81-120 | nothing else that happens sends, reopens or redirects the booking's offers or puts it back into dispatch |
| OfferLog.StepContinues | server/src/controllers/dispatch.controller.ts:38-66 | rows of the log keep booking, worker and attempt, and an answered row never changes again |
| AcceptanceLog.ReachableAcceptancesAreLogged | server/src/controllers/dispatch.controller.ts:58-83 | with atomic handlers, in every reachable state every assigned booking has an ACCEPTED row of its present worker, forced reassignments included |
| AcceptanceLog.LateOutcomeKeepsLogIff | server/src/controllers/dispatch.controller.ts:36-54 | a write of any other outcome to a row read before, whoever makes it and whatever the booking's status, leaves such a row if and only if the row written is not the only one |
| AcceptanceLog.SecondAnswerOverwritesAcceptance | server/src/controllers/dispatch.controller.ts:22-54 | that happens when a worker's second answer was read before the first was committed: LOCK_LOST or DECLINED replaces ACCEPTED on an ASSIGNED booking |
| ReconciliationSweep.SweepStaleTop3Offers | server/src/services/dispatch-reconciliation.service.ts:39-101 | the loop over stale rows, row by row |
| ReconciliationSweep.SweepStalePoolOffers | server/src/services/dispatch-reconciliation.service.ts:103-122 | the loop over bookings with a stale pool |
| ReconciliationSweep.SweepStaleAssignedBookings | server/src/services/dispatch-reconciliation.service.ts:125-131 | the auto-confirm backstop |
| ReconciliationSweep.RunReconciliationSweep | server/src/services/dispatch-reconciliation.service.ts:32-37 | the three in order |
| SweepEffects.Top3SweepIs | server/src/services/dispatch-reconciliation.service.ts:49-90 | for every booking, exactly when the first sweep moves it on, and its exact new rows if so or if not |
| CrashRecovery.OrphanIsCancelled | server/src/services/dispatch-reconciliation.service.ts:39-122 | a booking left in DISPATCHING_TOP3 with open offers, all of them attempts, which nobody answers or acts on, is CANCELLED with none open once a sweep has run past the top-3 deadlines and a later one past the pool deadline, whatever happens to all other bookings and workers and however many other sweeps run |
| CrashRecovery.PooledIsCancelled | server/src/services/dispatch-reconciliation.service.ts:103-122 | the same for a crash in the pool phase that left open pool offers: cancelled, none open, once a sweep has run past the pool deadline |
| CrashRecovery.PickedUpIff | server/src/services/dispatch-reconciliation.service.ts:39-122 | the exact reach of the recovery: some later sweep takes a waiting booking out of its status if and only if an open offer of the booking's phase was left |
| CrashRecovery.StrandedIsStuck | server/src/services/dispatch-reconciliation.service.ts:39-109 | otherwise, REQUESTED included, the booking stays in its status under any number of sweeps, whatever happens to other bookings |
| CrashRecovery.EveryPhaseStartsStranded | server/src/services/dispatch.service.ts:61-71 | each phase writes its status before its offers, so a crash in between leaves such a booking |
| CrashRecovery.LeavesTop3Iff | server/src/services/dispatch-reconciliation.service.ts:40-58 | a sweep takes a booking out of DISPATCHING_TOP3 if and only if it has an open attempt and all of them are older than the top-3 timeout |
| CrashRecovery.BookingWithoutOfferIsStuck | server/src/services/dispatch-reconciliation.service.ts:41-53 | without an open attempt it stays there under any number of sweeps, whatever happens to other bookings |
| CrashRecovery.LeavesPoolIff | server/src/services/dispatch-reconciliation.service.ts:103-119 | a sweep takes a booking out of DISPATCHING_POOL if and only if it has an open pool offer older than the pool timeout |
| CrashRecovery.PoolWithoutOfferIsStuck | server/src/services/dispatch-reconciliation.service.ts:105-109 | without an open pool offer it stays there under any number of sweeps, whatever happens to other bookings |
| CrashRecovery.ConfirmedIff | server/src/services/dispatch-reconciliation.service.ts:125-131 | a sweep confirms an ASSIGNED booking if and only if its row is older than 60 seconds |
| AutoConfirmation.AssignmentIsConfirmedIff | server/src/controllers/dispatch.controller.ts:67-70 | an acceptance or forced assignment that nobody acts on, whatever happens to others, is CONFIRMED if and only if a sweep runs more than sixty seconds after it was made |
| CrashRecovery.OtherStatusesAreLeft | server/src/services/dispatch-reconciliation.service.ts:32-37 | a sweep changes no booking in any other status |
| CrashRecovery.SweepOffersOnlyNewWorkers | server/src/services/dispatch-reconciliation.service.ts:60-90 | every offer a sweep adds is a pool offer to a ranked worker who was never offered the booking |
| CrashRecovery.SweepOffersNewWorkersIff | server/src/services/dispatch-reconciliation.service.ts:60-90 | and a booking taken out of DISPATCHING_TOP3 is offered to exactly those |
| CrashRecovery.CloseKeepsAcceptanceIff | server/src/services/dispatch-reconciliation.service.ts:50 | the sweep's unconditional write turns the row to TIMEOUT whatever it says, and leaves a booking in any status with an accepting row if and only if the row written is not its only one |
| CrashRecovery.LateCloseOverwritesAcceptance | server/src/services/dispatch-reconciliation.service.ts:50 | so when the worker accepts after the row was listed, the row says TIMEOUT and the booking stays assigned |
| SweepAsSteps.SweepIsRun | server/src/services/dispatch-reconciliation.service.ts:32-37 | a whole sweep is a run of atomic steps |
| WalletBalance.RedeemableIsSignedSum | server/src/utils/wallet-balance.ts:14-40 | the two filtered sums equal one signed pass |
| WalletBalance.PreFilterChangesNothing | server/src/controllers/wallet.controller.ts:83-89 | the query's filter drops only rows that weigh nothing |
| WalletBalance.BalanceIgnoresOrder | server/src/utils/wallet-balance.ts:18-49 | the available, pending, redeemable and dividend figures depend on the multiset of rows only |
| WalletBalance.SettlingKeepsRedeemable | server/src/controllers/admin-payment.controller.ts:36 | settling a redemption leaves what is redeemable |
| WalletBalance.ReversalDeletesExactlyCountedRows | server/src/controllers/admin-wallet-ops.controller.ts:105-125 | reversing a row once equals deleting it if and only if the row is counted or worth nothing |
| Bookkeeping.WalletHandlersPost | server/src/controllers/admin-wallet-ops.controller.ts:26-137 | withdrawals, adjustments, reversals and refunds each do nothing or post one row that counts, as one posting event |
| Bookkeeping.DistributionIsRun | server/src/controllers/admin-wallet-ops.controller.ts:166-199 | a dividend run, from whatever reading of the ledger, is a run of such events |
| Bookkeeping.ReversalAlwaysDeletes | server/src/controllers/admin-wallet-ops.controller.ts:88-137 | in every reachable state every row is counted, so one reversal always leaves every worker with what deleting the row would |
| Bookkeeping.ReversalIs | server/src/controllers/admin-wallet-ops.controller.ts:88-137 | any row but a reversal can be reversed, and the one row posted has its worker, the opposite of its worth and the present time |
| Bookkeeping.SettlementActionsAre | server/src/controllers/admin-payment.controller.ts:14-46 | in every reachable state exactly the pending redemptions can be settled and exactly the open records reconciled, with exactly those two rows changed |
| Wallet.RedeemWallet | server/src/controllers/wallet.controller.ts:68-105 | a redemption row exactly when the amount is positive and covered |
| Wallet.CreateWalletAdjustment | server/src/controllers/admin-wallet-ops.controller.ts:26-83 | credits unchecked, debits against the redeemable balance |
| WalletAmounts.WithdrawalTakesWhatWasAsked | server/src/controllers/wallet.controller.ts:83-105 | a withdrawal goes through if and only if it is positive and covered, then lowers its worker's redeemable balance by what was asked for, to the half cent, and nobody else's |
| WalletAmounts.RedemptionIsHeld | server/src/controllers/wallet.controller.ts:95-103 | a redemption moves that amount on hold, a debit takes it from the available balance |
| WalletAmounts.AdjustmentMovesWhatWasAsked | server/src/controllers/admin-wallet-ops.controller.ts:36-71 | the same for adjustments, credits raising and debits lowering |
| WalletAmounts.RefundClawsBackIff | server/src/controllers/admin-payment.controller.ts:75-95 | a refund takes the worker's payout back if and only if the payout is zero; otherwise it adds the payout once more |
| Wallet.ReverseCreditTransaction | server/src/controllers/admin-wallet-ops.controller.ts:88-137 | the opposite of the effective contribution, never of a reversal |
| WalletRace.BalanceNeverNegative | server/src/controllers/wallet.controller.ts:74-105 | over all interleavings of withdrawals with unlocked postings and settlements nobody's redeemable balance goes below zero, rounding on storage included |
| WalletRace.CommitIsAtomicWithdrawal | server/src/controllers/admin-wallet-ops.controller.ts:41-80 | each commit is the atomic withdrawal on the ledger as it stands then |
| WalletRace.RefusalIsAtomicRefusal | server/src/controllers/wallet.controller.ts:91-93 | each refusal is the atomic answer at the moment of the read |
| WalletRace.UnlockedPairOverdraws | server/src/controllers/wallet.controller.ts:75-77 | without the lock two approvals of one reading overdraw exactly when together they exceed it |
| Settlement.SettleRedemption | server/src/controllers/admin-payment.controller.ts:14-46 | a pending redemption becomes COMPLETED together with its one record |
| Settlement.ReconcileSettlement | server/src/controllers/admin-payment.controller.ts:152-167 | a record is reconciled once |
| Settlement.AloneIsAtomic | server/src/controllers/admin-payment.controller.ts:14-46 | run without interleaving, check and transaction settle exactly the pending redemptions and reconcile exactly the open records |
| Settlement.BooksAlwaysReconcile | server/src/controllers/admin-payment.controller.ts:126-147 | with any overlap of calls a redemption is COMPLETED exactly when it has its one record, and pending plus reconciled totals equal everything paid out |
| Bookkeeping.SettlementHandlersAreSteps | server/src/controllers/admin-payment.controller.ts:14-167 | settling a redemption and reconciling a record, check and write together, are the two settlement events |
| Bookkeeping.ReachableBooksReconcile | server/src/controllers/admin-payment.controller.ts:14-46 | in every reachable state, with all other handlers at work on the same tables, a redemption is COMPLETED exactly when it has its one record and the totals equal everything paid out |
| Dividends.DistributeDividends | server/src/controllers/admin-wallet-ops.controller.ts:166-199 | one row for each member whose rounded share is positive |
| Dividends.PaysIff | server/src/controllers/admin-wallet-ops.controller.ts:183-194 | a run pays a member if and only if the share comes to half a cent, and then the share to the half cent; it pays nobody else |
| Dividends.EligibleIff | server/src/controllers/admin-wallet-ops.controller.ts:168-187 | the payouts looked at are the completed ones made after every dividend of the worker |
| Dividends.DistributionLeavesLittle | server/src/controllers/admin-wallet-ops.controller.ts:166-199 | right after a run no member has eligible earnings whose share is worth half a cent, and a paid one has none |
| Dividends.DistributionsAreFair | server/src/controllers/admin-wallet-ops.controller.ts:166-199 | on a strictly increasing clock, with any number of cooperatives, every completed payout is in the base of exactly one paying run or still eligible, and after k paying runs dividends are within k/2 cents of the cooperative's percentage of the consumed base |
| Dividends.PayoutIsKeptIff | server/src/controllers/admin-wallet-ops.controller.ts:184-187 | without the strict clock, a payout keeps all that if and only if it is stamped after its worker's last dividend |
| Dividends.PayoutAtDividendInstantIsLost | server/src/controllers/admin-wallet-ops.controller.ts:186 | otherwise it is never eligible again, whatever follows |
| Dividends.StaleDividendIsFairIff | server/src/controllers/admin-wallet-ops.controller.ts:168-197 | a dividend computed from an earlier reading uses every payout once if and only if the worker's eligible payouts are still the ones read |
| Idempotency.Service.Enter | server/src/middleware/idempotency.ts:35-51 | what an existing key row says to a request |
| Idempotency.Service.Claim | server/src/middleware/idempotency.ts:53-68 | the unique insert decides who runs |
| Idempotency.Service.Json | server/src/middleware/idempotency.ts:70-83 | the answer is sent and then stored, or its storing fails |
| Idempotency.FreshKeyRunsIff | server/src/middleware/idempotency.ts:35-68 | a request gets past the lookup, and past the insert to the handler, if and only if no request with its key got there before |
| Idempotency.HandlerRunsExactlyOnce | server/src/middleware/idempotency.ts:34-86 | over all interleavings, once any request with a key is decided, exactly one with that key has run or runs the handler |
| Idempotency.HandlerRunsAtMostOnce | server/src/middleware/idempotency.ts:34-86 | over all interleavings one request per key runs the handler, and a replay has its body and its response |
| Idempotency.ReplayHasARun | server/src/middleware/idempotency.ts:44-47 | a replayed response comes from some run under that key |
| Idempotency.KeyedRetriesPostOnce | server/src/middleware/idempotency.ts:34-86 | redemptions retried any number of times under any mix of keys add at most one ledger row a key |
| Idempotency.RedemptionAnswers | server/src/controllers/wallet.controller.ts:68-108 | a redemption's success names the row it posted, which took what was asked for; any other answer means nothing was posted |
| Idempotency.RedemptionsNameTheirRow | server/src/middleware/idempotency.ts:44-83 | over all interleavings that stays true of every answer, replayed ones included, under the request's own key |
| Idempotency.PersistingStores | server/src/middleware/idempotency.ts:70-83 | in every server state that interleavings lead to, storing an answer leaves that very answer under its request's key |
| Idempotency.StoredAnswerIsReplayed | server/src/middleware/idempotency.ts:39-51 | once the answer is stored, every later request with the key is answered from it: replayed to the same body if the answer has one, refused otherwise |
| Idempotency.LostAnswerIsNeverReplayed | server/src/middleware/idempotency.ts:81 | if storing the answer failed, no later retry is replayed or runs the handler |
| AuthService.AuthDatabase.SignIn | server/src/services/auth.service.ts:191-226 | lockout, suspension, wrong passwords and a new chain of tokens |
| AuthService.AuthDatabase.RefreshTokens | server/src/services/auth.service.ts:228-276 | rotation, expiry and reuse detection |
| AuthService.AuthDatabase.SignOutEverywhere | server/src/services/auth.service.ts:284-289 | every unrevoked token of the user is revoked and the version is raised |
| AuthService.AuthDatabase.ResetPassword | server/src/services/auth.service.ts:304-320 | a valid reset token ends all sessions and is used up |
| RefreshTokens.OneLiveTokenPerLogin | server/src/services/auth.service.ts:228-276 | with atomic refreshes each login's tokens form one acyclic chain with at most one unrevoked token |
| RefreshTokens.SessionEndIsFinal | server/src/services/auth.service.ts:236-244 | after reuse, sign-out everywhere or reset, whatever happens later, every refresh token the user had is taken for a replay, and no access token signed before is ever admitted again |
| RefreshTokens.LockedExactlyFromTheFifthMiss | server/src/services/auth.service.ts:199-222 | in every run an account is locked exactly from the fifth wrong password since its last login, the lock refuses even the right one, and once it has run out a single miss locks again |
| SessionWindows.LoginAnswers | server/src/services/auth.service.ts:191-226 | in every run: locked for fifteen minutes after each wrong password from the fifth on, refused while suspended, otherwise judged by the password |
| SessionWindows.AccessIsAdmittedIff | server/src/middleware/auth.ts:43-69 | an access token is admitted if and only if it is younger than fifteen minutes, its user's sessions were not ended since, and the user is not suspended |
| SessionWindows.RefreshAnswers | server/src/services/auth.service.ts:228-276 | over any run a refresh token gets the alarm if and only if it was used up, else a refusal if and only if it is over thirty days old, else new tokens |
| SessionWindows.ResetWorksIff | server/src/services/auth.service.ts:304-320 | a reset link works if and only if it was not used before and is at most fifteen minutes old, and ends its user's sessions |
| RefreshTokens.RotationLeavesOneLiveIff | server/src/services/auth.service.ts:253-267 | a rotation leaves one live token in its login if and only if no other was live when it wrote |
| RefreshTokens.OverlappingRefreshesFork | server/src/services/auth.service.ts:236-267 | two overlapping refreshes, or one overlapping a sign-out everywhere, leave a live token too many |

## Where the code and its descriptions differ

* The comment at server/tests/integration/failure-recovery.test.ts:86-94 says the sweep must resolve a
  booking stuck in DISPATCHING_TOP3 with nothing offered. The code never does. Nor does it pick up a
  booking in DISPATCHING_POOL without an open pool offer, which is also what the engine waits with in
  memory when there were three candidates or fewer, or one left in REQUESTED: `CrashRecovery.PickedUpIff`
  has the exact condition, `CrashRecovery.EveryPhaseStartsStranded` how such bookings come about.
* CANCELLED is final exactly for a booking that was assigned (`Cancellation.CancellationIsFinalIff`).
  Accepting looks only at the assigned worker, cancelling leaves offers open, and the offer loop does not
  look at the status again. `Cancellation.UnofferedCancellationIsFinalIff` has the condition once the
  loop is over, `LongestHistory` a run.
* The log does not always tell who accepted. With atomic handlers it does
  (`AcceptanceLog.ReachableAcceptancesAreLogged`), but three writes go by the row's id alone, some time
  after the row was read: the handler's LOCK_LOST, its DECLINED, and the sweep's TIMEOUT.
  `AcceptanceLog.LateOutcomeKeepsLogIff` has the exact condition,
  `AcceptanceLog.SecondAnswerOverwritesAcceptance` and `CrashRecovery.LateCloseOverwritesAcceptance` the
  ways to fail it.
* The comment at server/src/controllers/admin-worker.controller.ts:137-140 says that suspension takes a worker off
  duty and keeps the worker from going AVAILABLE. It does not when the worker is on a booking: releasing
  the worker writes AVAILABLE without a look at the suspension, and scoring does not look either.
  `WorkerDuty.SuspendedGoesAvailableIff` has the exact condition.
* A refund is meant to claw the worker's payout back with an offsetting row (system-blueprint.md:4281). The row is
  stored with the payout's own sign and so doubles it: `WalletAmounts.RefundClawsBackIff`.
* A reversal is written without a look at the status of the row it reverses. That does no harm because no
  handler posts a row that is not counted (`Bookkeeping.WalletHandlersPost`, `Bookkeeping.DistributionIsRun`):
  `Bookkeeping.ReversalAlwaysDeletes`.

## Left out

- IEEE floating point: amounts are whole cents with exact rounding, ratings and scores exact reals.
- Geometry: the distance of a worker is an arbitrary non-negative number within that worker's radius.
- bcrypt, sha256, JWT signing: hashes are injective, signatures unforgeable; a password is right or wrong.
- Notifications, sockets, logging, caching, rate limits, request parsing beyond the checks modelled.
- Redis and server clocks are one clock that never goes back; equal times are allowed except where a strict clock is named.
- releaseBookingLock and getBookingLockHolder: no code path uses them.
- refundBooking: only the row it inserts is modelled, not its checks or the payment it marks.
- DispatchController.AcquireBookingLock: the key is set when the call is made; AcceptLock lets requests wait arbitrarily long before and after.
- WorkerController.SetWorkerSuspension: the audit row about the worker is not kept; `audit` holds the rows about bookings.
- Wallet.CreateWalletAdjustment: the audit row about the ledger row is not kept.
- Wallet.ReverseCreditTransaction: the audit row and the reference to the reversed row are not kept; no computation reads them.
- Settlement.SettleRedemption: the audit row about the redemption is not kept.
- AcceptLock.AloneIsAtomicAccept: compares answer, clock, lock and assigned worker; the split steps keep no offer, worker or audit rows.
- WalletRace.BalanceNeverNegative: excludes REFUND and REVERSAL rows, which are not checked against the balance.
- DispatchEngine.Dispatch.EnqueueDispatch: assumes no sweep acts on the booking and no store error; the pool deadline's read, closing and cancelling are one step.
- ReconciliationSweep.RunReconciliationSweep: rows are visited in table order, and a sweep is not interleaved with other steps; the ranking of candidates is any list per booking and sweep.
- CrashRecovery.OrphanIsCancelled: each sweep is one step; other steps come between sweeps, not inside one.
- Dividends.DistributionsAreFair: distributions are atomic, and a cooperative's percentage and members are fixed, which no handler changes; Dividends.StaleDividendIsFairIff says when overlapping ones are fair.
- RefreshTokens.OneLiveTokenPerLogin: refreshes are atomic; RefreshTokens.RotationLeavesOneLiveIff says when overlapping ones are harmless.
- Idempotency.KeyedRetriesPostOnce: the hash covers the body only, as in the code, so path parameters are not part of a request; expired keys are never removed by the code and stay here too.
- AuditReplay.ReachableTrailIsFaithful: the worker of an acceptance row is its actor.
- Soft deletion of users: the column is read but no code writes it.
- Timeline.ConsecutiveJobStreak: every day of the server has 24 hours; changes to and from summer time are not modelled.
- One-time codes, document upload, demand heatmap, incentives expiry, list and detail getters: they would add easy members only.
