# ParkirPintar: a verified model

ParkirPintar is a parking marketplace: a driver books a spot, pays a booking fee within five minutes, checks in
within the hour and is billed at check-out. The services share one PostgreSQL database and one Redis. This project
models the parts on which money and spots depend, and proves what they guarantee over every run.

Times are integer nanoseconds. Clock readings, uuids, the spot a lookup returns, and whether each remote call
succeeded are parameters of the operations; a call that fails has no effect. Every class mirrors a class of the
services and changes the same tables and Redis keys in the same order; each of its methods is proved equal to a
specification function on values, and runs are folds of those functions.

| file | what it holds |
|---|---|
| `Clock.dfy`, `Wrappers.dfy` | durations; optional values, results, errors |
| `Pricing.dfy` | the tariff |
| `Redis.dfy`, `Lock.dfy`, `Idempotency.dfy` | the shared keyspace, the owner-tagged lock and its traces, the response cache |
| `Reservation.dfy`, `ReservationRepository.dfy`, `ReservationUsecase.dfy` | reservation rows, their SQL, the reservation service |
| `Protocol.dfy`, `Exclusivity.dfy`, `Lifecycle.dfy` | runs: no double booking, how sharp that is, row lifecycle and shape |
| `Interleaving.dfy` | the reservation service's calls, statement by statement |
| `Operations.dfy`, `Expiry.dfy`, `PaidFor.dfy` | exactly when each operation goes through and what it leaves, in the words of the tables; what is expired; what is paid |
| `RateLimiter.dfy`, `RateLimitRuns.dfy` | the sliding-window limiter over in-place buffers, and its whole-run bound |
| `Payments.dfy`, `WebhookReplay.dfy`, `ReplayTraces.dfy`, `Billing.dfy` | transactions, notifications and their replays, invoices |
| `Gateway.dfy`, `Saga.dfy`, `Retry.dfy` | the gateway handlers, the booking saga with its compensation, and what a retry of it does |
| `Ledger.dfy`, `SystemSafety.dfy` | runs of all services together |
| `Visits.dfy`, `Checkout.dfy`, `RepeatCheckout.dfy` | complete visits as runs, what a stay is charged in every reachable state, and what repeating a check-out does |
| `ChargeChain.dfy`, `BorrowedKey.dfy`, `SagaSchedule.dfy` | statement-level interleavings of booking requests, a payment that breaks their chain, and the saga as one of their schedules |

## Where the code falls short of its documents

The model follows the code. Each point below names the lemmas that state it, with a concrete input, an exact condition
or both.

- The lock is taken before the row is dated, so it ends before `ExpiresAt`. No double booking up to `ExpiresAt` holds
  if and only if no time passes between the two clock readings (`Exclusivity.ExclusiveIffNoSlack`); with a delay of at
  most `slack` it holds up to `ExpiresAt - slack` (`Protocol.NoDoubleBooking`).
- The gateway's payment confirmation checks neither the pending deadline nor the lock's owner; a late one revives a
  hold on a spot booked again (`Exclusivity.LateConfirmationDoubleBooks`). A lost EXPIRE does the same
  (`Exclusivity.LostExtensionDoubleBooks`). `Exclusivity.ConfirmationBackedIff` says exactly when a confirmation is safe.
- It does not ask what the transaction was for either: one settled payment confirms any number of bookings
  (`Visits.OnePaymentConfirmsAll`, `Visits.SharedPayment`). If it did, none would confirm two
  (`Visits.OwnPaymentsConfirmOnce`).
- An active session keeps no lock. A car parked for more than an hour loses its spot to the next booking
  (`Exclusivity.OverstayDoubleBooks`): a spot in use is booked again exactly when the lock has run out
  (`Exclusivity.HeldSpotTakenIff`).
- `ConfirmReservation` of the reservation service extends the lock with SET NX, which a lock still held refuses
  (`Exclusivity.DirectConfirmationDoubleBooks`); it is safe exactly on a lock that is free or already runs for the hour
  (`Exclusivity.DirectConfirmationBackedIff`). No handler calls it.
- The UPDATE statements carry no status guard. A check-in overtaken by a cancellation makes the cancelled row active
  and shares a spot booked again (`Interleaving.LateCheckInDoubleBooks`). Under interleaving the documented lifecycle
  holds if and only if every UPDATE still finds a status its operation allows (`Interleaving.EdgesIffStillAllowed`),
  and then no spot is double booked (`Interleaving.StillAllowedNeverDoubleBooks`).
- Retrying a booking with a key already used answers with success without looking at the reservation. After a rollback
  it charges a new 5000 for the cancelled reservation (`Retry.RetryAfterRollback`); after the payment timeout it names
  a reservation whose spot another driver has (`Retry.LapsedRetrySucceeds`). `Retry.SuccessHoldsIff` says exactly when
  success means that the spot is held.
- Retrying a booking that has been paid and confirmed cancels it if a later call of the retry fails
  (`Retry.RetryCancelsPaidBooking`); `Retry.FailureUndoesEarlierIff` says exactly when.
- A payment made under another booking's payment key becomes that booking's payment
  (`BorrowedKey.BorrowedPayKeyBreaksLink`); `ChargeChain.LinkedIffAllFit` says exactly when no link breaks.
- A notification replayed after its saved key has lapsed, or was never saved, overwrites later statuses
  (`WebhookReplay.OvertakenReplay`). Exactly the arrivals that find no saved key alive take effect
  (`WebhookReplay.AppliedIff`); no repeat does if and only if the first arrival's key was saved and is alive each time
  (`WebhookReplay.NoRepeatTakesEffectIff`, `WebhookReplay.CoveredIffInTime`), and `ReplayTraces.ReplayIsIdempotentIff`
  says exactly when repeats leave no trace.
- The check-out invoice runs from the confirmation, not from the check-in. It is too high by nothing, 5,000, 20,000 or
  25,000 if and only if the two clock readings of a check-in agree (`Checkout.FourSurchargesIff`); a check-in in the
  last instant of the hold, dated a tick later, is charged 10,000 too much (`Checkout.SlowCheckInOvercharged`).
- A check-out whose key is in the cache does not ask whose reservation it is. If the first call's invoice failed,
  another driver's repeat puts it in the other driver's name (`RepeatCheckout.OtherDriverBilled`);
  `RepeatCheckout.RunBillsOwners` says when every invoice names the right driver.
- The billing subscriber answers every check-out event with a second invoice over the last hour, whatever the stay.
  A ten-hour stay worth 50,000 gets one of 5,000 (`Checkout.EventInvoiceUndercharges`); `Checkout.EventInvoiceCoversIff`
  says exactly which stays it covers. The bounds above are about the invoices of the gateway's check-out.
- The application's README (line 228) gives the lock a lifetime of 3600 seconds; the code takes it for five minutes
  (`Saga.AllOrNothing`) and extends it to one hour on payment (`Protocol.ConfirmPaidKeepsHolds`). Its line 53 allows one
  active reservation per driver; no code enforces it, and a driver can have two (`Visits.SharedPayment`).

## Model

| member | source | states |
|---|---|---|
| Pricing.OvernightIffMidnight | pkg/pricing/pricing.go:57-65 | The overnight flag holds exactly when a WIB midnight lies in (checkIn, checkOut], before the epoch too. |
| Pricing.BilledHoursMeaning | pkg/pricing/pricing.go:67-78 | h hours are billed exactly for stays of at least h - 1 hours and one minute, and less than h hours and one minute; none below a minute, and 720 from 719 hours and one minute on. |
| Pricing.BillItemised | pkg/pricing/pricing.go:25-44 | The parking fee is 5000 for each billed hour, the overnight fee 20000 for a midnight, the total their sum, the booking fee 5000 beside it. |
| Pricing.WholeMinutesMeaning | services/billing/internal/usecase/usecase.go:37-50 | The minutes shown are the whole minutes, truncated toward zero. |
| Pricing.CancellationFeeIff | pkg/pricing/pricing.go:46-55 | Cancelling is free for a no-show and in the first two minutes, and costs 5000 after. |
| Pricing.LongStayIsOvernight | pkg/pricing/pricing.go:25-78 | Twenty-five billed hours force the overnight fee; twenty-four do not. |
| Pricing.TotalMonotoneAndBounded | pkg/pricing/pricing.go:25-44 | Leaving later never costs less, and no bill exceeds 3,620,000. |
| Pricing.HoursSubadditiveIff | pkg/pricing/pricing.go:67-78 | Exactly when splitting a stay at b can never lower the billed hours. |
| Pricing.OvernightSplits | pkg/pricing/pricing.go:57-65 | A stay is overnight exactly when one of its two parts is. |
| Pricing.SplittingNeverCheaper | pkg/pricing/pricing.go:25-44 | With a whole-minute split, one bill never exceeds the two bills of the parts. |
| Pricing.EarlyStartSurcharge | pkg/pricing/pricing.go:25-44 | Billing from before the check-in adds no more hours than cover the lead, plus the overnight fee exactly when the bill's only midnight precedes the check-in. |
| Pricing.HoursExtraIff | pkg/pricing/pricing.go:67-78 | Starting the bill early never adds more than n hours exactly when n hours cover the lead or n is the cap. |
| Pricing.EarlierStartNeverCheaper | pkg/pricing/pricing.go:25-44 | Starting the bill earlier never lowers it. |
| Pricing.SurchargesAttained | services/gateway/internal/handler/handler.go:232-239 | The surcharges 20,000 and 25,000 are really charged by some stay. |
| Redis.DeleteIfEqualSeen | pkg/lock/lock.go:16-22 | What every later read sees after the compare-and-delete script: the key is gone exactly if it then held the value. |
| Redis.TakeAndGiveBack | services/reservation/internal/usecase/usecase.go:73-96 | Taking a free lock and giving it back is invisible from then on. |
| Redis.Client.Get | pkg/idempotency/idempotency.go:22-31 | Reads the value of a key that has not lapsed. |
| Redis.Client.Set | pkg/idempotency/idempotency.go:34-36 | Writes a value with its deadline, or nothing if the server does not answer. |
| Redis.Client.SetNX | pkg/lock/lock.go:33-35 | Writes only to a key that is absent or lapsed, and reports which. |
| Redis.Client.ReleaseScript | pkg/lock/lock.go:16-22 | Deletes the key only if it holds the value. |
| Redis.Client.Expire | services/gateway/internal/handler/extra.go:105 | Gives a live key a new deadline and leaves an absent one absent. |
| Lock.LockKeyInjective | services/reservation/internal/usecase/usecase.go:38-40 | Distinct spots have distinct lock keys. |
| Lock.Locker.Acquire | pkg/lock/lock.go:33-35 | Succeeds exactly on a free lock, which then belongs to the caller until the deadline. |
| Lock.Locker.Release | pkg/lock/lock.go:38-40 | Frees the lock only for its owner; anyone else changes nothing. |
| Lock.LeasePersists | pkg/lock/lock.go:16-40 | Under any interleaving, until its owner releases it or it runs out, a lease keeps its owner and its latest deadline. |
| Lock.TenuresDoNotOverlap | pkg/lock/lock.go:16-40 | Between two successful acquisitions of one key the first owner released it or its extended deadline passed. |
| Lock.ExtensionsOnlyLengthen | services/gateway/internal/handler/extra.go:98-106 | When every EXPIRE grants the longest lease, none shortens a deadline. |
| Idempotency.Store.Check | pkg/idempotency/idempotency.go:22-31 | Returns the saved response while it lasts. |
| Idempotency.Store.Save | pkg/idempotency/idempotency.go:34-36 | Saves the response, or loses it silently. |
| ReservationRepository.Repository.InsertReservation | services/reservation/internal/repository/repository.go:22-32 | Inserts exactly if id and idempotency key are unused (migrations/000003), and keeps the key unique. |
| ReservationRepository.Repository.GetReservation | services/reservation/internal/repository/repository.go:34-43 | The row of the id, or not found. |
| ReservationRepository.Repository.GetByIdempotencyKey | services/reservation/internal/repository/repository.go:61-70 | The one row of the key, or not found. |
| ReservationRepository.Repository.UpdateStatus | services/reservation/internal/repository/repository.go:72-77 | Sets the status of that row only, whatever it was. |
| ReservationRepository.Repository.UpdateConfirmed | services/reservation/internal/repository/repository.go:79-84 | Sets status and both dates of that row only. |
| ReservationRepository.Repository.UpdateCheckIn | services/reservation/internal/repository/repository.go:86-91 | Sets status, session and check-in of that row only. |
| ReservationRepository.Repository.UpdateCheckOut | services/reservation/internal/repository/repository.go:93-98 | Sets status and check-out of that row only. |
| ReservationRepository.Repository.UpdateCancelled | services/reservation/internal/repository/repository.go:100-105 | Sets status and cancellation date of that row only. |
| ReservationRepository.Repository.ListExpiredReservations | services/reservation/internal/repository/repository.go:184-206 | Lists every confirmed or pending row past its deadline, once each, and no other. |
| ReservationUsecase.Usecase.CreateReservation | services/reservation/internal/usecase/usecase.go:42-103 | Ends in the specified table, keyspace and answer on every path, failures included. |
| ReservationUsecase.Usecase.ConfirmReservation | services/reservation/internal/usecase/usecase.go:105-133 | Likewise, with the SET NX that cannot extend. |
| ReservationUsecase.Usecase.CancelReservation | services/reservation/internal/usecase/usecase.go:135-168 | Likewise; the fee is the tariff's for the time since confirmation. |
| ReservationUsecase.Usecase.CheckIn | services/reservation/internal/usecase/usecase.go:170-201 | Likewise; the deadline is checked on one clock reading and the row dated by the next. |
| ReservationUsecase.Usecase.CheckOut | services/reservation/internal/usecase/usecase.go:203-242 | Likewise, with the replayed-key path. |
| ReservationUsecase.Usecase.ExpireReservations | services/reservation/internal/usecase/usecase.go:271-287 | For any pattern of failures the loop expires exactly the lapsed rows whose update succeeded and frees exactly the locks they hold whose release succeeded. |
| ReservationUsecase.SweepOneMore | services/reservation/internal/usecase/usecase.go:276-285 | One iteration of the sweep extends the set-based specification by one row. |
| Protocol.CreateKeepsHolds | services/reservation/internal/usecase/usecase.go:42-103 | A creation never takes a spot whose hold still runs, and backs its own hold by its lock. |
| Protocol.ConfirmPaidKeepsHolds | services/gateway/internal/handler/extra.go:82-106 | A timely confirmation moves hold and lock to one hour together, and no EXPIRE shortens another's lock. |
| Protocol.StepKeepsHolds | services/reservation/internal/usecase/usecase.go:42-287 | Every operation keeps each running hold backed by its own lock that lasts to its deadline, less the slack. |
| Protocol.RunKeepsHolds | services/reservation/internal/usecase/usecase.go:42-287 | The same over every run. |
| Protocol.NoDoubleBooking | services/reservation/internal/usecase/usecase.go:42-287 | In every run two pending, confirmed or active reservations with more than the slack left never share a spot. |
| Exclusivity.ExclusiveIffNoSlack | services/reservation/internal/usecase/usecase.go:73-91 | Exclusivity up to ExpiresAt holds in all runs if and only if creation takes no time between lock and row. |
| Exclusivity.SlowCreateDoubleBooks | services/reservation/internal/usecase/usecase.go:73-91 | A two-step run that shares a spot when creation is one tick slow. |
| Exclusivity.LateConfirmationDoubleBooks | services/gateway/internal/handler/extra.go:88-106 | A run in which a payment confirmed late shares a spot booked again. |
| Exclusivity.LostExtensionDoubleBooks | services/gateway/internal/handler/extra.go:98-106 | A run in which a lost EXPIRE leads to a shared spot. |
| Exclusivity.DirectConfirmationDoubleBooks | services/reservation/internal/usecase/usecase.go:114-122 | A run in which SET NX fails to extend and the spot is shared. |
| Exclusivity.ConfirmationBackedIff | services/gateway/internal/handler/extra.go:88-106 | A confirmation leaves the hold backed by its lock exactly when the lock was still the reservation's at an EXPIRE that went through, or already ran for the hour. |
| Exclusivity.OverstayDoubleBooks | services/reservation/internal/usecase/usecase.go:170-201 | A prompt run in which the spot of an active session is booked again after an hour. |
| Exclusivity.HeldSpotTakenIff | services/reservation/internal/usecase/usecase.go:42-103 | An unhindered creation takes the spot of a reservation in hold exactly when that spot's lock has run out, and in a prompt run not before its deadline. |
| Exclusivity.DirectConfirmationBackedIff | services/reservation/internal/usecase/usecase.go:114-122 | The reservation service's own confirmation does so exactly when its SET NX went through on a lock that was free, or the lock already ran for the hour. |
| Exclusivity.LeavingFreesTheSpot | services/reservation/internal/usecase/usecase.go:155-158 | Cancelling or checking out frees the spot at once if the hold still ran, and no other lock changes. |
| Exclusivity.SweepFreesTheSpots | services/reservation/internal/usecase/usecase.go:276-281 | An expired reservation no longer holds its spot's lock, and a lock someone else holds stays. |
| Exclusivity.DuplicateCreateIsNoOp | services/reservation/internal/usecase/usecase.go:44-100 | Creating with a used key returns the first booking or fails; table and, if the rollback goes through, all locks stay as they were. |
| Lifecycle.StepFollowsEdges | services/reservation/internal/usecase/usecase.go:105-287 | An operation leaves a row alone or moves it along one documented edge; no row is dropped or changes driver, spot or key. |
| Lifecycle.RunFollowsEdges | services/reservation/internal/usecase/usecase.go:105-287 | Over any run statuses only advance, terminal rows are frozen, and changes are bounded by the rank gained. |
| Lifecycle.AtMostThreeChanges | services/gateway/internal/handler/extra.go:214-219 | No reservation changes more than three times after its creation, the history page's expiry included. |
| Lifecycle.TransitionBudget | services/reservation/internal/usecase/usecase.go:105-287 | n reservations undergo at most 3n effective transitions in any run. |
| Lifecycle.StepKeepsShape | services/reservation/internal/usecase/usecase.go:81-235 | Deadlines, check-in, check-out, session and cancellation dates fit the status after every operation. |
| Lifecycle.RunKeepsShape | services/reservation/internal/usecase/usecase.go:81-235 | The same over every run. |
| Lifecycle.RunKeepsKeysUnique | migrations/000003_create_reservations_table.up.sql:10 | Idempotency keys stay unique over every run. |
| Operations.CreateExactly | services/reservation/internal/usecase/usecase.go:42-103 | With a key not in the cache: exactly when a booking is made, its row, its five-minute lock and its key saved for a day. |
| Operations.CancelExactly | services/reservation/internal/usecase/usecase.go:135-168 | Exactly when a cancellation goes through, its fee, the row and the lock it leaves. |
| Operations.CheckInExactly | services/reservation/internal/usecase/usecase.go:170-201 | Exactly when a check-in goes through and the row it leaves; Redis stays. |
| Operations.CheckOutExactly | services/reservation/internal/usecase/usecase.go:203-242 | With a key not in the cache: exactly when a check-out goes through, the row, the lock and the saved key it leaves. |
| Operations.DirectConfirmExactly | services/reservation/internal/usecase/usecase.go:105-133 | Exactly when the reservation service's own confirmation goes through, and what it leaves. |
| Operations.ConfirmationExtendsExactly | services/gateway/internal/handler/extra.go:98-106 | The gateway's confirmation redates whatever lock is alive on the reservation's spot to an hour from its EXPIRE, and touches no other key. |
| Operations.TransactionExactly | services/payment/internal/usecase/usecase.go:27-84 | With a key not in the cache: exactly when a transaction is inserted, by which methods, and with which order number, amount and status. |
| Operations.NoticeSaved | services/payment/internal/usecase/usecase.go:115-145 | A notice that takes effect keeps its key for a day. |
| Operations.InvoiceExactly | services/billing/internal/usecase/usecase.go:25-64 | With a key not in the cache: exactly when a parking invoice is inserted, unpaid, with every amount and the duration for the stay asked for. |
| Operations.BookingInvoiceExactly | services/gateway/internal/handler/extra.go:31-51 | Exactly when a booking invoice is found, inserted or refused, and every field of the one inserted, unpaid. |
| Expiry.SweepExpiresExactly | services/reservation/internal/repository/repository.go:184-206 | The expiry job sets to expired exactly the pending and confirmed rows past their deadline whose UPDATE went through. |
| Expiry.SweepFreesExactly | services/reservation/internal/usecase/usecase.go:271-287 | A lock goes exactly if such a row holds it and its release went through. |
| Expiry.SweepKeepsOtherKeys | services/reservation/internal/usecase/usecase.go:271-287 | No key but a lock is touched. |
| Expiry.SweepLeavesNoneLapsed | services/reservation/internal/usecase/usecase.go:271-287 | A job without failures leaves no pending or confirmed row past its deadline. |
| Expiry.HistoryExpiresExactly | services/gateway/internal/handler/extra.go:214-219 | The history page expires exactly the listed pending rows past their deadline; confirmed rows and locks stay. |
| Interleaving.CreateIsASchedule | services/reservation/internal/usecase/usecase.go:42-103 | Run without interruption, the statements of a creation do what the operation is specified to do. |
| Interleaving.CancelIsASchedule | services/reservation/internal/usecase/usecase.go:135-158 | The same for a cancellation. |
| Interleaving.CheckInIsASchedule | services/reservation/internal/usecase/usecase.go:170-190 | The same for a check-in. |
| Interleaving.CheckOutIsASchedule | services/reservation/internal/usecase/usecase.go:203-242 | The same for a check-out. |
| Interleaving.ExpiryIsASchedule | services/reservation/internal/usecase/usecase.go:276-281 | The same for the expiry job and one row it lists. |
| Interleaving.UpdateFollowsEdgeIff | services/reservation/internal/repository/repository.go:72-105 | An unguarded UPDATE moves its row along a documented edge exactly when the row has a status its operation checks for. |
| Interleaving.EdgesIffStillAllowed | services/reservation/internal/repository/repository.go:72-105 | Over any interleaving all changes follow the documented edges if and only if every UPDATE comes while its row still has such a status. |
| Interleaving.StillAllowedNeverDoubleBooks | services/reservation/internal/usecase/usecase.go:42-287 | Such interleavings, racing creations included, never double book a spot. |
| Interleaving.LateCheckInDoubleBooks | services/reservation/internal/usecase/usecase.go:170-190 | A run from the empty system in which a check-in overtaken by a cancellation shares a spot booked again. |
| RateLimiter.Compact | services/gateway/internal/handler/ratelimit.go:33-39 | The aliased compaction leaves the order-preserving filter of the old contents in the same buffer. |
| RateLimiter.Append | services/gateway/internal/handler/ratelimit.go:46 | Appends in place or into a fresh larger buffer. |
| RateLimiter.Limiter.Allow | services/gateway/internal/handler/ratelimit.go:26-48 | Admits and stores exactly as specified; no other client's list changes. |
| RateLimiter.Limiter.Visit | services/gateway/internal/handler/ratelimit.go:56-67 | One client's turn in the cleanup prunes its list or forgets it. |
| RateLimiter.Limiter.Cleanup | services/gateway/internal/handler/ratelimit.go:53-69 | The cleanup prunes every list and forgets exactly the clients left with none. |
| RateLimitRuns.AnswersLikeNaive | services/gateway/internal/handler/ratelimit.go:30-47 | After any run the limiter admits exactly when fewer than limit of all requests it ever admitted for the client lie in the last window. |
| RateLimitRuns.CleanupsAreInvisible | services/gateway/internal/handler/ratelimit.go:50-71 | Cleanups inserted anywhere change no answer. |
| RateLimitRuns.AdmissionsAreHistory | services/gateway/internal/handler/ratelimit.go:26-48 | The limiter admits exactly the requests the never-pruning limiter records. |
| RateLimitRuns.RateBound | services/gateway/internal/handler/ratelimit.go:26-48 | The bound on the never-pruning limiter's record. |
| RateLimitRuns.RateLimitHolds | services/gateway/internal/handler/ratelimit.go:26-71 | In every run at most limit requests of a client are admitted in any interval (x, x+window]. |
| RateLimitRuns.StoredListsTidy | services/gateway/internal/handler/ratelimit.go:33-46 | Stored lists stay sorted, hold at most limit instants and none from the future. |
| Payments.Repository.InsertTransaction | services/payment/internal/repository/repository.go:22-33 | Inserts exactly if the invoice exists and id, idempotency key and order number are unused (migrations/000006). |
| Payments.Repository.GetByIdempotencyKey | services/payment/internal/repository/repository.go:53-60 | The one transaction of the key, or not found. |
| Payments.Repository.GetByGatewayTxID | services/payment/internal/repository/repository.go:44-51 | The one transaction of the order number, or not found. |
| Payments.Repository.UpdateStatus | services/payment/internal/repository/repository.go:62-67 | Sets status and paid date of that row only. |
| Payments.Usecase.CreateTransaction | services/payment/internal/usecase/usecase.go:27-84 | Ends in the specified table, cache and answer on every path. |
| Payments.Usecase.HandleWebhook | services/payment/internal/usecase/usecase.go:103-148 | Likewise: signature, duplicate, unknown order, update, save. |
| WebhookReplay.TouchesOwnOrderOnly | services/payment/internal/usecase/usecase.go:129-143 | A delivery changes at most the status and paid date of its own order's row. |
| WebhookReplay.SavedIff | services/payment/internal/usecase/usecase.go:115-145 | After any arrivals at any times, whatever calls failed, a notice's key is alive exactly if its order is known and an accepted arrival of it saved the key less than 24 hours ago. |
| WebhookReplay.AppliedIff | services/payment/internal/usecase/usecase.go:103-148 | An arrival takes effect exactly if it gets through, its order is known and no key saved by an accepted arrival of its notice is alive. |
| WebhookReplay.AcceptedDecide | services/payment/internal/usecase/usecase.go:103-148 | Any sequence of arrivals ends in the state of its accepted ones alone. |
| WebhookReplay.NoRepeatTakesEffectIff | services/payment/internal/usecase/usecase.go:115-127 | The same arrivals take effect with and without the repeats if and only if every repeat for a known order that gets through finds a saved key of an accepted arrival alive. |
| WebhookReplay.CoveredIffInTime | services/payment/internal/usecase/usecase.go:115-145 | That is so exactly when each comes within 24 hours of a first arrival that saved its key. |
| WebhookReplay.LastAcceptedPrevails | services/payment/internal/usecase/usecase.go:115-147 | After any arrivals each transaction stands as the last accepted notice of its order left it, paid date included. |
| WebhookReplay.LastFirstArrivalPrevails | services/payment/internal/usecase/usecase.go:115-147 | No repeat taking effect, that is the last of the order's first arrivals. |
| WebhookReplay.PaidIff | services/payment/internal/usecase/usecase.go:134-168 | An order that was notified is paid exactly if its last accepted notice is a settlement or an accepted capture. |
| WebhookReplay.StatusIff | services/payment/internal/usecase/usecase.go:150-168 | For every status, exactly which words of the last accepted notice leave it. |
| WebhookReplay.UntoldStays | services/payment/internal/usecase/usecase.go:129-143 | An order without an accepted notice stands as it did. |
| WebhookReplay.AnswerTells | services/payment/internal/usecase/usecase.go:103-148 | Exactly when a notice is answered; the answer is a duplicate exactly if the notice took no effect, and its status is the row's. |
| WebhookReplay.OvertakenReplay | services/payment/internal/usecase/usecase.go:145 | Repeating a notice after another one is harmless exactly if its key was saved less than 24 hours before; else it brings the old status back. |
| ReplayTraces.ReplayIsIdempotentIff | services/payment/internal/usecase/usecase.go:103-148 | Any arrivals end in the very state of the first ones alone if and only if no repeat that takes effect saves its key and, for each order, the last one accepted has the effect of the last to arrive first. |
| ReplayTraces.CoveredRepeatsHarmless | services/payment/internal/usecase/usecase.go:103-148 | Repeats that find a saved key alive leave no trace; where every save gets through, only they do. |
| Billing.Repository.InsertInvoice | services/billing/internal/repository/repository.go:23-46 | Inserts exactly if the reservation exists and id and key are unused (migrations/000005). |
| Billing.Repository.GetByIdempotencyKey | services/billing/internal/repository/repository.go:66-73 | The one invoice of the key, or not found. |
| Billing.Repository.MarkPaid | services/billing/internal/repository/repository.go:75-82 | Marks that invoice paid and changes no other. |
| Billing.Usecase.GenerateInvoice | services/billing/internal/usecase/usecase.go:25-64 | Ends in the specified table, cache and answer on every path. |
| Gateway.ExtraHandler.CreateBookingFeeInvoice | services/gateway/internal/handler/extra.go:31-51 | Returns the invoice the key has, or inserts one of 5000 for the reservation. |
| Gateway.ExtraHandler.ConfirmBookingPayment | services/gateway/internal/handler/extra.go:72-113 | Acts only on a settled transaction; guarded confirmation, invoice update and EXPIRE as specified. |
| Gateway.ExtraHandler.SimulateSettle | services/gateway/internal/handler/extra.go:305-357 | Settles the transaction and marks its invoice paid. |
| Gateway.GatewayHandler.CreateReservation | services/gateway/internal/handler/handler.go:59-115 | The saga ends in the specified state and answer whichever calls fail, compensation included. |
| Gateway.GatewayHandler.CheckOut | services/gateway/internal/handler/handler.go:208-260 | Check-out, then an invoice over confirmation to check-out, as specified on every path. |
| Saga.FirstCall | services/gateway/internal/handler/handler.go:65-74 | When the reservation call goes through, and what it leaves. |
| Saga.CompensationUndoes | services/gateway/internal/handler/handler.go:79-82 | Compensation frees exactly the lock the saga took and cancels its row. |
| Saga.AllOrNothing | services/gateway/internal/handler/handler.go:59-115 | For a fresh key: exactly on the smooth way the row, its lock, one unpaid 5000 invoice and one pending 5000 transaction on it, field by field; otherwise no transaction, no lock, no reservation but a cancelled one. |
| Retry.SuccessHoldsIff | services/gateway/internal/handler/handler.go:59-115 | An answer of success means that the named reservation is in hold with its spot's lock at t exactly when the key was not in the cache and t precedes the payment timeout, or it was and the reservation it was used for holds its spot already. |
| Retry.RunningHoldsHold | services/reservation/internal/usecase/usecase.go:42-287 | In every reachable state a reservation in hold does hold its spot up to its deadline, less the slack. |
| Retry.RetryChargesCancelledBooking | services/gateway/internal/handler/handler.go:65-100 | With the key of a cancelled reservation in the cache, the saga succeeds and charges for that reservation. |
| Retry.RetryAfterRollback | services/gateway/internal/handler/handler.go:65-100 | That happens on retrying a booking of an empty system whose payment failed and which was rolled back. |
| Retry.RepeatAnswersSame | services/gateway/internal/handler/handler.go:65-115 | A retry that finds both its keys cached changes nothing and repeats the first answer. |
| Retry.LapsedRetrySucceeds | services/gateway/internal/handler/handler.go:65-115 | A run from the empty system in which that answer names a reservation whose spot another driver has taken. |
| Retry.FailureUndoesEarlierIff | services/gateway/internal/handler/handler.go:78-98 | Exactly when a retry that fails cancels the reservation its key was used for. |
| Retry.RetryCancelsPaidBooking | services/gateway/internal/handler/handler.go:78-98 | A run from the empty system in which it cancels a paid and confirmed one. |
| Ledger.MoveKeepsCharges | services/billing/internal/usecase/usecase.go:25-64 | No operation changes what an issued invoice or transaction charges. |
| Ledger.ChargesNeverChange | services/billing/internal/usecase/usecase.go:25-64 | The same over every run, retries with other times included. |
| Ledger.PaidDatesAlwaysSound | services/payment/internal/usecase/usecase.go:134-143 | In every reachable state a paid date is set exactly while a transaction is settled, and exactly when an invoice is paid. |
| Ledger.CheckOutIssues | services/gateway/internal/handler/handler.go:232-239 | A check-out issues at most one unpaid invoice, over confirmation to check-out. |
| Ledger.RunIsSound | services/gateway/internal/handler/handler.go:208-260 | Every reachable invoice of a check-out itemises its completed reservation's stay from confirmation to check-out: session, hours, minutes, fees and total; every booking invoice is 5000. |
| Ledger.NothingConfirmedUnpaid | services/gateway/internal/handler/extra.go:72-96 | A reservation beyond pending was confirmed, while pending, on a transaction settled at that moment. |
| PaidFor.ConfirmationPaysExactly | services/gateway/internal/handler/extra.go:72-87 | A confirmation behind a settled transaction pays exactly the booking-fee invoices of its reservation, at that instant. |
| PaidFor.ConfirmationConfirmsExactly | services/gateway/internal/handler/extra.go:72-96 | Exactly when a confirmation goes through; it confirms its reservation, if pending, for an hour and no other. |
| PaidFor.SettlementPaysExactly | services/gateway/internal/handler/extra.go:305-357 | A simulated settlement settles its transaction and pays that transaction's invoice under its order number, and nothing else. |
| PaidFor.PaidIffPaidFor | services/gateway/internal/handler/extra.go:43-87 | In every run an invoice is paid if and only if a confirmation, a settlement or a payment mark paid it; none is issued paid. |
| Checkout.NeverUndercharged | services/gateway/internal/handler/handler.go:232-239 | In every run, every invoice of a check-out covers at least the price of the stay. |
| Checkout.CheckoutOvercharge | services/gateway/internal/handler/handler.go:232-239 | It exceeds that price by at most the hours that cover one hour and the delay between a check-in's two clock readings, plus the overnight fee exactly when the invoice's only midnight precedes the check-in. |
| Checkout.HoursTooManyIff | services/reservation/internal/usecase/usecase.go:181-186 | For every bound on that delay, exactly which number of hours no check-out bills too many of. |
| Checkout.FourSurchargesIff | services/reservation/internal/usecase/usecase.go:181-186 | The surcharge is 0, 5,000, 20,000 or 25,000 in all runs if and only if that delay is nil. |
| Checkout.SlowCheckInOvercharged | services/reservation/internal/usecase/usecase.go:181-186 | A run from the empty system with a surcharge of 10,000. |
| Checkout.EventInvoiceCoversIff | services/billing/internal/subscriber/subscriber.go:53-63 | Exactly which stays the billing subscriber's invoice covers. |
| Checkout.EventInvoiceUndercharges | services/billing/internal/subscriber/subscriber.go:53-63 | A run in which a stay worth 50,000 is invoiced by the subscriber at 5,000. |
| RepeatCheckout.CachedCheckOut | services/gateway/internal/handler/handler.go:208-260 | A check-out that finds both its keys cached changes nothing and answers with the invoice of its key. |
| RepeatCheckout.RepeatAnswersSame | services/reservation/internal/usecase/usecase.go:203-211 | Repeating a check-out within a day changes nothing and gives the first answer. |
| RepeatCheckout.RunBillsOwners | services/gateway/internal/handler/handler.go:232-239 | If check-outs that hit the cache come from the reservation's own driver, every check-out invoice of every run names its reservation's driver. |
| RepeatCheckout.OtherDriverBilled | services/reservation/internal/usecase/usecase.go:203-211 | A run from the empty system in which one does not. |
| Visits.OnePaymentConfirmsAll | services/gateway/internal/handler/extra.go:72-96 | One settled transaction confirms any number of pending reservations, and nothing more is charged. |
| Visits.SharedPayment | services/gateway/internal/handler/extra.go:72-96 | A run from the empty system in which it confirms two. |
| Visits.OwnPaymentsConfirmOnce | services/gateway/internal/handler/extra.go:72-96 | If every confirmation that takes effect named a payment for its own reservation, no transaction would confirm two in any run. |
| SystemSafety.MoveKeepsHolds | services/gateway/internal/handler/extra.go:88-106 | Payments, invoices and their cache entries leave every hold and its lock alone. |
| SystemSafety.SystemNeverDoubleBooks | services/gateway/internal/handler/handler.go:59-260 | No double booking over runs of all services together. |
| ChargeChain.ActionKeepsInv | services/gateway/internal/handler/handler.go:65-93 | Every statement of every interleaving keeps keys unique and the chain linked. |
| ChargeChain.ChargedAtMostOnce | migrations/000006_create_payments_table.up.sql:15 | Under any retries, interleavings, crashes, cache losses and other inserts a client key has at most one reservation, booking invoice and booking payment; if the other inserts fit, each is linked to the one before. |
| ChargeChain.AnswersAgree | services/gateway/internal/handler/handler.go:102-114 | Two answered requests with one key name the same reservation, invoice and payment. |
| ChargeChain.InsertKeepsInvIff | services/gateway/internal/handler/handler.go:300-319 | An insert made elsewhere keeps the chain linked exactly if, under a key of the saga's, it is the row the saga would insert. |
| ChargeChain.LinkedIffAllFit | services/gateway/internal/handler/handler.go:300-319 | Over every interleaving the chain of every key is linked if and only if every insert made elsewhere is of that kind. |
| BorrowedKey.BorrowedPayKeyBreaksLink | services/gateway/internal/handler/handler.go:300-319 | A run from the empty system in which a booking is answered with the payment of another booking's invoice, made under its payment key. |
| SagaSchedule.SagaIsASchedule | services/gateway/internal/handler/handler.go:59-115 | Every outcome of the saga is the outcome of a schedule of the statement-level machine, with the same answer. |

## Left out

- Transport, JSON, authentication, logging, tracing, configuration, connection set-up and the empty-key check of the gRPC handlers.
- The circuit breaker, whose state machine is gobreaker's and not part of this model.
- Calls to the payment provider, SHA-512 and JWT: parameters that say whether they succeeded. Charges made at the provider before the transaction row is inserted are outside the model.
- Message delivery and notifications. The billing subscriber's invoices are in the runs, for any event at any time; one parking invoice per session is not claimed.
- Remote calls that report an error but took effect; here a failed call has no effect.
- Spot lookup: the spot found is a parameter; the spots table is never updated by the code shown.
- ReservationRepository.Repository.InsertReservation: the foreign key to spots is not modelled, because the spot is one a lookup has just returned and no code deletes spots.
- `GenerateBookingFeeInvoice` of the billing service, which nothing but its own tests calls: the gateway inserts the booking invoice itself, and that path is modelled.
- `PreviewBilling`, `CalculateCancellationFee` and presence: no state that the others depend on.
- QR strings, VA numbers, payment URLs and provider expiry dates stored with a transaction.
- Postgres microsecond rounding, and the saturation of Go durations beyond 292 years, which the 720-hour cap hides.
- Interleaving.StillAllowedNeverDoubleBooks: payment confirmations are uninterrupted there; a spot is not covered between their UPDATE and their EXPIRE.
- The order and the limit of twenty rows in which the history page lists reservations; the listed ids are a parameter.
- RateLimiter.Limiter.Allow: clients are values of any type with equality; the source uses address strings.
- ChargeChain.ChargedAtMostOnce: the links need other inserts under "booking-" and "pay-booking-" keys to fit; a client may break this in CreatePayment (BorrowedKey.BorrowedPayKeyBreaksLink).
- ReplayTraces.ReplayIsIdempotentIff: order numbers hold no colon (they are "PP-" and eight hexadecimal digits), and none of the notices' keys is saved at the start.
- Protocol.NoDoubleBooking: a drawn uuid is new, Redis evicts no lock key, and clocks of the services agree.
