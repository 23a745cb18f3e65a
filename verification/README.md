# A verified model of the bond engine

This project models the platform's bond engine as one system and proves what it promises:
the register of who holds how many units, the wallets and escrow behind it, and the hourly
run that declares defaults, pays coupons and returns principal. It also covers the lease
that serialises the run, the audit log's hash chain, and the base32 coder and code window
of two-factor login.

`dafny verify dfyconfig.toml` checks everything.

## How it is built

Every database transaction is one function from a state to a state; an exception inside it
leaves the state as it was. Where the program changes things step by step (the accrual
sweep, the SQL procedures, the wallet service, the passes of the engine) there is a class or
a method with loops, proved equal to such a function, and the guarantees are lemmas about
the functions over every run.

| module | what it holds |
|---|---|
| `Sums`, `Money`, `Calendar` | sums over tables, integer money, the civil calendar |
| `Schedule` | month addition, maturity, coupon periods, checkpoints |
| `Accrual`, `PositionHistory`, `CouponTotals` | the accrual sweep, the rebuilt past of the register, what a period costs |
| `Register`, `BondRegister` | the unit register as functions, and as tables updated in place |
| `Wallet`, `WalletService` | balances and ledger, and the service that moves them |
| `Escrow`, `BookSteps`, `SubscriptionService` | wallets and all bonds together, with a stop possible between any two steps |
| `CouponRun`, `Claims`, `ClaimTries`, `ClaimsRefinement` | the coupon run one at a time, by any number of overlapping workers, how often they call the rail, and why the first is the second with one worker |
| `Redemption` | returning principal |
| `Engine`, `EngineRuns` | the engine's steps on top of the platform, and the invariant of every run |
| `EngineGuarantees`, `EngineOutcomes`, `EngineDefault`, `EnginePrincipal` | what holds over whole runs |
| `EngineDates`, `EngineTries`, `EnginePayees` | over whole runs: the dates of a bond, how often a coupon is tried, and who is paid |
| `EngineReachable` | runs that can be named: every run can go on, and one reaches a coupon outstanding |
| `EngineService` | the engine's services as a class with loops |
| `JobLock`, `LeasedRuns` | the lease, and coupon workers that move only under it |
| `AuditChain`, `Totp` | the hash chain, base32 and code checking |

Conventions. Dates are UTC; clock seconds and day numbers count from 0000-01-01; steps carry
non-decreasing times. Rows are never deleted, so an id is a row's position. Random
references, page order, the rail's answers and the hash functions are parameters. The rail
either credits once and says so, or fails or throws without a credit, and no other call of a
coupon or principal attempt fails. `trade_date` and the other date defaults are the UTC day
of the step. Creating a listing is one step, although the service reads before it writes.
Wallet amounts and unit-days are unbounded integers; the overflow of BIGINT columns is
modelled in the SQL procedures only.

What an operation comes to is also stated without the functions it is made of, in numbers:
365 days and ten-thousandths, three tries, 48 hours, 90, 30 and 7 days.

## Where the code and its own words differ

The model follows the code.

- The claim on a coupon row is documented as making it impossible for two overlapping runs
  to pay one coupon (src/bonds/engine/coupon-runner.service.ts:131-133). It raises `attempts`
  but leaves the status outstanding, so a run that reads after another's claim can claim
  again: `Claims.OverlappingRunsPayTwice`. `Claims.AtMostThreeDisbursements` holds for every
  interleaving. Exactly once holds as long as no worker reads a payment another is in the
  middle of and none stops between a credit and its record (`Claims.CarefulRunsPayOnce`), and
  wherever a worker does read one with attempts left, harm can follow
  (`Claims.ReadingBusyPaymentPaysTwice` and the two lemmas beside it). Runs that do not overlap
  are of that kind, and `LeasedRuns.LeasedRunsPayOnce` gets there from the lease's own rules.
  `ClaimsRefinement.LoneWorkerIsThePass` shows that such a run is the step the engine's
  guarantees are about.
- A release names its instance but not its lease (src/scheduler/job-lock.service.ts:62-67), so
  the release of an earlier task, arriving late, frees a later lease of the same instance:
  `JobLock.LateReleaseOfOwnLease`. `JobLock.LeasesHeldExactlyWhenHarmless` and
  `JobLock.LateReleaseSafeExactlyWhen` say exactly when a release does harm, and
  `JobLock.NoTwoTasksTogether` that tasks exclude each other in every run without such a one.
- Confirming a deposit looks its row up by reference without asking that it is a deposit
  (src/wallet/wallet.service.ts:153-155). `Wallet.ConfirmDepositKeepsInvExactlyWhen` says
  exactly when the books still balance afterwards, and
  `Wallet.FailedDepositResultLosesWithdrawal` what is lost when they do not.
- A paid amount that differs from the deposit is meant to mark the row failed
  (src/wallet/wallet.service.ts:172-176), but the exception rolls that back; the row stays
  pending.
- A trailing stub is said to settle with principal (src/bonds/engine/schedule.ts:56-59);
  redemption pays units only. A tenor that is not a multiple of the coupon step, which the
  bond table admits, leaves a stub of at least 28 days without a coupon, half a year for
  thirty months at annual coupons (`Schedule.HalfYearStub`); and for a multiple, issue days
  from 29 on can still leave up to three days. `Schedule.TailExactly` says exactly when nothing
  is left.
- Only the default protocol suspends coupon rows. A bond moved to defaulted by hand and then
  closed has a payable row again exactly when one was outstanding
  (`EngineDefault.HandDefaultPayableExactlyWhen`), and there are runs in which such a row is
  then paid (`EngineReachable.HandDefaultedBondIsPaid`).

## Model

| member | source | states |
|---|---|---|
| Money.ApplyWithholdingTax | src/bonds/engine/money.ts:20-24 | net and tax add up to gross, the tax is a tenth rounded down, and exactly a negative gross is refused |
| Money.GrossOfSum | src/bonds/engine/accrual.ts:95 | rounding two holders separately loses less than one minor unit against rounding their sum |
| Money.CouponFor | src/bonds/engine/money.ts:33-39 | refused exactly for negative units, a rate over 5000 or more than 3660 days; otherwise 3650000 times the gross is units times rate times days, rounded down |
| Money.YearPaysTheRate | src/bonds/engine/money.ts:11 | units held for 365 days earn exactly units × rate / 10000, rounded down |
| Calendar.DayNumberOrder | src/bonds/engine/schedule.ts:31-33 | one valid date is before another exactly when its day number is smaller, so differences of day numbers are day counts |
| Calendar.YearStartInNumbers | src/bonds/engine/schedule.ts:31-33 | the days before a year are 365 for each, one more for every fourth, less every hundredth, plus every four hundredth |
| Calendar.MonthStartInNumbers | src/bonds/engine/schedule.ts:31-33 | the days of a year before each month, number by number |
| Calendar.DateOfDayNumber | src/bonds/engine/schedule.ts:40-48 | reading the date off a day number undoes taking the day number |
| Calendar.DateStringsOrderAsDays | src/bonds/engine/accrual.ts:55-62 | for four-digit years, comparing YYYY-MM-DD strings is comparing days |
| Schedule.AddMonths | src/bonds/engine/schedule.ts:40-48 | the time-value arithmetic lands in the shifted month, on the day clamped to that month's length |
| Schedule.ComputeMaturity | src/bonds/engine/schedule.ts:50-53 | maturity is the issue date shifted by the tenor; a tenor under one is refused |
| Schedule.NextBoundary | src/bonds/engine/schedule.ts:70-82 | iterated clamped addition follows a closed form whose day only ratchets down |
| Schedule.BuildCouponSchedule | src/bonds/engine/schedule.ts:60-84 | the loop returns exactly the boundaries up to maturity, at most 400 of them, and none for a zero coupon |
| Schedule.BoundariesIncrease | src/bonds/engine/schedule.ts:72-82 | period boundaries strictly increase |
| Schedule.ScheduleFillsTenor | src/bonds/engine/schedule.ts:60-84 | floor(tenor / step) contiguous, strictly increasing periods from issue to no later than maturity; the 400 guard never cuts in |
| Schedule.TailOfWholeTenor | src/bonds/engine/schedule.ts:56-84 | when the step divides the tenor at most three days are left over, none exactly when every boundary month reaches the maturity day, and none for issue days up to 28 |
| Schedule.TailExactly | src/bonds/engine/schedule.ts:56-84 | for every tenor and step: no day is left without a coupon exactly when the step divides the tenor and every boundary month reaches the maturity day; at most three days when it divides, at least 28 when it does not |
| Schedule.HalfYearStub | src/bonds/engine/schedule.ts:56-59 | thirty months at annual coupons from 15 January 2025 leave 181 days without a coupon |
| Schedule.ScheduleIsWholeSteps | src/bonds/engine/schedule.ts:60-84 | the coupon schedule is one and the same list: the floor(tenor / step) whole steps from the issue date, no other |
| Schedule.CouponsAYear | src/bonds/engine/schedule.ts:20-27 | a twelve-month bond has twelve monthly, four quarterly, two half-yearly or one annual coupon |
| Schedule.MonthEndIssueLeavesTail | src/bonds/engine/schedule.ts:56-84 | a day-31 issue that meets a 28-day month loses three days against a 31-day maturity month |
| Schedule.JanuaryIssueLeavesTail | src/bonds/engine/schedule.ts:56-84 | 31 January 2025 with twelve monthly periods is such an issue |
| Accrual.AccruePeriod | src/bonds/engine/accrual.ts:40-108 | unwind and sweep give exactly the rows of the day-by-day reading; 3650000 times the gross of each is its unit-days times the rate, rounded down, a tenth of it tax; a rate over 5000 is refused and an empty period pays nobody |
| Accrual.Unwind | src/bonds/engine/accrual.ts:51-58 | unwinding today's register gives every holder's balance on the eve of the period |
| Accrual.Sweep.AccrueUntil | src/bonds/engine/accrual.ts:68-78 | adds balance times days for positive balances only, and moves the cursor |
| Accrual.SweepEvents | src/bonds/engine/accrual.ts:80-90 | after the sweep the weights are the day-by-day sums over the whole period and the balances those of its end |
| Accrual.AccrualsSettle | src/bonds/engine/accrual.ts:92-107 | exactly one row for every holder with a positive weight, in ascending user order |
| Accrual.DeltaOrderIrrelevant | src/bonds/engine/accrual.ts:60-62 | reordering the position changes alters no row |
| Accrual.FinishedPeriodIsSettled | src/bonds/engine/accrual.ts:51-58 | changes dated on or after the period's end, in register and history alike, change no row of it |
| Accrual.PeriodsAdd | src/bonds/engine/accrual.ts:64-78 | splitting a period into adjacent ones loses no unit-days and no days held |
| Accrual.ConstantHolderGetsCouponFor | src/bonds/engine/money.ts:33-39 | a holder who never moves earns exactly the single-holding coupon, within its 3660 days |
| Accrual.HeldForAYear | src/bonds/engine/accrual.ts:92-107 | a holder of the same units for 365 days earns units × rate / 10000, rounded down, for 365 days held |
| Accrual.RoundingLoss | src/bonds/engine/accrual.ts:92-107 | all holders together get at most the coupon on the whole weight, and short of it less than one unit each |
| Register.AllocateKeepsInv | prisma/migrations/20260813020653_bond_engine/migration.sql:480-544 | allocation keeps raise, register, subscriptions, cap and listings in agreement |
| Register.CancelKeepsInv | prisma/migrations/20260813020653_bond_engine/migration.sql:549-611 | cancellation keeps them too |
| Register.TradeKeepsInv | prisma/migrations/20260813020653_bond_engine/migration.sql:614-692 | a trade moves units without making or losing any, within the buyer's cap |
| Register.CreateListingKeepsInv | src/bonds/market.service.ts:15-47 | a new listing keeps a seller's listings within the holding |
| Register.CancelListingKeepsInv | src/bonds/market.service.ts:49-65 | withdrawing a listing keeps the invariant |
| Register.EveryRunKeepsInv | prisma/migrations/20260813020653_bond_engine/migration.sql:480-692 | after any steps in any order the raise is the sum of holdings and of allocated subscriptions, at most the size, every holding is what was allocated and bought less sold, 10000 times it is at most total × limit, and listings are covered |
| Register.SellerAlwaysHasTheUnits | prisma/migrations/20260813020653_bond_engine/migration.sql:646-650 | SELLER_INSUFFICIENT_UNITS cannot be raised |
| Register.ReversalAlwaysHasTheUnits | prisma/migrations/20260813020653_bond_engine/migration.sql:580-584 | INSUFFICIENT_UNITS_TO_REVERSE cannot be raised |
| Register.AllocatedExactlyWhen | prisma/migrations/20260813020653_bond_engine/migration.sql:480-544 | a subscription that passes every earlier check is refused for concentration exactly when 10000 × (held + units) > total × limit, else allocated; and what it then changes |
| Register.TradeRefusedExactlyWhen | prisma/migrations/20260813020653_bond_engine/migration.sql:614-662 | a trade that passes every earlier check is refused for concentration exactly when it takes the buyer over the limit |
| Register.TradeInNumbers | prisma/migrations/20260813020653_bond_engine/migration.sql:663-692 | a trade moves its units from seller to buyer, leaves the rest on sale, and is priced at the ask and charged the fee in ten-thousandths, each rounded down |
| Register.CancelledExactlyWhen | prisma/migrations/20260813020653_bond_engine/migration.sql:549-611 | a cancellation is made exactly within 48 hours, with no units sold on or listed, and gives back exactly its units |
| Register.SubscribedFor48Hours | src/bonds/subscriptions.service.ts:87-95 | a new row is for what was asked and can be cancelled for 48 hours and no longer |
| Register.StatusMovesLegally | prisma/migrations/20260813020653_bond_engine/migration.sql:430-447 | every step moves the status along the trigger's table, status by status |
| BondRegister.Tables.CreateSubscription | src/bonds/subscriptions.service.ts:87-95 | appends exactly the pending row, cooling off for 48 × 3600 seconds, or refuses an amount that is not positive |
| BondRegister.Tables.AllocateSubscription | prisma/migrations/20260813020653_bond_engine/migration.sql:480-544 | the in-place procedure is the register's function, refusal by refusal, and refuses for concentration exactly over the limit |
| BondRegister.Tables.CancelSubscription | prisma/migrations/20260813020653_bond_engine/migration.sql:549-611 | the in-place procedure is the register's function, refusal by refusal |
| BondRegister.Tables.Trade | prisma/migrations/20260813020653_bond_engine/migration.sql:614-692 | the in-place procedure is the register's function, never finds the seller short, and refuses for concentration exactly over the limit |
| BondRegister.Tables.List | src/bonds/market.service.ts:15-47 | the in-place operation is the register's function; the row is made exactly for units held and not yet listed, at an ask of 1 to 20000 |
| BondRegister.Tables.Unlist | src/bonds/market.service.ts:49-65 | the in-place operation is the register's function |
| PositionHistory.LoadPositionHistory | src/bonds/engine/coupon-runner.service.ts:55-83 | the loops collect exactly the dated changes of allocations, reversals and trades |
| PositionHistory.RebuiltBalanceIsTrue | src/bonds/engine/coupon-runner.service.ts:50-83 | after any run, the balance rebuilt for any holder and day is the units truly held at the end of that day |
| PositionHistory.RebuiltBalanceNotNegative | src/bonds/engine/accrual.ts:72 | no rebuilt balance is negative, so skipping such balances drops nothing |
| PositionHistory.RebuiltUnitDaysAreTrue | src/bonds/engine/accrual.ts:51-90 | unit-days are the sum over the period's days of the units truly held |
| PositionHistory.AccrualPaysTruePositions | src/bonds/engine/coupon-runner.service.ts:97-117 | exactly the holders with units in the period are paid, each for the units truly held |
| PositionHistory.OwedIsSettled | src/bonds/engine/coupon-runner.service.ts:120-123 | steps dated on or after a period's end leave the rows owed for it unchanged, so skipping duplicates hides no different amount |
| CouponTotals.BalancesAddUpToRaised | src/bonds/engine/accrual.ts:51-58 | on any day the rebuilt balances add up to the raise of that day |
| CouponTotals.PeriodCostsTheRaise | src/bonds/engine/accrual.ts:92-107 | a period costs at most one coupon on the raise, day by day, and short of that less than one unit per holder |
| Wallet.Locate | src/wallet/wallet.service.ts:153-155 | the first Paystack row with the reference, or none |
| Wallet.OpenDepositKeepsInv | src/wallet/wallet.service.ts:84-105 | an opened deposit moves no money |
| Wallet.DepositPaysWhatWasAsked | src/wallet/wallet.service.ts:84-204 | opened and then confirmed, a deposit pays in exactly what was asked if that was paid, nothing if it failed, and is not settled if another amount was paid |
| Wallet.ReserveWithdrawalKeepsInv | src/wallet/wallet.service.ts:243-267 | reserving keeps every balance non-negative and equal to its ledger fold |
| Wallet.ConfirmWithdrawalKeepsInv | src/wallet/wallet.service.ts:310-364 | settling or giving back keeps balances equal to their folds |
| Wallet.CreditKeepsInv | src/wallet/wallet.service.ts:395-446 | payouts and refunds keep balances equal to their folds |
| Wallet.DebitKeepsInv | src/wallet/wallet.service.ts:454-490 | the escrow debit keeps every balance non-negative and equal to its fold |
| Wallet.RestateKeepsInvExactlyWhen | src/wallet/wallet.service.ts:178-190 | a restated row keeps the books exactly when the money moved is the change in the row's worth |
| Wallet.ConfirmDepositKeepsInvExactlyWhen | src/wallet/wallet.service.ts:148-204 | confirming a deposit keeps the books exactly when it does not settle a withdrawal still in flight |
| Wallet.FailedDepositResultLosesWithdrawal | src/wallet/wallet.service.ts:148-204 | a failed deposit result under the reference of a reserved withdrawal leaves the balance short of its ledger by the amount, and no later transfer result gives it back |
| Wallet.FailedDepositResultLoses500 | src/wallet/wallet.service.ts:148-204 | one such input: a balance of 0 under a ledger of 500 |
| Wallet.FirstDecidingResultWins | src/wallet/wallet.service.ts:141-204 | whatever results arrive in whatever order, a pending row ends with the verdict of the first that decides it, and is settled once |
| Wallet.DeliveriesKeepInv | src/wallet/wallet.service.ts:303-364 | any sequence of addressed results keeps every balance equal to its fold |
| WalletService.Service.InitializeDeposit | src/wallet/wallet.service.ts:84-105 | the service's state becomes that of the opened deposit, and stays valid |
| WalletService.Service.ConfirmPaystackDeposit | src/wallet/wallet.service.ts:148-204 | the locked row is settled as the function says, else nothing changes |
| WalletService.Service.ConfirmPaystackWithdrawal | src/wallet/wallet.service.ts:310-364 | the locked row is settled as the function says, else nothing changes |
| WalletService.Service.InitiatePaystackWithdrawal | src/wallet/wallet.service.ts:231-297 | an accepted request leaves the balance as it was exactly when the transfer was declined or threw, else less the amount, and one new row that has failed, is complete, or waits while the transfer is pending |
| WalletService.MoneyBackExactlyWhenRefused | src/wallet/wallet.service.ts:284-295 | the money is back exactly when the transfer was declined or threw |
| WalletService.Service.CreditWallet | src/wallet/wallet.service.ts:395-446 | balance and ledger row move together |
| WalletService.Service.DebitEscrow | src/wallet/wallet.service.ts:454-490 | debited with its ledger row, or refused unchanged |
| Escrow.HoldKeepsInv | src/bonds/subscriptions.service.ts:79-85 | the debit taken before a subscription keeps the platform's invariant |
| Escrow.PlaceKeepsInv | src/bonds/subscriptions.service.ts:87-95 | the row placed on a hold keeps it |
| Escrow.UnwindKeepsInv | src/bonds/subscriptions.service.ts:161-168 | unwinding keeps it, with the money now owed |
| Escrow.RefundKeepsInv | src/bonds/subscriptions.service.ts:170-176 | refunding keeps it |
| Escrow.EveryRunKeepsPlatformInv | src/bonds/subscriptions.service.ts:79-191 | any steps of any users on any bonds, stopped anywhere, keep it |
| Escrow.MoneyIsConserved | src/bonds/subscriptions.service.ts:146-191 | wallets, live subscriptions, unplaced holds and unrefunded cancellations are together what came in less what went out |
| Escrow.NoFreeBonds | src/bonds/subscriptions.service.ts:149-153 | every row has its own completed debit of its owner for its amount; allocated rows are unrefunded, refunded rows are cancelled |
| Escrow.RefundedOnce | src/bonds/subscriptions.service.ts:170-190 | a refunded subscription is never refunded again |
| SubscriptionService.Service.HoldInEscrow | src/bonds/adapters/payment.adapter.ts:45-62 | succeeds exactly when the balance suffices, and remembers its ledger row |
| SubscriptionService.Service.Subscribe | src/bonds/subscriptions.service.ts:58-95 | the checks in order, then debit, then row; any refusal leaves everything as it was |
| SubscriptionService.Service.Cancel | src/bonds/subscriptions.service.ts:154-191 | unwind, then refund; a failed refund leaves the unwind and the debt standing |
| SubscriptionService.AnsweredExactlyWhen | src/bonds/subscriptions.service.ts:58-85 | each answer exactly when its check is the first to fail; accepted exactly for a bond on offer, an amount from its minimum, a tier from its own and a sufficient balance |
| SubscriptionService.CancelAnsweredExactlyWhen | src/bonds/subscriptions.service.ts:154-191 | refused to exactly those who are neither its owner nor an administrator |
| SubscriptionService.AcceptedIsPaidFor | src/bonds/subscriptions.service.ts:79-95 | an accepted subscription took exactly its amount and waits as a pending row backed by its hold |
| SubscriptionService.CancelledIsOwedOrRepaid | src/bonds/subscriptions.service.ts:146-190 | a cancellation gives back exactly what was paid, at once or as a debt |
| SubscriptionService.BothHalvesKeepInv | src/bonds/subscriptions.service.ts:146-153 | each half, and a stop between them, keeps the platform's invariant |
| BookSteps.TakeIsPlatformStep | prisma/migrations/20260813020653_bond_engine/migration.sql:480-692 | no step of the platform changes what a bond's register says about an earlier day |
| BookSteps.FinishedRowStays | src/bonds/engine/accrual.ts:51-90 | so the row owed for a finished period stays the same, amount by amount |
| CouponRun.PageIsWhole | src/bonds/engine/coupon-runner.service.ts:144-156 | a page that everything eligible fits into holds all of it |
| CouponRun.MaterialiseKeeps | src/bonds/engine/coupon-runner.service.ts:86-126 | creating rows keeps one row per schedule and holder, overwrites none, and leaves out nobody owed a positive gross |
| CouponRun.MaterialiseOwesTruly | src/bonds/engine/coupon-runner.service.ts:97-117 | every row is exactly what the register owes its holder for its schedule |
| CouponRun.AttemptsKeepInv | src/bonds/engine/coupon-runner.service.ts:158-226 | a pass keeps every row credited at most once, paid exactly when credited, with one tax record, and gross paid equal to net credited plus tax |
| CouponRun.EachAttemptedOnce | src/bonds/engine/coupon-runner.service.ts:135-162 | in a serial pass every row of the page is attempted exactly once and its claim wins |
| CouponRun.PassAdvances | src/bonds/engine/coupon-runner.service.ts:144-175 | a pass brings every payable row one attempt closer to being settled |
| CouponRun.ClosedExactlyWhen | src/bonds/engine/coupon-runner.service.ts:233-250 | a schedule is closed exactly when it is on the page with nothing outstanding |
| CouponRun.ClosedMeansSettled | src/bonds/engine/coupon-runner.service.ts:228-250 | a live bond's schedule that a run closes has a paid or escalated row for every holder it owes |
| Claims.AtMostThreeDisbursements | src/bonds/engine/coupon-runner.service.ts:128-187 | for any number of workers and any interleaving, stops included, attempts stay within three, the rail is called for a payment at most as often as it was claimed, and each time under an attempt number of its own |
| Claims.OverlappingRunsPayTwice | src/bonds/engine/coupon-runner.service.ts:128-141 | two overlapping workers can both pay one coupon |
| Claims.CarefulRunsPayOnce | src/bonds/engine/coupon-runner.service.ts:128-226 | however runs overlap, if no worker reads a payment another is in the middle of and none stops between credit and record, every payment is credited at most once and is paid and taxed exactly when credited |
| Claims.ReadingBusyPaymentPaysTwice | src/bonds/engine/coupon-runner.service.ts:128-187 | the converse: wherever one worker is disbursing an outstanding payment with attempts left, a read of it by another idle worker can lead to two credits |
| Claims.ReadingCreditedPaymentPaysAgain | src/bonds/engine/coupon-runner.service.ts:128-210 | the converse between credit and record: the credited payment can be credited again |
| Claims.ReadingFailingPaymentLosesPaid | src/bonds/engine/coupon-runner.service.ts:128-226 | the converse while a failure is about to be written: a payment credited and taxed can end up not paid |
| ClaimTries.GivenUpAfterThreeCalls | src/bonds/engine/coupon-runner.service.ts:135-175 | for careful, unbroken workers: a payment given up was sent to the rail exactly three times and credited none of them; one still outstanding less than three times, once for each attempt |
| ClaimTries.StoppedBeforeThirdCall | src/bonds/engine/coupon-runner.service.ts:135-156 | a worker that stops between its third claim and the call leaves the payment outstanding for good |
| Claims.SerialRunsPayOnce | src/bonds/engine/coupon-runner.service.ts:135-226 | without overlap and without a stop between credit and record, every payment is credited at most once and is paid and taxed exactly when credited |
| ClaimsRefinement.LoneWorkerIsThePass | src/bonds/engine/coupon-runner.service.ts:144-226 | a worker left alone ends with exactly the rows, tax records and rail calls of the pass the coupon run is proved about |
| LeasedRuns.LeasedIsSerial | src/scheduler/job-lock.service.ts:15-39 | workers that touch rows only while their task is at work under the lease never overlap |
| LeasedRuns.LeasedRunsPayOnce | src/scheduler/job-lock.service.ts:15-67 | for any interleaving of instances, clocks, tasks and statements that keeps the lease, every coupon is credited at most once, and is paid and taxed exactly when credited |
| EngineService.TransitionsKeepInv | src/bonds/engine/activation.service.ts:114-149 | closing windows and activating bonds with the engine's own plans keeps the invariant |
| Redemption.FullPayout | src/bonds/engine/redemption-runner.service.ts:174-216 | nothing is left owed exactly when the rail took every payment, and then each holder got their units once |
| Redemption.RepayAllKeepsReturned | src/bonds/engine/redemption-runner.service.ts:176-196 | nobody is repaid twice and a return row is paid exactly when its principal was credited |
| Redemption.SharesAddUpToRaised | src/bonds/engine/redemption-runner.service.ts:170-188 | paying everyone pays exactly what was raised, at most the bond's size |
| Engine.RowsStayOwed | src/bonds/engine/coupon-runner.service.ts:120-123 | existing rows stay what the register owes, whatever users do to it later |
| Engine.UserKeepsInv | src/bonds/engine/engine.tick.ts:25-36 | any user step between ticks keeps the engine's invariant |
| Engine.CloseWindowKeepsInv | src/bonds/engine/activation.service.ts:118-138 | closing a window keeps it |
| Engine.DepositKeepsInv | src/bonds/reports.service.ts:79-95 | an escrow deposit adds exactly its amount to one bond's escrow and touches nothing else, one for an unknown bond changes nothing, and the invariant is kept |
| EngineRuns.ActivateKeepsInv | src/bonds/engine/activation.service.ts:42-97 | activation adds sound schedules and checkpoints, the funding check thirty days before maturity |
| EngineDates.ActivationDates | src/bonds/engine/activation.service.ts:51-95 | the four events fall 90, 30, 7 and 0 days before the activation day shifted by the tenor |
| EngineDates.DatesFollowActivation | src/bonds/engine/activation.service.ts:42-97 | in every state of every run, all events and coupon periods of a bond follow from the day some step activated it, one period for each whole step |
| EngineDates.MaturityFollowsActivation | src/bonds/engine/activation.service.ts:51-95 | so each event lies its notice before that day shifted by the tenor |
| EngineDates.MaturityMeetsLastCoupon | src/bonds/engine/schedule.ts:50-84 | and the maturity event lies the tail of the tenor behind the last coupon period: on the same day when the step divides the tenor and the day is up to 28 |
| EngineRuns.CheckAllKeepsInv | src/bonds/engine/redemption-runner.service.ts:52-105 | the checks keep it; a bond that passed its funding check and is still active is funded |
| EngineRuns.CouponsKeepInv | src/bonds/engine/coupon-runner.service.ts:42-48 | a coupon run keeps it, including that every payout in the ledger is accounted for |
| EngineRuns.PayAllKeepsInv | src/bonds/engine/redemption-runner.service.ts:165-220 | the maturity payout keeps it |
| EngineRuns.EveryStateSound | src/bonds/engine/engine.tick.ts:25-55 | every state of every run, users and engine interleaved, satisfies the invariant |
| EngineGuarantees.RebuiltIsHeld | src/bonds/engine/coupon-runner.service.ts:50-83 | in a run of the whole platform, rebuilt balances are the units truly held at the end of each day |
| EngineGuarantees.CouponsFollowTruePositions | src/bonds/engine/coupon-runner.service.ts:86-126 | every coupon row ever made is for the units its holder truly held, day by day, whatever the register did since |
| EngineGuarantees.CouponsArePriced | src/bonds/engine/accrual.ts:92-107 | in every state of every run: 3650000 times the gross of a coupon row is its unit-days times the bond's rate, rounded down once, and a tenth of it, rounded down once, is tax |
| EngineGuarantees.AllMoneyAccounted | src/bonds/engine/coupon-runner.service.ts:177-210 | wallets and investments are deposits less withdrawals plus every coupon and principal credited, and gross paid is net credited plus tax recorded |
| EngineGuarantees.CouponsPaidExactlyOnce | src/bonds/engine/coupon-runner.service.ts:135-226 | each row is credited at most once, exactly when paid, with exactly one tax record |
| EnginePayees.EveryoneIsPaidTheirOwn | src/bonds/engine/coupon-runner.service.ts:177-210 | in every run, what the ledger has paid out to a user is the coupons and the principal credited to them, each coupon the net of a paid row of theirs |
| EngineOutcomes.SettledWithinThreeRuns | src/bonds/engine/coupon-runner.service.ts:144-226 | once three runs could reach a row (bond not in default, at most 500 payable rows), whatever the rail said, it is paid or escalated |
| EngineTries.GivenUpAfterThreeTries | src/bonds/engine/coupon-runner.service.ts:158-175 | in every run: an escalated row of a bond never found short of funds has been tried exactly three times, one to be retried once or twice, one paid up to three times |
| EngineTries.OutstandingIsTried | src/bonds/engine/coupon-runner.service.ts:144-162 | a coupon run with at most 500 payable rows tries every outstanding row of a bond not in default once |
| EngineTries.DueIsRecorded | src/bonds/engine/coupon-runner.service.ts:86-126 | a coupon run with at most 50 schedules due leaves a row for everyone owed a positive gross for one |
| EngineOutcomes.ClosingForgetsNobody | src/bonds/engine/coupon-runner.service.ts:228-250 | with at most 50 schedules due, an active bond's schedule closes only when everyone owed a positive gross has a row for exactly that amount, paid or escalated |
| EngineDefault.DefaultExactlyWhenUnfunded | src/bonds/engine/redemption-runner.service.ts:72-77 | the checks put an active bond in default exactly when they include its funding check and its escrow balance is below its total size |
| EngineDefault.DefaultStopsCoupons | src/bonds/engine/redemption-runner.service.ts:120-135 | after that no coupon of the bond is credited in that tick or ever, closed or not, and it is never active again |
| EngineDefault.HandDefaultPayableExactlyWhen | src/bonds/bonds.service.ts:219-244 | an active bond in default by hand has nothing payable, and has again once closed exactly when a row was outstanding |
| EngineDefault.HandDefaultStopsCoupons | src/bonds/bonds.service.ts:219-244 | in any run, a default by hand with nothing outstanding ends the coupons of the bond for good |
| EngineReachable.OutstandingRun | src/bonds/engine/engine.tick.ts:25-55 | a real run that subscribes, activates and materialises a coupon, and leaves it outstanding |
| EngineReachable.HandDefaultedRowIsPaid | src/bonds/bonds.service.ts:219-244 | any run that leaves a coupon of an active bond outstanding can go on with a default by hand, a closing and a coupon run that credits it |
| EngineReachable.HandDefaultedBondIsPaid | src/bonds/bonds.service.ts:219-244 | so for any first day, holder and size there is a run in which a bond in default is closed and then paid a coupon |
| EnginePrincipal.MaturedMeansEveryoneRepaid | src/bonds/engine/redemption-runner.service.ts:164-220 | a payout marks the bond matured exactly when the rail took every payment; then everyone has exactly their units, in total the raise |
| EnginePrincipal.PrincipalReturnedOnce | src/bonds/engine/redemption-runner.service.ts:176-196 | over a whole run nobody is credited principal of one bond twice |
| EnginePrincipal.TickMaturesOnlyFunded | src/bonds/engine/engine.tick.ts:30-36 | a bond matured in a tick has an escrow covering its whole size, and so everything paid out for it |
| EnginePrincipal.ActiveAfterCheckIsFunded | src/bonds/engine/redemption-runner.service.ts:52-105 | in any run, with users and clocks between the passes: a bond whose funding check came due at some checks step is never active afterwards without its whole size in escrow |
| EnginePrincipal.PayoutIsFunded | src/bonds/engine/redemption-runner.service.ts:164-220 | so any payout of a still active bond in any run matures it exactly when the rail took every payment, and then the escrow covers its size and all it paid |
| EnginePrincipal.RunForward | src/bonds/engine/redemption-runner.service.ts:52-105 | over any stretch of any run events stay, and once executed stay executed |
| EnginePrincipal.EscrowIsWhatWasDeposited | src/bonds/reports.service.ts:79-95 | over any stretch of any run the escrow of a bond grows by exactly what was deposited for it, and never shrinks |
| EngineService.BondEngine.Disburse | src/bonds/adapters/payment.adapter.ts:75-99 | money moves exactly when the answer is ok |
| EngineService.BondEngine.ActivateBond | src/bonds/engine/activation.service.ts:42-97 | stamps the planned periods, makes the bond active and writes checkpoints 90, 30, 7 and 0 days before today shifted by the tenor, or changes nothing |
| EngineService.BondEngine.RunTransitions | src/bonds/engine/activation.service.ts:114-149 | closes the windows, then activates every subscribed bond |
| EngineService.BondEngine.DeclareDefault | src/bonds/engine/redemption-runner.service.ts:124-135 | moves only an active bond to defaulted and suspends every outstanding row of it |
| EngineService.BondEngine.RunChecks | src/bonds/engine/redemption-runner.service.ts:52-105 | the loop over due events is the engine's check step |
| EngineService.BondEngine.MaterialiseDue | src/bonds/engine/coupon-runner.service.ts:86-126 | the loops over due schedules and accruals create exactly the missing rows, and count them |
| EngineService.BondEngine.ClaimRow | src/bonds/engine/coupon-runner.service.ts:135-141 | the compare-and-set wins exactly when the row is as read, and then raises its attempts |
| EngineService.BondEngine.AttemptRow | src/bonds/engine/coupon-runner.service.ts:158-226 | a claimed row is paid if the rail took it, else to be retried before the third attempt and escalated at it |
| EngineService.BondEngine.AttemptOutstanding | src/bonds/engine/coupon-runner.service.ts:144-226 | the loop over the page is the pass the invariant is about, and counts what it paid |
| EngineService.BondEngine.CloseSettledSchedules | src/bonds/engine/coupon-runner.service.ts:233-250 | the loop over open schedules is the closing pass |
| EngineService.BondEngine.RunCoupons | src/bonds/engine/coupon-runner.service.ts:42-48 | the three passes in order are the engine's coupon step |
| EngineService.BondEngine.Redeem | src/bonds/engine/redemption-runner.service.ts:165-220 | the loop over holders, then the count of what is owed, is the payout of one bond |
| EngineService.BondEngine.RunMaturity | src/bonds/engine/redemption-runner.service.ts:48-105 | the loop over maturity events is the engine's payout step |
| EngineService.BondEngine.Tick | src/bonds/engine/engine.tick.ts:25-36 | transitions, checks, coupons, maturity, in that order and on each other's results, keeping the engine's invariant |
| JobLock.Locks.Claim | src/scheduler/job-lock.service.ts:46-59 | wins exactly when the name is free or its lease has expired, and then holds it for the time asked |
| JobLock.Locks.Release | src/scheduler/job-lock.service.ts:61-67 | expires the lease only if this instance holds it |
| JobLock.ReleaseOnlyOwnLease | src/scheduler/job-lock.service.ts:61-67 | a release never touches another instance's lease or another name, however late |
| JobLock.LeasesHeldExactlyWhenHarmless | src/scheduler/job-lock.service.ts:46-67 | while tasks end before their leases no single event breaks exclusion, and it leaves every working task its lease exactly when it releases none that another task of its instance still needs |
| JobLock.NoTwoTasksTogether | src/scheduler/job-lock.service.ts:15-67 | if tasks end before their leases and every release is harmless, no two tasks of a name run together, for any interleaving, instances and clocks |
| JobLock.LateReleaseSafeExactlyWhen | src/scheduler/job-lock.service.ts:61-67 | after a late release the next start by anyone runs alone exactly when no other task of the releasing instance is at work on the job |
| JobLock.SettledRunsAreHarmless | src/scheduler/job-lock.service.ts:15-39 | an instance that waits for its own release never makes a harmful one |
| JobLock.LateReleaseOfOwnLease | src/scheduler/job-lock.service.ts:61-67 | a timely run in which a late release lets two tasks run together |
| AuditChain.AuditLog.Insert | prisma/migrations/20260918120000_audit_log_hash_chain/migration.sql:28-48 | the new row carries the old head and the new, and the head is the one computed from all entries |
| AuditChain.LinkedRowsCarryTheHead | prisma/migrations/20260918120000_audit_log_hash_chain/migration.sql:1-7 | a table whose links check out carries the head of its entries |
| AuditChain.InputInjective | prisma/migrations/20260918120000_audit_log_hash_chain/migration.sql:36-44 | the hashed text determines the previous hash and every field, bars in the payload included |
| AuditChain.HashedInThisOrder | prisma/migrations/20260918120000_audit_log_hash_chain/migration.sql:36-44 | the fields are hashed in the order previous hash, event, bond, user, payload, time |
| AuditChain.Collision | prisma/migrations/20260918120000_audit_log_hash_chain/migration.sql:1-7 | two different logs with one head yield two different texts, one hashed for each log, with one hash |
| AuditChain.AlteredLogNeverCatchesUp | prisma/migrations/20260918120000_audit_log_hash_chain/migration.sql:1-7 | whatever the hash function, an altered past can only meet a later head again through such a collision between the two logs |
| AuditChain.BarInEventNameIsAmbiguous | prisma/migrations/20260918120000_audit_log_hash_chain/migration.sql:38-40 | an event name with a bar would let two rows share one text |
| Totp.GenerateSecret | src/auth/mfa/totp.ts:15-25 | the loops compute the unpadded base32 encoding |
| Totp.EncodedBits | src/auth/mfa/totp.ts:15-25 | symbol j stands for the five bits from 5j on of the bytes, most significant first; A to Z for 0 to 25, 2 to 7 for 26 to 31 |
| Totp.Base32Decode | src/auth/mfa/totp.ts:27-40 | the loops compute the decoding, refused exactly when a character outside the alphabet is left |
| Totp.BlanksAndPaddingIgnored | src/auth/mfa/totp.ts:27-30 | a blank anywhere and an equals sign at the end make no difference |
| Totp.DecodeOfEncode | src/auth/mfa/totp.ts:15-40 | decoding an encoding returns the bytes when their number is a multiple of five, else all but the last |
| Totp.EncodeInjective | src/auth/mfa/totp.ts:15-25 | secrets of such lengths never share an encoding |
| Totp.DigitsKeepsDigitsOnly | src/auth/mfa/totp.ts:74-80 | of a submitted code the digits are kept as they stand and all else is dropped |
| Totp.VerifyCode | src/auth/mfa/totp.ts:74-95 | accepts exactly the earliest step of the window, later than the last used, whose code it is; throws exactly when an invalid secret is reached |

## Left out

- Overflow of wallet balances and of `unit_days`: their columns are BIGINT, and the model's integers are unbounded there.
- Failures other than the rail's: an email or audit write that throws after a credit is outside the rail model.
- More than 50 due schedules: the first and the last pass page independently, so nothing is stated about closing then.
- Principal that failed: its event is marked executed and no later tick retries it; the model does the same and claims nothing about such holders.
- User steps inside a pass: each pass of the engine is one step, and users act between passes.
- Re-activation of a bond that is already active, which rewrites the same rows, and bonds whose dates were set before activation.
- Runs of the engine outside the lease: the simulation controller is not part of this model.
- EngineService.BondEngine.RunChecks: the summary it builds for the log is not modelled, nor are the counts of failed and escalated rows.
- EngineService.BondEngine.Redeem: the text of errors and the provider reference are not kept.
- Tax year and currency of tax records, notes, provider references, notifications, emails and audit entries of the engine.
- KYC checks of buyers and the platform's fee account; the fee of a trade is computed and recorded in the row only.
- The NGN minimum trigger, and subscription and listing statuses the code never writes.
- Two browsers verifying the same code at once: codes are checked one after another.
- The digest construction of six-digit codes and SHA-256 itself: both are parameters.
- Years from 10000 on, whose ISO form no longer sorts as text.
- DSCR scoring, feasibility, referrals, content, storage, sign-in and sessions: other parts of the platform.
