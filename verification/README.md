# The money engine, modelled and verified

This project models the part of the backend that moves money, and proves what the code keeps over whole
runs of requests. Verify with `dafny verify dfyconfig.toml`.

No balance is stored anywhere in the system. A wallet's balance is the sum of the ledger postings made
for it; ceilings, receivables, installments and transaction rows are further books that have to agree with
that sum. The model keeps those tables side by side:

- `Bank` holds the tables (wallets, transaction rows, installments, the journal, split rows) as one value
  and says, request by request, what the services do to them, with the guards in the order in which the
  code has them. A request that throws is rolled back as a whole: `Next` leaves the tables as they were, also
  where the code saves REVERSED and then throws. `Run` is any list of requests.
- `Engine` is the same in the form the services have: one object whose methods lock rows, assign fields and
  loop over accumulators. Every method is proved to end in exactly the tables, or the error, that `Bank` says, and
  the object as a whole to keep its books. What a single handler means for its caller is said by the lemma about its
  function: `MoneyMoves.WithdrawKeeps` for `WithdrawMoney`, `Purchases.RefundKeeps` for `ReverseTransaction`, and so on.
  Beside the tables it has the balance-change events, which no rollback takes back.
- `Ledger` and `GeneralLedger` are the double-entry ledger and the one method that may write to it. `Feed` and
  `FeedLeaks` are what subscribers of the balance-change events see, and which requests mislead them.
- `BankInvariant`, `CreditLines`, `MoneyMoves`, `Purchases`, `Repayments`, `Payouts` build the invariant of
  the books and show what each request does to it; `Safety` puts them together over runs, `Solvency` proves the
  part of it that needs no care from callers. `History` is what every request keeps, careful or not: how rows of
  every table may change. `RoundTrip` (with `Bystanders`) and `PayoutOnce` prove properties of whole histories.
- `Installments`, `Settlement`, `AmountWords` are the arithmetic: calendar, schedules, penalties, splits,
  payout fees, captions.
- `Transfers`, `Gateway`, `Idempotency` are the protocols: row locks of concurrent transfers, a purchase across
  two databases (`Elsewhere`: with everything else going on meanwhile), request keys. `IdempotentBank` puts the key
  table in front of `Bank`; `Keys` is how the keys of rows read as texts.
- `Backfill`, `BackfillAgreement`, `BackfillRuns`, `BackfillLimits` are the script that derives journal entries
  from rows older than the ledger, what it gets right, and exactly where it does not.
- `Counterexamples` are runs from a freshly installed system that end where the guards the code lacks would not
  have let them, and one that ends with a wrong feed.

Row ids are positions in their table. Money is an unbounded integer, as the `bigint` of the source is.
Percentages are thousandths of a percent, the three decimals the columns have. A date is a month counted from
January of year 0 and a day in it, in UTC.

## What the code does not promise

Some properties one would expect do not hold of the code. Each is stated with the exact condition under which it
does hold, and with an input for which it fails.

- A repayment is verified without looking at the installment's status again (`markPaid`). If the purchase was
  refunded while the customer was paying, the debt falls below zero. `Repayments.MarkPaidKeepsExactly`: the books
  hold afterwards if and only if the installment was still unpaid.
- A credit type without an installment count can be granted and drawn on. `CreditLines.DrawKeepsDebtsExactly`:
  what is owed is what is planned afterwards if and only if the type plans installments. Otherwise a refund gives
  the draw back to the ceiling and leaves it on the debt, `Counterexamples.PlanlessDebtRemains`.
- A verified top-up completes its purchase unless that is COMPLETED. `History.ReversedStaysExactly`: a request leaves
  every canceled or refunded purchase REVERSED if and only if it is not the verification of a top-up for one that is
  REVERSED at that moment. The books hold all the same, but if a draw was given back before, the purchase can not
  be refunded again: the key of the return is taken, `Purchases.SecondRefundFails`.
- The validators accept percentages that miss 100% by up to 0.01, and a split whose leading rows exceed 100%
  can end in a negative slice, which a payout sweep then overdraws the wallet for.
  `Settlement.AcceptedSplitGoodExactly`: a charge with an accepted split is cut into no negative slice if and only if
  the floored shares of the rows before the last total at most its amount; the same split can be harmless for one
  charge and not for another. `Payouts.SlicesPayExactly`: a purchase is paid exactly its slice total if and only if no
  slice is negative, and more otherwise. FIXED splits are rounded row by row and checked by their sum only:
  `Settlement.FixedSplitAddsUpExactly`.
- The balance-change events are emitted while the transaction is still open, so they outlive its rollback. Two
  repayments of one installment, both paid and both verified, leave a subscriber with 300 on a repository that has
  200, `Counterexamples.SecondRepaymentStaysOnFeed`. `Feed.FeedFollowsExactly`: over any run the fold of the events is
  every wallet's balance if and only if what the requests that threw had posted cancels, wallet by wallet.
  `FeedLeaks.LeaksOnlyLate` names the guards that fail after money was posted: an installment that cannot be settled
  because its restoring row is there or its principal is not positive, a purchase that cannot be settled after its
  top-up landed, a payout whose key is taken after its fee was booked.
- The payment page reads an intent and saves it in two steps without a lock, so a cancellation can overwrite a
  verification that has succeeded, although the page is meant to be final there. `Gateway.FinalExactly`: final intents
  stay as they are if and only if no request saves after another's finalizing write what it had decided from a read
  before it. `Gateway.BackedExactly` says the same of credited purchases and their VERIFIED intents. That nobody is
  credited twice does not depend on it, `Gateway.PaidOnce`.
- The backfill script calls itself safe to run over the whole table. It leaves out the mirror entry of a deposit
  on a repository-backed wallet, rebuilds a write-off that routed nothing as a correction of the repository's
  balance, and books payouts of a repository-backed wallet on the repository. A purchase that a top-up completed
  again after its refund gets the entries of one completion only, or none. And it finds the slices of a write-off by
  name, where the fee slice of key `k-unblock` reads like the unblock fee of key `k`: a credit correction under `k` is
  then posted not at all, a debit one as a payment of that slice. `BackfillLimits` has the exact condition for each and
  the difference for every wallet.
- Numbers from ten to the fifteenth on have no scale word: that number is spelled like 1.
  `AmountWords.RoundTripExactly`.

## Model

| member | source | states |
|---|---|---|
| `Safety.BooksAgreeAlways` | backend/src/gl/ledger.service.ts:48-59 | Over every run of requests from a fresh system in which no canceled installment was repaid, no draw was made on a line whose type plans nothing, no charge was given a split that cuts this charge into a negative slice and no wallet defaults whose leading rows exceed the whole: debits equal credits, no balance is negative, every ceiling lies between zero and its grant, every receivable is the principal of the wallet's unpaid installments, all of which are on COMPLETED purchases, control accounts agree with the wallets under them, and each repository's pool plus its lines is what the pool was at the start. |
| `Safety.StepKeepsExactly` | backend/src/transactions/transactions.service.ts:273-3082 | Whatever request goes through, the books hold afterwards if and only if it does not make the debts disagree with the plans (a repaid canceled installment, a draw without a plan), opens no charge whose leading floored shares of its own amount exceed that amount, and sets no wallet defaults that could do so to some purchase; and no line gains or loses (ceiling plus debt) by anything but a grant or a reclaim. |
| `Safety.StepKeepsTotals` | backend/src/wallets/wallets.service.ts:365-397 | Every safe request conserves, for every repository, its unallocated pool plus ceiling and receivable of all the wallets it backs. |
| `Safety.RunKeeps` | backend/src/transactions/transactions.service.ts:3535-3609 | The invariant and every repository's total survive any run of safe requests, with failed requests rolled back. |
| `Safety.VerifyKeepsExactly` | backend/src/transactions/transactions.service.ts:1856-2062 | A verification keeps the books if and only if it neither settles a canceled installment nor draws on a line whose type plans no installments. |
| `Safety.ClosingReturnsGrant` | backend/src/transactions/transactions.service.ts:1485-1572 | Whatever safe requests came between a grant and the closing of that line, other grants and closings of the same repository among them: closing raises the repository's pool by exactly the amount of the grant. |
| `Safety.RunKeepsLine` | backend/src/transactions/transactions.service.ts:1485-1572 | Ceiling plus debt of a line stays what it was over every run of safe requests that does not close this line. |
| `Safety.InvariantBooks` | backend/src/gl/ledger.service.ts:133-185 | From the invariant: trial balance zero, ceilings within grants, receivables equal to unpaid principal, control accounts reconciled. |
| `Solvency.MoneyIsSoundAlways` | backend/src/gl/ledger.service.ts:191-252 | Over every run of requests, careful or not, as long as new charges are split within their own amount and new wallet defaults within the whole: debits equal credits in every currency, no wallet is overdrawn, the trial balance nets to zero and the control and receivable accounts reconcile. |
| `Solvency.StepSolventExactly` | backend/src/transactions/transactions.service.ts:273-3082 | Of all requests only two can leave the system exposed, whatever their arguments and whatever happened before: a charge whose leading shares exceed its own amount, and wallet defaults whose leading rows exceed the whole. |
| `Counterexamples.CanceledInstallmentIsRepaid` | backend/src/installments/installments.service.ts:701-712 | A run from a fresh system, each request of which goes through: funded, granted, bought, paid, repayment opened, refunded, repayment verified. It ends with a receivable of minus 100. |
| `Counterexamples.CanceledPurchaseIsCompleted` | backend/src/transactions/transactions.service.ts:2409-2513 | A run from a fresh system in which a customer cancels a purchase and then pays the top-up for it: the REVERSED purchase ends COMPLETED. |
| `Counterexamples.PlanlessDebtRemains` | backend/src/wallets/wallets.service.ts:309-428 | A run from a fresh system: a line without a plan is granted, drawn on, and the purchase refunded. It ends with the whole ceiling back, 100 still owed, and no installment at all. |
| `Counterexamples.OvershootingSweepOverdraws` | backend/src/transactions/transactions.service.ts:2932-3065 | A run from a fresh system: a charge with such a split is opened, attached, paid and swept. The sweep goes through and leaves the merchant's balance at minus 50. |
| `Counterexamples.SecondRepaymentStaysOnFeed` | backend/src/gl/ledger.service.ts:253-260 | A run from a fresh system: two repayments of one installment are opened and paid, the first is verified, the verification of the second throws on the taken key. The repository has 200, and the fold of the events says 300. |
| `History.RunGrows` | backend/src/transactions/transactions.service.ts:273-3082 | Whatever is requested, safe or not: no row of any table disappears, a decided row is never undecided, only purchases change after they were decided, a payer once set stays, a purchase keeps price and merchant and stays REVERSED unless a top-up revives it, a paid installment stays paid, entries are only appended, and repayments stay charged to the repository behind their line. |
| `History.ReversedStaysExactly` | backend/src/transactions/transactions.service.ts:2409-2513 | A request leaves every canceled or refunded purchase REVERSED if and only if it does not verify a top-up for one that is REVERSED by then; such a one ends COMPLETED. |
| `Ledger.AcceptedKeepsBalanced` | backend/src/gl/ledger.service.ts:191-252 | Any entry that passes the posting checks keeps debits equal to credits in every currency. |
| `Ledger.MultiEffect` | backend/src/gl/ledger.service.ts:421-434 | An entry built from debited and credited wallets moves each balance by what it received less what it paid, and no receivable; every leg is positive. |
| `Ledger.CashInEffect` | backend/src/gl/ledger.service.ts:342-365 | Cash landing on several wallets is accepted only if the credits add up to the cash. |
| `Ledger.AgainstEffect` | backend/src/gl/ledger.service.ts:306-333 | A movement against a ledger account is balanced and moves exactly one balance by exactly the delta. |
| `Ledger.ReceivableEffect` | backend/src/gl/ledger.service.ts:518-553 | A receivable entry is balanced, moves what one wallet owes by the delta, and no balance. |
| `Ledger.TrialBalanceNetsToZero` | backend/src/gl/gl-reporting.service.ts:49-84 | The rows of a trial balance add up to all debits less all credits, hence to zero over a balanced journal. |
| `Ledger.ControlAccountReconciles` | backend/src/gl/ledger.service.ts:66-91 | For customer wallets, repository funds and fee revenue, the credit net of the account is the sum of the balances of the wallets filed under it. |
| `Ledger.ReceivableAccountReconciles` | backend/src/gl/ledger.service.ts:168-185 | The debit net of the receivable account is what all wallets together owe. |
| `Ledger.EventsFollowBalances` | backend/src/gl/ledger.service.ts:261-300 | Folding the balance-change deltas of the entries of any journal from zero gives every wallet's derived balance. |
| `Feed.FeedFollowsExactly` | backend/src/gl/ledger.service.ts:253-300 | Over every run from a fresh system, failed requests and their rollbacks included: the fold of all events ever emitted is every wallet's balance if and only if, for each wallet, the deltas posted by the requests that threw add up to zero. |
| `Feed.FeedIsOffByLeaks` | backend/src/gl/ledger.service.ts:253-300 | Over every run the fold is off by exactly those deltas, wallet by wallet. |
| `FeedLeaks.LeaksOnlyLate` | backend/src/transactions/transactions.service.ts:1856-2062 | A request misleads subscribers only if it is a verification, a write-off or a sweep that fails one of the guards below after it posted money; and a verification that does so always misleads them. |
| `FeedLeaks.FeedFollowsPunctualRuns` | backend/src/gl/ledger.service.ts:253-260 | In a run without such a request nothing is leaked about any wallet. |
| `FeedLeaks.RepaymentLeaksExactly` | backend/src/transactions/transactions.service.ts:1031-1102 | A verified charge throws after its money was posted if and only if nothing of it reaches the repository or an installment it pays off cannot be settled; what subscribers were told then is what the charge would have credited. |
| `FeedLeaks.TopUpLeaksExactly` | backend/src/transactions/transactions.service.ts:2409-2513 | A verified top-up throws after it landed if and only if its purchase is still open and one side of it is closed or its settlement is refused; subscribers then see the amount on the support wallet. |
| `FeedLeaks.SettleFailsExactly` | backend/src/transactions/transactions.service.ts:2169-2402 | Settling a purchase throws if and only if, on the tables before it, the top-up, the ceiling, the repository or the payer falls short, a funding row is there already, a repository is missing or the entry would not balance. |
| `FeedLeaks.MarkAllPaidFailsExactly` | backend/src/installments/installments.service.ts:720-789 | Settling all of a wallet's installments throws if and only if one of the outstanding rows has a principal that is not positive or its restoring row already. |
| `FeedLeaks.WriteOffFailsLateExactly` | backend/src/transactions/transactions.service.ts:1192-1299 | A write-off whose slices are posted throws if and only if one of these rows cannot be settled. |
| `FeedLeaks.PayOutFailsExactly` | backend/src/transactions/transactions.service.ts:2932-3000 | A payout throws before its fee is posted if and only if the fee's key is taken, the fee repository keeps another currency or, without a fee, the payout's key is taken; and after it if and only if the key of the net amount is taken. |
| `FeedLeaks.SweepFailsExactly` | backend/src/transactions/transactions.service.ts:3002-3063 | A split-mode sweep throws if and only if it comes to a purchase, with the money for it, one of whose slices is refused in this way. |
| `GeneralLedger.LedgerService.PostEntry` | backend/src/gl/ledger.service.ts:191-252 | Appends the entry and emits its events if and only if it has two or more legs, all positive, all on seeded accounts, netting to zero in every currency; otherwise journal and events stay. |
| `GeneralLedger.LedgerService.GetAccount` | backend/src/gl/ledger.service.ts:93-131 | The account cache never answers differently from the table of accounts. |
| `GeneralLedger.LedgerService.TotalsByCurrency` | backend/src/gl/ledger.service.ts:191-252 | Fails exactly on a non-positive leg; otherwise gives debits less credits for exactly the currencies that occur. |
| `CreditLines.DrawKeeps` | backend/src/transactions/transactions.service.ts:2244-2336 | A draw moves ceiling to receivable, plans exactly what it drew, and keeps every book and line. |
| `CreditLines.DrawKeepsDebtsExactly` | backend/src/transactions/transactions.service.ts:2244-2336 | A draw leaves what is owed equal to what is planned if and only if the line's type plans installments. |
| `CreditLines.GrantKeeps` | backend/src/wallets/wallets.service.ts:309-428 | A grant keeps all books whatever the type: what the pool loses is the new line's ceiling. |
| `CreditLines.ReclaimKeeps` | backend/src/transactions/transactions.service.ts:1485-1572 | Closing a line that owes nothing hands the pool exactly what the line was granted, and leaves the line without ceiling or grant. |
| `CreditLines.SettleOneKeeps` | backend/src/installments/installments.service.ts:751-789 | Settling an unpaid installment takes its principal off the debt and puts the same principal on the ceiling; all books hold. |
| `CreditLines.SettlingTwiceBreaksDebts` | backend/src/installments/installments.service.ts:751-789 | If settling a row that is not unpaid goes through at all, the row was canceled and the receivable no longer matches the plans. |
| `CreditLines.PaidWithinDraw` | backend/src/transactions/transactions.service.ts:2606-2615 | Repaid, unpaid and canceled principal add up to the draw, so the refund's clamp never takes effect and it gives back exactly what is not repaid. |
| `CreditLines.CancellationKeeps` | backend/src/installments/installments.service.ts:297-313 | Canceling a completed purchase's plan together with its debt and ceiling keeps every book, line and balance. |
| `MoneyMoves.WithdrawKeeps` | backend/src/transactions/transactions.service.ts:273-386 | A withdrawal keeps all books and lines and takes exactly its amount from the wallet and from the repository behind it, and nothing from anyone else. |
| `MoneyMoves.TransferKeeps` | backend/src/transactions/transactions.service.ts:388-532 | A transfer keeps all books and lines and moves exactly its amount, on the repository behind the payer as well. |
| `MoneyMoves.AdjustKeeps` | backend/src/transactions/transactions.service.ts:537-604 | A manual adjustment keeps all books and lines and moves one balance by exactly its amount. |
| `MoneyMoves.AttachKeeps` | backend/src/transactions/transactions.service.ts:1711-1723 | Attaching the customer's wallet to a pending charge keeps all books. |
| `MoneyMoves.OpenTopUpKeeps` | backend/src/transactions/transactions.service.ts:1734-1822 | Asking for a top-up keeps all books. |
| `MoneyMoves.ExpireKeeps` | backend/src/transactions/transactions.service.ts:2776-2811 | Dropping a pending row keeps all books: nothing was planned for it. |
| `MoneyMoves.PenaltiesKeep` | backend/src/installments/installments.service.ts:377-456 | A penalty sweep on any day keeps all books. |
| `MoneyMoves.DueCheckOnlyStamps` | backend/src/installments/installments.service.ts:321-359 | The due-date check never finds an unpaid installment of a refunded purchase: it stamps rows and cancels none. |
| `Purchases.SettleKeeps` | backend/src/transactions/transactions.service.ts:2169-2402 | Completing a purchase on a line that plans, or without one, keeps the books; the merchant gains exactly the amount, and top-up, repository or wallet lose exactly what each paid. |
| `Purchases.TopUpKeepsExactly` | backend/src/transactions/transactions.service.ts:2409-2513 | Completing a top-up keeps the books if and only if it draws nothing on a line whose type plans no installments, also when its purchase was canceled or refunded before. |
| `Purchases.SecondRefundFails` | backend/src/transactions/transactions.service.ts:2520-2759 | A purchase that was completed again after some of its plan had been canceled cannot be refunded a second time: the draw has gone back already. |
| `Purchases.LandTopUpKeeps` | backend/src/transactions/transactions.service.ts:2409-2513 | A verified top-up reaches the owner's support wallet exactly once. |
| `Purchases.SupportWalletKeeps` | backend/src/wallets/wallets.service.ts:438-470 | The support wallet found or created belongs to the user, has the support type, and disturbs no book. |
| `Purchases.RefundKeeps` | backend/src/transactions/transactions.service.ts:2520-2759 | A refund keeps the books: the unpaid part of the draw returns to repository and ceiling, the rest of the price to the customer, all of it from the merchant. |
| `Repayments.LandRepaymentKeeps` | backend/src/transactions/transactions.service.ts:1031-1102 | A verified charge is conserved for every mix of missing and closed sub-repositories: what reaches the main repository, which is what the row's amount shrinks to, plus the routed slices is the charge, and each wallet gains exactly its share. |
| `Repayments.RouteKeeps` | backend/src/transactions/transactions.service.ts:960-1017 | Routing adds rows only, and every slice is either routed to an open sub-repository or left with the main one. |
| `Repayments.SmallChargeRejected` | backend/src/transactions/transactions.service.ts:1031-1102 | A charge below what its installments ask for is rejected and changes nothing. |
| `Repayments.MarkPaidKeepsExactly` | backend/src/installments/installments.service.ts:701-712 | Marking an installment paid keeps the books if and only if it was unpaid; it lifts the block and moves no balance. |
| `Repayments.MarkAllPaidClears` | backend/src/installments/installments.service.ts:720-737 | Settling all outstanding installments leaves no debt, no outstanding row and no block, and no penalty sweep of any day would block again. |
| `Repayments.ReceiveKeepsExactly` | backend/src/transactions/transactions.service.ts:1856-2062 | Money from the gateway keeps the books if and only if it does not repay an installment canceled meanwhile. |
| `Repayments.WriteOffKeeps` | backend/src/transactions/transactions.service.ts:1192-1299 | A write-off (also on quitting) keeps the books and leaves the wallet without debt, outstanding rows or block. |
| `Repayments.AbsorbKeeps` | backend/src/transactions/transactions.service.ts:1374-1474 | Up to settling the rows, a write-off posts at most one entry, in which the repository pays exactly the routed slices. |
| `RoundTrip.DrawRepayRefund` | backend/src/transactions/transactions.service.ts:2169-2402 | Completing a credit-funded purchase, repaying any of its installments in any order with real money while penalties accrue and everything else goes on at other wallets, then refunding it: ceiling and debt are exactly as before, the repository has gained exactly the slices of these repayments without an open sub-repository, the customer exactly the repaid principal plus what a top-up had paid. |
| `RoundTrip.RepaymentVerified` | backend/src/transactions/transactions.service.ts:1031-1102 | One verified repayment moves ceiling, debt and repository by the installment's principal, the repository also by the slices it keeps. |
| `RoundTrip.RefundRestores` | backend/src/transactions/transactions.service.ts:2594-2749 | A refund gives the ceiling and the repository what is still unpaid of the draw, the customer the rest, and takes the price from the merchant. |
| `Bystanders.ApartIsUntouched` | backend/src/transactions/transactions.service.ts:273-3082 | Openings of any kind, flags, penalty sweeps and due-date checks, grants, closings of other lines, and withdrawals, transfers, adjustments, deposits, purchases and refunds at other wallets leave the purchase, its line's ceiling, its plan and the balances of line and repository as they were. |
| `Payouts.SweepKeeps` | backend/src/transactions/transactions.service.ts:2839-3082 | A sweep pays out the whole balance without splits, and with splits exactly the slice totals of the purchases it marks, never more than was there; rows change by nothing but the mark; the balance falls by exactly that, unless the fee repository is the wallet itself. |
| `Payouts.PayOutKeeps` | backend/src/transactions/transactions.service.ts:2932-3000 | Of one payout, fee and net are exactly the amount, and no other wallet loses anything. |
| `Payouts.SweepPurchasesKeeps` | backend/src/transactions/transactions.service.ts:3002-3063 | After any number of rows, what was paid is the total of the purchases marked so far and what remains is not negative. |
| `Payouts.SlicesPayExactly` | backend/src/transactions/transactions.service.ts:3041-3063 | Paying the slices of a purchase pays out at least their total, and exactly it if and only if none of them is negative. |
| `PayoutOnce.SettledOnce` | backend/src/transactions/transactions.service.ts:3002-3063 | Whatever is requested after the sweep that settled a purchase, no later sweep of any wallet pays a row for it or marks it again. |
| `PayoutOnce.SweptRowsPay` | backend/src/transactions/transactions.service.ts:3002-3063 | Every row a split-mode sweep writes pays for a purchase that was unsettled before and is settled after. |
| `PayoutOnce.RunKeepsMarks` | backend/src/transactions/transactions.service.ts:3002-3063 | No run of requests ever takes a settled mark off. |
| `Transfers.TransfersAreSerializable` | backend/src/transactions/transactions.service.ts:388-532 | Every interleaving of any number of transfers between wallets without a repository: some transfer can always step, no balance is ever negative, and the final balances are those of running the transfers serially in the order in which they finished. |
| `Transfers.NoDeadlock` | backend/src/transactions/transactions.service.ts:464-513 | With locks taken in ascending id order, every reachable unfinished state has a transfer that can step. |
| `Transfers.SomeoneCanStep` | backend/src/wallets/wallets.service.ts:927-937 | Following who holds the lock a transfer waits for always ends at one that can step. |
| `Transfers.StepsRunOut` | backend/src/transactions/transactions.service.ts:388-532 | No interleaving goes on for ever. |
| `Gateway.PaidOnce` | ipg-backend/src/payments/payments.service.ts:66-153 | Over every interleaving of opening, the page's reads and saves (confirming, canceling, verifying), lost answers, dropping, refunding and any request that is not about one purchase (deposits, transfers, repayments, write-offs, sweeps, grants and the rest) across both databases, with nothing locked at the page: a merchant is credited at most once, refunded at most once and never without a credit, and COMPLETED means credited and not refunded. |
| `Elsewhere.StepAside` | backend/src/transactions/transactions.service.ts:273-3082 | A request that is not about one purchase leaves every purchase's row as it was but for the settled mark, posts no money for any, and opens at most charges nobody has paid. |
| `Gateway.FinalExactly` | ipg-backend/src/payments/payments.service.ts:134-153 | Over every interleaving, VERIFIED, CANCELED and persisted EXPIRED intents never change again if and only if no request saves, after another's finalizing write, something else it had decided from a read before that write. |
| `Gateway.BackedExactly` | ipg-backend/src/payments/payments.service.ts:66-119 | Over every interleaving, whatever was credited has a VERIFIED intent at every moment if and only if no request that read the intent before the credit saves another status after it. |
| `Gateway.CanceledAfterPayment` | ipg-backend/src/payments/payments.service.ts:66-119 | From any world in which a purchase can be paid for, six events credit the merchant and leave the intent CANCELED. |
| `Gateway.FinalIntentsStay` | ipg-backend/src/payments/payments.service.ts:66-119 | A request that reads a final intent is refused and writes nothing; a verification succeeds on AUTHORIZED only and makes it VERIFIED. |
| `Gateway.UninterruptedRequest` | ipg-backend/src/payments/payments.service.ts:66-85 | A read and its save with nothing in between do what the page's method does at once, and touch no other intent and nothing at the wallet backend. |
| `Idempotency.Service.TryClaim` | backend/src/idempotency/idempotency.service.ts:25-79 | Inserts an IN_PROGRESS row for a new key; replays to the same caller; refuses any other caller and a key still in progress. |
| `Idempotency.Service.Run` | backend/src/transactions/transactions.service.ts:3535-3609 | Claim, work and completion in one transaction: any failure restores state and keys. |
| `Idempotency.EachKeyOnce` | backend/src/transactions/transactions.service.ts:3535-3609 | Running any list of requests gives the state of running, without keys, just the first successful request of each key. |
| `IdempotentBank.EveryKeyMovesMoneyOnce` | backend/src/transactions/transactions.service.ts:3535-3609 | Whatever is sent to the money engine and however often it is repeated: the tables are those of one run in which every key counts once, also where the work writes the key into its rows. |
| `IdempotentBank.BooksAgreeBehindKeys` | backend/src/transactions/transactions.service.ts:3535-3609 | So all books agree after any traffic on a fresh system whose first successes form a safe run. |
| `Keys.ReadAlikeExactly` | backend/src/transactions/transactions.service.ts:3002-3063 | Of all the keys the service writes, two read alike if and only if they are equal or one is a client's key that spells the other out. |
| `Keys.PlainKeysTell` | backend/src/database/migrations/1706400000000-InitSchema.ts:64 | As long as no client's key begins with one of the service's own heads and a colon, the unique index tells exactly the different keys apart. |
| `Keys.SlicesReadAlikeExactly` | backend/src/transactions/transactions.service.ts:960-1017 | Slices of two write-offs share a name if and only if they are the same slice of the same key, or the fee of a key ending in `-unblock` and the unblock fee of that key without the ending. |
| `Idempotency.KeysCountOnce` | backend/src/idempotency/idempotency.service.ts:25-79 | Among those first successes no key occurs twice, and none that was taken before. |
| `Idempotency.RepeatsAreHarmless` | backend/src/idempotency/idempotency.service.ts:25-79 | After a success, at any later time, the same request gets the stored response and changes nothing; the key with another user, endpoint or payload is refused and changes nothing. |
| `Idempotency.FailureLeavesNoTrace` | backend/src/transactions/transactions.service.ts:3535-3609 | A failed attempt leaves state and keys as they were, so the key stays free. |
| `Idempotency.AllSettled` | backend/src/idempotency/idempotency.service.ts:81-90 | No committed key row is ever IN_PROGRESS. |
| `Installments.BuildSchedule` | backend/src/installments/installments.service.ts:170-230 | The loop over the installments yields the schedule that the lemmas below are about. |
| `Installments.PrincipalsAddUp` | backend/src/installments/installments.service.ts:96-105 | The principals of any schedule add up to exactly the amount. |
| `Installments.FeesFallShortByLessThanCount` | backend/src/installments/installments.service.ts:170-230 | The fees of the installments together fall short of the fee on the whole by at most count - 1. |
| `Installments.DueDatesAdvanceMonthly` | backend/src/installments/installments.service.ts:170-230 | Due dates fall after the purchase, in consecutive months, on the anchor day or the month's last day. |
| `Installments.DeadlinesNeverDecrease` | backend/src/installments/installments.service.ts:144-158 | With month-end clamping, deadlines never decrease, lie strictly after their due dates when a deadline day is set, and equal them when not. |
| `Installments.DayNumberFollowsCalendar` | backend/src/installments/installments.service.ts:59-71 | Comparing dates and comparing day numbers agree. |
| `Installments.PenaltyIsPathIndependent` | backend/src/installments/installments.service.ts:377-421 | Any sequence of sweep days, repeated, skipped or out of order, charges what one sweep on the latest of them would. |
| `Installments.PenaltyOfFreshRow` | backend/src/installments/installments.service.ts:377-421 | From a fresh row, the amount is principal plus fee plus the daily penalty times the most days overdue seen, and the row is OVERDUE exactly if that is positive. |
| `Installments.AccrueKeepsAccrued` | backend/src/installments/installments.service.ts:377-421 | The branch that marks a row overdue without charging it is never the one taken. |
| `Installments.ComputeRepaymentSplit` | backend/src/installments/installments.service.ts:115-129 | The loop's principal, fee and penalty add up to the rows' amounts. |
| `Installments.PenaltyNeverNegative` | backend/src/installments/installments.service.ts:115-129 | The penalty recovered from amounts is what the sweeps charged, hence never negative. |
| `Settlement.ComputeAmounts` | backend/src/settlement/settlement.service.ts:167-195 | The loop over the split rows yields the slices that the lemmas below are about. |
| `Settlement.PercentSlicesAddUp` | backend/src/settlement/settlement.service.ts:167-195 | Whatever the percentages, the slices add up to exactly the purchase. |
| `Settlement.SlicesNonNegativeExactly` | backend/src/settlement/settlement.service.ts:31-41 | No purchase is cut into a negative slice if and only if the rows before the last ask for at most the whole. |
| `Settlement.AcceptedSplitGoodExactly` | backend/src/settlement/settlement.service.ts:46-71 | A split that the validator accepts for a charge cuts this charge into no negative slice if and only if the floored shares of its amount before the last total at most the amount. |
| `Settlement.OvershootingIsHarmlessForLess` | backend/src/settlement/settlement.service.ts:167-195 | The same split is within a charge of 1000 and exceeds one of a million. |
| `Settlement.FixedSplitAddsUpExactly` | backend/src/settlement/settlement.service.ts:46-71 | An accepted FIXED split adds up to its charge if and only if the amounts rounded one by one do, and is off by at most half a unit per row otherwise. |
| `Settlement.AcceptedDefaultsGoodExactly` | backend/src/settlement/settlement.service.ts:31-41 | A wallet's accepted defaults cut no purchase into a negative slice if and only if the percentages before the last ask for at most the whole. |
| `Settlement.LastSliceNearItsShare` | backend/src/settlement/settlement.service.ts:167-195 | With percentages of exactly 100% no slice is negative and the last exceeds its share by less than the row count. |
| `Settlement.LastSliceWithinTolerance` | backend/src/settlement/settlement.service.ts:31-41 | Within the accepted tolerance, the last slice falls below zero by at most one ten-thousandth of the purchase. |
| `Settlement.AcceptedSplitCanGoNegative` | backend/src/settlement/settlement.service.ts:46-71 | The validator accepts a split that cuts a million into 1000000, 50 and -50. |
| `Settlement.FindMethod` | backend/src/wallet-types/withdrawal-methods.ts:31-40 | Finds a method of the wallet's rail, and nothing only if there is none. |
| `Settlement.WithdrawalFee` | backend/src/wallet-types/withdrawal-methods.ts:54-66 | The fee lies between zero and the amount. |
| `Settlement.NetNeverFalls` | backend/src/wallet-types/withdrawal-methods.ts:54-66 | At rates up to 100% a larger payout never nets the merchant less. |
| `Backfill.BackfillAll` | backend/src/scripts/backfill-gl.ts:92-194 | The loop produces the filled journal and reports every row under what became of it, judged by the journal it started with, with rows that the script throws over for manual review; a dry run reports the same and writes nothing. |
| `Backfill.PostedIsNew` | backend/src/scripts/backfill-gl.ts:137-178 | The rows reported as posted are exactly those that gained entries, and a second run posts none. |
| `Backfill.Resumable` | backend/src/scripts/backfill-gl.ts:137-178 | Stopping anywhere and running again gives what one full run gives. |
| `Backfill.RunsAddUp` | backend/src/scripts/backfill-gl.ts:137-178 | Any number of runs, each stopped anywhere, amount to one run as far as the furthest of them. |
| `BackfillAgreement.BackfillRestoresBalances` | backend/src/scripts/backfill-gl.ts:210-496 | If every row's live entries are the ones the script rebuilds, then whichever rows were live already, the backfilled journal gives every wallet its live balance. |
| `BackfillRuns.StepAgrees` | backend/src/scripts/backfill-gl.ts:36-47 | Every request but six kinds (a deposit on a repository-backed wallet, a write-off that routes nothing, a sweep of a repository-backed wallet, a top-up that completes a refunded purchase, a correction or write-off under whose key another one's slice is found, a write-off that routes a slice another adjustment is asked for), safe or not, keeps each row's rebuilt entries equal to the live ones, leg by leg. |
| `BackfillRuns.BackfillAgreesAlways` | backend/src/scripts/backfill-gl.ts:210-496 | Over every such history from a fresh system, any number of interrupted runs of which one goes to the end gives every wallet its live balance and every row its live entries. |
| `BackfillLimits.DepositRebuiltExactly` | backend/src/scripts/backfill-gl.ts:227-285 | A deposit survives a backfill from scratch if and only if its wallet has no repository. |
| `BackfillLimits.LinkedDepositGap` | backend/src/scripts/backfill-gl.ts:227-285 | Otherwise the wallet ends up short by exactly the deposit and every other wallet is right. |
| `BackfillLimits.WriteOffRebuiltExactly` | backend/src/scripts/backfill-gl.ts:349-396 | A write-off leaves every row rebuilt as it was posted if and only if it routes no slice that an earlier adjustment would be asked for, and either routes a slice and finds no other one under its key, or routes none and what it finds there is in another currency and refused. |
| `BackfillLimits.UnroutedWriteOffGap` | backend/src/scripts/backfill-gl.ts:349-396 | After one that routes nothing and finds nothing the repository ends up short by exactly what was written off and every other wallet is right. |
| `BackfillLimits.AdjustRebuiltExactly` | backend/src/scripts/backfill-gl.ts:349-396 | A correction survives a backfill from scratch if and only if no slice on record reads as one of its key's. |
| `BackfillLimits.AdjustGap` | backend/src/scripts/backfill-gl.ts:349-396 | Otherwise a credit is missing from its wallet altogether; after a debit every wallet is off by the debit less what the slices booked instead move. |
| `BackfillLimits.UnblockKeyGap` | backend/src/scripts/backfill-gl.ts:349-396 | After an overdue write-off whose key ends in `-unblock` and which routed its fee, a credit under the key without that ending is lost in a backfill, and nothing else is. |
| `BackfillLimits.ApartIsSafe` | backend/src/scripts/backfill-gl.ts:349-396 | Nothing of this happens while no two adjustments have keys that differ by that ending alone. |
| `BackfillLimits.SweepRebuiltExactly` | backend/src/scripts/backfill-gl.ts:287-347 | A payout sweep survives a backfill if and only if the wallet has no repository or nothing was paid out by the sweep. |
| `BackfillLimits.LinkedSweepGap` | backend/src/scripts/backfill-gl.ts:287-347 | Otherwise the repository ends up short by exactly what was paid out and every other wallet is right. |
| `BackfillLimits.TopUpRebuiltExactly` | backend/src/scripts/backfill-gl.ts:398-496 | A top-up leaves every row rebuilt as it was posted if and only if it does not complete a purchase that was refunded. |
| `BackfillLimits.RevivedGap` | backend/src/scripts/backfill-gl.ts:398-496 | Otherwise every wallet is off by exactly what the purchase's entries from before the refund weigh, and if it had drawn on its line by those of the new completion as well. |
| `AmountWords.HundredsToWords` | backend/src/common/amount-to-words.ts:43-57 | The parts pushed for a number below a thousand, joined, are its words. |
| `AmountWords.IntegerToWords` | backend/src/common/amount-to-words.ts:59-74 | The loop that unshifts groups yields the caption that the lemmas below are about, in both languages. |
| `AmountWords.RoundTripExactly` | backend/src/common/amount-to-words.ts:43-156 | Read back word by word, a caption gives the number if and only if it is below ten to the fifteenth, in English and in Farsi. |
| `AmountWords.DistinctCaptions` | backend/src/common/amount-to-words.ts:59-74 | No two numbers below the bound are spelled alike. |
| `AmountWords.BoundIsTight` | backend/src/common/amount-to-words.ts:59-74 | The bound itself is spelled like 1. |
| `Engine.MoneyEngine.CreditFeeSplitLegs` | backend/src/transactions/transactions.service.ts:960-1017 | The loop over the three slices routes exactly those with an open sub-repository and totals the rest, or stops with the first error. |
| `Engine.MoneyEngine.SweepUnsettledPurchases` | backend/src/transactions/transactions.service.ts:3002-3063 | The loop over the unsettled purchases pays and marks as far as the opening balance lasts. |
| `Engine.MoneyEngine.CreateForPurchase` | backend/src/installments/installments.service.ts:239-282 | The loop appends one row per line of the schedule, unless a plan is on record. |
| `Engine.MoneyEngine.CancelForPurchase` | backend/src/installments/installments.service.ts:297-313 | The loop cancels exactly the unpaid rows of the purchase. |
| `Engine.MoneyEngine.MarkAllPaidAndUnblock` | backend/src/installments/installments.service.ts:720-737 | The loop settles every outstanding row of the wallet and lifts its block, or stops with the first error. |
| `Engine.MoneyEngine.ChargePenalties` | backend/src/installments/installments.service.ts:377-421 | The first loop charges every row the days not charged yet and leaves the true per-wallet maximum of days overdue. |
| `Engine.MaximumDecides` | backend/src/installments/installments.service.ts:390-436 | That maximum exceeds the threshold if and only if some unpaid installment of the wallet does. |
| `Engine.MoneyEngine.ApplyOverduePenalties` | backend/src/installments/installments.service.ts:377-456 | In place: charges, then blocks precisely the wallets with a threshold and some unpaid installment beyond it. |
| `Engine.MoneyEngine.CheckDueInstallments` | backend/src/installments/installments.service.ts:321-359 | The loop stamps the rows that are due and cancels those of reversed purchases. |
| `Engine.MoneyEngine.Execute` | backend/src/transactions/transactions.service.ts:3535-3609 | Runs any request in place; one that throws leaves every table as it was, and one that is safe keeps the books. The events it emitted stay: they follow every balance, but for what a request that throws had posted. |
| `Engine.MoneyEngine.ExecuteAll` | backend/src/transactions/transactions.service.ts:3535-3609 | Any list of requests executed in place on a fresh system: all books agree at the end if the requests were safe, debits equal credits with nobody overdrawn as long as no charge and no defaults were split badly, and the fold of the events is every balance if and only if the leaks of failed requests cancel. |

## Left out

- Client keys are assumed not to begin with one of the service's own heads and a colon: keys are a datatype in which a client's key is not a derived one. `Keys.PlainKeysTell` proves that the texts of all other keys differ whenever the keys do.
- Floating point and time zones: percentages are whole thousandths of a percent, dates are UTC; a process in another zone shifts dates.
- Transaction limits, allowed counterparties, terminal ids, OTP, CAPTCHA, authentication, admin scoping, history, notifications, logs and sockets.
- The answers of gateways and rails are parameters of the requests; the rail's settlement rows are reduced to whether a payout cleared.
- SQL: a request is one atomic step with unique keys and the amount check of the table; row locks are modelled for plain transfers only, since the lock order of repository-backed wallets differs between flows.
- The penalty and due-date sweeps save row by row and the payout sweep runs wallet by wallet in transactions of their own; each is one step here.
- The scheduler's choice of wallets and minutes for a sweep, and the sweep that follows a verification on an instant rail: a sweep may be requested at any time, of a wallet whose type sweeps.
- The payout sweep visits purchases in id order; the order the database returns is not part of this model.
- Manual edits of a ceiling and the older monthly billing rows, which bypass the books of the credit lines.
- The link from a refund's journal entry to the entry it reverses, and entry descriptions.
- Accounts are taken as seeded in `Bank`; `GeneralLedger` models the lookup and its failure.
- The backfill's note about rows that refer to a wallet that does not exist, which the foreign keys of the rows exclude; such rows post nothing here either.
- The fractional part and the sign of an amount in words.
- Paying with a top-up, and attaching a wallet to a merchant charge, between the events of the two-database protocol.
- FeedLeaks.LeaksOnlyLate: of write-offs and sweeps it says only when they can mislead, since what they post can cancel within one wallet.
- The feed's GL_POSTING_CREATED events, and delivery to subscribers.
- Zero-principal installments: restoring a ceiling by zero fails the table's amount check, so such a request is rolled back in the model as in the source.
- Idempotency.Service.Run: the request hash is taken as injective, so that a caller is compared by user, endpoint and payload.
- Transfers.TransfersAreSerializable: wallets without a repository only, as their locks alone are ordered.
- RoundTrip.DrawRepayRefund: sweeps, write-offs, repayments of other purchases and top-ups in between only as far as they leave the line's ceiling and the balances of line and repository alone; requires that the fee sub-repositories are neither the credit wallet nor the repository behind it, since a routed slice would otherwise come back to them.
