# Digital Ledger: a verified model

A shop keeper records credits and payments per customer. Each customer document caches three
totals (`balance`, `total_credit`, `total_paid`) that are never recomputed, only moved by `$inc`
deltas, and a credit score derived from the transactions, the cached balance and the clock. This
project models that ledger, the score, the reports built on it (dashboard, monthly trend, invoice)
and the bulk import, and proves what they promise about each other.

| file | contents |
|---|---|
| `Collections.dfy` | collections as finite maps: sums, queries, grouping, cursors in any order |
| `Records.dfy` | the documents; sums and counts per transaction kind |
| `Scoring.dfy`, `ScoreTables.dfy`, `ScoreWitnesses.dfy` | the score as a function and its theorems; its tables read off histories; histories attaining its bounds |
| `Store.dfy` | snapshots of both collections, the atomic writes, the class `Database` |
| `Customers.dfy`, `Transactions.dfy`, `BulkImport.dfy` | the operations, imperative, proved against functions on snapshots |
| `Ledger.dfy`, `Guarantees.dfy` | sequential runs of operations, their invariant, and what follows from it |
| `Interleaving.dfy` | operations cut into database steps, any number in flight |
| `Analytics.dfy`, `MonthlyTrend.dfy`, `Invoice.dfy` | the reports and their reconciliation with the ledger |

How to read the model:

- Amounts are exact reals. The ratio thresholds appear cross-multiplied in the scoring function and
  as quotients in the imperative code; `Customers.QuotientSteps` connects the two.
- The clock counts milliseconds; theorems about ages give them in milliseconds. An operation stamps its document at one instant (`at`) and scores at a
  possibly later one (`scoredAt`). `.days` is a division rounded down.
- A query returns its documents in any order (`Collections.Lists`), a sorted query in any order
  that respects the sort key. The calendar of the monthly report is a parameter.
- `ObjectId` generation is a counter per collection. `FreshIds` says that ids in use were handed out.
- Where the documentation and the code disagree the code is followed: the category thresholds are
  those of `customers.py:185-189`, not the table in the repository's README, and a customer that
  was never scored is stored as 100 / "Low Risk" (`customers.py:27-28`), which the thresholds would not give.
- Every database call is one atomic step. That is what MongoDB promises for a single document; `delete_many`
  in the cascade of `delete_customer` (`DeleteHistory`, and `Cascade` between concurrent requests) touches many
  documents and is taken as one step too.
- `edit_transaction` does not check the amount. The model accepts any amount there; only the theorems that
  need positive amounts assume the form's minimum (`app.py:533`), as `PositiveEdits`.

Main results:

- **Sequential runs** (`Ledger.RunKeepsInv`): in every state any sequence of operations can reach, the
  cached totals are the sums over the transactions, every transaction belongs to an existing customer of
  the same merchant, phones are unique per merchant, and every stored score is the score of some instant up
  to now: that of the last operation that rescored the customer (`Guarantees.StoredScoreIsOfLastScoring`).
- **Isolation** (`Guarantees.OthersUntouched`, `OthersReportsUntouched`): an operation of one merchant changes
  no other merchant's customers, transactions, history pages, summary figures or monthly trend.
  `Interleaving.RunSparesOthers` carries this to overlapping requests: once nothing in flight concerns a
  merchant, requests of other merchants leave its documents alone in every interleaving.
- **Interleaved runs** (`Interleaving.GapIsDrift`): with operations cut into database steps in any
  interleaving, with no assumption at all, "stored total + deltas still to be posted" misses the true sum by
  exactly the amounts misread: the difference between what an edit or deletion had read and what it
  overwrote. `ExclusiveRunConserves` shows that this is zero when no edit or deletion starts on a
  transaction that another one has read and not yet written. Deleting a customer while operations are in
  flight does not hurt the totals; it can leave orphans, and `LinksBreakOnlyByOrphans` says exactly when.
  Phones stop being unique exactly when an insert lands on a phone held by then (`PhonesBreakOnlyByClashes`).
- **False without a guard**: `LostUpdate` (two overlapping edits leave wrong totals),
  `DeletionDuringAddOrphans` (a deletion between lookup and insert leaves a transaction without a customer) and
  `OverlappingAdditionsSharePhone` (two overlapping additions store one phone twice).
- **The score**: a payment never lowers it exactly when the customer had a transaction before; a credit
  never raises it, except by exactly 5 points in one precisely described case; deletions mirror both; edits
  are monotone; idle time costs at most 30 points and nothing after day 91; and four bounds hold only because
  the balance is the net of the history. `ScoreWitnesses` has a concrete history for each of these extremes.

## Model

| member | source | states |
|---|---|---|
| Store.Database.InsertCustomer | customers.py:33 | inserts under the next generated id, which is new as long as ids in use were generated, and changes nothing else |
| Store.Database.InsertTxn | transactions.py:31 | inserts under the next generated id, which is new as long as ids in use were generated, and changes nothing else |
| Store.Database.SetAmount | transactions.py:73-77 | replaces amount and note of one transaction and marks it edited; no effect if it is gone |
| Store.Database.DeleteTxn | transactions.py:104 | removes one transaction and nothing else |
| Store.Database.Increment | transactions.py:37-41 | moves the three cached totals of one customer by independent deltas; no effect if it is gone |
| Store.Database.SetScore | customers.py:191-194 | writes score and category of one customer and leaves its totals alone |
| Store.Database.DeleteCustomer | customers.py:201 | removes the customer document if it belongs to the merchant, and reports whether it did |
| Store.Database.DeleteHistory | customers.py:203 | removes every transaction carrying the customer id, and no other |
| Store.SumAfterInsert | transactions.py:21-31 | inserting a transaction moves the sum of its own customer and kind by its amount, and no other sum |
| Store.SumAfterAmount | transactions.py:73-77 | an amount correction moves exactly one customer's sum of one kind, by the difference |
| Store.SumAfterRemoval | transactions.py:104 | a removal takes exactly the transaction's amount out of one sum |
| Store.SumAfterCascade | customers.py:203 | the cascade leaves the sums of every other customer alone |
| Customers.AddCustomer | customers.py:14-34 | refuses a phone the merchant already has; otherwise adds a customer with zero totals, score 100 and Low Risk |
| Customers.DeleteCustomer | customers.py:198-205 | removes the customer and all its transactions if the merchant owns it, and otherwise nothing |
| Customers.GetDefaulters | customers.py:75-80 | lists the merchant's customers with a positive balance, all of them and nobody else |
| Customers.ComputeCreditScore | customers.py:83-195 | stores and returns the score of the customer's own transactions, cached balance and clock, and writes nothing else; an unknown customer gives 100 and Low Risk and no write |
| Customers.ScoreListing | customers.py:102-189 | the step-by-step computation yields the scoring function for every cursor order that respects dates, the clamp has no effect, and the category follows the thresholds |
| Customers.LastIsNewest | customers.py:102-166 | the last element of a list sorted by date carries the newest date of the whole set, whatever the order of ties |
| Customers.ListedProfile | customers.py:113-118 | the filtered lists, their sums and lengths depend only on the set of documents, not on the cursor's order |
| Customers.QuotientSteps | customers.py:123-132 | comparing the quotient with each threshold equals the cross-multiplied comparison |
| Customers.QuotientOfCounts | customers.py:176-180 | the same for the payments-per-credit ratio |
| Scoring.PointsInRange | customers.py:120-182 | the raw sum of the six factors already lies in 0..100 |
| Scoring.PointsMonotone | customers.py:122-180 | a profile at least as good in every ingredient never scores less |
| Scoring.PaymentNeverLowers | customers.py:106-180 | adding a payment leaves the score at least as high if and only if the history was not empty; a first payment gives at most 83 |
| Scoring.CreditRaisesOnlyByConsistency | customers.py:106-180 | adding a credit raises the score if and only if the history is payments only, covers the credit and the credit is not overdue, and then by exactly 5 |
| Scoring.EditMonotone | customers.py:122-153 | raising a payment's amount never lowers the score, raising a credit's amount never raises it |
| Scoring.IdleDecay | customers.py:137-172 | with no new transactions the score only falls with time, by at most 30 points |
| Scoring.IdleSettles | customers.py:137-172 | the score is constant once every transaction is 91 days old |
| Scoring.SettledBound | customers.py:122-180 | a net of at most zero forces a score of at least 50 for any amounts, at least 53 for positive ones |
| Scoring.OwingBound | customers.py:122-180 | a positive net forces a score of at most 94 |
| Scoring.NeverPaidBound | customers.py:122-180 | no payments force a score of at most 38 |
| Scoring.NeverBorrowedBound | customers.py:122-180 | no credits force a score of at least 73 |
| ScoreTables.LoneCredit | customers.py:137-142 | a lone credit scores 38 until it is 2,678,400,000 ms old and 32 from then on, at every age |
| ScoreTables.LonePayment | customers.py:164-172 | a lone payment scores by its age in milliseconds, with steps after 7, 15, 30, 60 and 90 days, at every age |
| ScoreTables.OverdueTable | customers.py:138-142 | what 1, 2, 3 and more overdue credits score, for every number of them |
| ScoreTables.BalanceTable | customers.py:145-153 | what a fresh credit of any size scores |
| ScoreTables.RatioTable | customers.py:121-132 | what a payment of any size against a credit of 100 scores |
| ScoreTables.FrequencyTable | customers.py:156-162 | what any number of payments scores |
| ScoreTables.ConsistencyTable | customers.py:175-180 | what three payments against any number of credits score |
| ScoreTables.LowCategoriesAttained | customers.py:185-189 | histories with scores 29, 30, 49 and 50 and the categories on both sides of these thresholds |
| ScoreTables.HighCategoriesAttained | customers.py:185-189 | the same for 64, 65, 79 and 80 |
| ScoreWitnesses.BoundsAttained | customers.py:122-180 | the four bounds are each attained by a concrete history |
| ScoreWitnesses.DecayAttained | customers.py:137-172 | a history that loses all 30 time-dependent points, and one that still loses 2 after day 90 |
| ScoreWitnesses.RewardAttained | customers.py:176-180 | a history in which one more credit is worth 5 points |
| Transactions.AddTransaction | transactions.py:7-46 | checks amount, type and customer in that order and then changes nothing; otherwise inserts the document, posts the amount, rescores and returns the old balance plus or minus the amount |
| Transactions.EditTransaction | transactions.py:49-83 | replaces the amount and posts the difference with the sign of the kind, then rescores; refuses another merchant's transaction |
| Transactions.DeleteTransaction | transactions.py:86-110 | removes the transaction, posts its amount back, then rescores |
| Transactions.GetTransactions | transactions.py:113-121 | lists the merchant's transactions, or those of one customer, all of them and no other merchant's, newest first; the full listing has their number and their sums per kind |
| BulkImport.ImportCustomers | bulk_import.py:17-49 | reports the missing columns and changes nothing, or: added + failed = rows, one error line per failure with the row's number and reason, added = usable phones the merchant did not hold, every new customer with the details of its row |
| BulkImport.ImportedFromRow | bulk_import.py:31-47 | every new customer is the earliest complete row with its phone; no row with an empty or "nan" name or phone adds one |
| BulkImport.ErrorNamesRow | bulk_import.py:36-47 | an error line carries its row's number in the sheet and the reason why that row did not go in, in row order |
| BulkImport.FailedRowIsNamed | bulk_import.py:36-47 | every row that did not go in has its error line |
| BulkImport.ImportAddsEachPhoneOnce | bulk_import.py:31-47 | afterwards the merchant holds its old phones and the usable ones, with one new customer per new phone |
| BulkImport.ImportOfHeldPhones | bulk_import.py:42-47 | rows whose phones are all held change nothing |
| BulkImport.ImportTwice | bulk_import.py:31-47 | importing the same file again leaves every collection as the first import left it |
| BulkImport.ImportKeepsCustomers | bulk_import.py:42 | existing customers and all transactions survive an import unchanged |
| Ledger.Perform | transactions.py:7-110 | the events of a run are the operations themselves: each call leaves the state the run function gives |
| Ledger.RecordedPosts | transactions.py:21-41 | insert and increment together keep caches, links and ids in order and touch one customer only |
| Ledger.CorrectedPosts | transactions.py:64-81 | the same for an edit, for any new amount |
| Ledger.ReversedPosts | transactions.py:95-108 | the same for a deletion |
| Ledger.CascadedKeepsInv | customers.py:198-204 | deleting a customer keeps the invariant although the cascade matches on customer_id alone |
| Ledger.NextKeepsInv | transactions.py:7-110 | every operation keeps the whole invariant: caches, links, unique phones, dated scores |
| Ledger.RunKeepsInv | transactions.py:7-110 | the invariant holds in every state a run can reach |
| Guarantees.CachesAgreeWithLog | transactions.py:33-41 | after any run total_credit, total_paid and balance are the sums over the surviving transactions |
| Guarantees.TotalsForgetHistory | transactions.py:33-108 | two runs that leave the same transactions leave the same totals |
| Guarantees.StoredScoreAges | customers.py:137-172 | a stored score is never below the score recomputed now or later, and at most 30 above it |
| Guarantees.StoredScoreIsOfLastScoring | customers.py:83-195 | after any run a customer's stored score and category are what its present transactions and balance yield at the instant of the last operation that rescored it, and 100 / Low Risk with no transactions if none did |
| Guarantees.DefaultersOwe | customers.py:75-194 | a customer stored as defaulter has a positive balance and appears in the defaulter list, for any amounts |
| Guarantees.StoredScoreBounds | customers.py:122-194 | the four score bounds hold for stored scores in every reachable state |
| Guarantees.DeleteUndoesAdd | transactions.py:86-110 | recording a transaction and deleting it leaves collection, totals and score as a mere rescoring would |
| Guarantees.LastEditWins | transactions.py:49-83 | two edits of a transaction equal the last one alone |
| Guarantees.RecordedPaymentNeverLowers | transactions.py:31-42 | the stored score after recording a payment is at least that of rescoring without it, exactly when there was a transaction before |
| Guarantees.RecordedCreditRaisesOnlyByConsistency | transactions.py:31-42 | the stored score after recording a credit exceeds that of rescoring without it in one case only, by 5 |
| Guarantees.DeletedPaymentNeverRaises | transactions.py:104-109 | the stored score after deleting a payment of positive amount is at most that of rescoring with it, exactly when it was not the customer's only transaction |
| Guarantees.DeletedCreditLowersOnlyByConsistency | transactions.py:104-109 | the stored score after deleting a credit of positive amount falls below that of rescoring with it in one case only, by 5 |
| Guarantees.EditedAmountMovesScore | transactions.py:63-82 | the stored score after correcting an amount upwards is no lower for a payment and no higher for a credit than without the correction |
| Guarantees.OthersUntouched | transactions.py:78-108 | in a reachable state no operation changes another merchant's customers or transactions |
| Guarantees.OthersReportsUntouched | analytics.py:7-49 | nor any of another merchant's summary figures (customers, defaulters, outstanding, totals, collection rate), nor its monthly trend, row for row |
| Guarantees.OthersListsUntouched | transactions.py:113-121 | nor which documents another merchant's history pages and list of owing customers hold |
| Interleaving.StepKeepsWellFormed | transactions.py:31-109 | every step of every interleaving keeps balance = total_credit - total_paid and what operations in flight know about their targets |
| Interleaving.StepMovesGap | transactions.py:31-109 | a step changes "stored + still due - actual" by exactly what it misreads, in any state |
| Interleaving.GapIsDrift | transactions.py:31-109 | over any interleaved run that difference is the sum of all misreadings |
| Interleaving.ExactIffNoDrift | transactions.py:31-109 | with nothing left to post the totals are exact if and only if the misreadings cancel |
| Interleaving.ExclusiveKeepsCurrent | transactions.py:55-107 | if edits and deletions of one transaction do not overlap, what each has read stays current until it writes |
| Interleaving.ExclusiveRunConserves | transactions.py:31-109 | in every such run stored totals plus amounts still due are the sums over the collection |
| Interleaving.ExclusiveRunSettlesExact | transactions.py:31-109 | and once everything is posted the caches are exact |
| Interleaving.OverlappingEditsDrift | transactions.py:55-81 | two overlapping edits leave the total off by the first edit's correction |
| Interleaving.LostUpdate | transactions.py:55-81 | a concrete run from the empty database that ends with wrong totals |
| Interleaving.LinksBreakOnlyByOrphans | customers.py:201-203 | a step leaves a transaction without its customer if and only if it inserts for a customer deleted for good |
| Interleaving.RunStaysLinked | customers.py:201-203 | without such inserts every transaction has its customer once nothing is in flight |
| Interleaving.DeletionDuringAddOrphans | transactions.py:17-31 | deleting the customer between lookup and insert leaves an orphan |
| Interleaving.PhonesBreakOnlyByClashes | customers.py:17-33 | a step ends the uniqueness of phones if and only if it inserts a customer whose phone the merchant holds by then |
| Interleaving.RunKeepsPhonesUnique | customers.py:17-33 | if additions of one phone do not overlap, phones are unique per merchant in every interleaving, and every phone looked up stays free until its insert |
| Interleaving.OverlappingAdditionsSharePhone | customers.py:17-33 | two overlapping additions of a free phone both succeed |
| Interleaving.CustomerAdditionIsItsSteps | customers.py:17-34 | the sequential addition of a customer, done or refused, is one interleaving of its own steps |
| Interleaving.AdditionIsItsSteps | transactions.py:31-42 | so is the sequential addition of a transaction, done or refused |
| Interleaving.EditIsItsSteps | transactions.py:73-82 | so is the sequential edit, done or refused |
| Interleaving.DeletionIsItsSteps | transactions.py:104-109 | so is the sequential deletion, done or refused |
| Interleaving.CustomerDeletionIsItsSteps | customers.py:201-203 | and the deletion of a customer with its cascade, done or refused |
| Interleaving.RescoringIsItsSteps | customers.py:83-195 | and the recalculation of a score |
| Interleaving.CustomersStayWhoTheyAre | customers.py:198-204 | a customer keeps merchant and phone at every step, and disappears only when its own merchant asks for it |
| Interleaving.RunSparesOthers | customers.py:198-204 | in every interleaving, once nothing in flight concerns a merchant, requests of others leave its customers and transactions as they are |
| Analytics.GetSummaryStats | analytics.py:7-29 | the figures are the counts and sums over the merchant's own documents; defaulters are those with a positive balance; the rate is the paid percentage of the credit, 0 without credit |
| Analytics.CachesAddUp | analytics.py:11-18 | the cached totals of a merchant's customers add up to the sums over its transactions |
| Analytics.DashboardReconciles | analytics.py:11-20 | balances add up to credits minus payments; outstanding is at least that, with equality if and only if nobody is overpaid; the collection rate reaches 100 if and only if credits do not exceed payments, so it does when nothing is outstanding |
| MonthlyTrend.GetMonthlySummary | transactions.py:124-134 | one group per month and kind in use, with its sum, by year and then by month |
| MonthlyTrend.GroupsFollowTime | transactions.py:132 | under a calendar that never goes back, transactions of an earlier month's group are older than those of a later one |
| MonthlyTrend.LabelReads | analytics.py:40 | a label spells the month's abbreviation and the year |
| MonthlyTrend.LabelInjective | analytics.py:40 | two months never share a label |
| MonthlyTrend.NeverOverwritten | analytics.py:41-44 | the cell the loop assigns to still holds its default |
| MonthlyTrend.GetMonthlyTrend | analytics.py:32-49 | months strictly increasing by year and month, exactly those in use, each cell the sum of its transactions, 0 if none |
| MonthlyTrend.RowsFollowTime | analytics.py:47 | under a calendar that never goes back, every transaction of an earlier row is older than every one of a later row |
| MonthlyTrend.TrendUnique | analytics.py:32-49 | a merchant's transactions and the calendar determine the trend: rows, order and cells |
| MonthlyTrend.ColumnsAddUp | analytics.py:16-49 | each column of the trend adds up to the merchant's total of that kind |
| Invoice.BreakStartsPage | invoice.py:70-72 | the cursor falls below 80 exactly before the rows that start a new page in the closed form |
| Invoice.GenerateInvoice | invoice.py:33-122 | every transaction is printed once, in order, with its own date, kind and amount and its note cut to 22 characters, on its closed-form page and height with alternating background; the printed amounts of each kind add up to the printed totals; the row pages number 1 up to 31 rows and 1 + ceil((n - 31) / 40) beyond |
| Invoice.RowsLaidOut | invoice.py:69-102 | rows lie between 80 and height - 50, are 18 apart on a page, and never share a place |
| Invoice.InvoiceReconciles | invoice.py:65-122 | for a customer's own transactions the accumulators are the cached totals and the outstanding balance is their difference |

## Left out

- Floating point: amounts are exact.
- Store.Database.InsertCustomer: the document has no portal PIN, `created_at` or `last_transaction`, because nothing modelled here reads them.
- Store.Database.SetAmount: the `edited_at` stamp is not in the document, because nothing in the repository reads it.
- Store.Database.Increment: the `last_transaction` stamp of the same update is not in the document, because nothing modelled here reads it.
- Customers.AddCustomer: without the portal PIN and the stamps of the new document, as above.
- Transactions.AddTransaction: without the `last_transaction` stamp, as above.
- Transactions.EditTransaction: without the `edited_at` stamp, as above.
- Analytics.GetSummaryStats: the collection rate is not rounded to one decimal, because the rounding is a floating point operation.
- Invoice.GenerateInvoice: the printed form of dates and amounts, and the positions of header and summary, are not in the result.
- `get_risk_distribution`, `get_customers`, `get_customer_by_id`: counting and lookups that would only add easy members.
- `auth.py`, `otp.py`, `reminders.py`, `receipts.py`, `activity_log.py`, `database.py` and the Streamlit pages of `app.py`: wrappers around bcrypt, Twilio, MongoDB and the user interface.
- Reading the Excel file, the broad exception handler and the template of `bulk_import.py`: rows arrive parsed and stripped.
- PDF drawing calls, fonts, colours, the summary box and footer: the code makes no page check for the box, so none is claimed.
- The customer portal's invoice: it prints the balance saved at login, so the reconciliation is stated for the merchant's page only.
- Score freshness under interleaving: a concurrent rescoring may write an older result, so `Interleaving` lets a score write carry any value and claims nothing about it.
- Replies under interleaving: `Interleaving` models the database steps, not what a caller gets back (an addition whose customer is deleted before its last read would fail there).
- A failure between two steps of one operation (a crash) is not modelled; an operation in flight may however wait forever.
