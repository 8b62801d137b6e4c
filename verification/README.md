# Ledger, billing and planning: a verified model

A Dafny model of a lift-maintenance firm's back office: the party ledger with its
invoices and collections, the replay protection of its API, its billing, its monthly
maintenance plan, its route ordering and its sign-in lockout. Verify it with
`dafny verify dfyconfig.toml`.

**The ledger** (`Books` to `LedgerStore`). Movements are append-only and every balance
is their signed sum. `Services` gives each service call as one step on the books that
commits or refuses; `LedgerStore.Store` changes the rows in place, loop by loop, does
what the step says and keeps the invariant. What a step is to do is said apart from its body:
`Acceptance` gives the exact condition, on the rows, under which each call is accepted,
`CallEffects` what it then does to every balance by its own arguments, and `FinanceFlows` what
the cash summary counts of it. Over every run from an empty firm the stored and
fast facts agree with the plain sum: accounts reconcile with invoices and collections
(`Reconciliation`), statuses with what is owed (`Allocation`), each invoice is
debited and cancelled once (`InvoiceKeys`), statements with balances
(`Statements`), the cash summary with the tills (`Finance`, `FinanceRuns`), and closed
periods stay frozen (`ClosedBooks`).

**Locks and races.** `LockOrder` lists the row locks each path takes and proves that
no set of transactions keeping the written order waits in a cycle. `CancelRace` takes
`cancel_collection` and `apply_collection` apart, lock by lock, for any number of
concurrent transactions; `RaceLedger` proves that what they publish is what the ledger's
calls make of the books; `LateLocks` runs them into the deadlock a last
attempt allows.

**Replay protection** (`KeyStatements`, `IdempotencyProtocol`). The statements on the
key row, and the protocol they make up, as interleaved steps with crashes, take-overs,
expiries and purges at any point, and a log of committed effects.

**Billing.** `Decimals` and `Money` carry the 28-digit decimal arithmetic; `Calendar`,
`Periods` and `Terms` the month stepping; `Drafting` to `DraftingStore` and `ContractFees`
the generator and the life of a draft, `DraftingEdits` what an edit or an issue
does to the lines and totals, `Redrafting` what follows a cancel; `BillingLedger` puts
drafts and books together; `CarryOver`, `CarryEffects` and `LegacyBooks` carry older
invoices into the ledger.

**Planning.** `Plan` to `PlanStore` keep the monthly plan in line with the visits;
`Paths` and `Routing` order a day's stops. `Lockout` is the sign-in lockout.

Four properties hold only under a condition, and are proved with it, both ways. A renewal
keeps its shape when its start was not clamped or both terms have as many days (`Terms.RenewalKeepsShape`, `Terms.MonthEndDrifts`).
The plan job leaves every row in line with the visits exactly when it made no row for a lift
already visited that month: a row it creates is not re-synced, though `sync_planned_visit`
describes every row as recomputed from the surviving visits
(`PlanGenerator.UpToDateAfterRunIff`, `PlanGenerator.FirstRowMissesItsVisit`).
`cancel_collection`'s last attempt keeps the lock order exactly when no invoice is new to it
(`LockOrder.LateLocksKeepOrderIff`), and when one is the two calls can deadlock
(`LateLocks.LateLocksDeadlock`). And a carry-over brings the whole books under the ledger's
invariant exactly when the drafts it has no work for read what the ledger says already
(`LegacyBooks.CarriedIntoTheLedger`, `LegacyBooks.PaidNothingKeepsItsDay`).

How the model reads the code:

- Money in the books is a whole number of cents; amounts a caller sends are reals or not
  finite. Business dates are day numbers, times are whole numbers that never run back.
- A row's primary key is its index, so older rows have smaller keys. Invoices are applied
  to and synced in key order, as the code sorts them.
- Each ledger service call is one atomic step. The finer interleavings are in `CancelRace`
  and `IdempotencyProtocol`. In `CancelRace` a transaction reads under its locks in one step.
- What another system answers is a parameter: today's date, whether a reason was given, who
  covers a lift, and the distance between two points, which is any symmetric function to the reals.
- An insert of an idempotency key reaches the database within the key's own retention
  of the clock reading it was made with, and the retention is positive.
- `Drafting.Issue` and `Drafting.Cancel` take the ledger's answer as a flag and `Services.Issue`
  the lines' state as one; `BillingLedger` gives each the other's real answer.
- In `Lockout` the check, `add`, `incr`, the counter's reopening and the last write of an attempt happen at
  their own times, in order; attempts come one at a time, and a failure is dated by its check.

## Model

| member | source | states |
|---|---|---|
| `Books.OfCents` | apps/ledger/posting.py:79-82 | A whole number of cents is money exactly when it is positive, and comes back as the same number of cents |
| `Books.MoneyIsCents` | apps/ledger/services.py:283-287 | An amount is money exactly when it is a whole number of cents, at least one |
| `Books.FindAccount` | apps/ledger/services.py:57-82 | The index found is an account of that party and currency, and the first one; past the end when there is none |
| `Posting.PostsExactlyWhen` | apps/ledger/posting.py:114-177 | A posting is written, last and alone, exactly when its amount is above zero, its sides exist in its currency, its day is open and not before a live opening it touches, and its invoice has not posted so before |
| `Reversal.ReversesExactly` | apps/ledger/posting.py:180-239 | A reversal writes one mirror of each movement of the document that stands, in their order, and nothing else; a plain one is refused exactly when none stands or the day is not open |
| `Reversal.MirrorNegates` | apps/ledger/posting.py:217-233 | A mirror adds to every side the opposite of what its original added |
| `Reversal.NetIsStanding` | apps/ledger/posting.py:200-210 | What a document adds to any side is what its unreversed originals add: mirrored pairs cancel |
| `Reversal.ReversalIsInverse` | apps/ledger/posting.py:180-239 | Reversing a document brings its net on every account, till and currency to zero, leaves every other document alone, and keeps every movement reversed at most once |
| `Reversal.ReversedOnce` | apps/ledger/posting.py:211-212 | A document reversed is refused when reversed again |
| `Reversal.MirrorsWell` | apps/ledger/posting.py:196-210 | Writing the mirrors of a document keeps the rule that no movement has two mirrors and no mirror is mirrored |
| `Allocation.LatestIsMaximum` | apps/ledger/services.py:515-521 | The paid date found is the date of some standing collection of the invoice and no earlier than any of them |
| `Allocation.StatusMeans` | apps/ledger/services.py:495-530 | An issued or paid invoice owes between nothing and its total, reads paid exactly when it owes nothing, and its paid date is the latest standing payment or, for a zero total, the invoice date |
| `Allocation.SyncRestores` | apps/ledger/services.py:495-530 | Syncing the invoices a call named restores the agreement of status and balance for all |
| `Allocation.TotalByInvoice` | apps/ledger/services.py:241-247 | What a call asks for altogether is the sum over invoices of what it asks for each, however often it names one |
| `Allocation.NewlyCollected` | apps/ledger/services.py:253-280 | The applications written pay each invoice named exactly what was asked for it and change no other |
| `Allocation.NewlyAllocated` | apps/ledger/services.py:253-280 | The applications written draw on their own collection by the total asked and on no other |
| `Allocation.AppliedAllocation` | apps/ledger/services.py:228-280 | Applying within the limit never overpays an invoice or overdraws a collection, and leaves stale only the statuses of the invoices named |
| `Allocation.CancelledAllocation` | apps/ledger/services.py:388-391 | Cancelling a collection leaves every bound in place, and stale only the statuses of the invoices it paid |
| `CallShapes.MarkPaidCollects` | apps/billing/services.py:479-505 | Marking an invoice paid is recording a collection of exactly what it owes, applied to it, on its customer's account, into the till named or the active default one |
| `Acceptance.ApplyAccepted` | apps/ledger/services.py:228-280 | An advance is applied exactly when something is asked, every amount is money, the collection stands, their total is at most what it has left, and each invoice named is issued or paid, of the account's customer and currency, not paid by it yet, and asked at most its total less what it has collected |
| `Acceptance.CollectionAccepted` | apps/ledger/services.py:295-347 | A collection is recorded exactly when its sides exist in one currency, its amount is money, what it is to pay it may pay by the same rules, up to its amount, and its day is open and not before a live opening of either side |
| `Acceptance.MarkPaidAccepted` | apps/billing/services.py:479-505 | Marking paid is accepted exactly when the invoice is issued and owes something, the till named, or the default one if active, holds its currency, and the day is open and not before a live opening of either side |
| `Acceptance.PaymentOutAccepted` | apps/ledger/services.py:586-626 | A payment out is recorded exactly when its sides exist in one currency, its amount is money and its day is open and not before a live opening of either |
| `Acceptance.ManualEntryAccepted` | apps/ledger/services.py:633-672 | A manual entry is recorded exactly when its account exists, a reason is given, its amount is money and its day is open and not before the account's live opening |
| `Acceptance.TransferAccepted` | apps/ledger/services.py:679-758 | A transfer is recorded exactly when it names two different accounts, or two different tills, as its kind says and nothing else, both in one currency, its amount is money and its day is open and not before a live opening of either |
| `Acceptance.OpeningAccepted` | apps/ledger/services.py:765-829 | An opening is recorded exactly when it names one account or one till that has no live opening and nothing standing before it, its amount is money and its day is open |
| `Acceptance.OpenAccountAccepted` | apps/ledger/services.py:854-907 | An account is opened exactly when its party has none in the currency |
| `CallEffects.IssueAccepted` | apps/billing/services.py:441-476 | An invoice is issued exactly when it is a draft with its lines priced, no other live invoice has the number, and it asks nothing, or more than nothing on a day open and not before its account's live opening |
| `CallEffects.CancelInvoiceAccepted` | apps/billing/services.py:508-538 | An invoice is cancelled exactly when it is not yet and, if issued or paid, nothing standing pays it and today is open where it posted |
| `CallEffects.CollectionMoves` | apps/ledger/services.py:295-347 | A collection lowers its account by its amount, puts it in its till and currency, moves no other side, is dated on its day, and pays each invoice named what was asked of it and no other |
| `CallEffects.MarkPaidMoves` | apps/billing/services.py:479-505 | Marking paid takes what the invoice owed off its customer's account and puts it in the till named or the default one, on the day given |
| `CallEffects.PaymentOutMoves` | apps/ledger/services.py:586-626 | A payment out raises its account and lowers its till and currency by its amount, on its day, and moves no other side |
| `CallEffects.ManualEntryMoves` | apps/ledger/services.py:633-672 | A manual entry moves its account alone: up for a debit, down for a credit |
| `CallEffects.TransferMoves` | apps/ledger/services.py:679-758 | A transfer lowers the side it is from and raises the side it is to by its amount, on its day, and moves no other account or till and no currency's cash |
| `CallEffects.OpeningMoves` | apps/ledger/services.py:765-829 | An opening sets its side, and a till's currency, up by a debit and down by a credit |
| `CallEffects.IssueMoves` | apps/billing/services.py:441-476 | Issued, an invoice is debited its total on its customer's account, on its own date; a zero total moves nothing and reads paid |
| `CallEffects.CancelPaperMoves` | apps/ledger/services.py:195-219 | A document is cancelled exactly when it stands and today is open; its mirrors are dated today and take off every side what it had put on it |
| `CallEffects.CancelCollectionMoves` | apps/ledger/services.py:368-394 | A collection, likewise |
| `CallEffects.CancelInvoiceMoves` | apps/billing/services.py:508-538 | Cancelling an issued or paid invoice takes its total off its customer's account, and a draft moves nothing; no other invoice changes |
| `InvoiceKeys.EachInvoiceOnce` | apps/ledger/models.py:291-297 | In every run each invoice has at most one debit and one cancellation, the debit of its own total |
| `Collecting.MarkPaidSettles` | apps/billing/services.py:479-505 | An invoice marked paid reads paid and owes nothing, and no other invoice changes |
| `Effects.PaperPosted` | apps/ledger/services.py:295-347 | Recording a document adds exactly its own effect to each side it names, and nothing elsewhere |
| `Effects.PaperCancelled` | apps/ledger/services.py:195-219 | Cancelling a document brings what it adds to every side to zero |
| `Effects.InvoiceCancelled` | apps/billing/services.py:508-538 | A cancelled invoice adds nothing to any side |
| `Openings.OpeningPosted` | apps/ledger/services.py:765-829 | A new opening keeps one live opening a side, with nothing standing dated before it |
| `Openings.PostKeepsOpenings` | apps/ledger/posting.py:100-111 | A movement that passes the check is not dated before a live opening of a side it touches |
| `LedgerRuns.CollectionKeeps` | apps/ledger/services.py:295-347 | Recording a collection with its applications keeps the whole ledger invariant |
| `LedgerRuns.ApplyKeeps` | apps/ledger/services.py:397-426 | Applying an advance keeps it |
| `LedgerRuns.CancelCollectionKeeps` | apps/ledger/services.py:368-394 | Cancelling a collection keeps it |
| `LedgerRuns.OpeningKeeps` | apps/ledger/services.py:765-829 | Recording an opening keeps it |
| `LedgerRuns.IssueKeeps` | apps/billing/services.py:441-476 | Issuing keeps it |
| `LedgerRuns.CancelInvoiceKeeps` | apps/billing/services.py:508-538 | Cancelling an invoice keeps it |
| `LedgerRuns.RunKeeps` | apps/ledger/services.py:228-829 | Any sequence of service calls, refused or not, keeps the ledger invariant |
| `Reconciliation.BalanceIsDocuments` | apps/ledger/balances.py:64-74 | A balance is the sum of what each document is meant to add |
| `Reconciliation.Reconciles` | apps/ledger/services.py:179-192 | An account's balance is what its issued and paid invoices owe, less what its standing collections have unallocated, plus its other standing documents |
| `Reconciliation.RunReconciles` | apps/ledger/balances.py:64-74 | The same for every account after every run from an empty firm |
| `Reconciliation.RunBounds` | apps/ledger/services.py:228-280 | In every run: no invoice overpaid or paid below zero, paid exactly when nothing remains, no collection applied beyond its amount |
| `Reconciliation.RunReversals` | apps/ledger/models.py:255-257 | In every run: each movement has at most one mirror, no mirror is mirrored, and cancelled documents add nothing anywhere |
| `Reconciliation.RunOpenings` | apps/ledger/services.py:787-829 | In every run: one live opening a side at most, and every standing movement dated on or after it |
| `Reconciliation.StandingCanBeCancelled` | apps/ledger/services.py:195-219 | A standing document can be cancelled exactly when today is open |
| `Reconciliation.CancelUndoes` | apps/ledger/services.py:203-219 | Recording a document and cancelling it puts every balance back |
| `ClosedBooks.CallOnOpenDays` | apps/ledger/posting.py:66-76 | Every movement any call writes is dated on an open day |
| `ClosedBooks.ClosingCloses` | apps/ledger/services.py:945-960 | Closing is refused exactly for a day to come; closed through a day, the books take no movement and no reversal dated by then, and on any later day just what they would take with nothing closed |
| `ClosedBooks.ClosedBalancesAreFrozen` | apps/ledger/services.py:945-960 | While the closed-through date is not moved back, no run changes what any side moved by up to that date |
| `ClosedBooks.ClosedStatementsAreFrozen` | apps/ledger/services.py:945-960 | Nor any statement ending by then, row for row |
| `Statements.AccountBalanceIsSigned` | apps/ledger/balances.py:45-74 | Debits less credits is the signed sum of the movements |
| `Statements.SelectedExactly` | apps/ledger/statement.py:103-110 | A statement lists a movement once if it is on the account and in the dates, and not otherwise |
| `Statements.SelectedInOrder` | apps/ledger/statement.py:110-110 | It lists them by date, and by age within a date |
| `Statements.StatementRows` | apps/ledger/statement.py:100-130 | The loop with its running balance gives the statement as specified |
| `Statements.ClosingIsBalance` | apps/ledger/statement.py:109-114 | The closing balance is the balance at the end date; without one it is the account's balance |
| `Statements.AdjacentStatementsJoin` | apps/ledger/statement.py:100-130 | Two adjacent statements join: one's closing is the next's opening, and rows and closing are those of the whole |
| `Finance.WindowExplained` | apps/ledger/finance.py:105-122 | What a side moved by in a window is money in less money out, plus transfers and openings, although pairs reversed inside the window are left out |
| `Finance.CashExplained` | apps/ledger/finance.py:105-122 | A till's balance at the end less its balance before is explained the same way |
| `Finance.TillsInAddUp` | apps/ledger/finance.py:176-178 | A currency's money in is the sum over its tills |
| `Finance.TillsOutAddUp` | apps/ledger/finance.py:176-178 | And its money out |
| `Finance.CurrencySummary` | apps/ledger/finance.py:125-181 | One line for each till that is active, holds money or moved, in the tills' order, and no other; the totals are those lines added up, and they are the currency's whole money in and out |
| `FinanceFlows.MovementFlows` | apps/ledger/finance.py:105-122 | A movement in the window counts as money in or out of its till unless it is a transfer or an opening; a reversal takes what it reverses out of the count if that is in the window too, and counts itself if it is not |
| `FinanceFlows.PaymentOutFlows` | apps/ledger/finance.py:105-122 | A payment out in the window is its amount of money out of its till and currency, and nothing else |
| `FinanceFlows.CollectionFlows` | apps/ledger/finance.py:105-122 | A collection is money in, likewise |
| `FinanceFlows.NoFlows` | apps/ledger/finance.py:27-28 | A transfer, an opening and a manual entry are neither |
| `FinanceFlows.CancelFlows` | apps/ledger/finance.py:108-115 | A cancel today takes what its document moved in the window out of the count, and counts what it had moved at other times the other way |
| `FinanceFlows.MadeAndCancelled` | apps/ledger/finance.py:112-115 | A payment or collection made and cancelled inside the window leaves money in and money out as they were |
| `FinanceRuns.RunCancels` | apps/ledger/services.py:733-757 | In every run transfers between tills, and their reversals, cancel per currency over any window |
| `FinanceRuns.CurrencyExplained` | apps/ledger/finance.py:105-181 | In every run a currency's cash moved in a window by its money in less its money out, plus openings alone |
| `LedgerStore.Store.Reverse` | apps/ledger/posting.py:180-239 | Reversing in place, likewise |
| `LedgerStore.Store.Sync` | apps/ledger/services.py:495-530 | Setting one invoice's status and paid date in place gives the specified ones and changes no other row |
| `LedgerStore.Store.Allocate` | apps/ledger/services.py:228-280 | Summing per invoice, checking and writing one by one gives what checking all first and writing all gives, and a refusal writes none |
| `LedgerStore.Store.Collect` | apps/ledger/services.py:295-347 | Recording a collection in place is the specified step, rolled back whole on a refusal, and keeps the invariant either way |
| `LedgerStore.Store.CancelCollectionPaper` | apps/ledger/services.py:368-394 | Cancelling one in place, likewise |
| `LedgerStore.Store.ApplyAdvance` | apps/ledger/services.py:397-426 | Applying an advance in place, likewise |
| `LedgerStore.Store.MarkInvoicePaid` | apps/billing/services.py:479-505 | Marking paid in place, likewise: an account opened on the way goes too when the collection is refused |
| `LedgerStore.Store.CancelDraftOrInvoice` | apps/billing/services.py:508-538 | Cancelling a draft or invoice in place, likewise |
| `LedgerStore.Store.ServeAll` | apps/ledger/services.py:228-829 | Any calls served in place, one after another, leave the rows where the run of the steps ends, with the invariant |
| `LedgerStore.RunFirm` | apps/ledger/balances.py:64-74 | So the rows of a firm that starts empty reconcile on every account after any calls |
| `LockOrder.EveryPathIsOrdered` | apps/ledger/services.py:109-130 | Every service path asks for each row either while holding it already or after every row it holds, by kind and key |
| `LockOrder.LateLocksKeepOrderIff` | apps/ledger/services.py:382-387 | cancel_collection's last attempt keeps that order exactly when no invoice it locks late is new |
| `LockOrder.HeldBeforeWanted` | apps/ledger/services.py:109-130 | What a blocked transaction wants comes before what its blocker waits for |
| `LockOrder.NoCycle` | apps/ledger/posting.py:85-97 | No list of transactions waits in a cycle |
| `LockOrder.SomeoneGoesOn` | apps/ledger/services.py:109-130 | While any transaction runs, one has its locks or can take the next |
| `LockOrder.RunsNeverDeadlock` | apps/billing/services.py:354-355 | Both, in every run of any number of these calls, with commits and rollbacks at any point |
| `CancelRace.OthersStayUpToDate` | apps/ledger/services.py:368-394 | What a transaction read under its locks stays true while others commit |
| `CancelRace.CommitKeepsSound` | apps/ledger/services.py:412-426 | A commit keeps every invoice within its total, every collection within its amount and every status in agreement |
| `CancelRace.StepKeepsRace` | apps/ledger/services.py:359-426 | Every step of every transaction keeps this, and every reading made under locks |
| `CancelRace.StatusesAlwaysAgree` | apps/ledger/services.py:359-426 | In every interleaving of applies and cancels statuses agree with balances and nothing is overpaid or overdrawn |
| `CancelRace.CancelSettlesEveryInvoice` | apps/ledger/services.py:368-394 | When a cancel commits it holds the lock of every invoice the collection ever paid, and each one's status agrees |
| `CancelRace.AtMostThreeAttempts` | apps/ledger/services.py:350-394 | From the step that begins it, one cancel finds its invoices at most three times whatever the others do, and one apply once; it locks late only after the third |
| `CancelRace.WaitsForwards` | apps/ledger/services.py:222-225 | Before that attempt a transaction waits only for rows after those it holds |
| `CancelRace.CycleNeedsLateLocks` | apps/ledger/services.py:376-387 | A wait cycle between these calls includes a cancel on its last attempt |
| `RaceLedger.ApplyIsAllowed` | apps/ledger/services.py:228-280 | A transaction goes on to write its applications just when the ledger's call would be accepted |
| `RaceLedger.ApplyIsCommit` | apps/ledger/services.py:397-426 | What it publishes when it commits is what the ledger's call makes of the books |
| `RaceLedger.CancelIsCommit` | apps/ledger/services.py:368-394 | So with a cancel, accepted exactly when the collection stands and today is open |
| `LateLocks.LateLocksDeadlock` | apps/ledger/services.py:376-387 | And there is one: a run of three applies, each between a cancel's unlocked read and its locks, and a fourth, that ends with the cancel locking late and the two waiting for each other |
| `KeyStatements.KeyTable.InsertPending` | core/idempotency.py:181-213 | An insert reserves the key only when there is no row, under a key never used before |
| `KeyStatements.KeyTable.TakeOver` | core/idempotency.py:139-164 | A take-over moves the row on exactly when it is still the row read, and has expired or, unanswered, is more than 60 seconds old |
| `KeyStatements.KeyTable.Release` | core/idempotency.py:253-265 | A release of the request's own reservation frees the key for whoever asks next; any other reservation or answer stays |
| `KeyStatements.KeyTable.Complete` | core/idempotency.py:280-298 | Stored only over the request's own reservation, an answer is what every request asking the same gets until it expires, and no token can take it away; otherwise the row is as it was |
| `KeyStatements.KeyTable.Purge` | core/idempotency.py:86-99 | A purge deletes the row exactly when any request coming then would take it over as expired |
| `KeyStatements.KeyTable.Reserve` | core/idempotency.py:167-250 | Whatever others do between its statements, the attempt loop ends owning the row, or answered, refused or told in flight by what the row then says; undisturbed, a missing or expired row is taken, one of another question refused, an answered one replayed, a pending one under 60 seconds old is in flight and one over is taken |
| `KeyStatements.KeyTable.Protect` | core/idempotency.py:346-368 | A request's work stands only with its answer in the row it still holds, which every repeat then gets; a failure frees the key; a request that lost its row is refused and leaves the row alone |
| `IdempotencyProtocol.StepKeeps` | core/idempotency.py:181-298 | Every step, crash, expiry and purge keeps the protocol's invariant |
| `IdempotencyProtocol.ReachableKeeps` | core/idempotency.py:318-373 | So does every interleaving |
| `IdempotencyProtocol.AtMostOnce` | core/idempotency.py:346-368 | Between two expiries of a key at most one handler's effects commit |
| `IdempotencyProtocol.ReplaysTheCommit` | core/idempotency.py:214-250 | Every replay is the answer of that commit, to the same endpoint and fingerprint |
| `IdempotencyProtocol.TokensAreUnique` | core/idempotency.py:121-136 | A token once given belongs to that request at every later moment of every run, and no other ever holds it |
| `IdempotencyProtocol.SupersededIsFenced` | core/idempotency.py:253-298 | A request whose row is gone, answered, or given to another, that other's answer stored or not, can neither store, nor commit, nor change or delete the row |
| `IdempotencyProtocol.KeepsItsRowAMinute` | core/idempotency.py:228-232 | In every reachable world a request loses a pending, unexpired row to another only by a take-over whose clock reads more than 60 seconds past its reservation |
| `IdempotencyProtocol.CommittedIsStored` | core/idempotency.py:280-298 | Effects and stored answer commit in one step |
| `Decimals.HalfUpIsNearest` | apps/billing/money.py:32-33 | The half-up rounding of n/d is the whole number q with n/d in [q - 1/2, q + 1/2), and the only one |
| `Decimals.SignedHalfUpIsNearest` | apps/billing/money.py:32-33 | Of a negative number the half-up rounding goes away from zero: each rounding is characterised by the interval it takes |
| `Decimals.HalfEvenIsNearest` | apps/billing/money.py:57-68 | The half-even rounding is the nearest whole number, and the even one halfway |
| `Decimals.DoubleRounding` | apps/billing/money.py:57-68 | Rounding half-even on a scale finer than the divisor and then half-up is rounding half-up once |
| `Decimals.QuotientThenQuantize` | apps/billing/money.py:68-68 | A quotient with a numerator of up to 27 digits, carried at 28 digits, rounds to what the true fraction rounds to |
| `Decimals.LongNumeratorRoundsTwice` | apps/billing/money.py:62-64 | With 28 digits it need not: a numerator where the two roundings differ |
| `Money.ProrationIsExact` | apps/billing/money.py:57-68 | For every price, month and day count the columns hold, the fee is the half-up rounding of the true fraction |
| `Money.QuantityIsExact` | apps/billing/money.py:40-44 | The printed quantity is the covered share of the months, to the nearest ten-thousandth |
| `Money.FullCoverIsWhole` | apps/billing/money.py:57-68 | A period covered in full costs price times months |
| `Money.LineWithinHalfACent` | apps/billing/money.py:57-68 | A prorated line is within half a cent of its exact share |
| `Money.SplitSumsToTheFee` | apps/billing/models.py:139-146 | Lines that split a period sum to the whole fee within half a cent a line |
| `Money.TwoPartSplit` | apps/billing/money.py:57-68 | Two lines that split a period sum to the fee, or one cent more exactly when both fall on a half |
| `Money.LineAmountIsExact` | apps/billing/money.py:47-54 | Quantity times price is rounded once |
| `Money.WholeQuantity` | apps/billing/money.py:47-54 | A whole quantity is not rounded at all |
| `Money.TotalsAddUp` | apps/billing/money.py:71-75 | VAT is the subtotal's share rounded once, and the total is subtotal plus VAT, within half a cent of the exact sum |
| `Calendar.StepsCompose` | core/dates.py:16-25 | Stepping twice is stepping once exactly when the day between loses nothing the last month has |
| `Calendar.DivmodSteps` | core/dates.py:23-24 | The divmod on year and month is addition on the month's number |
| `Calendar.MonthLengths` | core/dates.py:23-25 | The length of every month, with its leap years, spelled out |
| `Calendar.DaysBeforeYear` | core/dates.py:23-25 | The days before a year are 365 a year, one more for each fourth year, one fewer for each hundredth and one more for each four-hundredth |
| `Calendar.DateOfOrdinal` | core/dates.py:16-25 | Days and their numbers correspond one to one |
| `Periods.PeriodsOf` | apps/billing/periods.py:41-58 | The generator ends, with every period stepped from the contract's start, and none missing |
| `Periods.PeriodsAreConsecutive` | apps/billing/periods.py:41-58 | The periods follow on without gap or overlap from the first day to the last, only the last one cut |
| `Periods.DayInOnePeriod` | apps/billing/periods.py:41-58 | A day is in a period exactly when the contract runs on it, and never in two |
| `Periods.CoveredDaysTile` | apps/billing/periods.py:61-65 | The days a range shares with the periods sum to its days within the contract |
| `Periods.WholeTermsBillInFull` | apps/billing/periods.py:46-48 | A contract of n whole periods has n, each in full, whatever day it starts on |
| `Terms.NextTermBetween` | apps/contracts/services.py:207-220 | After a term up to a given start comes one of as many months when both start on the same day of the month, of as many days otherwise |
| `Terms.RenewalsStepFromTheStart` | apps/contracts/services.py:207-220 | Renewing k times steps k times n months from the first start while no start between was clamped |
| `Terms.EarlyStartsNeverDrift` | apps/contracts/services.py:207-220 | So always, from the 28th or earlier |
| `Terms.RenewalKeepsShape` | apps/contracts/services.py:218-220 | One renewal keeps its shape exactly when its start was not clamped or both terms have as many days |
| `Terms.MonthEndDrifts` | apps/contracts/services.py:207-220 | A monthly term from 31 January is at 28 March after two renewals |
| `Terms.WholeContractBillsEveryMonth` | apps/billing/services.py:127-132 | The fees of all periods of a flat contract of whole periods sum to fee times months |
| `ContractFees.FlatLineIsItsShare` | apps/billing/services.py:101-132 | A flat contract's draft carries one fee line, at the monthly fee, for its share of the period's days up to the last billed one |
| `ContractFees.FlatContractBillsEveryMonth` | apps/billing/services.py:127-132 | Over all periods of a contract of whole periods those shares come to the monthly fee for every month |
| `ContractFees.PeriodsInYears` | apps/billing/periods.py:19-38 | A contract of whole years has twelve monthly, four quarterly, two half-yearly or one yearly period in each, and no other |
| `ContractFees.BilledToTermination` | apps/billing/services.py:89-98 | A day is in one of a contract's billed periods exactly when it is from its start on, up to its end and, if it was terminated, no later than the day it was |
| `ContractFees.LiftIsBilledItsDays` | apps/billing/services.py:134-158 | The days a lift's fee lines bill over all periods are its covered days within the contract |
| `ContractFees.EachCoverHasItsLine` | apps/billing/services.py:134-158 | A per-lift contract's draft has one fee line for each membership with a day in the period, for just the number of its days, and no other |
| `DraftingRuns.ReworkKeeps` | apps/billing/services.py:65-72 | Changing a draft's lines and recomputing keeps every draft's totals those of its lines |
| `DraftingRuns.DraftForKeeps` | apps/billing/services.py:220-249 | Drafting a period keeps one live draft a period, each fault held once and by a live draft, and all lines priced by their exact value |
| `DraftingRuns.IssueKeeps` | apps/billing/services.py:441-476 | Issuing keeps the billing invariant: no line unpriced, no number used twice |
| `DraftingRuns.CancelKeeps` | apps/billing/services.py:508-538 | Cancelling keeps it |
| `DraftingRuns.RunKeepsBilling` | apps/billing/models.py:67-81 | Any run of generating, editing, issuing, paying and cancelling keeps it: each draft asks just what its lines not removed come to, with VAT, line by line |
| `DraftingRuns.FaultBilledOnce` | apps/billing/models.py:154-162 | So in every run, of two lines that bill one fault, one has been removed or its draft cancelled |
| `DraftingEdits.AddedLine` | apps/billing/services.py:375-407 | A line is added exactly to a draft not issued; its subtotal rises by quantity times price rounded half-up, and no other draft's changes |
| `DraftingEdits.RemovedLine` | apps/billing/services.py:431-438 | A line is removed exactly from a draft not issued; its subtotal falls by the line's amount, no other draft's changes, and the line's fault is free again |
| `DraftingEdits.EditedLine` | apps/billing/services.py:410-428 | An edited line has what was typed and what it had; its draft asks the difference more, and no other draft's subtotal changes |
| `DraftingEdits.IssuedDraft` | apps/billing/services.py:441-476 | A draft is issued exactly when every line not removed has a price, no other issued draft has the number, and its total is zero, or above zero and posted |
| `DraftingEdits.FaultWaitsForPrice` | apps/billing/services.py:200-217 | A fault's line asks nothing and keeps its draft from being issued until it is priced |
| `DraftingEdits.CancelledDraft` | apps/billing/services.py:508-538 | A cancel changes one draft's status, and gives its faults back, and those alone |
| `DraftingEdits.SyncedDraft` | apps/ledger/services.py:495-530 | The ledger's word changes an issued draft's status and nothing else |
| `DraftingLaws.BillableExactly` | apps/billing/services.py:161-197 | The faults chosen are exactly those closed in the period, billable, reported on a day the contract covered their lift, and held by no line |
| `DraftingLaws.KeyNeverRefuses` | apps/billing/models.py:154-162 | The unique key on faults never refuses what the generator chose |
| `DraftingLaws.DuePeriodsAreDrafted` | apps/billing/services.py:258-320 | After a run every period ended in the last 92 days of every contract still billed, or ended so lately, has its live draft |
| `DraftingLaws.OnlyDueAreDrafted` | apps/billing/services.py:258-320 | And every draft a run adds is of such a period of such a contract, at its rate |
| `DraftingLaws.GenerateTwice` | apps/billing/services.py:258-339 | Generating again on the same day changes nothing |
| `Redrafting.CancelFreesPeriod` | apps/billing/services.py:508-538 | After a cancel no live draft bills the period |
| `Redrafting.CancelFreesFaults` | apps/billing/services.py:535-537 | And no line holds the draft's faults |
| `Redrafting.GenerateBills` | apps/billing/services.py:161-197 | A fault no line holds is billed on the new draft of the period it belongs to, unless another period waiting for its draft bills it too |
| `Redrafting.RunLeavesFree` | apps/billing/services.py:508-538 | Until the generator runs, whatever else is called, a period and a fault given back stay free |
| `Redrafting.RedraftedAfterCancel` | apps/billing/services.py:512-515 | However long after, a run with the period still due drafts it again, and each released fault still to bill is on the new draft, billed once, with the same exception |
| `DraftingLaws.RunFreezes` | apps/billing/services.py:3-8 | Once out of draft, period, rate, totals, number and lines never change in any run, but for releasing faults |
| `DraftingStore.LiftLines` | apps/billing/services.py:134-158 | The loop over the lifts gives the specified lines |
| `DraftingStore.ChosenFaults` | apps/billing/services.py:192-197 | The loop over the faults gives the specified choice |
| `DraftingStore.Store.Recompute` | apps/billing/services.py:65-72 | Setting totals in place gives those of the lines, for a draft only |
| `DraftingStore.Store.DraftFor` | apps/billing/services.py:220-249 | Creating a draft in place is the specified step, undone whole when a unique key refuses it |
| `DraftingStore.Store.GenerateFor` | apps/billing/services.py:285-320 | Stopping at the first period not ended and skipping starts read beforehand drafts what trying every period would |
| `DraftingStore.Store.Generate` | apps/billing/services.py:258-339 | The generator in place is the specified step |
| `DraftingStore.Store.AddLine` | apps/billing/services.py:375-407 | Adding a line in place is the specified step |
| `DraftingStore.Store.EditLine` | apps/billing/services.py:410-428 | Editing a line in place is the specified step: a typed quantity replaces the fraction, a price alone does not |
| `DraftingStore.Store.RemoveLine` | apps/billing/services.py:431-438 | Removing a line in place is the specified step |
| `DraftingStore.Store.Issue` | apps/billing/services.py:441-476 | Issuing in place is the specified step |
| `DraftingStore.Store.Cancel` | apps/billing/services.py:508-538 | Cancelling in place is the specified step, its faults released one by one |
| `BillingLedger.IssueAgrees` | apps/billing/services.py:441-476 | Billing issues a draft exactly when the ledger takes its posting, and status, total and number then agree on both sides |
| `BillingLedger.CancelAgrees` | apps/billing/services.py:508-538 | Neither half cancels what the other refuses |
| `BillingLedger.LedgerCallKeepsFirm` | apps/ledger/services.py:495-530 | After a call of the ledger's own every draft's status follows the ledger's |
| `BillingLedger.RunKeepsFirm` | apps/billing/services.py:3-8 | In every run of calls of either half both invariants hold and both say the same of every invoice |
| `BillingLedger.ChargedWhatTheLinesSay` | apps/billing/services.py:441-476 | So a customer is charged for an issued invoice the sum of its lines not removed with VAT, line by line, and it reads paid exactly when collections cover that |
| `BillingLedger.DraftedForTheirParties` | apps/billing/services.py:220-249 | Each draft generated is the ledger's draft of its contract's customer, in the contract's currency, for its total |
| `CarryOver.CarrySettles` | apps/ledger/migration_helpers.py:141-176 | A draft carried needs no more carrying, is collected in full if it was marked paid, and nothing else changes |
| `CarryEffects.CarryAccepted` | apps/ledger/migration_helpers.py:141-176 | A live draft is carried exactly when it has a date, can be posted on it if it never was, and, marked paid and still owing, can be collected on the day it was paid |
| `CarryEffects.CarryMoves` | apps/ledger/migration_helpers.py:83-176 | It is debited its total on its own date if it never posted, and credited what it owed on the day it was paid, into its currency's own till; neither is later than today, and no other side moves |
| `CarryOver.OthersKept` | apps/ledger/migration_helpers.py:141-176 | Carrying one draft changes no other's need to be carried |
| `CarryOver.OnlyFailuresRemain` | apps/ledger/migration_helpers.py:195-222 | After a run a draft still needs carrying exactly when it did and its own carry failed |
| `CarryOver.RunConverges` | apps/ledger/migration_helpers.py:29-31 | After a run without failures the next finds nothing |
| `CarryOver.NothingToCarryMeans` | apps/ledger/migration_helpers.py:110-134 | Then each positive total has exactly one posting, each paid one is collected in full, each zero total reads paid |
| `CarryOver.MarkedPaidIsCollected` | apps/ledger/migration_helpers.py:158-172 | A draft marked paid before reads paid after, owing nothing |
| `CarryOver.FailureLeavesNoTrace` | apps/ledger/migration_helpers.py:208-219 | A failing draft leaves the run as if it had not been on the list |
| `CarryOver.Carrier.CarryDraftOver` | apps/ledger/migration_helpers.py:141-176 | Carrying in place is the specified step, rolled back whole on a failure; it says it posted or collected exactly when it added a debit or a collection |
| `CarryOver.Carrier.CarryInvoicesOver` | apps/ledger/migration_helpers.py:195-222 | The run in place is the specified one, and its three counts are the debits and collections it added and the drafts that failed |
| `LegacyBooks.BeforeTheLedger` | apps/ledger/migration_helpers.py:24-27 | The books before the first run, with any numbered invoices and no movement, are in order once the invoices that never posted are read as drafts |
| `LegacyBooks.RunStaysLegacy` | apps/ledger/migration_helpers.py:195-222 | Whatever is carried and whatever fails, the rest stays under the ledger's invariant |
| `LegacyBooks.CarriedIntoTheLedger` | apps/ledger/migration_helpers.py:4-12 | After a run of all drafts with work, without failures, the whole books are under the ledger's invariant, exactly when the drafts it had no work for already read what the ledger says |
| `LegacyBooks.PaidNothingKeepsItsDay` | apps/ledger/migration_helpers.py:120-134 | One it has no work for that need not: a zero total marked paid on another day than the invoice's own |
| `Paths.BackwardsInside` | apps/maintenance/routing.py:104-118 | For a symmetric distance a stretch is as long driven backwards |
| `Paths.GainIsExact` | apps/maintenance/routing.py:108-115 | The gain worked out from two edges is exactly what the whole path gets shorter by |
| `Routing.Nearest` | apps/maintenance/routing.py:81-83 | The stop chosen is nearest, and of equals the first given |
| `Routing.NearestNeighbour` | apps/maintenance/routing.py:69-87 | Every stop once, each the nearest of those left when it was chosen |
| `Routing.TwoOpt` | apps/maintenance/routing.py:90-121 | A reordering of the path, shorter by exactly what was saved, that no reversal improves beyond the tolerance unless all 200 passes gained |
| `Routing.Legs` | apps/maintenance/routing.py:146-154 | Each stop's leg is its distance from the stop before it or from the start, and none where there is nothing to measure; no leg is for anything else |
| `Routing.LegsAddUp` | apps/maintenance/routing.py:146-154 | The legs add up to the length of the path |
| `Routing.PlanRoute` | apps/maintenance/routing.py:124-165 | Every stop once, the unplaced last; from the start point, or each of the first twelve stops, a nearest-neighbour order shortened until no reversal gains; the order kept is one of these or that given, no longer than it and within the tolerance of each; the legs sum to the total |
| `Plan.LatestOutranksAll` | apps/maintenance/services.py:199-205 | The visit linked is later than every other that counts; none exactly when none counts |
| `Plan.FactSaysVisits` | apps/maintenance/services.py:175-215 | A row says what its visits say, done with the latest completed, planned with the latest attempt, or without any, for one status and link only: those the sync gives it |
| `Plan.DueByMonthEnd` | apps/maintenance/services.py:152-172 | The due date is the lift's own, or the month's last day if sooner |
| `Plan.TouchedIsEnough` | apps/maintenance/services.py:218-231 | Re-syncing only the touched lift and month pairs is recomputing every row from the surviving visits |
| `Plan.RunStaysUpToDate` | apps/maintenance/services.py:175-231 | Over any run of visits made, edited, moved and deleted every row not cancelled is done exactly when some visit of its lift and month is completed, and links the latest such; planned, it links the latest attempt, and none exactly when there is none |
| `PlanGenerator.GeneratedRow` | apps/maintenance/services.py:455-497 | What a run makes of each row, by its lift's cover, in the two months, and nowhere else |
| `PlanGenerator.EveryCoveredLiftIsPlanned` | apps/maintenance/services.py:428-446 | Each covered lift has its row in both months; unedited planned ones carry the due date and a default technician |
| `PlanGenerator.OthersAreLeftAlone` | apps/maintenance/services.py:443-444 | Edited rows, other months and finished rows of uncovered lifts stay as they are |
| `PlanGenerator.PlanTwice` | apps/maintenance/services.py:432-433 | A second run the same day writes nothing |
| `PlanGenerator.UpToDateAfterRunIff` | apps/maintenance/services.py:461-475 | A run leaves all rows saying what their visits say exactly when it made no row for a lift already visited that month |
| `PlanGenerator.FirstRowMissesItsVisit` | apps/maintenance/services.py:461-474 | A lift completed before its first row is made gets a row that says planned |
| `PlanStore.Store.SyncPlannedVisit` | apps/maintenance/services.py:175-215 | Looking through the visits in place gives the specified row |
| `PlanStore.Store.EditVisit` | apps/maintenance/services.py:218-231 | An edit re-syncs the row it closes and the one it used to close |
| `PlanStore.Store.Follow` | apps/maintenance/services.py:500-516 | One lift's row, followed in place, is the specified one |
| `PlanStore.Store.Generate` | apps/maintenance/services.py:428-497 | The job in place is the specified step |
| `Lockout.Cache.RecordFailure` | apps/users/lockout.py:93-127 | The cache calls, each at its own time, leave the counter and lock as specified |
| `Lockout.Cache.FailSignIn` | apps/users/services.py:163-190 | A wrong password is refused while locked, and counted otherwise |
| `Lockout.FiveAreNumbered` | apps/users/lockout.py:112-121 | Five failures counted in a row, each inside the window the first opened, are counted one to five |
| `Lockout.FifthFailureLocks` | apps/users/lockout.py:121-127 | Over whole runs: once the fifth of them is counted the pair is locked for 900 seconds and no longer, and any tries in that time change neither counter nor lock |
| `Lockout.WindowRunsFromTheFirst` | apps/users/lockout.py:105-112 | Later failures in a window leave its end where the first set it |
| `Lockout.NineTakeAWindow` | apps/users/lockout.py:65-67 | Any nine counted failures in a row span at least the window |
| `Lockout.AtMostEightInAWindow` | apps/users/lockout.py:65-127 | At most eight failures are counted in any 900 seconds, wherever the cache calls fall |
| `Lockout.EightCanBeCounted` | apps/users/lockout.py:65-127 | And eight there can be |

## Left out

- Soft deletion, tenants and audit fields: one firm, and rows are never hidden.
- Values outside an enumeration (a source, a direction, a method) and oversized amounts: the types rule them out, so their refusals are not modelled.
- `balance_totals` and the receivables of the cash summary: plain sums over positive and negative balances; the summary lists tills by key, not by name.
- `period_range`: the window's two days are parameters.
- The descriptions, notes and printed forms of documents, lines and statements, and the notifications of the billing and plan jobs.
- Implicit row locks (`FOR KEY SHARE` of an insert, the lock of an update on a row already held) and the carry-over job's locks: the lock order is about explicit locks on the document and billing paths.
- `record_collection`, `mark_paid` and `issue` as lock-by-lock interleavings: they are atomic steps of the ledger, and lock paths in `LockOrder`.
- `post` racing `set_closed_through`: each call is atomic here.
- The handler's own behaviour in `replay_protected`, and how its request is fingerprinted: a handler commits, fails or crashes, and a fingerprint is an opaque value.
- Contract renewal's rows (lines, lifts, numbers): only the dates of the next term.
- Editing a draft's or a line's text fields: they carry no money. A draft's invoice date and cancel time are not kept in `Drafting`; the ledger's own invoice keeps its date.
- Recalculating a lift's next maintenance date and the refresh of open due dates, and the office's edits of a planned row beyond its edited mark.
- The haversine formula: `Paths.Distance` is any symmetric distance over the reals, without rounding, so totals are compared exactly.
- Clearing the lockout on a successful sign-in inside the bound: runs hold failures only; `Lockout.Cache.Clear` is modelled.
- Locks on several pairs at once: one e-mail and address pair, whose keys are disjoint from every other's.
- Dates outside the calendar's range: years count up from zero without end.
- The order of a reversal's mirrors is that of the movements they mirror, not of their business dates; the order in which a carry-over comes to its drafts is left open.
