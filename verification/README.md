# Verification of the money-movement kernel

A Dafny model of the parts of the banking backend where correctness depends on several functions, or
several concurrent requests, at once, with proofs of what they promise. Check it with
`dafny verify dfyconfig.toml` (Dafny 4.11).

## What is modelled

**Money movement.** Account and transfer rows carry a `version`; every save is a compare-and-set on the
previous one. Internal transfers run in one database transaction with rollback; external payouts are a
saga (hold, record, post, pay, settle or compensate) that a later webhook may finish; every step posts
balanced double-entry legs. Two descriptions of this are connected:

- `Kernel.dfy` is a state machine. A running request is an actor with a program counter, and one step is one
  database call or the provider call of one actor. Any number of actors interleave in any order, and a crash
  is an actor that is never scheduled again. `KernelInvariant`, `KernelLaws`, `KernelTheorems`,
  `KernelCap`, `KernelBalances`, `KernelOwnership` and `KernelDisturbance` prove facts about every run. A `Law` weighs every row, journal entry,
  committed mutation and program counter; no step changes a law's total, and conservation, clearing,
  settlement-once and customer reconciliation are each one law read off in the final state.
- `Server.dfy`, with the entity, repository and recorder classes, is the imperative code: the handlers
  mutate loaded copies, save and post in the source's order, and at every await any other requests may
  do anything. A handler takes a `Request`: what its provider and database calls answer, and what the others do
  during each of its awaits. Its contract (`Completes`) says that from start to end it makes exactly the calls its
  program counter prescribes, each on the state the others left it. That leaves one possible outcome
  (`KernelRequests.OutcomeDetermined`), and the whole is a run of the machine made of its own calls and of what the
  others were said to do (`KernelRequests.HistoryIsRun`), so every theorem about runs holds of the handlers.
- `KernelSolo.dfy` says what each request does when nobody else is about, from its arguments and the stored rows:
  exactly when it goes through, and every balance, row and ledger total it leaves.

**Idempotency.** `Idempotency.dfy` is the claim protocol for one key as a state machine with a clock;
`IdempotencyGuard.dfy` is `tryAcquire` (with its recursive retry) and the guard around it, in the same sense.

**Limits.** `TransferLimits.dfy` shows what the per-request limit check implies for every 24-hour window,
`KernelCap.dfy` what the balance guard implies for every reachable state.

**Ledger.** `LedgerRecorder.dfy` is the recorder; `LedgerReconciliation.dfy` says what the journal adds up to.

**Text forms.** `Csv.dfy` is the sanctions-list parser, a loop with lookahead, proved equal to a
one-character-at-a-time automaton and inverse to every RFC 4180 writer and to mixed fields that RFC does not allow. `MoneyText.dfy` is the decimal form of money.

**Smaller state machines.** `RefreshTokens.dfy`, `Lockout.dfy` and `KycAudit.dfy`, with the classes that implement
them in `RefreshTokenHandlers.dfy`, in module `LockoutEntity` and in `KycHandlers.dfy`.

## Where the code does less than its comments say

- A stale idempotency claim keeps its id, status and age when reclaimed, so two callers can both win it
  (`StaleRowReclaimedTwice`). Even one reclaim makes a second holder beside a first that is only slow:
  a key has at most one holder throughout exactly when nothing is reclaimed (`OneHolderAlwaysIff`).
- A failure webhook that arrives while an earlier delivery of the same payout has not finished can credit the
  customer twice, whether the earlier one is still running (`OverlappingFailuresRefundTwice`) or died after its
  credit, by a throw of the ledger post or a crash, and the provider delivers again
  (`RedeliveryAfterCrashRefundsTwice`). Overlapping success webhooks are harmless. `CompensatedOnceIff` is the exact
  condition for a single credit; the postings match the stored outcome exactly when no request's last save is refused
  (`OutcomePostedOnceIff`).
- A late refund can lift a balance above its tier cap when other credits refilled the account meanwhile
  (`RefundCanExceedCap`); it stays within an unchanged cap exactly when the guard it skips would have allowed it
  (`RefundWithinCapIff`).
- A write that throws inside the saga's try block after `markSuccessful` makes the compensation's own
  `markReversed` throw. `ClearingExactIff` says exactly when the clearing account is off: when some last save of a nonzero transfer was refused.
- Sanctions screening is documented never to fail a verification. It does so exactly when a listed name meets a
  flag that is still open: flagging is then a no-op, the version does not move, and the save that follows finds
  no row at the previous version. The verification stands, no screening row is written:
  `ScreeningThrowsIffFlagOpen`.
- A NIN verified before the BVN leaves the user below TIER_3 for good: `EarlyNinNeverReachesTier3`.

## Model

| member | source | states |
|---|---|---|
| KernelTheorems.MoneyIsConserved | modules/transfers/application/commands/initiate-external-transfer/initiate-external-transfer.handler.ts:115-265 | Under every interleaving and with any crashes, customer balances, the three system accounts and the amounts held between a request's own writes add up to the starting total plus admin credits less admin debits, per currency. |
| KernelTheorems.JournalBalances | shared/ledger/prisma-ledger-recorder.service.ts:71-92 | In every reachable state the debits of the whole journal equal its credits, per currency. |
| KernelTheorems.ClearingIsInFlightLessUnrecorded | modules/transfers/application/commands/initiate-external-transfer/initiate-external-transfer.handler.ts:134-265 | In every reachable state clearing, together with what requests have moved ahead of their rows, holds amount plus fee of the payouts stored PENDING or PROCESSING, less the postings whose outcome no row will record. |
| KernelTheorems.ClearingExactIff | modules/transfers/application/commands/confirm-external-transfer/confirm-external-transfer.handler.ts:61-145 | When no request on a transfer in that currency is between writes, clearing equals work in flight if and only if no request on a transfer of a nonzero amount in it ever had its last save refused. |
| KernelTheorems.NothingUnrecorded | modules/transfers/application/commands/initiate-external-transfer/initiate-external-transfer.handler.ts:161-254 | A transfer whose saga had no write throw in its try block, and none of whose deliveries started before an earlier one had finished with a failure among them, has every posting recorded by its row, whatever happens to other transfers. |
| KernelTheorems.UnrecordedIffRefused | modules/transfers/application/commands/initiate-external-transfer/initiate-external-transfer.handler.ts:204-254 | A posting of a transfer goes unrecorded in a run if and only if, at some step, a request's last save of it is refused: the save of an immediate settlement throws, or the copy to be marked REVERSED is terminal or its version is not the stored one. |
| KernelTheorems.ClearingEqualsInFlight | modules/transfers/application/commands/confirm-external-transfer/confirm-external-transfer.handler.ts:53-150 | Clearing equals work in flight in every state in which no transfer in the currency is disturbed in that sense or between writes. |
| KernelTheorems.SettledHoldsPayouts | modules/transfers/application/commands/confirm-external-transfer/confirm-external-transfer.handler.ts:72-101 | In every reachable state the settled account holds exactly the amounts, without fees, of the SUCCESSFUL payouts, plus what is posted before its row is saved, less what is saved before its posting, plus the settlements whose SUCCESSFUL row was never saved. |
| KernelTheorems.RevenueHoldsFees | modules/transfers/application/commands/initiate-external-transfer/initiate-external-transfer.handler.ts:169-200 | In every reachable state fee revenue holds exactly the fees of the SUCCESSFUL transfers, internal ones included, with the same corrections. |
| KernelDisturbance.DisturbedIff | modules/transfers/application/commands/initiate-external-transfer/initiate-external-transfer.handler.ts:161-254 | A transfer counts as disturbed if and only if the run holds a throw of one of its saga's writes after the provider settled, or a delivery for it, still open, that starts while another request is compensating it or about to store its success, the two not both of success. |
| KernelTheorems.PerTransferLaws | modules/transfers/application/commands/confirm-external-transfer/confirm-external-transfer.handler.ts:68-145 | In every reachable state the counts of a transfer's settlement postings, reversal postings and compensating credits are tied to its stored status, to requests between writes and to recorded anomalies. |
| KernelTheorems.CompensatedOnceIff | modules/transfers/application/commands/confirm-external-transfer/confirm-external-transfer.handler.ts:107-145 | A payout's source is credited back at most once in a run if and only if no credit commits while the payout is REVERSED already, or after another request has credited it, its row being unsaved yet or its save refused. |
| KernelTheorems.CreditsCounted | modules/transfers/application/commands/confirm-external-transfer/confirm-external-transfer.handler.ts:107-145 | In every reachable state the credits back to a payout's source number one if it is REVERSED, plus one for each request that has credited it and not yet saved its row, plus one for each such save that was refused. |
| KernelTheorems.OutcomesCounted | modules/transfers/application/commands/confirm-external-transfer/confirm-external-transfer.handler.ts:68-145 | When no request on a payout is between writes, in any run: it was settled once if SUCCESSFUL plus once for each settlement whose save was refused, and credited back, posting included, once if REVERSED plus once for each reversal whose save was refused. |
| KernelTheorems.OutcomePostedOnceIff | modules/transfers/application/commands/confirm-external-transfer/confirm-external-transfer.handler.ts:53-150 | The postings and credits of a payout are exactly its stored outcome if and only if no request on it ever had its last save refused. |
| KernelTheorems.OutcomePostedOnce | modules/transfers/application/commands/confirm-external-transfer/confirm-external-transfer.handler.ts:53-150 | If this one payout is undisturbed and no request on it is between writes: SUCCESSFUL means exactly one settlement posting and no credit back, REVERSED exactly one credit back with its posting and no settlement, any other status neither. |
| KernelTheorems.NeverSettledAndRefunded | modules/transfers/application/commands/confirm-external-transfer/confirm-external-transfer.handler.ts:61-116 | At every moment settlements plus compensating credits of an undisturbed transfer are at most one, any number of concurrent success deliveries included, whatever happens to other transfers. |
| KernelTheorems.TerminalIsFinal | modules/transfers/infrastructure/persistence/prisma-transfer.repository.ts:41-81 | No stale copy, create fallback or double mutation ever changes a stored terminal row, and no row disappears. |
| KernelTheorems.SavesSerialise | modules/accounts/infrastructure/persistence/prisma-account.repository.ts:50-71 | Every stored account is the replay of its committed mutations in commit order: none is lost, the balance is the sum of the deltas, and the version counts them. |
| KernelTheorems.InactiveAccountsStandStill | modules/accounts/domain/entities/account.entity.ts:94-176 | Over any run an account that is not ACTIVE and is not activated or unfrozen keeps its balance, a CLOSED one holds nothing, and the status is the last one set. |
| KernelTheorems.CustomerReconciles | shared/ledger/prisma-ledger-recorder.service.ts:12-45 | In every reachable state each balance, with what requests hold on the account between their own writes, is its start plus the net of its own journal entries plus the admin adjustments, which post nothing. |
| KernelBalances.RunningBalancesExact | shared/ledger/prisma-ledger-recorder.service.ts:20-67 | In every reachable state the latest running balance of each system account is the net of all its entries, postings being made one at a time. |
| KernelCap.BalancesStayCapped | modules/accounts/infrastructure/services/max-balance-guard.service.ts:33-41 | In every reachable state a balance is at most its owner's current tier cap plus the compensating credits it received, despite concurrent credits and tier upgrades. |
| KernelCap.RefundWithinCapIff | modules/transfers/application/commands/confirm-external-transfer/confirm-external-transfer.handler.ts:107-116 | A refund that is loaded in one state and committed in a later one leaves the balance within the owner's cap if the guard would have allowed it when it was loaded, and, the tier being unchanged, only if it would have. |
| KernelWitnesses.OverlappingFailuresRefundTwice | modules/transfers/application/commands/confirm-external-transfer/confirm-external-transfer.handler.ts:107-145 | A run in which two overlapping failure deliveries of one payout both credit the source. |
| KernelWitnesses.RedeliveryAfterCrashRefundsTwice | modules/transfers/application/commands/confirm-external-transfer/confirm-external-transfer.handler.ts:107-145 | A run in which a failure delivery dies after its credit committed, and the failure delivered again afterwards credits the source a second time, though the two deliveries never run at once. |
| KernelWitnesses.RefundCanExceedCap | modules/transfers/application/commands/confirm-external-transfer/confirm-external-transfer.handler.ts:107-116 | An uncontended run in which a late refund lifts a balance above the owner's cap. |
| KernelLaws.LawsHoldOverRuns | modules/transfers/application/commands/initiate-external-transfer/initiate-external-transfer.handler.ts:87-265 | Every law's total is the same after any run as before it. |
| KernelInvariant.RunKeepsInv | modules/transfers/infrastructure/persistence/prisma-transfer.repository.ts:41-81 | The kernel's invariant holds over every run: a pending write that can still commit is the stored row plus one mutation, a PENDING payout has no provider reference and only its initiator writes it, deliveries are never ahead of the row. |
| KernelInvariant.InternalWritesDiffer | modules/transfers/infrastructure/services/prisma-internal-transfer-executor.service.ts:210-225 | Two versioned writes in one transaction commit only on different accounts, so a transfer to the same account rolls back. |
| KernelInvariant.StepKeepsInv | modules/transfers/application/commands/confirm-external-transfer/confirm-external-transfer.handler.ts:53-150 | Every single step of every request keeps the invariant. |
| KernelOwnership.OnlyOwnersSend | modules/transfers/application/commands/initiate-external-transfer/initiate-external-transfer.handler.ts:94-96 | In every reachable state each stored payout and each internal transfer that went through was started by the owner of its source, and each account ever debited for a transfer is the source of one its owner started. |
| KernelSolo.PayoutAlone | modules/transfers/application/commands/initiate-external-transfer/initiate-external-transfer.handler.ts:87-265 | With nobody else about, a payout stores something if and only if the account exists, is the user's, is ACTIVE and covers amount plus fee; then the balance, the row and the net of every ledger account are given for each answer of the provider and each write that throws. |
| KernelSolo.DeliveryAlone | modules/transfers/application/commands/confirm-external-transfer/confirm-external-transfer.handler.ts:53-150 | With nobody else about, a delivery leaves a terminal row alone; success stores SUCCESSFUL and moves amount plus fee out of clearing, the amount to settled and the fee to revenue; failure on an ACTIVE source raises its balance by amount plus fee, stores REVERSED and relieves clearing; failure on any other source stores nothing. |
| KernelSolo.MoveAlone | modules/transfers/infrastructure/services/prisma-internal-transfer-executor.service.ts:69-205 | With nobody else about, an internal transfer goes through if and only if source and destination differ and exist, the source is the user's, both are ACTIVE and in the currency, the source covers amount plus fee, the destination has room under its owner's cap and the commit throws nothing; otherwise one FAILED row is stored, or nothing after a late throw. |
| KernelSolo.AdjustAlone | modules/accounts/application/commands/debit-account/debit-account.handler.ts:27-40 | With nobody else about, a staff debit changes the balance exactly when the account is ACTIVE, in the currency and covers the amount, a credit exactly when it is ACTIVE, in the currency and has room; nothing else changes. |
| Server.Bank.InitiateExternal | modules/transfers/application/commands/initiate-external-transfer/initiate-external-transfer.handler.ts:87-265 | With anything happening at each await, the saga makes exactly the calls the machine prescribes, answered by the provider and the database as given, until it is done; it returns the transfer exactly when its last call saved the outcome, and its row then has the provider's outcome. |
| Server.Bank.InitiateAlone | modules/transfers/application/commands/initiate-external-transfer/initiate-external-transfer.handler.ts:87-265 | With nobody else about, the saga pays out only for the owner of an ACTIVE account with enough money, and leaves what the provider's answer calls for; it returns the transfer exactly when the answer was stored. |
| Server.Bank.Compensate | modules/transfers/application/commands/initiate-external-transfer/initiate-external-transfer.handler.ts:216-254 | The compensation, shared with the late-failure webhook, makes exactly the prescribed calls (read and credit, save, posting, last save) until it is done, and its last call is never the saving of a payout's outcome. |
| Server.Bank.SettleAtOnce | modules/transfers/application/commands/initiate-external-transfer/initiate-external-transfer.handler.ts:169-204 | The immediately settled branch makes exactly the prescribed calls: posting, then the save of the outcome; it goes to compensation when either throws, and otherwise the row is stored as marked. |
| Server.Bank.ConfirmExternal | modules/transfers/application/commands/confirm-external-transfer/confirm-external-transfer.handler.ts:53-150 | A delivery, from some row carrying the provider reference if there is one, makes exactly the prescribed calls until it is done: none for a terminal row, save then post on success, compensation on failure. |
| Server.Bank.ConfirmAlone | modules/transfers/application/commands/confirm-external-transfer/confirm-external-transfer.handler.ts:53-150 | With nobody else about, a delivery for the one row with the reference settles or reverses it, or leaves everything stored as it was; one for an unknown reference changes nothing. |
| Server.Bank.ExecuteInternal | modules/transfers/infrastructure/services/prisma-internal-transfer-executor.service.ts:69-205 | All or nothing, others committing in between. The executor makes exactly the prescribed calls until it is done, and none before its last changes anything stored. It succeeds exactly when that last call is the commit and nothing throws after `markSuccessful`: then amount plus fee leaves the source row and amount reaches the destination row it finds, with one balanced posting whose running balances match the new rows and one SUCCESSFUL row of these terms. A throw after `markSuccessful`, both writes having matched, leaves everything stored as it was. Any other failure adds exactly one FAILED row of these terms. With equal accounts it never succeeds. |
| Server.Bank.ExecuteAlone | modules/transfers/infrastructure/services/prisma-internal-transfer-executor.service.ts:69-205 | With nobody else about, it succeeds exactly when the two accounts, the owner, the statuses, the currencies, the funds, the cap and the commit allow it; success changes exactly the two rows by amount plus fee and amount, failure leaves accounts and journal exactly as they were before the request. |
| Server.Bank.MoveInTransaction | modules/transfers/infrastructure/services/prisma-internal-transfer-executor.service.ts:88-193 | The transaction's reads change nothing stored; its writes, others committing in between, are the complete move on the state they find, or nothing. |
| Server.Bank.CommitTransaction | modules/transfers/infrastructure/services/prisma-internal-transfer-executor.service.ts:139-205 | The writes commit together or leave everything but the request itself as it was. |
| Server.Bank.CreditOrDebit | modules/accounts/application/commands/credit-account/credit-account.handler.ts:29-43 | A malformed amount changes nothing; otherwise guard, mutation and save are exactly the prescribed calls, and the command succeeds exactly when its save finds the row at the version it expects. |
| Server.Bank.AdjustAlone | modules/accounts/application/commands/credit-account/credit-account.handler.ts:29-43 | With nobody else about, malformed text changes nothing, and a well-formed amount is credited or debited exactly when status, currency, room or funds allow it. |
| Server.Bank.OpenAdmin | modules/accounts/application/commands/debit-account/debit-account.handler.ts:27-35 | The in-memory part of a credit or debit is the state machine's: missing account, cap, status, currency and funds all checked. |
| Server.PostingsBalance | modules/transfers/application/commands/initiate-external-transfer/initiate-external-transfer.handler.ts:140-200 | Hold, settlement, refund and internal postings balance in every currency, with or without a fee. |
| KernelRequests.OutcomeDetermined | modules/transfers/application/commands/initiate-external-transfer/initiate-external-transfer.handler.ts:87-265 | For one request, one set of answers and one behaviour of the others there is one sequence of calls and one final state. |
| KernelRequests.HistoryIsRun | modules/transfers/application/commands/initiate-external-transfer/initiate-external-transfer.handler.ts:87-265 | What such a request does among others is a run of the state machine, made of its own calls and of events the others were said to do, nothing else. |
| Accounts.Apply | modules/accounts/domain/entities/account.entity.ts:94-176 | A mutator that does not throw moves the version by one and the balance by its delta, and keeps id, owner and currency. |
| AccountEntity.Account.Credit | modules/accounts/domain/entities/account.entity.ts:100-116 | Credits an ACTIVE account in its own currency, or throws and changes nothing. |
| AccountEntity.Account.Debit | modules/accounts/domain/entities/account.entity.ts:118-138 | Debits an ACTIVE account with sufficient funds, or throws and changes nothing. |
| AccountEntity.Account.Close | modules/accounts/domain/entities/account.entity.ts:152-159 | Closes only at balance zero, or throws and changes nothing. |
| AccountEntity.AccountRepository.Save | modules/accounts/infrastructure/persistence/prisma-account.repository.ts:50-71 | Inserts a version-0 row or replaces the row at the previous version; otherwise throws and writes nothing. |
| AccountHistory.ReplayCountsAndSums | modules/accounts/domain/entities/account.entity.ts:94-176 | A history of mutations that succeeds adds every delta and counts every mutation in the version. |
| AccountHistory.AppliesIff | modules/accounts/domain/entities/account.entity.ts:94-176 | Credits and debits go through only on an ACTIVE account in its currency, debits only within the balance, closing only at zero; each mutator leaves its own status and otherwise the old one. |
| AccountHistory.StatusIsLastSet | modules/accounts/domain/entities/account.entity.ts:94-176 | After any mutations the status is the last one set. |
| AccountHistory.InactiveStandsStill | modules/accounts/domain/entities/account.entity.ts:100-138 | As long as nobody activates or unfreezes it, an account that is not ACTIVE takes no credit and no debit. |
| AccountHistory.ClosedStaysEmpty | modules/accounts/domain/entities/account.entity.ts:152-159 | After any mutations a CLOSED account holds nothing. |
| TransferEntity.Transfer.MarkProcessing | modules/transfers/domain/entities/transfer.entity.ts:150-157 | Marks a non-terminal transfer and keeps an earlier provider reference when none is given; throws on a terminal one. |
| TransferEntity.Transfer.MarkReversed | modules/transfers/domain/entities/transfer.entity.ts:181-193 | Marks a non-terminal transfer REVERSED with the next version; throws on a terminal one and changes nothing. |
| TransferEntity.TransferRepository.Save | modules/transfers/infrastructure/persistence/prisma-transfer.repository.ts:41-81 | Compare-and-set on the previous version, with creation when no row exists. |
| TransferEntity.TransferRepository.FindByProviderReference | modules/transfers/infrastructure/persistence/prisma-transfer.repository.ts:28-31 | Finds some row with the reference, and none only when there is none. |
| LedgerRecording.LedgerRecorder.Post | shared/ledger/prisma-ledger-recorder.service.ts:12-45 | Appends the rows of a balanced posting, running balances included; an unbalanced one throws and appends nothing. |
| LedgerRecording.LedgerRecorder.ComputeRunningBalance | shared/ledger/prisma-ledger-recorder.service.ts:56-67 | The account's latest running balance plus the leg's signed amount. |
| LedgerRecording.LedgerRecorder.AssertBalanced | shared/ledger/prisma-ledger-recorder.service.ts:75-92 | Accepts exactly the postings whose legs net to zero in every currency. |
| LedgerReconciliation.DebitsEqualCredits | shared/ledger/prisma-ledger-recorder.service.ts:71-92 | After any sequence of postings, refused ones included, debits equal credits per currency. |
| LedgerReconciliation.RunningBalanceExactIff | shared/ledger/prisma-ledger-recorder.service.ts:20-67 | A posting keeps an account's running balance equal to the net of its entries if and only if its earlier legs on that account cancel out. |
| LedgerReconciliation.RunningBalanceReconciles | shared/ledger/prisma-ledger-recorder.service.ts:12-67 | Serialised postings that touch a system account at most once each keep its latest running balance equal to the net of all its entries. |
| LedgerReconciliation.OverlappingPostingsIff | shared/ledger/prisma-ledger-recorder.service.ts:56-67 | When two postings read before either appends, sums stay right but the running balance does if and only if the first adds nothing to the account. |
| Idempotency.ExecutesExactlyOnce | shared/idempotency/prisma-idempotency-key.repository.ts:22-81 | When no stale row was reclaimed and `markCompleted` never threw: at most one holder, `execute` succeeds at most once, and every replay and success reports that resource, holders that crash included. |
| Idempotency.CompletedIsPermanent | shared/idempotency/prisma-idempotency-key.repository.ts:46-48 | Under the same conditions a COMPLETED row is never changed or deleted. |
| Idempotency.OneHolderAlwaysIff | shared/idempotency/prisma-idempotency-key.repository.ts:55-66 | There is at most one holder at every point of a run if and only if no stale row is reclaimed in it, failed completions or not. |
| Idempotency.OnlyStaleRowsReclaimed | shared/idempotency/prisma-idempotency-key.repository.ts:50-66 | Over any run a claim is reclaimed only once it is two minutes old. |
| Idempotency.OneHolderInTime | shared/idempotency/prisma-idempotency-key.repository.ts:22-67 | While no claim is left unfinished for two minutes, the key has at most one holder. |
| Idempotency.ExecutesOnceInTime | shared/idempotency/prisma-idempotency-key.repository.ts:22-81 | And then, if `markCompleted` never throws, `execute` succeeds at most once and every caller with an answer has its resource. |
| Idempotency.AcquisitionsAccounted | shared/idempotency/prisma-idempotency-key.repository.ts:22-81 | With no condition at all, ACQUIRED results are one per stale reclaim, one per row released and one if the key is still claimed. |
| Idempotency.RetriesArePaidFor | shared/idempotency/prisma-idempotency-key.repository.ts:39-66 | The recursion of one `tryAcquire` is at most one deeper than the releases and completions that others made during it. |
| Idempotency.StaleRowReclaimedTwice | shared/idempotency/prisma-idempotency-key.repository.ts:55-66 | A run in which two callers both reclaim one stale row and hold the key together. |
| IdempotencyGuard.Repository.TryAcquire | shared/idempotency/prisma-idempotency-key.repository.ts:22-67 | Terminates while others make finitely many moves, makes exactly the calls the protocol prescribes on the states the others leave, and its answer says where it left the caller. |
| IdempotencyGuard.Repository.TryAcquireAlone | shared/idempotency/prisma-idempotency-key.repository.ts:22-67 | With nobody else about: ACQUIRED for a free key, the resource for a COMPLETED one, IN_PROGRESS for a claim younger than 120000 ms, ACQUIRED for an older one. |
| IdempotencyGuard.Repository.Guarded | shared/idempotency/idempotency-guard.service.ts:39-74 | Acquire, execute, complete and release, with others in between, are exactly the prescribed calls, `execute` and `markCompleted` answering as given, until the caller is finished; it answers only with a returned or replayed resource. |
| IdempotencyGuard.Repository.GuardedAlone | shared/idempotency/idempotency-guard.service.ts:39-74 | With nobody else about: a COMPLETED key is answered without executing, a young claim is refused without executing, and otherwise `execute` runs once and the key is completed with its resource, or released if anything threw. |
| IdempotencyGuard.Repository.Finish | shared/idempotency/idempotency-guard.service.ts:58-73 | Any throw, from `execute` or from `markCompleted`, ends in a release; an answer is the executed resource; the calls are exactly the prescribed ones. |
| IdempotencyGuard.HistoryIsRun | shared/idempotency/idempotency-guard.service.ts:39-74 | What a guarded call does among others is a run of the protocol, made of its own calls and of events the others were said to do, nothing else. |
| TransferLimits.EveryWindowWithinDailyLimit | modules/transfers/infrastructure/services/kyc-transfer-limit-checker.service.ts:40-67 | If no initiation on the account is recorded between the check and the record of another, and tiers only rise, no 24-hour window of any history holds more SUCCESSFUL and PROCESSING principal than the owner's daily limit. |
| TransferLimits.OverlapBoundsExcess | modules/transfers/infrastructure/services/kyc-transfer-limit-checker.service.ts:40-67 | For any interleaving of checks and records, a 24-hour window exceeds the daily limit by no more than what others sent from the account between the check and the record of one request. |
| TransferLimits.OverlappingChecksIff | modules/transfers/infrastructure/services/kyc-transfer-limit-checker.service.ts:51-66 | However the checks overlapped, all 24-hour windows of a history are within a limit if and only if every counted transfer would have passed the daily check made again at its creation over the ones created before it. |
| TransferLimits.CheckPassesIff | modules/transfers/infrastructure/services/kyc-transfer-limit-checker.service.ts:40-67 | The check passes if and only if the amount is within the per-transaction limit and, with what the account sent in the 24 hours up to now, within the daily one; it fails on the first exactly when that is exceeded. |
| TransferLimits.OldRowsDoNotCount | modules/transfers/infrastructure/services/kyc-transfer-limit-checker.service.ts:55-60 | Transfers created more than 24 hours ago have no effect on the sum. |
| TransferLimits.OverlappingChecksExceed | modules/transfers/infrastructure/services/kyc-transfer-limit-checker.service.ts:51-66 | Two requests that each pass alone and together exceed the limit. |
| KycTiers.LimitsRiseWithTier | modules/compliance/domain/policies/kyc-tier-limits.policy.ts:28-55 | A higher tier never has a tighter limit of any kind. |
| KycTiers.DefaultLimitsInNaira | modules/compliance/domain/policies/kyc-tier-limits.policy.ts:28-55 | The limits in minor units are the parsed decimal texts of the policy table, tier by tier. |
| Csv.ParseCsv | infrastructure/prisma/seed-sanctions-list.ts:15-70 | The loop with lookahead reads exactly the rows of the one-character automaton. |
| Csv.RoundTrip | infrastructure/prisma/seed-sanctions-list.ts:15-70 | Every table with at least one field per row is read back under every sound writing: LF or CRLF, and each field cut into any quoted and unquoted pieces, a quoted one not touching the next; carriage returns outside quotes are dropped. |
| Csv.ConcatenationRoundTrip | infrastructure/prisma/seed-sanctions-list.ts:15-70 | Parsing two written tables one after the other gives the concatenated tables. |
| Csv.SplitsIffComplete | infrastructure/prisma/seed-sanctions-list.ts:21-69 | Parsing distributes over every continuation of a text if and only if the text ends between rows. |
| Csv.UnterminatedLastRow | infrastructure/prisma/seed-sanctions-list.ts:65-69 | A last row without terminator is read too, unless it is one empty field. |
| MoneyText.ParseAfterPrint | shared/value-objects/money.vo.ts:38-92 | Parsing the printed form of any amount, of any size, gives the amount back. |
| MoneyText.PrintAfterParse | shared/value-objects/money.vo.ts:38-92 | Printing any accepted text gives its canonical form: leading zeros dropped, exactly two decimals. |
| MoneyText.AcceptedIffWritten | shared/value-objects/money.vo.ts:39-43 | The accepted texts are exactly digits with an optional point and one or two digits. |
| MoneyText.SameAmountIffSameCanonical | shared/value-objects/money.vo.ts:38-46 | Two accepted texts mean the same amount if and only if their canonical forms agree. |
| RefreshTokens.AtMostOneActive | modules/identity/application/commands/refresh-token/refresh-token.handler.ts:40-79 | After any calls a family has at most one unrevoked token. |
| RefreshTokens.FamilyIsOneChain | modules/identity/application/commands/refresh-token/refresh-token.handler.ts:66-79 | From any stored token the replacement links lead, without a cycle, through every later token of its family, to its unrevoked token if it has one. |
| RefreshTokens.LinksDoNotBranch | modules/identity/domain/entities/refresh-token.entity.ts:66-71 | No token replaces two others. |
| RefreshTokens.EndedFamilyNeverExchanges | modules/identity/application/commands/refresh-token/refresh-token.handler.ts:48-53 | After a revoked token is presented, a logout or a password change, no token of the family is ever exchanged again. |
| RefreshTokens.ExchangedAtMostOnce | modules/identity/application/commands/refresh-token/refresh-token.handler.ts:44-79 | Over any calls, each token is exchanged at most once. |
| RefreshTokens.ExchangedIff | modules/identity/application/commands/refresh-token/refresh-token.handler.ts:40-79 | A token handed out by a login or an exchange is exchanged when presented if and only if the user may log in, 604800000 ms are not over and, since then, it was not exchanged, no revoked token of its family was presented, nobody logged out with it and the password was not changed. |
| RefreshTokens.DeadStaysDead | modules/identity/infrastructure/persistence/prisma-refresh-token.repository.ts:30-49 | A family without an unrevoked token never gets one again. |
| RefreshTokens.OverlappingRefreshesFork | modules/identity/application/commands/refresh-token/refresh-token.handler.ts:77-79 | Two refreshes that both read the token before either writes always leave two unrevoked tokens in the family. |
| RefreshTokenHandlers.Sessions.Refresh | modules/identity/application/commands/refresh-token/refresh-token.handler.ts:40-79 | The handler takes the state machine's step and answers with a new token exactly when the presented one is exchanged. |
| RefreshTokenHandlers.Sessions.Logout | modules/identity/application/commands/logout/logout.handler.ts:27-36 | Revokes the family only when the presented token is stored and unrevoked. |
| RefreshTokenHandlers.RefreshTokenRepository.DeleteExpired | modules/identity/infrastructure/persistence/prisma-refresh-token.repository.ts:44-49 | Keeps exactly the tokens whose expiry is not before now, as they were, and counts the others. |
| Lockout.RateBound | modules/identity/domain/entities/user.entity.ts:99-140 | In any time-ordered run of wrong-password logins, a window of T ms sees at most 5 * (T div 900000 + 1) comparisons. |
| Lockout.RateBoundIsReached | modules/identity/domain/entities/user.entity.ts:127-140 | For every T some run reaches that number, so no smaller bound holds. |
| Lockout.ConsistentAlways | modules/identity/domain/entities/user.entity.ts:99-140 | Every recorded outcome leaves an unlocked user with failures to spare. |
| Lockout.FifthFailureLocks | modules/identity/domain/entities/user.entity.ts:116-140 | After a right password four wrong ones never lock the user and never shut anybody out; the fifth locks for 900000 ms. |
| Lockout.BarredNeverCompares | modules/identity/domain/entities/user.entity.ts:99-114 | A suspended or deactivated user is never compared, and trying changes nothing. |
| LockoutEntity.User.AssertCanAttemptLogin | modules/identity/domain/entities/user.entity.ts:99-114 | Throws for a user locked until later or not active, unlocks an elapsed lock, changes nothing when it throws. |
| LockoutEntity.User.RecordFailedLogin | modules/identity/domain/entities/user.entity.ts:127-140 | Counts the failure and locks at the fifth. |
| LockoutEntity.Logins.Execute | modules/identity/application/commands/login/login.handler.ts:50-68 | Compares exactly for active and pending users and for locked ones whose lock is over, stores the recorded outcome, stores nothing when the admission throws. |
| KycAudit.AuditLogReplays | modules/compliance/application/services/kyc-audit-recorder.service.ts:44-89 | After any requests every tier-change row names the true prior tier, the rows replay from TIER_1 to the stored tier, and a verification stands exactly when the log holds its one passed row. |
| KycAudit.TierFollowsHistory | modules/compliance/domain/entities/kyc-profile.entity.ts:75-119 | TIER_1 holds exactly while no BVN check has passed, TIER_3 exactly when the first passed NIN came after the first passed BVN. |
| KycAudit.TierNeverFalls | modules/compliance/domain/entities/kyc-profile.entity.ts:75-119 | Over any requests the tier never falls. |
| KycAudit.EarlyNinNeverReachesTier3 | modules/compliance/domain/entities/kyc-profile.entity.ts:97-119 | A NIN verified below TIER_2 leaves the user below TIER_3 whatever follows. |
| KycAudit.ScreeningThrowsIffFlagOpen | modules/compliance/application/services/sanctions-screening.service.ts:53-83 | The save after screening throws if and only if a newly verified, listed user's flag is still open; the verification and its rows stay. |
| KycAudit.AnswersFollowHistory | modules/compliance/application/commands/submit-bvn-verification/submit-bvn-verification.handler.ts:57-102 | After any requests, which error is thrown, or none, is read off those requests: a mismatch, a second verification of a type, a flag that no listed verification opened or that was cleared since, a listed user whose flag is open. |
| KycAudit.LogFollowsHistory | modules/compliance/application/services/kyc-audit-recorder.service.ts:44-89 | After any requests the log holds each row exactly as often as those requests call for it. |
| KycAudit.ListedUserSecondVerificationThrows | modules/compliance/application/services/sanctions-screening.service.ts:72-73 | A listed user's BVN and then NIN verification: the second one throws after storing TIER_3. |
| KycHandlers.KycProfile.RecordBvnVerified | modules/compliance/domain/entities/kyc-profile.entity.ts:75-95 | Throws when already verified and changes nothing; otherwise the mark, the version, the tier and the events. |
| KycHandlers.KycProfile.RecordNinVerified | modules/compliance/domain/entities/kyc-profile.entity.ts:97-119 | The same for NIN; the tier rises only from TIER_2 with a verified BVN. |
| KycHandlers.KycAuditRecorder.RecordDomainEvents | modules/compliance/application/services/kyc-audit-recorder.service.ts:44-89 | Appends the rows of the audit-relevant events in order, deriving the previous tier from the new one. |
| KycHandlers.Compliance.ScreenAndFlag | modules/compliance/application/services/sanctions-screening.service.ts:53-91 | Logs a clean result, or flags, saves and logs, or throws at the save. |
| KycHandlers.Compliance.SubmitVerification | modules/compliance/application/commands/submit-bvn-verification/submit-bvn-verification.handler.ts:57-102 | The handler's record, save, audit and screening are the state machine's step, every throw included. |
| KycHandlers.Compliance.OverrideVerification | modules/compliance/application/commands/manually-verify-bvn/manually-verify-bvn.handler.ts:75-127 | The staff path: no name check, its own attempt row, then only the tier change through the recorder. |
| KycHandlers.Compliance.ClearFlag | modules/compliance/application/commands/clear-sanctions-flag/clear-sanctions-flag.handler.ts:41-64 | Clears an open flag and logs it, or throws and changes nothing. |

## Left out

Conditions that theorems carry, because the code does not meet the claim without them:

- ClearingEqualsInFlight: requires that the transfers in that currency are undisturbed: no write in the saga's try block threw (`faulted`), and no delivery started before an earlier one of the same transfer had finished, with a failure among them (`contended`). A delivery that crashed or threw half way counts as not finished. `ClearingExactIff` is the exact condition without this.
- NothingUnrecorded: requires the one transfer to be undisturbed; `UnrecordedIffRefused` is the exact condition.
- OutcomePostedOnce: requires the one transfer to be undisturbed; `OutcomePostedOnceIff` is the exact condition, `OutcomesCounted` the statement without any.
- NeverSettledAndRefunded: requires the one transfer to be undisturbed; `OverlappingFailuresRefundTwice` and `RedeliveryAfterCrashRefundsTwice` show why.
- ExecutesExactlyOnce: requires that no stale row was reclaimed and `markCompleted` never threw; for one holder at a time the first is exact (`OneHolderAlwaysIff`). `ExecutesOnceInTime` has a time bound in its place, and `AcquisitionsAccounted` is the statement without either.
- CompletedIsPermanent: requires the same.
- EveryWindowWithinDailyLimit: requires that initiations on the account do not overlap; `OverlapBoundsExcess` is the statement without that, and `OverlappingChecksIff` the exact condition.
- ConfirmAlone: requires that at most one row carries the reference, since which of several the database returns is open; `Server.Bank.ConfirmExternal` is stated without that.
- OneHolderInTime: requires that no claim is left unfinished for two minutes, as does ExecutesOnceInTime; `OneHolderAlwaysIff` is the exact condition.
- RateBound: requires logins one at a time. The user row is saved without a version check, so overlapping failures can be lost.
- AtMostOneActive: requires each handler to run on its own; `OverlappingRefreshesFork` shows why.
- FamilyIsOneChain: requires the same.
- ExchangedAtMostOnce: requires the same.
- RunningBalanceReconciles: requires one posting at a time, as does RunningBalancesExact; `OverlappingPostingsIff` is the exact condition for two that overlap.
- AuditLogReplays: requires requests for one user one at a time; the audit rows are written after the profile save, so overlapping requests could log them in another order.

Simplifications of the model:

- A transfer's random id is identified with the request that creates it, and token ids and families are counters; only their freshness is used.
- `findByProviderReference` returns some row with the reference, not the first in database order.
- Accounts exist from the start of a kernel run; opening one (`Account.Open`) adds a row with balance zero.
- Narration, failure reasons, timestamps other than the ones a theorem speaks of, and domain events other than KYC's are not in the rows.
- The integer width of amounts: minor units are big integers in the source and unbounded here.
- A repository or ledger write either takes effect, fails its version check, or is never reached. Writes whose acknowledgement is lost are not modelled. A throw of a ledger post or save outside the saga's try block and the executor's transaction ends the handler, as a crash there does.
- A throw of the payout provider means that nothing was paid.
- The transfer repository's update, lookup and fallback create are one step; so is the ledger recorder's read of the running balances and its append (`OverlappingPostingsIff` says what happens when they are not).
- Reading the tier and reading the account it guards are one step. Tiers only rise, and a stale account copy fails its save, so nothing committed is missed.
- The executor's writes take effect together at its commit; other requests run before and after but do not see inside.
- The ledger's latest entry of an account is the last one appended; rows of one posting share a timestamp in the source.
- The flat-rate fee calculator is a parameter: any non-negative fee in the transfer's currency. The limit check runs in `TransferLimits`, not inside `Server.Bank.InitiateExternal`, because it reads creation times the kernel rows do not have.
- KYC limits are the default policy table; a deployment may override them in the database.
- Revocation is a flag rather than a time, and the refresh handler's check of the user is a parameter.
- An empty idempotency key, which runs `execute` unguarded, is left out.

Parts of the repository that would only add easy members: controllers, guards and module wiring; the provider adapters; hashing, encryption and random generation; the event bus and logging; the recipient, email, phone, BVN and NIN value objects; trimming, filtering and inserting the parsed sanctions rows.
