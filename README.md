# Nethermind transaction pipeline and MEV bundle selection, modelled in Dafny

This project models the sequential transaction-application path of the
Nethermind Ethereum client, and the greedy block-building selector that feeds
it:

- **Transaction** (`Transaction.dfy`): the mutable transaction object. Its
  `readonly` system flag becomes a `const` set by the constructor. `IsSystem()`
  is true when the sender is `Address.SystemUser` (0xff…fe) *or* the object
  was constructed as system. `IsSigned`, `IsContractCreation` and
  `IsMessageCall` are also modelled, and `BaseTxGasCost` is the constant 21000.
- **System contract** (`SystemContract.dfy`): `EnsureSystemAccount` creates the
  system account with zero balance and commits under Homestead, but only when
  the account is absent. Its effect on the state is the function
  `EnsureSystemAccountEffect`, and lemmas prove idempotence and "created at most
  once". `GenerateSystemTransaction` hands the payload to the base contract's
  generator with the system user as sender. The defaults are
  `gasLimit = long.MaxValue` and `nonce = null`.
- **Per-transaction adapter** (`TransactionProcessorAdapterExtensions.dfy`):
  under `DoNotVerifyNonce` the transaction's nonce is overwritten in place with
  the state's nonce for its sender. Then comes `StartNewTxTrace`, `Execute`,
  `EndTxTrace`. There is no `finally`, so a faulting `Execute` leaves the
  trace scope open.
- **Block executor** (`BlockValidationTransactionsExecutor.dfy`): a class whose
  `ProcessTransactions` loop hands every transaction to the adapter in index
  order. Each step runs inside a catch-all. After each step, when there is a handler, the executor raises
  `TransactionProcessed(i, tx, TxReceipts[i])` and appends it to an event log.
  When the loop ends it returns the tracer's receipts. The receipt read for
  the event sits outside the catch-all. When there is a handler and the
  receipt is missing, that read is the one fault that escapes, and the model
  returns it as `Err`.
- **Bundle selector** (`V2Selector.dfy`): the candidates are sorted by a stable
  descending sort on `BundleAdjustedGasPrice`, written as an insertion sort.
  Then a `while` loop takes each candidate while fewer than
  `_maxMergedBundles` are taken and its gas fits in
  `gasLimit - totalGasUsed`. The loop stops at the cap. It is proved equal to
  the reference function `Pack`, and the ordering, budget, cap, maximality and
  "whole bundles only" properties are proved about `Pack`.

External collaborators are modelled as far as the executor and
the adapter need them. The EVM's `Execute` is a function parameter, `TransactionProcessor`.
It returns the receipts it reports to the tracer, whether it faulted, and the
accounts it leaves. The state gateway is a class recording accounts, the last
committed accounts and a log of `CreateAccount`/`Commit` calls
(`StateProvider.dfy`). The receipts tracer is a class holding receipts, the
current transaction and a trail of trace events (`ReceiptsTracer.dfy`). Its
invariant is that receipt *k* carries index *k*.

## Model

| member | source | states |
|---|---|---|
| `Transactions.Transaction.constructor` | src/Nethermind/Nethermind.Core/Transaction.cs:33 | the default constructor leaves the flag false and every property null or zero, so the transaction is not system |
| `Transactions.Transaction.WithSystemFlag` | src/Nethermind/Nethermind.Core/Transaction.cs:40-43 | the flag is the constructor argument, and a fresh transaction is system exactly when constructed so |
| `Transactions.Transaction.SetSenderAddress` | src/Nethermind/Nethermind.Core/Transaction.cs:51 | the `SenderAddress` setter; after setting the sender, `IsSystem()` (line 80) IsSystem holds iff the new sender is SystemUser or the flag is set; a flagged transaction stays system; only the sender changes |
| `Transactions.CreationOrCall` | src/Nethermind/Nethermind.Core/Transaction.cs:53-55 | contract creation iff `To` is null, message call is its negation, signed iff a signature is present |
| `Transactions.UnflaggedSystemIffSystemSender` | src/Nethermind/Nethermind.Core/Transaction.cs:80 | without the constructor flag, system iff the sender is SystemUser |
| `Transactions.FlaggedIsAlwaysSystem` | src/Nethermind/Nethermind.Core/Transaction.cs:80 | a transaction constructed as system is system whatever its sender |
| `Transactions.FlaggedTransactionWithOrdinarySender` | src/Nethermind/Nethermind.Core/Transaction.cs:40-43 | builds a system transaction whose sender is not SystemUser, so IsSystem is not "sender is SystemUser" |
| `AuRaContracts.SystemContract.constructor` | src/Nethermind/Nethermind.Consensus.AuRa/Contracts/SystemContract.cs:26-28 | the contract keeps the address it is given |
| `AuRaContracts.SystemContract.EnsureSystemAccount` | src/Nethermind/Nethermind.Consensus.AuRa/Contracts/SystemContract.cs:30-37 | the provider's new state is `EnsureSystemAccountEffect` of its old state; an existing account means nothing changes |
| `AuRaContracts.SystemAccountExistsAfter` | src/Nethermind/Nethermind.Consensus.AuRa/Contracts/SystemContract.cs:32-36 | afterwards the system account exists; if absent it is created with balance 0 and committed; if present the state is untouched |
| `AuRaContracts.CommitOnlyAfterCreate` | src/Nethermind/Nethermind.Consensus.AuRa/Contracts/SystemContract.cs:32-35 | the log only grows, and the calls added are either none or exactly CreateAccount(SystemUser, 0) then Commit(Homestead) |
| `AuRaContracts.EnsureSystemAccountIdempotent` | src/Nethermind/Nethermind.Consensus.AuRa/Contracts/SystemContract.cs:30-37 | two calls leave the same state as one |
| `AuRaContracts.TwoCallsCreateOnce` | src/Nethermind/Nethermind.Consensus.AuRa/Contracts/SystemContract.cs:30-37 | across two consecutive calls the system account is created once and committed once if it was absent, and never if it existed |
| `AuRaContracts.GenerateSystemTransactionDefaults` | src/Nethermind/Nethermind.Consensus.AuRa/Contracts/SystemContract.cs:39 | without explicit arguments the gas limit is long.MaxValue and the nonce is null |
| `AuRaContracts.GeneratedTransactionIsSystem` | src/Nethermind/Nethermind.Consensus.AuRa/Contracts/SystemContract.cs:39 | if the generator uses the sender it is given, the result is classified as system |
| `TransactionProcessing.ProcessTransaction` | src/Nethermind/Nethermind.Consensus/Processing/TransactionProcessorAdapterExtensions.cs:28-57 | the nonce becomes the state's nonce for the sender under DoNotVerifyNonce and is kept otherwise; only the nonce of the transaction changes; the tracer sees Start, then Execute with the rewritten transaction, then End only when Execute did not fault; the receipts are those Execute reported, stamped for this transaction; a fault is returned |
| `BlockProcessing.BlockValidationTransactionsExecutor.constructor` | src/Nethermind/Nethermind.Consensus/Processing/BlockProcessor.BlockValidationTransactionsExecutor.cs:43-47 | the executor keeps its processor and state provider, and starts with no events raised |
| `BlockProcessing.BlockValidationTransactionsExecutor.ProcessTransactions` | src/Nethermind/Nethermind.Consensus/Processing/BlockProcessor.BlockValidationTransactionsExecutor.cs:51-63 | each transaction is handed to the adapter once, in order, despite faults; the result is the tracer's receipts; without DoNotVerifyNonce every transaction's nonce is kept; the tracer's trail only grows; a ghost log records the receipt count after each step; without a handler the call always succeeds and raises nothing; with a handler it fails exactly at the first step k that leaves at most k receipts, its error index is that k, and the events raised are (i, transactions[i], TxReceipts[i]) for every i before it (for all i when it succeeds); a processor that reports nothing adds no receipt; if every step adds one receipt to an empty tracer, there are n receipts and receipt i has index i and transaction i's hash |
| `BlockProcessing.BlockValidationTransactionsExecutor.ProcessTransaction` | src/Nethermind/Nethermind.Consensus/Processing/BlockProcessor.BlockValidationTransactionsExecutor.cs:65-81 | the adapter's nonce policy, trail, trace scope and resulting accounts carry over unchanged (nonce kept without DoNotVerifyNonce, the state's nonce for a present sender under it); the adapter's fault is swallowed; with a handler the event is raised with TxReceipts[index] when it exists, and otherwise an index fault escapes; without a handler nothing is read or raised |
| `MevSource.V2Selector.constructor` | src/Nethermind/Nethermind.Mev/Source/V2Selector.cs:37-43 | the selector keeps its bundle cap |
| `MevSource.V2Selector.GetBundles` | src/Nethermind/Nethermind.Mev/Source/V2Selector.cs:45-68 | the loop returns the bundles of `Pack` applied to the price-sorted candidates; totalGasUsed is the gas sum of the taken bundles throughout |
| `MevSource.OrderIsPermutation` | src/Nethermind/Nethermind.Mev/Source/V2Selector.cs:51 | the ranking is a permutation of the candidates |
| `MevSource.OrderIsNonIncreasing` | src/Nethermind/Nethermind.Mev/Source/V2Selector.cs:51 | the ranking has non-increasing adjusted gas price |
| `MevSource.OrderIsStable` | src/Nethermind/Nethermind.Mev/Source/V2Selector.cs:51 | for every price, the candidates at that price keep their source order |
| `MevSource.PackSnoc` | src/Nethermind/Nethermind.Mev/Source/V2Selector.cs:53-59 | scanning one more candidate keeps the earlier choice and takes the new one iff a place is left and its gas is at most the remaining budget |
| `MevSource.PackWithinCap` | src/Nethermind/Nethermind.Mev/Source/V2Selector.cs:53-64 | at most the cap is taken, and nothing when the cap is at most 0 |
| `MevSource.PackWithinBudget` | src/Nethermind/Nethermind.Mev/Source/V2Selector.cs:48-58 | the taken gas is at most the limit whenever anything is taken, and always when the limit is non-negative |
| `MevSource.PackIsSubsequence` | src/Nethermind/Nethermind.Mev/Source/V2Selector.cs:51-59 | the taken bundles are a subsequence of the scanned candidates: whole, in order, each at most once |
| `MevSource.PackNothingFits` | src/Nethermind/Nethermind.Mev/Source/V2Selector.cs:55-59 | if no candidate fits the budget, nothing is taken |
| `MevSource.PackIsMaximal` | src/Nethermind/Nethermind.Mev/Source/V2Selector.cs:53-59 | below the cap and with non-negative gas, every candidate fitting in the leftover budget was taken |
| `MevSource.PackIgnoresRestAfterCap` | src/Nethermind/Nethermind.Mev/Source/V2Selector.cs:61-64 | once the cap is reached, later candidates cannot change the result |
| `MevSource.SelectionProperties` | src/Nethermind/Nethermind.Mev/Source/V2Selector.cs:51-67 | the selection has at most max(cap, 0) bundles, fits the gas limit when non-empty, is a subsequence of the ranking, is in non-increasing price and holds only candidates |
| `MevSource.SelectionEmptyWhenNothingFits` | src/Nethermind/Nethermind.Mev/Source/V2Selector.cs:55-67 | when every candidate needs more gas than the limit, the selection is empty |
| `MevSource.SelectionIsMaximal` | src/Nethermind/Nethermind.Mev/Source/V2Selector.cs:53-59 | below the cap and with non-negative gas, every candidate left out needs more gas than what is left |
| `MevSource.WorkedExample` | src/Nethermind/Nethermind.Mev/Source/V2Selector.cs:51-65 | prices 10, 8, 5 with gas 5, 6, 3 and limit 8 give [first, third] with cap 2 and [first] with cap 1, for every input order of the three (every permutation) |

## Left out

- Logging: every `_logger.Info`/`logger.Info` call, and `ToString`/`ToShortString` of transactions.
- `async`/`await`, the `CancellationToken`, and the parent/timestamp arguments of `GetBundles`. The simulated bundle source's result is the input sequence.
- `BlockProcessing.BlockValidationTransactionsExecutor.constructor`: the modelled constructor (BlockProcessor.BlockValidationTransactionsExecutor.cs:43-47) never assigns `_logger`, so as written a null `_logger` is dereferenced at lines 53, 67 and 75; the model assumes a working logger, as the constructor at lines 37-41 provides.
- `BlockProcessing.BlockValidationTransactionsExecutor.ProcessTransactions`: for the whole block the contract states only that the trail grows and that nonces are kept without `DoNotVerifyNonce`. It does not state the trail's contents, the tracer's open trace scope, the accounts after the block, or the nonces under `DoNotVerifyNonce`. Each of these depends on the accounts as every earlier step left them, and on whether the block holds one transaction object twice. The per-step `ProcessTransaction` states all of them.
- `ProcessTransactions`' `IReleaseSpec` argument, which the executor does not read, and the executor's constructor that wraps an `ITransactionProcessor` and a log manager. The model keeps the constructor that takes the adapter directly.
- The EVM's `Execute` is the function parameter `TransactionProcessor`. Its gas, status and state rules are not modelled. No ordering is imposed on its `MarkAsSuccess`/`MarkAsFailed` calls; their receipts are appended together.
- `Contract.GenerateTransaction` is not part of this model. It is the `generateTransaction` parameter of `GenerateSystemTransaction`.
- The state provider and the receipts tracer are external collaborators; their code is not in the modelled files. `GetNonce` of an absent account is 0, `CreateAccount` gives nonce 0, and `Commit` makes the current accounts the committed ones. The trie and storage are left out. The tracer's invariant `Valid()` (receipt *k* carries index *k*) and its stamping of each receipt with the transaction's index and hash are modelling choices about that outside code.
- `TransactionProcessing.ProcessTransaction`: the nonce lookup of a null sender under `DoNotVerifyNonce` is modelled as a fault raised before the trace starts, because the lookup goes into a dictionary keyed by address. That reason is a modelling choice about state-provider code outside the modelled files.
- Event handlers are modelled as a yes/no `hasSubscribers` and a log of raised events. What handlers do is not modelled.
- `UInt256` and `long` widths: nonces, prices and values are `nat`; gas is `int`. Overflow of `totalGasUsed` and of `gasLimit - totalGasUsed` is not modelled. The 256-bit upper bound of `UInt256` is not enforced.
- `Hash`, `DeliveredBy` and `Timestamp` are plain fields. Hashing is left out.
- The bundle's transactions and its block-number/time window are carried but never interpreted.

## Behaviour worth noting

- `EndTxTrace` is skipped when `Execute` faults, because the adapter has no `finally` (TransactionProcessorAdapterExtensions.cs:48-54). `TransactionProcessing.ProcessTransaction` states this.
- The receipt count can equal the transaction count while the receipts are misaligned: a step that reports twice followed by a step that reports nothing gives two receipts for two transactions, both for the first. Receipt *i* is guaranteed to belong to transaction *i* only when every step adds exactly one receipt. A step that adds none shifts the alignment. With a `TransactionProcessed` handler, a step that finds no receipt at its own index makes the read of `TxReceipts[index]` (BlockProcessor.BlockValidationTransactionsExecutor.cs:79) throw out of `ProcessTransactions`. The model returns this as `Err(ReceiptIndexOutOfRange(i))`.
- `IsSystem()` is also true for any transaction constructed with `isSystem = true`, whatever its sender (Transaction.cs:80). `FlaggedTransactionWithOrdinarySender` exhibits one.
- A fault in `Execute` propagates out of the adapter (TransactionProcessorAdapterExtensions.cs:51) and is dropped by the executor's catch-all (BlockProcessor.BlockValidationTransactionsExecutor.cs:68-76). It is not recorded in a receipt.
