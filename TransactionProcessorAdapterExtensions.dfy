// Applying one transaction: the nonce-override policy, then the fixed
// sequence StartNewTxTrace, Execute, EndTxTrace on the receipts tracer.
module TransactionProcessing {
  import opened Primitives
  import opened Transactions
  import opened WorldState
  import opened Tracing

  /** The processing flags; only DoNotVerifyNonce is inspected in this model. */
  datatype ProcessingOption = DoNotVerifyNonce | StoreReceipts | ReadOnlyChain | ForceProcessing | NoValidation

  type ProcessingOptions = set<ProcessingOption>

  datatype BlockHeader = BlockHeader(number: nat, gasLimit: int, timestamp: nat)

  datatype Block = Block(header: BlockHeader, transactions: seq<Transaction>)

  /**
   * What one run of the EVM does: the reports it makes to the tracer, whether
   * it ended by raising a fault, and the accounts it leaves behind.
   */
  datatype ExecutionOutcome = ExecutionOutcome(
    reports: seq<ExecutionReport>,
    faulted: bool,
    accounts: map<Address, Account>)

  /** The transaction processor's Execute, which is not part of this model. */
  type TransactionProcessor = (TxFields, BlockHeader, map<Address, Account>) -> ExecutionOutcome

  /** Faults the adapter lets escape to its caller. */
  datatype AdapterFault =
    | NullSenderAddress   // the nonce lookup of a null sender fails
    | ExecutionFault      // Execute raised a fault

  datatype StepOutcome = Completed | Faulted(fault: AdapterFault)

  /** Under DoNotVerifyNonce the state is asked for the nonce of the sender, which must not be null. */
  predicate NonceLookupFails(currentTx: Transaction, processingOptions: ProcessingOptions)
    reads currentTx`senderAddress
  {
    DoNotVerifyNonce in processingOptions && currentTx.senderAddress.None?
  }

  method ProcessTransaction(
    transactionProcessor: TransactionProcessor,
    block: Block,
    currentTx: Transaction,
    receiptsTracer: BlockReceiptsTracer,
    processingOptions: ProcessingOptions,
    stateProvider: StateProvider)
    returns (outcome: StepOutcome)
    requires receiptsTracer.Valid()
    modifies currentTx`nonce, receiptsTracer, stateProvider`accounts
    ensures receiptsTracer.Valid()
    // the nonce is overwritten with the state's nonce for the sender, and only under the flag
    ensures DoNotVerifyNonce !in processingOptions ==> currentTx.nonce == old(currentTx.nonce)
    ensures DoNotVerifyNonce in processingOptions && currentTx.senderAddress.Some? ==>
      currentTx.nonce == old(stateProvider.GetNonce(currentTx.senderAddress.value))
    // a failed nonce lookup faults before any trace is started
    ensures NonceLookupFails(currentTx, processingOptions) ==>
      outcome == Faulted(NullSenderAddress) && currentTx.nonce == old(currentTx.nonce) &&
      unchanged(receiptsTracer) && unchanged(stateProvider)
    // otherwise: start, execute on the (possibly rewritten) transaction, and end only if Execute did not fault
    ensures !NonceLookupFails(currentTx, processingOptions) ==>
      var run := transactionProcessor(currentTx.Fields(), block.header, old(stateProvider.accounts));
      && receiptsTracer.trail == old(receiptsTracer.trail) +
           [TxTraceStarted(currentTx), HandedToExecute(currentTx.Fields())] +
           (if run.faulted then [] else [TxTraceEnded])
      && receiptsTracer.receipts == old(receiptsTracer.receipts) +
           StampReceipts(|old(receiptsTracer.receipts)|, currentTx.hash, run.reports)
      && receiptsTracer.currentTx == (if run.faulted then Some(currentTx) else None)
      && stateProvider.accounts == run.accounts
      && outcome == (if run.faulted then Faulted(ExecutionFault) else Completed)
  {
    if DoNotVerifyNonce in processingOptions {
      if currentTx.senderAddress.None? {
        return Faulted(NullSenderAddress);
      }
      currentTx.nonce := stateProvider.GetNonce(currentTx.senderAddress.value);
    }

    receiptsTracer.StartNewTxTrace(currentTx);

    var input := currentTx.Fields();
    var run := transactionProcessor(input, block.header, stateProvider.accounts);
    receiptsTracer.TraceExecution(input, run.reports);
    stateProvider.accounts := run.accounts;
    if run.faulted {
      // no finally: the trace scope is left open
      return Faulted(ExecutionFault);
    }

    receiptsTracer.EndTxTrace();
    outcome := Completed;
  }
}
