// The block-validation executor: runs a block's transactions through the
// adapter strictly in order, swallows the adapter's faults, raises the
// TransactionProcessed event after each step and returns the tracer's receipts.
module BlockProcessing {
  import opened Primitives
  import opened Transactions
  import opened WorldState
  import opened Tracing
  import opened TransactionProcessing

  datatype TxProcessedEventArgs = TxProcessedEventArgs(index: nat, transaction: Transaction, txReceipt: Receipt)

  /** The fault ProcessTransactions does not catch: reading a receipt the tracer does not have. */
  datatype ProcessingFault = ReceiptIndexOutOfRange(index: nat)

  /**
   * Every adapter step adds exactly one receipt: Execute always reports once,
   * and no nonce lookup of a null sender faults before the trace starts.
   */
  ghost predicate OneReceiptPerStep(
    transactionProcessor: TransactionProcessor,
    processingOptions: ProcessingOptions,
    transactions: seq<Transaction>)
    reads transactions`senderAddress
  {
    && ReportsOnce(transactionProcessor)
    && (forall k :: 0 <= k < |transactions| ==> !NonceLookupFails(transactions[k], processingOptions))
  }

  /** Execute always reports exactly once to the tracer. */
  ghost predicate ReportsOnce(transactionProcessor: TransactionProcessor)
  {
    forall input, header, accounts :: |transactionProcessor(input, header, accounts).reports| == 1
  }

  /** Execute never reports to the tracer, so no step adds a receipt. */
  ghost predicate ReportsNothing(transactionProcessor: TransactionProcessor)
  {
    forall input, header, accounts :: transactionProcessor(input, header, accounts).reports == []
  }

  /** The events of the first `n` steps: step k raised the event for transaction k with receipt k. */
  ghost predicate EventsOfSteps(events: seq<TxProcessedEventArgs>, transactions: seq<Transaction>, receipts: seq<Receipt>, n: nat)
  {
    && |events| == n && n <= |transactions| && n <= |receipts|
    && forall k :: 0 <= k < n ==> events[k] == TxProcessedEventArgs(k, transactions[k], receipts[k])
  }

  /** Each step's receipt count lies between `low` and `high`. */
  ghost predicate CountsBetween(counts: seq<nat>, low: nat, high: nat)
  {
    forall k :: 0 <= k < |counts| ==> low <= counts[k] <= high
  }

  /** Each of the first `n` steps left a receipt at its own index. */
  ghost predicate ReceiptFoundAtEachStep(counts: seq<nat>, n: nat)
  {
    n <= |counts| && forall k :: 0 <= k < n ==> k < counts[k]
  }

  /** Receipt k carries hash k. */
  ghost predicate HashesAlong(receipts: seq<Receipt>, hashes: seq<Option<Hash>>)
  {
    |receipts| <= |hashes| && forall k :: 0 <= k < |receipts| ==> receipts[k].txHash == hashes[k]
  }

  /** The hashes of `transactions`, in order. */
  ghost function HashesOf(transactions: seq<Transaction>): seq<Option<Hash>>
    reads transactions`hash
  {
    if transactions == [] then [] else [transactions[0].hash] + HashesOf(transactions[1..])
  }

  lemma {:induction false} HashesOfIndex(transactions: seq<Transaction>)
    ensures |HashesOf(transactions)| == |transactions|
    ensures forall k :: 0 <= k < |transactions| ==> HashesOf(transactions)[k] == transactions[k].hash
  {
    if transactions != [] {
      HashesOfIndex(transactions[1..]);
    }
  }

  /** What the executor and its tracer have recorded: receipts, events, receipt counts, transactions handed over. */
  datatype ExecutorLog = ExecutorLog(
    receipts: seq<Receipt>,
    processed: seq<TxProcessedEventArgs>,
    counts: seq<nat>,
    handed: seq<Transaction>)

  /**
   * The record after the first `i` steps of a block, against the record
   * `start` at entry: step k handed transaction k over and counted the
   * receipts; with a handler, each step found its receipt and raised its
   * event; a silent processor adds no receipt; one receipt per step from an
   * empty tracer keeps receipt k on the hash of transaction k.
   */
  ghost predicate Progress(
    transactions: seq<Transaction>, hashes: seq<Option<Hash>>, hasSubscribers: bool, silent: bool, aligned: bool, i: nat,
    start: ExecutorLog, now: ExecutorLog)
  {
    var entry := |start.counts|;
    // bound to one name, so that a caller establishes the record as one fact rather than clause by clause
    var holds :=
      && i <= |transactions| == |hashes|
      && start.receipts <= now.receipts
      && now.handed == start.handed + transactions[..i]
      && start.counts <= now.counts && |now.counts| == entry + i
      && CountsBetween(now.counts[entry..], |start.receipts|, |now.receipts|)
      && (i > 0 ==> now.counts[|now.counts| - 1] == |now.receipts|)
      && (silent ==> now.receipts == start.receipts)
      && start.processed <= now.processed
      && (!hasSubscribers ==> now.processed == start.processed)
      && (hasSubscribers ==>
            && ReceiptFoundAtEachStep(now.counts[entry..], i)
            && EventsOfSteps(now.processed[|start.processed|..], transactions, now.receipts, i))
      && (aligned ==> start.receipts == [] && |now.receipts| == i && HashesAlong(now.receipts, hashes));
    holds
  }

  /**
   * The record when step `i` found no receipt at its own index and the read
   * faulted: steps 0..i-1 found theirs and raised their events, step i did
   * not, and nothing was recorded after it.
   */
  ghost predicate StoppedAt(
    transactions: seq<Transaction>, hasSubscribers: bool, silent: bool, aligned: bool, i: nat,
    start: ExecutorLog, next: ExecutorLog)
  {
    var entry := |start.counts|;
    var holds :=
      && hasSubscribers && !aligned && i < |transactions|
      && start.receipts <= next.receipts && |next.receipts| <= i
      && next.handed == start.handed + transactions[..i + 1]
      && (silent ==> next.receipts == start.receipts)
      && start.processed <= next.processed
      && start.counts <= next.counts && |next.counts| == entry + i + 1
      && CountsBetween(next.counts[entry..], |start.receipts|, |next.receipts|)
      && next.counts[|next.counts| - 1] == |next.receipts|
      && ReceiptFoundAtEachStep(next.counts[entry..], i)
      && next.counts[entry + i] <= i
      && EventsOfSteps(next.processed[|start.processed|..], transactions, next.receipts, i);
    holds
  }

  /** What one step records: the transaction handed over, the receipt count, and the event or the fault. */
  ghost predicate StepRecorded(
    transactions: seq<Transaction>, hashes: seq<Option<Hash>>, hasSubscribers: bool, silent: bool, aligned: bool, i: nat,
    now: ExecutorLog, next: ExecutorLog, faulted: bool)
  {
    var before := |now.receipts|;
    var holds :=
      && i < |transactions| && i < |hashes|
      && now.receipts <= next.receipts
      && next.handed == now.handed + [transactions[i]]
      && next.counts == now.counts + [|next.receipts|]
      && (silent ==> next.receipts == now.receipts)
      && (aligned ==> |next.receipts| == before + 1 && next.receipts[before].txHash == hashes[i])
      && (!hasSubscribers ==> !faulted && next.processed == now.processed)
      && (hasSubscribers ==> (faulted <==> |next.receipts| <= i))
      && (hasSubscribers && !faulted ==>
            |next.receipts| > i &&
            next.processed == now.processed + [TxProcessedEventArgs(i, transactions[i], next.receipts[i])])
      && (hasSubscribers && faulted ==> next.processed == now.processed);
    holds
  }

  lemma ProgressStart(
    transactions: seq<Transaction>, hashes: seq<Option<Hash>>, hasSubscribers: bool, silent: bool, aligned: bool,
    start: ExecutorLog)
    requires |hashes| == |transactions|
    requires aligned ==> start.receipts == []
    ensures Progress(transactions, hashes, hasSubscribers, silent, aligned, 0, start, start)
  {
    assert start.counts[|start.counts|..] == [] && start.processed[|start.processed|..] == [];
    assert start.handed + transactions[..0] == start.handed;
  }

  /** The receipt counts stay between the entry and the current number of receipts. */
  lemma CountsStep(counts: seq<nat>, counts': seq<nat>, low: nat, high: nat, high': nat)
    requires CountsBetween(counts, low, high) && high <= high' && low <= high'
    requires counts' == counts + [high']
    ensures CountsBetween(counts', low, high')
  {
    forall k | 0 <= k < |counts'| ensures low <= counts'[k] <= high' {
      if k < |counts| {
        assert counts'[k] == counts[k];
      }
    }
  }

  /** One more step raised its event, carrying its own receipt. */
  lemma EventsStep(
    events: seq<TxProcessedEventArgs>, events': seq<TxProcessedEventArgs>, transactions: seq<Transaction>,
    receipts: seq<Receipt>, receipts': seq<Receipt>, i: nat)
    requires EventsOfSteps(events, transactions, receipts, i)
    requires receipts <= receipts' && i < |receipts'| && i < |transactions|
    requires events' == events + [TxProcessedEventArgs(i, transactions[i], receipts'[i])]
    ensures EventsOfSteps(events', transactions, receipts', i + 1)
  {
    forall k | 0 <= k < i ensures events'[k] == TxProcessedEventArgs(k, transactions[k], receipts'[k]) {
      assert events'[k] == events[k] && receipts[k] == receipts'[k];
    }
  }

  /** One more step found its receipt. */
  lemma FoundStep(counts: seq<nat>, counts': seq<nat>, i: nat)
    requires ReceiptFoundAtEachStep(counts, i) && |counts| == i
    requires |counts'| == i + 1 && counts'[..i] == counts && i < counts'[i]
    ensures ReceiptFoundAtEachStep(counts', i + 1)
  {
    forall k | 0 <= k < i + 1 ensures k < counts'[k] {
      if k < i {
        assert counts'[k] == counts'[..i][k];
      }
    }
  }

  /** Receipts that only grew, with each new one on the hash at its index, stay on their hashes. */
  lemma HashesStep(receipts: seq<Receipt>, receipts': seq<Receipt>, hashes: seq<Option<Hash>>)
    requires HashesAlong(receipts, hashes) && receipts <= receipts' && |receipts'| <= |hashes|
    requires forall k :: |receipts| <= k < |receipts'| ==> receipts'[k].txHash == hashes[k]
    ensures HashesAlong(receipts', hashes)
  {
    forall k | 0 <= k < |receipts'| ensures receipts'[k].txHash == hashes[k] {
      if k < |receipts| {
        assert receipts'[k] == receipts[k];
      }
    }
  }

  /** A step without a fault extends the progress by one step. */
  lemma ProgressStep(
    transactions: seq<Transaction>, hashes: seq<Option<Hash>>, hasSubscribers: bool, silent: bool, aligned: bool, i: nat,
    start: ExecutorLog, now: ExecutorLog, next: ExecutorLog)
    requires Progress(transactions, hashes, hasSubscribers, silent, aligned, i, start, now)
    requires StepRecorded(transactions, hashes, hasSubscribers, silent, aligned, i, now, next, false)
    ensures Progress(transactions, hashes, hasSubscribers, silent, aligned, i + 1, start, next)
  {
    var steps, steps' := now.counts[|start.counts|..], next.counts[|start.counts|..];
    assert steps' == steps + [|next.receipts|];
    assert transactions[..i + 1] == transactions[..i] + [transactions[i]];
    CountsStep(steps, steps', |start.receipts|, |now.receipts|, |next.receipts|);
    var events, events' := now.processed[|start.processed|..], next.processed[|start.processed|..];
    if hasSubscribers {
      assert events' == events + [TxProcessedEventArgs(i, transactions[i], next.receipts[i])];
      EventsStep(events, events', transactions, now.receipts, next.receipts, i);
      FoundStep(steps, steps', i);
    }
    if aligned {
      HashesStep(now.receipts, next.receipts, hashes);
    }
    assert start.receipts <= next.receipts && start.processed <= next.processed;
    assert start.counts <= next.counts;
  }

  /** A step whose receipt read faults leaves the record the executor stops with. */
  lemma StoppedStep(
    transactions: seq<Transaction>, hashes: seq<Option<Hash>>, hasSubscribers: bool, silent: bool, aligned: bool, i: nat,
    start: ExecutorLog, now: ExecutorLog, next: ExecutorLog)
    requires Progress(transactions, hashes, hasSubscribers, silent, aligned, i, start, now)
    requires StepRecorded(transactions, hashes, hasSubscribers, silent, aligned, i, now, next, true)
    ensures StoppedAt(transactions, hasSubscribers, silent, aligned, i, start, next)
  {
    var steps, steps' := now.counts[|start.counts|..], next.counts[|start.counts|..];
    assert steps' == steps + [|next.receipts|];
    assert transactions[..i + 1] == transactions[..i] + [transactions[i]];
    CountsStep(steps, steps', |start.receipts|, |now.receipts|, |next.receipts|);
    assert ReceiptFoundAtEachStep(steps', i) by {
      forall k | 0 <= k < i ensures k < steps'[k] {
        assert steps'[k] == steps[k];
      }
    }
    var events, events' := now.processed[|start.processed|..], next.processed[|start.processed|..];
    assert events' == events;
    forall k | 0 <= k < i ensures events'[k] == TxProcessedEventArgs(k, transactions[k], next.receipts[k]) {
      assert now.receipts[k] == next.receipts[k];
    }
  }

  /** After the last step, the record is the one the executor returns with. */
  lemma ProgressComplete(
    transactions: seq<Transaction>, hashes: seq<Option<Hash>>, hasSubscribers: bool, silent: bool, aligned: bool,
    start: ExecutorLog, now: ExecutorLog)
    requires Progress(transactions, hashes, hasSubscribers, silent, aligned, |transactions|, start, now)
    ensures now.handed == start.handed + transactions
    ensures aligned ==>
      |now.receipts| == |transactions| && forall k :: 0 <= k < |transactions| ==> now.receipts[k].txHash == hashes[k]
  {
    assert transactions[..|transactions|] == transactions;
  }

  class BlockValidationTransactionsExecutor {
    const transactionProcessor: TransactionProcessor
    const stateProvider: StateProvider
    /** Whether the TransactionProcessed event has a handler (`?.Invoke` is skipped otherwise). */
    const hasSubscribers: bool
    /** The TransactionProcessed events raised so far, in order. */
    var processed: seq<TxProcessedEventArgs>
    /** The transactions handed to the adapter so far, in order. */
    ghost var handedToAdapter: seq<Transaction>
    /** For each step so far, the number of receipts the tracer held once the adapter returned. */
    ghost var receiptCounts: seq<nat>

    constructor (transactionProcessor: TransactionProcessor, stateProvider: StateProvider, hasSubscribers: bool)
      ensures this.transactionProcessor == transactionProcessor && this.stateProvider == stateProvider
      ensures this.hasSubscribers == hasSubscribers
      ensures processed == [] && handedToAdapter == [] && receiptCounts == []
    {
      this.transactionProcessor := transactionProcessor;
      this.stateProvider := stateProvider;
      this.hasSubscribers := hasSubscribers;
      processed := [];
      handedToAdapter := [];
      receiptCounts := [];
    }

    /** Everything a step of ProcessTransactions records: the tracer's receipts and the executor's logs. */
    ghost function Log(receiptsTracer: BlockReceiptsTracer): ExecutorLog
      reads this, receiptsTracer
    {
      ExecutorLog(receiptsTracer.receipts, processed, receiptCounts, handedToAdapter)
    }

    method ProcessTransactions(block: Block, processingOptions: ProcessingOptions, receiptsTracer: BlockReceiptsTracer)
      returns (r: Result<seq<Receipt>, ProcessingFault>)
      requires receiptsTracer.Valid()
      modifies this`processed, this`handedToAdapter, this`receiptCounts, receiptsTracer, stateProvider`accounts
      modifies block.transactions`nonce
      ensures receiptsTracer.Valid()
      ensures old(receiptsTracer.receipts) <= receiptsTracer.receipts
      ensures old(processed) <= processed && old(receiptCounts) <= receiptCounts
      // the result is the tracer's accumulated receipts
      ensures r.Ok? ==> r.value == receiptsTracer.receipts
      // without DoNotVerifyNonce no nonce of the block is touched
      ensures DoNotVerifyNonce !in processingOptions ==>
        forall k :: 0 <= k < |block.transactions| ==> block.transactions[k].nonce == old(block.transactions[k].nonce)
      // the trace trail only grows
      ensures old(receiptsTracer.trail) <= receiptsTracer.trail
      // every transaction is handed to the adapter exactly once, in order, whatever faults it raised
      ensures r.Ok? ==> handedToAdapter == old(handedToAdapter) + block.transactions
      // without a handler no event is raised and no receipt is read, so nothing escapes
      ensures !hasSubscribers ==> r.Ok? && processed == old(processed)
      // the only escaping fault: the receipt for the event is missing; processing stops there
      ensures r.Err? ==>
        && hasSubscribers
        && r.error.index < |block.transactions|
        && |receiptsTracer.receipts| <= r.error.index
        && handedToAdapter == old(handedToAdapter) + block.transactions[..r.error.index + 1]
      // one receipt count per step taken, between the old and the final number of receipts
      ensures var steps := receiptCounts[|old(receiptCounts)|..];
        && |steps| == (if r.Ok? then |block.transactions| else r.error.index + 1)
        && CountsBetween(steps, |old(receiptsTracer.receipts)|, |receiptsTracer.receipts|)
        && (steps != [] ==> steps[|steps| - 1] == |receiptsTracer.receipts|)
      // with a handler: one event per step that passed, in order, carrying (i, transactions[i], TxReceipts[i]);
      // the call fails exactly at the first step that leaves no receipt at its own index
      ensures hasSubscribers ==>
        var steps := receiptCounts[|old(receiptCounts)|..];
        var passed := if r.Ok? then |block.transactions| else r.error.index;
        && ReceiptFoundAtEachStep(steps, passed)
        && (r.Err? ==> steps[r.error.index] <= r.error.index)
        && EventsOfSteps(processed[|old(processed)|..], block.transactions, receiptsTracer.receipts, passed)
      // a processor that reports nothing adds no receipt
      ensures ReportsNothing(transactionProcessor) ==> receiptsTracer.receipts == old(receiptsTracer.receipts)
      // with one receipt per step, receipt i belongs to transaction i
      ensures old(OneReceiptPerStep(transactionProcessor, processingOptions, block.transactions)) &&
              old(receiptsTracer.receipts) == [] ==>
        && r.Ok?
        && |r.value| == |block.transactions|
        && forall k :: 0 <= k < |block.transactions| ==>
             r.value[k].index == k && r.value[k].txHash == block.transactions[k].hash
    {
      var transactions := block.transactions;
      ghost var start := Log(receiptsTracer);
      ghost var silent := ReportsNothing(transactionProcessor);
      ghost var aligned := OneReceiptPerStep(transactionProcessor, processingOptions, transactions) &&
        receiptsTracer.receipts == [];
      ghost var hashes := HashesOf(transactions);
      var uncaught := RunSteps(block, receiptsTracer, processingOptions, hashes, start, silent, aligned);
      if uncaught.Some? {
        r := Err(uncaught.value);
      } else {
        ProgressComplete(transactions, hashes, hasSubscribers, silent, aligned, start, Log(receiptsTracer));
        HashesOfIndex(transactions);
        r := Ok(receiptsTracer.receipts);
      }
    }

    /** The loop of ProcessTransactions: the steps in order, until the end or the first escaping fault. */
    method RunSteps(
      block: Block,
      receiptsTracer: BlockReceiptsTracer,
      processingOptions: ProcessingOptions,
      ghost hashes: seq<Option<Hash>>,
      ghost start: ExecutorLog,
      ghost silent: bool,
      ghost aligned: bool)
      returns (uncaught: Option<ProcessingFault>)
      requires receiptsTracer.Valid() && start == Log(receiptsTracer)
      requires hashes == HashesOf(block.transactions)
      requires silent ==> ReportsNothing(transactionProcessor)
      requires aligned ==> start.receipts == [] && OneReceiptPerStep(transactionProcessor, processingOptions, block.transactions)
      modifies this`processed, this`handedToAdapter, this`receiptCounts, block.transactions`nonce, receiptsTracer
      modifies stateProvider`accounts
      ensures receiptsTracer.Valid() && hashes == HashesOf(block.transactions)
      ensures DoNotVerifyNonce !in processingOptions ==>
        forall k :: 0 <= k < |block.transactions| ==> block.transactions[k].nonce == old(block.transactions[k].nonce)
      ensures old(receiptsTracer.trail) <= receiptsTracer.trail
      ensures uncaught.None? ==>
        Progress(block.transactions, hashes, hasSubscribers, silent, aligned, |block.transactions|, start, Log(receiptsTracer))
      ensures uncaught.Some? ==>
        StoppedAt(block.transactions, hasSubscribers, silent, aligned, uncaught.value.index, start, Log(receiptsTracer))
    {
      var transactions := block.transactions;
      HashesOfIndex(transactions);
      ProgressStart(transactions, hashes, hasSubscribers, silent, aligned, start);
      var i := 0;
      while i < |transactions|
        invariant receiptsTracer.Valid()
        invariant Progress(transactions, hashes, hasSubscribers, silent, aligned, i, start, Log(receiptsTracer))
        invariant hashes == HashesOf(transactions)
        invariant aligned ==> OneReceiptPerStep(transactionProcessor, processingOptions, transactions)
        invariant DoNotVerifyNonce !in processingOptions ==>
          forall k :: 0 <= k < |transactions| ==> transactions[k].nonce == old(transactions[k].nonce)
        invariant old(receiptsTracer.trail) <= receiptsTracer.trail
      {
        uncaught := TakeStep(block, i, receiptsTracer, processingOptions, hashes, start, silent, aligned);
        if uncaught.Some? {
          return;
        }
        i := i + 1;
      }
      uncaught := None;
    }

    /** Step `i` of ProcessTransactions: ProcessTransaction on transaction `i`, and what it adds to the record. */
    method TakeStep(
      block: Block,
      i: nat,
      receiptsTracer: BlockReceiptsTracer,
      processingOptions: ProcessingOptions,
      ghost hashes: seq<Option<Hash>>,
      ghost start: ExecutorLog,
      ghost silent: bool,
      ghost aligned: bool)
      returns (uncaught: Option<ProcessingFault>)
      requires receiptsTracer.Valid()
      requires i < |block.transactions| && hashes == HashesOf(block.transactions)
      requires Progress(block.transactions, hashes, hasSubscribers, silent, aligned, i, start, Log(receiptsTracer))
      requires silent ==> ReportsNothing(transactionProcessor)
      requires aligned ==> OneReceiptPerStep(transactionProcessor, processingOptions, block.transactions)
      modifies this`processed, this`handedToAdapter, this`receiptCounts, block.transactions`nonce, receiptsTracer
      modifies stateProvider`accounts
      ensures receiptsTracer.Valid() && hashes == HashesOf(block.transactions)
      // senders are never rewritten
      ensures aligned ==> OneReceiptPerStep(transactionProcessor, processingOptions, block.transactions)
      ensures DoNotVerifyNonce !in processingOptions ==>
        forall k :: 0 <= k < |block.transactions| ==> block.transactions[k].nonce == old(block.transactions[k].nonce)
      ensures old(receiptsTracer.trail) <= receiptsTracer.trail
      ensures uncaught.None? ==>
        Progress(block.transactions, hashes, hasSubscribers, silent, aligned, i + 1, start, Log(receiptsTracer))
      ensures uncaught.Some? ==>
        uncaught.value == ReceiptIndexOutOfRange(i) &&
        StoppedAt(block.transactions, hasSubscribers, silent, aligned, i, start, Log(receiptsTracer))
    {
      ghost var now := Log(receiptsTracer);
      uncaught := RecordStep(block, i, receiptsTracer, processingOptions, hashes, silent, aligned);
      if uncaught.Some? {
        StoppedStep(block.transactions, hashes, hasSubscribers, silent, aligned, i, start, now, Log(receiptsTracer));
      } else {
        ProgressStep(block.transactions, hashes, hasSubscribers, silent, aligned, i, start, now, Log(receiptsTracer));
      }
    }

    /** ProcessTransaction on transaction `i`, with what it adds to the record stated as one fact. */
    method RecordStep(
      block: Block,
      i: nat,
      receiptsTracer: BlockReceiptsTracer,
      processingOptions: ProcessingOptions,
      ghost hashes: seq<Option<Hash>>,
      ghost silent: bool,
      ghost aligned: bool)
      returns (uncaught: Option<ProcessingFault>)
      requires receiptsTracer.Valid()
      requires i < |block.transactions| && hashes == HashesOf(block.transactions)
      requires silent ==> ReportsNothing(transactionProcessor)
      requires aligned ==> OneReceiptPerStep(transactionProcessor, processingOptions, block.transactions)
      modifies this`processed, this`handedToAdapter, this`receiptCounts, block.transactions`nonce, receiptsTracer
      modifies stateProvider`accounts
      ensures receiptsTracer.Valid() && hashes == HashesOf(block.transactions)
      ensures aligned ==> OneReceiptPerStep(transactionProcessor, processingOptions, block.transactions)
      ensures DoNotVerifyNonce !in processingOptions ==>
        forall k :: 0 <= k < |block.transactions| ==> block.transactions[k].nonce == old(block.transactions[k].nonce)
      ensures old(receiptsTracer.trail) <= receiptsTracer.trail
      ensures uncaught.Some? ==> uncaught.value == ReceiptIndexOutOfRange(i)
      ensures StepRecorded(block.transactions, hashes, hasSubscribers, silent, aligned, i,
        old(Log(receiptsTracer)), Log(receiptsTracer), uncaught.Some?)
    {
      HashesOfIndex(block.transactions);
      uncaught := ProcessTransaction(block, block.transactions[i], i, receiptsTracer, processingOptions);
    }

    /** One step: the adapter inside a catch-all, then the event, whose receipt is read outside the catch. */
    method ProcessTransaction(
      block: Block,
      currentTx: Transaction,
      index: nat,
      receiptsTracer: BlockReceiptsTracer,
      processingOptions: ProcessingOptions)
      returns (uncaught: Option<ProcessingFault>)
      requires receiptsTracer.Valid()
      modifies this`processed, this`handedToAdapter, this`receiptCounts, currentTx`nonce, receiptsTracer, stateProvider`accounts
      ensures receiptsTracer.Valid()
      ensures old(receiptsTracer.receipts) <= receiptsTracer.receipts
      ensures handedToAdapter == old(handedToAdapter) + [currentTx]
      ensures receiptCounts == old(receiptCounts) + [|receiptsTracer.receipts|]
      // the adapter's nonce policy: rewritten with the state's nonce for the sender, and only under the flag
      ensures DoNotVerifyNonce !in processingOptions ==> currentTx.nonce == old(currentTx.nonce)
      ensures DoNotVerifyNonce in processingOptions && currentTx.senderAddress.Some? ==>
        currentTx.nonce == old(stateProvider.GetNonce(currentTx.senderAddress.value))
      // a failed nonce lookup leaves the tracer and the state as they were
      ensures NonceLookupFails(currentTx, processingOptions) ==>
        && currentTx.nonce == old(currentTx.nonce)
        && receiptsTracer.trail == old(receiptsTracer.trail)
        && receiptsTracer.currentTx == old(receiptsTracer.currentTx)
        && stateProvider.accounts == old(stateProvider.accounts)
      // otherwise the trace scope is started, Execute runs, and the scope is ended only if Execute did not fault
      ensures !NonceLookupFails(currentTx, processingOptions) ==>
        var run := transactionProcessor(currentTx.Fields(), block.header, old(stateProvider.accounts));
        && receiptsTracer.trail == old(receiptsTracer.trail) +
             [TxTraceStarted(currentTx), HandedToExecute(currentTx.Fields())] +
             (if run.faulted then [] else [TxTraceEnded])
        && receiptsTracer.currentTx == (if run.faulted then Some(currentTx) else None)
        && stateProvider.accounts == run.accounts
      ensures ReportsNothing(transactionProcessor) ==> receiptsTracer.receipts == old(receiptsTracer.receipts)
      ensures ReportsOnce(transactionProcessor) && !NonceLookupFails(currentTx, processingOptions) ==>
        |receiptsTracer.receipts| == |old(receiptsTracer.receipts)| + 1 &&
        receiptsTracer.receipts[|old(receiptsTracer.receipts)|].txHash == currentTx.hash
      ensures NonceLookupFails(currentTx, processingOptions) ==> receiptsTracer.receipts == old(receiptsTracer.receipts)
      ensures !NonceLookupFails(currentTx, processingOptions) ==>
        receiptsTracer.receipts == old(receiptsTracer.receipts) +
          StampReceipts(|old(receiptsTracer.receipts)|, currentTx.hash,
            transactionProcessor(currentTx.Fields(), block.header, old(stateProvider.accounts)).reports)
      ensures !hasSubscribers ==> uncaught == None && processed == old(processed)
      ensures hasSubscribers && index < |receiptsTracer.receipts| ==>
        uncaught == None &&
        processed == old(processed) + [TxProcessedEventArgs(index, currentTx, receiptsTracer.receipts[index])]
      ensures hasSubscribers && |receiptsTracer.receipts| <= index ==>
        uncaught == Some(ReceiptIndexOutOfRange(index)) && processed == old(processed)
    {
      handedToAdapter := handedToAdapter + [currentTx];
      // a fault of the adapter is caught and dropped
      ghost var accounts := stateProvider.accounts;
      var _ := TransactionProcessing.ProcessTransaction(
        transactionProcessor, block, currentTx, receiptsTracer, processingOptions, stateProvider);
      StampReceiptsNumbered(|old(receiptsTracer.receipts)|, currentTx.hash,
        transactionProcessor(currentTx.Fields(), block.header, accounts).reports);
      receiptCounts := receiptCounts + [|receiptsTracer.receipts|];

      uncaught := None;
      if hasSubscribers {
        if index < |receiptsTracer.receipts| {
          processed := processed + [TxProcessedEventArgs(index, currentTx, receiptsTracer.receipts[index])];
        } else {
          uncaught := Some(ReceiptIndexOutOfRange(index));
        }
      }
    }
  }
}
