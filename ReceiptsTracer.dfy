// The block receipts tracer, an external collaborator that the executor and
// adapter drive: one trace scope per transaction and the receipts
// accumulated for the block.
module Tracing {
  import opened Primitives
  import opened Transactions

  datatype TxStatus = Success | Failure

  /** What the transaction processor reports to the tracer when it marks a transaction as done. */
  datatype ExecutionReport = ExecutionReport(status: TxStatus, gasSpent: nat)

  /** A receipt: its position in the block, the hash of its transaction, status and gas. */
  datatype Receipt = Receipt(index: nat, txHash: Option<Hash>, status: TxStatus, gasUsed: nat)

  /** What happened to the tracer, in order. */
  datatype TraceEvent =
    | TxTraceStarted(tx: Transaction)
    | HandedToExecute(input: TxFields)
    | TxTraceEnded

  /** The receipts the tracer builds from `reports`, numbered from `start` and stamped with `txHash`. */
  function StampReceipts(start: nat, txHash: Option<Hash>, reports: seq<ExecutionReport>): seq<Receipt>
    decreases reports
  {
    if reports == [] then []
    else [Receipt(start, txHash, reports[0].status, reports[0].gasSpent)] + StampReceipts(start + 1, txHash, reports[1..])
  }

  /** One receipt per report, numbered consecutively from `start`, each carrying the report's status and gas. */
  lemma {:induction false} StampReceiptsNumbered(start: nat, txHash: Option<Hash>, reports: seq<ExecutionReport>)
    ensures |StampReceipts(start, txHash, reports)| == |reports|
    ensures forall k :: 0 <= k < |reports| ==>
      StampReceipts(start, txHash, reports)[k] == Receipt(start + k, txHash, reports[k].status, reports[k].gasSpent)
    decreases reports
  {
    if reports != [] {
      StampReceiptsNumbered(start + 1, txHash, reports[1..]);
    }
  }

  class BlockReceiptsTracer {
    var receipts: seq<Receipt>
    var currentTx: Option<Transaction>
    var trail: seq<TraceEvent>

    /** Every receipt records its own position in the receipt list. */
    ghost predicate Valid()
      reads this
    {
      forall k :: 0 <= k < |receipts| ==> receipts[k].index == k
    }

    constructor ()
      ensures Valid() && receipts == [] && currentTx == None && trail == []
    {
      receipts, currentTx, trail := [], None, [];
    }

    method StartNewTxTrace(tx: Transaction)
      requires Valid()
      modifies this
      ensures Valid()
      ensures receipts == old(receipts) && currentTx == Some(tx)
      ensures trail == old(trail) + [TxTraceStarted(tx)]
    {
      currentTx := Some(tx);
      trail := trail + [TxTraceStarted(tx)];
    }

    /**
     * The tracer's side of one Execute call: the processor is handed `input`
     * and marks the current transaction once per report, each mark adding a
     * receipt for the current transaction.
     */
    method TraceExecution(input: TxFields, reports: seq<ExecutionReport>)
      requires Valid() && currentTx.Some?
      modifies this
      ensures Valid() && currentTx == old(currentTx)
      ensures receipts == old(receipts) + StampReceipts(|old(receipts)|, old(currentTx.value.hash), reports)
      ensures trail == old(trail) + [HandedToExecute(input)]
    {
      StampReceiptsNumbered(|receipts|, currentTx.value.hash, reports);
      receipts := receipts + StampReceipts(|receipts|, currentTx.value.hash, reports);
      trail := trail + [HandedToExecute(input)];
    }

    method EndTxTrace()
      requires Valid()
      modifies this
      ensures Valid()
      ensures receipts == old(receipts) && currentTx == None
      ensures trail == old(trail) + [TxTraceEnded]
    {
      currentTx := None;
      trail := trail + [TxTraceEnded];
    }
  }
}
