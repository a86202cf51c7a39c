/**
 * The transaction log shared by every dispatcher (`send3.js`, `sendNFT.js`,
 * `index2.js`): two append-only JSON stores, one for successful and one for
 * failed transactions, each rewritten whole by `logTransaction`; and the
 * settlement poll `fetchTransactionResult`, which asks for a submitted
 * transaction's result until it is found or its retries run out and logs
 * exactly one entry either way.
 */
module TxLog {
  import opened Wrappers

  /** The ledger's result code for a fully successful transaction. */
  const TesSuccess := "tesSUCCESS"

  /** The `transactionResult` written for a dispatch that produced no ledger result. */
  const ErrorResult := "ERROR"

  /** Retries the settlement poll makes after its first request. */
  const PollRetries: nat := 10

  /** The `onChain` field: an explorer link for the signed transaction's hash, or `'N/A'`. */
  datatype OnChain = NotApplicable | Explorer(hash: string)

  /** One record of a log store. */
  datatype LogEntry = LogEntry(
    counter: int,
    account: string,
    amount: real,
    transactionResult: string,
    onChain: OnChain,
    fee: Option<int>,
    error: Option<string>)

  /** One call `logTransaction(entry, success)`. */
  datatype Write = Write(entry: LogEntry, success: bool)

  /** The entries a series of calls appends to the store that `success` selects, in call order. */
  function Routed(ws: seq<Write>, success: bool): (r: seq<LogEntry>)
    ensures |r| <= |ws|
  {
    if ws == [] then []
    else (if ws[0].success == success then [ws[0].entry] else []) + Routed(ws[1..], success)
  }

  lemma {:induction false} RoutedAppend(a: seq<Write>, b: seq<Write>, success: bool)
    ensures Routed(a + b, success) == Routed(a, success) + Routed(b, success)
  {
    if a == [] {
      assert a + b == b;
    } else {
      assert (a + b)[0] == a[0] && (a + b)[1..] == a[1..] + b;
      RoutedAppend(a[1..], b, success);
    }
  }

  /** Every call lands in exactly one of the two stores. */
  lemma {:induction false} RoutedSplit(ws: seq<Write>)
    ensures |Routed(ws, true)| + |Routed(ws, false)| == |ws|
  {
    if ws != [] {
      RoutedSplit(ws[1..]);
    }
  }

  /** An entry lands in a store exactly when some call wrote it with that store's flag. */
  lemma {:induction false} RoutedMembers(ws: seq<Write>, success: bool)
    ensures forall e :: e in Routed(ws, success) <==> Write(e, success) in ws
  {
    if ws != [] {
      RoutedMembers(ws[1..], success);
      assert ws == [ws[0]] + ws[1..];
    }
  }

  /** A log file as `logTransaction` reads it: a missing file is the empty list. */
  function Contents(file: Option<seq<LogEntry>>): seq<LogEntry> {
    file.GetOr([])
  }

  /** The two log files, `transactions_success.json` and `transactions_failed.json`; `None` while a file does not exist. */
  class Log {
    var successFile: Option<seq<LogEntry>>
    var failedFile: Option<seq<LogEntry>>

    constructor (successFile: Option<seq<LogEntry>>, failedFile: Option<seq<LogEntry>>)
      ensures this.successFile == successFile && this.failedFile == failedFile
    {
      this.successFile := successFile;
      this.failedFile := failedFile;
    }

    function Success(): seq<LogEntry>
      reads this
    {
      Contents(successFile)
    }

    function Failed(): seq<LogEntry>
      reads this
    {
      Contents(failedFile)
    }

    /**
     * `logTransaction`: read the selected file (missing reads as empty), push the
     * entry, write the file back. The other file is untouched.
     */
    method LogTransaction(entry: LogEntry, success: bool)
      modifies this
      ensures successFile == if success then Some(old(Success()) + [entry]) else old(successFile)
      ensures failedFile == if success then old(failedFile) else Some(old(Failed()) + [entry])
      ensures Success() == old(Success()) + Routed([Write(entry, success)], true)
      ensures Failed() == old(Failed()) + Routed([Write(entry, success)], false)
    {
      var file := if success then successFile else failedFile;
      var transactions: seq<LogEntry> := [];
      if file.Some? {
        transactions := file.value;
      }
      transactions := transactions + [entry];
      if success {
        successFile := Some(transactions);
      } else {
        failedFile := Some(transactions);
      }
    }
  }

  /**
   * The reply to one `tx` request: the result code and fee (in drops) when the
   * reply has `meta`, otherwise the message of the error raised (a failed request,
   * or 'Transaction result not found').
   */
  datatype PollReply = Found(transactionResult: string, fee: int) | Missing(message: string)

  /** How polling ended: the reply that stopped it and the number of `tx` requests made. */
  datatype PollOutcome = PollOutcome(last: PollReply, requests: nat)

  /**
   * `fetchTransactionResult(client, tx, retries)` as a value: request number `k`
   * is answered by `replies(k)`; a found result stops it, a missing one is retried
   * while `retries > 0`.
   */
  function Poll(replies: nat -> PollReply, attempt: nat, retries: nat): (r: PollOutcome)
    ensures 1 <= r.requests <= retries + 1
    ensures r.last == replies(attempt + r.requests - 1)
    ensures forall k :: attempt <= k < attempt + r.requests - 1 ==> replies(k).Missing?
    ensures r.last.Missing? ==> r.requests == retries + 1
    decreases retries
  {
    match replies(attempt)
    case Found(_, _) => PollOutcome(replies(attempt), 1)
    case Missing(_) =>
      if retries > 0 then
        var p := Poll(replies, attempt + 1, retries - 1);
        PollOutcome(p.last, p.requests + 1)
      else
        PollOutcome(replies(attempt), 1)
  }

  /**
   * The one entry polling logs: the ledger's result (to the success store iff it is
   * `tesSUCCESS`), or an `ERROR` entry in the failure store once the retries are spent.
   */
  function SettlementWrite(counter: int, account: string, amount: real, hash: string, last: PollReply): Write {
    match last
    case Found(code, fee) =>
      Write(LogEntry(counter, account, amount, code, Explorer(hash), Some(fee), None), code == TesSuccess)
    case Missing(message) =>
      Write(LogEntry(counter, account, amount, ErrorResult, Explorer(hash), None, Some(message)), false)
  }

  /** Settlement routes an entry to the success store exactly when the ledger reported `tesSUCCESS`. */
  lemma SettlementWriteRouting(counter: int, account: string, amount: real, hash: string, last: PollReply)
    ensures var w := SettlementWrite(counter, account, amount, hash, last);
      && (w.success <==> w.entry.transactionResult == TesSuccess)
      && w.entry.counter == counter && w.entry.account == account && w.entry.onChain == Explorer(hash)
  {
  }

  /**
   * `fetchTransactionResult`: the recursive retry itself. Makes the requests `Poll`
   * describes and appends exactly one entry, `SettlementWrite` of the reply that
   * ended the poll, to the store it selects.
   */
  method FetchTransactionResult(log: Log, hash: string, counter: int, account: string, amount: real,
                                replies: nat -> PollReply, attempt: nat, retries: nat)
    returns (requests: nat)
    modifies log
    ensures requests == Poll(replies, attempt, retries).requests
    ensures var w := SettlementWrite(counter, account, amount, hash, Poll(replies, attempt, retries).last);
      && log.Success() == old(log.Success()) + Routed([w], true)
      && log.Failed() == old(log.Failed()) + Routed([w], false)
    decreases retries
  {
    var reply := replies(attempt);
    match reply {
      case Found(code, fee) =>
        log.LogTransaction(LogEntry(counter, account, amount, code, Explorer(hash), Some(fee), None), code == TesSuccess);
        requests := 1;
      case Missing(message) =>
        if retries > 0 {
          requests := FetchTransactionResult(log, hash, counter, account, amount, replies, attempt + 1, retries - 1);
          requests := requests + 1;
        } else {
          log.LogTransaction(LogEntry(counter, account, amount, ErrorResult, Explorer(hash), None, Some(message)), false);
          requests := 1;
        }
    }
  }

  /** A transaction the ledger never reports is logged once, as `ERROR`, after exactly 11 requests. */
  lemma NeverFoundIsLoggedAsError(counter: int, account: string, amount: real, hash: string, replies: nat -> PollReply)
    requires forall k :: 0 <= k <= PollRetries ==> replies(k).Missing?
    ensures Poll(replies, 0, PollRetries).requests == PollRetries + 1
    ensures var w := SettlementWrite(counter, account, amount, hash, Poll(replies, 0, PollRetries).last);
      !w.success && w.entry.transactionResult == ErrorResult
  {
  }
}
