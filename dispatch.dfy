/**
 * The token dispatcher of `send3.js` (the `send` module that `index.js` hands
 * its ready holders to). It reads the sender's account `Sequence` once,
 * submits one payment per user in list order with an explicit sequence number,
 * advances that number only when a submission went through, logs every
 * submission failure at once, and then polls each submitted transaction and logs
 * its settlement.
 */
module Dispatch {
  import opened Wrappers
  import opened TxLog

  /** A send job `{ account, amount }`. */
  datatype User = User(account: string, amount: real)

  /**
   * `!user.account || !user.amount` is false: a non-empty account and a non-zero
   * amount. (An absent account is modelled as the empty string.)
   */
  predicate ValidUser(u: User) {
    u.account != "" && u.amount != 0.0
  }

  const InvalidUserMessage := "Invalid user object"

  /**
   * How the network treats one valid job: `autofill` throws, `wallet.sign`
   * throws, `submit` of the signed blob (whose hash is known) throws, or the
   * blob is submitted.
   */
  datatype SubmitOutcome =
    | AutofillFailed(message: string)
    | SigningFailed(message: string)
    | SubmitFailed(hash: string, message: string)
    | Submitted(hash: string)

  /** `{ hash, user, counter, sequence }`: what `sendTransaction` returns for a submitted payment. */
  datatype Tx = Tx(hash: string, user: User, counter: nat, sequence: int)

  /** The effect of one `sendTransaction` call: a submitted transaction, or the failure entry it logs. */
  datatype Attempt = Sent(tx: Tx) | Rejected(entry: LogEntry)

  function SendAttempt(user: User, sequence: int, counter: nat, outcome: SubmitOutcome): (r: Attempt)
    ensures r.Sent? <==> ValidUser(user) && outcome.Submitted?
    ensures r.Sent? ==> r.tx == Tx(outcome.hash, user, counter, sequence)
    ensures r.Rejected? ==> && r.entry.counter == counter
                            && r.entry.account == user.account && r.entry.amount == user.amount
                            && r.entry.transactionResult == ErrorResult
                            && r.entry.fee.None? && r.entry.error.Some?
    ensures r.Rejected? ==> (r.entry.onChain.NotApplicable? <==> !ValidUser(user) || !outcome.SubmitFailed?)
  {
    if !ValidUser(user) then
      Rejected(LogEntry(counter, user.account, user.amount, ErrorResult, NotApplicable, None, Some(InvalidUserMessage)))
    else
      match outcome
      case AutofillFailed(m) => Rejected(LogEntry(counter, user.account, user.amount, ErrorResult, NotApplicable, None, Some(m)))
      case SigningFailed(m) => Rejected(LogEntry(counter, user.account, user.amount, ErrorResult, NotApplicable, None, Some(m)))
      case SubmitFailed(h, m) => Rejected(LogEntry(counter, user.account, user.amount, ErrorResult, Explorer(h), None, Some(m)))
      case Submitted(h) => Sent(Tx(h, user, counter, sequence))
  }

  /**
   * `sendTransaction(client, user, sequence, counter)`: validate, then autofill,
   * sign and submit; on any failure log one `ERROR` entry whose `onChain` is `'N/A'`
   * exactly when nothing was signed, and return null.
   */
  method SendTransaction(log: Log, user: User, sequence: int, counter: nat, outcome: SubmitOutcome)
    returns (tx: Option<Tx>)
    modifies log
    ensures SendAttempt(user, sequence, counter, outcome).Sent? <==> tx.Some?
    ensures tx.Some? ==> tx.value == SendAttempt(user, sequence, counter, outcome).tx
    ensures log.Success() == old(log.Success())
    ensures log.Failed() == old(log.Failed()) +
      match SendAttempt(user, sequence, counter, outcome)
      case Sent(_) => []
      case Rejected(e) => [e]
  {
    var signed: Option<string> := None;
    var error: Option<string> := None;
    if !ValidUser(user) {
      error := Some(InvalidUserMessage);
    } else {
      match outcome {
        case AutofillFailed(m) => error := Some(m);
        case SigningFailed(m) => error := Some(m);
        case SubmitFailed(h, m) => signed := Some(h); error := Some(m);
        case Submitted(h) => signed := Some(h);
      }
    }
    if error.None? {
      return Some(Tx(signed.value, user, counter, sequence));
    }
    var onChain := if signed.Some? then Explorer(signed.value) else NotApplicable;
    log.LogTransaction(LogEntry(counter, user.account, user.amount, ErrorResult, onChain, None, error), false);
    tx := None;
  }

  /** The transactions submitted and the failure entries logged while sending to the first `k` users. */
  datatype Phase = Phase(transactions: seq<Tx>, rejected: seq<LogEntry>)

  /**
   * The submission loop of `send` over `users[..k]`: user `i` gets `counter = i + 1`
   * and the current sequence, which advances only past a submitted transaction, so
   * the submitted sequences are `start, start + 1, …` with no gap.
   */
  function SubmitPhase(users: seq<User>, outcomes: nat -> SubmitOutcome, start: int, k: nat): (r: Phase)
    requires k <= |users|
    ensures |r.transactions| + |r.rejected| == k
    ensures forall j :: 0 <= j < |r.transactions| ==> r.transactions[j].sequence == start + j
    decreases k
  {
    if k == 0 then Phase([], [])
    else
      var p := SubmitPhase(users, outcomes, start, k - 1);
      match SendAttempt(users[k - 1], start + |p.transactions|, k, outcomes(k - 1))
      case Sent(t) => Phase(p.transactions + [t], p.rejected)
      case Rejected(e) => Phase(p.transactions, p.rejected + [e])
  }

  /**
   * Counters in the submission loop: a submitted transaction carries the counter
   * of the user it pays, a failure entry the counter of the user it rejects; both
   * lists run in increasing counter order within `1..k` and share no counter. With
   * `|transactions| + |rejected| == k` this makes every counter appear exactly once.
   */
  lemma {:induction false} SubmitPhaseCounters(users: seq<User>, outcomes: nat -> SubmitOutcome, start: int, k: nat)
    requires k <= |users|
    ensures var r := SubmitPhase(users, outcomes, start, k);
      CountersIn(r.transactions, r.rejected, users, k)
  {
    if k > 0 {
      SubmitPhaseCounters(users, outcomes, start, k - 1);
      var p := SubmitPhase(users, outcomes, start, k - 1);
      var a := SendAttempt(users[k - 1], start + |p.transactions|, k, outcomes(k - 1));
      if a.Sent? {
        assert SubmitPhase(users, outcomes, start, k) == Phase(p.transactions + [a.tx], p.rejected);
        CountersAddTx(p.transactions, p.rejected, users, k, a.tx);
      } else {
        assert SubmitPhase(users, outcomes, start, k) == Phase(p.transactions, p.rejected + [a.entry]);
        CountersAddRejected(p.transactions, p.rejected, users, k, a.entry);
      }
    }
  }

  lemma CountersAddTx(txs: seq<Tx>, rejected: seq<LogEntry>, users: seq<User>, k: nat, t: Tx)
    requires 0 < k <= |users| && CountersIn(txs, rejected, users, k - 1)
    requires t.counter == k && t.user == users[k - 1]
    ensures CountersIn(txs + [t], rejected, users, k)
  {
  }

  lemma CountersAddRejected(txs: seq<Tx>, rejected: seq<LogEntry>, users: seq<User>, k: nat, e: LogEntry)
    requires 0 < k <= |users| && CountersIn(txs, rejected, users, k - 1)
    requires e.counter == k && e.account == users[k - 1].account
    ensures CountersIn(txs, rejected + [e], users, k)
  {
  }

  predicate CountersIn(txs: seq<Tx>, rejected: seq<LogEntry>, users: seq<User>, k: nat)
    requires k <= |users|
  {
    && (forall j :: 0 <= j < |txs| ==> 1 <= txs[j].counter <= k && txs[j].user == users[txs[j].counter - 1])
    && (forall j :: 0 <= j < |rejected| ==>
          1 <= rejected[j].counter <= k && rejected[j].account == users[rejected[j].counter - 1].account)
    && (forall i, j :: 0 <= i < j < |txs| ==> txs[i].counter < txs[j].counter)
    && (forall i, j :: 0 <= i < j < |rejected| ==> rejected[i].counter < rejected[j].counter)
    && (forall i, j :: 0 <= i < |txs| && 0 <= j < |rejected| ==> txs[i].counter != rejected[j].counter)
  }

  /** The write that polling transaction `tx` ends with; `poll(tx.counter)` answers its `tx` requests. */
  function SettleWrite(tx: Tx, poll: nat -> nat -> PollReply): Write {
    SettlementWrite(tx.counter, tx.user.account, tx.user.amount, tx.hash, Poll(poll(tx.counter), 0, PollRetries).last)
  }

  function SettleWrites(txs: seq<Tx>, poll: nat -> nat -> PollReply): (ws: seq<Write>)
    ensures |ws| == |txs|
  {
    seq(|txs|, j requires 0 <= j < |txs| => SettleWrite(txs[j], poll))
  }

  /**
   * `send(userList)`: the submission loop followed by the polling loop, each in
   * list order. The success store gains the settled `tesSUCCESS` entries; the
   * failure store gains every rejected submission, then every other settlement.
   */
  method Send(log: Log, users: seq<User>, startSequence: int,
              outcomes: nat -> SubmitOutcome, poll: nat -> nat -> PollReply)
    returns (transactions: seq<Tx>)
    modifies log
    ensures transactions == SubmitPhase(users, outcomes, startSequence, |users|).transactions
    ensures log.Success() == old(log.Success()) + Routed(SettleWrites(transactions, poll), true)
    ensures log.Failed() == old(log.Failed()) + SubmitPhase(users, outcomes, startSequence, |users|).rejected
                                              + Routed(SettleWrites(transactions, poll), false)
  {
    transactions := SubmitAll(log, users, startSequence, outcomes);
    SettleAll(log, transactions, poll);
  }

  /** The first loop of `send`: one `sendTransaction` per user, the sequence advancing past each submitted one. */
  method SubmitAll(log: Log, users: seq<User>, startSequence: int, outcomes: nat -> SubmitOutcome)
    returns (transactions: seq<Tx>)
    modifies log
    ensures transactions == SubmitPhase(users, outcomes, startSequence, |users|).transactions
    ensures log.Success() == old(log.Success())
    ensures log.Failed() == old(log.Failed()) + SubmitPhase(users, outcomes, startSequence, |users|).rejected
  {
    var sequence := startSequence;
    transactions := [];
    ghost var rejected: seq<LogEntry> := [];
    for i := 0 to |users|
      invariant SubmitPhase(users, outcomes, startSequence, i) == Phase(transactions, rejected)
      invariant sequence == startSequence + |transactions|
      invariant log.Success() == old(log.Success())
      invariant log.Failed() == old(log.Failed()) + rejected
    {
      var counter := i + 1;
      SubmitPhaseStep(users, outcomes, startSequence, i);
      var tx := SendTransaction(log, users[i], sequence, counter, outcomes(i));
      if tx.Some? {
        transactions := transactions + [tx.value];
        sequence := sequence + 1;
      } else {
        rejected := rejected + [SendAttempt(users[i], sequence, counter, outcomes(i)).entry];
      }
    }
  }

  /** User `i` either adds its transaction, with the next sequence, or its failure entry. */
  lemma SubmitPhaseStep(users: seq<User>, outcomes: nat -> SubmitOutcome, start: int, i: nat)
    requires i < |users|
    ensures var p := SubmitPhase(users, outcomes, start, i);
      var a := SendAttempt(users[i], start + |p.transactions|, i + 1, outcomes(i));
      SubmitPhase(users, outcomes, start, i + 1)
        == if a.Sent? then Phase(p.transactions + [a.tx], p.rejected) else Phase(p.transactions, p.rejected + [a.entry])
  {
  }

  /** The second loop of `send`: poll every submitted transaction, in submission order, logging each once. */
  method SettleAll(log: Log, transactions: seq<Tx>, poll: nat -> nat -> PollReply)
    modifies log
    ensures log.Success() == old(log.Success()) + Routed(SettleWrites(transactions, poll), true)
    ensures log.Failed() == old(log.Failed()) + Routed(SettleWrites(transactions, poll), false)
  {
    for j := 0 to |transactions|
      invariant log.Success() == old(log.Success()) + Routed(SettleWrites(transactions[..j], poll), true)
      invariant log.Failed() == old(log.Failed()) + Routed(SettleWrites(transactions[..j], poll), false)
    {
      Settle(log, transactions[j], poll);
      SettledPrefix(transactions, j, poll, true);
      SettledPrefix(transactions, j, poll, false);
    }
    assert transactions[..|transactions|] == transactions;
  }

  /** `fetchTransactionResult(client, tx)`: one settlement write, routed to its store. */
  method Settle(log: Log, tx: Tx, poll: nat -> nat -> PollReply)
    modifies log
    ensures log.Success() == old(log.Success()) + Routed([SettleWrite(tx, poll)], true)
    ensures log.Failed() == old(log.Failed()) + Routed([SettleWrite(tx, poll)], false)
  {
    var _ := FetchTransactionResult(log, tx.hash, tx.counter, tx.user.account, tx.user.amount,
                                    poll(tx.counter), 0, PollRetries);
  }

  /** Settling one more transaction appends its write to the store it is routed to. */
  lemma SettledPrefix(transactions: seq<Tx>, j: nat, poll: nat -> nat -> PollReply, success: bool)
    requires j < |transactions|
    ensures Routed(SettleWrites(transactions[..j + 1], poll), success)
         == Routed(SettleWrites(transactions[..j], poll), success) + Routed([SettleWrite(transactions[j], poll)], success)
  {
    assert SettleWrites(transactions[..j + 1], poll) == SettleWrites(transactions[..j], poll) + [SettleWrite(transactions[j], poll)];
    RoutedAppend(SettleWrites(transactions[..j], poll), [SettleWrite(transactions[j], poll)], success);
  }

  /**
   * Every user of the list ends up with exactly one new log entry: its
   * submission failure, or the settlement of its submitted transaction.
   */
  lemma EachUserLoggedOnce(users: seq<User>, startSequence: int,
                           outcomes: nat -> SubmitOutcome, poll: nat -> nat -> PollReply)
    ensures var p := SubmitPhase(users, outcomes, startSequence, |users|);
      |p.rejected| + |Routed(SettleWrites(p.transactions, poll), true)|
                   + |Routed(SettleWrites(p.transactions, poll), false)| == |users|
  {
    var p := SubmitPhase(users, outcomes, startSequence, |users|);
    RoutedSplit(SettleWrites(p.transactions, poll));
  }

  /**
   * What the success store gains holds only `tesSUCCESS` results, and each of its
   * entries is the settlement of one submitted transaction.
   */
  lemma SuccessStoreHoldsSettledSuccesses(transactions: seq<Tx>, poll: nat -> nat -> PollReply)
    ensures forall e :: e in Routed(SettleWrites(transactions, poll), true) ==>
      e.transactionResult == TesSuccess &&
      exists j :: 0 <= j < |transactions| && e.counter == transactions[j].counter && e.onChain == Explorer(transactions[j].hash)
  {
    var ws := SettleWrites(transactions, poll);
    RoutedMembers(ws, true);
    forall e | e in Routed(ws, true)
      ensures e.transactionResult == TesSuccess
      ensures exists j :: 0 <= j < |transactions| && e.counter == transactions[j].counter && e.onChain == Explorer(transactions[j].hash)
    {
      var j :| 0 <= j < |ws| && ws[j] == Write(e, true);
      var t := transactions[j];
      SettlementWriteRouting(t.counter, t.user.account, t.user.amount, t.hash, Poll(poll(t.counter), 0, PollRetries).last);
    }
  }

  /**
   * Three users of which the second is invalid: the first and third are
   * submitted with sequences `N` and `N + 1` (not `N + 2`), and the second only
   * produces a failure entry, `ERROR` with `onChain` `'N/A'`.
   */
  lemma InvalidJobDoesNotConsumeSequence(n: int, u1: User, u2: User, u3: User, h1: string, h3: string,
                                         outcomes: nat -> SubmitOutcome)
    requires ValidUser(u1) && !ValidUser(u2) && ValidUser(u3)
    requires outcomes(0) == Submitted(h1) && outcomes(2) == Submitted(h3)
    ensures SubmitPhase([u1, u2, u3], outcomes, n, 3) ==
      Phase([Tx(h1, u1, 1, n), Tx(h3, u3, 3, n + 1)],
            [LogEntry(2, u2.account, u2.amount, ErrorResult, NotApplicable, None, Some(InvalidUserMessage))])
  {
    var users := [u1, u2, u3];
    var e2 := LogEntry(2, u2.account, u2.amount, ErrorResult, NotApplicable, None, Some(InvalidUserMessage));
    assert SubmitPhase(users, outcomes, n, 0) == Phase([], []);
    assert SendAttempt(u1, n, 1, outcomes(0)) == Sent(Tx(h1, u1, 1, n));
    assert SubmitPhase(users, outcomes, n, 1) == Phase([Tx(h1, u1, 1, n)], []);
    assert SendAttempt(u2, n + 1, 2, outcomes(1)) == Rejected(e2);
    assert SubmitPhase(users, outcomes, n, 2) == Phase([Tx(h1, u1, 1, n)], [e2]);
    assert SendAttempt(u3, n + 1, 3, outcomes(2)) == Sent(Tx(h3, u3, 3, n + 1));
  }
}
