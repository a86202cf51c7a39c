/**
 * The NFT-trait dispatcher of `sendNFT.js`. It reads the ready holders of the
 * trait snapshot, pays each the amount of the first trait tier, in table order,
 * that one of its NFT records names, checks that the sender's balance of the
 * currency covers the whole list, submits one payment per holder with an
 * explicit sequence number (waiting for each to be validated), polls and logs
 * every submitted transaction, and finally splits the submitted transactions
 * into two summaries by the result their submission reported.
 */
module NftDispatch {
  import opened Wrappers
  import opened Lists
  import opened Tiers
  import opened TxLog
  import TokenSnapshot
  import TraitSnapshot
  import NftSnapshot
  import Dispatch

  // ---------------------------------------------------------------------------
  // The user list
  // ---------------------------------------------------------------------------

  /** `nft.trait_type === trait_type && nft.value === value`; a null trait equals no string. */
  predicate Tagged(t: TraitTier, r: TraitSnapshot.TraitRecord) {
    r.traitType == Some(t.traitType) && r.value == Some(t.value)
  }

  /** `holder.nfts.some(…)` */
  predicate Carries(t: TraitTier, nfts: seq<TraitSnapshot.TraitRecord>) {
    exists r :: r in nfts && Tagged(t, r)
  }

  /** `airdropAmounts.find(…)`: the first tier, in table order, that one of the records names. */
  function FirstTrait(tiers: seq<TraitTier>, nfts: seq<TraitSnapshot.TraitRecord>): (r: Option<TraitTier>)
    ensures r.Some? <==> exists i :: 0 <= i < |tiers| && Carries(tiers[i], nfts)
    ensures r.Some? ==> exists i :: 0 <= i < |tiers| && r.value == tiers[i] && Carries(tiers[i], nfts)
                                    && forall j :: 0 <= j < i ==> !Carries(tiers[j], nfts)
  {
    if tiers == [] then None
    else if Carries(tiers[0], nfts) then Some(tiers[0])
    else
      var r := FirstTrait(tiers[1..], nfts);
      assert forall i :: 0 < i < |tiers| ==> tiers[i] == tiers[1..][i - 1];
      r
  }

  /** A send job `{ account, amount, category }`. */
  datatype Job = Job(account: string, amount: real, category: string)

  /** `holder.readyForDrop` is truthy. */
  predicate ReadyHolder(h: TraitSnapshot.HolderRecord) {
    h.readyForDrop == Some(true)
  }

  /**
   * The job built for a holder, `None` where the source throws: a holder
   * without `nfts`, or one none of whose records names a tier (`find`
   * returns `undefined` and `.amount` throws).
   */
  function JobFor(h: TraitSnapshot.HolderRecord, tiers: seq<TraitTier>): (r: Option<Job>)
    ensures r.Some? <==> h.nfts.Some? && FirstTrait(tiers, h.nfts.value).Some?
    ensures r.Some? ==> var t := FirstTrait(tiers, h.nfts.value).value;
      r.value == Job(h.holderAddress, t.amount, t.traitType + "-" + t.value)
  {
    if h.nfts.None? then None
    else match FirstTrait(tiers, h.nfts.value)
      case None => None
      case Some(t) => Some(Job(h.holderAddress, t.amount, t.traitType + "-" + t.value))
  }

  /** The precondition of building the user list: the lookup succeeds for every ready holder. */
  predicate AllPayable(holders: seq<TraitSnapshot.HolderRecord>, tiers: seq<TraitTier>) {
    forall i :: 0 <= i < |holders| && ReadyHolder(holders[i]) ==> JobFor(holders[i], tiers).Some?
  }

  /** `snapshot.holders.filter(holder => holder.readyForDrop).map(…)` */
  function UserList(holders: seq<TraitSnapshot.HolderRecord>, tiers: seq<TraitTier>): (r: seq<Job>)
    requires AllPayable(holders, tiers)
    ensures |r| == |Filter(holders, ReadyHolder)|
  {
    if holders == [] then []
    else
      assert forall i :: 0 < i < |holders| ==> holders[i] == holders[1..][i - 1];
      var rest := UserList(holders[1..], tiers);
      if ReadyHolder(holders[0]) then [JobFor(holders[0], tiers).value] + rest else rest
  }

  /** The user list holds, in snapshot order, the job of each ready holder and nothing else. */
  lemma {:induction false} UserListJobs(holders: seq<TraitSnapshot.HolderRecord>, tiers: seq<TraitTier>)
    requires AllPayable(holders, tiers)
    ensures var r := UserList(holders, tiers);
      forall k :: 0 <= k < |r| ==> Some(r[k]) == JobFor(Filter(holders, ReadyHolder)[k], tiers)
  {
    if holders != [] {
      var t := holders[1..];
      assert forall i :: 0 < i < |holders| ==> holders[i] == t[i - 1];
      UserListJobs(t, tiers);
      var ready := Filter(holders, ReadyHolder);
      var r := UserList(holders, tiers);
      var rest := UserList(t, tiers);
      if ReadyHolder(holders[0]) {
        assert ready == [holders[0]] + Filter(t, ReadyHolder);
        assert r == [JobFor(holders[0], tiers).value] + rest;
        ConsJobs(rest, Filter(t, ReadyHolder), holders[0], tiers);
      } else {
        assert ready == Filter(t, ReadyHolder);
        assert r == rest;
      }
    }
  }

  /** Putting a payable holder's job in front of the jobs of the later ready holders keeps them aligned. */
  lemma ConsJobs(rest: seq<Job>, ready: seq<TraitSnapshot.HolderRecord>, h: TraitSnapshot.HolderRecord, tiers: seq<TraitTier>)
    requires JobFor(h, tiers).Some? && |rest| == |ready|
    requires forall k :: 0 <= k < |rest| ==> Some(rest[k]) == JobFor(ready[k], tiers)
    ensures var r := [JobFor(h, tiers).value] + rest; var rd := [h] + ready;
      forall k :: 0 <= k < |r| ==> Some(r[k]) == JobFor(rd[k], tiers)
  {
    var r := [JobFor(h, tiers).value] + rest;
    var rd := [h] + ready;
    forall k | 0 < k < |r|
      ensures Some(r[k]) == JobFor(rd[k], tiers)
    {
      assert r[k] == rest[k - 1] && rd[k] == ready[k - 1];
    }
  }

  /**
   * A ready holder is paid once, the amount of a single tier: the first one,
   * in table order, named by any of its records, whatever its snapshot total.
   */
  lemma PaysFirstNamedTier(h: TraitSnapshot.HolderRecord, tiers: seq<TraitTier>)
    requires h.nfts.Some? && JobFor(h, tiers).Some?
    ensures exists i :: (&& 0 <= i < |tiers| && Carries(tiers[i], h.nfts.value)
                         && (forall j :: 0 <= j < i ==> !Carries(tiers[j], h.nfts.value))
                         && JobFor(h, tiers).value.amount == tiers[i].amount
                         && JobFor(h, tiers).value.category == tiers[i].traitType + "-" + tiers[i].value)
  {
  }

  /**
   * One holder whose only NFT matches `Color`/`Red` (5) and `Hat`/`Top` (3):
   * its snapshot total is 8, but the job pays 5 in category `Color-Red`.
   */
  lemma PaysFirstTierNotTotal()
    ensures var tiers := [TraitTier("Color", "Red", 5.0), TraitTier("Hat", "Top", 3.0)];
      var rec := TraitSnapshot.TraitRecord("t1", "https://ipfs.io/ipfs/x", Some("Color"), Some("Red"), 8.0, tiers, true);
      var h := TraitSnapshot.HolderRecord("rA", 1, false, true, Some(true), true, 8.0, Some([rec]));
      JobFor(h, tiers) == Some(Job("rA", 5.0, "Color-Red"))
  {
    var tiers := [TraitTier("Color", "Red", 5.0), TraitTier("Hat", "Top", 3.0)];
    var rec := TraitSnapshot.TraitRecord("t1", "https://ipfs.io/ipfs/x", Some("Color"), Some("Red"), 8.0, tiers, true);
    assert Carries(tiers[0], [rec]) by { assert rec in [rec]; }
    assert FirstTrait(tiers, [rec]) == Some(tiers[0]);
    assert "Color" + "-" + "Red" == "Color-Red";
  }

  /**
   * The snapshot `indexNFTrait.js` writes never makes the lookup throw when
   * both use the same tier table: every ready record's total is positive, so
   * one of its NFT records names the first tier it matched.
   */
  lemma TraitSnapshotIsPayable(nfts: seq<TraitSnapshot.TraitNft>, metadata: string -> Option<seq<TraitSnapshot.Attr>>,
                               tiers: seq<TraitTier>, trust: string -> TokenSnapshot.LinesReply, currency: string,
                               ignoreWallets: seq<string>)
    ensures var hs := TraitSnapshot.Holders(nfts, metadata, tiers, trust, currency);
      AllPayable(TraitSnapshot.ClassifiedAll(hs, ignoreWallets), tiers)
  {
    var hs := TraitSnapshot.Holders(nfts, metadata, tiers, trust, currency);
    var rs := TraitSnapshot.ClassifiedAll(hs, ignoreWallets);
    forall i | 0 <= i < |rs| && ReadyHolder(rs[i])
      ensures JobFor(rs[i], tiers).Some?
    {
      var owner := NftSnapshot.Owners(TraitSnapshot.Base(nfts), |TraitSnapshot.Base(nfts)|)[i];
      TraitSnapshot.TallyInvariants(nfts, metadata, tiers, trust, currency, |nfts|, owner);
      var h := hs[i];
      TraitSnapshot.PositiveTotalNamesATier(h, tiers);
      var j, t :| 0 <= j < |h.nfts| && 0 <= t < |tiers|
                  && h.nfts[j].traitType == Some(tiers[t].traitType) && h.nfts[j].value == Some(tiers[t].value);
      assert h.nfts[j] in h.nfts;
      assert Carries(tiers[t], h.nfts);
    }
  }

  // ---------------------------------------------------------------------------
  // The balance check
  // ---------------------------------------------------------------------------

  /** The sender's balance: the last of its trust lines in `currency`, or 0 when it has none. */
  function LastBalance(lines: seq<TokenSnapshot.TrustLine>, currency: string): (r: real)
    ensures (forall i :: 0 <= i < |lines| ==> lines[i].currency != currency) ==> r == 0.0
    ensures (exists i :: 0 <= i < |lines| && lines[i].currency == currency) ==>
      exists i :: 0 <= i < |lines| && lines[i].currency == currency && r == lines[i].balance
                  && forall j :: i < j < |lines| ==> lines[j].currency != currency
    decreases |lines|
  {
    if lines == [] then 0.0
    else if lines[|lines| - 1].currency == currency then lines[|lines| - 1].balance
    else
      var r := LastBalance(lines[..|lines| - 1], currency);
      assert forall i :: 0 <= i < |lines| - 1 ==> lines[i] == lines[..|lines| - 1][i];
      r
  }

  /** `for (const line of lines) if (line.currency === currency) balance = parseFloat(line.balance);` */
  method SenderBalance(lines: seq<TokenSnapshot.TrustLine>, currency: string) returns (balance: real)
    ensures balance == LastBalance(lines, currency)
  {
    balance := 0.0;
    for i := 0 to |lines|
      invariant balance == LastBalance(lines[..i], currency)
    {
      assert lines[..i + 1][..i] == lines[..i];
      if lines[i].currency == currency {
        balance := lines[i].balance;
      }
    }
    assert lines[..|lines|] == lines;
  }

  /** `userList.reduce((sum, user) => sum + user.amount, 0)` */
  function TotalAmount(users: seq<Job>): real
    decreases |users|
  {
    if users == [] then 0.0 else TotalAmount(users[..|users| - 1]) + users[|users| - 1].amount
  }

  /** The total grows by each job's amount, so with non-negative amounts it bounds every one of them. */
  lemma {:induction false} TotalBoundsEachJob(users: seq<Job>)
    requires forall k :: 0 <= k < |users| ==> users[k].amount >= 0.0
    ensures TotalAmount(users) >= 0.0
    ensures forall k :: 0 <= k < |users| ==> users[k].amount <= TotalAmount(users)
    decreases |users|
  {
    if users != [] {
      var init := users[..|users| - 1];
      TotalBoundsEachJob(init);
      assert forall k :: 0 <= k < |users| - 1 ==> users[k] == init[k];
    }
  }

  // ---------------------------------------------------------------------------
  // Submission
  // ---------------------------------------------------------------------------

  /**
   * How the network treats one job: `autofill` throws, `wallet.sign` throws,
   * `submitAndWait` of the signed blob (whose hash is known) throws, or it
   * returns the validated result, whose `meta.TransactionResult` and `Fee`
   * (in drops) the summaries read.
   */
  datatype SubmitOutcome =
    | AutofillFailed(message: string)
    | SigningFailed(message: string)
    | SubmitFailed(hash: string, message: string)
    | Validated(hash: string, transactionResult: string, fee: int)

  /** `{ hash, user, counter, sequence, result }` */
  datatype NftTx = NftTx(hash: string, user: Job, counter: nat, sequence: int, transactionResult: string, fee: int)

  datatype Attempt = Sent(tx: NftTx) | Rejected(entry: LogEntry)

  /** `sendTransaction` performs no validation of the job: only a failed network step rejects it. */
  function SendAttempt(user: Job, sequence: int, counter: nat, outcome: SubmitOutcome): (r: Attempt)
    ensures r.Sent? <==> outcome.Validated?
    ensures r.Sent? ==> r.tx == NftTx(outcome.hash, user, counter, sequence, outcome.transactionResult, outcome.fee)
    ensures r.Rejected? ==> && r.entry.counter == counter
                            && r.entry.account == user.account && r.entry.amount == user.amount
                            && r.entry.transactionResult == ErrorResult
                            && r.entry.fee.None? && r.entry.error.Some?
                            && (r.entry.onChain.NotApplicable? <==> !outcome.SubmitFailed?)
  {
    match outcome
    case AutofillFailed(m) => Rejected(LogEntry(counter, user.account, user.amount, ErrorResult, NotApplicable, None, Some(m)))
    case SigningFailed(m) => Rejected(LogEntry(counter, user.account, user.amount, ErrorResult, NotApplicable, None, Some(m)))
    case SubmitFailed(h, m) => Rejected(LogEntry(counter, user.account, user.amount, ErrorResult, Explorer(h), None, Some(m)))
    case Validated(h, code, fee) => Sent(NftTx(h, user, counter, sequence, code, fee))
  }

  /**
   * `sendTransaction(client, user, sequence, counter)`: autofill, sign and
   * submit-and-wait; on any failure log one `ERROR` entry whose `onChain` is
   * `'N/A'` exactly when nothing was signed, and return null.
   */
  method SendTransaction(log: Log, user: Job, sequence: int, counter: nat, outcome: SubmitOutcome)
    returns (tx: Option<NftTx>)
    modifies log
    ensures tx.Some? <==> SendAttempt(user, sequence, counter, outcome).Sent?
    ensures tx.Some? ==> tx.value == SendAttempt(user, sequence, counter, outcome).tx
    ensures log.Success() == old(log.Success())
    ensures log.Failed() == old(log.Failed()) +
      match SendAttempt(user, sequence, counter, outcome)
      case Sent(_) => []
      case Rejected(e) => [e]
  {
    var signed: Option<string> := None;
    var error: Option<string> := None;
    match outcome {
      case AutofillFailed(m) => error := Some(m);
      case SigningFailed(m) => error := Some(m);
      case SubmitFailed(h, m) => signed := Some(h); error := Some(m);
      case Validated(h, code, fee) => return Some(NftTx(h, user, counter, sequence, code, fee));
    }
    var onChain := if signed.Some? then Explorer(signed.value) else NotApplicable;
    log.LogTransaction(LogEntry(counter, user.account, user.amount, ErrorResult, onChain, None, error), false);
    tx := None;
  }

  datatype Phase = Phase(transactions: seq<NftTx>, rejected: seq<LogEntry>)

  /**
   * The submission loop over `users[..k]`: user `i` gets `counter = i + 1` and
   * the current sequence, which advances only past a validated transaction.
   */
  function SubmitPhase(users: seq<Job>, outcomes: nat -> SubmitOutcome, start: int, k: nat): (r: Phase)
    requires k <= |users|
    ensures |r.transactions| + |r.rejected| == k
    decreases k
  {
    if k == 0 then Phase([], [])
    else
      var p := SubmitPhase(users, outcomes, start, k - 1);
      match SendAttempt(users[k - 1], start + |p.transactions|, k, outcomes(k - 1))
      case Sent(t) => Phase(p.transactions + [t], p.rejected)
      case Rejected(e) => Phase(p.transactions, p.rejected + [e])
  }

  /**
   * Transactions with gapless sequences from `start` and increasing counters in
   * `1..k`, each that of the job it pays.
   */
  predicate Shaped(txs: seq<NftTx>, users: seq<Job>, start: int, k: nat) {
    && (forall j :: 0 <= j < |txs| ==> txs[j].sequence == start + j)
    && (forall j :: 0 <= j < |txs| ==> 1 <= txs[j].counter <= k && txs[j].counter <= |users| && txs[j].user == users[txs[j].counter - 1])
    && (forall i, j :: 0 <= i < j < |txs| ==> txs[i].counter < txs[j].counter)
  }

  /** The transactions of the loop over `users[..k]` are shaped so. */
  lemma {:induction false} SubmitPhaseShape(users: seq<Job>, outcomes: nat -> SubmitOutcome, start: int, k: nat)
    requires k <= |users|
    ensures Shaped(SubmitPhase(users, outcomes, start, k).transactions, users, start, k)
    decreases k
  {
    if k > 0 {
      SubmitPhaseShape(users, outcomes, start, k - 1);
      SubmitPhaseStep(users, outcomes, start, k - 1);
      var p := SubmitPhase(users, outcomes, start, k - 1).transactions;
      var a := SendAttempt(users[k - 1], start + |p|, k, outcomes(k - 1));
      var txs := SubmitPhase(users, outcomes, start, k).transactions;
      if a.Sent? {
        assert txs == p + [a.tx];
        ShapedSnoc(p, a.tx, users, start, k);
      } else {
        assert txs == p;
        ShapedWeaken(p, users, start, k);
      }
    }
  }

  lemma ShapedSnoc(txs: seq<NftTx>, t: NftTx, users: seq<Job>, start: int, k: nat)
    requires 0 < k <= |users| && Shaped(txs, users, start, k - 1)
    requires t.sequence == start + |txs| && t.counter == k && t.user == users[k - 1]
    ensures Shaped(txs + [t], users, start, k)
  {
    var all := txs + [t];
    forall j | 0 <= j < |all|
      ensures all[j].sequence == start + j && 1 <= all[j].counter <= k && all[j].user == users[all[j].counter - 1]
    {
      if j < |txs| {
        assert all[j] == txs[j];
      }
    }
    forall i, j | 0 <= i < j < |all|
      ensures all[i].counter < all[j].counter
    {
      assert all[i] == txs[i];
      if j < |txs| {
        assert all[j] == txs[j];
      }
    }
  }

  lemma ShapedWeaken(txs: seq<NftTx>, users: seq<Job>, start: int, k: nat)
    requires 0 < k && Shaped(txs, users, start, k - 1)
    ensures Shaped(txs, users, start, k)
  {
  }

  /** The first loop of `send`. */
  method SubmitAll(log: Log, users: seq<Job>, startSequence: int, outcomes: nat -> SubmitOutcome)
    returns (transactions: seq<NftTx>)
    modifies log
    ensures transactions == SubmitPhase(users, outcomes, startSequence, |users|).transactions
    ensures log.Success() == old(log.Success())
    ensures log.Failed() == old(log.Failed()) + SubmitPhase(users, outcomes, startSequence, |users|).rejected
  {
    var sequence := startSequence;
    transactions := [];
    ghost var rejected: seq<LogEntry> := [];
    for i := 0 to |users|
      invariant SubmitPhase(users, outcomes, startSequence, i) == Phase(transactions, rejected)
      invariant sequence == startSequence + |transactions|
      invariant log.Success() == old(log.Success())
      invariant log.Failed() == old(log.Failed()) + rejected
    {
      var counter := i + 1;
      SubmitPhaseStep(users, outcomes, startSequence, i);
      var tx := SendTransaction(log, users[i], sequence, counter, outcomes(i));
      if tx.Some? {
        transactions := transactions + [tx.value];
        sequence := sequence + 1;
      } else {
        rejected := rejected + [SendAttempt(users[i], sequence, counter, outcomes(i)).entry];
      }
    }
  }

  /** User `i` either adds its transaction, with the next sequence, or its failure entry. */
  lemma SubmitPhaseStep(users: seq<Job>, outcomes: nat -> SubmitOutcome, start: int, i: nat)
    requires i < |users|
    ensures var p := SubmitPhase(users, outcomes, start, i);
      var a := SendAttempt(users[i], start + |p.transactions|, i + 1, outcomes(i));
      SubmitPhase(users, outcomes, start, i + 1)
        == if a.Sent? then Phase(p.transactions + [a.tx], p.rejected) else Phase(p.transactions, p.rejected + [a.entry])
  {
  }

  // ---------------------------------------------------------------------------
  // Settlement and the summaries
  // ---------------------------------------------------------------------------

  /** The fields `fetchTransactionResult` reads: hash, counter, `user.account`, `user.amount`. */
  function Settling(tx: NftTx): Dispatch.Tx {
    Dispatch.Tx(tx.hash, Dispatch.User(tx.user.account, tx.user.amount), tx.counter, tx.sequence)
  }

  function SettlingAll(txs: seq<NftTx>): (r: seq<Dispatch.Tx>)
    ensures |r| == |txs|
  {
    seq(|txs|, j requires 0 <= j < |txs| => Settling(txs[j]))
  }

  /** One record of `successfulTransactions.json` or `failedTransactions.json`; the fee is in drops. */
  datatype SummaryEntry = SummaryEntry(category: string, account: string, amount: real, transactionResult: string,
                                       onChain: OnChain, fee: int)

  function SummaryOf(tx: NftTx): SummaryEntry {
    SummaryEntry(tx.user.category, tx.user.account, tx.user.amount, tx.transactionResult, Explorer(tx.hash), tx.fee)
  }

  function Summaries(txs: seq<NftTx>): (r: seq<SummaryEntry>)
    ensures |r| == |txs|
  {
    seq(|txs|, j requires 0 <= j < |txs| => SummaryOf(txs[j]))
  }

  /** `tx.result.result.meta.TransactionResult === 'tesSUCCESS'`: the submission's own result, not the poll's. */
  predicate Succeeded(tx: NftTx) { tx.transactionResult == TesSuccess }
  predicate NotSucceeded(tx: NftTx) { !Succeeded(tx) }

  datatype SendResult =
    | RequestFailed
    | InsufficientBalance(available: real, required: real)
    | Completed(transactions: seq<NftTx>, successful: seq<SummaryEntry>, failed: seq<SummaryEntry>)

  /**
   * `send()` of `sendNFT.js`. `holders` is the snapshot file's `holders`;
   * `sequence` and `lines` are the replies to `account_info` and
   * `account_lines` for the sender (`None` when the request throws, which the
   * outer `catch` reports and nothing else happens); `outcomes(i)` is how the
   * network treats job `i`, and `poll(counter)` answers the settlement requests
   * of the transaction with that counter.
   */
  method Send(log: Log, holders: seq<TraitSnapshot.HolderRecord>, tiers: seq<TraitTier>, currency: string,
              sequence: Option<int>, lines: Option<seq<TokenSnapshot.TrustLine>>,
              outcomes: nat -> SubmitOutcome, poll: nat -> nat -> PollReply)
    returns (result: SendResult)
    requires AllPayable(holders, tiers)
    modifies log
    ensures var users := UserList(holders, tiers);
      match result
      case RequestFailed =>
        (sequence.None? || lines.None?) && log.Success() == old(log.Success()) && log.Failed() == old(log.Failed())
      case InsufficientBalance(available, required) =>
        && sequence.Some? && lines.Some?
        && available == LastBalance(lines.value, currency) && required == TotalAmount(users) && available < required
        && log.Success() == old(log.Success()) && log.Failed() == old(log.Failed())
      case Completed(txs, successful, failed) =>
        && sequence.Some? && lines.Some? && LastBalance(lines.value, currency) >= TotalAmount(users)
        && txs == SubmitPhase(users, outcomes, sequence.value, |users|).transactions
        && successful == Summaries(Filter(txs, Succeeded))
        && failed == Summaries(Filter(txs, NotSucceeded))
        && log.Success() == old(log.Success()) + Routed(Dispatch.SettleWrites(SettlingAll(txs), poll), true)
        && log.Failed() == old(log.Failed()) + SubmitPhase(users, outcomes, sequence.value, |users|).rejected
                                             + Routed(Dispatch.SettleWrites(SettlingAll(txs), poll), false)
  {
    var userList := UserList(holders, tiers);
    if sequence.None? || lines.None? {
      return RequestFailed;
    }
    var balance := SenderBalance(lines.value, currency);
    var totalAirdropAmount := TotalAmount(userList);
    if balance < totalAirdropAmount {
      return InsufficientBalance(balance, totalAirdropAmount);
    }
    var transactions := SubmitAll(log, userList, sequence.value, outcomes);
    Dispatch.SettleAll(log, SettlingAll(transactions), poll);
    var successfulTransactions := Filter(transactions, Succeeded);
    var failedTransactions := Filter(transactions, NotSucceeded);
    result := Completed(transactions, Summaries(successfulTransactions), Summaries(failedTransactions));
  }

  /**
   * The two summaries split the submitted transactions: each lands in exactly
   * one, the successful one holds only `tesSUCCESS` results and the failed one
   * none; every job either was submitted or left one entry in the failure store.
   */
  lemma SummariesSplitTransactions(users: seq<Job>, outcomes: nat -> SubmitOutcome, start: int)
    ensures var p := SubmitPhase(users, outcomes, start, |users|);
      && |Filter(p.transactions, Succeeded)| + |Filter(p.transactions, NotSucceeded)| + |p.rejected| == |users|
      && multiset(Filter(p.transactions, Succeeded)) + multiset(Filter(p.transactions, NotSucceeded)) == multiset(p.transactions)
      && (forall e :: e in Summaries(Filter(p.transactions, Succeeded)) ==> e.transactionResult == TesSuccess)
      && (forall e :: e in Summaries(Filter(p.transactions, NotSucceeded)) ==> e.transactionResult != TesSuccess)
  {
    var txs := SubmitPhase(users, outcomes, start, |users|).transactions;
    TwoWayCount(txs, Succeeded, NotSucceeded);
    TwoWaySplit(txs, Succeeded, NotSucceeded);
    SummariesOfFilter(txs, Succeeded);
    SummariesOfFilter(txs, NotSucceeded);
  }

  /** A summary entry of a filtered list is the summary of one of its transactions, which passed the filter. */
  lemma SummariesOfFilter(txs: seq<NftTx>, p: NftTx -> bool)
    ensures forall e :: e in Summaries(Filter(txs, p)) ==> exists t :: t in txs && p(t) && e == SummaryOf(t)
  {
    var f := Filter(txs, p);
    FilterMembers(txs, p);
    forall e | e in Summaries(f)
      ensures exists t :: t in txs && p(t) && e == SummaryOf(t)
    {
      var j :| 0 <= j < |f| && Summaries(f)[j] == e;
      assert f[j] in f;
    }
  }

  /**
   * Transactions are submitted with consecutive sequence numbers from the
   * account's, in the order of the user list, each paying its own job.
   */
  lemma SubmittedInListOrder(users: seq<Job>, outcomes: nat -> SubmitOutcome, start: int)
    ensures var txs := SubmitPhase(users, outcomes, start, |users|).transactions;
      && (forall j :: 0 <= j < |txs| ==>
            txs[j].sequence == start + j && 1 <= txs[j].counter <= |users| && txs[j].user == users[txs[j].counter - 1])
      && (forall i, j :: 0 <= i < j < |txs| ==> txs[i].counter < txs[j].counter)
      && AllValidated(txs, outcomes)
  {
    SubmitPhaseShape(users, outcomes, start, |users|);
    SubmittedValidated(users, outcomes, start, |users|);
  }

  /** Every transaction in `txs` was validated on submission. */
  predicate AllValidated(txs: seq<NftTx>, outcomes: nat -> SubmitOutcome) {
    forall j :: 0 <= j < |txs| && txs[j].counter >= 1 ==> outcomes(txs[j].counter - 1).Validated?
  }

  lemma {:induction false} SubmittedValidated(users: seq<Job>, outcomes: nat -> SubmitOutcome, start: int, k: nat)
    requires k <= |users|
    ensures AllValidated(SubmitPhase(users, outcomes, start, k).transactions, outcomes)
    decreases k
  {
    if k > 0 {
      SubmittedValidated(users, outcomes, start, k - 1);
      SubmitPhaseStep(users, outcomes, start, k - 1);
      var p := SubmitPhase(users, outcomes, start, k - 1);
      var a := SendAttempt(users[k - 1], start + |p.transactions|, k, outcomes(k - 1));
      if a.Sent? {
        ValidatedSnoc(p.transactions, a.tx, outcomes);
      }
    }
  }

  lemma ValidatedSnoc(txs: seq<NftTx>, t: NftTx, outcomes: nat -> SubmitOutcome)
    requires AllValidated(txs, outcomes) && (t.counter >= 1 ==> outcomes(t.counter - 1).Validated?)
    ensures AllValidated(txs + [t], outcomes)
  {
    var all := txs + [t];
    forall j | 0 <= j < |all| && all[j].counter >= 1
      ensures outcomes(all[j].counter - 1).Validated?
    {
      if j < |txs| {
        assert all[j] == txs[j];
      }
    }
  }
}
