/**
 * The category-list airdrop of `index2.js`. The airdrop list file maps each
 * category key to a list of addresses; every address of a category is paid
 * the amount of the first `airdropAmounts` entry whose category equals the
 * key. In test mode only a snapshot of those payments is written. Otherwise a
 * module-level counter numbers the payments across all categories, each is
 * submitted with an autofilled sequence, and once all are submitted each is
 * polled and logged. A failed submission ends the run: its `catch` refers to
 * `signed`, which is declared inside the `try`, so it throws a `ReferenceError`
 * before logging anything, and nothing is polled.
 */
module CategoryAirdrop {
  import opened Wrappers
  import opened TxLog
  import Dispatch

  // ---------------------------------------------------------------------------
  // Categories and amounts
  // ---------------------------------------------------------------------------

  /** One key of the airdrop list file and its addresses; keys come in `for…in` order. */
  datatype Category = Category(name: string, addresses: seq<string>)

  /** `{ category, amount }` of `airdropAmounts`, its category already `toString()`-ed. */
  datatype CategoryTier = CategoryTier(category: string, amount: real)

  /** `airdropAmounts.find(a => a.category.toString() === category)?.amount` */
  function AmountFor(amounts: seq<CategoryTier>, category: string): Option<real> {
    if amounts == [] then None
    else if amounts[0].category == category then Some(amounts[0].amount)
    else AmountFor(amounts[1..], category)
  }

  /** The lookup finds nothing exactly when no tier names the category, and otherwise the first tier naming it. */
  lemma {:induction false} AmountForIsFirstMatch(amounts: seq<CategoryTier>, category: string)
    ensures AmountFor(amounts, category).None? <==> forall i :: 0 <= i < |amounts| ==> amounts[i].category != category
    ensures AmountFor(amounts, category).Some? ==>
      exists i :: (&& 0 <= i < |amounts| && amounts[i].category == category
                   && AmountFor(amounts, category).value == amounts[i].amount
                   && forall j :: 0 <= j < i ==> amounts[j].category != category)
  {
    if amounts != [] && amounts[0].category != category {
      AmountForIsFirstMatch(amounts[1..], category);
      assert forall i :: 0 < i < |amounts| ==> amounts[i] == amounts[1..][i - 1];
      if AmountFor(amounts, category).Some? {
        var i :| (&& 0 <= i < |amounts[1..]| && amounts[1..][i].category == category
                  && AmountFor(amounts, category).value == amounts[1..][i].amount
                  && forall j :: 0 <= j < i ==> amounts[1..][j].category != category);
        assert amounts[i + 1] == amounts[1..][i];
        assert forall j :: 0 <= j < i + 1 ==> amounts[j].category != category by {
          forall j | 0 <= j < i + 1 ensures amounts[j].category != category {
            if j > 0 { assert amounts[j] == amounts[1..][j - 1]; }
          }
        }
      }
    }
  }

  /** Every key has an amount; otherwise `find` returns `undefined` and `.amount` throws. */
  predicate AllPriced(db: seq<Category>, amounts: seq<CategoryTier>) {
    forall c :: 0 <= c < |db| ==> AmountFor(amounts, db[c].name).Some?
  }

  /** One payment: an address, the category it is listed under, and the category's amount. */
  datatype Job = Job(account: string, category: string, amount: real)

  function CategoryJobs(c: Category, amount: real): (r: seq<Job>)
    ensures |r| == |c.addresses|
  {
    seq(|c.addresses|, j requires 0 <= j < |c.addresses| => Job(c.addresses[j], c.name, amount))
  }

  /** The payments in key order, then address order. */
  function Jobs(db: seq<Category>, amounts: seq<CategoryTier>): seq<Job>
    requires AllPriced(db, amounts)
    decreases |db|
  {
    if db == [] then []
    else
      var init := db[..|db| - 1];
      assert forall c :: 0 <= c < |init| ==> init[c] == db[c];
      var last := db[|db| - 1];
      Jobs(init, amounts) + CategoryJobs(last, AmountFor(amounts, last.name).value)
  }

  function TotalAddresses(db: seq<Category>): nat
    decreases |db|
  {
    if db == [] then 0 else TotalAddresses(db[..|db| - 1]) + |db[|db| - 1].addresses|
  }

  /**
   * One payment per listed address, and each payment pays an address listed
   * under its category the amount of the first tier naming that category.
   */
  lemma {:induction false} JobsAreListedAndPriced(db: seq<Category>, amounts: seq<CategoryTier>)
    requires AllPriced(db, amounts)
    ensures |Jobs(db, amounts)| == TotalAddresses(db)
    ensures forall j :: j in Jobs(db, amounts) ==>
      Some(j.amount) == AmountFor(amounts, j.category) &&
      exists c :: 0 <= c < |db| && db[c].name == j.category && j.account in db[c].addresses
    decreases |db|
  {
    if db != [] {
      var init := db[..|db| - 1];
      var last := db[|db| - 1];
      assert forall c :: 0 <= c < |init| ==> init[c] == db[c];
      JobsAreListedAndPriced(init, amounts);
      var cj := CategoryJobs(last, AmountFor(amounts, last.name).value);
      forall j | j in cj
        ensures Some(j.amount) == AmountFor(amounts, j.category)
        ensures exists c :: 0 <= c < |db| && db[c].name == j.category && j.account in db[c].addresses
      {
        var k :| 0 <= k < |cj| && cj[k] == j;
        assert j == Job(last.addresses[k], last.name, AmountFor(amounts, last.name).value);
        assert db[|db| - 1] == last;
      }
    }
  }

  /** The converse: every address listed under a key gets a payment of that key's amount. */
  lemma {:induction false} EveryListedAddressPaid(db: seq<Category>, amounts: seq<CategoryTier>)
    requires AllPriced(db, amounts)
    ensures forall c, a :: 0 <= c < |db| && a in db[c].addresses ==>
      Job(a, db[c].name, AmountFor(amounts, db[c].name).value) in Jobs(db, amounts)
    decreases |db|
  {
    if db != [] {
      var init := db[..|db| - 1];
      var last := db[|db| - 1];
      assert forall c :: 0 <= c < |init| ==> init[c] == db[c];
      EveryListedAddressPaid(init, amounts);
      var cj := CategoryJobs(last, AmountFor(amounts, last.name).value);
      assert Jobs(db, amounts) == Jobs(init, amounts) + cj;
      forall c, a | 0 <= c < |db| && a in db[c].addresses
        ensures Job(a, db[c].name, AmountFor(amounts, db[c].name).value) in Jobs(db, amounts)
      {
        if c < |init| {
          assert db[c] == init[c];
        } else {
          var k :| 0 <= k < |last.addresses| && last.addresses[k] == a;
          assert cj[k] == Job(a, db[c].name, AmountFor(amounts, db[c].name).value);
        }
      }
    }
  }

  lemma JobsStep(db: seq<Category>, amounts: seq<CategoryTier>, c: nat)
    requires AllPriced(db, amounts) && c < |db|
    ensures AllPriced(db[..c], amounts) && AllPriced(db[..c + 1], amounts)
    ensures Jobs(db[..c + 1], amounts) == Jobs(db[..c], amounts) + CategoryJobs(db[c], AmountFor(amounts, db[c].name).value)
  {
    assert db[..c + 1][..c] == db[..c];
  }

  // ---------------------------------------------------------------------------
  // Test mode
  // ---------------------------------------------------------------------------

  const Ticker := "NTg5ODU="
  const BithompPrefix := "https://bithomp.com/en/account/"

  /** One entry of `snapshot_index2.json`. */
  datatype SnapshotEntry = SnapshotEntry(account: string, category: string, amount: real, currency: string,
                                         ticker: string, bithompLink: string)

  function EntryOf(j: Job, currency: string): SnapshotEntry {
    SnapshotEntry(j.account, j.category, j.amount, currency, Ticker, BithompPrefix + j.account)
  }

  function SnapshotOf(jobs: seq<Job>, currency: string): (r: seq<SnapshotEntry>)
    ensures |r| == |jobs|
  {
    seq(|jobs|, k requires 0 <= k < |jobs| => EntryOf(jobs[k], currency))
  }

  /**
   * The test-mode loops: one snapshot entry per address, in key order and then
   * address order, carrying its category's amount.
   */
  method TestSnapshot(db: seq<Category>, amounts: seq<CategoryTier>, currency: string)
    returns (snapshot: seq<SnapshotEntry>)
    requires AllPriced(db, amounts)
    ensures snapshot == SnapshotOf(Jobs(db, amounts), currency)
    ensures |snapshot| == TotalAddresses(db)
  {
    snapshot := [];
    for c := 0 to |db|
      invariant AllPriced(db[..c], amounts)
      invariant snapshot == SnapshotOf(Jobs(db[..c], amounts), currency)
    {
      var category := db[c].name;
      var addresses := db[c].addresses;
      var amount := AmountFor(amounts, category).value;
      JobsStep(db, amounts, c);
      ghost var done := Jobs(db[..c], amounts);
      ghost var cj := CategoryJobs(db[c], amount);
      for j := 0 to |addresses|
        invariant snapshot == SnapshotOf(done + cj[..j], currency)
      {
        var account := addresses[j];
        assert cj[j] == Job(account, category, amount);
        assert done + cj[..j + 1] == (done + cj[..j]) + [cj[j]];
        snapshot := snapshot + [SnapshotEntry(account, category, amount, currency, Ticker, BithompPrefix + account)];
      }
      assert cj[..|addresses|] == cj;
    }
    assert db[..|db|] == db;
    JobsAreListedAndPriced(db, amounts);
  }

  // ---------------------------------------------------------------------------
  // Dispatch
  // ---------------------------------------------------------------------------

  /** How the network treats the payment numbered `counter`: submitted with a known hash, or a thrown error. */
  datatype SubmitOutcome = Submitted(hash: string) | Threw(message: string)

  /** `{ hash, holder, counter }` */
  datatype Tx = Tx(hash: string, holder: Dispatch.User, counter: nat)

  /** How the submission loop stands: still running with the submitted transactions, or stopped by the payment `at`. */
  datatype Progress = Running(transactions: seq<Tx>) | Stopped(at: nat, transactions: seq<Tx>)

  /**
   * The submission loop over `jobs` with the counter starting from `base`:
   * payment `i` gets counter `base + i + 1`; the first one that throws stops
   * the run, and the ones before it have been submitted.
   */
  function Dispatched(jobs: seq<Job>, outcomes: nat -> SubmitOutcome, base: nat): Progress
    decreases |jobs|
  {
    if jobs == [] then Running([])
    else
      var last := jobs[|jobs| - 1];
      var counter := base + |jobs|;
      match Dispatched(jobs[..|jobs| - 1], outcomes, base)
      case Stopped(at, txs) => Stopped(at, txs)
      case Running(txs) =>
        match outcomes(counter)
        case Submitted(h) => Running(txs + [Tx(h, Dispatch.User(last.account, last.amount), counter)])
        case Threw(_) => Stopped(counter, txs)
  }

  /** Payment `i` of those handed to the loop is submitted. */
  predicate SubmittedAt(outcomes: nat -> SubmitOutcome, base: nat, i: nat) {
    outcomes(base + i + 1).Submitted?
  }

  /**
   * The loop runs to the end exactly when every submission succeeds; it stops
   * at the first payment that throws; and the `i`-th submitted transaction
   * carries counter `base + i + 1` and the `i`-th payment.
   */
  lemma {:induction false} DispatchNumbering(jobs: seq<Job>, outcomes: nat -> SubmitOutcome, base: nat)
    ensures Dispatched(jobs, outcomes, base).Running? <==> forall i: nat :: i < |jobs| ==> SubmittedAt(outcomes, base, i)
    ensures Dispatched(jobs, outcomes, base).Running? ==> |Dispatched(jobs, outcomes, base).transactions| == |jobs|
    ensures Dispatched(jobs, outcomes, base).Stopped? ==>
      var at := Dispatched(jobs, outcomes, base).at;
      && base < at <= base + |jobs| && outcomes(at).Threw?
      && |Dispatched(jobs, outcomes, base).transactions| == at - base - 1
      && forall i: nat :: i < at - base - 1 ==> SubmittedAt(outcomes, base, i)
    ensures var txs := Dispatched(jobs, outcomes, base).transactions;
      forall i :: 0 <= i < |txs| ==>
        && txs[i].counter == base + i + 1 && outcomes(txs[i].counter) == Submitted(txs[i].hash)
        && txs[i].holder == Dispatch.User(jobs[i].account, jobs[i].amount)
    decreases |jobs|
  {
    if jobs != [] {
      var init := jobs[..|jobs| - 1];
      DispatchNumbering(init, outcomes, base);
      assert forall i :: 0 <= i < |init| ==> init[i] == jobs[i];
      if Dispatched(init, outcomes, base).Stopped? {
        assert !SubmittedAt(outcomes, base, Dispatched(init, outcomes, base).at - base - 1);
      } else if outcomes(base + |jobs|).Threw? {
        assert !SubmittedAt(outcomes, base, |jobs| - 1);
      }
    }
  }

  /** One more payment on a running loop: submitted and collected, or the run stops at it. */
  lemma DispatchStep(prefix: seq<Job>, job: Job, outcomes: nat -> SubmitOutcome, base: nat)
    requires Dispatched(prefix, outcomes, base).Running?
    ensures var txs := Dispatched(prefix, outcomes, base).transactions;
      var counter := base + |prefix| + 1;
      Dispatched(prefix + [job], outcomes, base) ==
        match outcomes(counter)
        case Submitted(h) => Running(txs + [Tx(h, Dispatch.User(job.account, job.amount), counter)])
        case Threw(_) => Stopped(counter, txs)
  {
    assert (prefix + [job])[..|prefix|] == prefix;
  }

  /**
   * One address of a category: a submitted payment appends its transaction,
   * numbered by the next counter; a throw stops the run there, which then
   * stays stopped through the rest of the category.
   */
  lemma CategoryStep(done: seq<Job>, c: Category, amount: real, j: nat, outcomes: nat -> SubmitOutcome, base: nat)
    requires j < |c.addresses| && Dispatched(done + CategoryJobs(c, amount)[..j], outcomes, base).Running?
    ensures var cj := CategoryJobs(c, amount);
      var txs := Dispatched(done + cj[..j], outcomes, base).transactions;
      var counter := base + |done| + j + 1;
      && (outcomes(counter).Submitted? ==>
            Dispatched(done + cj[..j + 1], outcomes, base)
              == Running(txs + [Tx(outcomes(counter).hash, Dispatch.User(c.addresses[j], amount), counter)]))
      && (outcomes(counter).Threw? ==> Dispatched(done + cj, outcomes, base) == Stopped(counter, txs))
  {
    var cj := CategoryJobs(c, amount);
    var next := done + cj[..j + 1];
    assert next == (done + cj[..j]) + [Job(c.addresses[j], c.name, amount)];
    DispatchStep(done + cj[..j], Job(c.addresses[j], c.name, amount), outcomes, base);
    if outcomes(base + |done| + j + 1).Threw? {
      assert done + cj == next + cj[j + 1..];
      StoppedStaysStopped(next, cj[j + 1..], outcomes, base);
    }
  }

  /** A stopped run stays stopped: later payments are never attempted. */
  lemma {:induction false} StoppedStaysStopped(a: seq<Job>, b: seq<Job>, outcomes: nat -> SubmitOutcome, base: nat)
    requires Dispatched(a, outcomes, base).Stopped?
    ensures Dispatched(a + b, outcomes, base) == Dispatched(a, outcomes, base)
    decreases |b|
  {
    if b != [] {
      var b' := b[..|b| - 1];
      StoppedStaysStopped(a, b', outcomes, base);
      assert (a + b)[..|a + b| - 1] == a + b';
    } else {
      assert a + b == a;
    }
  }

  /** The dispatch loop's result. */
  datatype RunResult =
    | ReadFailed
    | Snapshotted(entries: seq<SnapshotEntry>)
    | Crashed(at: nat, submitted: seq<Tx>)
    | Completed(transactions: seq<Tx>)

  function SettleWrite(tx: Tx, poll: nat -> nat -> PollReply): Write {
    SettlementWrite(tx.counter, tx.holder.account, tx.holder.amount, tx.hash, Poll(poll(tx.counter), 0, PollRetries).last)
  }

  function SettleWrites(txs: seq<Tx>, poll: nat -> nat -> PollReply): (ws: seq<Write>)
    ensures |ws| == |txs|
  {
    seq(|txs|, j requires 0 <= j < |txs| => SettleWrite(txs[j], poll))
  }

  /** Each polled transaction adds exactly one entry to one of the two stores. */
  lemma EachTransactionLoggedOnce(txs: seq<Tx>, poll: nat -> nat -> PollReply)
    ensures |Routed(SettleWrites(txs, poll), true)| + |Routed(SettleWrites(txs, poll), false)| == |txs|
  {
    RoutedSplit(SettleWrites(txs, poll));
  }

  /** The module-level state of `index2.js`: the payment counter. */
  class Airdrop {
    var counter: nat

    constructor ()
      ensures counter == 0
    {
      counter := 0;
    }

    /**
     * `main()`: `database` is the parsed list file (`None` when it cannot be
     * read); `outcomes(counter)` is how the network treats the payment with
     * that counter, and `poll(counter)` answers its settlement requests.
     */
    method Run(log: Log, database: Option<seq<Category>>, amounts: seq<CategoryTier>, currency: string,
               testMode: bool, outcomes: nat -> SubmitOutcome, poll: nat -> nat -> PollReply)
      returns (result: RunResult)
      requires database.Some? ==> AllPriced(database.value, amounts)
      modifies this, log
      ensures database.None? ==> result == ReadFailed && counter == old(counter)
      ensures database.Some? && testMode ==>
        result == Snapshotted(SnapshotOf(Jobs(database.value, amounts), currency)) && counter == old(counter)
      ensures database.Some? && !testMode ==>
        match Dispatched(Jobs(database.value, amounts), outcomes, old(counter))
        case Stopped(at, txs) =>
          result == Crashed(at, txs) && counter == at
          && log.Success() == old(log.Success()) && log.Failed() == old(log.Failed())
        case Running(txs) =>
          && result == Completed(txs) && counter == old(counter) + |txs|
          && log.Success() == old(log.Success()) + Routed(SettleWrites(txs, poll), true)
          && log.Failed() == old(log.Failed()) + Routed(SettleWrites(txs, poll), false)
      ensures database.None? || testMode ==> log.Success() == old(log.Success()) && log.Failed() == old(log.Failed())
    {
      if database.None? {
        return ReadFailed;
      }
      var db := database.value;
      if testMode {
        var snapshot := TestSnapshot(db, amounts, currency);
        return Snapshotted(snapshot);
      }
      var transactions, crashed := Submit(db, amounts, outcomes);
      if crashed {
        return Crashed(counter, transactions);
      }
      SettleAll(log, transactions, poll);
      result := Completed(transactions);
    }

    /**
     * The nested `for…in` / `for…of` loop: `counter++` per address, then
     * `sendTransaction`; `crashed` when a submission threw and stopped the run.
     */
    method Submit(db: seq<Category>, amounts: seq<CategoryTier>, outcomes: nat -> SubmitOutcome)
      returns (transactions: seq<Tx>, crashed: bool)
      requires AllPriced(db, amounts)
      modifies this
      ensures match Dispatched(Jobs(db, amounts), outcomes, old(counter))
        case Stopped(at, txs) => crashed && transactions == txs && counter == at
        case Running(txs) => !crashed && transactions == txs && counter == old(counter) + |txs|
    {
      ghost var base := counter;
      ghost var jobs := Jobs(db, amounts);
      var txs: seq<Tx> := [];
      for c := 0 to |db|
        invariant AllPriced(db[..c], amounts)
        invariant Dispatched(Jobs(db[..c], amounts), outcomes, base) == Running(txs)
        invariant counter == base + |Jobs(db[..c], amounts)|
      {
        var amount := AmountFor(amounts, db[c].name).value;
        JobsStep(db, amounts, c);
        var stopped;
        txs, stopped := SubmitCategory(db[c], amount, Jobs(db[..c], amounts), base, outcomes, txs);
        if stopped {
          CrashIsFinal(db, amounts, c, outcomes, base);
          return txs, true;
        }
      }
      assert db[..|db|] == db;
      DispatchNumbering(jobs, outcomes, base);
      transactions, crashed := txs, false;
    }

    /** The inner `for…of` loop over the addresses of one category, after the payments `done`. */
    method SubmitCategory(category: Category, amount: real, ghost done: seq<Job>, ghost base: nat,
                          outcomes: nat -> SubmitOutcome, txs: seq<Tx>)
      returns (transactions: seq<Tx>, crashed: bool)
      requires Dispatched(done, outcomes, base) == Running(txs)
      requires counter == base + |done|
      modifies this
      ensures crashed ==> Dispatched(done + CategoryJobs(category, amount), outcomes, base) == Stopped(counter, transactions)
      ensures !crashed ==> Dispatched(done + CategoryJobs(category, amount), outcomes, base) == Running(transactions)
      ensures !crashed ==> counter == base + |done| + |category.addresses|
    {
      ghost var cj := CategoryJobs(category, amount);
      assert done + cj[..0] == done;
      transactions := txs;
      for j := 0 to |category.addresses|
        invariant Dispatched(done + cj[..j], outcomes, base) == Running(transactions)
        invariant counter == base + |done| + j
      {
        var stopped;
        transactions, stopped := SubmitAddress(category, amount, done, base, outcomes, transactions, j);
        if stopped {
          return transactions, true;
        }
      }
      assert cj[..|category.addresses|] == cj;
      crashed := false;
    }

    /** One address: `counter++`, then `sendTransaction`, which either submits the payment or throws. */
    method SubmitAddress(category: Category, amount: real, ghost done: seq<Job>, ghost base: nat,
                         outcomes: nat -> SubmitOutcome, txs: seq<Tx>, j: nat)
      returns (transactions: seq<Tx>, stopped: bool)
      requires j < |category.addresses|
      requires Dispatched(done + CategoryJobs(category, amount)[..j], outcomes, base) == Running(txs)
      requires counter == base + |done| + j
      modifies this
      ensures counter == base + |done| + j + 1
      ensures stopped ==> transactions == txs
      ensures stopped ==> Dispatched(done + CategoryJobs(category, amount), outcomes, base) == Stopped(counter, txs)
      ensures !stopped ==> Dispatched(done + CategoryJobs(category, amount)[..j + 1], outcomes, base) == Running(transactions)
    {
      var account := category.addresses[j];
      counter := counter + 1;
      var holder := Dispatch.User(account, amount);
      CategoryStep(done, category, amount, j, outcomes, base);
      var outcome := outcomes(counter);
      if outcome.Threw? {
        return txs, true;
      }
      transactions, stopped := txs + [Tx(outcome.hash, holder, counter)], false;
    }

    /** The polling loop: `fetchTransactionResult` for every submitted transaction, in submission order. */
    method SettleAll(log: Log, transactions: seq<Tx>, poll: nat -> nat -> PollReply)
      modifies log
      ensures log.Success() == old(log.Success()) + Routed(SettleWrites(transactions, poll), true)
      ensures log.Failed() == old(log.Failed()) + Routed(SettleWrites(transactions, poll), false)
    {
      for j := 0 to |transactions|
        invariant log.Success() == old(log.Success()) + Routed(SettleWrites(transactions[..j], poll), true)
        invariant log.Failed() == old(log.Failed()) + Routed(SettleWrites(transactions[..j], poll), false)
      {
        Settle(log, transactions[j], poll);
        SettledPrefix(transactions, j, poll, true);
        SettledPrefix(transactions, j, poll, false);
      }
      assert transactions[..|transactions|] == transactions;
    }
  }

  /** `fetchTransactionResult(client, tx)`: one settlement write, routed to its store. */
  method Settle(log: Log, tx: Tx, poll: nat -> nat -> PollReply)
    modifies log
    ensures log.Success() == old(log.Success()) + Routed([SettleWrite(tx, poll)], true)
    ensures log.Failed() == old(log.Failed()) + Routed([SettleWrite(tx, poll)], false)
  {
    var _ := FetchTransactionResult(log, tx.hash, tx.counter, tx.holder.account, tx.holder.amount,
                                    poll(tx.counter), 0, PollRetries);
  }

  /** Settling one more transaction appends its write to the store it is routed to. */
  lemma SettledPrefix(transactions: seq<Tx>, j: nat, poll: nat -> nat -> PollReply, success: bool)
    requires j < |transactions|
    ensures Routed(SettleWrites(transactions[..j + 1], poll), success)
         == Routed(SettleWrites(transactions[..j], poll), success) + Routed([SettleWrite(transactions[j], poll)], success)
  {
    assert SettleWrites(transactions[..j + 1], poll) == SettleWrites(transactions[..j], poll) + [SettleWrite(transactions[j], poll)];
    RoutedAppend(SettleWrites(transactions[..j], poll), [SettleWrite(transactions[j], poll)], success);
  }

  /** A run stopped within category `c` stops nowhere else. */
  lemma CrashIsFinal(db: seq<Category>, amounts: seq<CategoryTier>, c: nat, outcomes: nat -> SubmitOutcome, base: nat)
    requires AllPriced(db, amounts) && c < |db| && AllPriced(db[..c + 1], amounts)
    requires Dispatched(Jobs(db[..c + 1], amounts), outcomes, base).Stopped?
    ensures Dispatched(Jobs(db, amounts), outcomes, base) == Dispatched(Jobs(db[..c + 1], amounts), outcomes, base)
  {
    assert db[..c + 1] + db[c + 1..] == db;
    JobsAppend(db[..c + 1], db[c + 1..], amounts);
    StoppedStaysStopped(Jobs(db[..c + 1], amounts), Jobs(db[c + 1..], amounts), outcomes, base);
  }

  lemma {:induction false} JobsAppend(a: seq<Category>, b: seq<Category>, amounts: seq<CategoryTier>)
    requires AllPriced(a + b, amounts)
    ensures AllPriced(a, amounts) && AllPriced(b, amounts)
    ensures Jobs(a + b, amounts) == Jobs(a, amounts) + Jobs(b, amounts)
    decreases |b|
  {
    if b == [] {
      assert a + b == a;
    } else {
      var b', last := b[..|b| - 1], b[|b| - 1];
      assert b == b' + [last];
      assert a + b == (a + b') + [last];
      JobsSnoc(a + b', last, amounts);
      JobsAppend(a, b', amounts);
      assert (a + b)[|a + b| - 1] == last;
      assert AllPriced(b' + [last], amounts) by {
        forall c | 0 <= c < |b' + [last]| ensures AmountFor(amounts, (b' + [last])[c].name).Some? {
          if c < |b'| { assert (b' + [last])[c] == b'[c]; }
        }
      }
      JobsSnoc(b', last, amounts);
    }
  }

  /** Appending one category appends its payments. */
  lemma JobsSnoc(db: seq<Category>, last: Category, amounts: seq<CategoryTier>)
    requires AllPriced(db + [last], amounts)
    ensures AllPriced(db, amounts) && AmountFor(amounts, last.name).Some?
    ensures Jobs(db + [last], amounts) == Jobs(db, amounts) + CategoryJobs(last, AmountFor(amounts, last.name).value)
  {
    var d := db + [last];
    assert d[..|d| - 1] == db;
    assert d[|d| - 1] == last;
    assert forall c :: 0 <= c < |db| ==> db[c] == d[c];
  }
}
