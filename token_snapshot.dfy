/**
 * The token snapshot of `index.js`: page through the hold issuer's trust
 * lines, keep the holders of the hold currency, check that each holder has a
 * trust line for the airdropped token, classify each holder by the first tier
 * whose balance range contains its holding, split the holders into three
 * snapshots, and hand the ready ones to the dispatcher as `{ account, amount }`
 * jobs unless the run is in test mode.
 */
module TokenSnapshot {
  import opened Wrappers
  import opened Lists
  import opened Tiers
  import opened TxLog
  import Dispatch

  // ---------------------------------------------------------------------------
  // Holders from the issuer's trust lines
  // ---------------------------------------------------------------------------

  /** One entry of an `account_lines` page of the hold issuer: the peer, the currency and the signed balance. */
  datatype TrustLine = TrustLine(account: string, currency: string, balance: real)

  /** The reply to one page request: its lines and the `marker` of the next page, or a raised error. */
  datatype PageReply = Page(lines: seq<TrustLine>, marker: Option<string>) | PageFailed(message: string)

  /** `{ account, balance }` with the balance taken as an absolute value. */
  datatype Holder = Holder(account: string, balance: real)

  /** A marker is truthy, so another page is requested and the marker is sent with it: present and not empty. */
  predicate Continues(marker: Option<string>) {
    marker.Some? && marker.value != ""
  }

  /** The reply that ends the `do … while (marker)` loop: an error, or a page without a truthy marker. */
  predicate Final(reply: PageReply) {
    reply.PageFailed? || !Continues(reply.marker)
  }

  /** Some reply from request `k` on ends the loop; the ledger's line list is finite. */
  predicate EndsFrom(replies: seq<PageReply>, k: nat) {
    exists j :: k <= j < |replies| && Final(replies[j])
  }

  /** The filter of one page: the hold currency, not an ignored wallet, a non-zero balance. */
  predicate Keep(line: TrustLine, holdCurrency: string, ignoreWallets: seq<string>) {
    line.currency == holdCurrency && line.account !in ignoreWallets && line.balance != 0.0
  }

  function Abs(x: real): (r: real)
    ensures r >= 0.0 && (r == x || r == -x)
  {
    if x < 0.0 then -x else x
  }

  /** The map of one page: `{ account, balance: Math.abs(balance) }`. */
  function ToHolder(line: TrustLine): Holder {
    Holder(line.account, Abs(line.balance))
  }

  /** The holders one page contributes, in page order. */
  function PageHolders(lines: seq<TrustLine>, holdCurrency: string, ignoreWallets: seq<string>): (r: seq<Holder>)
    ensures |r| <= |lines|
    ensures forall i :: 0 <= i < |r| ==> r[i].balance > 0.0 && r[i].account !in ignoreWallets
  {
    if lines == [] then []
    else (if Keep(lines[0], holdCurrency, ignoreWallets) then [ToHolder(lines[0])] else [])
         + PageHolders(lines[1..], holdCurrency, ignoreWallets)
  }

  /** A page contributes exactly the kept lines, as holders. */
  lemma {:induction false} PageHoldersMembers(lines: seq<TrustLine>, holdCurrency: string, ignoreWallets: seq<string>)
    ensures forall h :: h in PageHolders(lines, holdCurrency, ignoreWallets) <==>
      exists line :: line in lines && Keep(line, holdCurrency, ignoreWallets) && h == ToHolder(line)
  {
    if lines != [] {
      PageHoldersMembers(lines[1..], holdCurrency, ignoreWallets);
      assert lines == [lines[0]] + lines[1..];
    }
  }

  /** Index of the reply that ends the loop started at request `k`. */
  function LastPage(replies: seq<PageReply>, k: nat): (j: nat)
    requires EndsFrom(replies, k)
    ensures k <= j < |replies| && Final(replies[j])
    ensures forall i :: k <= i < j ==> !Final(replies[i])
    decreases |replies| - k
  {
    if Final(replies[k]) then k else LastPage(replies, k + 1)
  }

  /**
   * The holders collected from request `k` on: `None` when a request raises
   * (the snapshot is abandoned), otherwise the concatenated page holders.
   */
  function Paginate(replies: seq<PageReply>, k: nat, holdCurrency: string, ignoreWallets: seq<string>): (r: Option<seq<Holder>>)
    requires EndsFrom(replies, k)
    ensures r.None? <==> replies[LastPage(replies, k)].PageFailed?
    ensures r.Some? ==> forall i :: 0 <= i < |r.value| ==> r.value[i].balance > 0.0 && r.value[i].account !in ignoreWallets
    decreases |replies| - k
  {
    match replies[k]
    case PageFailed(_) => None
    case Page(lines, marker) =>
      var hs := PageHolders(lines, holdCurrency, ignoreWallets);
      if !Continues(marker) then Some(hs)
      else Prepend(hs, Paginate(replies, k + 1, holdCurrency, ignoreWallets))
  }

  function Prepend(hs: seq<Holder>, rest: Option<seq<Holder>>): (r: Option<seq<Holder>>)
    ensures r.Some? <==> rest.Some?
  {
    match rest
    case None => None
    case Some(t) => Some(hs + t)
  }

  /**
   * A collected holder is exactly a kept line of one of the pages the loop
   * requested, mapped to its absolute balance.
   */
  lemma {:induction false} PaginateMembers(replies: seq<PageReply>, k: nat, holdCurrency: string, ignoreWallets: seq<string>)
    requires EndsFrom(replies, k)
    ensures var r := Paginate(replies, k, holdCurrency, ignoreWallets);
      r.Some? ==> forall h :: h in r.value <==>
        exists i, line :: k <= i <= LastPage(replies, k) && line in replies[i].lines
                          && Keep(line, holdCurrency, ignoreWallets) && h == ToHolder(line)
    decreases |replies| - k
  {
    var r := Paginate(replies, k, holdCurrency, ignoreWallets);
    if r.Some? {
      var lines := replies[k].lines;
      var kept := PageHolders(lines, holdCurrency, ignoreWallets);
      var last := LastPage(replies, k);
      PageHoldersMembers(lines, holdCurrency, ignoreWallets);
      var rest: seq<Holder> := [];
      if Continues(replies[k].marker) {
        PaginateMembers(replies, k + 1, holdCurrency, ignoreWallets);
        rest := Paginate(replies, k + 1, holdCurrency, ignoreWallets).value;
        assert last == LastPage(replies, k + 1);
      } else {
        assert last == k;
      }
      assert r.value == kept + rest;
      forall h | h in r.value
        ensures exists i, line :: k <= i <= last && line in replies[i].lines
                                  && Keep(line, holdCurrency, ignoreWallets) && h == ToHolder(line)
      {
        if h in kept {
          var line :| line in lines && Keep(line, holdCurrency, ignoreWallets) && h == ToHolder(line);
          assert k <= k <= last && line in replies[k].lines;
        } else {
          assert h in rest;
        }
      }
      forall h, i, line | k <= i <= last && line in replies[i].lines && Keep(line, holdCurrency, ignoreWallets) && h == ToHolder(line)
        ensures h in r.value
      {
        if i == k {
          assert h in kept;
        } else {
          assert h in rest;
        }
      }
    }
  }

  lemma PrependAssoc(a: seq<Holder>, b: seq<Holder>, rest: Option<seq<Holder>>)
    ensures Prepend(a, Prepend(b, rest)) == Prepend(a + b, rest)
    ensures Prepend([], rest) == rest
  {
    if rest.Some? {
      assert a + (b + rest.value) == (a + b) + rest.value;
      assert [] + rest.value == rest.value;
    }
  }

  /** The marker sent with a request: `if (marker) requestBody.marker = marker`. */
  function Attached(marker: Option<string>): Option<string> {
    if Continues(marker) then marker else None
  }

  /**
   * The pagination loop of `generateSnapshot`. Request `k` is answered by
   * `replies[k]`; `sent[k]` is the marker it carried. The first request
   * carries none and each later one the marker of the reply before it.
   */
  method CollectHolders(replies: seq<PageReply>, holdCurrency: string, ignoreWallets: seq<string>)
    returns (holders: Option<seq<Holder>>, sent: seq<Option<string>>)
    requires EndsFrom(replies, 0)
    ensures holders == Paginate(replies, 0, holdCurrency, ignoreWallets)
    ensures |sent| == LastPage(replies, 0) + 1
    ensures sent[0] == None
    ensures forall i :: 0 < i < |sent| ==> sent[i] == replies[i - 1].marker
  {
    var all: seq<Holder> := [];
    var marker: Option<string> := None;
    var k := 0;
    sent := [];
    PrependAssoc([], [], Paginate(replies, 0, holdCurrency, ignoreWallets));
    while true
      invariant EndsFrom(replies, k) && LastPage(replies, k) == LastPage(replies, 0)
      invariant Paginate(replies, 0, holdCurrency, ignoreWallets) == Prepend(all, Paginate(replies, k, holdCurrency, ignoreWallets))
      invariant |sent| == k
      invariant k == 0 ==> marker.None?
      invariant k > 0 ==> marker == replies[k - 1].marker && Continues(marker)
      invariant forall i :: 0 < i < k ==> sent[i] == replies[i - 1].marker
      invariant k > 0 ==> sent[0] == None
      decreases |replies| - k
    {
      sent := sent + [Attached(marker)];
      match replies[k] {
        case PageFailed(_) =>
          return None, sent;
        case Page(lines, next) =>
          var kept := PageHolders(lines, holdCurrency, ignoreWallets);
          ghost var before := all;
          all := all + kept;
          marker := next;
          if !Continues(marker) {
            return Some(all), sent;
          }
          PrependAssoc(before, kept, Paginate(replies, k + 1, holdCurrency, ignoreWallets));
          k := k + 1;
      }
    }
  }

  /**
   * Two pages, the first continued by marker `"m1"`: a zero balance and a
   * line of another currency are dropped, a negative balance is kept as its
   * absolute value, and the pages are concatenated in order.
   */
  lemma TwoPagesExample()
    ensures var replies := [
              Page([TrustLine("rA", "NTG", 50.0), TrustLine("rB", "NTG", 0.0),
                    TrustLine("rC", "NTG", -30.0), TrustLine("rE", "USD", 5.0)], Some("m1")),
              Page([TrustLine("rD", "NTG", 10.0)], None)];
      EndsFrom(replies, 0) &&
      Paginate(replies, 0, "NTG", []) == Some([Holder("rA", 50.0), Holder("rC", 30.0), Holder("rD", 10.0)])
  {
    var replies := [
      Page([TrustLine("rA", "NTG", 50.0), TrustLine("rB", "NTG", 0.0),
            TrustLine("rC", "NTG", -30.0), TrustLine("rE", "USD", 5.0)], Some("m1")),
      Page([TrustLine("rD", "NTG", 10.0)], None)];
    assert Final(replies[1]);
    var l1 := [TrustLine("rA", "NTG", 50.0), TrustLine("rB", "NTG", 0.0), TrustLine("rC", "NTG", -30.0), TrustLine("rE", "USD", 5.0)];
    var l2 := [TrustLine("rD", "NTG", 10.0)];
    assert PageHolders(l2[1..], "NTG", []) == [];
    assert PageHolders(l2, "NTG", []) == [Holder("rD", 10.0)];
    assert PageHolders(l1[3..], "NTG", []) == [];
    assert PageHolders(l1[2..], "NTG", []) == [Holder("rC", 30.0)];
    assert PageHolders(l1[1..], "NTG", []) == [Holder("rC", 30.0)];
    assert PageHolders(l1, "NTG", []) == [Holder("rA", 50.0), Holder("rC", 30.0)];
    assert Paginate(replies, 1, "NTG", []) == Some([Holder("rD", 10.0)]);
    assert Continues(Some("m1"));
    assert Paginate(replies, 0, "NTG", []) == Prepend(PageHolders(l1, "NTG", []), Some([Holder("rD", 10.0)]));
    assert [Holder("rA", 50.0), Holder("rC", 30.0)] + [Holder("rD", 10.0)] == [Holder("rA", 50.0), Holder("rC", 30.0), Holder("rD", 10.0)];
    assert Paginate(replies, 0, "NTG", []) == Some([Holder("rA", 50.0), Holder("rC", 30.0), Holder("rD", 10.0)]);
  }

  // ---------------------------------------------------------------------------
  // Trust lines of the holders
  // ---------------------------------------------------------------------------

  /** One entry of a holder's `account_lines`: the counterparty and the currency. */
  datatype PeerLine = PeerLine(account: string, currency: string)

  /** The reply to one trust-line check: the lines, a closed socket, or a failed request. */
  datatype LinesReply = Lines(lines: seq<PeerLine>) | Disconnected | RequestFailed(message: string)

  /** Retries `retryCheckTrustline` makes after its first attempt. */
  const TrustRetries: nat := 3

  /** The holder has a line for `currency` issued by `issuer`. */
  predicate HasLine(lines: seq<PeerLine>, currency: string, issuer: string) {
    exists i :: 0 <= i < |lines| && lines[i].currency == currency && lines[i].account == issuer
  }

  /**
   * `checkTrustline`: `None` when it throws (socket not open, request
   * failed), otherwise whether some line matches both currency and issuer.
   */
  method CheckTrustline(reply: LinesReply, currency: string, issuer: string) returns (r: Option<bool>)
    ensures r.Some? <==> reply.Lines?
    ensures reply.Lines? ==> r == Some(HasLine(reply.lines, currency, issuer))
  {
    match reply {
      case Disconnected => return None;
      case RequestFailed(_) => return None;
      case Lines(lines) =>
        if |lines| < 1 {
          return Some(false);
        }
        for i := 0 to |lines|
          invariant forall j :: 0 <= j < i ==> !(lines[j].currency == currency && lines[j].account == issuer)
        {
          if lines[i].currency == currency && lines[i].account == issuer {
            return Some(true);
          }
        }
        return Some(false);
    }
  }

  /** The verdict of a retried check and the number of attempts it took. */
  datatype TrustCheck = TrustCheck(hasTrustline: bool, requests: nat)

  /**
   * `retryCheckTrustline(wallet, client, retries)` as a value: attempt `k` is
   * answered by `replies(k)`; the first attempt that does not throw decides,
   * and a holder whose every attempt throws has no trust line.
   */
  function RetryTrust(replies: nat -> LinesReply, attempt: nat, retries: nat, currency: string, issuer: string): (r: TrustCheck)
    ensures 1 <= r.requests <= retries + 1
    ensures forall k :: attempt <= k < attempt + r.requests - 1 ==> !replies(k).Lines?
    ensures r.hasTrustline <==> replies(attempt + r.requests - 1).Lines?
                                && HasLine(replies(attempt + r.requests - 1).lines, currency, issuer)
    ensures !replies(attempt + r.requests - 1).Lines? ==> r.requests == retries + 1
    decreases retries
  {
    match replies(attempt)
    case Lines(lines) => TrustCheck(HasLine(lines, currency, issuer), 1)
    case _ =>
      if retries > 0 then
        var c := RetryTrust(replies, attempt + 1, retries - 1, currency, issuer);
        TrustCheck(c.hasTrustline, c.requests + 1)
      else TrustCheck(false, 1)
  }

  /** `retryCheckTrustline`: the recursion around `checkTrustline`. */
  method RetryCheckTrustline(replies: nat -> LinesReply, attempt: nat, retries: nat, currency: string, issuer: string)
    returns (hasTrustline: bool, requests: nat)
    ensures TrustCheck(hasTrustline, requests) == RetryTrust(replies, attempt, retries, currency, issuer)
    decreases retries
  {
    var r := CheckTrustline(replies(attempt), currency, issuer);
    if r.Some? {
      return r.value, 1;
    }
    if retries > 0 {
      hasTrustline, requests := RetryCheckTrustline(replies, attempt + 1, retries - 1, currency, issuer);
      requests := requests + 1;
    } else {
      hasTrustline, requests := false, 1;
    }
  }

  /**
   * A holder after the trust-line pass. `readyForDrop` here is the provisional
   * flag the pass sets against the first tier's minimum; classification
   * recomputes it and never reads this one.
   */
  datatype CheckedHolder = CheckedHolder(account: string, balance: real, hasTrustline: bool, readyForDrop: bool)

  /** Holder `i` after the pass; `trust(i)` answers its attempts. */
  function Checked(h: Holder, replies: nat -> LinesReply, currency: string, issuer: string, tiers: seq<RangeTier>): CheckedHolder
    requires |tiers| > 0
  {
    var has := RetryTrust(replies, 0, TrustRetries, currency, issuer).hasTrustline;
    CheckedHolder(h.account, h.balance, has, h.balance >= tiers[0].min && has)
  }

  /**
   * The rate-limited map over the holders, taken in list order, one
   * `retryCheckTrustline` per holder; it reads `airdropAmounts[0]`, so the
   * tier table must be non-empty once there is a holder.
   */
  method CheckTrustlines(holders: seq<Holder>, trust: nat -> nat -> LinesReply, currency: string, issuer: string,
                         tiers: seq<RangeTier>)
    returns (checked: seq<CheckedHolder>)
    requires |holders| > 0 ==> |tiers| > 0
    ensures |checked| == |holders|
    ensures forall i :: 0 <= i < |holders| ==> checked[i] == Checked(holders[i], trust(i), currency, issuer, tiers)
  {
    checked := [];
    for i := 0 to |holders|
      invariant |checked| == i
      invariant forall j :: 0 <= j < i ==> checked[j] == Checked(holders[j], trust(j), currency, issuer, tiers)
    {
      var has, _ := RetryCheckTrustline(trust(i), 0, TrustRetries, currency, issuer);
      checked := checked + [CheckedHolder(holders[i].account, holders[i].balance, has, holders[i].balance >= tiers[0].min && has)];
    }
  }

  // ---------------------------------------------------------------------------
  // Classification and the three snapshots
  // ---------------------------------------------------------------------------

  /** One snapshot record. */
  datatype HolderData = HolderData(
    holderAddress: string,
    heldTokens: real,
    ignored: bool,
    hasTrustline: bool,
    readyForDrop: bool,
    isQualified: bool,
    totalAmount: real)

  /** The record of one checked holder: the first matching tier decides qualification and amount. */
  function Record(h: CheckedHolder, tiers: seq<RangeTier>, ignoreWallets: seq<string>): HolderData {
    var m := FirstMatch(tiers, h.balance);
    var amount := if m.Some? then tiers[m.value].amount else 0.0;
    HolderData(h.account, h.balance, h.account in ignoreWallets, h.hasTrustline,
               m.Some? && h.hasTrustline, m.Some?, amount)
  }

  function Records(checked: seq<CheckedHolder>, tiers: seq<RangeTier>, ignoreWallets: seq<string>): (r: seq<HolderData>)
    ensures |r| == |checked|
  {
    seq(|checked|, i requires 0 <= i < |checked| => Record(checked[i], tiers, ignoreWallets))
  }

  /** The three branches of the `forEach`: ready, else qualified, else non-qualified. */
  predicate Ready(d: HolderData) { d.readyForDrop }
  predicate QualifiedOnly(d: HolderData) { !d.readyForDrop && d.isQualified }
  predicate NonQualified(d: HolderData) { !d.readyForDrop && !d.isQualified }

  /** `qualifiedWithTrustline`, `qualifiedWithoutTrustline`, `nonQualifiedHolders`. */
  datatype Snapshot = Snapshot(withTrustline: seq<HolderData>, withoutTrustline: seq<HolderData>, nonQualified: seq<HolderData>)

  /** The `forEach` over the checked holders, pushing each record into one of the three arrays. */
  method Classify(checked: seq<CheckedHolder>, tiers: seq<RangeTier>, ignoreWallets: seq<string>) returns (s: Snapshot)
    ensures s.withTrustline == Filter(Records(checked, tiers, ignoreWallets), Ready)
    ensures s.withoutTrustline == Filter(Records(checked, tiers, ignoreWallets), QualifiedOnly)
    ensures s.nonQualified == Filter(Records(checked, tiers, ignoreWallets), NonQualified)
  {
    ghost var records := Records(checked, tiers, ignoreWallets);
    var ready, qualified, rest := [], [], [];
    for i := 0 to |checked|
      invariant ready == Filter(records[..i], Ready)
      invariant qualified == Filter(records[..i], QualifiedOnly)
      invariant rest == Filter(records[..i], NonQualified)
    {
      var h := checked[i];
      var found := Scan(tiers, h.balance);
      var isQualified, totalAmount := false, 0.0;
      if found.Some? {
        isQualified, totalAmount := true, tiers[found.value].amount;
      }
      var d := HolderData(h.account, h.balance, h.account in ignoreWallets, h.hasTrustline,
                          isQualified && h.hasTrustline, isQualified, totalAmount);
      assert d == records[i];
      assert records[..i + 1] == records[..i] + [d];
      FilterSnoc(records[..i], d, Ready);
      FilterSnoc(records[..i], d, QualifiedOnly);
      FilterSnoc(records[..i], d, NonQualified);
      if d.readyForDrop {
        ready := ready + [d];
      } else if d.isQualified {
        qualified := qualified + [d];
      } else {
        rest := rest + [d];
      }
    }
    assert records[..|checked|] == records;
    s := Snapshot(ready, qualified, rest);
  }

  /** Every holder lands in exactly one snapshot: the three together are a permutation of the records. */
  lemma SnapshotIsPartition(checked: seq<CheckedHolder>, tiers: seq<RangeTier>, ignoreWallets: seq<string>)
    ensures var rs := Records(checked, tiers, ignoreWallets);
      && multiset(Filter(rs, Ready)) + multiset(Filter(rs, QualifiedOnly)) + multiset(Filter(rs, NonQualified)) == multiset(rs)
      && |Filter(rs, Ready)| + |Filter(rs, QualifiedOnly)| + |Filter(rs, NonQualified)| == |checked|
  {
    var rs := Records(checked, tiers, ignoreWallets);
    assert forall i :: 0 <= i < |rs| ==> ExactlyOne(rs[i], Ready, QualifiedOnly, NonQualified);
    ThreeWaySplit(rs, Ready, QualifiedOnly, NonQualified);
  }

  /**
   * A record with a trust line is in the first snapshot exactly when some tier
   * contains its balance, and then its amount is that of the first such tier.
   */
  lemma ReadyMeansFirstTierAndTrustline(checked: seq<CheckedHolder>, tiers: seq<RangeTier>, ignoreWallets: seq<string>)
    ensures forall d :: d in Filter(Records(checked, tiers, ignoreWallets), Ready) <==>
      exists i :: 0 <= i < |checked| && d == Record(checked[i], tiers, ignoreWallets)
                  && checked[i].hasTrustline && FirstMatch(tiers, checked[i].balance).Some?
    ensures forall d :: d in Filter(Records(checked, tiers, ignoreWallets), Ready) ==>
      d.hasTrustline && FirstMatch(tiers, d.heldTokens).Some? && d.totalAmount == tiers[FirstMatch(tiers, d.heldTokens).value].amount
  {
    var rs := Records(checked, tiers, ignoreWallets);
    FilterMembers(rs, Ready);
    forall d | d in Filter(rs, Ready)
      ensures exists i :: 0 <= i < |checked| && d == Record(checked[i], tiers, ignoreWallets)
                          && checked[i].hasTrustline && FirstMatch(tiers, checked[i].balance).Some?
    {
      var i :| 0 <= i < |rs| && rs[i] == d;
    }
    forall i | 0 <= i < |checked| && checked[i].hasTrustline && FirstMatch(tiers, checked[i].balance).Some?
      ensures Record(checked[i], tiers, ignoreWallets) in Filter(rs, Ready)
    {
      assert rs[i] == Record(checked[i], tiers, ignoreWallets);
    }
  }

  /** The jobs handed to `send`: `{ account: holderAddress, amount: totalAmount }` in snapshot order. */
  function Jobs(ready: seq<HolderData>): (r: seq<Dispatch.User>)
    ensures |r| == |ready|
    ensures forall i :: 0 <= i < |r| ==> r[i].account == ready[i].holderAddress && r[i].amount == ready[i].totalAmount
  {
    seq(|ready|, i requires 0 <= i < |ready| => Dispatch.User(ready[i].holderAddress, ready[i].totalAmount))
  }

  /**
   * The snapshot stage as a whole: pagination, the trust-line pass and
   * classification; `None` when pagination failed or found no holder.
   */
  function SnapshotOf(replies: seq<PageReply>, trust: nat -> nat -> LinesReply, holdCurrency: string,
                      ignoreWallets: seq<string>, currency: string, issuer: string, tiers: seq<RangeTier>): Option<seq<HolderData>>
    requires EndsFrom(replies, 0)
    requires TiersCover(replies, holdCurrency, ignoreWallets, tiers)
  {
    match Paginate(replies, 0, holdCurrency, ignoreWallets)
    case None => None
    case Some(hs) =>
      if hs == [] then None
      else Some(Records(seq(|hs|, i requires 0 <= i < |hs| => Checked(hs[i], trust(i), currency, issuer, tiers)), tiers, ignoreWallets))
  }

  /** `airdropAmounts[0]` exists whenever the trust-line pass runs. */
  predicate TiersCover(replies: seq<PageReply>, holdCurrency: string, ignoreWallets: seq<string>, tiers: seq<RangeTier>)
    requires EndsFrom(replies, 0)
  {
    |tiers| > 0 || Paginate(replies, 0, holdCurrency, ignoreWallets).None? || Paginate(replies, 0, holdCurrency, ignoreWallets).value == []
  }

  /**
   * `generateSnapshot`: collect, check, classify, and unless `testMode` send
   * the ready holders their first-tier amounts. Returns the records when a
   * snapshot was written; the log changes only when jobs were sent.
   */
  method GenerateSnapshot(log: Log, replies: seq<PageReply>, trust: nat -> nat -> LinesReply, holdCurrency: string,
                          ignoreWallets: seq<string>, currency: string, issuer: string, tiers: seq<RangeTier>,
                          testMode: bool, startSequence: int,
                          outcomes: nat -> Dispatch.SubmitOutcome, poll: nat -> nat -> PollReply)
    returns (snapshot: Option<Snapshot>)
    requires EndsFrom(replies, 0)
    requires TiersCover(replies, holdCurrency, ignoreWallets, tiers)
    modifies log
    ensures snapshot.Some? <==> SnapshotOf(replies, trust, holdCurrency, ignoreWallets, currency, issuer, tiers).Some?
    ensures snapshot.Some? ==> var rs := SnapshotOf(replies, trust, holdCurrency, ignoreWallets, currency, issuer, tiers).value;
      snapshot.value == Snapshot(Filter(rs, Ready), Filter(rs, QualifiedOnly), Filter(rs, NonQualified))
    ensures snapshot.None? || testMode ==> log.Success() == old(log.Success()) && log.Failed() == old(log.Failed())
    ensures snapshot.Some? && !testMode ==>
      var jobs := Jobs(snapshot.value.withTrustline);
      var p := Dispatch.SubmitPhase(jobs, outcomes, startSequence, |jobs|);
      && log.Success() == old(log.Success()) + Routed(Dispatch.SettleWrites(p.transactions, poll), true)
      && log.Failed() == old(log.Failed()) + p.rejected + Routed(Dispatch.SettleWrites(p.transactions, poll), false)
  {
    var holders, _ := CollectHolders(replies, holdCurrency, ignoreWallets);
    if holders.None? || holders.value == [] {
      return None;
    }
    var hs := holders.value;
    var checked := CheckTrustlines(hs, trust, currency, issuer, tiers);
    assert checked == seq(|hs|, i requires 0 <= i < |hs| => Checked(hs[i], trust(i), currency, issuer, tiers));
    var s := Classify(checked, tiers, ignoreWallets);
    snapshot := Some(s);
    if !testMode {
      var _ := Dispatch.Send(log, Jobs(s.withTrustline), startSequence, outcomes, poll);
    }
  }

  /**
   * Pagination already drops the ignored wallets, so no snapshot record is
   * ever flagged `ignored`.
   */
  lemma SnapshotNeverIgnored(replies: seq<PageReply>, trust: nat -> nat -> LinesReply, holdCurrency: string,
                             ignoreWallets: seq<string>, currency: string, issuer: string, tiers: seq<RangeTier>)
    requires EndsFrom(replies, 0)
    requires TiersCover(replies, holdCurrency, ignoreWallets, tiers)
    ensures var s := SnapshotOf(replies, trust, holdCurrency, ignoreWallets, currency, issuer, tiers);
      s.Some? ==> forall i :: 0 <= i < |s.value| ==> !s.value[i].ignored && s.value[i].heldTokens > 0.0
  {
    var s := SnapshotOf(replies, trust, holdCurrency, ignoreWallets, currency, issuer, tiers);
    if s.Some? {
      var hs := Paginate(replies, 0, holdCurrency, ignoreWallets).value;
      forall i | 0 <= i < |s.value|
        ensures !s.value[i].ignored && s.value[i].heldTokens > 0.0
      {
        assert s.value[i] == Record(Checked(hs[i], trust(i), currency, issuer, tiers), tiers, ignoreWallets);
      }
    }
  }

  /** Job `u` pays holder `h`, whose trust check is answered by `replies`, its first tier's amount. */
  predicate PaysHolder(u: Dispatch.User, h: Holder, replies: nat -> LinesReply, currency: string, issuer: string,
                       tiers: seq<RangeTier>)
  {
    && u.account == h.account
    && RetryTrust(replies, 0, TrustRetries, currency, issuer).hasTrustline
    && FirstMatch(tiers, h.balance).Some?
    && u.amount == tiers[FirstMatch(tiers, h.balance).value].amount
  }

  /**
   * Every job sent pays a collected holder that has a trust line for the
   * airdropped token the amount of the first tier containing its balance.
   */
  lemma JobsPayFirstTier(replies: seq<PageReply>, trust: nat -> nat -> LinesReply, holdCurrency: string,
                         ignoreWallets: seq<string>, currency: string, issuer: string, tiers: seq<RangeTier>)
    requires EndsFrom(replies, 0)
    requires TiersCover(replies, holdCurrency, ignoreWallets, tiers)
    ensures var s := SnapshotOf(replies, trust, holdCurrency, ignoreWallets, currency, issuer, tiers);
      s.Some? ==> forall u :: u in Jobs(Filter(s.value, Ready)) ==>
        exists i :: 0 <= i < |Paginate(replies, 0, holdCurrency, ignoreWallets).value| &&
          PaysHolder(u, Paginate(replies, 0, holdCurrency, ignoreWallets).value[i], trust(i), currency, issuer, tiers)
  {
    var s := SnapshotOf(replies, trust, holdCurrency, ignoreWallets, currency, issuer, tiers);
    if s.Some? {
      var hs := Paginate(replies, 0, holdCurrency, ignoreWallets).value;
      var checked := seq(|hs|, i requires 0 <= i < |hs| => Checked(hs[i], trust(i), currency, issuer, tiers));
      var ready := Filter(s.value, Ready);
      ReadyMeansFirstTierAndTrustline(checked, tiers, ignoreWallets);
      forall u | u in Jobs(ready)
        ensures exists i :: 0 <= i < |hs| && PaysHolder(u, hs[i], trust(i), currency, issuer, tiers)
      {
        var j :| 0 <= j < |Jobs(ready)| && Jobs(ready)[j] == u;
        assert ready[j] in ready;
        var i :| 0 <= i < |checked| && ready[j] == Record(checked[i], tiers, ignoreWallets)
                 && checked[i].hasTrustline && FirstMatch(tiers, checked[i].balance).Some?;
        assert PaysHolder(u, hs[i], trust(i), currency, issuer, tiers);
      }
    }
  }

  /**
   * The converse: every collected holder that has a trust line and a tier for
   * its balance gets a job paying it the first such tier's amount.
   */
  lemma EveryTrustedTieredHolderPaid(replies: seq<PageReply>, trust: nat -> nat -> LinesReply, holdCurrency: string,
                                     ignoreWallets: seq<string>, currency: string, issuer: string, tiers: seq<RangeTier>)
    requires EndsFrom(replies, 0)
    requires TiersCover(replies, holdCurrency, ignoreWallets, tiers)
    ensures var s := SnapshotOf(replies, trust, holdCurrency, ignoreWallets, currency, issuer, tiers);
      var hs := Paginate(replies, 0, holdCurrency, ignoreWallets);
      s.Some? ==> hs.Some? && forall i ::
        (0 <= i < |hs.value| && RetryTrust(trust(i), 0, TrustRetries, currency, issuer).hasTrustline
         && FirstMatch(tiers, hs.value[i].balance).Some?) ==>
        Dispatch.User(hs.value[i].account, tiers[FirstMatch(tiers, hs.value[i].balance).value].amount) in Jobs(Filter(s.value, Ready))
  {
    var s := SnapshotOf(replies, trust, holdCurrency, ignoreWallets, currency, issuer, tiers);
    if s.Some? {
      var hs := Paginate(replies, 0, holdCurrency, ignoreWallets).value;
      var checked := seq(|hs|, i requires 0 <= i < |hs| => Checked(hs[i], trust(i), currency, issuer, tiers));
      var rs := s.value;
      assert rs == Records(checked, tiers, ignoreWallets);
      var ready := Filter(rs, Ready);
      FilterMembers(rs, Ready);
      forall i | 0 <= i < |hs| && RetryTrust(trust(i), 0, TrustRetries, currency, issuer).hasTrustline
                 && FirstMatch(tiers, hs[i].balance).Some?
        ensures Dispatch.User(hs[i].account, tiers[FirstMatch(tiers, hs[i].balance).value].amount) in Jobs(ready)
      {
        assert rs[i] == Record(checked[i], tiers, ignoreWallets);
        assert rs[i] in ready;
        var j :| 0 <= j < |ready| && ready[j] == rs[i];
        assert Jobs(ready)[j] == Dispatch.User(hs[i].account, tiers[FirstMatch(tiers, hs[i].balance).value].amount);
      }
    }
  }
}
