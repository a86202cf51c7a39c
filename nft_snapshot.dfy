/**
 * The NFT-holder snapshot of `indexNFT.js`: walk the collection's NFTs once,
 * keep one record per owner with its NFTs and its listed / listed-above /
 * listed-under / unlisted counters, classify each owner by the first count
 * tier containing its qualifying count (unlisted NFTs plus those listed at or
 * above the price floor), split the owners into three snapshots with
 * per-category summaries, and, unless in test mode, pay the ready owners by
 * the tier of their total NFT count.
 */
module NftSnapshot {
  import opened Wrappers
  import opened Lists
  import opened Tiers
  import TokenSnapshot
  import TxLog

  /** One NFT of the collection: its `NFTokenID` and its `Owner`. */
  datatype Nft = Nft(tokenId: string, owner: string)

  // ---------------------------------------------------------------------------
  // Sell offers
  // ---------------------------------------------------------------------------

  /**
   * The reply to one `nft_sell_offers` request: the offers' amounts in drops
   * (possibly none), the `objectNotFound` error, or any other error.
   */
  datatype OfferReply = Offers(amounts: seq<int>) | ObjectNotFound | OfferFailed(message: string)

  /** Retries `isNftListedForSale` makes after its first request. */
  const ListingRetries: nat := 3

  /** `{ listed, price }` and the number of requests it took. */
  datatype Listing = Listing(listed: bool, price: int, requests: nat)

  /**
   * `isNftListedForSale(client, nftId, retries)`: listed at the first offer's
   * amount when there is an offer; not listed, without retrying, when there is
   * none or the ledger has no offer object; other errors are retried and, once
   * the retries are spent, read as not listed.
   */
  function IsNftListedForSale(replies: nat -> OfferReply, attempt: nat, retries: nat): (r: Listing)
    ensures 1 <= r.requests <= retries + 1
    ensures forall k :: attempt <= k < attempt + r.requests - 1 ==> replies(k).OfferFailed?
    ensures var last := replies(attempt + r.requests - 1);
      && (r.listed <==> last.Offers? && |last.amounts| > 0)
      && (r.listed ==> r.price == last.amounts[0])
      && (!r.listed ==> r.price == 0)
      && (last.OfferFailed? ==> r.requests == retries + 1)
    decreases retries
  {
    match replies(attempt)
    case Offers(amounts) =>
      if |amounts| > 0 then Listing(true, amounts[0], 1) else Listing(false, 0, 1)
    case ObjectNotFound => Listing(false, 0, 1)
    case OfferFailed(_) =>
      if retries > 0 then
        var l := IsNftListedForSale(replies, attempt + 1, retries - 1);
        Listing(l.listed, l.price, l.requests + 1)
      else Listing(false, 0, 1)
  }

  /** `price / 1000000 >= listedAbove`: the price in XRP reaches the configured floor. */
  predicate AtOrAboveFloor(price: int, listedAbove: real) {
    (price as real) / 1000000.0 >= listedAbove
  }

  // ---------------------------------------------------------------------------
  // Per-owner aggregation
  // ---------------------------------------------------------------------------

  /** The record pushed for one NFT; `listedPrice` is kept in drops. */
  datatype NftRecord = NftRecord(tokenId: string, isListed: bool, listedPrice: Option<int>,
                                 listedAbove: bool, qualified: bool)

  /** A record as the loop builds it: listed-above implies listed, and qualified means unlisted or listed above. */
  predicate WellFormed(r: NftRecord) {
    && (r.listedAbove ==> r.isListed)
    && (r.qualified <==> !r.isListed || r.listedAbove)
    && (r.listedPrice.Some? <==> r.isListed)
  }

  function RecordFor(n: Nft, l: Listing, listedAbove: real): (r: NftRecord)
    ensures WellFormed(r)
    ensures r.listedAbove <==> l.listed && AtOrAboveFloor(l.price, listedAbove)
  {
    var above := l.listed && AtOrAboveFloor(l.price, listedAbove);
    NftRecord(n.tokenId, l.listed, if l.listed then Some(l.price) else None, above, !l.listed || above)
  }

  /** The record of NFT `i`; `offers(i)` answers its sell-offer requests. */
  function RecordAt(nfts: seq<Nft>, i: nat, offers: nat -> nat -> OfferReply, listedAbove: real): NftRecord
    requires i < |nfts|
  {
    RecordFor(nfts[i], IsNftListedForSale(offers(i), 0, ListingRetries), listedAbove)
  }

  /** `holders[owner]`: the counters are counts over its records. */
  datatype NftHolder = NftHolder(
    wallet: string,
    totalNFTs: nat,
    totalListed: nat,
    totalListedUnder: nat,
    totalListedAbove: nat,
    totalUnlisted: nat,
    nfts: seq<NftRecord>,
    hasTrustline: bool)

  predicate Listed(r: NftRecord) { r.isListed }
  predicate ListedAbove(r: NftRecord) { r.isListed && r.listedAbove }
  predicate ListedUnder(r: NftRecord) { r.isListed && !r.listedAbove }
  predicate Unlisted(r: NftRecord) { !r.isListed }
  predicate Qualified(r: NftRecord) { r.qualified }

  /** The holder an owner's records add up to. */
  function HolderOf(owner: string, rs: seq<NftRecord>, hasTrustline: bool): NftHolder {
    NftHolder(owner, |rs|, |Filter(rs, Listed)|, |Filter(rs, ListedUnder)|, |Filter(rs, ListedAbove)|,
              |Filter(rs, Unlisted)|, rs, hasTrustline)
  }

  /** The distinct owners of `nfts[..k]` in order of first appearance: the keys of `holders`, in insertion order. */
  function Owners(nfts: seq<Nft>, k: nat): (r: seq<string>)
    requires k <= |nfts|
    ensures forall o :: o in r <==> exists i :: 0 <= i < k && nfts[i].owner == o
    ensures forall i, j :: 0 <= i < j < |r| ==> r[i] != r[j]
    decreases k
  {
    if k == 0 then []
    else
      var p := Owners(nfts, k - 1);
      if nfts[k - 1].owner in p then p else p + [nfts[k - 1].owner]
  }

  /** The records of the NFTs of `nfts[..k]` that `owner` holds, in collection order. */
  function RecordsOf(nfts: seq<Nft>, offers: nat -> nat -> OfferReply, listedAbove: real, k: nat, owner: string): (rs: seq<NftRecord>)
    requires k <= |nfts|
    ensures forall j :: 0 <= j < |rs| ==> WellFormed(rs[j])
    decreases k
  {
    if k == 0 then []
    else
      var p := RecordsOf(nfts, offers, listedAbove, k - 1, owner);
      if nfts[k - 1].owner == owner then p + [RecordAt(nfts, k - 1, offers, listedAbove)] else p
  }

  /** `nft.Owner === owner` */
  function OwnedBy(owner: string): Nft -> bool {
    (n: Nft) => n.owner == owner
  }

  /** `checkTrustline` of `indexNFT.js`: some line of the holder has the airdropped currency; any error reads as none. */
  predicate CurrencyTrustline(reply: TokenSnapshot.LinesReply, currency: string) {
    reply.Lines? && exists i :: 0 <= i < |reply.lines| && reply.lines[i].currency == currency
  }

  /** `checkTrustline`: compares `currency` only, and returns `false` on any error. */
  method CheckTrustline(reply: TokenSnapshot.LinesReply, currency: string) returns (hasTrustline: bool)
    ensures hasTrustline <==> CurrencyTrustline(reply, currency)
  {
    if !reply.Lines? {
      return false;
    }
    var lines := reply.lines;
    if |lines| < 1 {
      return false;
    }
    for i := 0 to |lines|
      invariant forall j :: 0 <= j < i ==> lines[j].currency != currency
    {
      if lines[i].currency == currency {
        return true;
      }
    }
    return false;
  }

  /** The owner records of the whole walk, in `Object.values(holders)` order. */
  function Holders(nfts: seq<Nft>, offers: nat -> nat -> OfferReply, trust: string -> TokenSnapshot.LinesReply,
                   currency: string, listedAbove: real): (r: seq<NftHolder>)
    ensures |r| == |Owners(nfts, |nfts|)|
  {
    var owners := Owners(nfts, |nfts|);
    seq(|owners|, j requires 0 <= j < |owners| =>
      HolderOf(owners[j], RecordsOf(nfts, offers, listedAbove, |nfts|, owners[j]), CurrencyTrustline(trust(owners[j]), currency)))
  }

  lemma RecordsOfStep(nfts: seq<Nft>, offers: nat -> nat -> OfferReply, listedAbove: real, i: nat)
    requires i < |nfts|
    ensures forall o :: (RecordsOf(nfts, offers, listedAbove, i + 1, o) ==
                         if nfts[i].owner == o then RecordsOf(nfts, offers, listedAbove, i, o) + [RecordAt(nfts, i, offers, listedAbove)]
                         else RecordsOf(nfts, offers, listedAbove, i, o))
  {
  }

  lemma RecordsOfUnseen(nfts: seq<Nft>, offers: nat -> nat -> OfferReply, listedAbove: real, k: nat, owner: string)
    requires k <= |nfts| && owner !in Owners(nfts, k)
    ensures RecordsOf(nfts, offers, listedAbove, k, owner) == []
    decreases k
  {
    if k > 0 {
      RecordsOfUnseen(nfts, offers, listedAbove, k - 1, owner);
    }
  }

  /** The counters after pushing one more record: what the loop's `+= 1` statements do. */
  lemma HolderOfSnoc(owner: string, rs: seq<NftRecord>, r: NftRecord, hasTrustline: bool)
    ensures var h := HolderOf(owner, rs, hasTrustline);
      HolderOf(owner, rs + [r], hasTrustline) == h.(
        totalNFTs := h.totalNFTs + 1,
        nfts := h.nfts + [r],
        totalListed := h.totalListed + (if r.isListed then 1 else 0),
        totalListedAbove := h.totalListedAbove + (if r.isListed && r.listedAbove then 1 else 0),
        totalListedUnder := h.totalListedUnder + (if r.isListed && !r.listedAbove then 1 else 0),
        totalUnlisted := h.totalUnlisted + (if r.isListed then 0 else 1))
  {
    FilterSnoc(rs, r, Listed);
    FilterSnoc(rs, r, ListedAbove);
    FilterSnoc(rs, r, ListedUnder);
    FilterSnoc(rs, r, Unlisted);
  }

  /** One iteration's update of its owner's record: `totalNFTs += 1`, the pushed record, and the listing counters. */
  method CountNft(h: NftHolder, n: Nft, l: Listing, listedAbove: real) returns (h': NftHolder)
    ensures var r := RecordFor(n, l, listedAbove);
      h' == h.(
        totalNFTs := h.totalNFTs + 1,
        nfts := h.nfts + [r],
        totalListed := h.totalListed + (if r.isListed then 1 else 0),
        totalListedAbove := h.totalListedAbove + (if r.isListed && r.listedAbove then 1 else 0),
        totalListedUnder := h.totalListedUnder + (if r.isListed && !r.listedAbove then 1 else 0),
        totalUnlisted := h.totalUnlisted + (if r.isListed then 0 else 1))
  {
    h' := h.(totalNFTs := h.totalNFTs + 1);
    var above := l.listed && AtOrAboveFloor(l.price, listedAbove);
    h' := h'.(nfts := h'.nfts + [NftRecord(n.tokenId, l.listed, if l.listed then Some(l.price) else None, above, !l.listed || above)]);
    if l.listed {
      h' := h'.(totalListed := h'.totalListed + 1);
      if above {
        h' := h'.(totalListedAbove := h'.totalListedAbove + 1);
      } else {
        h' := h'.(totalListedUnder := h'.totalListedUnder + 1);
      }
    } else {
      h' := h'.(totalUnlisted := h'.totalUnlisted + 1);
    }
  }

  /**
   * The `for (const n of nfts)` loop of `generateSnapshot`: the first NFT of an
   * owner checks its trust line once and creates its record, and every NFT
   * bumps its owner's counters and pushes its record. `checked` lists the owners
   * in first-seen order, which is also the insertion order of `holders`.
   */
  method Aggregate(nfts: seq<Nft>, offers: nat -> nat -> OfferReply, trust: string -> TokenSnapshot.LinesReply,
                   currency: string, listedAbove: real)
    returns (holderList: seq<NftHolder>, holderCount: nat)
    ensures holderList == Holders(nfts, offers, trust, currency, listedAbove)
    ensures holderCount == |holderList|
  {
    var holders: map<string, NftHolder> := map[];
    var checked: seq<string> := [];
    holderCount := 0;
    for i := 0 to |nfts|
      invariant checked == Owners(nfts, i) && holderCount == |checked|
      invariant forall o :: o in holders <==> o in checked
      invariant TalliedUpTo(holders, nfts, offers, trust, currency, listedAbove, i)
    {
      holders, checked, holderCount := Visit(holders, checked, holderCount, nfts, offers, trust, currency, listedAbove, i);
    }
    holderList := Collect(holders, checked, nfts, offers, trust, currency, listedAbove);
  }

  /** `Object.values(holders)`: the records in the insertion order of their owners. */
  method Collect(holders: map<string, NftHolder>, checked: seq<string>, nfts: seq<Nft>, offers: nat -> nat -> OfferReply,
                 trust: string -> TokenSnapshot.LinesReply, currency: string, listedAbove: real)
    returns (holderList: seq<NftHolder>)
    requires checked == Owners(nfts, |nfts|) && (forall o :: o in holders <==> o in checked)
    requires TalliedUpTo(holders, nfts, offers, trust, currency, listedAbove, |nfts|)
    ensures holderList == Holders(nfts, offers, trust, currency, listedAbove)
  {
    holderList := seq(|checked|, j requires 0 <= j < |checked| => holders[checked[j]]);
    TalliedHolders(holders, checked, nfts, offers, trust, currency, listedAbove, holderList);
  }

  /** One iteration of the loop: create the owner's record on its first NFT, then count the NFT. */
  method Visit(holders: map<string, NftHolder>, checked: seq<string>, holderCount: nat, nfts: seq<Nft>,
               offers: nat -> nat -> OfferReply, trust: string -> TokenSnapshot.LinesReply, currency: string,
               listedAbove: real, i: nat)
    returns (holders': map<string, NftHolder>, checked': seq<string>, holderCount': nat)
    requires i < |nfts| && checked == Owners(nfts, i) && holderCount == |checked|
    requires (forall o :: o in holders <==> o in checked) && TalliedUpTo(holders, nfts, offers, trust, currency, listedAbove, i)
    ensures checked' == Owners(nfts, i + 1) && holderCount' == |checked'|
    ensures (forall o :: o in holders' <==> o in checked') && TalliedUpTo(holders', nfts, offers, trust, currency, listedAbove, i + 1)
  {
    var n := nfts[i];
    holders', checked', holderCount' := holders, checked, holderCount;
    if n.owner !in holders {
      holders', checked' := Welcome(holders, checked, nfts, offers, trust, currency, listedAbove, i);
      holderCount' := holderCount + 1;
    }
    var l := IsNftListedForSale(offers(i), 0, ListingRetries);
    var h := CountNft(holders'[n.owner], n, l, listedAbove);
    TallyStep(holders', nfts, offers, trust, currency, listedAbove, i, h);
    holders' := holders'[n.owner := h];
  }

  /** The first NFT of an owner: check its trust line once and create its empty record. */
  method Welcome(holders: map<string, NftHolder>, checked: seq<string>, nfts: seq<Nft>, offers: nat -> nat -> OfferReply,
                 trust: string -> TokenSnapshot.LinesReply, currency: string, listedAbove: real, i: nat)
    returns (holders': map<string, NftHolder>, checked': seq<string>)
    requires i < |nfts| && checked == Owners(nfts, i) && (forall o :: o in holders <==> o in checked)
    requires TalliedUpTo(holders, nfts, offers, trust, currency, listedAbove, i) && nfts[i].owner !in holders
    ensures checked' == checked + [nfts[i].owner] == Owners(nfts, i + 1)
    ensures forall o :: o in holders' <==> o in checked'
    ensures TalliedUpTo(holders', nfts, offers, trust, currency, listedAbove, i)
  {
    var owner := nfts[i].owner;
    assert owner !in checked;
    RecordsOfUnseen(nfts, offers, listedAbove, i, owner);
    checked' := checked + [owner];
    var hasTrustline := CheckTrustline(trust(owner), currency);
    holders' := holders[owner := NftHolder(owner, 0, 0, 0, 0, 0, [], hasTrustline)];
    TallyNewOwner(holders, nfts, offers, trust, currency, listedAbove, i, owner, holders'[owner]);
  }

  /** After the first `k` NFTs, every owner in `holders` has the record its NFTs so far add up to. */
  ghost predicate TalliedUpTo(holders: map<string, NftHolder>, nfts: seq<Nft>, offers: nat -> nat -> OfferReply,
                              trust: string -> TokenSnapshot.LinesReply, currency: string, listedAbove: real, k: nat)
    requires k <= |nfts|
  {
    forall o :: o in holders ==>
      holders[o] == HolderOf(o, RecordsOf(nfts, offers, listedAbove, k, o), CurrencyTrustline(trust(o), currency))
  }

  lemma TallyNewOwner(holders: map<string, NftHolder>, nfts: seq<Nft>, offers: nat -> nat -> OfferReply,
                      trust: string -> TokenSnapshot.LinesReply, currency: string, listedAbove: real, k: nat,
                      owner: string, h: NftHolder)
    requires k <= |nfts| && TalliedUpTo(holders, nfts, offers, trust, currency, listedAbove, k)
    requires RecordsOf(nfts, offers, listedAbove, k, owner) == []
    requires h == NftHolder(owner, 0, 0, 0, 0, 0, [], CurrencyTrustline(trust(owner), currency))
    ensures TalliedUpTo(holders[owner := h], nfts, offers, trust, currency, listedAbove, k)
  {
    assert h == HolderOf(owner, [], CurrencyTrustline(trust(owner), currency));
  }

  lemma TallyStep(holders: map<string, NftHolder>, nfts: seq<Nft>, offers: nat -> nat -> OfferReply,
                  trust: string -> TokenSnapshot.LinesReply, currency: string, listedAbove: real, i: nat, h: NftHolder)
    requires i < |nfts| && TalliedUpTo(holders, nfts, offers, trust, currency, listedAbove, i)
    requires nfts[i].owner in holders
    requires var old_h := holders[nfts[i].owner]; var r := RecordAt(nfts, i, offers, listedAbove);
      h == old_h.(
        totalNFTs := old_h.totalNFTs + 1,
        nfts := old_h.nfts + [r],
        totalListed := old_h.totalListed + (if r.isListed then 1 else 0),
        totalListedAbove := old_h.totalListedAbove + (if r.isListed && r.listedAbove then 1 else 0),
        totalListedUnder := old_h.totalListedUnder + (if r.isListed && !r.listedAbove then 1 else 0),
        totalUnlisted := old_h.totalUnlisted + (if r.isListed then 0 else 1))
    ensures TalliedUpTo(holders[nfts[i].owner := h], nfts, offers, trust, currency, listedAbove, i + 1)
  {
    var owner := nfts[i].owner;
    HolderOfSnoc(owner, RecordsOf(nfts, offers, listedAbove, i, owner), RecordAt(nfts, i, offers, listedAbove),
                 CurrencyTrustline(trust(owner), currency));
    RecordsOfStep(nfts, offers, listedAbove, i);
  }

  lemma TalliedHolders(holders: map<string, NftHolder>, checked: seq<string>, nfts: seq<Nft>, offers: nat -> nat -> OfferReply,
                       trust: string -> TokenSnapshot.LinesReply, currency: string, listedAbove: real, holderList: seq<NftHolder>)
    requires checked == Owners(nfts, |nfts|) && (forall o :: o in holders <==> o in checked)
    requires TalliedUpTo(holders, nfts, offers, trust, currency, listedAbove, |nfts|)
    requires |holderList| == |checked| && forall j :: 0 <= j < |checked| ==> holderList[j] == holders[checked[j]]
    ensures holderList == Holders(nfts, offers, trust, currency, listedAbove)
  {
    var hs := Holders(nfts, offers, trust, currency, listedAbove);
    forall j | 0 <= j < |checked|
      ensures holderList[j] == hs[j]
    {
      assert checked[j] in holders;
    }
  }

  function Wallets(hs: seq<NftHolder>): (r: seq<string>)
    ensures |r| == |hs|
  {
    seq(|hs|, j requires 0 <= j < |hs| => hs[j].wallet)
  }

  /** Each owner of the collection has exactly one record, and only owners have one. */
  lemma OneRecordPerOwner(nfts: seq<Nft>, offers: nat -> nat -> OfferReply, trust: string -> TokenSnapshot.LinesReply,
                          currency: string, listedAbove: real)
    ensures var ws := Wallets(Holders(nfts, offers, trust, currency, listedAbove));
      && (forall o :: o in ws <==> exists i :: 0 <= i < |nfts| && nfts[i].owner == o)
      && (forall i, j :: 0 <= i < j < |ws| ==> ws[i] != ws[j])
  {
    assert Wallets(Holders(nfts, offers, trust, currency, listedAbove)) == Owners(nfts, |nfts|);
  }

  lemma {:induction false} RecordsCountOwned(nfts: seq<Nft>, offers: nat -> nat -> OfferReply, listedAbove: real, k: nat, owner: string)
    requires k <= |nfts|
    ensures |RecordsOf(nfts, offers, listedAbove, k, owner)| == |Filter(nfts[..k], OwnedBy(owner))|
    decreases k
  {
    if k > 0 {
      RecordsCountOwned(nfts, offers, listedAbove, k - 1, owner);
      assert nfts[..k] == nfts[..k - 1] + [nfts[k - 1]];
      FilterSnoc(nfts[..k - 1], nfts[k - 1], OwnedBy(owner));
    }
  }

  /**
   * The counters of every owner record: `totalNFTs` is the number of NFTs it
   * owns, `totalListed = totalListedAbove + totalListedUnder`,
   * `totalNFTs = totalListed + totalUnlisted`, and the qualifying count
   * `totalUnlisted + totalListedAbove` is the number of its qualified NFTs.
   */
  lemma HolderCounters(nfts: seq<Nft>, offers: nat -> nat -> OfferReply, trust: string -> TokenSnapshot.LinesReply,
                       currency: string, listedAbove: real)
    ensures var hs := Holders(nfts, offers, trust, currency, listedAbove);
      forall j :: 0 <= j < |hs| ==>
        && hs[j].totalNFTs == |Filter(nfts, OwnedBy(hs[j].wallet))|
        && hs[j].totalListed == hs[j].totalListedAbove + hs[j].totalListedUnder
        && hs[j].totalNFTs == hs[j].totalListed + hs[j].totalUnlisted
        && hs[j].totalUnlisted + hs[j].totalListedAbove == |Filter(hs[j].nfts, Qualified)|
  {
    var owners := Owners(nfts, |nfts|);
    var hs := Holders(nfts, offers, trust, currency, listedAbove);
    forall j | 0 <= j < |hs|
      ensures hs[j].totalNFTs == |Filter(nfts, OwnedBy(hs[j].wallet))|
      ensures hs[j].totalListed == hs[j].totalListedAbove + hs[j].totalListedUnder
      ensures hs[j].totalNFTs == hs[j].totalListed + hs[j].totalUnlisted
      ensures hs[j].totalUnlisted + hs[j].totalListedAbove == |Filter(hs[j].nfts, Qualified)|
    {
      var rs := RecordsOf(nfts, offers, listedAbove, |nfts|, owners[j]);
      RecordsCountOwned(nfts, offers, listedAbove, |nfts|, owners[j]);
      assert nfts[..|nfts|] == nfts;
      RefinedCount(rs, Listed, ListedAbove, ListedUnder);
      TwoWayCount(rs, Listed, Unlisted);
      RefinedCount(rs, Qualified, Unlisted, ListedAbove);
    }
  }

  // ---------------------------------------------------------------------------
  // Classification, snapshots and summaries
  // ---------------------------------------------------------------------------

  /** The `${min}-${max}` key of a tier. */
  datatype Category = Category(min: real, max: real)

  /** One snapshot record; `readyForDrop` is absent (`None`) from non-qualified records. */
  datatype HolderRecord = HolderRecord(
    holderAddress: string,
    totalNFTs: nat,
    totalListed: nat,
    totalListedUnder: nat,
    totalListedAbove: nat,
    totalUnlisted: nat,
    nfts: seq<NftRecord>,
    ignored: bool,
    hasTrustline: bool,
    readyForDrop: Option<bool>,
    isQualified: bool)

  /** The category of the first tier containing a count, if any. */
  function CategoryOf(tiers: seq<RangeTier>, count: nat): (c: Option<Category>)
    ensures c.Some? <==> FirstMatch(tiers, count as real).Some?
    ensures c.Some? ==> c.value == Category(tiers[FirstMatch(tiers, count as real).value].min,
                                            tiers[FirstMatch(tiers, count as real).value].max)
  {
    match FirstMatch(tiers, count as real)
    case None => None
    case Some(i) => Some(Category(tiers[i].min, tiers[i].max))
  }

  /** The category a record was classified under: by its qualifying count. */
  function RecordCategory(d: HolderRecord, tiers: seq<RangeTier>): Option<Category> {
    CategoryOf(tiers, d.totalUnlisted + d.totalListedAbove)
  }

  function Classified(h: NftHolder, tiers: seq<RangeTier>, ignoreWallets: seq<string>): HolderRecord {
    var c := CategoryOf(tiers, h.totalUnlisted + h.totalListedAbove);
    HolderRecord(h.wallet, h.totalNFTs, h.totalListed, h.totalListedUnder, h.totalListedAbove, h.totalUnlisted,
                 h.nfts, h.wallet in ignoreWallets, h.hasTrustline,
                 if c.Some? then Some(h.hasTrustline) else None, c.Some?)
  }

  function ClassifiedAll(holders: seq<NftHolder>, tiers: seq<RangeTier>, ignoreWallets: seq<string>): (r: seq<HolderRecord>)
    ensures |r| == |holders|
  {
    seq(|holders|, i requires 0 <= i < |holders| => Classified(holders[i], tiers, ignoreWallets))
  }

  predicate Ready(d: HolderRecord) { d.readyForDrop == Some(true) }
  predicate QualifiedOnly(d: HolderRecord) { d.readyForDrop == Some(false) }
  predicate NonQualified(d: HolderRecord) { d.readyForDrop.None? }

  /** Records classified under category `c`. */
  function InCategory(tiers: seq<RangeTier>, c: Category): HolderRecord -> bool {
    (d: HolderRecord) => RecordCategory(d, tiers) == Some(c)
  }

  /** A category summary: the number of records of `list` under each category that has any. */
  ghost predicate Summarizes(summary: map<Category, nat>, list: seq<HolderRecord>, tiers: seq<RangeTier>) {
    forall c :: (c in summary <==> |Filter(list, InCategory(tiers, c))| > 0) &&
                (c in summary ==> summary[c] == |Filter(list, InCategory(tiers, c))|)
  }

  datatype Snapshot = Snapshot(
    summaryWithTrustline: map<Category, nat>,
    summaryWithoutTrustline: map<Category, nat>,
    withTrustline: seq<HolderRecord>,
    withoutTrustline: seq<HolderRecord>,
    nonQualified: seq<HolderRecord>)

  /** `if (!summary[category]) summary[category] = 0; summary[category]++` */
  function Bump(summary: map<Category, nat>, c: Category): map<Category, nat> {
    summary[c := if c in summary then summary[c] + 1 else 1]
  }

  lemma BumpSummarizes(summary: map<Category, nat>, list: seq<HolderRecord>, tiers: seq<RangeTier>, d: HolderRecord)
    requires Summarizes(summary, list, tiers) && RecordCategory(d, tiers).Some?
    ensures Summarizes(Bump(summary, RecordCategory(d, tiers).value), list + [d], tiers)
  {
    forall c {
      FilterSnoc(list, d, InCategory(tiers, c));
    }
  }

  /** The tier scan of one owner and the record it is pushed as. */
  method ClassifyOne(h: NftHolder, tiers: seq<RangeTier>, ignoreWallets: seq<string>)
    returns (d: HolderRecord, category: Option<Category>)
    ensures d == Classified(h, tiers, ignoreWallets)
    ensures category == RecordCategory(d, tiers) && (category.Some? <==> d.isQualified)
  {
    var totalCount := h.totalUnlisted + h.totalListedAbove;
    var found := Scan(tiers, totalCount as real);
    var isQualified := found.Some?;
    category := None;
    if isQualified {
      category := Some(Category(tiers[found.value].min, tiers[found.value].max));
    }
    var ignored := h.wallet in ignoreWallets;
    d := HolderRecord(h.wallet, h.totalNFTs, h.totalListed, h.totalListedUnder, h.totalListedAbove,
                      h.totalUnlisted, h.nfts, ignored, h.hasTrustline,
                      if isQualified then Some(h.hasTrustline) else None, isQualified);
  }

  /**
   * The `forEach` over `Object.values(holders)`: scan the tiers with the
   * qualifying count, push into one of the three lists, and count the
   * qualified records per category in the summary of their list.
   */
  method Classify(holders: seq<NftHolder>, tiers: seq<RangeTier>, ignoreWallets: seq<string>) returns (s: Snapshot)
    ensures s.withTrustline == Filter(ClassifiedAll(holders, tiers, ignoreWallets), Ready)
    ensures s.withoutTrustline == Filter(ClassifiedAll(holders, tiers, ignoreWallets), QualifiedOnly)
    ensures s.nonQualified == Filter(ClassifiedAll(holders, tiers, ignoreWallets), NonQualified)
    ensures Summarizes(s.summaryWithTrustline, s.withTrustline, tiers)
    ensures Summarizes(s.summaryWithoutTrustline, s.withoutTrustline, tiers)
  {
    ghost var records := ClassifiedAll(holders, tiers, ignoreWallets);
    var summaryWith: map<Category, nat> := map[];
    var summaryWithout: map<Category, nat> := map[];
    var ready, qualified, rest := [], [], [];
    for i := 0 to |holders|
      invariant ready == Filter(records[..i], Ready)
      invariant qualified == Filter(records[..i], QualifiedOnly)
      invariant rest == Filter(records[..i], NonQualified)
      invariant Summarizes(summaryWith, ready, tiers)
      invariant Summarizes(summaryWithout, qualified, tiers)
    {
      var d, category := ClassifyOne(holders[i], tiers, ignoreWallets);
      assert d == records[i];
      assert records[..i + 1] == records[..i] + [d];
      FilterSnoc(records[..i], d, Ready);
      FilterSnoc(records[..i], d, QualifiedOnly);
      FilterSnoc(records[..i], d, NonQualified);
      if d.isQualified {
        if d.hasTrustline {
          BumpSummarizes(summaryWith, ready, tiers, d);
          summaryWith := Bump(summaryWith, category.value);
          ready := ready + [d];
        } else {
          BumpSummarizes(summaryWithout, qualified, tiers, d);
          summaryWithout := Bump(summaryWithout, category.value);
          qualified := qualified + [d];
        }
      } else {
        rest := rest + [d];
      }
    }
    assert records[..|holders|] == records;
    s := Snapshot(summaryWith, summaryWithout, ready, qualified, rest);
  }

  /**
   * The three lists partition the owner records; a record is ready exactly when
   * its qualifying count falls in a tier and the owner has a trust line; ignored
   * wallets are flagged, not removed, so a ready ignored wallet is still sent to.
   */
  lemma SnapshotPartition(holders: seq<NftHolder>, tiers: seq<RangeTier>, ignoreWallets: seq<string>)
    ensures var rs := ClassifiedAll(holders, tiers, ignoreWallets);
      && multiset(Filter(rs, Ready)) + multiset(Filter(rs, QualifiedOnly)) + multiset(Filter(rs, NonQualified)) == multiset(rs)
      && (forall i :: 0 <= i < |holders| ==>
            (rs[i] in Filter(rs, Ready) <==>
               CategoryOf(tiers, holders[i].totalUnlisted + holders[i].totalListedAbove).Some? && holders[i].hasTrustline))
      && (forall i :: 0 <= i < |holders| ==> rs[i].ignored == (holders[i].wallet in ignoreWallets))
  {
    var rs := ClassifiedAll(holders, tiers, ignoreWallets);
    assert forall i :: 0 <= i < |rs| ==> ExactlyOne(rs[i], Ready, QualifiedOnly, NonQualified);
    ThreeWaySplit(rs, Ready, QualifiedOnly, NonQualified);
    FilterMembers(rs, Ready);
  }

  // ---------------------------------------------------------------------------
  // sendAirdrop
  // ---------------------------------------------------------------------------

  /** What `autofill`, `sign` and `submitAndWait` produce for one holder: a settled result, or a thrown error. */
  datatype AirdropOutcome = Settled(hash: string, transactionResult: string, fee: int) | Failed(message: string)

  /** The `transactionResult` of an entry whose submission threw. */
  const ErrorLower := "error"

  /** One entry of `successfulTransactions` / `failedTransactions`; `onChain` holds the hash. */
  datatype AirdropEntry = AirdropEntry(category: Category, account: string, amount: real, transactionResult: string,
                                       onChain: Option<string>, fee: Option<int>, error: Option<string>)

  predicate Succeeded(e: AirdropEntry) { e.transactionResult == TxLog.TesSuccess }
  predicate NotSucceeded(e: AirdropEntry) { e.transactionResult != TxLog.TesSuccess }

  /** The entry one holder paid by tier `t` produces. */
  function EntryFor(d: HolderRecord, t: RangeTier, outcome: AirdropOutcome): AirdropEntry {
    match outcome
    case Settled(hash, code, fee) =>
      AirdropEntry(Category(t.min, t.max), d.holderAddress, t.amount, code, Some(hash), Some(fee), None)
    case Failed(m) =>
      AirdropEntry(Category(t.min, t.max), d.holderAddress, t.amount, ErrorLower, None, None, Some(m))
  }

  /** A holder the airdrop pays: some tier contains its `totalNFTs`. */
  function HasTier(tiers: seq<RangeTier>): HolderRecord -> bool {
    (d: HolderRecord) => FirstMatch(tiers, d.totalNFTs as real).Some?
  }

  /** The entries of the first `k` holders, in order; holder `i`'s payment is decided by `outcomes(i)`. */
  function AirdropEntries(holders: seq<HolderRecord>, tiers: seq<RangeTier>, outcomes: nat -> AirdropOutcome, k: nat): (r: seq<AirdropEntry>)
    requires k <= |holders|
    decreases k
  {
    if k == 0 then []
    else
      var p := AirdropEntries(holders, tiers, outcomes, k - 1);
      match FirstMatch(tiers, holders[k - 1].totalNFTs as real)
      case None => p
      case Some(t) => p + [EntryFor(holders[k - 1], tiers[t], outcomes(k - 1))]
  }

  /**
   * Every entry pays a holder of the list the amount of the first tier
   * containing that holder's `totalNFTs` (not its qualifying count), under that
   * tier's category.
   */
  lemma {:induction false} EntriesPayByTotal(holders: seq<HolderRecord>, tiers: seq<RangeTier>,
                                             outcomes: nat -> AirdropOutcome, k: nat)
    requires k <= |holders|
    ensures forall e :: e in AirdropEntries(holders, tiers, outcomes, k) ==>
      exists i :: 0 <= i < k && PaidByTotal(e, holders[i], tiers)
    decreases k
  {
    if k > 0 {
      EntriesPayByTotal(holders, tiers, outcomes, k - 1);
      var m := FirstMatch(tiers, holders[k - 1].totalNFTs as real);
      if m.Some? {
        var e := EntryFor(holders[k - 1], tiers[m.value], outcomes(k - 1));
        assert PaidByTotal(e, holders[k - 1], tiers);
      }
    }
  }

  predicate PaidByTotal(e: AirdropEntry, d: HolderRecord, tiers: seq<RangeTier>) {
    && e.account == d.holderAddress
    && FirstMatch(tiers, d.totalNFTs as real).Some?
    && var t := tiers[FirstMatch(tiers, d.totalNFTs as real).value];
       e.amount == t.amount && e.category == Category(t.min, t.max)
  }

  /** `sendAirdrop(qualifiedHolders)`: one payment per holder with a tier, logged in call order to one of two lists. */
  method SendAirdrop(holders: seq<HolderRecord>, tiers: seq<RangeTier>, outcomes: nat -> AirdropOutcome)
    returns (successful: seq<AirdropEntry>, failed: seq<AirdropEntry>)
    ensures successful == Filter(AirdropEntries(holders, tiers, outcomes, |holders|), Succeeded)
    ensures failed == Filter(AirdropEntries(holders, tiers, outcomes, |holders|), NotSucceeded)
  {
    successful, failed := [], [];
    for i := 0 to |holders|
      invariant successful == Filter(AirdropEntries(holders, tiers, outcomes, i), Succeeded)
      invariant failed == Filter(AirdropEntries(holders, tiers, outcomes, i), NotSucceeded)
    {
      var holder := holders[i];
      var found := Scan(tiers, holder.totalNFTs as real);
      if found.None? {
        continue;
      }
      var e := Pay(holder, tiers[found.value], outcomes(i));
      EntriesSnoc(holders, tiers, outcomes, i);
      if e.transactionResult == TxLog.TesSuccess {
        successful := successful + [e];
      } else {
        failed := failed + [e];
      }
    }
  }

  /** One payment of `sendAirdrop`: the entry logged for a submitted or a failed transaction. */
  method Pay(holder: HolderRecord, t: RangeTier, outcome: AirdropOutcome) returns (e: AirdropEntry)
    ensures e == EntryFor(holder, t, outcome)
    ensures e.account == holder.holderAddress && e.amount == t.amount && e.category == Category(t.min, t.max)
    ensures e.transactionResult == TxLog.TesSuccess ==> outcome.Settled?
  {
    var category := Category(t.min, t.max);
    match outcome {
      case Settled(hash, code, fee) =>
        e := AirdropEntry(category, holder.holderAddress, t.amount, code, Some(hash), Some(fee), None);
      case Failed(m) =>
        e := AirdropEntry(category, holder.holderAddress, t.amount, ErrorLower, None, None, Some(m));
    }
  }

  /** The entry of holder `i`, when it has a tier, lands at the end of exactly one of the two lists. */
  lemma EntriesSnoc(holders: seq<HolderRecord>, tiers: seq<RangeTier>, outcomes: nat -> AirdropOutcome, i: nat)
    requires i < |holders| && FirstMatch(tiers, holders[i].totalNFTs as real).Some?
    ensures var e := EntryFor(holders[i], tiers[FirstMatch(tiers, holders[i].totalNFTs as real).value], outcomes(i));
      && Filter(AirdropEntries(holders, tiers, outcomes, i + 1), Succeeded)
         == Filter(AirdropEntries(holders, tiers, outcomes, i), Succeeded) + (if Succeeded(e) then [e] else [])
      && Filter(AirdropEntries(holders, tiers, outcomes, i + 1), NotSucceeded)
         == Filter(AirdropEntries(holders, tiers, outcomes, i), NotSucceeded) + (if Succeeded(e) then [] else [e])
  {
    var e := EntryFor(holders[i], tiers[FirstMatch(tiers, holders[i].totalNFTs as real).value], outcomes(i));
    var before := AirdropEntries(holders, tiers, outcomes, i);
    assert AirdropEntries(holders, tiers, outcomes, i + 1) == before + [e];
    FilterSnoc(before, e, Succeeded);
    FilterSnoc(before, e, NotSucceeded);
  }

  /**
   * Holders without a tier for their `totalNFTs` get no entry, every other holder
   * exactly one, and it is successful exactly when the ledger said `tesSUCCESS`.
   */
  lemma AirdropAccounting(holders: seq<HolderRecord>, tiers: seq<RangeTier>, outcomes: nat -> AirdropOutcome)
    ensures var es := AirdropEntries(holders, tiers, outcomes, |holders|);
      && |Filter(es, Succeeded)| + |Filter(es, NotSucceeded)| == |Filter(holders, HasTier(tiers))|
      && (forall i :: 0 <= i < |holders| && FirstMatch(tiers, holders[i].totalNFTs as real).Some? ==>
            EntryFor(holders[i], tiers[FirstMatch(tiers, holders[i].totalNFTs as real).value], outcomes(i)) in es)
      && (forall e :: e in Filter(es, Succeeded) ==> e.onChain.Some? && e.error.None?)
  {
    var es := AirdropEntries(holders, tiers, outcomes, |holders|);
    assert holders[..|holders|] == holders;
    EntriesInHolderOrder(holders, tiers, outcomes, |holders|);
    TwoWayCount(es, Succeeded, NotSucceeded);
    EntriesCount(holders, tiers, outcomes, |holders|);
    FilterMembers(es, Succeeded);
    SucceededEntriesSettled(holders, tiers, outcomes, |holders|);
  }

  lemma {:induction false} EntriesCount(holders: seq<HolderRecord>, tiers: seq<RangeTier>,
                                        outcomes: nat -> AirdropOutcome, k: nat)
    requires k <= |holders|
    ensures |AirdropEntries(holders, tiers, outcomes, k)| == |Filter(holders[..k], HasTier(tiers))|
    decreases k
  {
    if k > 0 {
      EntriesCount(holders, tiers, outcomes, k - 1);
      assert holders[..k] == holders[..k - 1] + [holders[k - 1]];
      FilterSnoc(holders[..k - 1], holders[k - 1], HasTier(tiers));
    }
  }

  /**
   * Entries follow the holders one to one: the entry of a holder with a tier
   * sits at the position given by the number of tiered holders before it.
   */
  lemma EntriesInHolderOrder(holders: seq<HolderRecord>, tiers: seq<RangeTier>,
                             outcomes: nat -> AirdropOutcome, k: nat)
    requires k <= |holders|
    ensures forall i :: 0 <= i < k && FirstMatch(tiers, holders[i].totalNFTs as real).Some? ==>
      var n := |Filter(holders[..i], HasTier(tiers))|;
      && n < |AirdropEntries(holders, tiers, outcomes, k)|
      && AirdropEntries(holders, tiers, outcomes, k)[n]
         == EntryFor(holders[i], tiers[FirstMatch(tiers, holders[i].totalNFTs as real).value], outcomes(i))
  {
    forall i | 0 <= i < k && FirstMatch(tiers, holders[i].totalNFTs as real).Some?
      ensures var n := |Filter(holders[..i], HasTier(tiers))|;
        && n < |AirdropEntries(holders, tiers, outcomes, k)|
        && AirdropEntries(holders, tiers, outcomes, k)[n]
           == EntryFor(holders[i], tiers[FirstMatch(tiers, holders[i].totalNFTs as real).value], outcomes(i))
    {
      EntryAppended(holders, tiers, outcomes, i);
      EntriesPrefix(holders, tiers, outcomes, i + 1, k);
      EntriesCount(holders, tiers, outcomes, i);
    }
  }

  /** Paying later holders only appends: the entries of the first `j` holders are a prefix of those of the first `k`. */
  lemma {:induction false} EntriesPrefix(holders: seq<HolderRecord>, tiers: seq<RangeTier>,
                                         outcomes: nat -> AirdropOutcome, j: nat, k: nat)
    requires j <= k <= |holders|
    ensures |AirdropEntries(holders, tiers, outcomes, j)| <= |AirdropEntries(holders, tiers, outcomes, k)|
    ensures forall n :: 0 <= n < |AirdropEntries(holders, tiers, outcomes, j)| ==>
      AirdropEntries(holders, tiers, outcomes, k)[n] == AirdropEntries(holders, tiers, outcomes, j)[n]
    decreases k
  {
    if j < k {
      EntriesPrefix(holders, tiers, outcomes, j, k - 1);
      forall n | 0 <= n < |AirdropEntries(holders, tiers, outcomes, j)|
        ensures AirdropEntries(holders, tiers, outcomes, k)[n] == AirdropEntries(holders, tiers, outcomes, j)[n]
      {
        EntriesGrow(holders, tiers, outcomes, k, n);
      }
    }
  }

  lemma EntryAppended(holders: seq<HolderRecord>, tiers: seq<RangeTier>, outcomes: nat -> AirdropOutcome, i: nat)
    requires i < |holders| && FirstMatch(tiers, holders[i].totalNFTs as real).Some?
    ensures AirdropEntries(holders, tiers, outcomes, i + 1)
         == AirdropEntries(holders, tiers, outcomes, i)
            + [EntryFor(holders[i], tiers[FirstMatch(tiers, holders[i].totalNFTs as real).value], outcomes(i))]
  {
  }

  /** Paying holder `k - 1` leaves the earlier entries where they are. */
  lemma EntriesGrow(holders: seq<HolderRecord>, tiers: seq<RangeTier>, outcomes: nat -> AirdropOutcome, k: nat, n: nat)
    requires 0 < k <= |holders| && n < |AirdropEntries(holders, tiers, outcomes, k - 1)|
    ensures n < |AirdropEntries(holders, tiers, outcomes, k)|
    ensures AirdropEntries(holders, tiers, outcomes, k)[n] == AirdropEntries(holders, tiers, outcomes, k - 1)[n]
  {
    var p := AirdropEntries(holders, tiers, outcomes, k - 1);
    var m := FirstMatch(tiers, holders[k - 1].totalNFTs as real);
    if m.Some? {
      assert AirdropEntries(holders, tiers, outcomes, k) == p + [EntryFor(holders[k - 1], tiers[m.value], outcomes(k - 1))];
    }
  }

  lemma {:induction false} SucceededEntriesSettled(holders: seq<HolderRecord>, tiers: seq<RangeTier>,
                                                   outcomes: nat -> AirdropOutcome, k: nat)
    requires k <= |holders|
    ensures forall e :: e in AirdropEntries(holders, tiers, outcomes, k) && Succeeded(e) ==> e.onChain.Some? && e.error.None?
    decreases k
  {
    if k > 0 {
      SucceededEntriesSettled(holders, tiers, outcomes, k - 1);
    }
  }

  // ---------------------------------------------------------------------------
  // generateSnapshot
  // ---------------------------------------------------------------------------

  /** The two lists `sendAirdrop` writes. */
  datatype AirdropResult = AirdropResult(successful: seq<AirdropEntry>, failed: seq<AirdropEntry>)

  /**
   * `generateSnapshot` of `indexNFT.js`. `collection` is the collection API's
   * NFT list (`None` when the request failed); nothing is produced for a failed
   * or empty collection. The ready list, ignored wallets included, goes to
   * `sendAirdrop` unless `testMode`.
   */
  method GenerateSnapshot(collection: Option<seq<Nft>>, offers: nat -> nat -> OfferReply, trust: string -> TokenSnapshot.LinesReply,
                          currency: string, listedAbove: real, tiers: seq<RangeTier>, ignoreWallets: seq<string>,
                          testMode: bool, outcomes: nat -> AirdropOutcome)
    returns (snapshot: Option<Snapshot>, airdrop: Option<AirdropResult>)
    ensures snapshot.None? <==> collection.None? || collection.value == []
    ensures snapshot.Some? ==>
      var rs := ClassifiedAll(Holders(collection.value, offers, trust, currency, listedAbove), tiers, ignoreWallets);
      && snapshot.value.withTrustline == Filter(rs, Ready)
      && snapshot.value.withoutTrustline == Filter(rs, QualifiedOnly)
      && snapshot.value.nonQualified == Filter(rs, NonQualified)
      && Summarizes(snapshot.value.summaryWithTrustline, Filter(rs, Ready), tiers)
      && Summarizes(snapshot.value.summaryWithoutTrustline, Filter(rs, QualifiedOnly), tiers)
    ensures airdrop.Some? <==> snapshot.Some? && !testMode
    ensures airdrop.Some? ==>
      var es := AirdropEntries(snapshot.value.withTrustline, tiers, outcomes, |snapshot.value.withTrustline|);
      airdrop.value == AirdropResult(Filter(es, Succeeded), Filter(es, NotSucceeded))
  {
    snapshot, airdrop := None, None;
    if collection.None? || collection.value == [] {
      return;
    }
    var holders, _ := Aggregate(collection.value, offers, trust, currency, listedAbove);
    var s := Classify(holders, tiers, ignoreWallets);
    snapshot := Some(s);
    if !testMode {
      var successful, failed := SendAirdrop(s.withTrustline, tiers, outcomes);
      airdrop := Some(AirdropResult(successful, failed));
    }
  }
}
