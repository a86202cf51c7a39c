/**
 * The trait snapshot of `indexNFTrait.js`: walk the collection's NFTs once,
 * accept an NFT only when its URI is a hex string whose decoding starts with
 * `ipfs://`, fetch its metadata through the public IPFS gateway, and reward it
 * with the sum of the amounts of every trait tier one of its attributes
 * matches. Each owner accumulates the rewards of its accepted NFTs; owners with
 * a positive total are qualified, and the qualified ones with a trust line for
 * the airdropped currency are ready. Ignored wallets are flagged in the
 * snapshot and dropped only from the list handed to the sender.
 */
module TraitSnapshot {
  import opened Wrappers
  import opened Lists
  import opened Tiers
  import TokenSnapshot
  import NftSnapshot

  // ---------------------------------------------------------------------------
  // URIs
  // ---------------------------------------------------------------------------

  predicate HexDigit(c: char) {
    '0' <= c <= '9' || 'a' <= c <= 'f' || 'A' <= c <= 'F'
  }

  /** `/^[0-9a-fA-F]+$/`: one or more hex digits and nothing else. */
  predicate IsHex(s: string) {
    |s| > 0 && forall i :: 0 <= i < |s| ==> HexDigit(s[i])
  }

  const IpfsPrefix := "ipfs://"
  const IpfsGateway := "https://ipfs.io/ipfs/"

  /** `s.replace(pattern, replacement)` with a string pattern: only the first occurrence is replaced. */
  function ReplaceFirst(s: string, pattern: string, replacement: string): string
    requires |pattern| > 0
    decreases |s|
  {
    if |s| < |pattern| then s
    else if pattern <= s then replacement + s[|pattern|..]
    else [s[0]] + ReplaceFirst(s[1..], pattern, replacement)
  }

  /**
   * The URL an accepted NFT is fetched from: a URI that starts with `ipfs://`
   * has exactly that prefix swapped for the gateway, and the rest is kept, so
   * putting the prefix back recovers the URI.
   */
  lemma IpfsRewrite(uri: string)
    requires IpfsPrefix <= uri
    ensures ReplaceFirst(uri, IpfsPrefix, IpfsGateway) == IpfsGateway + uri[|IpfsPrefix|..]
    ensures IpfsGateway <= ReplaceFirst(uri, IpfsPrefix, IpfsGateway)
    ensures IpfsPrefix + ReplaceFirst(uri, IpfsPrefix, IpfsGateway)[|IpfsGateway|..] == uri
  {
    var url := ReplaceFirst(uri, IpfsPrefix, IpfsGateway);
    assert url[|IpfsGateway|..] == uri[|IpfsPrefix|..];
    assert uri == uri[..|IpfsPrefix|] + uri[|IpfsPrefix|..];
  }

  /**
   * One NFT of the collection. `uri` is `None` when `URI` is not a string;
   * `decoded` is the UTF-8 text of its hex bytes.
   */
  datatype TraitNft = TraitNft(nft: NftSnapshot.Nft, uri: Option<string>, decoded: string)

  /** The gateway URL of an NFT whose URI passes both checks, `None` for one the loop skips. */
  function MetadataUrl(n: TraitNft): (url: Option<string>)
    ensures url.Some? <==> n.uri.Some? && IsHex(n.uri.value) && IpfsPrefix <= n.decoded
  {
    if n.uri.None? || !IsHex(n.uri.value) then None
    else if !(IpfsPrefix <= n.decoded) then None
    else Some(ReplaceFirst(n.decoded, IpfsPrefix, IpfsGateway))
  }

  // ---------------------------------------------------------------------------
  // Trait rewards
  // ---------------------------------------------------------------------------

  /** One entry of the metadata's `attributes`. */
  datatype Attr = Attr(traitType: string, value: string)

  /** `attributes.some(attr => attr.trait_type === trait_type && attr.value === value)` */
  predicate Matches(t: TraitTier, attrs: seq<Attr>) {
    exists a :: a in attrs && a.traitType == t.traitType && a.value == t.value
  }

  function MatchedBy(attrs: seq<Attr>): TraitTier -> bool {
    (t: TraitTier) => Matches(t, attrs)
  }

  /** `qualifiedTraits`: the tiers, in table order, that some attribute matches. */
  function QualifiedTraits(tiers: seq<TraitTier>, attrs: seq<Attr>): seq<TraitTier> {
    Filter(tiers, MatchedBy(attrs))
  }

  /** `reduce((sum, trait) => sum + trait.amount, 0)` */
  function SumAmounts(ts: seq<TraitTier>): real
    decreases |ts|
  {
    if ts == [] then 0.0 else SumAmounts(ts[..|ts| - 1]) + ts[|ts| - 1].amount
  }

  /** The reward of an NFT carrying `attrs`. */
  function Reward(tiers: seq<TraitTier>, attrs: seq<Attr>): real {
    SumAmounts(QualifiedTraits(tiers, attrs))
  }

  /**
   * The reward depends only on which attributes an NFT carries: neither their
   * order nor a repeated attribute changes it, so each tier counts at most once.
   */
  lemma RewardDependsOnAttributeSet(tiers: seq<TraitTier>, a1: seq<Attr>, a2: seq<Attr>)
    requires forall a :: a in a1 <==> a in a2
    ensures Reward(tiers, a1) == Reward(tiers, a2)
  {
    FilterCongruent(tiers, MatchedBy(a1), MatchedBy(a2));
  }

  lemma {:induction false} SumPositive(ts: seq<TraitTier>)
    requires forall i :: 0 <= i < |ts| ==> ts[i].amount > 0.0
    ensures ts == [] <==> SumAmounts(ts) == 0.0
    ensures SumAmounts(ts) >= 0.0
    decreases |ts|
  {
    if ts != [] {
      SumPositive(ts[..|ts| - 1]);
    }
  }

  /** With positive amounts, an NFT earns a positive reward exactly when some tier matches one of its attributes. */
  lemma RewardPositiveIffMatch(tiers: seq<TraitTier>, attrs: seq<Attr>)
    requires forall i :: 0 <= i < |tiers| ==> tiers[i].amount > 0.0
    ensures Reward(tiers, attrs) > 0.0 <==> exists i :: 0 <= i < |tiers| && Matches(tiers[i], attrs)
  {
    var q := QualifiedTraits(tiers, attrs);
    FilterMembers(tiers, MatchedBy(attrs));
    assert forall i :: 0 <= i < |q| ==> q[i] in tiers;
    SumPositive(q);
    if exists i :: 0 <= i < |tiers| && Matches(tiers[i], attrs) {
      var i :| 0 <= i < |tiers| && Matches(tiers[i], attrs);
      assert tiers[i] in q;
    }
  }

  /** A red hat-wearer: the `Color`/`Red` and `Hat`/`Top` tiers both match, `Color`/`Blue` does not. */
  lemma RewardExample()
    ensures var tiers := [TraitTier("Color", "Red", 5.0), TraitTier("Hat", "Top", 3.0), TraitTier("Color", "Blue", 7.0)];
      var attrs := [Attr("Color", "Red"), Attr("Hat", "Top")];
      QualifiedTraits(tiers, attrs) == tiers[..2] && Reward(tiers, attrs) == 8.0
  {
    var tiers := [TraitTier("Color", "Red", 5.0), TraitTier("Hat", "Top", 3.0), TraitTier("Color", "Blue", 7.0)];
    var attrs := [Attr("Color", "Red"), Attr("Hat", "Top")];
    assert Matches(tiers[0], attrs) by { assert attrs[0] in attrs; }
    assert Matches(tiers[1], attrs) by { assert attrs[1] in attrs; }
    assert !Matches(tiers[2], attrs);
    assert Filter(tiers[2..], MatchedBy(attrs)) == [];
    assert Filter(tiers[1..], MatchedBy(attrs)) == [tiers[1]];
    assert QualifiedTraits(tiers, attrs) == [tiers[0], tiers[1]];
    assert [tiers[0], tiers[1]] == tiers[..2];
    assert [tiers[0], tiers[1]][..1] == [tiers[0]];
    assert [tiers[0]][..0] == [];
    assert SumAmounts([tiers[0]]) == 5.0;
  }

  // ---------------------------------------------------------------------------
  // Per-owner accumulation
  // ---------------------------------------------------------------------------

  /**
   * The record pushed for an accepted NFT: its gateway URL, the first matched
   * tier's `trait_type`/`value` (or null), its reward and matched tiers, and
   * whether it counts for an owner with or without a trust line.
   */
  datatype TraitRecord = TraitRecord(tokenId: string, uri: string, traitType: Option<string>, value: Option<string>,
                                     amount: real, qualifiedTraits: seq<TraitTier>, qualified: bool)

  /** `holders[owner]` */
  datatype TraitHolder = TraitHolder(wallet: string, totalNFTs: nat, nfts: seq<TraitRecord>, hasTrustline: bool, totalAmount: real)

  /** The record of an NFT fetched from `url` whose metadata has `attrs`. */
  function RecordFor(n: TraitNft, url: string, attrs: seq<Attr>, tiers: seq<TraitTier>, hasTrustline: bool): (r: TraitRecord)
    ensures r.amount == Reward(tiers, attrs) && r.qualifiedTraits == QualifiedTraits(tiers, attrs)
    ensures r.traitType.Some? <==> exists i :: 0 <= i < |tiers| && Matches(tiers[i], attrs)
    ensures r.traitType.Some? ==> exists i :: 0 <= i < |tiers| && Matches(tiers[i], attrs)
                                    && (forall j :: 0 <= j < i ==> !Matches(tiers[j], attrs))
                                    && r.traitType == Some(tiers[i].traitType) && r.value == Some(tiers[i].value)
    ensures r.qualified <==> r.amount > 0.0 && hasTrustline
    ensures RecordFromTable(r, tiers)
  {
    var q := QualifiedTraits(tiers, attrs);
    FirstFiltered(tiers, MatchedBy(attrs));
    FilterMembers(tiers, MatchedBy(attrs));
    var amount := SumAmounts(q);
    TraitRecord(n.nft.tokenId, url, if |q| > 0 then Some(q[0].traitType) else None,
                if |q| > 0 then Some(q[0].value) else None, amount, q, amount > 0.0 && hasTrustline)
  }

  /**
   * What every pushed record satisfies: its amount is the sum of its matched
   * tiers, all taken from the table, and it names the first of them.
   */
  predicate RecordFromTable(r: TraitRecord, tiers: seq<TraitTier>) {
    && r.amount == SumAmounts(r.qualifiedTraits)
    && (forall t :: t in r.qualifiedTraits ==> t in tiers)
    && (|r.qualifiedTraits| > 0 ==>
          r.traitType == Some(r.qualifiedTraits[0].traitType) && r.value == Some(r.qualifiedTraits[0].value))
  }

  /** What one NFT does to its owner's record: count it, and add its record and reward when it is accepted. */
  function Counted(h: TraitHolder, n: TraitNft, metadata: string -> Option<seq<Attr>>, tiers: seq<TraitTier>): TraitHolder {
    var h1 := h.(totalNFTs := h.totalNFTs + 1);
    match MetadataUrl(n)
    case None => h1
    case Some(url) =>
      match metadata(url)
      case None => h1
      case Some(attrs) =>
        h1.(totalAmount := h1.totalAmount + Reward(tiers, attrs),
            nfts := h1.nfts + [RecordFor(n, url, attrs, tiers, h.hasTrustline)])
  }

  /**
   * Every NFT is counted; a skipped one changes nothing else, and an accepted
   * one adds exactly its reward and its record.
   */
  lemma CountedEffect(h: TraitHolder, n: TraitNft, metadata: string -> Option<seq<Attr>>, tiers: seq<TraitTier>)
    ensures var h' := Counted(h, n, metadata, tiers);
      && h'.wallet == h.wallet && h'.hasTrustline == h.hasTrustline && h'.totalNFTs == h.totalNFTs + 1
      && (MetadataUrl(n).None? || metadata(MetadataUrl(n).value).None? ==> h' == h.(totalNFTs := h.totalNFTs + 1))
      && (MetadataUrl(n).Some? && metadata(MetadataUrl(n).value).Some? ==>
            var url := MetadataUrl(n).value;
            var attrs := metadata(url).value;
            && h'.totalAmount == h.totalAmount + Reward(tiers, attrs)
            && h'.nfts == h.nfts + [RecordFor(n, url, attrs, tiers, h.hasTrustline)])
  {
  }

  function Base(nfts: seq<TraitNft>): (r: seq<NftSnapshot.Nft>)
    ensures |r| == |nfts|
  {
    seq(|nfts|, i requires 0 <= i < |nfts| => nfts[i].nft)
  }

  /** `holders[owner]` after the first `k` NFTs. */
  function Tally(nfts: seq<TraitNft>, metadata: string -> Option<seq<Attr>>, tiers: seq<TraitTier>,
                 trust: string -> TokenSnapshot.LinesReply, currency: string, k: nat, owner: string): TraitHolder
    requires k <= |nfts|
    decreases k
  {
    if k == 0 then TraitHolder(owner, 0, [], NftSnapshot.CurrencyTrustline(trust(owner), currency), 0.0)
    else
      var p := Tally(nfts, metadata, tiers, trust, currency, k - 1, owner);
      if nfts[k - 1].nft.owner == owner then Counted(p, nfts[k - 1], metadata, tiers) else p
  }

  /** The owner records in `Object.values(holders)` order. */
  function Holders(nfts: seq<TraitNft>, metadata: string -> Option<seq<Attr>>, tiers: seq<TraitTier>,
                   trust: string -> TokenSnapshot.LinesReply, currency: string): (r: seq<TraitHolder>)
    ensures |r| == |NftSnapshot.Owners(Base(nfts), |Base(nfts)|)|
  {
    var owners := NftSnapshot.Owners(Base(nfts), |Base(nfts)|);
    seq(|owners|, j requires 0 <= j < |owners| => Tally(nfts, metadata, tiers, trust, currency, |nfts|, owners[j]))
  }

  function SumRecordAmounts(rs: seq<TraitRecord>): real
    decreases |rs|
  {
    if rs == [] then 0.0 else SumRecordAmounts(rs[..|rs| - 1]) + rs[|rs| - 1].amount
  }

  /**
   * What an owner's record keeps along the walk: at most one NFT record per
   * counted NFT, `totalAmount` the sum of the records' rewards, and a record
   * qualified exactly when its reward is positive and the owner has a trust line.
   */
  predicate RecordsConsistent(h: TraitHolder, tiers: seq<TraitTier>) {
    && |h.nfts| <= h.totalNFTs
    && h.totalAmount == SumRecordAmounts(h.nfts)
    && (forall j :: 0 <= j < |h.nfts| ==> (h.nfts[j].qualified <==> h.nfts[j].amount > 0.0 && h.hasTrustline))
    && (forall j :: 0 <= j < |h.nfts| ==> RecordFromTable(h.nfts[j], tiers))
  }

  /** Counting one more NFT keeps an owner's record consistent. */
  lemma CountedConsistent(h: TraitHolder, n: TraitNft, metadata: string -> Option<seq<Attr>>, tiers: seq<TraitTier>)
    requires RecordsConsistent(h, tiers)
    ensures RecordsConsistent(Counted(h, n, metadata, tiers), tiers)
  {
    var url := MetadataUrl(n);
    if url.Some? && metadata(url.value).Some? {
      var attrs := metadata(url.value).value;
      var r := RecordFor(n, url.value, attrs, tiers, h.hasTrustline);
      var rs := h.nfts + [r];
      assert Counted(h, n, metadata, tiers) == h.(totalNFTs := h.totalNFTs + 1, totalAmount := h.totalAmount + r.amount, nfts := rs);
      assert rs[..|rs| - 1] == h.nfts;
      assert SumRecordAmounts(rs) == h.totalAmount + r.amount;
      assert forall j :: 0 <= j < |rs| ==> rs[j] == if j < |h.nfts| then h.nfts[j] else r;
    }
  }

  /**
   * An owner's record after any prefix of the walk: `totalNFTs` counts all its
   * NFTs, skipped ones included, its trust line is the one looked up for it, and
   * its records stay consistent.
   */
  lemma TallyInvariants(nfts: seq<TraitNft>, metadata: string -> Option<seq<Attr>>, tiers: seq<TraitTier>,
                        trust: string -> TokenSnapshot.LinesReply, currency: string, k: nat, owner: string)
    requires k <= |nfts|
    ensures var h := Tally(nfts, metadata, tiers, trust, currency, k, owner);
      && h.wallet == owner
      && h.totalNFTs == |Filter(Base(nfts)[..k], NftSnapshot.OwnedBy(owner))|
      && h.hasTrustline == NftSnapshot.CurrencyTrustline(trust(owner), currency)
      && RecordsConsistent(h, tiers)
  {
    TallyCounts(nfts, metadata, tiers, trust, currency, k, owner);
    TallyConsistent(nfts, metadata, tiers, trust, currency, k, owner);
  }

  lemma {:induction false} TallyCounts(nfts: seq<TraitNft>, metadata: string -> Option<seq<Attr>>, tiers: seq<TraitTier>,
                                       trust: string -> TokenSnapshot.LinesReply, currency: string, k: nat, owner: string)
    requires k <= |nfts|
    ensures var h := Tally(nfts, metadata, tiers, trust, currency, k, owner);
      && h.wallet == owner
      && h.totalNFTs == |Filter(Base(nfts)[..k], NftSnapshot.OwnedBy(owner))|
      && h.hasTrustline == NftSnapshot.CurrencyTrustline(trust(owner), currency)
    decreases k
  {
    if k > 0 {
      TallyCounts(nfts, metadata, tiers, trust, currency, k - 1, owner);
      var b := Base(nfts);
      assert b[..k] == b[..k - 1] + [b[k - 1]];
      FilterSnoc(b[..k - 1], b[k - 1], NftSnapshot.OwnedBy(owner));
    }
  }

  lemma {:induction false} TallyConsistent(nfts: seq<TraitNft>, metadata: string -> Option<seq<Attr>>, tiers: seq<TraitTier>,
                                           trust: string -> TokenSnapshot.LinesReply, currency: string, k: nat, owner: string)
    requires k <= |nfts|
    ensures RecordsConsistent(Tally(nfts, metadata, tiers, trust, currency, k, owner), tiers)
    decreases k
  {
    if k > 0 {
      TallyConsistent(nfts, metadata, tiers, trust, currency, k - 1, owner);
      if nfts[k - 1].nft.owner == owner {
        CountedConsistent(Tally(nfts, metadata, tiers, trust, currency, k - 1, owner), nfts[k - 1], metadata, tiers);
      }
    }
  }

  lemma {:induction false} PositiveSumHasPositiveRecord(rs: seq<TraitRecord>)
    requires SumRecordAmounts(rs) > 0.0
    ensures exists j :: 0 <= j < |rs| && rs[j].amount > 0.0
    decreases |rs|
  {
    if rs[|rs| - 1].amount <= 0.0 {
      PositiveSumHasPositiveRecord(rs[..|rs| - 1]);
      var j :| 0 <= j < |rs| - 1 && rs[..|rs| - 1][j].amount > 0.0;
      assert rs[j].amount > 0.0;
    }
  }

  /**
   * An owner whose records add up to a positive total holds a record naming a
   * tier of the table: the first tier matched by one of its rewarded NFTs.
   */
  lemma PositiveTotalNamesATier(h: TraitHolder, tiers: seq<TraitTier>)
    requires h.totalAmount == SumRecordAmounts(h.nfts) && h.totalAmount > 0.0
    requires forall j :: 0 <= j < |h.nfts| ==> RecordFromTable(h.nfts[j], tiers)
    ensures exists j, i :: 0 <= j < |h.nfts| && 0 <= i < |tiers|
                           && h.nfts[j].traitType == Some(tiers[i].traitType) && h.nfts[j].value == Some(tiers[i].value)
  {
    PositiveSumHasPositiveRecord(h.nfts);
    var j :| 0 <= j < |h.nfts| && h.nfts[j].amount > 0.0;
    var q := h.nfts[j].qualifiedTraits;
    assert q != [];
    assert q[0] in tiers;
    var i :| 0 <= i < |tiers| && tiers[i] == q[0];
  }

  /**
   * One iteration's update of its owner's record: every NFT is counted; one
   * with a missing or non-hex URI, a URI that is not an `ipfs://` link or
   * metadata without attributes is then skipped (the loop's `continue`); any
   * other adds its reward and pushes its record.
   */
  method CountNft(h: TraitHolder, n: TraitNft, metadata: string -> Option<seq<Attr>>, tiers: seq<TraitTier>)
    returns (h': TraitHolder)
    ensures h' == Counted(h, n, metadata, tiers)
  {
    h' := h.(totalNFTs := h.totalNFTs + 1);
    var uriHex := n.uri;
    if uriHex.None? || !IsHex(uriHex.value) {
      return;
    }
    var uri := n.decoded;
    if !(IpfsPrefix <= uri) {
      return;
    }
    var ipfsUrl := ReplaceFirst(uri, IpfsPrefix, IpfsGateway);
    var attributes := metadata(ipfsUrl);
    if attributes.None? {
      return;
    }
    var qualifiedTraits := QualifiedTraits(tiers, attributes.value);
    var totalAmount := SumAmounts(qualifiedTraits);
    h' := h'.(totalAmount := h'.totalAmount + totalAmount);
    h' := h'.(nfts := h'.nfts + [TraitRecord(n.nft.tokenId, ipfsUrl,
                                             if |qualifiedTraits| > 0 then Some(qualifiedTraits[0].traitType) else None,
                                             if |qualifiedTraits| > 0 then Some(qualifiedTraits[0].value) else None,
                                             totalAmount, qualifiedTraits, totalAmount > 0.0 && h.hasTrustline)]);
    assert h'.nfts[|h.nfts|] == RecordFor(n, ipfsUrl, attributes.value, tiers, h.hasTrustline);
  }

  /**
   * The `for (const n of nfts)` loop of `generateSnapshot`: the first NFT of an
   * owner checks its trust line once and creates its record, and every NFT
   * then updates its owner's record as `CountNft` says. `checked` lists the
   * owners in first-seen order, the insertion order of `holders`.
   */
  method Aggregate(nfts: seq<TraitNft>, metadata: string -> Option<seq<Attr>>, tiers: seq<TraitTier>,
                   trust: string -> TokenSnapshot.LinesReply, currency: string)
    returns (holderList: seq<TraitHolder>)
    ensures holderList == Holders(nfts, metadata, tiers, trust, currency)
  {
    var holders: map<string, TraitHolder> := map[];
    var checked: seq<string> := [];
    ghost var base := Base(nfts);
    for i := 0 to |nfts|
      invariant checked == NftSnapshot.Owners(base, i)
      invariant forall o :: o in holders <==> o in checked
      invariant TalliedUpTo(holders, nfts, metadata, tiers, trust, currency, i)
    {
      holders, checked := Visit(holders, checked, nfts, metadata, tiers, trust, currency, i);
    }
    holderList := Collect(holders, checked, nfts, metadata, tiers, trust, currency);
  }

  /** `Object.values(holders)`: the records in the insertion order of their owners. */
  method Collect(holders: map<string, TraitHolder>, checked: seq<string>, nfts: seq<TraitNft>,
                 metadata: string -> Option<seq<Attr>>, tiers: seq<TraitTier>,
                 trust: string -> TokenSnapshot.LinesReply, currency: string)
    returns (holderList: seq<TraitHolder>)
    requires checked == NftSnapshot.Owners(Base(nfts), |Base(nfts)|) && (forall o :: o in holders <==> o in checked)
    requires TalliedUpTo(holders, nfts, metadata, tiers, trust, currency, |nfts|)
    ensures holderList == Holders(nfts, metadata, tiers, trust, currency)
  {
    holderList := seq(|checked|, j requires 0 <= j < |checked| => holders[checked[j]]);
    TalliedHolders(holders, checked, nfts, metadata, tiers, trust, currency, holderList);
  }

  /** One iteration of the loop: create the owner's record on its first NFT, then count the NFT. */
  method Visit(holders: map<string, TraitHolder>, checked: seq<string>, nfts: seq<TraitNft>,
               metadata: string -> Option<seq<Attr>>, tiers: seq<TraitTier>,
               trust: string -> TokenSnapshot.LinesReply, currency: string, i: nat)
    returns (holders': map<string, TraitHolder>, checked': seq<string>)
    requires i < |nfts| && checked == NftSnapshot.Owners(Base(nfts), i)
    requires (forall o :: o in holders <==> o in checked) && TalliedUpTo(holders, nfts, metadata, tiers, trust, currency, i)
    ensures checked' == NftSnapshot.Owners(Base(nfts), i + 1)
    ensures (forall o :: o in holders' <==> o in checked') && TalliedUpTo(holders', nfts, metadata, tiers, trust, currency, i + 1)
  {
    var n := nfts[i];
    var owner := n.nft.owner;
    holders', checked' := holders, checked;
    if owner !in holders {
      holders', checked' := Welcome(holders, checked, nfts, metadata, tiers, trust, currency, i);
    }
    var h := CountNft(holders'[owner], n, metadata, tiers);
    TallyStep(holders', nfts, metadata, tiers, trust, currency, i, h);
    holders' := holders'[owner := h];
  }

  /** The first NFT of an owner: check its trust line once and create its empty record. */
  method Welcome(holders: map<string, TraitHolder>, checked: seq<string>, nfts: seq<TraitNft>,
                 metadata: string -> Option<seq<Attr>>, tiers: seq<TraitTier>,
                 trust: string -> TokenSnapshot.LinesReply, currency: string, i: nat)
    returns (holders': map<string, TraitHolder>, checked': seq<string>)
    requires i < |nfts| && checked == NftSnapshot.Owners(Base(nfts), i)
    requires (forall o :: o in holders <==> o in checked) && TalliedUpTo(holders, nfts, metadata, tiers, trust, currency, i)
    requires nfts[i].nft.owner !in holders
    ensures checked' == checked + [nfts[i].nft.owner] == NftSnapshot.Owners(Base(nfts), i + 1)
    ensures forall o :: o in holders' <==> o in checked'
    ensures TalliedUpTo(holders', nfts, metadata, tiers, trust, currency, i)
  {
    var owner := nfts[i].nft.owner;
    assert Base(nfts)[i] == nfts[i].nft;
    assert owner !in checked;
    UnseenOwner(nfts, metadata, tiers, trust, currency, i, owner);
    checked' := checked + [owner];
    var hasTrustline := NftSnapshot.CheckTrustline(trust(owner), currency);
    holders' := holders[owner := TraitHolder(owner, 0, [], hasTrustline, 0.0)];
    TallyNewOwner(holders, nfts, metadata, tiers, trust, currency, i, owner, holders'[owner]);
  }

  ghost predicate TalliedUpTo(holders: map<string, TraitHolder>, nfts: seq<TraitNft>, metadata: string -> Option<seq<Attr>>,
                              tiers: seq<TraitTier>, trust: string -> TokenSnapshot.LinesReply, currency: string, k: nat)
    requires k <= |nfts|
  {
    forall o :: o in holders ==> holders[o] == Tally(nfts, metadata, tiers, trust, currency, k, o)
  }

  lemma {:induction false} UnseenOwner(nfts: seq<TraitNft>, metadata: string -> Option<seq<Attr>>, tiers: seq<TraitTier>,
                                       trust: string -> TokenSnapshot.LinesReply, currency: string, k: nat, owner: string)
    requires k <= |nfts| && owner !in NftSnapshot.Owners(Base(nfts), k)
    ensures Tally(nfts, metadata, tiers, trust, currency, k, owner)
         == TraitHolder(owner, 0, [], NftSnapshot.CurrencyTrustline(trust(owner), currency), 0.0)
    decreases k
  {
    if k > 0 {
      assert Base(nfts)[k - 1].owner != owner;
      UnseenOwner(nfts, metadata, tiers, trust, currency, k - 1, owner);
    }
  }

  lemma TallyNewOwner(holders: map<string, TraitHolder>, nfts: seq<TraitNft>, metadata: string -> Option<seq<Attr>>,
                      tiers: seq<TraitTier>, trust: string -> TokenSnapshot.LinesReply, currency: string, k: nat,
                      owner: string, h: TraitHolder)
    requires k <= |nfts| && TalliedUpTo(holders, nfts, metadata, tiers, trust, currency, k)
    requires h == Tally(nfts, metadata, tiers, trust, currency, k, owner)
    ensures TalliedUpTo(holders[owner := h], nfts, metadata, tiers, trust, currency, k)
  {
  }

  lemma TallyStep(holders: map<string, TraitHolder>, nfts: seq<TraitNft>, metadata: string -> Option<seq<Attr>>,
                  tiers: seq<TraitTier>, trust: string -> TokenSnapshot.LinesReply, currency: string, i: nat, h: TraitHolder)
    requires i < |nfts| && TalliedUpTo(holders, nfts, metadata, tiers, trust, currency, i)
    requires nfts[i].nft.owner in holders
    requires h == Counted(holders[nfts[i].nft.owner], nfts[i], metadata, tiers)
    ensures TalliedUpTo(holders[nfts[i].nft.owner := h], nfts, metadata, tiers, trust, currency, i + 1)
  {
  }

  lemma TalliedHolders(holders: map<string, TraitHolder>, checked: seq<string>, nfts: seq<TraitNft>,
                       metadata: string -> Option<seq<Attr>>, tiers: seq<TraitTier>,
                       trust: string -> TokenSnapshot.LinesReply, currency: string, holderList: seq<TraitHolder>)
    requires checked == NftSnapshot.Owners(Base(nfts), |Base(nfts)|) && (forall o :: o in holders <==> o in checked)
    requires TalliedUpTo(holders, nfts, metadata, tiers, trust, currency, |nfts|)
    requires |holderList| == |checked| && forall j :: 0 <= j < |checked| ==> holderList[j] == holders[checked[j]]
    ensures holderList == Holders(nfts, metadata, tiers, trust, currency)
  {
    var hs := Holders(nfts, metadata, tiers, trust, currency);
    forall j | 0 <= j < |checked|
      ensures holderList[j] == hs[j]
    {
      assert checked[j] in holders;
    }
  }

  // ---------------------------------------------------------------------------
  // Snapshots and the send list
  // ---------------------------------------------------------------------------

  /** One snapshot record; non-qualified records carry neither `readyForDrop` nor `nfts`. */
  datatype HolderRecord = HolderRecord(
    holderAddress: string,
    totalNFTs: nat,
    ignored: bool,
    hasTrustline: bool,
    readyForDrop: Option<bool>,
    isQualified: bool,
    totalAmount: real,
    nfts: Option<seq<TraitRecord>>)

  function Classified(h: TraitHolder, ignoreWallets: seq<string>): HolderRecord {
    var ignored := h.wallet in ignoreWallets;
    if h.totalAmount > 0.0 then
      HolderRecord(h.wallet, h.totalNFTs, ignored, h.hasTrustline, Some(h.hasTrustline), true, h.totalAmount, Some(h.nfts))
    else
      HolderRecord(h.wallet, h.totalNFTs, ignored, h.hasTrustline, None, false, h.totalAmount, None)
  }

  function ClassifiedAll(holders: seq<TraitHolder>, ignoreWallets: seq<string>): (r: seq<HolderRecord>)
    ensures |r| == |holders|
  {
    seq(|holders|, i requires 0 <= i < |holders| => Classified(holders[i], ignoreWallets))
  }

  predicate Ready(d: HolderRecord) { d.readyForDrop == Some(true) }
  predicate QualifiedOnly(d: HolderRecord) { d.readyForDrop == Some(false) }
  predicate NonQualified(d: HolderRecord) { d.readyForDrop.None? }
  /** The send-list filter applied to the ready records: ignored wallets are flagged in the snapshot but never paid. */
  predicate NotIgnored(d: HolderRecord) { !d.ignored }

  datatype Snapshot = Snapshot(withTrustline: seq<HolderRecord>, withoutTrustline: seq<HolderRecord>,
                               nonQualified: seq<HolderRecord>)

  /** The `forEach` over `Object.values(holders)`: qualified by a positive total, ready with a trust line. */
  method Classify(holders: seq<TraitHolder>, ignoreWallets: seq<string>) returns (s: Snapshot)
    ensures s.withTrustline == Filter(ClassifiedAll(holders, ignoreWallets), Ready)
    ensures s.withoutTrustline == Filter(ClassifiedAll(holders, ignoreWallets), QualifiedOnly)
    ensures s.nonQualified == Filter(ClassifiedAll(holders, ignoreWallets), NonQualified)
  {
    ghost var records := ClassifiedAll(holders, ignoreWallets);
    var ready, qualified, rest := [], [], [];
    for i := 0 to |holders|
      invariant ready == Filter(records[..i], Ready)
      invariant qualified == Filter(records[..i], QualifiedOnly)
      invariant rest == Filter(records[..i], NonQualified)
    {
      var h := holders[i];
      var ignored := h.wallet in ignoreWallets;
      var d: HolderRecord;
      if h.totalAmount > 0.0 {
        d := HolderRecord(h.wallet, h.totalNFTs, ignored, h.hasTrustline, Some(h.hasTrustline), true, h.totalAmount, Some(h.nfts));
      } else {
        d := HolderRecord(h.wallet, h.totalNFTs, ignored, h.hasTrustline, None, false, h.totalAmount, None);
      }
      assert d == records[i];
      assert records[..i + 1] == records[..i] + [d];
      FilterSnoc(records[..i], d, Ready);
      FilterSnoc(records[..i], d, QualifiedOnly);
      FilterSnoc(records[..i], d, NonQualified);
      if h.totalAmount > 0.0 {
        if h.hasTrustline {
          ready := ready + [d];
        } else {
          qualified := qualified + [d];
        }
      } else {
        rest := rest + [d];
      }
    }
    assert records[..|holders|] == records;
    s := Snapshot(ready, qualified, rest);
  }

  /**
   * The three lists partition the owners. The list handed to the sender holds
   * exactly the owners with a positive total, a trust line and a wallet that
   * is not ignored.
   */
  lemma SnapshotAndSendList(holders: seq<TraitHolder>, ignoreWallets: seq<string>)
    ensures var rs := ClassifiedAll(holders, ignoreWallets);
      && multiset(Filter(rs, Ready)) + multiset(Filter(rs, QualifiedOnly)) + multiset(Filter(rs, NonQualified)) == multiset(rs)
      && forall d :: d in Filter(Filter(rs, Ready), NotIgnored) <==>
           exists i :: 0 <= i < |holders| && d == rs[i]
                       && holders[i].totalAmount > 0.0 && holders[i].hasTrustline && holders[i].wallet !in ignoreWallets
  {
    var rs := ClassifiedAll(holders, ignoreWallets);
    assert forall i :: 0 <= i < |rs| ==> ExactlyOne(rs[i], Ready, QualifiedOnly, NonQualified);
    ThreeWaySplit(rs, Ready, QualifiedOnly, NonQualified);
    SendListMembers(holders, ignoreWallets);
  }

  /** A record is handed to the sender exactly when its owner has a positive total, a trust line and a wallet not ignored. */
  lemma SendListMembers(holders: seq<TraitHolder>, ignoreWallets: seq<string>)
    ensures var rs := ClassifiedAll(holders, ignoreWallets);
      forall d :: d in Filter(Filter(rs, Ready), NotIgnored) <==>
        exists i :: 0 <= i < |holders| && d == rs[i]
                    && holders[i].totalAmount > 0.0 && holders[i].hasTrustline && holders[i].wallet !in ignoreWallets
  {
    var rs := ClassifiedAll(holders, ignoreWallets);
    var sent := Filter(Filter(rs, Ready), NotIgnored);
    FilterMembers(rs, Ready);
    FilterMembers(Filter(rs, Ready), NotIgnored);
    forall d
      ensures d in sent <==>
        exists i :: 0 <= i < |holders| && d == rs[i]
                    && holders[i].totalAmount > 0.0 && holders[i].hasTrustline && holders[i].wallet !in ignoreWallets
    {
      if d in sent {
        assert d in rs && Ready(d) && NotIgnored(d);
        var i :| 0 <= i < |rs| && rs[i] == d;
        assert holders[i].totalAmount > 0.0 && holders[i].hasTrustline && holders[i].wallet !in ignoreWallets;
      }
      if exists i :: 0 <= i < |holders| && d == rs[i]
                     && holders[i].totalAmount > 0.0 && holders[i].hasTrustline && holders[i].wallet !in ignoreWallets {
        var i :| 0 <= i < |holders| && d == rs[i]
                 && holders[i].totalAmount > 0.0 && holders[i].hasTrustline && holders[i].wallet !in ignoreWallets;
        assert rs[i] in rs && Ready(rs[i]) && NotIgnored(rs[i]);
      }
    }
  }

  /**
   * `generateSnapshot` of `indexNFTrait.js`: `collection` is the collection
   * API's NFT list (`None` when the request failed). Returns the snapshot and,
   * unless `testMode`, the list handed to `sendAirdrop`.
   */
  method GenerateSnapshot(collection: Option<seq<TraitNft>>, metadata: string -> Option<seq<Attr>>, tiers: seq<TraitTier>,
                          trust: string -> TokenSnapshot.LinesReply, currency: string, ignoreWallets: seq<string>,
                          testMode: bool)
    returns (snapshot: Option<Snapshot>, sendList: Option<seq<HolderRecord>>)
    ensures snapshot.None? <==> collection.None? || collection.value == []
    ensures snapshot.Some? ==>
      var rs := ClassifiedAll(Holders(collection.value, metadata, tiers, trust, currency), ignoreWallets);
      snapshot.value == Snapshot(Filter(rs, Ready), Filter(rs, QualifiedOnly), Filter(rs, NonQualified))
    ensures sendList.Some? <==> snapshot.Some? && !testMode
    ensures sendList.Some? ==> sendList.value == Filter(snapshot.value.withTrustline, NotIgnored)
  {
    snapshot, sendList := None, None;
    if collection.None? || collection.value == [] {
      return;
    }
    var holders := Aggregate(collection.value, metadata, tiers, trust, currency);
    var s := Classify(holders, ignoreWallets);
    snapshot := Some(s);
    if !testMode {
      sendList := Some(Filter(s.withTrustline, NotIgnored));
    }
  }
}
