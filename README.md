# NTGdrop airdrop core, modelled in Dafny

NTGdrop is a set of Node.js scripts that take holder snapshots on the XRP
Ledger and pay airdrops to them. This project models the logic of six of
them:

- `index.js`: the token snapshot. It pages through the hold issuer's trust
  lines and keeps the holders of the hold currency, minus ignored wallets and
  zero balances. It checks each holder's trust line for the airdropped token,
  with retries. It classifies each holder by the first balance tier containing
  its holding, writes three snapshots, and hands the ready holders to the
  `send` of `./send`. That module is not part of this model; the model uses
  the dispatcher of `send3.js` in its place.
- `send3.js`: the token dispatcher. It reads the sender's sequence once and
  submits one payment per user, advancing the sequence only past submitted
  transactions. Each failure is logged at once. Afterwards every submitted
  transaction is polled (at most 11 `tx` requests) and logged exactly once, in
  the success or the failed store.
- `indexNFT.js`: the NFT-holder snapshot. It builds one record per owner with
  listed / listed-above / listed-under / unlisted counters, then classifies by
  the count tier of unlisted plus listed-above NFTs. It writes per-category
  summaries and pays the ready owners by the tier of their total count, using
  `submitAndWait`.
- `indexNFTrait.js`: the trait snapshot. An NFT is accepted only if its URI is
  hex and decodes to an `ipfs://` link. The link is rewritten to the public
  gateway. The NFT is rewarded with the sum of every trait tier one of its
  attributes matches. Owners accumulate these rewards and are split into
  three snapshots. Ignored wallets are flagged, then dropped from the send list.
- `sendNFT.js`: the trait dispatcher. It pays each ready holder the amount of
  the first trait tier its NFTs name, not its total. Sending is refused when
  the sender's last balance line for the currency does not cover the list.
  Transactions are submitted with explicit sequences and validated, then polled
  and logged. Finally the transactions are split into two summaries by their
  submission result.
- `index2.js`: the category-list airdrop. Every address under a category key
  of the list file is paid that category's amount. In test mode only a
  snapshot is built. Otherwise a module-level counter numbers the payments,
  each is submitted without an explicit sequence, and all are then polled and
  logged. A failed submission stops the whole run before anything is logged,
  because the `catch` refers to the block-scoped `signed` and throws. The model
  reproduces this as a `Crashed` result: no store changes and no polling.

Network replies are modelled as oracle functions, indexed by attempt and by
item. Files are modelled as values. The loops are sequential `method`s, each
proved against a recursive specification function, and the properties are
lemmas about those functions. The two log stores are a `class` whose
`logTransaction` appends to one of them.

## Model

| member | source | states |
|---|---|---|
| Tiers.FirstMatch | src/index.js:87-93 | the index of the first tier whose closed range holds the value, or none exactly when no tier does |
| Tiers.Scan | src/indexNFT.js:111-117 | the scanning loop with `break` finds the first matching tier |
| TxLog.Log.LogTransaction | src/send3.js:17-32 | appends the entry to the success store or the failed store, as the flag selects; a missing file reads as empty; the other store is unchanged |
| TxLog.Poll | src/send3.js:95-132 | between 1 and 11 `tx` requests; every request before the last found nothing; polling stops early only on a found result |
| TxLog.FetchTransactionResult | src/send3.js:95-132 | makes the requests `Poll` counts and appends exactly one entry, routed to the success store exactly when the result is `tesSUCCESS` |
| TxLog.SettlementWriteRouting | src/send3.js:100-130 | a settlement goes to the success store exactly when its result is `tesSUCCESS`, and carries the transaction's counter, account and explorer link |
| TxLog.NeverFoundIsLoggedAsError | src/send3.js:116-130 | a transaction that is never found costs exactly 11 requests and one failed `ERROR` entry |
| TxLog.RoutedSplit | src/send3.js:17-32 | every logging call lands in exactly one of the two stores |
| TxLog.RoutedMembers | src/send3.js:17-32 | an entry is in a store exactly when some call wrote it with that store's flag |
| Dispatch.SendAttempt | src/send3.js:35-92 | a job yields a transaction exactly when it is valid and submitted; otherwise one `ERROR` entry with the job's counter, whose link is `N/A` unless signing happened |
| Dispatch.SendTransaction | src/send3.js:35-92 | returns the transaction `SendAttempt` predicts and logs only the failure entry, in the failed store |
| Dispatch.SubmitPhase | src/send3.js:156-164 | transactions plus failures number the users processed; the i-th transaction has sequence start + i |
| Dispatch.SubmitPhaseCounters | src/send3.js:156-164 | each transaction and each failure carries counter i + 1 of the user it came from, and counters increase |
| Dispatch.SubmitAll | src/send3.js:156-164 | the submission loop returns the transactions of `SubmitPhase` and logs its failures |
| Dispatch.SettleAll | src/send3.js:167-171 | the polling loop logs one settlement per transaction, in submission order |
| Dispatch.Send | src/send3.js:138-176 | the stores gain this run's failures and settlements, and nothing else |
| Dispatch.EachUserLoggedOnce | src/send3.js:138-176 | failure entries plus settlement entries number the users: every user ends up with exactly one log entry |
| Dispatch.SuccessStoreHoldsSettledSuccesses | src/send3.js:106-109 | every success entry is a `tesSUCCESS` settlement of a submitted transaction, with its counter and explorer link |
| Dispatch.InvalidJobDoesNotConsumeSequence | src/send3.js:156-164 | a worked example: an invalid job between two valid ones is logged with counter 2, and the third job gets the sequence the invalid one would have used |
| TokenSnapshot.PageHolders | src/index.js:41-44 | a page keeps only lines of the hold currency, not ignored, with a non-zero balance, as its absolute value |
| TokenSnapshot.PageHoldersMembers | src/index.js:41-44 | a holder is kept exactly when some line of the page yields it |
| TokenSnapshot.LastPage | src/index.js:31-46 | the first reply from k that ends the loop (no marker, or an error) |
| TokenSnapshot.Paginate | src/index.js:27-51 | fails exactly when the final request failed; every holder kept is positive and not ignored |
| TokenSnapshot.PaginateMembers | src/index.js:31-46 | the holders are exactly those of the pages read, before the loop ended |
| TokenSnapshot.CollectHolders | src/index.js:27-51 | the paging loop returns `Paginate`'s holders and sends the first request without a marker and each later one with the previous page's marker |
| TokenSnapshot.TwoPagesExample | src/index.js:41-46 | a worked two-page example: zero and other-currency lines are dropped, a negative balance becomes positive, pages concatenate |
| TokenSnapshot.CheckTrustline | src/index.js:160-180 | has a result exactly when the reply has lines; true exactly when one line has the currency and the issuer |
| TokenSnapshot.RetryTrust | src/index.js:145-158 | between 1 and 4 requests; true exactly when the last one answered and found the line; false after 4 failed requests |
| TokenSnapshot.RetryCheckTrustline | src/index.js:145-158 | the retry recursion computes `RetryTrust` |
| TokenSnapshot.CheckTrustlines | src/index.js:66-73 | one check per holder, each against its own replies |
| TokenSnapshot.Classify | src/index.js:83-110 | the three snapshots are the records filtered by ready, qualified-only and non-qualified |
| TokenSnapshot.SnapshotIsPartition | src/index.js:103-109 | every holder lands in exactly one snapshot (a permutation of the records) |
| TokenSnapshot.ReadyMeansFirstTierAndTrustline | src/index.js:87-101 | a record is ready exactly when some tier holds its balance and it has a trust line, and it carries the first such tier's amount |
| TokenSnapshot.GenerateSnapshot | src/index.js:18-143 | no snapshot exactly when paging failed or found nobody; the records are `SnapshotOf`; outside test mode the stores gain the dispatcher's writes |
| TokenSnapshot.SnapshotNeverIgnored | src/index.js:41-97 | ignored wallets never reach the snapshot, so no record is flagged ignored |
| TokenSnapshot.JobsPayFirstTier | src/index.js:87-141 | every job pays a collected holder with a trust line the first tier amount for its balance |
| TokenSnapshot.EveryTrustedTieredHolderPaid | src/index.js:87-141 | the converse: every collected holder with a trust line and a tier for its balance gets a job paying it the first such tier's amount |
| NftSnapshot.IsNftListedForSale | src/indexNFT.js:221-245 | between 1 and 4 requests, all but the last of them failed; listed, at the first offer's price, exactly when the last reply had offers; otherwise unlisted at price 0 |
| NftSnapshot.RecordFor | src/indexNFT.js:66-82 | listed-above exactly when listed at or above the floor; qualified exactly when unlisted or listed above |
| NftSnapshot.Owners | src/indexNFT.js:48-64 | the owners in first-seen order, without repeats, and exactly the owners of the NFTs |
| NftSnapshot.CheckTrustline | src/indexNFT.js:203-219 | true exactly when the reply has a line of the currency, whatever its issuer; a failed request is false |
| NftSnapshot.Aggregate | src/indexNFT.js:48-95 | the walk over the NFTs returns `Holders`, and the holder count is its length |
| NftSnapshot.Visit | src/indexNFT.js:48-95 | one pass of the loop keeps `checked` equal to the first-seen owners, `holders` keyed by exactly those owners, and every record equal to what its NFTs so far add up to |
| NftSnapshot.Welcome | src/indexNFT.js:49-64 | an owner's first NFT appends it to `checked` and creates its empty record with the looked-up trust line |
| NftSnapshot.Collect | src/indexNFT.js:107 | `Object.values(holders)` in owner insertion order is `Holders` |
| NftSnapshot.OneRecordPerOwner | src/indexNFT.js:48-64 | owners appear exactly once, and only owners appear |
| NftSnapshot.RecordsCountOwned | src/indexNFT.js:65-82 | an owner has one NFT record per NFT it owns |
| NftSnapshot.HolderCounters | src/indexNFT.js:65-92 | `totalNFTs` counts the owner's NFTs; listed = above + under; total = listed + unlisted; unlisted + above counts the qualified records |
| NftSnapshot.CategoryOf | src/indexNFT.js:111-117 | the `min-max` label of the first tier holding the count, present exactly when some tier holds it |
| NftSnapshot.ClassifyOne | src/indexNFT.js:107-165 | one holder's record and category; a category exactly when qualified |
| NftSnapshot.Classify | src/indexNFT.js:107-166 | the three snapshots are filters of the records; each summary counts its snapshot's records per category |
| NftSnapshot.SnapshotPartition | src/indexNFT.js:118-165 | a permutation of the records; ready exactly when a count tier applies and there is a trust line; ignored only flags |
| NftSnapshot.SendAirdrop | src/indexNFT.js:247-329 | the success and failure lists are the airdrop entries filtered by `tesSUCCESS` |
| NftSnapshot.Pay | src/indexNFT.js:276-309 | the entry pays the holder the tier's amount under the tier's category, and only a settled transaction can report `tesSUCCESS` |
| NftSnapshot.EntriesSnoc | src/indexNFT.js:281-309 | a holder with a tier adds its entry to the end of exactly one of the two lists, chosen by `tesSUCCESS` |
| NftSnapshot.AirdropAccounting | src/indexNFT.js:255-310 | one entry per holder whose total count has a tier, and every such holder's own entry is among them; a success carries a link and no error |
| NftSnapshot.EntriesInHolderOrder | src/indexNFT.js:255-310 | entries follow the tiered holders one to one, in list order: the entry of a holder with a tier is at the index counting the tiered holders before it |
| NftSnapshot.EntriesPayByTotal | src/indexNFT.js:255-300 | every entry pays its holder's tier for `totalNFTs`, not for the qualifying count |
| NftSnapshot.GenerateSnapshot | src/indexNFT.js:19-201 | no snapshot exactly when the collection failed or was empty; an airdrop exactly when there is a snapshot outside test mode |
| TraitSnapshot.IpfsRewrite | src/indexNFTrait.js:75-79 | the first `ipfs://` becomes the gateway prefix, and the original URI is recoverable |
| TraitSnapshot.MetadataUrl | src/indexNFTrait.js:63-79 | a metadata URL exactly when the URI is present, hex and decodes to an `ipfs://` link |
| TraitSnapshot.RewardDependsOnAttributeSet | src/indexNFTrait.js:86-89 | the reward depends only on which attributes are present, not on their order or repeats |
| TraitSnapshot.SumPositive | src/indexNFTrait.js:89 | with positive tier amounts, the sum is non-negative, and zero only when no tier matched |
| TraitSnapshot.RewardPositiveIffMatch | src/indexNFTrait.js:86-89 | with positive tier amounts, a positive reward exactly when some tier matches an attribute |
| TraitSnapshot.RewardExample | src/indexNFTrait.js:86-89 | a worked example: two of three tiers match and the reward is their sum |
| TraitSnapshot.RecordFor | src/indexNFTrait.js:86-111 | the record's amount is the reward and its qualified traits the matches; the trait named is the first match; qualified exactly when positive with a trust line |
| TraitSnapshot.Holders | src/indexNFTrait.js:48-115 | one holder per owner of the collection |
| TraitSnapshot.TallyInvariants | src/indexNFTrait.js:48-115 | `totalNFTs` counts every owned NFT, skipped ones included; the trust line is the owner's; the records stay consistent |
| TraitSnapshot.TallyCounts | src/indexNFTrait.js:48-62 | `totalNFTs` is the number of the owner's NFTs in the prefix, and `wallet` and `hasTrustline` are fixed at creation |
| TraitSnapshot.TallyConsistent | src/indexNFTrait.js:86-112 | after any prefix, at most one record per counted NFT, the total is the sum of the record amounts, `qualified` is positive amount and trust line, and the records come from the table |
| TraitSnapshot.CountedConsistent | src/indexNFTrait.js:62-112 | one more NFT, skipped or accepted, keeps an owner's record consistent |
| TraitSnapshot.PositiveTotalNamesATier | src/indexNFTrait.js:89-108 | a positive total means some record names a tier of the table |
| TraitSnapshot.CountNft | src/indexNFTrait.js:62-112 | one NFT's step: the three `continue` skips count the NFT but add no record |
| TraitSnapshot.Aggregate | src/indexNFTrait.js:48-115 | the walk over the NFTs returns `Holders` |
| TraitSnapshot.Visit | src/indexNFTrait.js:48-115 | one pass of the loop keeps `checked` equal to the first-seen owners, `holders` keyed by exactly those owners, and every record equal to `Tally` of the prefix |
| TraitSnapshot.Welcome | src/indexNFTrait.js:49-61 | an owner's first NFT appends it to `checked` and creates its empty record with the looked-up trust line |
| TraitSnapshot.Collect | src/indexNFTrait.js:125 | `Object.values(holders)` in owner insertion order is `Holders` |
| TraitSnapshot.Classify | src/indexNFTrait.js:125-160 | the three snapshots are the records filtered by ready, qualified-only and non-qualified |
| TraitSnapshot.SnapshotAndSendList | src/indexNFTrait.js:125-191 | a permutation of the records; a holder is sent to exactly when its total is positive, it has a trust line and it is not ignored |
| TraitSnapshot.SendListMembers | src/indexNFTrait.js:125-191 | both directions: a record is in the send list exactly when its owner's total is positive, it has a trust line and its wallet is not ignored |
| TraitSnapshot.GenerateSnapshot | src/indexNFTrait.js:19-193 | no snapshot exactly when the collection failed or was empty; the send list is the ready records minus ignored ones, outside test mode |
| NftDispatch.FirstTrait | src/sendNFT.js:142 | the first tier in table order that one of the NFT records names, or none exactly when none is named |
| NftDispatch.JobFor | src/sendNFT.js:140-144 | a job exactly when the records name some tier; it pays that tier's amount under the label `trait_type-value` |
| NftDispatch.UserList | src/sendNFT.js:140-144 | one job per ready holder |
| NftDispatch.UserListJobs | src/sendNFT.js:140-144 | the k-th job is the job of the k-th ready holder |
| NftDispatch.PaysFirstNamedTier | src/sendNFT.js:142-143 | the payment is the amount of a tier the holder's records name, with no earlier tier named |
| NftDispatch.PaysFirstTierNotTotal | src/sendNFT.js:142 | a worked example: a holder whose snapshot total is 8 is paid 5 |
| NftDispatch.TraitSnapshotIsPayable | src/indexNFTrait.js:125-137 | every ready holder of a trait snapshot names a tier, so building the user list cannot throw |
| NftDispatch.LastBalance | src/sendNFT.js:165-168 | zero with no line of the currency; otherwise the balance of the last such line |
| NftDispatch.SenderBalance | src/sendNFT.js:165-168 | the balance loop computes `LastBalance` |
| NftDispatch.TotalBoundsEachJob | src/sendNFT.js:169 | the required total is at least every single job's amount |
| NftDispatch.SendAttempt | src/sendNFT.js:36-89 | a transaction exactly when validated, with its reported result; otherwise one `ERROR` entry, linked only when signing happened |
| NftDispatch.SendTransaction | src/sendNFT.js:36-89 | returns what `SendAttempt` predicts and logs only the failure entry |
| NftDispatch.SubmitPhase | src/sendNFT.js:179-188 | transactions plus failures number the jobs processed |
| NftDispatch.SubmitPhaseShape | src/sendNFT.js:179-188 | sequences are gapless from the start; counters lie in `1..k`, match the jobs they pay and increase |
| NftDispatch.SubmitAll | src/sendNFT.js:179-188 | the submission loop returns `SubmitPhase`'s transactions and logs its failures |
| NftDispatch.Send | src/sendNFT.js:135-238 | a failed request or an insufficient balance sends nothing; otherwise the stores gain the failures and settlements and the summaries split the transactions |
| NftDispatch.SummariesSplitTransactions | src/sendNFT.js:196-229 | the two summaries together hold one entry per submitted transaction |
| NftDispatch.SubmittedInListOrder | src/sendNFT.js:179-188 | submitted transactions keep the order of the user list |
| NftDispatch.SubmittedValidated | src/sendNFT.js:182-186 | every collected transaction was validated by `submitAndWait` |
| CategoryAirdrop.AmountForIsFirstMatch | src/index2.js:35 | the amount lookup returns the first tier whose category string equals the key, and nothing exactly when none does |
| CategoryAirdrop.JobsAreListedAndPriced | src/index2.js:33-60 | one payment per listed address; each pays an address of its category that category's amount |
| CategoryAirdrop.EveryListedAddressPaid | src/index2.js:33-60 | the converse: every address listed under a key gets a payment of that key's amount |
| CategoryAirdrop.TestSnapshot | src/index2.js:29-51 | the nested loops build one snapshot entry per address, in key then address order |
| CategoryAirdrop.DispatchNumbering | src/index2.js:15-81 | the loop runs to the end exactly when every submission succeeds; otherwise it stops at the first failure; the i-th transaction carries counter base + i + 1 |
| CategoryAirdrop.StoppedStaysStopped | src/index2.js:133-146 | once a submission has thrown, no later payment is attempted |
| CategoryAirdrop.Airdrop.SubmitCategory | src/index2.js:60-79 | the inner loop: counter + 1 per address, collecting submissions until one throws |
| CategoryAirdrop.Airdrop.SubmitAddress | src/index2.js:59-76 | one address bumps the counter by one; a submission extends the transactions as `Dispatched` does, and a throw stops the whole run at this counter |
| CategoryAirdrop.CategoryStep | src/index2.js:59-76 | the payment of address `j` is numbered one past `base` plus the earlier payments plus `j`; a submission appends its transaction, and a throw leaves the run stopped through the rest of the category |
| CategoryAirdrop.Airdrop.Submit | src/index2.js:56-81 | the nested loops follow `Dispatched`: the counter ends at the failing payment or after the last one |
| CategoryAirdrop.Airdrop.SettleAll | src/index2.js:84-87 | the polling loop logs one settlement per collected transaction, in order |
| CategoryAirdrop.EachTransactionLoggedOnce | src/index2.js:151-209 | every polled transaction adds exactly one entry to one store |
| CategoryAirdrop.Airdrop.Run | src/index2.js:17-94 | read failure, test snapshot, crash with no store changed, or completion with one settlement per payment |

## Left out

- Network I/O (WebSocket client, HTTP gateways, the XRPL data API) is replaced by oracle functions passed as parameters. Connection set-up failures are not modelled.
- Delays, progress bars, console output and timestamps (`moment`) have no effect on the modelled state and are left out.
- The `p-limit` concurrency of the trust-line checks in `index.js` is modelled as a sequential loop. Each holder's check depends only on its own replies.
- Amounts and balances are reals, without JavaScript floating-point rounding. Fees are kept in drops: `dropsToXrp` is not modelled.
- Hex encoding of memos and hex-to-UTF-8 decoding of NFT URIs are not modelled. A decoded URI is an input beside the hex string.
- Writing the snapshot and summary JSON files is modelled by returning their contents. The log stores are the `TxLog.Log` class. `JSON.parse` of a corrupt file is not modelled.
- Explorer links are modelled as the transaction hash only. The `xrpscan.com`, `mainnet.xrpl.org` and `bithomp.com` prefixes differ between scripts and carry no logic, except the `bithompLink` of the `index2.js` test snapshot, which is modelled.
- The `sendAirdrop` that `indexNFTrait.js` calls is not defined in that file and is not part of this model. The model stops at the send list it would be given.
- `sendNFT.js` reads its holders from the snapshot file. The model takes them as a parameter, so holders before the `readyForDrop` filter are whatever the file held.
- `logUser.js` is not part of this model.
- `index.js` requires `./send`, which is not part of this model, and reads `../config.json`, while `send3.js` reads `../config3.json`. TokenSnapshot.GenerateSnapshot assumes that `./send` behaves like the `send` of `send3.js`, with the same currency, issuer and seed.
- `sendNFT.js` reads `tx.result.result.meta.TransactionResult` of every collected transaction. The model's validation outcome always carries a result code and a fee, so a validated reply without `meta`, which would throw there, is not modelled.
- NFT fields that are only copied into the snapshot are not carried: flags, taxon, royalties, serial, metadata name and schema.
- TokenSnapshot.Paginate: requires that some reply ends the paging loop. With an endless marker chain the source loops forever.
- TokenSnapshot.GenerateSnapshot: requires a non-empty tier table whenever holders were found. `airdropAmounts[0].min` would throw otherwise.
- NftDispatch.Send: requires that every ready holder names a tier. Otherwise `.find(...).amount` throws. NftDispatch.TraitSnapshotIsPayable shows this always holds for a snapshot the trait script wrote.
- CategoryAirdrop.Airdrop.Run: requires that every category key has an amount. Otherwise `.find(...).amount` throws.
- TraitSnapshot.CountedEffect: states the effect of one NFT step as a lemma with an empty proof. It adds nothing beyond `Counted`'s definition.
- The `checked.includes(n.Owner)` test in `indexNFT.js` and `indexNFTrait.js` can never be true once `holders[n.Owner]` is unset. It is modelled as an assertion rather than a branch.
