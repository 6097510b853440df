# Fractionalisation front end: the rules behind the pages

A Dafny model of the deterministic rules inside a web front end for NFT
fractionalisation, NFT boxes, a marketplace and a token bridge.  The front
end is written in TypeScript with React.  Most of it is markup and calls to
contracts, subgraphs and HTTP services.  Inside it sit small rules that
decide what the pages show and send, and this project models them:

- the transaction-confirmation poller: the confirmation count, one timer
  step over the shared transaction slot, and the chain of 2-second retries;
- the fractionalisation form: name, symbol and reserve-price acceptance,
  the fraction decimals, the exact fraction price with its remainder, and
  the rule that disables the Fractionalize button;
- the bridge form: the amount text, the fee, the net amount, the per-network
  supply and its percentage split, and the choice of the single action button;
- the peer-to-peer order book: the market id, the age labels, the bid/ask
  mapping and the pair price;
- the marketplace listing: the filter table, the query plan, the v1/v2 row
  normalisation, metadata enrichment and the liquidity step;
- the wallet service: the provider switch, the API and subgraph item
  mappings, the metadata join, the share list, token balances and the logo URL;
- the box service: box ids, box metadata assembly, the box list, and adding
  and removing an item;
- list state and paging on the add-to-box modal, the box details page, the
  wallet hooks and the "choose an NFT" page;
- the box-minting form and its IPFS upload, the boxes page, and the FAQ
  accordion of the landing page.

Every value from the outside world is a parameter of the operation that
reads it: ledger replies, block heights, subgraph and HTTP answers, the
clock, and the outcome of a sent transaction.  A component's React state
becomes a class whose fields its handlers and effects update.  A
`forEach`/`push` rebuild becomes a method with a loop, proved equal to a
function on sequences.  Each function is then related to its partner
(inverse, invariant or reference definition) by lemmas.

Numbers are exact: BigNumber and `Number` values are `real`, and counts
are `nat`.  `scale(x, d)` is taken as `x * 10^d` (`Common.Scale`).  The
letter-case comparisons lower-case ASCII letters only.  The compared values
are hexadecimal addresses and decimal ids, for which that is exact.

Module per source file:

| module | file |
|---|---|
| Common | shared helpers (truthiness, lower-casing, first-occurrence replace, decimal strings, scaling) |
| TransactionService | src/services/TransactionService.ts |
| Fractionalize | src/components/fractionalize/FractionalizeERC721.tsx |
| Bridge | src/components/bridge/BridgeForm.tsx |
| PeerToPeer | src/services/PeerToPeerService.ts |
| Marketplace | src/services/MarketplaceService.ts |
| WalletService | src/services/WalletService.ts |
| BoxService | src/services/BoxService.ts |
| AddBoxModal | src/components/box/AddBoxModal.tsx |
| BoxDetails | src/pages/BoxDetailsPageV2.tsx |
| WalletHooks | src/hooks/WalletHooks.tsx |
| FractionalizePage | src/pages/FractionalizePage.tsx |
| BoxesPage | src/pages/BoxesPage.tsx |
| IpfsService | src/services/IpfsService.ts |
| MintBox | src/pages/MintBox.tsx |
| MainPage | src/pages/MainPage.tsx |

## Model

| member | source | states |
|---|---|---|
| TransactionService.FirstCall | src/services/TransactionService.ts:12 | the first check of a poll uses the default 10-second delay and starts unconfirmed |
| TransactionService.GetConfirmations | src/services/TransactionService.ts:38-47 | the count is current block minus mined block for a mined transaction and 0 when it is unmined, unknown or the ledger call fails; it is at least one exactly when the transaction was mined strictly before the current block, so a transaction in the current block counts 0 |
| TransactionService.ConfirmationsGrowWithHeight | src/services/TransactionService.ts:43 | for a mined transaction a later block height never lowers the count |
| TransactionService.ConfirmationCounts | src/services/TransactionService.ts:15 | one confirmation count per timer expiry, in order |
| TransactionService.FirstConfirmed | src/services/TransactionService.ts:16-35 | the first expiry that sees one confirmation or more; every earlier one saw none |
| TransactionService.RetryChain | src/services/TransactionService.ts:34 | every re-arming keeps the hash, chain and confirmed flag and waits 2 seconds; there is no retry bound |
| TransactionService.MarkConfirmed | src/services/TransactionService.ts:19-25 | the confirmed transaction keeps hash, type and params and is marked confirmed |
| TransactionService.TransactionSlot.constructor | src/services/TransactionService.ts:17-28 | the shared slot and its modal and loading flags start as given, with no error raised |
| TransactionService.TransactionSlot.Fire | src/services/TransactionService.ts:14-36 | one expiry: with no confirmation nothing shared is written and exactly one 2-second retry is armed with the same confirmed argument; with one or more and a transaction in the slot, the slot is rewritten confirmed and both flags cleared; with an empty slot exactly one error is raised and nothing else written |
| TransactionService.TransactionSlot.Poll | src/services/TransactionService.ts:12-36 | a whole poll over scripted ledger replies arms the retry chain up to the first confirming reply, is still pending iff no reply confirmed, and ends in the same shared state as the confirming step |
| Fractionalize.Upper | src/components/fractionalize/FractionalizeERC721.tsx:86 | upper-casing keeps the length and changes only ASCII lower-case letters |
| Fractionalize.UpperOfLettersIsStored | src/components/fractionalize/FractionalizeERC721.tsx:83-86 | an accepted symbol upper-cased consists of capital letters and whitespace |
| Fractionalize.PricePatternAccepts | src/components/fractionalize/FractionalizeERC721.tsx:98 | every digits, optional dot and up to 18 digits text matches the price pattern |
| Fractionalize.PricePatternSplits | src/components/fractionalize/FractionalizeERC721.tsx:98 | every text the pattern matches is such a text: the pattern and its description agree |
| Fractionalize.PricePatternParses | src/components/fractionalize/FractionalizeERC721.tsx:65-98 | an accepted price is a decimal number with at most 18 places |
| Fractionalize.FractionDecimals | src/components/fractionalize/FractionalizeERC721.tsx:64 | 4 fraction decimals under a payment token with fewer than 8 decimals, otherwise 6 |
| Fractionalize.FractionPriceDivision | src/components/fractionalize/FractionalizeERC721.tsx:65-68 | the scaled reserve is the whole part of the fraction price times the fraction units plus the remainder, with the remainder in [0, fraction units) |
| Fractionalize.ModZeroIffWholePrice | src/components/fractionalize/FractionalizeERC721.tsx:67-68 | the remainder is zero exactly when the fraction price is a whole number |
| Fractionalize.PriceMod | src/components/fractionalize/FractionalizeERC721.tsx:65-68 | the remainder of the form's price text is undefined exactly when the text does not parse (the empty price), else the exact remainder |
| Fractionalize.FractionalizeDisabled | src/components/fractionalize/FractionalizeERC721.tsx:165-175 | the button is enabled only with release on, a price other than '' and '0', no positive remainder, not an empty box, and name and symbol of two characters or more, and every such form enables it |
| Fractionalize.ZeroPriceEnabled | src/components/fractionalize/FractionalizeERC721.tsx:165-175 | the price "0.0" parses to zero, has remainder 0 and enables the button |
| Fractionalize.CorrectedEnablesOnlyPositiveWholePrices | src/components/fractionalize/FractionalizeERC721.tsx:165-175 | under the corrected rule an enabled button means a positive reserve price, a whole fraction price, and name and symbol of two characters or more |
| Fractionalize.FractionalizeForm.constructor | src/components/fractionalize/FractionalizeERC721.tsx:42-50 | the form starts empty with 1000000 fractions, release on and no error flag |
| Fractionalize.FractionalizeForm.HandleName | src/components/fractionalize/FractionalizeERC721.tsx:74-80 | a name of 1 to 40 characters is kept, anything else clears it; nothing else changes |
| Fractionalize.FractionalizeForm.HandleSymbol | src/components/fractionalize/FractionalizeERC721.tsx:82-90 | a non-empty symbol of ASCII letters and whitespace is stored upper-cased, anything else clears it |
| Fractionalize.FractionalizeForm.HandleReservePrice | src/components/fractionalize/FractionalizeERC721.tsx:92-101 | the first comma becomes a dot; release is on exactly for a non-empty text other than "0", even a rejected one; the price is stored only when it matches the pattern or is empty |
| Fractionalize.FractionalizeForm.HandleFractionsAmount | src/components/fractionalize/FractionalizeERC721.tsx:103-105 | the selected fraction count is stored and nothing else changes |
| Fractionalize.FractionalizeForm.SymbolEffect | src/components/fractionalize/FractionalizeERC721.tsx:181-185 | a non-empty symbol is flagged exactly when shorter than 2 or longer than 5; an empty one leaves the flag |
| Fractionalize.FractionalizeForm.ReservePriceEffect | src/components/fractionalize/FractionalizeERC721.tsx:187-191 | a non-empty price is flagged exactly when it is "0"; an empty one leaves the flag |
| Fractionalize.FractionalizeForm.CurrentPriceMod | src/components/fractionalize/FractionalizeERC721.tsx:65-68 | the form's remainder is undefined exactly while the price is empty |
| Fractionalize.RoundIsNearest | src/components/fractionalize/FractionalizeERC721.tsx:215 | `Math.round` of the price lies within one half of the price |
| Fractionalize.RoundedPriceText | src/components/fractionalize/FractionalizeERC721.tsx:215 | the rounded text written back is accepted by the price pattern |
| Fractionalize.WholeTextParses | src/components/fractionalize/FractionalizeERC721.tsx:215 | the text of a whole number reads back as that number with no decimal places |
| Fractionalize.RoundingSettles | src/components/fractionalize/FractionalizeERC721.tsx:213-217 | rounding the rounded text gives the same text, so the effect settles after one rewrite |
| Fractionalize.FractionalizeForm.RoundingEffect | src/components/fractionalize/FractionalizeERC721.tsx:213-217 | a price that leaves a positive remainder is replaced by the text of its nearest whole number; otherwise nothing changes; the form stays valid |
| Bridge.Destination | src/components/bridge/BridgeForm.tsx:29 | the destination is BSC from Ethereum mainnet and Ethereum from any other chain |
| Bridge.DestinationRoundTrip | src/components/bridge/BridgeForm.tsx:29-83 | between the two bridge networks the destination of the destination is the starting network |
| Bridge.AmountText | src/components/bridge/BridgeForm.tsx:65-71 | a falsy input is stored as '', any other as its text with the first comma made a dot |
| Bridge.BridgeFeeUnits | src/components/bridge/BridgeForm.tsx:108-114 | the fee is fixed fee plus variable rate scaled by 10^-18: scaling it back by 10^18 gives their sum |
| Bridge.NetAmount | src/components/bridge/BridgeForm.tsx:123-128 | the net amount is amount minus fee, clamped at 0 |
| Bridge.NetAmountBounds | src/components/bridge/BridgeForm.tsx:125-126 | with non-negative values the net never exceeds the amount, adds back to it with the fee when the fee is covered, and is 0 otherwise |
| Bridge.Circulating | src/components/bridge/BridgeForm.tsx:147-155 | issued minus burned minus locked is the total supply minus the locked balances |
| Bridge.SupplyReportOf | src/components/bridge/BridgeForm.tsx:147-160 | each network's supply is its circulating supply (issued minus burned minus locked) and the combined supply is their sum; over a non-zero combined supply each percentage is that network's supply over it times 100, and over a zero one it is NaN for a zero network supply and plus or minus infinity, by the supply's sign, otherwise |
| Bridge.PercentagesSumToHundred | src/components/bridge/BridgeForm.tsx:159-160 | for a non-zero combined supply the two percentages add up to 100 |
| Bridge.ConsistentSharesAreNeverInfinite | src/components/bridge/BridgeForm.tsx:136-160 | when no holder's balance is negative and the three together hold at most the network's supply, no percentage is infinite, and a zero combined supply makes both NaN |
| Bridge.InconsistentSharesCanBeInfinite | src/components/bridge/BridgeForm.tsx:147-160 | with locked balances above a network's supply the combined supply can be zero while one share is plus infinity and the other minus infinity |
| Bridge.ExactlyOneButton | src/components/bridge/BridgeForm.tsx:417-442 | a button is displayed exactly when it is the one chosen in the order connect, wrong network, unlock, transfer, so exactly one is displayed |
| Bridge.EnabledTransferCoversFee | src/components/bridge/BridgeForm.tsx:437 | an enabled transfer has a typed amount at least the fee and a non-zero balance |
| Bridge.BridgeForm.constructor | src/components/bridge/BridgeForm.tsx:37-55 | the form starts with no amount, zero fee, net and balance, not approved and no spinner |
| Bridge.BridgeForm.SetMaxValue | src/components/bridge/BridgeForm.tsx:61-63 | MAX copies the balance into the amount |
| Bridge.BridgeForm.HandleAmountChange | src/components/bridge/BridgeForm.tsx:65-71 | the amount becomes the input's stored text and nothing else changes |
| Bridge.BridgeForm.CheckFee | src/components/bridge/BridgeForm.tsx:108-114 | with a chain selected the fees of the destination network are read and, unless the read rejects, the fee is set to the fixed amount plus the variable rate scaled by 18 decimals; without a chain or after a rejected read the fee stays |
| Bridge.BridgeForm.CheckBalance | src/components/bridge/BridgeForm.tsx:116-121 | the balance is read only with an account and a chain and becomes the read's text; a read that rejects or never settles leaves it as it was |
| Bridge.BridgeForm.CheckNetAmount | src/components/bridge/BridgeForm.tsx:123-128 | while an amount is typed the net is recomputed (NaN for an unparsable amount); otherwise it is left as it was |
| Bridge.BridgeForm.CheckIsApproved | src/components/bridge/BridgeForm.tsx:130-134 | without a connected account the bridge is not approved; with one it is approved exactly when the allowance read is positive, and a rejected read leaves the approval as it was |
| Bridge.BridgeForm.ApproveBridge | src/components/bridge/BridgeForm.tsx:73-78 | a failed approval send raises the wrapper's error notice and no other notice is raised; after approving, the allowance is re-read with a connected account and the spinner cleared, the approval then following the allowance; a rejected re-read leaves the spinner on and the approval as it was |
| Bridge.BridgeForm.ExecuteBridge | src/components/bridge/BridgeForm.tsx:80-106 | a deposit of the typed amount to the destination goes out exactly with an account and an amount unless the deposit call throws; a throw of the deposit or of the balance re-read clears the amount and leaves the spinner on, the balance as it was and no notice, and a deposit sent before the re-read throws stays sent; a re-read that never settles also keeps the typed amount; otherwise the amount is cleared, the balance re-read with an account and the success notice raised |
| PeerToPeer.MarketId | src/services/PeerToPeerService.ts:251-318 | the market id is the lower-cased base, a colon, and the lower-cased quote |
| PeerToPeer.MarketIdIgnoresCase | src/services/PeerToPeerService.ts:251-318 | addresses differing only in letter case give the same market id |
| PeerToPeer.MarketIdSplits | src/services/PeerToPeerService.ts:251 | for a colon-free base the id splits back, at its first colon, into the two lower-cased addresses |
| PeerToPeer.GetAge | src/services/PeerToPeerService.ts:225-247 | the age label of the successive overwrites is the coarsest unit whose strict threshold the elapsed seconds pass, with floor division |
| PeerToPeer.AgeRanges | src/services/PeerToPeerService.ts:231-241 | seconds up to and including 60, minutes above 60 up to 3600, hours above 3600 up to 86400, days above; the counts are 1-60 minutes, 1-24 hours, at least one day |
| PeerToPeer.OrderRoundTrip | src/services/PeerToPeerService.ts:262-280 | the bid/ask mapping (id to orderId, baseAmount to bookAmount, quoteAmount to execAmount) is inverted by the reverse renaming |
| PeerToPeer.ToOrders | src/services/PeerToPeerService.ts:262-280 | the mapped order list has the same length and maps each order in place |
| PeerToPeer.ToOrdersInjective | src/services/PeerToPeerService.ts:262-280 | two order lists that map to the same order book are equal, so no order is lost or merged |
| PeerToPeer.ToTransaction | src/services/PeerToPeerService.ts:282-289 | a history entry keeps the trade, adds its age and the market's base and quote ids |
| PeerToPeer.GetMarket | src/services/PeerToPeerService.ts:223-300 | bids become buy orders and asks sell orders in order, trades gain their ages; a missing market gives empty lists silently, a failed query gives empty lists with an error notice |
| PeerToPeer.PairMarketPrice | src/services/PeerToPeerService.ts:301-347 | with orders on one side only, that side's best price as sent; with both, their midpoint; with neither, or on a failure or a reply without data, no price; the notice is raised exactly for a failure or a reply without data |
| PeerToPeer.MidpointBetween | src/services/PeerToPeerService.ts:340-342 | the midpoint lies between the best buy and the best sell price |
| PeerToPeer.NoOrdersNoPrice | src/services/PeerToPeerService.ts:330-332 | empty order books on both sides give no price and no notice |
| Marketplace.RoundMsToSeconds | src/services/MarketplaceService.ts:143-150 | the cutoff is the clock in seconds rounded to the nearest second, halves up |
| Marketplace.FilterVariablesOf | src/services/MarketplaceService.ts:130-158 | 'all' and unknown filters keep every default; 'boxes' sets the box contract; 'firstOffer' sets SET_PRICE; 'fractionSale' sets released; 'liveAuction' and 'sold' set AUCTION_OR_SOLD and the cutoff, and no other filter does |
| Marketplace.SelectFilter | src/services/MarketplaceService.ts:130-158 | the switch over the active filter assigns exactly the table's variables |
| Marketplace.PlanQuery | src/services/MarketplaceService.ts:160-240 | version 1 sends the unpaged query with the caller's released flag; version 2 sends the cutoff_lt query for 'sold', the cutoff_gte query for 'liveAuction' and the general query with the filter's variables otherwise, always with skip = offset, first = page size, the searched name and the caller's order direction and field |
| Marketplace.GeneralQueryForOtherFilters | src/services/MarketplaceService.ts:161-176 | in version 2 every non-auction filter takes the general query, 'boxes' filters on the box contract and only 'fractionSale' asks for released fractions |
| Marketplace.NormalizeV2 | src/services/MarketplaceService.ts:221-228 | a version-2 row gets exitPrice, sharePrice and sharesCount from reservePrice, fractionPrice and fractionsCount, type defaulting to SET_PRICE and status to OFFER, and keeps every other field |
| Marketplace.NormalizeV1 | src/services/MarketplaceService.ts:254-258 | a version-1 row is always SET_PRICE and OFFER and keeps every other field |
| Marketplace.NormalizeIdempotent | src/services/MarketplaceService.ts:221-258 | normalising a normalised row changes nothing, and every row has a type and a status |
| Marketplace.QueryRows | src/services/MarketplaceService.ts:209-258 | a missing result, an error or missing rows give no rows; otherwise every row is normalised in place |
| Marketplace.FindSymbol | src/services/MarketplaceService.ts:74 | the symbol of the first configured token with that id, none when no configured token has it |
| Marketplace.NamedMetadata | src/services/MarketplaceService.ts:66-70 | metadata without a name gets "<collection name> #<token id>"; named metadata is kept |
| Marketplace.EnrichItem | src/services/MarketplaceService.ts:49-93 | the item comes back unchanged with no token URI off mainnet or when no NFT is found; past those returns it throws exactly when the item has no payment token or is a box whose box read throws; otherwise it gets the NFT metadata, the symbol 'ETH' for a token without id or the configured symbol, and the box's NFT count for the box contract compared case-insensitively, else 0, and every other field is unchanged |
| Marketplace.EnrichBoxCount | src/services/MarketplaceService.ts:76-92 | past the early returns an item with a payment token is enriched exactly when it is not a box or its box read succeeds, with the box's count for the box contract and 0 for any other |
| Marketplace.CollectEnriched | src/services/MarketplaceService.ts:117-127 | without a throw the enriched rows in promise-completion order; any throw gives an empty list |
| Marketplace.CollectEnrichedKeepsEveryRow | src/services/MarketplaceService.ts:120-124 | without a throw every enriched row is in the list whatever the completion order |
| Marketplace.ItemLiquidityAsWritten | src/services/MarketplaceService.ts:383-406 | as written, both early returns give back the original item, untouched; with a payment token and a price the quote is set |
| Marketplace.LiquidityDropped | src/services/MarketplaceService.ts:386-392 | an item with no payment token and no liquidity comes back with no liquidity, not the no-liquidity record |
| Marketplace.ItemLiquidity | src/services/MarketplaceService.ts:383-410 | corrected: every item comes back with a liquidity record (the quote, or no liquidity in both early returns) and nothing else changed |
| Marketplace.LiquidityAlwaysSet | src/services/MarketplaceService.ts:383-410 | after the corrected step liquidity is always set, reports liquidity only with a payment token, a price and a positive quote, and agrees with the code as written when both exist |
| WalletService.ProviderFor | src/services/WalletService.ts:45-59 | every provider name selects an implementation; the three known names select their own and any other name falls back to the API provider |
| WalletService.LookupProvider | src/services/MarketplaceService.ts:56 | single-item and listing lookups use the API provider exactly on Ethereum mainnet and the subgraph provider on every other chain |
| WalletService.AnimationType | src/services/WalletService.ts:122 | an item is tagged "mp4" exactly when its animation URL is a non-empty string |
| WalletService.ApiItemOf | src/services/WalletService.ts:103-125 | a listed asset keeps its contract address and token id, is named by its own name or else its collection's, shows the preview image with the full image beside it, and carries the animation tag |
| WalletService.ApiGet721Items | src/services/WalletService.ts:63-131 | off Ethereum mainnet the listing is empty; on mainnet it has one item per asset of the answer, in the answer's order |
| WalletService.FirestoreDocPath | src/services/WalletService.ts:141 | the stored document of an NFT is named by chain id, lower-cased contract address and token id |
| WalletService.DocPathIgnoresCase | src/services/WalletService.ts:141 | two spellings of an address that differ only in letter case name the same stored document |
| WalletService.DocItemOf | src/services/WalletService.ts:165-186 | a stored document is named like a listed asset, but its image is the full image and its full image the original |
| WalletService.ApiGet721Item | src/services/WalletService.ts:132-193 | the lookup yields an item exactly on Ethereum mainnet, with a document store, for a document that exists (a missing one makes the read throw and the lookup yield null) |
| WalletService.FindMetadata | src/services/WalletService.ts:652-654 | the metadata record found is the first with the item's exact address and token id, and none is found exactly when no record matches |
| WalletService.WithMetadata | src/services/WalletService.ts:656-673 | an enriched item keeps its address, token id and name, shows the metadata image as both image and full image, and carries the animation URL converted to text (absent becomes "undefined") |
| WalletService.JoinMetadata | src/services/WalletService.ts:651-677 | the join keeps the list's length and order; each item takes its first matching metadata record and an item without one is unchanged |
| WalletService.JoinKeepsIdentity | src/services/WalletService.ts:651-677 | the join never changes an item's address, token id or name, and changes its metadata only when some record matches it |
| WalletService.TheGraphGet721Items | src/services/WalletService.ts:611-683 | a failed query or an answer without NFTs yields an empty list; otherwise the wallet's NFTs, in the subgraph's order, joined with their metadata |
| WalletService.NftGraphId | src/services/WalletService.ts:564 | the subgraph id of an NFT is the lower-cased collection address followed by '#' and the token id as given |
| WalletService.NftGraphIdIgnoresCase | src/services/WalletService.ts:564 | addresses that differ only in letter case give the same subgraph id |
| WalletService.NftGraphIdSplits | src/services/WalletService.ts:564 | for an address without '#', the id splits at its first '#' into the lower-cased address and the token id |
| WalletService.TheGraphGet721Item | src/services/WalletService.ts:557-610 | the item exists exactly when both the subgraph query and the metadata read succeed, and then carries the given address and token id, the collection's name and symbol, the owner, no NFT count, and metadata whose name, description, author, animation type and social links are the read's, whose image and full image are its image URL and whose animation URL is that URL as text |
| WalletService.PositiveSharesMembers | src/services/WalletService.ts:482-484 | a share survives the filter exactly when the wallet holds it with a balance above zero |
| WalletService.VisibleSharesMembers | src/services/WalletService.ts:482-484 | a share is shown exactly when the wallet holds it with a balance above zero |
| WalletService.VisibleSharesOrder | src/services/WalletService.ts:482-484 | the shown list is the positive shares in reverse: reversing it gives them back in the wallet's order |
| WalletService.Erc20Balance | src/services/WalletService.ts:777-801 | on a chain that is not allowed the balance never arrives; on an allowed chain it is rejected exactly when the one ledger read the token calls for (native or token balance) rejects, and is otherwise a balance |
| WalletService.Erc20BalanceUnits | src/services/WalletService.ts:792-800 | the native token (by address, or by a given symbol equal to the network's) is scaled by 18 decimals and any other token by its own decimals, so scaling back recovers the ledger's integer balance |
| WalletService.AssetLogoCases | src/services/WalletService.ts:820-848 | the platform icon exactly for the platform address as written; a Balancer image named by the lower-cased address for a configured or specially listed asset; otherwise the Trust Wallet image under the checksum address, or the empty string when that cannot be computed |
| WalletService.PlatformCheckIsCaseSensitive | src/services/WalletService.ts:821 | the platform address in lower case does not get the platform icon |
| BoxService.BoxGraphId | src/services/BoxService.ts:24 | the subgraph id of a box is the lower-cased box address, "#", then the lower-cased box id, with the "#" right after the address |
| BoxService.BoxGraphIdIgnoresCase | src/services/BoxService.ts:24 | box addresses and ids that differ only in letter case name the same box |
| BoxService.BoxItemOf | src/services/BoxService.ts:78-88 | a box entry takes the looked-up NFT's token id, name and address, and its image, title and contract name from the metadata; each missing metadata field, and all three when the NFT has no metadata, is the empty string; a missing NFT gives an all-empty entry; no entry is loading |
| BoxService.LookupRequests | src/services/BoxService.ts:67-75 | one single-item lookup per box item, in item order, with the item's collection and token id, through the API provider on Ethereum mainnet and the subgraph elsewhere |
| BoxService.GetBoxMetadata | src/services/BoxService.ts:58-107 | the call rejects exactly when the box record is missing or the box token's own lookup rejects; otherwise the box keeps the box id, address and owner, counts as many NFTs as the record has items, holds one entry per item in item order, and takes its name, author, description and image (each or '') and its social links from the box token's metadata |
| BoxService.BoxItemsNotLoading | src/services/BoxService.ts:86 | no entry of an assembled box is loading |
| BoxService.GetBoxItems | src/services/BoxService.ts:33-53 | the error object is returned exactly when the owner query fails or some box cannot be assembled; otherwise the boxes come one per id, in the query's order |
| BoxService.AddedNftInBox | src/services/BoxService.ts:141-169 | the run rejects exactly when an approved-for-all read it awaits rejects; approval is requested exactly when the token is not yet approved for the box; a failed approval send adds the wrapper's error notice before the re-read's unlocked or error notice, so a refused approval gives two error notices; the add is sent exactly when no read rejected and the final check says approved, succeeds exactly when that send does not throw, and adds the added or error notice |
| BoxService.RemoveNftInBox | src/services/BoxService.ts:174-188 | the removal succeeds exactly when sending does not throw, with the "removed" notice on success and the generic failure notice otherwise |
| AddBoxModal.Loaded | src/components/box/AddBoxModal.tsx:54-101 | a loaded page keeps its items in order, none of them loading or disabled |
| AddBoxModal.MarkLoadingSpec | src/components/box/AddBoxModal.tsx:133-166 | marking keeps the list's length and every NFT in its place; an item is loading exactly when it carries the chosen token; with no token chosen every item is enabled again, and otherwise every other item is disabled while the chosen one keeps its disabled flag |
| AddBoxModal.ResetAfterMark | src/components/box/AddBoxModal.tsx:126-147 | clearing the flags after any marking gives back the list as it was loaded |
| AddBoxModal.BuildLoadingList | src/components/box/AddBoxModal.tsx:133-166 | the item-by-item rebuild of `setLoadingItem` produces exactly the marked list |
| AddBoxModal.WithoutTokenMembers | src/components/box/AddBoxModal.tsx:168-179 | an item remains after `removeInList` exactly when it was in the list and its token id differs from the removed one, whatever its address |
| AddBoxModal.WithoutAbsentToken | src/components/box/AddBoxModal.tsx:168-179 | removing a token id that no item carries leaves the list unchanged |
| AddBoxModal.BuildListWithout | src/components/box/AddBoxModal.tsx:168-179 | the item-by-item rebuild of `removeInList` produces exactly the items of other token ids, in order |
| AddBoxModal.VisibleNftsMembers | src/components/box/AddBoxModal.tsx:201-203 | the modal lists an NFT exactly when it is in the list and its address is not the box contract's, ignoring case |
| AddBoxModal.AddBoxModalState.constructor | src/components/box/AddBoxModal.tsx:32-37 | the modal starts with no NFTs, not loading, the next offset at the page size of 20 and more pages expected |
| AddBoxModal.AddBoxModalState.InitialLoad | src/components/box/AddBoxModal.tsx:43-73 | the first page, offset 0 and size 20, is requested exactly with an account and a chain; without them the list stays loading; a loaded page replaces the list with every flag cleared, and off Ethereum mainnet paging stops; a failed load only ends the loading state |
| AddBoxModal.AddBoxModalState.NextPage | src/components/box/AddBoxModal.tsx:86-112 | the next page at the current offset is requested exactly with an account and a chain; a loaded page is appended after the list, the offset grows by 20 and an empty page stops paging; a failed load changes nothing |
| AddBoxModal.AddBoxModalState.AddNftInBox | src/components/box/AddBoxModal.tsx:118-131 | without an account nothing changes; a successful add removes the token's items from the list as rendered; a failed or throwing add leaves the rendered list with every flag cleared |
| BoxDetails.MarkBoxLoadingSpec | src/pages/BoxDetailsPageV2.tsx:97-125 | marking keeps the list's length and every entry's other fields; an entry is loading exactly when it carries the chosen token, so with no token none is loading |
| BoxDetails.BuildBoxLoadingList | src/pages/BoxDetailsPageV2.tsx:103-117 | the entry-by-entry rebuild of `setLoadingItem` produces exactly the marked list |
| BoxDetails.BoxWithoutTokenMembers | src/pages/BoxDetailsPageV2.tsx:127-148 | an entry remains after `removeNftInList` exactly when it was in the box and its token id differs from the removed one |
| BoxDetails.BuildBoxListWithout | src/pages/BoxDetailsPageV2.tsx:133-140 | the entry-by-entry rebuild of `removeNftInList` produces exactly the entries of other token ids, in order |
| BoxDetails.CanEditBoxSpec | src/pages/BoxDetailsPageV2.tsx:267-276 | the Add and Remove controls appear exactly for a connected account equal to the box owner ignoring case, and lower-casing either side does not change that |
| BoxDetails.ConfirmedRemovalReloads | src/pages/BoxDetailsPageV2.tsx:76-81 | a removal transaction the poller has marked confirmed, with loading over, triggers the reload, and the same transaction unconfirmed does not |
| BoxDetails.RemovalKeepsEmptyText | src/pages/BoxDetailsPageV2.tsx:127-148 | dropping entries from the list keeps the recorded NFT count, so the empty-box text keeps its earlier answer |
| BoxDetails.BoxDetailsPage.constructor | src/pages/BoxDetailsPageV2.tsx:33-38 | the page starts with no box, not loading and no network alert |
| BoxDetails.BoxDetailsPage.CheckChain | src/pages/BoxDetailsPageV2.tsx:48-56 | the network alert is raised exactly when the chain is not among the allowed chains (chain 0 counts as not found), and nothing else changes |
| BoxDetails.BoxDetailsPage.LoadBox | src/pages/BoxDetailsPageV2.tsx:58-74 | with the add modal open nothing is fetched and loading ends; otherwise the assembled box replaces the old one and loading ends, while a rejected assembly leaves the page loading |
| BoxDetails.BoxDetailsPage.SetLoadingItem | src/pages/BoxDetailsPageV2.tsx:97-125 | without a box nothing changes; otherwise the box keeps every field but its entries, which become the marked list |
| BoxDetails.BoxDetailsPage.RemoveNftInList | src/pages/BoxDetailsPageV2.tsx:127-148 | without a box nothing changes; otherwise the box keeps every field, its NFT count included, and its entries lose the removed token's |
| BoxDetails.BoxDetailsPage.Remove | src/pages/BoxDetailsPageV2.tsx:83-95 | without an account or a box nothing changes; a successful removal leaves the rendered entries without the token; a failed or throwing one leaves them with every loading flag cleared |
| BoxDetails.BoxDetailsPage.OnTransaction | src/pages/BoxDetailsPageV2.tsx:76-81 | a confirmed, settled removal reloads the page once and clears the transaction; any other state changes nothing |
| WalletHooks.BoxTokenIdsMembers | src/hooks/WalletHooks.tsx:29-76 | box metadata is fetched for a token id exactly when some listed item with that id is at the box contract's address, ignoring case |
| WalletHooks.BoxLookups | src/hooks/WalletHooks.tsx:29-34 | the item-by-item `forEach` pushes exactly the box tokens' ids, in list order |
| WalletHooks.FindBox | src/hooks/WalletHooks.tsx:40-83 | the box found for an item is the first one at its address (ignoring case) whose id prints as its token id, and none is found exactly when no fetched box matches |
| WalletHooks.WithBoxCountSpec | src/hooks/WalletHooks.tsx:39-90 | an item keeps every field but its NFT count; the count is set to the first matching box's NFT count, and an item without a matching box is unchanged |
| WalletHooks.MergeBoxCounts | src/hooks/WalletHooks.tsx:37-90 | the merge keeps the list's length and order, taking each item with its box count |
| WalletHooks.FirstLoadEndsPaging | src/hooks/WalletHooks.tsx:53 | as written, the first load, into the empty initial list, ends the paging on every chain whatever the page held |
| WalletHooks.InitialHasMoreCorrected | src/hooks/WalletHooks.tsx:53-97 | judged by the page just fetched, paging goes on exactly when it did before, the chain is Ethereum mainnet and the page was full |
| WalletHooks.CorrectedPagingFollowsPage | src/hooks/WalletHooks.tsx:53-97 | with the corrected rule a full first page on mainnet keeps the paging going, where the rule as written ends it |
| WalletHooks.WalletNftsHook.constructor | src/hooks/WalletHooks.tsx:13-17 | the hook starts with no NFTs, at the offset it is given, loading, with more pages expected |
| WalletHooks.WalletNftsHook.InitialEffect | src/hooks/WalletHooks.tsx:19-60 | a page at the current offset is requested exactly with an account and a chain; when the reads succeed the list becomes the merged page and paging follows the rule as written; a rejected listing or box read leaves the list, the paging flag and the loading flag as they were; otherwise loading ends; the offset is not moved |
| WalletHooks.WalletNftsHook.LoadMore | src/hooks/WalletHooks.tsx:62-99 | a page at the current offset is requested exactly with an account and a chain; when the reads succeed the merged page is appended after the list, the offset grows by the page size and a short page ends the paging; a rejected read changes nothing |
| WalletHooks.WalletNftView.constructor | src/hooks/WalletHooks.tsx:106-109 | the view starts with no item, not a box, not loading and no box contents |
| WalletHooks.WalletNftView.GetNft | src/hooks/WalletHooks.tsx:113-132 | nothing happens without an address, a token id and a chain; otherwise the token is marked a box exactly when its address is the box contract's ignoring case; a rejected box read leaves the view loading with item and box contents as they were; else the item is the lookup's answer, the box contents are set only for a box, and loading ends |
| FractionalizePage.FractionalizePageState.constructor | src/pages/FractionalizePage.tsx:18-25 | the page starts loading, with no alert and no NFTs, the next offset at the page size and more pages expected |
| FractionalizePage.FractionalizePageState.GetInitialNfts | src/pages/FractionalizePage.tsx:35-58 | the first page, offset 0, is requested exactly with an account and a chain; a loaded page replaces the list and paging goes on only on Ethereum mainnet after a full page; a failed load raises the alert and keeps the list; loading ends in every case |
| FractionalizePage.FractionalizePageState.GetNextNfts | src/pages/FractionalizePage.tsx:60-80 | the next page at the current offset is requested exactly with an account and a chain; a loaded page is appended, the offset grows by the page size and a short page ends the paging; a failed load raises the alert and changes nothing else |
| FractionalizePage.FractionalizePageState.AlertShown | src/pages/FractionalizePage.tsx:87 | the wallet alert is shown exactly when an account is connected and an error was raised |
| FractionalizePage.CardName | src/pages/FractionalizePage.tsx:95 | a card is titled by the NFT's metadata name when it is a non-empty string, and otherwise by its collection name, " #" and its token id |
| FractionalizePage.CardUrl | src/pages/FractionalizePage.tsx:100 | a card links to the fractionalise route followed by the NFT's address, "/" and token id |
| FractionalizePage.CardUrlAddress | src/pages/FractionalizePage.tsx:100 | for an address without "/", the first "/" after the route prefix ends the address, so the address and the token id are read back from the link |
| BoxesPage.Thumbnails | src/pages/BoxesPage.tsx:122-130 | a box of at most three NFTs shows all its entries and no badge; a larger box shows its first two entries and a "+ n" badge with n its NFT count less two |
| BoxesPage.ThumbnailsAccountForAll | src/pages/BoxesPage.tsx:122-130 | for a box whose list matches its count, a card shows at most three thumbnails, each a box entry in order, the badge is at least 2, and thumbnails plus badge account for every NFT of the box |
| BoxesPage.EmptyBoxCard | src/pages/BoxesPage.tsx:122-141 | an empty box shows no thumbnail, no badge, and the "Add a first NFT" action |
| BoxesPage.ValueOf | src/pages/BoxesPage.tsx:46-47 | the page keeps the boxes when the listing resolves to them and the error object otherwise |
| BoxesPage.CardsOrEmpty | src/pages/BoxesPage.tsx:89-152 | once loaded with an account, exactly one of the box cards and the empty-state card is rendered; the error object has no length, so it shows the empty card |
| BoxesPage.BoxesPageState.constructor | src/pages/BoxesPage.tsx:24-27 | the page starts with no network alert, not loading and no boxes |
| BoxesPage.BoxesPageState.CheckChain | src/pages/BoxesPage.tsx:30-38 | the network alert is raised exactly when the chain is not among the allowed chains (chain 0 counts as not found), and nothing else changes |
| BoxesPage.BoxesPageState.GetListBox | src/pages/BoxesPage.tsx:40-62 | the boxes are requested exactly with an account and the add modal closed; a request stores what the listing resolves to; with an account loading ends, and without one the page stays loading |
| IpfsService.FormFields | src/services/IpfsService.ts:20-35 | the successive conditional appends build exactly the form of the five shapes below |
| IpfsService.FormFieldsCases | src/services/IpfsService.ts:20-35 | the metadata always comes first; without an image only the metadata is sent; an image alone is the media; with audio the image is the preview and the audio the media; with video the image is the preview and the video follows; with both, the preview is sent twice |
| IpfsService.CountKeyAppend | src/services/IpfsService.ts:20-35 | the number of form fields with a key adds up over a concatenation of forms |
| IpfsService.FormFieldCounts | src/services/IpfsService.ts:20-35 | every upload sends the metadata once and at most one media field, and one preview for each of audio and video that comes with an image |
| IpfsService.UploadResultAsWritten | src/services/IpfsService.ts:43-53 | as written, an empty answer is reported as "Request failed" and any other answer as the two literal strings "uploadResponse.cid" and "uploadResponse.error" |
| IpfsService.AsWrittenAlwaysReportsError | src/services/IpfsService.ts:43-53 | as written, every upload reports an error, even one whose answer carries a cid and no error, and the cid is never the answer's |
| IpfsService.UploadResult | src/services/IpfsService.ts:43-53 | corrected: an empty answer is reported as "Request failed", and any other answer's cid and error are passed on unchanged |
| IpfsService.UploadResultReportsBody | src/services/IpfsService.ts:43-53 | corrected: an error is reported exactly when the answer is empty or carries one, and the answer's cid is passed on |
| MintBox.ReadyFormNamesTheBox | src/pages/MintBox.tsx:99-165 | minting is ready only with an image, a non-empty title and a non-empty author, so the uploaded metadata then has a non-empty name and author and its name property is the title |
| MintBox.TooBigBytes | src/pages/MintBox.tsx:139 | a media file is refused exactly when it is larger than 10 * 1024 * 1024 bytes |
| MintBox.Properties | src/pages/MintBox.tsx:77-97 | the properties are the name (the title, or ''), the creation time and the preview media type, in that order, and a fourth, the description, exactly when a non-empty description was entered |
| MintBox.BuildMetadata | src/pages/MintBox.tsx:99-112 | every text of the metadata is the form's entry or ''; the sensitive-content flag is the text "true" or "false"; the image is the media placeholder and the external URL is empty |
| MintBox.MetadataConsistent | src/pages/MintBox.tsx:77-112 | the name property always equals the metadata's name, and the description property, when present, its description |
| MintBox.MintDecision | src/pages/MintBox.tsx:116-124 | no upload result or a reported error gives a notice (the error, or the generic failure notice) and no mint; otherwise the mint is sent, with the cid, the account and the chain, exactly when both an account and a cid exist |
| MintBox.AsWrittenNeverMints | src/services/IpfsService.ts:48-53 | with the upload result as written, no box is ever minted |
| MintBox.CorrectedMints | src/pages/MintBox.tsx:116-124 | with the corrected upload result, an answer carrying a cid and no error mints that cid for a connected account |
| MintBox.MintBoxForm.constructor | src/pages/MintBox.tsx:57-59 | the form starts not loading, without an image or a preview, and with no notices |
| MintBox.MintBoxForm.HandleImageUpload | src/pages/MintBox.tsx:136-154 | the handler always returns false; a file over the limit clears the preview, keeps the earlier image and adds the size notice; any other file becomes the image and its data URL the preview |
| MintBox.MintBoxForm.MintNft | src/pages/MintBox.tsx:75-126 | the metadata is uploaded exactly when an image was chosen, and it is the metadata built from the form; a rejected upload leaves the form loading with no mint and no notice; otherwise the mint sent and the notices added are those of the mint decision and loading ends |
| MainPage.Toggled | src/pages/MainPage.tsx:68-74 | clicking the open entry closes it and clicking any other entry opens that one |
| MainPage.ClickOpensOnlyClicked | src/pages/MainPage.tsx:68-74 | after a click on an entry, an entry is open exactly when it is the clicked one and the clicked one was not already open |
| MainPage.ToggleTwiceCloses | src/pages/MainPage.tsx:66-74 | from the closed accordion, a first click on an entry opens it and a second click closes it again |
| MainPage.FaqAccordion.constructor | src/pages/MainPage.tsx:66 | the accordion starts with every entry closed |
| MainPage.FaqAccordion.SetFaqPage | src/pages/MainPage.tsx:68-74 | a click sets the open entry to the toggled one |
| MainPage.FaqAccordion.OpenEntries | src/pages/MainPage.tsx:648-766 | an entry of the six is expanded exactly when it is the open one, so at most one is expanded at a time |

## Left out

- Markup, styling and marketing copy, the loading skeletons and purely presentational components. They hold no rule of their own.
- Network and ledger I/O: GraphQL clients, HTTP calls, the document store, the pinning-service POST and every contract read or send. Each answer is a parameter of the operation that reads it. Each send is a returned request or an outcome parameter.
- Rejections. An awaited call that no `try` surrounds and that can reject gets a failed answer (`None`, `ReadRejected`, `Threw`, `Rejected` or a `BridgeFailure`), and the model stops the handler there, leaving any loading flag on. This covers the box token's contract lookup inside `getBoxMetadata` (`BoxService.GetBoxMetadata`), the allowance read (`Bridge.BridgeForm.CheckIsApproved`, `Bridge.BridgeForm.ApproveBridge`), the balance read (`WalletService.Erc20Balance`, `Bridge.BridgeForm.CheckBalance`, `Bridge.BridgeForm.ExecuteBridge`) the fee read (`Bridge.BridgeForm.CheckFee`) and the approved-for-all reads of `addedNftInBox` (`BoxService.AddedNftInBox`). The subgraph providers' item and listing lookups and the mainnet item lookup catch their own errors and have no failed answer. `WalletHooks.PageReads` allows a rejected listing on every chain, although only the mainnet listing can reject.
- Bridge.SupplyReportOf: the report is computed from the eight supply and balance reads once they answer; if one of them rejects, the effect (src/components/bridge/BridgeForm.tsx:136-183) sets nothing, and that outcome is the absence of a report rather than a value of the function.
- The contract wrappers the services call (approval and allowance reads and sends) are not modelled themselves; their answers enter the model as parameters. Two of them raise an error notice of their own when a send fails, `approveErc20Bridge` and `setApprovalForAllErc721` (src/services/NftfyService.ts:108-122 and :137-147), and that notice is modelled in `Bridge.BridgeForm.ApproveBridge` and `BoxService.AddedNftInBox`. `isApprovedForAllErc721` returns its read unawaited from inside its `try`, so a rejection of that read escapes the wrapper; `BoxService.AddedNftInBox` models it as a rejected run.
- Timers and concurrency. A `setTimeout` expiry is one call of `TransactionService.TransactionSlot.Fire`. `Promise.all` fan-out is sequential, with the answers taken in list order.
- Marketplace.CollectEnriched: the order in which promises complete is a parameter, so the model does not claim that output order follows input order.
- The liquidity step's list fan-out (src/services/MarketplaceService.ts:374-378). It pushes in completion order in the same way and is not modelled as a list. The per-item step is modelled.
- Floating point. BigNumber and `Number` values are exact reals. `toLocaleString` and the fractional-second text of an age label are not modelled. The rounding effect (`Fractionalize.FractionalizeForm.RoundingEffect`) rounds the exact price; `Number`'s loss of precision above 2^53 and the exponent form `toString` gives from 10^21 up are not modelled.
- Parsing of typed numbers. Only plain `digits[.digits]` and `.digits` texts are numbers. Signs, exponent notation and surrounding whitespace read as NaN in the model, although `Number` accepts some of them.
- Letter case. `toLowerCase`/`toLocaleLowerCase` lower-case ASCII letters only. The values compared are hexadecimal addresses and decimal ids, for which this is exact.
- The checksum-address computation (Keccak) in the logo rule. It is a parameter of `WalletService.AssetLogo`, and `None` stands for the throw that gives the empty logo.
- The deprecated direct-ledger provider's listing and item lookup (src/services/WalletService.ts:208-350). Its metadata join is the one `WalletService.JoinMetadata` models, so it is cited there.
- The metadata helper request sent and never awaited (src/services/WalletService.ts:97-101, 139). Its answer is not used.
- The subgraph provider's share listing. `WalletService.VisibleShares` models the filter and reversal of src/services/WalletService.ts:482-484, not how shares are read.
- `getMarketplaceItemByAddress`, the holders count and `getAsset` in the marketplace service. They are fetches with no rule of their own.
- `getBoxItemById`'s query (src/services/BoxService.ts:20-28) is modelled only through the id it sends (`BoxService.BoxGraphId`). `sendMintBox` and `approve` forward to contract sends and are left out.
- `Number(tokenId)` and `String(boxId)` conversions. Box ids are natural numbers printed in decimal (`Common.NatToString`).
- Effects re-running when their dependencies change. Each effect is a method called once per run. In particular, the wallet-list effect lists its own `nfts` among its dependencies (src/hooks/WalletHooks.tsx:60), and the model does not capture the re-runs this causes.
- Navigation and reloads: `window.location`, `history.push`/`history.go` and the redirect after a mint. `BoxDetails.BoxDetailsPage.OnTransaction` counts reloads, and AddBoxModal's reload after a successful add is not modelled.
- The transaction effects of the add-to-box modal and the minting form (src/components/box/AddBoxModal.tsx:75-84, src/pages/MintBox.tsx:128-134). They only clear the slot or navigate, which the box details page's effect already models.
- Three notifications that no modelled notice list records: the generic notice of the upload's empty-answer path (src/services/IpfsService.ts:44), the notice of a failed next page in the add-to-box modal (src/components/box/AddBoxModal.tsx:109), and the notice of the box list's error path (src/services/BoxService.ts:50).
- The `FileReader` is taken to finish at once, so the preview is set in the same step as the image. `handleImageRemoval` (src/pages/MintBox.tsx:156-159) is left out; it only clears the preview.
- The localStorage popup on the landing page and the clipboard "copied" notices.
- Common.ErrorNotice: the text of error code 5011 comes from a message table that is not part of this model, so a fixed stand-in text is used.
- Fractionalize.FractionalizeForm.HandleFractionsAmount: it requires the value to be one of the select's options (src/components/fractionalize/FractionalizeERC721.tsx:351-356), which is the only way the handler is called.
- Fractionalize.FractionalizeForm.HandleName: the 1 to 40 bound counts Unicode code points, while `.length` (src/components/fractionalize/FractionalizeERC721.tsx:75) counts UTF-16 code units, so a name with characters outside the Basic Multilingual Plane, such as emoji, is judged differently.
- Fractionalize.FractionalizeDisabled: the two-character minimums for name and symbol (src/components/fractionalize/FractionalizeERC721.tsx:172-173) count code points, not UTF-16 code units; for example, a one-emoji name passes the source's test and fails the model's.
- PeerToPeer.GetAge: the label is the unit and the floor count; the `toLocaleString` text of the seconds count is not produced.

## Findings

| source | as written | input that shows it | evidently intended | confidence | as-written member | corrected member |
|---|---|---|---|---|---|---|
| src/components/fractionalize/FractionalizeERC721.tsx:165-175 | the button is disabled for the price texts '' and '0' only, so a zero price written another way passes | reserve price "0.0" with 18 payment decimals and 1000000 fractions: the remainder is 0 and the button is enabled | a zero reserve price disables the button, as the form's "must be bigger than 0" text says | not executed | Fractionalize.FractionalizeDisabled, Fractionalize.ZeroPriceEnabled | Fractionalize.FractionalizeDisabledCorrected, Fractionalize.CorrectedEnablesOnlyPositiveWholePrices |
| src/services/IpfsService.ts:48-53 | the upload returns the literal strings "uploadResponse.cid" and "uploadResponse.error" instead of the answer's fields | any non-empty answer, for example one with cid "bafy" and no error: the result reports an error, so the mint form (src/pages/MintBox.tsx:116-124) never mints | the answer's own cid and error are returned | not executed | IpfsService.UploadResultAsWritten, IpfsService.AsWrittenAlwaysReportsError, MintBox.AsWrittenNeverMints | IpfsService.UploadResult, IpfsService.UploadResultReportsBody, MintBox.CorrectedMints |
| src/services/MarketplaceService.ts:383-406 | both early returns put the "no liquidity" record on a copy and return the original item | an item with no payment token and no liquidity: it comes back with no liquidity record at all | the copy carrying the "no liquidity" record is returned | not executed | Marketplace.ItemLiquidityAsWritten, Marketplace.LiquidityDropped | Marketplace.ItemLiquidity, Marketplace.LiquidityAlwaysSet |
| src/hooks/WalletHooks.tsx:53 | the first-load paging rule compares the list held before the load, not the page just fetched, with the page size | a full first page of 20 on Ethereum mainnet with page size 20: the list before the load is empty, so paging ends and no second page is ever asked for | paging goes on after a full page on mainnet, as `loadMore` judges it (src/hooks/WalletHooks.tsx:95-97) | not executed | WalletHooks.InitialHasMore, WalletHooks.FirstLoadEndsPaging | WalletHooks.InitialHasMoreCorrected, WalletHooks.CorrectedPagingFollowsPage |
