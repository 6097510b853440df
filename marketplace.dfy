/**
 * The marketplace reader: the table from the active filter to query
 * variables, the choice of fractions query by protocol version and filter,
 * the normalisation of the rows each version returns, their enrichment with
 * NFT metadata, payment-token symbol and box size, and the early returns of
 * the liquidity step.
 */
module Marketplace {
  import opened Common
  import opened WalletService
  import PeerToPeer

  // ---------------------------------------------------------------------
  // Filters and query variables
  // ---------------------------------------------------------------------

  datatype Filter = All | Boxes | LiveAuction | FirstOffer | Sold | FractionSale | OtherFilter(name: string)

  /** The variables the filter switch assigns; `cutoff` is in seconds. */
  datatype FilterVariables = FilterVariables(contractAddress: string, status: string, released: bool, cutoff: int)

  const BoxesContract: string := "0xfc44f66d5d689cd9108c6577533e9572f53a50bc"
  const AuctionOrSold: string := "AUCTION_OR_SOLD"
  const SetPrice: string := "SET_PRICE"
  const Offer: string := "OFFER"
  const Defaults: FilterVariables := FilterVariables("", "", false, 0)

  /** `Math.round(ms / 1000)`: halves round up. */
  function RoundMsToSeconds(ms: int): (s: int)
    ensures s * 1000 - 500 <= ms < s * 1000 + 500
  {
    (ms + 500) / 1000
  }

  predicate IsAuctionFilter(f: Filter)
  {
    f == LiveAuction || f == Sold
  }

  /** The filter table; `nowMs` is the clock in milliseconds. */
  function FilterVariablesOf(filter: Filter, nowMs: int): (v: FilterVariables)
    ensures v.contractAddress == (if filter == Boxes then BoxesContract else "")
    ensures v.status == AuctionOrSold <==> IsAuctionFilter(filter)
    ensures v.status == SetPrice <==> filter == FirstOffer
    ensures !IsAuctionFilter(filter) && filter != FirstOffer ==> v.status == ""
    ensures v.released <==> filter == FractionSale
    ensures v.cutoff == (if IsAuctionFilter(filter) then RoundMsToSeconds(nowMs) else 0)
    ensures filter == All || filter.OtherFilter? ==> v == Defaults
  {
    match filter
    case All => Defaults
    case Boxes => Defaults.(contractAddress := BoxesContract)
    case LiveAuction => Defaults.(status := AuctionOrSold, cutoff := RoundMsToSeconds(nowMs))
    case FirstOffer => Defaults.(status := SetPrice)
    case Sold => Defaults.(status := AuctionOrSold, cutoff := RoundMsToSeconds(nowMs))
    case FractionSale => Defaults.(released := true)
    case OtherFilter(_) => Defaults
  }

  /** The `let` variables, reassigned by the switch over the active filter. */
  method SelectFilter(filter: Filter, nowMs: int) returns (v: FilterVariables)
    ensures v == FilterVariablesOf(filter, nowMs)
  {
    var selectedContractAddress := "";
    var selectedStatus := "";
    var selectedReleased := false;
    var selectedCutoff := 0;
    if filter != All {
      match filter {
        case Boxes =>
          selectedContractAddress := BoxesContract;
        case LiveAuction =>
          selectedStatus := AuctionOrSold;
          selectedCutoff := RoundMsToSeconds(nowMs);
        case FirstOffer =>
          selectedStatus := SetPrice;
        case Sold =>
          selectedStatus := AuctionOrSold;
          selectedCutoff := RoundMsToSeconds(nowMs);
        case FractionSale =>
          selectedReleased := true;
        case _ =>
          selectedReleased := false;
      }
    }
    v := FilterVariables(selectedContractAddress, selectedStatus, selectedReleased, selectedCutoff);
  }

  // ---------------------------------------------------------------------
  // Query choice
  // ---------------------------------------------------------------------

  datatype Version = V1 | V2

  /** The query sent, with its variables. */
  datatype QueryPlan =
    | GeneralV2(orderDirection: string, orderField: string, name: string, targetContains: string,
                statusContains: string, released: bool, skip: nat, first: nat)
    | SoldV2(orderDirection: string, orderField: string, name: string, cutoffLt: int, released: bool, skip: nat, first: nat)
    | LiveAuctionV2(orderDirection: string, orderField: string, name: string, cutoffGte: int, released: bool, skip: nat, first: nat)
    | FracsV1(orderDirection: string, orderField: string, name: string, released: bool)

  /**
   * The query `executeQuery` sends.  Version 2 pages with `skip`/`first` and
   * takes `released` from the filter; version 1 does not page and takes the
   * caller's `released`.
   */
  function PlanQuery(version: Version, filter: Filter, orderDirection: string, orderField: string,
                     paginationLimit: nat, offset: nat, searchName: string, released: bool, nowMs: int): (q: QueryPlan)
    ensures version == V1 <==> q.FracsV1?
    ensures q.FracsV1? ==> q == FracsV1(orderDirection, orderField, searchName, released)
    ensures q.SoldV2? <==> version == V2 && filter == Sold
    ensures q.LiveAuctionV2? <==> version == V2 && filter == LiveAuction
    ensures q.SoldV2? ==> q.cutoffLt == RoundMsToSeconds(nowMs) && !q.released
    ensures q.LiveAuctionV2? ==> q.cutoffGte == RoundMsToSeconds(nowMs) && !q.released
    ensures q.GeneralV2? ==>
      (q.targetContains == FilterVariablesOf(filter, nowMs).contractAddress
       && q.statusContains == FilterVariablesOf(filter, nowMs).status
       && q.released == FilterVariablesOf(filter, nowMs).released)
    ensures version == V2 ==>
      (q.skip == offset && q.first == paginationLimit && q.name == searchName
       && q.orderDirection == orderDirection && q.orderField == orderField)
  {
    var v := FilterVariablesOf(filter, nowMs);
    if version.V1? then FracsV1(orderDirection, orderField, searchName, released)
    else if filter.Sold? then SoldV2(orderDirection, orderField, searchName, v.cutoff, v.released, offset, paginationLimit)
    else if filter.LiveAuction? then LiveAuctionV2(orderDirection, orderField, searchName, v.cutoff, v.released, offset, paginationLimit)
    else GeneralV2(orderDirection, orderField, searchName, v.contractAddress, v.status, v.released, offset, paginationLimit)
  }

  /** Every filter other than the two auction ones is sent through the general version-2 query. */
  lemma GeneralQueryForOtherFilters(filter: Filter, d: string, f: string, limit: nat, offset: nat, name: string, released: bool, nowMs: int)
    requires !IsAuctionFilter(filter)
    ensures PlanQuery(V2, filter, d, f, limit, offset, name, released, nowMs).GeneralV2?
    ensures filter == Boxes ==> PlanQuery(V2, filter, d, f, limit, offset, name, released, nowMs).targetContains == BoxesContract
    ensures filter == FractionSale <==> PlanQuery(V2, filter, d, f, limit, offset, name, released, nowMs).released
  {
  }

  // ---------------------------------------------------------------------
  // Rows
  // ---------------------------------------------------------------------

  datatype Target = Target(collectionId: string, collectionName: string, tokenId: string, tokenUri: Option<string>)
  datatype PaymentToken = PaymentToken(id: Option<string>, symbol: string, decimals: nat)
  datatype Liquidity = Liquidity(hasLiquidity: bool, priceDollar: string)

  /** A fractions row; the last four fields are added by enrichment. */
  datatype MarketItem = MarketItem(
    id: string, name: string, reservePrice: Option<string>, fractionPrice: Option<string>, fractionsCount: Option<string>,
    exitPrice: Option<string>, sharePrice: Option<string>, sharesCount: Option<string>,
    kind: Option<string>, status: Option<string>, target: Target, paymentToken: Option<PaymentToken>,
    paymentTokenSymbol: Option<string>, metadata: Option<Metadata>, nftCount: Option<nat>, liquidity: Option<Liquidity>)

  /** A version-2 row: prices and count under their v1 names, type and status defaulted. */
  function NormalizeV2(frac: MarketItem): (r: MarketItem)
    ensures r.exitPrice == frac.reservePrice && r.sharePrice == frac.fractionPrice && r.sharesCount == frac.fractionsCount
    ensures r.kind == (if Truthy(frac.kind) then frac.kind else Some(SetPrice))
    ensures r.status == (if Truthy(frac.status) then frac.status else Some(Offer))
    ensures r.(exitPrice := frac.exitPrice, sharePrice := frac.sharePrice, sharesCount := frac.sharesCount,
               kind := frac.kind, status := frac.status) == frac
  {
    frac.(exitPrice := frac.reservePrice, sharePrice := frac.fractionPrice, sharesCount := frac.fractionsCount,
          kind := Some(OrElse(frac.kind, SetPrice)), status := Some(OrElse(frac.status, Offer)))
  }

  /** A version-1 row: always a fixed-price offer. */
  function NormalizeV1(frac: MarketItem): (r: MarketItem)
    ensures r.kind == Some(SetPrice) && r.status == Some(Offer)
    ensures r.(kind := frac.kind, status := frac.status) == frac
  {
    frac.(kind := Some(SetPrice), status := Some(Offer))
  }

  function Normalize(version: Version, frac: MarketItem): MarketItem
  {
    if version == V2 then NormalizeV2(frac) else NormalizeV1(frac)
  }

  /** Normalising twice changes nothing more, and no row is left without a type or status. */
  lemma NormalizeIdempotent(version: Version, frac: MarketItem)
    ensures Normalize(version, Normalize(version, frac)) == Normalize(version, frac)
    ensures Truthy(Normalize(version, frac).kind) && Truthy(Normalize(version, frac).status)
  {
  }

  /** The query outcome: no result object, or a result with an error flag and (possibly missing) rows. */
  datatype QueryResult = NoResult | Result(error: bool, fracs: Option<seq<MarketItem>>)

  /** The rows `executeQuery` returns: none on a missing result, an error or missing data. */
  function QueryRows(version: Version, result: QueryResult): (rows: seq<MarketItem>)
    ensures result.NoResult? || result.error || result.fracs.None? ==> rows == []
    ensures result.Result? && !result.error && result.fracs.Some? ==>
      (|rows| == |result.fracs.value|
       && forall i :: 0 <= i < |rows| ==> rows[i] == Normalize(version, result.fracs.value[i]))
  {
    if result.NoResult? || result.error || result.fracs.None? then []
    else
      var fracs := result.fracs.value;
      seq(|fracs|, i requires 0 <= i < |fracs| => Normalize(version, fracs[i]))
  }

  // ---------------------------------------------------------------------
  // Metadata enrichment
  // ---------------------------------------------------------------------

  /** A configured ERC-20 of the chain. */
  datatype Erc20Config = Erc20Config(id: string, symbol: string)

  function FindSymbol(list: seq<Erc20Config>, id: string): (r: Option<string>)
    ensures r.None? <==> forall j :: 0 <= j < |list| ==> list[j].id != id
    ensures r.Some? ==>
      exists j :: (0 <= j < |list| && list[j].id == id && list[j].symbol == r.value
                   && forall k :: 0 <= k < j ==> list[k].id != id)
  {
    if list == [] then None
    else if list[0].id == id then Some(list[0].symbol)
    else FindSymbol(list[1..], id)
  }

  /** Enrichment either yields an item or throws (reading the id of a missing payment token). */
  datatype EnrichOutcome = Threw | Enriched(item: MarketItem)

  /** NFT metadata without a name gets "<collection name> #<token id>". */
  function NamedMetadata(nft: Erc721Item): (m: Option<Metadata>)
    ensures m.None? <==> nft.metadata.None?
    ensures m.Some? && !Truthy(nft.metadata.value.name) ==> m.value.name == Some(nft.name + " #" + nft.tokenId)
    ensures m.Some? && Truthy(nft.metadata.value.name) ==> m == nft.metadata
  {
    if nft.metadata.Some? && !Truthy(nft.metadata.value.name) then
      Some(nft.metadata.value.(name := Some(nft.name + " #" + nft.tokenId)))
    else nft.metadata
  }

  /** The payment token's symbol: 'ETH' for a token without id, else the configured one. */
  function PaymentSymbol(paymentToken: PaymentToken, erc20List: seq<Erc20Config>): Option<string>
  {
    if !Truthy(paymentToken.id) then Some("ETH") else FindSymbol(erc20List, paymentToken.id.value)
  }

  /**
   * `setMarketplaceItemMetadata`.  The NFT lookup (through
   * `LookupProvider(chainId)`) is a parameter, and so is what the box read
   * settles to for a box token (`None` when `getBoxMetadata` throws, as it
   * does for a box without a record).
   */
  function EnrichItem(item: MarketItem, chainId: int, boxAddress: string, erc20List: seq<Erc20Config>,
                      nft: Option<Erc721Item>, boxNftCount: Option<nat>): (r: EnrichOutcome)
    ensures (!Truthy(item.target.tokenUri) && chainId != EthereumMainnet) || nft.None? ==> r == Enriched(item)
    ensures r == Threw <==>
      (Truthy(item.target.tokenUri) || chainId == EthereumMainnet) && nft.Some?
      && (item.paymentToken.None? || (EqualsIgnoreCase(item.target.collectionId, boxAddress) && boxNftCount.None?))
    ensures (Truthy(item.target.tokenUri) || chainId == EthereumMainnet) && nft.Some? && r.Enriched? ==>
      (r.item.metadata == NamedMetadata(nft.value)
       && r.item.paymentTokenSymbol == PaymentSymbol(item.paymentToken.value, erc20List)
       && r.item.nftCount == Some(if EqualsIgnoreCase(item.target.collectionId, boxAddress) then boxNftCount.value else 0)
       && r.item.(paymentTokenSymbol := item.paymentTokenSymbol, metadata := item.metadata, nftCount := item.nftCount) == item)
  {
    if !Truthy(item.target.tokenUri) && chainId != EthereumMainnet then Enriched(item)
    else if nft.None? then Enriched(item)
    else if item.paymentToken.None? then Threw
    else
      var symbol := PaymentSymbol(item.paymentToken.value, erc20List);
      if Lower(item.target.collectionId) == Lower(boxAddress) then
        if boxNftCount.None? then Threw
        else Enriched(item.(paymentTokenSymbol := symbol, metadata := NamedMetadata(nft.value), nftCount := Some(boxNftCount.value)))
      else Enriched(item.(paymentTokenSymbol := symbol, metadata := NamedMetadata(nft.value), nftCount := Some(0)))
  }

  /**
   * Past the early returns, an item that names a payment token is enriched
   * unless it is a box whose read throws; a box gets the box's NFT count and
   * any other item 0.
   */
  lemma EnrichBoxCount(item: MarketItem, chainId: int, boxAddress: string, erc20List: seq<Erc20Config>,
                       nft: Erc721Item, boxNftCount: Option<nat>)
    requires Truthy(item.target.tokenUri) || chainId == EthereumMainnet
    requires item.paymentToken.Some?
    ensures EnrichItem(item, chainId, boxAddress, erc20List, Some(nft), boxNftCount).Enriched?
            <==> !EqualsIgnoreCase(item.target.collectionId, boxAddress) || boxNftCount.Some?
    ensures EqualsIgnoreCase(item.target.collectionId, boxAddress) && boxNftCount.Some? ==>
      EnrichItem(item, chainId, boxAddress, erc20List, Some(nft), boxNftCount).item.nftCount == boxNftCount
    ensures !EqualsIgnoreCase(item.target.collectionId, boxAddress) ==>
      EnrichItem(item, chainId, boxAddress, erc20List, Some(nft), boxNftCount).item.nftCount == Some(0)
  {
  }

  /**
   * The order in which the enrichment promises complete: every row index
   * exactly once.
   */
  predicate IsCompletionOrder(order: seq<nat>, n: nat)
  {
    |order| == n && (forall k :: 0 <= k < n ==> order[k] < n) && (forall i :: 0 <= i < n ==> i in order)
  }

  /**
   * `getMarketplaceItems` after the rows are enriched: each result is pushed
   * as its promise completes, in `order`; one throw sends the reader to its
   * error path, with an empty list.
   */
  function CollectEnriched(outcomes: seq<EnrichOutcome>, order: seq<nat>): (items: seq<MarketItem>)
    requires IsCompletionOrder(order, |outcomes|)
    ensures (exists i :: 0 <= i < |outcomes| && outcomes[i] == Threw) ==> items == []
    ensures (forall i :: 0 <= i < |outcomes| ==> outcomes[i].Enriched?) ==>
      (|items| == |outcomes| && forall k :: 0 <= k < |items| ==> items[k] == outcomes[order[k]].item)
  {
    if exists i :: 0 <= i < |outcomes| && outcomes[i] == Threw then []
    else seq(|outcomes|, k requires 0 <= k < |outcomes| => outcomes[order[k]].item)
  }

  /** Without a throw every enriched row is in the list, whatever the completion order. */
  lemma CollectEnrichedKeepsEveryRow(outcomes: seq<EnrichOutcome>, order: seq<nat>, i: nat)
    requires IsCompletionOrder(order, |outcomes|)
    requires forall j :: 0 <= j < |outcomes| ==> outcomes[j].Enriched?
    requires i < |outcomes|
    ensures outcomes[i].item in CollectEnriched(outcomes, order)
  {
    var items := CollectEnriched(outcomes, order);
    assert i in order;
    var k :| 0 <= k < |order| && order[k] == i;
    assert items[k] == outcomes[i].item;
  }

  // ---------------------------------------------------------------------
  // Liquidity
  // ---------------------------------------------------------------------

  const NoLiquidity: Liquidity := Liquidity(false, "")

  /** The pair price as the string the price reader returns is truthy. */
  predicate PriceTruthy(p: PeerToPeer.PairPrice)
  {
    match p
    case NoPrice => false
    case Quoted(s) => s != ""
    case Midpoint(_) => true
  }

  /**
   * `setMarketplaceItemLiquidity` as written: in both early returns the
   * "no liquidity" record is put on a copy and the original item is returned.
   * `quote` is the stable-coin quote of the pair price.
   */
  function ItemLiquidityAsWritten(item: MarketItem, price: PeerToPeer.PairPrice, quote: Liquidity): (r: MarketItem)
    ensures item.paymentToken.None? || !PriceTruthy(price) ==> r == item
    ensures item.paymentToken.Some? && PriceTruthy(price) ==> r == item.(liquidity := Some(quote))
  {
    var itemWithLiquidity := item;
    if item.paymentToken.None? then item
    else if !PriceTruthy(price) then item
    else itemWithLiquidity.(liquidity := Some(quote))
  }

  /** An item without liquidity and without a payment token comes back still without liquidity. */
  lemma LiquidityDropped(item: MarketItem, price: PeerToPeer.PairPrice, quote: Liquidity)
    requires item.paymentToken.None? && item.liquidity.None?
    ensures ItemLiquidityAsWritten(item, price, quote).liquidity == None
    ensures ItemLiquidityAsWritten(item, price, quote).liquidity != Some(NoLiquidity)
  {
  }

  /** The same step returning the copy it prepared. */
  function ItemLiquidity(item: MarketItem, price: PeerToPeer.PairPrice, quote: Liquidity): (r: MarketItem)
    ensures r == item.(liquidity := r.liquidity)
    ensures r.liquidity.Some?
    ensures r.liquidity.value == (if item.paymentToken.Some? && PriceTruthy(price) then quote else NoLiquidity)
  {
    var itemWithLiquidity := item;
    if item.paymentToken.None? then itemWithLiquidity.(liquidity := Some(NoLiquidity))
    else if !PriceTruthy(price) then itemWithLiquidity.(liquidity := Some(NoLiquidity))
    else itemWithLiquidity.(liquidity := Some(quote))
  }

  /**
   * After the corrected step every item has a liquidity record, and it
   * reports liquidity only when a payment token and a market price exist
   * and the quote says so.
   */
  lemma LiquidityAlwaysSet(item: MarketItem, price: PeerToPeer.PairPrice, quote: Liquidity)
    ensures ItemLiquidity(item, price, quote).liquidity.Some?
    ensures ItemLiquidity(item, price, quote).liquidity.value.hasLiquidity ==>
      item.paymentToken.Some? && PriceTruthy(price) && quote.hasLiquidity
    ensures item.paymentToken.Some? && PriceTruthy(price) ==>
      ItemLiquidity(item, price, quote) == ItemLiquidityAsWritten(item, price, quote)
  {
  }
}
