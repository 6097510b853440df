/**
 * The wallet service: a provider switch (OpenSea-style API, direct ledger
 * reads, or the subgraph), the mapping of provider records to the wallet's
 * ERC-721 items, the join of items with their token metadata, the list of
 * fraction shares a wallet holds, token balances in whole units and the
 * logo URL of a token.
 */
module WalletService {
  import opened Common

  // ---------------------------------------------------------------------
  // The wallet's NFT items
  // ---------------------------------------------------------------------

  datatype Socials = Socials(socialMedia: Option<string>, webSiteUrl: Option<string>, twitter: Option<string>,
                             telegram: Option<string>, discord: Option<string>, instagram: Option<string>)

  datatype Metadata = Metadata(
    name: Option<string>, image: Option<string>, imageFull: Option<string>, description: Option<string>,
    animationUrl: Option<string>, animationType: Option<string>, author: Option<string>,
    assetContractName: Option<string>, socials: Socials)

  /** An ERC-721 item of a wallet; `nftsCount` is filled in for boxes. */
  datatype Erc721Item = Erc721Item(
    address: string, tokenId: string, name: string, symbol: string,
    ownerAddress: Option<string>, metadata: Option<Metadata>, nftsCount: Option<nat>)

  // ---------------------------------------------------------------------
  // Provider switch
  // ---------------------------------------------------------------------

  datatype WalletProvider = Api | Web3 | TheGraph | UnknownProvider(name: string)

  /** The implementation a provider name selects; anything unknown falls back to the API. */
  function ProviderFor(p: WalletProvider): (r: WalletProvider)
    ensures !r.UnknownProvider?
    ensures p.UnknownProvider? ==> r == Api
    ensures !p.UnknownProvider? ==> r == p
  {
    match p
    case Api => Api
    case Web3 => Web3
    case TheGraph => TheGraph
    case UnknownProvider(_) => Api
  }

  const EthereumMainnet: int := 1

  /** The provider single-item lookups use: the API on Ethereum mainnet, else the subgraph. */
  function LookupProvider(chainId: int): (p: WalletProvider)
    ensures p == Api <==> chainId == EthereumMainnet
    ensures p == TheGraph <==> chainId != EthereumMainnet
  {
    if chainId == EthereumMainnet then Api else TheGraph
  }

  // ---------------------------------------------------------------------
  // API provider
  // ---------------------------------------------------------------------

  /** An asset record as the marketplace API (or its stored copy) returns it. */
  datatype ApiAsset = ApiAsset(
    contractAddress: string, contractName: string, contractSymbol: string, tokenId: string,
    name: Option<string>, imageUrl: Option<string>, imagePreviewUrl: Option<string>, imageOriginalUrl: Option<string>,
    description: Option<string>, animationUrl: Option<string>, socials: Socials, ownerAddress: string)

  function AnimationType(animationUrl: Option<string>): (t: Option<string>)
    ensures t.Some? <==> Truthy(animationUrl)
    ensures t.Some? ==> t.value == "mp4"
  {
    if Truthy(animationUrl) then Some("mp4") else None
  }

  /** An API asset as a wallet item (the listing variant: the preview is the image). */
  function ApiItemOf(a: ApiAsset): (item: Erc721Item)
    ensures item.address == a.contractAddress && item.tokenId == a.tokenId
    ensures item.name == OrElse(a.name, a.contractName)
    ensures item.metadata.Some? && item.metadata.value.animationType == AnimationType(a.animationUrl)
    ensures item.metadata.value.image == a.imagePreviewUrl && item.metadata.value.imageFull == a.imageUrl
  {
    Erc721Item(a.contractAddress, a.tokenId, OrElse(a.name, a.contractName), a.contractSymbol, Some(a.ownerAddress),
      Some(Metadata(a.name, a.imagePreviewUrl, a.imageUrl, a.description, a.animationUrl,
                    AnimationType(a.animationUrl), None, None, a.socials)),
      None)
  }

  /** The API's `get721Items`: nothing off Ethereum mainnet, else one item per asset, in order. */
  method ApiGet721Items(chainId: int, assets: seq<ApiAsset>) returns (items: seq<Erc721Item>)
    ensures chainId != EthereumMainnet ==> items == []
    ensures chainId == EthereumMainnet ==>
      (|items| == |assets| && forall i :: 0 <= i < |assets| ==> items[i] == ApiItemOf(assets[i]))
  {
    if chainId != EthereumMainnet {
      return [];
    }
    items := [];
    var i := 0;
    while i < |assets|
      invariant 0 <= i <= |assets|
      invariant |items| == i
      invariant forall j :: 0 <= j < i ==> items[j] == ApiItemOf(assets[j])
    {
      var data := assets[i];
      var name := if Truthy(data.name) then data.name.value else data.contractName;
      var animationType := if Truthy(data.animationUrl) then Some("mp4") else None;
      var item := Erc721Item(data.contractAddress, data.tokenId, name, data.contractSymbol, Some(data.ownerAddress),
        Some(Metadata(data.name, data.imagePreviewUrl, data.imageUrl, data.description, data.animationUrl,
                      animationType, None, None, data.socials)),
        None);
      items := items + [item];
      i := i + 1;
    }
  }

  /** The stored document of one NFT: chain id, lower-cased address and token id. */
  function FirestoreDocPath(chainId: nat, address: string, tokenId: string): (path: string)
    ensures path == "nfts/" + NatToString(chainId) + "_" + Lower(address) + "_" + tokenId
  {
    "nfts/" + NatToString(chainId) + "_" + Lower(address) + "_" + tokenId
  }

  /** The document path does not depend on the address's letter case. */
  lemma DocPathIgnoresCase(chainId: nat, a1: string, a2: string, tokenId: string)
    requires EqualsIgnoreCase(a1, a2)
    ensures FirestoreDocPath(chainId, a1, tokenId) == FirestoreDocPath(chainId, a2, tokenId)
  {
  }

  /** A stored API document as a wallet item (the detail variant: the original is the full image). */
  function DocItemOf(a: ApiAsset): (item: Erc721Item)
    ensures item.name == OrElse(a.name, a.contractName)
    ensures item.metadata.Some? && item.metadata.value.animationType == AnimationType(a.animationUrl)
    ensures item.metadata.value.image == a.imageUrl && item.metadata.value.imageFull == a.imageOriginalUrl
  {
    Erc721Item(a.contractAddress, a.tokenId, OrElse(a.name, a.contractName), a.contractSymbol, Some(a.ownerAddress),
      Some(Metadata(a.name, a.imageUrl, a.imageOriginalUrl, a.description, a.animationUrl,
                    AnimationType(a.animationUrl), None, None, a.socials)),
      None)
  }

  /**
   * The API's `get721Item`: null off Ethereum mainnet, without a document
   * store, or when the document is missing (reading it throws).
   */
  function ApiGet721Item(chainId: int, hasStore: bool, document: Option<ApiAsset>): (r: Option<Erc721Item>)
    ensures r.Some? <==> chainId == EthereumMainnet && hasStore && document.Some?
    ensures r.Some? ==> r.value == DocItemOf(document.value)
  {
    if chainId != EthereumMainnet || !hasStore then None
    else if document.None? then None
    else Some(DocItemOf(document.value))
  }

  // ---------------------------------------------------------------------
  // Subgraph provider and the metadata join
  // ---------------------------------------------------------------------

  /** Token metadata as read from the token URI. */
  datatype TokenMetadata = TokenMetadata(
    address: string, tokenId: string, name: Option<string>, description: Option<string>, imageUrl: Option<string>,
    animationUrl: Option<string>, animationType: Option<string>, author: Option<string>, socials: Socials)

  /** `String(x)` of an optional string. */
  function StringOf(s: Option<string>): string
  {
    if s.Some? then s.value else "undefined"
  }

  predicate SameToken(item: Erc721Item, m: TokenMetadata)
  {
    item.address == m.address && item.tokenId == m.tokenId
  }

  /** The first metadata record for the item's address and token id (exact comparison). */
  function FindMetadata(item: Erc721Item, metas: seq<TokenMetadata>): (r: Option<nat>)
    ensures r.None? <==> forall j :: 0 <= j < |metas| ==> !SameToken(item, metas[j])
    ensures r.Some? ==>
      (r.value < |metas| && SameToken(item, metas[r.value])
       && forall j :: 0 <= j < r.value ==> !SameToken(item, metas[j]))
  {
    if metas == [] then None
    else if SameToken(item, metas[0]) then Some(0)
    else match FindMetadata(item, metas[1..])
      case None => None
      case Some(k) => Some(k + 1)
  }

  function WithMetadata(item: Erc721Item, m: TokenMetadata): (r: Erc721Item)
    ensures r.address == item.address && r.tokenId == item.tokenId && r.name == item.name
    ensures r.metadata.Some? && r.metadata.value.animationUrl == Some(StringOf(m.animationUrl))
    ensures r.metadata.value.image == m.imageUrl && r.metadata.value.imageFull == m.imageUrl
  {
    item.(metadata := Some(Metadata(m.name, m.imageUrl, m.imageUrl, m.description, Some(StringOf(m.animationUrl)),
                                    m.animationType, None, None, m.socials)))
  }

  /** Each item takes the first metadata record of the same token; items without one are kept as they are. */
  function JoinMetadata(items: seq<Erc721Item>, metas: seq<TokenMetadata>): (r: seq<Erc721Item>)
    ensures |r| == |items|
    ensures forall i :: 0 <= i < |items| ==>
      r[i] == (match FindMetadata(items[i], metas)
               case None => items[i]
               case Some(k) => WithMetadata(items[i], metas[k]))
  {
    seq(|items|, i requires 0 <= i < |items| =>
      match FindMetadata(items[i], metas)
      case None => items[i]
      case Some(k) => WithMetadata(items[i], metas[k]))
  }

  /** The join keeps every item's identity and position. */
  lemma JoinKeepsIdentity(items: seq<Erc721Item>, metas: seq<TokenMetadata>, i: int)
    requires 0 <= i < |items|
    ensures JoinMetadata(items, metas)[i].address == items[i].address
    ensures JoinMetadata(items, metas)[i].tokenId == items[i].tokenId
    ensures JoinMetadata(items, metas)[i].name == items[i].name
    ensures JoinMetadata(items, metas)[i].metadata != items[i].metadata ==>
      exists j :: 0 <= j < |metas| && SameToken(items[i], metas[j])
  {
  }

  /** An NFT of the wallet as the subgraph lists it. */
  datatype GraphNft = GraphNft(collectionId: string, tokenId: string, collectionName: string, collectionSymbol: string)

  function GraphItemOf(n: GraphNft): Erc721Item
  {
    Erc721Item(n.collectionId, n.tokenId, n.collectionName, n.collectionSymbol, None, None, None)
  }

  /** The subgraph answer: the query threw, or returned (possibly no) data. */
  datatype GraphReply = GraphFailed | GraphData(nfts: Option<seq<GraphNft>>)

  /** The subgraph's `get721Items` (it takes no page): the wallet's NFTs joined with their metadata. */
  function TheGraphGet721Items(reply: GraphReply, metas: seq<TokenMetadata>): (r: seq<Erc721Item>)
    ensures reply.GraphFailed? || reply.nfts.None? ==> r == []
    ensures reply.GraphData? && reply.nfts.Some? ==>
      r == JoinMetadata(seq(|reply.nfts.value|, i requires 0 <= i < |reply.nfts.value| => GraphItemOf(reply.nfts.value[i])), metas)
  {
    if reply.GraphFailed? || reply.nfts.None? then []
    else
      var nfts := reply.nfts.value;
      JoinMetadata(seq(|nfts|, i requires 0 <= i < |nfts| => GraphItemOf(nfts[i])), metas)
  }

  /** The subgraph id of an NFT: lower-cased collection address, `#`, token id. */
  function NftGraphId(address: string, tokenId: string): (id: string)
    ensures |id| == |address| + 1 + |tokenId| && id[|address|] == '#'
    ensures id[..|address|] == Lower(address) && id[|address| + 1..] == tokenId
  {
    Lower(address) + "#" + tokenId
  }

  /** Addresses that differ only in letter case name the same NFT; the token id keeps its case. */
  lemma NftGraphIdIgnoresCase(a1: string, a2: string, tokenId: string)
    requires EqualsIgnoreCase(a1, a2)
    ensures NftGraphId(a1, tokenId) == NftGraphId(a2, tokenId)
  {
  }

  /** An address without '#' is recovered, lower-cased, before the first '#', and the token id after it. */
  lemma NftGraphIdSplits(address: string, tokenId: string)
    requires '#' !in address
    ensures var id := NftGraphId(address, tokenId);
      FirstIndex(id, '#') == |address| && id[..|address|] == Lower(address) && id[|address| + 1..] == tokenId
  {
    var id := NftGraphId(address, tokenId);
    forall j | 0 <= j < |address|
      ensures id[j] != '#'
    {
      assert address[j] != '#';
    }
    FirstIndexAt(id, '#', |address|);
  }

  /** One NFT as the subgraph describes it. */
  datatype GraphNftDetail = GraphNftDetail(collectionName: string, owner: string, collectionSymbol: string)

  /** The subgraph's `get721Item`: null when the query or the metadata read throws. */
  function TheGraphGet721Item(address: string, tokenId: string, nft: Option<GraphNftDetail>, meta: Option<TokenMetadata>): (r: Option<Erc721Item>)
    ensures r.Some? <==> nft.Some? && meta.Some?
    ensures r.Some? ==>
      (r.value.address == address && r.value.tokenId == tokenId
       && r.value.name == nft.value.collectionName && r.value.symbol == nft.value.collectionSymbol
       && r.value.ownerAddress == Some(nft.value.owner) && r.value.nftsCount.None?)
    ensures r.Some? ==>
      (r.value.metadata.Some? && r.value.metadata.value.name == meta.value.name
       && r.value.metadata.value.image == meta.value.imageUrl && r.value.metadata.value.imageFull == meta.value.imageUrl
       && r.value.metadata.value.description == meta.value.description
       && r.value.metadata.value.animationUrl == Some(StringOf(meta.value.animationUrl))
       && r.value.metadata.value.animationType == meta.value.animationType
       && r.value.metadata.value.author == meta.value.author
       && r.value.metadata.value.assetContractName.None? && r.value.metadata.value.socials == meta.value.socials)
  {
    if nft.None? || meta.None? then None
    else
      var n := nft.value;
      var m := meta.value;
      Some(Erc721Item(address, tokenId, n.collectionName, n.collectionSymbol, Some(n.owner),
        Some(Metadata(m.name, m.imageUrl, m.imageUrl, m.description, Some(StringOf(m.animationUrl)),
                      m.animationType, m.author, None, m.socials)),
        None))
  }

  // ---------------------------------------------------------------------
  // Shares
  // ---------------------------------------------------------------------

  /** A fraction share of the wallet; `balance` in whole units. */
  datatype Share = Share(id: string, balance: real)

  function PositiveShares(shares: seq<Share>): (r: seq<Share>)
    ensures |r| <= |shares|
  {
    if shares == [] then []
    else (if shares[0].balance > 0.0 then [shares[0]] else []) + PositiveShares(shares[1..])
  }

  function Reverse<T>(s: seq<T>): (r: seq<T>)
    ensures |r| == |s|
    ensures forall i :: 0 <= i < |s| ==> r[i] == s[|s| - 1 - i]
  {
    if s == [] then [] else Reverse(s[1..]) + [s[0]]
  }

  /** The shares the wallet shows: those with a positive balance, in reverse order. */
  function VisibleShares(shares: seq<Share>): seq<Share>
  {
    Reverse(PositiveShares(shares))
  }

  lemma {:induction false} PositiveSharesMembers(shares: seq<Share>, x: Share)
    ensures x in PositiveShares(shares) <==> x in shares && x.balance > 0.0
  {
    if shares != [] {
      PositiveSharesMembers(shares[1..], x);
      assert shares == [shares[0]] + shares[1..];
    }
  }

  /** A share is shown exactly when the wallet holds it with a positive balance. */
  lemma VisibleSharesMembers(shares: seq<Share>, x: Share)
    ensures x in VisibleShares(shares) <==> x in shares && x.balance > 0.0
  {
    PositiveSharesMembers(shares, x);
    var p := PositiveShares(shares);
    if x in p {
      var k :| 0 <= k < |p| && p[k] == x;
      assert VisibleShares(shares)[|p| - 1 - k] == x;
    }
    if x in VisibleShares(shares) {
      var k :| 0 <= k < |p| && VisibleShares(shares)[k] == x;
      assert p[|p| - 1 - k] == x;
    }
  }

  /** Reversing the shown list gives the positive shares in the wallet's order. */
  lemma VisibleSharesOrder(shares: seq<Share>)
    ensures Reverse(VisibleShares(shares)) == PositiveShares(shares)
  {
    var p := PositiveShares(shares);
    assert Reverse(Reverse(p)) == p;
  }

  // ---------------------------------------------------------------------
  // Balances and logos
  // ---------------------------------------------------------------------

  const NativeDecimals: nat := 18

  /** What `getErc20Balance` comes to: a balance, a promise that never settles, or a rejection. */
  datatype BalanceAnswer = Settled(balance: real) | NeverSettles | Rejected

  /**
   * `getErc20Balance`: the native balance scaled down by 18 decimals for the
   * native token (by address, or by a given symbol equal to the network's),
   * else the token balance scaled down by the token's decimals.  On a chain
   * that is not allowed the promise never settles.  `nativeBalance` and
   * `tokenBalance` are the two ledger reads (`None` when the read rejects);
   * only the one the token calls for is awaited, with no `try`.
   */
  function Erc20Balance(allowedChain: bool, erc20Address: string, ethAddress: string,
                        erc20Symbol: Option<string>, networkTokenSymbol: string, erc20Decimals: nat,
                        nativeBalance: Option<nat>, tokenBalance: Option<nat>): (r: BalanceAnswer)
    ensures r.NeverSettles? <==> !allowedChain
    ensures r.Rejected? <==>
      allowedChain
      && (if IsNative(erc20Address, ethAddress, erc20Symbol, networkTokenSymbol) then nativeBalance.None? else tokenBalance.None?)
  {
    if !allowedChain then NeverSettles
    else if erc20Address == ethAddress || (Truthy(erc20Symbol) && erc20Symbol.value == networkTokenSymbol) then
      if nativeBalance.None? then Rejected else Settled(Scale(nativeBalance.value as real, -(NativeDecimals as int)))
    else
      if tokenBalance.None? then Rejected else Settled(Scale(tokenBalance.value as real, -(erc20Decimals as int)))
  }

  predicate IsNative(erc20Address: string, ethAddress: string, erc20Symbol: Option<string>, networkTokenSymbol: string)
  {
    erc20Address == ethAddress || (Truthy(erc20Symbol) && erc20Symbol.value == networkTokenSymbol)
  }

  /** Scaling back up by the same decimals recovers the ledger's integer balance. */
  lemma Erc20BalanceUnits(erc20Address: string, ethAddress: string, erc20Symbol: Option<string>,
                          networkTokenSymbol: string, erc20Decimals: nat, nativeBalance: nat, tokenBalance: nat)
    ensures var r := Erc20Balance(true, erc20Address, ethAddress, erc20Symbol, networkTokenSymbol,
                                  erc20Decimals, Some(nativeBalance), Some(tokenBalance)).balance;
      if IsNative(erc20Address, ethAddress, erc20Symbol, networkTokenSymbol)
      then Scale(r, NativeDecimals) == nativeBalance as real
      else Scale(r, erc20Decimals) == tokenBalance as real
  {
    ScaleInverse(nativeBalance as real, -(NativeDecimals as int));
    ScaleInverse(tokenBalance as real, -(erc20Decimals as int));
  }

  datatype Logo = PlatformTokenIcon | LogoUrl(url: string)

  const PlatformTokenAddress: string := "0xBf6Ff49FfD3d104302Ef0AB0F10f5a84324c091c"
  const BalancerListed: seq<string> := [
    "0x50de6856358cc35f3a9a57eaaa34bd4cb707d2cd",
    "0x6fcb6408499a7c0f242e32d77eb51ffa1dd28a7e",
    "0xffffffff2ba8f66d4e51811c5190992176930278"]

  function BalancerUrl(lowerAddress: string): string
  {
    "https://raw.githubusercontent.com/balancer-labs/assets/master/assets/" + lowerAddress + ".png"
  }

  function TrustWalletUrl(checksumAddress: string): string
  {
    "https://raw.githubusercontent.com/trustwallet/assets/master/blockchains/ethereum/assets/" + checksumAddress + "/logo.png"
  }

  /**
   * `getAssetLogo`.  `checksum` is the checksum form of the address, `None`
   * where computing it throws (the logo is then the empty string).
   */
  function AssetLogo(address: string, assets: seq<string>, checksum: Option<string>): Logo
  {
    if address == PlatformTokenAddress then PlatformTokenIcon
    else if Lower(address) in assets then LogoUrl(BalancerUrl(Lower(address)))
    else if Lower(address) == BalancerListed[0] then LogoUrl(BalancerUrl(BalancerListed[0]))
    else if Lower(address) == BalancerListed[1] then LogoUrl(BalancerUrl(BalancerListed[1]))
    else if Lower(address) == BalancerListed[2] then LogoUrl(BalancerUrl(BalancerListed[2]))
    else if checksum.Some? then LogoUrl(TrustWalletUrl(checksum.value))
    else LogoUrl("")
  }

  /**
   * The logo by source: the platform icon for the exact platform address; a
   * Balancer image, named by the lower-cased address, for a configured or
   * specially listed asset; otherwise the Trust Wallet image under the
   * checksum address, or nothing when that cannot be computed.
   */
  lemma AssetLogoCases(address: string, assets: seq<string>, checksum: Option<string>)
    ensures AssetLogo(address, assets, checksum) == PlatformTokenIcon <==> address == PlatformTokenAddress
    ensures address != PlatformTokenAddress && (Lower(address) in assets || Lower(address) in BalancerListed) ==>
      AssetLogo(address, assets, checksum) == LogoUrl(BalancerUrl(Lower(address)))
    ensures address != PlatformTokenAddress && Lower(address) !in assets && Lower(address) !in BalancerListed ==>
      AssetLogo(address, assets, checksum) == LogoUrl(if checksum.Some? then TrustWalletUrl(checksum.value) else "")
  {
  }

  /** The platform check is exact: the same address in lower case is looked up like any other. */
  lemma PlatformCheckIsCaseSensitive(assets: seq<string>, checksum: Option<string>)
    ensures AssetLogo(Lower(PlatformTokenAddress), assets, checksum) != PlatformTokenIcon
  {
    assert Lower(PlatformTokenAddress)[2] == 'b' != PlatformTokenAddress[2];
  }
}
