/**
 * The "choose an NFT to fractionalise" page: a paged list of the wallet's
 * NFTs with an error alert, and the name and link of each card.
 */
module FractionalizePage {
  import opened Common
  import opened WalletService

  datatype PageRequest = PageRequest(offset: nat, limit: nat)

  class FractionalizePageState {
    const paginationLimit: nat
    var loading: bool
    var alertError: bool
    var nfts: seq<Erc721Item>
    var offset: nat
    var hasMore: bool

    constructor(limit: nat)
      ensures paginationLimit == limit
      ensures loading && !alertError && nfts == [] && offset == limit && hasMore
    {
      paginationLimit := limit;
      loading := true;
      alertError := false;
      nfts := [];
      offset := limit;
      hasMore := true;
    }

    /**
     * The first-load effect; `page` is the first page (`None` when the
     * listing throws).  Loading ends after this attempt in every case.
     */
    method GetInitialNfts(account: Option<string>, chainId: int, page: Option<seq<Erc721Item>>) returns (request: Option<PageRequest>)
      modifies this
      ensures request.Some? <==> Truthy(account) && chainId != 0
      ensures request.Some? ==> request.value == PageRequest(0, paginationLimit)
      ensures request.Some? && page.Some? ==>
        (nfts == page.value && alertError == old(alertError)
         && hasMore == (old(hasMore) && chainId == EthereumMainnet && |page.value| >= paginationLimit))
      ensures request.Some? && page.None? ==> alertError && nfts == old(nfts) && hasMore == old(hasMore)
      ensures request.None? ==> nfts == old(nfts) && hasMore == old(hasMore) && alertError == old(alertError)
      ensures !loading && offset == old(offset)
    {
      request := None;
      if Truthy(account) && chainId != 0 {
        request := Some(PageRequest(0, paginationLimit));
        if page.Some? {
          var nftItems := page.value;
          nfts := nftItems;
          if chainId != EthereumMainnet || |nftItems| < paginationLimit {
            hasMore := false;
          }
        } else {
          alertError := true;
        }
      }
      loading := false;
    }

    /** The infinite-scroll callback: append, advance, stop after a short page; a throw raises the alert. */
    method GetNextNfts(account: Option<string>, chainId: int, page: Option<seq<Erc721Item>>) returns (request: Option<PageRequest>)
      modifies this
      ensures request.Some? <==> Truthy(account) && chainId != 0
      ensures request.Some? ==> request.value == PageRequest(old(offset), paginationLimit)
      ensures request.Some? && page.Some? ==>
        (nfts == old(nfts) + page.value && offset == old(offset) + paginationLimit
         && hasMore == (old(hasMore) && |page.value| >= paginationLimit) && alertError == old(alertError))
      ensures request.Some? && page.None? ==>
        alertError && nfts == old(nfts) && offset == old(offset) && hasMore == old(hasMore)
      ensures request.None? ==>
        nfts == old(nfts) && offset == old(offset) && hasMore == old(hasMore) && alertError == old(alertError)
      ensures loading == old(loading)
    {
      request := None;
      if Truthy(account) && chainId != 0 {
        request := Some(PageRequest(offset, paginationLimit));
        if page.Some? {
          var nftItems := page.value;
          nfts := nfts + nftItems;
          offset := offset + paginationLimit;
          if |nftItems| < paginationLimit {
            hasMore := false;
          }
        } else {
          alertError := true;
        }
      }
    }

    /** The wallet alert: an error is shown only while an account is connected. */
    function AlertShown(account: Option<string>): (shown: bool)
      reads this
      ensures shown <==> Truthy(account) && alertError
    {
      Truthy(account) && alertError
    }
  }

  /** A card's title: the metadata name, else "<collection name> #<token id>". */
  function CardName(item: Erc721Item): (name: string)
    ensures item.metadata.Some? && Truthy(item.metadata.value.name) ==> name == item.metadata.value.name.value
    ensures !(item.metadata.Some? && Truthy(item.metadata.value.name)) ==> name == item.name + " #" + item.tokenId
  {
    if item.metadata.Some? && Truthy(item.metadata.value.name) then item.metadata.value.name.value
    else item.name + " #" + item.tokenId
  }

  const CardUrlPrefix: string := "/wallet/fractionalize/"

  /** A card's link: the fractionalise route for the NFT's address and token id. */
  function CardUrl(item: Erc721Item): (url: string)
    ensures url == CardUrlPrefix + item.address + "/" + item.tokenId
  {
    CardUrlPrefix + item.address + "/" + item.tokenId
  }

  /** Slash-free addresses are recovered from the card link. */
  lemma CardUrlAddress(item: Erc721Item)
    requires '/' !in item.address
    ensures var rest := CardUrl(item)[|CardUrlPrefix|..];
      FirstIndex(rest, '/') == |item.address| && rest[..|item.address|] == item.address
      && rest[|item.address| + 1..] == item.tokenId
  {
    var rest := CardUrl(item)[|CardUrlPrefix|..];
    assert rest == item.address + "/" + item.tokenId;
    assert rest[..|item.address|] == item.address;
    assert rest[|item.address| + 1..] == item.tokenId;
    forall j | 0 <= j < |item.address|
      ensures rest[j] != '/'
    {
      assert item.address[j] != '/';
    }
    FirstIndexAt(rest, '/', |item.address|);
  }
}
