/**
 * The wallet NFT hooks: the paged list of a wallet's NFTs, in which every
 * box token carries the number of NFTs in the box, and the single-NFT view
 * that tells whether the token is a box.
 */
module WalletHooks {
  import opened Common
  import opened WalletService
  import opened BoxService

  // ---------------------------------------------------------------------
  // Box counts
  // ---------------------------------------------------------------------

  predicate IsBoxToken(item: Erc721Item, boxAddress: string)
  {
    Lower(item.address) == Lower(boxAddress)
  }

  /** The token ids whose box metadata is fetched: the items of the box contract, in order. */
  function BoxTokenIds(items: seq<Erc721Item>, boxAddress: string): (ids: seq<string>)
    ensures |ids| <= |items|
  {
    if items == [] then []
    else BoxTokenIds(items[..|items| - 1], boxAddress)
         + (if IsBoxToken(items[|items| - 1], boxAddress) then [items[|items| - 1].tokenId] else [])
  }

  lemma {:induction false} BoxTokenIdsMembers(items: seq<Erc721Item>, boxAddress: string, t: string)
    ensures t in BoxTokenIds(items, boxAddress) <==>
      exists i :: 0 <= i < |items| && items[i].tokenId == t && IsBoxToken(items[i], boxAddress)
  {
    if items != [] {
      var front := items[..|items| - 1];
      BoxTokenIdsMembers(front, boxAddress, t);
      assert forall i :: 0 <= i < |front| ==> front[i] == items[i];
    }
  }

  /** The `forEach` that pushes one box lookup per box token. */
  method BoxLookups(items: seq<Erc721Item>, boxAddress: string) returns (ids: seq<string>)
    ensures ids == BoxTokenIds(items, boxAddress)
  {
    ids := [];
    for i := 0 to |items|
      invariant ids == BoxTokenIds(items[..i], boxAddress)
    {
      assert items[..i + 1][..i] == items[..i];
      if Lower(items[i].address) == Lower(boxAddress) {
        ids := ids + [items[i].tokenId];
      }
    }
    assert items[..|items|] == items;
  }

  /** The box an item stands for: same contract ignoring case, and a token id that prints the box id. */
  predicate IsItsBox(item: Erc721Item, box: BoxAsset)
  {
    Lower(item.address) == Lower(box.boxAddress) && item.tokenId == NatToString(box.boxId)
  }

  function FindBox(item: Erc721Item, boxes: seq<BoxAsset>): (r: Option<nat>)
    ensures r.None? <==> forall j :: 0 <= j < |boxes| ==> !IsItsBox(item, boxes[j])
    ensures r.Some? ==>
      (r.value < |boxes| && IsItsBox(item, boxes[r.value])
       && forall j :: 0 <= j < r.value ==> !IsItsBox(item, boxes[j]))
  {
    if boxes == [] then None
    else if IsItsBox(item, boxes[0]) then Some(0)
    else match FindBox(item, boxes[1..])
      case None => None
      case Some(k) => Some(k + 1)
  }

  function WithBoxCount(item: Erc721Item, boxes: seq<BoxAsset>): Erc721Item
  {
    match FindBox(item, boxes)
    case None => item
    case Some(k) => item.(nftsCount := Some(boxes[k].nftCount))
  }

  /**
   * An item keeps every field but its count, which is set exactly when one
   * of the fetched boxes is its box, to the first such box's NFT count.
   */
  lemma WithBoxCountSpec(item: Erc721Item, boxes: seq<BoxAsset>)
    ensures WithBoxCount(item, boxes).(nftsCount := item.nftsCount) == item
    ensures (forall j :: 0 <= j < |boxes| ==> !IsItsBox(item, boxes[j])) ==> WithBoxCount(item, boxes) == item
    ensures forall j :: 0 <= j < |boxes| && IsItsBox(item, boxes[j]) ==>
      WithBoxCount(item, boxes).nftsCount.Some?
    ensures forall j :: (0 <= j < |boxes| && IsItsBox(item, boxes[j])
                         && forall k :: 0 <= k < j ==> !IsItsBox(item, boxes[k])) ==>
      WithBoxCount(item, boxes).nftsCount == Some(boxes[j].nftCount)
  {
    var r := FindBox(item, boxes);
    if r.Some? {
      forall j | 0 <= j < |boxes| && IsItsBox(item, boxes[j]) && (forall k :: 0 <= k < j ==> !IsItsBox(item, boxes[k]))
        ensures j == r.value
      {
      }
    }
  }

  /** The merge: one push per listed item, in order. */
  method MergeBoxCounts(items: seq<Erc721Item>, boxes: seq<BoxAsset>) returns (merged: seq<Erc721Item>)
    ensures |merged| == |items|
    ensures forall i :: 0 <= i < |items| ==> merged[i] == WithBoxCount(items[i], boxes)
  {
    merged := [];
    for i := 0 to |items|
      invariant |merged| == i
      invariant forall j :: 0 <= j < i ==> merged[j] == WithBoxCount(items[j], boxes)
    {
      var found := FindBox(items[i], boxes);
      if found.Some? {
        merged := merged + [items[i].(nftsCount := Some(boxes[found.value].nftCount))];
      } else {
        merged := merged + [items[i]];
      }
    }
  }

  // ---------------------------------------------------------------------
  // The paged list
  // ---------------------------------------------------------------------

  /**
   * The "has more pages" rule of the first-load effect as written: it
   * compares the list held before this load, not the page just fetched,
   * with the page size.
   */
  function InitialHasMore(hasMore: bool, chainId: int, previousCount: nat, paginationLimit: nat): bool
  {
    hasMore && !(chainId != EthereumMainnet || previousCount < paginationLimit)
  }

  /**
   * Loaded into the empty initial list, the first page ends the paging
   * whatever its size, on every chain: a full first page of 20 on mainnet
   * is the input that shows it.
   */
  lemma FirstLoadEndsPaging(chainId: int, paginationLimit: nat)
    requires paginationLimit >= 1
    ensures !InitialHasMore(true, chainId, 0, paginationLimit)
  {
  }

  /** The rule judged by the page just fetched, as `loadMore` does. */
  function InitialHasMoreCorrected(hasMore: bool, chainId: int, pageCount: nat, paginationLimit: nat): (r: bool)
    ensures r <==> hasMore && chainId == EthereumMainnet && pageCount >= paginationLimit
  {
    hasMore && !(chainId != EthereumMainnet || pageCount < paginationLimit)
  }

  /**
   * With the corrected rule the first load agrees with `loadMore`: paging
   * goes on on mainnet exactly after a full page.
   */
  lemma CorrectedPagingFollowsPage(pageCount: nat, paginationLimit: nat)
    ensures InitialHasMoreCorrected(true, EthereumMainnet, pageCount, paginationLimit) <==> pageCount >= paginationLimit
    ensures pageCount >= paginationLimit >= 1 ==>
      InitialHasMoreCorrected(true, EthereumMainnet, pageCount, paginationLimit)
      && !InitialHasMore(true, EthereumMainnet, 0, paginationLimit)
  {
  }

  datatype PageRequest = PageRequest(offset: nat, limit: nat)

  /**
   * What the awaited reads of one page settle to: the listing and the
   * metadata of its box tokens (`BoxTokenIds(page, boxAddress)`, in the same
   * order), or a rejection of the listing or of one box read.  No `try`
   * surrounds these reads, so a rejection ends the callback where it stands.
   */
  datatype PageReads = PageRead(page: seq<Erc721Item>, boxes: seq<BoxAsset>) | ReadRejected

  class WalletNftsHook {
    var nfts: seq<Erc721Item>
    var offset: nat
    var loading: bool
    var hasMore: bool

    constructor(offsetParams: nat)
      ensures nfts == [] && offset == offsetParams && loading && hasMore
    {
      nfts := [];
      offset := offsetParams;
      loading := true;
      hasMore := true;
    }

    /**
     * One run of the first-load effect.  A rejected read leaves the list,
     * the paging flag and the loading flag as they were.
     */
    method InitialEffect(account: Option<string>, chainId: int, boxAddress: string, paginationLimit: nat,
                         pageReads: PageReads) returns (request: Option<PageRequest>)
      modifies this
      ensures request.Some? <==> Truthy(account) && chainId != 0
      ensures request.Some? ==> request.value == PageRequest(old(offset), paginationLimit)
      ensures request.Some? && pageReads.PageRead? ==>
        (|nfts| == |pageReads.page| && (forall i :: 0 <= i < |pageReads.page| ==> nfts[i] == WithBoxCount(pageReads.page[i], pageReads.boxes))
         && hasMore == InitialHasMore(old(hasMore), chainId, |old(nfts)|, paginationLimit))
      ensures request.None? || pageReads.ReadRejected? ==> nfts == old(nfts) && hasMore == old(hasMore)
      ensures loading == (request.Some? && pageReads.ReadRejected? && old(loading))
      ensures offset == old(offset)
    {
      request := None;
      if Truthy(account) && chainId != 0 {
        request := Some(PageRequest(offset, paginationLimit));
        if pageReads.ReadRejected? {
          return;
        }
        var boxesWithNftCount := MergeBoxCounts(pageReads.page, pageReads.boxes);
        var previousCount := |nfts|;
        nfts := boxesWithNftCount;
        if chainId != EthereumMainnet || previousCount < paginationLimit {
          hasMore := false;
        }
      }
      loading := false;
    }

    /**
     * `loadMore`: append the merged page, advance the offset, stop after a
     * short page.  A rejected read changes nothing.
     */
    method LoadMore(account: Option<string>, chainId: int, paginationLimit: nat,
                    pageReads: PageReads) returns (request: Option<PageRequest>)
      modifies this
      ensures request.Some? <==> Truthy(account) && chainId != 0
      ensures request.Some? ==> request.value == PageRequest(old(offset), paginationLimit)
      ensures request.Some? && pageReads.PageRead? ==>
        (|nfts| == |old(nfts)| + |pageReads.page| && nfts[..|old(nfts)|] == old(nfts)
         && (forall i :: 0 <= i < |pageReads.page| ==> nfts[|old(nfts)| + i] == WithBoxCount(pageReads.page[i], pageReads.boxes))
         && offset == old(offset) + paginationLimit
         && hasMore == (old(hasMore) && |pageReads.page| >= paginationLimit))
      ensures request.None? || pageReads.ReadRejected? ==>
        nfts == old(nfts) && offset == old(offset) && hasMore == old(hasMore)
      ensures loading == old(loading)
    {
      request := None;
      if Truthy(account) && chainId != 0 {
        request := Some(PageRequest(offset, paginationLimit));
        if pageReads.ReadRejected? {
          return;
        }
        var boxesWithNftCount := MergeBoxCounts(pageReads.page, pageReads.boxes);
        nfts := nfts + boxesWithNftCount;
        offset := offset + paginationLimit;
        if |pageReads.page| < paginationLimit {
          hasMore := false;
        }
      }
    }
  }

  // ---------------------------------------------------------------------
  // The single-NFT view
  // ---------------------------------------------------------------------

  class WalletNftView {
    var erc721: Option<Erc721Item>
    var isBox: bool
    var isLoading: bool
    var nftsIntroBox: Option<BoxAsset>

    constructor()
      ensures erc721.None? && !isBox && !isLoading && nftsIntroBox.None?
    {
      erc721 := None;
      isBox := false;
      isLoading := false;
      nftsIntroBox := None;
    }

    /**
     * The lookup effect: `nft` is the single-item lookup (null when not
     * found; the lookup catches its own errors) and `boxMetadata` what the
     * box read settles to, read only for a box token (`None` for a
     * rejection, which leaves the view loading with the lookup's answer
     * unset).
     */
    method GetNft(address: string, tokenId: string, chainId: int, boxAddress: string,
                  nft: Option<Erc721Item>, boxMetadata: Option<BoxAsset>)
      modifies this
      ensures address == "" || tokenId == "" || chainId == 0 ==>
        erc721 == old(erc721) && isBox == old(isBox) && nftsIntroBox == old(nftsIntroBox) && isLoading == old(isLoading)
      ensures address != "" && tokenId != "" && chainId != 0 ==>
        isBox == (old(isBox) || EqualsIgnoreCase(address, boxAddress))
      ensures address != "" && tokenId != "" && chainId != 0 && EqualsIgnoreCase(address, boxAddress) && boxMetadata.None? ==>
        isLoading && erc721 == old(erc721) && nftsIntroBox == old(nftsIntroBox)
      ensures address != "" && tokenId != "" && chainId != 0 && !(EqualsIgnoreCase(address, boxAddress) && boxMetadata.None?) ==>
        (erc721 == nft && !isLoading
         && nftsIntroBox == (if EqualsIgnoreCase(address, boxAddress) then boxMetadata else old(nftsIntroBox)))
    {
      if address != "" && tokenId != "" && chainId != 0 {
        isLoading := true;
        if Lower(address) == Lower(boxAddress) {
          isBox := true;
          if boxMetadata.None? {
            return;
          }
          nftsIntroBox := boxMetadata;
        }
        if nft.Some? {
          erc721 := nft;
        } else {
          erc721 := None;
        }
        isLoading := false;
      }
    }
  }
}
