/**
 * The "add NFT to box" modal: a paged list of the wallet's NFTs, each with
 * its own loading and disabled flag, from which one NFT at a time is added
 * to the box.
 */
module AddBoxModal {
  import opened Common
  import opened WalletService

  const PageSize: nat := 20

  /** An NFT of the list with the flags of its "Add" button. */
  datatype ModalNft = ModalNft(nft: Erc721Item, loading: bool, disabled: bool)

  /** A loaded page: every item starts neither loading nor disabled. */
  function Loaded(items: seq<Erc721Item>): (r: seq<ModalNft>)
    ensures |r| == |items|
    ensures forall i :: 0 <= i < |items| ==> r[i] == ModalNft(items[i], false, false)
  {
    seq(|items|, i requires 0 <= i < |items| => ModalNft(items[i], false, false))
  }

  // ---------------------------------------------------------------------
  // Per-item flags
  // ---------------------------------------------------------------------

  /**
   * The flags `setLoadingItem(t)` gives one item: with no token, both
   * cleared; the item of token `t` starts loading; every other one is
   * disabled and not loading.
   */
  function Flagged(n: ModalNft, tokenId: Option<string>): ModalNft
  {
    if tokenId.None? then n.(loading := false, disabled := false)
    else if n.nft.tokenId == tokenId.value then n.(loading := true)
    else n.(loading := false, disabled := true)
  }

  function MarkLoading(nfts: seq<ModalNft>, tokenId: Option<string>): seq<ModalNft>
  {
    seq(|nfts|, i requires 0 <= i < |nfts| => Flagged(nfts[i], tokenId))
  }

  /**
   * Marking keeps every NFT in its place; an item is loading exactly when it
   * carries the chosen token, and disabled exactly when another token was
   * chosen (the chosen one keeps its old disabled flag).
   */
  lemma MarkLoadingSpec(nfts: seq<ModalNft>, tokenId: Option<string>, i: int)
    requires 0 <= i < |nfts|
    ensures |MarkLoading(nfts, tokenId)| == |nfts|
    ensures MarkLoading(nfts, tokenId)[i].nft == nfts[i].nft
    ensures MarkLoading(nfts, tokenId)[i].loading <==> tokenId.Some? && nfts[i].nft.tokenId == tokenId.value
    ensures MarkLoading(nfts, tokenId)[i].disabled ==
      (if tokenId.None? then false else if nfts[i].nft.tokenId == tokenId.value then nfts[i].disabled else true)
  {
  }

  /** Clearing the flags after any marking leaves the list as if it had just been loaded. */
  lemma ResetAfterMark(items: seq<Erc721Item>, tokenId: Option<string>)
    ensures MarkLoading(MarkLoading(Loaded(items), tokenId), None) == Loaded(items)
  {
  }

  /** `setLoadingItem`'s list rebuild, one push per item. */
  method BuildLoadingList(nfts: seq<ModalNft>, tokenId: Option<string>) returns (newNftList: seq<ModalNft>)
    ensures newNftList == MarkLoading(nfts, tokenId)
  {
    newNftList := [];
    if tokenId.None? {
      for i := 0 to |nfts|
        invariant newNftList == MarkLoading(nfts[..i], tokenId)
      {
        newNftList := newNftList + [nfts[i].(loading := false, disabled := false)];
      }
      assert nfts[..|nfts|] == nfts;
      return;
    }
    for i := 0 to |nfts|
      invariant newNftList == MarkLoading(nfts[..i], tokenId)
    {
      if nfts[i].nft.tokenId == tokenId.value {
        newNftList := newNftList + [nfts[i].(loading := true)];
      } else {
        newNftList := newNftList + [nfts[i].(loading := false, disabled := true)];
      }
    }
    assert nfts[..|nfts|] == nfts;
  }

  // ---------------------------------------------------------------------
  // Removal by token id
  // ---------------------------------------------------------------------

  /** The items whose token id is not `tokenId`, in order (the address is not compared). */
  function WithoutToken(nfts: seq<ModalNft>, tokenId: string): (r: seq<ModalNft>)
    ensures |r| <= |nfts|
  {
    if nfts == [] then []
    else WithoutToken(nfts[..|nfts| - 1], tokenId)
         + (if nfts[|nfts| - 1].nft.tokenId != tokenId then [nfts[|nfts| - 1]] else [])
  }

  lemma {:induction false} WithoutTokenMembers(nfts: seq<ModalNft>, tokenId: string, x: ModalNft)
    ensures x in WithoutToken(nfts, tokenId) <==> x in nfts && x.nft.tokenId != tokenId
  {
    if nfts != [] {
      var front := nfts[..|nfts| - 1];
      WithoutTokenMembers(front, tokenId, x);
      assert nfts == front + [nfts[|nfts| - 1]];
    }
  }

  /** A list without the token is left as it is. */
  lemma {:induction false} WithoutAbsentToken(nfts: seq<ModalNft>, tokenId: string)
    requires forall i :: 0 <= i < |nfts| ==> nfts[i].nft.tokenId != tokenId
    ensures WithoutToken(nfts, tokenId) == nfts
  {
    if nfts != [] {
      var front := nfts[..|nfts| - 1];
      WithoutAbsentToken(front, tokenId);
      assert nfts == front + [nfts[|nfts| - 1]];
    }
  }

  /** `removeInList`'s rebuild: one push per kept item. */
  method BuildListWithout(nfts: seq<ModalNft>, tokenId: string) returns (newNftList: seq<ModalNft>)
    ensures newNftList == WithoutToken(nfts, tokenId)
  {
    newNftList := [];
    for i := 0 to |nfts|
      invariant newNftList == WithoutToken(nfts[..i], tokenId)
    {
      assert nfts[..i + 1][..i] == nfts[..i];
      if nfts[i].nft.tokenId != tokenId {
        newNftList := newNftList + [nfts[i]];
      }
    }
    assert nfts[..|nfts|] == nfts;
  }

  // ---------------------------------------------------------------------
  // Display filter
  // ---------------------------------------------------------------------

  /** The NFTs the modal lists: never the box contract's own tokens, by address ignoring case. */
  function VisibleNfts(nfts: seq<ModalNft>, boxAddress: string): (r: seq<ModalNft>)
    ensures |r| <= |nfts|
  {
    if nfts == [] then []
    else (if Lower(nfts[0].nft.address) != Lower(boxAddress) then [nfts[0]] else [])
         + VisibleNfts(nfts[1..], boxAddress)
  }

  lemma {:induction false} VisibleNftsMembers(nfts: seq<ModalNft>, boxAddress: string, x: ModalNft)
    ensures x in VisibleNfts(nfts, boxAddress) <==> x in nfts && !EqualsIgnoreCase(x.nft.address, boxAddress)
  {
    if nfts != [] {
      VisibleNftsMembers(nfts[1..], boxAddress, x);
      assert nfts == [nfts[0]] + nfts[1..];
    }
  }

  // ---------------------------------------------------------------------
  // Modal state
  // ---------------------------------------------------------------------

  /** What `addedNftInBox` settled to: true, false, or a throw. */
  datatype AddOutcome = Added | NotAdded | AddThrew

  /** A page request `get721Items(account, chainId, offset, limit)`. */
  datatype PageRequest = PageRequest(offset: nat, limit: nat)

  class AddBoxModalState {
    var nfts: seq<ModalNft>
    var loading: bool
    var offset: nat
    var hasMore: bool

    constructor()
      ensures nfts == [] && !loading && offset == PageSize && hasMore
    {
      nfts := [];
      loading := false;
      offset := PageSize;
      hasMore := true;
    }

    /**
     * The first-load effect.  `page` is the first page (`None` when the
     * listing throws).  Without an account or chain nothing is fetched and
     * the list stays in its loading state.
     */
    method InitialLoad(account: Option<string>, chainId: int, page: Option<seq<Erc721Item>>) returns (request: Option<PageRequest>)
      modifies this
      ensures request.Some? <==> Truthy(account) && chainId != 0
      ensures request.Some? ==> request.value == PageRequest(0, PageSize)
      ensures request.None? ==> loading && nfts == old(nfts) && hasMore == old(hasMore)
      ensures request.Some? ==> !loading
      ensures request.Some? && page.None? ==> nfts == old(nfts) && hasMore == old(hasMore)
      ensures request.Some? && page.Some? ==>
        (nfts == Loaded(page.value) && hasMore == (old(hasMore) && chainId == EthereumMainnet))
      ensures offset == old(offset)
    {
      loading := true;
      if Truthy(account) && chainId != 0 {
        request := Some(PageRequest(0, PageSize));
        if page.None? {
          loading := false;
          return;
        }
        var nftItemModal := Loaded(page.value);
        if chainId != EthereumMainnet {
          hasMore := false;
        }
        nfts := nftItemModal;
        loading := false;
      } else {
        request := None;
      }
    }

    /** The infinite-scroll callback: append the next page and advance the offset. */
    method NextPage(account: Option<string>, chainId: int, page: Option<seq<Erc721Item>>) returns (request: Option<PageRequest>)
      modifies this
      ensures request.Some? <==> Truthy(account) && chainId != 0
      ensures request.Some? ==> request.value == PageRequest(old(offset), PageSize)
      ensures loading == old(loading)
      ensures request.Some? && page.Some? ==>
        (nfts == old(nfts) + Loaded(page.value) && offset == old(offset) + PageSize
         && hasMore == (old(hasMore) && |page.value| != 0))
      ensures request.None? || page.None? ==> nfts == old(nfts) && offset == old(offset) && hasMore == old(hasMore)
    {
      request := None;
      if Truthy(account) && chainId != 0 {
        request := Some(PageRequest(offset, PageSize));
        if page.Some? {
          var nftItemModal := Loaded(page.value);
          nfts := nfts + nftItemModal;
          offset := offset + PageSize;
          if |page.value| == 0 {
            hasMore := false;
          }
        }
      }
    }

    /**
     * `addNftInBox`.  Both list rebuilds read the list as it was rendered
     * (the handler's closure), so the removal after a success starts from the
     * unmarked list.  The page reload after a success is not modelled.
     */
    method AddNftInBox(tokenId: string, account: Option<string>, outcome: AddOutcome)
      modifies this
      ensures !Truthy(account) ==> nfts == old(nfts)
      ensures Truthy(account) && outcome == Added ==> nfts == WithoutToken(old(nfts), tokenId)
      ensures Truthy(account) && outcome != Added ==> nfts == MarkLoading(old(nfts), None)
      ensures loading == old(loading) && offset == old(offset) && hasMore == old(hasMore)
    {
      if !Truthy(account) {
        return;
      }
      var rendered := nfts;
      var marked := BuildLoadingList(rendered, Some(tokenId));
      nfts := marked;
      if outcome == Added {
        var kept := BuildListWithout(rendered, tokenId);
        nfts := kept;
      } else {
        var reset := BuildLoadingList(rendered, None);
        nfts := reset;
      }
    }
  }
}
