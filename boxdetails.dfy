/**
 * The box details page: the box's metadata and its NFTs, each with a
 * "Remove" button that has its own loading flag; the owner's edit
 * controls; the unsupported-network alert; and the reload once a removal
 * transaction is confirmed.
 */
module BoxDetails {
  import opened Common
  import opened BoxService
  import TransactionService

  // ---------------------------------------------------------------------
  // Per-item loading flag and removal
  // ---------------------------------------------------------------------

  /** `setLoadingItem(t)` on one entry: loading exactly when it carries token `t`. */
  function MarkBoxLoading(nfts: seq<NftBoxItem>, tokenId: Option<string>): seq<NftBoxItem>
  {
    seq(|nfts|, i requires 0 <= i < |nfts| => nfts[i].(loading := tokenId.Some? && nfts[i].tokenId == tokenId.value))
  }

  /** Only the loading flags change, and at most the entries of one token are loading. */
  lemma MarkBoxLoadingSpec(nfts: seq<NftBoxItem>, tokenId: Option<string>)
    ensures |MarkBoxLoading(nfts, tokenId)| == |nfts|
    ensures forall i :: 0 <= i < |nfts| ==> MarkBoxLoading(nfts, tokenId)[i].(loading := nfts[i].loading) == nfts[i]
    ensures forall i :: 0 <= i < |nfts| ==>
      (MarkBoxLoading(nfts, tokenId)[i].loading <==> tokenId.Some? && nfts[i].tokenId == tokenId.value)
    ensures tokenId.None? ==> forall i :: 0 <= i < |nfts| ==> !MarkBoxLoading(nfts, tokenId)[i].loading
  {
  }

  method BuildBoxLoadingList(nfts: seq<NftBoxItem>, tokenId: Option<string>) returns (newListNft: seq<NftBoxItem>)
    ensures newListNft == MarkBoxLoading(nfts, tokenId)
  {
    newListNft := [];
    for i := 0 to |nfts|
      invariant newListNft == MarkBoxLoading(nfts[..i], tokenId)
    {
      if tokenId.Some? && nfts[i].tokenId == tokenId.value {
        newListNft := newListNft + [nfts[i].(loading := true)];
      } else {
        newListNft := newListNft + [nfts[i].(loading := false)];
      }
    }
    assert nfts[..|nfts|] == nfts;
  }

  /** The entries whose token id is not `tokenId`, in order. */
  function BoxWithoutToken(nfts: seq<NftBoxItem>, tokenId: string): (r: seq<NftBoxItem>)
    ensures |r| <= |nfts|
  {
    if nfts == [] then []
    else BoxWithoutToken(nfts[..|nfts| - 1], tokenId)
         + (if nfts[|nfts| - 1].tokenId != tokenId then [nfts[|nfts| - 1]] else [])
  }

  lemma {:induction false} BoxWithoutTokenMembers(nfts: seq<NftBoxItem>, tokenId: string, x: NftBoxItem)
    ensures x in BoxWithoutToken(nfts, tokenId) <==> x in nfts && x.tokenId != tokenId
  {
    if nfts != [] {
      var front := nfts[..|nfts| - 1];
      BoxWithoutTokenMembers(front, tokenId, x);
      assert nfts == front + [nfts[|nfts| - 1]];
    }
  }

  method BuildBoxListWithout(nfts: seq<NftBoxItem>, tokenId: string) returns (newListNft: seq<NftBoxItem>)
    ensures newListNft == BoxWithoutToken(nfts, tokenId)
  {
    newListNft := [];
    for i := 0 to |nfts|
      invariant newListNft == BoxWithoutToken(nfts[..i], tokenId)
    {
      assert nfts[..i + 1][..i] == nfts[..i];
      if nfts[i].tokenId != tokenId {
        newListNft := newListNft + [nfts[i]];
      }
    }
    assert nfts[..|nfts|] == nfts;
  }

  // ---------------------------------------------------------------------
  // Display rules
  // ---------------------------------------------------------------------

  /** The Add and Remove controls: only for the box's owner, compared ignoring case. */
  predicate CanEditBox(ownerOf: string, account: Option<string>)
  {
    account.Some? && Lower(ownerOf) == Lower(account.value)
  }

  lemma CanEditBoxSpec(ownerOf: string, account: Option<string>)
    ensures CanEditBox(ownerOf, account) <==> account.Some? && EqualsIgnoreCase(ownerOf, account.value)
    ensures account.Some? && CanEditBox(ownerOf, account) ==> CanEditBox(Lower(ownerOf), Some(Lower(account.value)))
  {
    if account.Some? {
      LowerIdempotent(ownerOf);
      LowerIdempotent(account.value);
    }
  }

  /** The "add your first NFT" text: shown by the box's recorded NFT count, not by its list. */
  predicate EmptyBoxShown(box: BoxAsset)
  {
    box.nftCount == 0
  }

  const RemoveKind: string := "removeNftInBox"

  /** The reload effect: a confirmed removal that is no longer loading. */
  predicate ShouldReload(transaction: Option<TransactionService.Transaction>, transactionLoading: bool)
  {
    !transactionLoading && transaction.Some? && transaction.value.kind == RemoveKind && transaction.value.confirmed
  }

  /** A removal transaction the poller marks confirmed, with the loading flag cleared, triggers the reload. */
  lemma ConfirmedRemovalReloads(t: TransactionService.Transaction)
    requires t.kind == RemoveKind
    ensures ShouldReload(Some(TransactionService.MarkConfirmed(t)), false)
    ensures !ShouldReload(Some(t.(confirmed := false)), false)
  {
  }

  /** What the removal call settled to: true, false, or a throw. */
  datatype RemoveOutcome = Removed | NotRemoved | RemoveThrew

  class BoxDetailsPage {
    var box: Option<BoxAsset>
    var loading: bool
    var alertNetwork: bool
    var reloads: nat

    constructor()
      ensures box.None? && !loading && !alertNetwork && reloads == 0
    {
      box := None;
      loading := false;
      alertNetwork := false;
      reloads := 0;
    }

    /** The chain effect: alert exactly when the chain is not allowed. */
    method CheckChain(chainId: int, allowedChains: seq<int>)
      modifies this
      ensures alertNetwork == UnsupportedChain(chainId, allowedChains)
      ensures box == old(box) && loading == old(loading) && reloads == old(reloads)
    {
      if chainId !in allowedChains || chainId == 0 {
        alertNetwork := true;
        return;
      }
      alertNetwork := false;
    }

    /**
     * The box effect.  `metadata` is what `getBoxMetadata` settles to
     * (`None` for a rejection, which the synchronous `try` does not catch:
     * the page stays loading).  While the add modal is open nothing is fetched.
     */
    method LoadBox(boxModal: bool, metadata: Option<BoxAsset>)
      modifies this
      ensures boxModal ==> !loading && box == old(box)
      ensures !boxModal && metadata.Some? ==> !loading && box == metadata
      ensures !boxModal && metadata.None? ==> loading && box == old(box)
      ensures alertNetwork == old(alertNetwork) && reloads == old(reloads)
    {
      loading := true;
      if !boxModal {
        if metadata.Some? {
          box := metadata;
          loading := false;
        }
      } else {
        loading := false;
      }
    }

    /** `setLoadingItem`: a no-op without a box. */
    method SetLoadingItem(tokenId: Option<string>)
      modifies this
      ensures old(box).None? ==> box == old(box)
      ensures old(box).Some? ==> box == Some(old(box).value.(nfts := MarkBoxLoading(old(box).value.nfts, tokenId)))
      ensures loading == old(loading) && alertNetwork == old(alertNetwork) && reloads == old(reloads)
    {
      if box.None? {
        return;
      }
      var newListNft := BuildBoxLoadingList(box.value.nfts, tokenId);
      box := Some(box.value.(nfts := newListNft));
    }

    /** `removeNftInList`: drops the token's entries; every other field, the NFT count included, is kept. */
    method RemoveNftInList(tokenId: string)
      modifies this
      ensures old(box).None? ==> box == old(box)
      ensures old(box).Some? ==> box == Some(old(box).value.(nfts := BoxWithoutToken(old(box).value.nfts, tokenId)))
      ensures loading == old(loading) && alertNetwork == old(alertNetwork) && reloads == old(reloads)
    {
      if box.None? {
        return;
      }
      var newListNft := BuildBoxListWithout(box.value.nfts, tokenId);
      box := Some(box.value.(nfts := newListNft));
    }

    /**
     * `remove(nft)`.  Every rebuild reads the box as it was rendered (the
     * handler's closure), so after a success the list is the rendered one
     * without the token, and after a failure or a throw every flag is cleared.
     */
    method Remove(tokenId: string, account: Option<string>, outcome: RemoveOutcome)
      modifies this
      ensures !Truthy(account) || old(box).None? ==> box == old(box)
      ensures Truthy(account) && old(box).Some? && outcome == Removed ==>
        box == Some(old(box).value.(nfts := BoxWithoutToken(old(box).value.nfts, tokenId)))
      ensures Truthy(account) && old(box).Some? && outcome != Removed ==>
        box == Some(old(box).value.(nfts := MarkBoxLoading(old(box).value.nfts, None)))
      ensures loading == old(loading) && alertNetwork == old(alertNetwork) && reloads == old(reloads)
    {
      if !Truthy(account) {
        return;
      }
      var rendered := box;
      if rendered.None? {
        return;
      }
      var marked := BuildBoxLoadingList(rendered.value.nfts, Some(tokenId));
      box := Some(rendered.value.(nfts := marked));
      if outcome == Removed {
        var kept := BuildBoxListWithout(rendered.value.nfts, tokenId);
        box := Some(rendered.value.(nfts := kept));
      } else {
        var reset := BuildBoxLoadingList(rendered.value.nfts, None);
        box := Some(rendered.value.(nfts := reset));
      }
    }

    /** The transaction effect: a reload (counted) and the slot cleared. */
    method OnTransaction(slot: TransactionService.TransactionSlot)
      modifies this, slot
      ensures ShouldReload(old(slot.transaction), old(slot.loading)) ==> reloads == old(reloads) + 1 && slot.transaction.None?
      ensures !ShouldReload(old(slot.transaction), old(slot.loading)) ==> reloads == old(reloads) && slot.transaction == old(slot.transaction)
      ensures box == old(box) && loading == old(loading) && alertNetwork == old(alertNetwork)
      ensures slot.modalOpen == old(slot.modalOpen) && slot.loading == old(slot.loading) && slot.errors == old(slot.errors)
    {
      if ShouldReload(slot.transaction, slot.loading) {
        reloads := reloads + 1;
        slot.transaction := None;
      }
    }
  }

  /** The recorded count survives a removal from the list, so the empty-box text keeps its earlier answer. */
  lemma RemovalKeepsEmptyText(box: BoxAsset, tokenId: string)
    ensures EmptyBoxShown(box.(nfts := BoxWithoutToken(box.nfts, tokenId))) == EmptyBoxShown(box)
  {
  }
}
