/**
 * The box service.  A box is an ERC-721 token that holds other NFTs.  The
 * service names a box in the subgraph, assembles a box's metadata from the
 * box record and one NFT lookup per item, lists a wallet's boxes, and sends
 * the add-item (after approving the box contract if needed) and
 * remove-item transactions.
 */
module BoxService {
  import opened Common
  import opened WalletService

  /** The subgraph id of a box: lower-cased box contract address, `#`, lower-cased box id. */
  function BoxGraphId(boxAddress: string, boxId: string): (id: string)
    ensures id == Lower(boxAddress) + "#" + Lower(boxId)
    ensures |id| == |boxAddress| + 1 + |boxId| && id[|boxAddress|] == '#'
  {
    Lower(boxAddress) + "#" + Lower(boxId)
  }

  /** Ids that differ only in letter case name the same box. */
  lemma BoxGraphIdIgnoresCase(a1: string, b1: string, a2: string, b2: string)
    requires EqualsIgnoreCase(a1, a2) && EqualsIgnoreCase(b1, b2)
    ensures BoxGraphId(a1, b1) == BoxGraphId(a2, b2)
  {
  }

  // ---------------------------------------------------------------------
  // Box metadata
  // ---------------------------------------------------------------------

  /** An item of a box as the subgraph records it. */
  datatype BoxItemRef = BoxItemRef(collectionId: string, tokenId: string)

  /** A box as the subgraph records it. */
  datatype BoxRecord = BoxRecord(owner: string, items: seq<BoxItemRef>)

  /** One NFT of a box as the box pages show it. */
  datatype NftBoxItem = NftBoxItem(tokenId: string, imageUrl: string, name: string, title: string,
                                   address: string, nameContract: string, loading: bool)

  datatype BoxAsset = BoxAsset(
    name: string, author: string, ownerOf: string, description: string, image: string, socials: Socials,
    boxId: nat, boxAddress: string, nftCount: nat, nfts: seq<NftBoxItem>)

  /** A looked-up NFT as a box entry: every missing field is '', and nothing is loading. */
  function BoxItemOf(nft: Option<Erc721Item>): (b: NftBoxItem)
    ensures !b.loading
    ensures nft.None? ==> b == NftBoxItem("", "", "", "", "", "", false)
    ensures nft.Some? ==> b.tokenId == nft.value.tokenId && b.name == nft.value.name && b.address == nft.value.address
    ensures nft.Some? && nft.value.metadata.Some? ==>
      (b.imageUrl == OrEmpty(nft.value.metadata.value.image) && b.title == OrEmpty(nft.value.metadata.value.name)
       && b.nameContract == OrEmpty(nft.value.metadata.value.assetContractName))
    ensures nft.Some? && nft.value.metadata.None? ==> b.imageUrl == "" && b.title == "" && b.nameContract == ""
  {
    if nft.None? then NftBoxItem("", "", "", "", "", "", false)
    else
      var n := nft.value;
      var m := n.metadata;
      NftBoxItem(n.tokenId,
                 if m.Some? then OrEmpty(m.value.image) else "",
                 n.name,
                 if m.Some? then OrEmpty(m.value.name) else "",
                 n.address,
                 if m.Some? then OrEmpty(m.value.assetContractName) else "",
                 false)
  }

  /** A single-item lookup `getBoxMetadata` makes: the provider and the item's address and token id. */
  datatype LookupRequest = LookupRequest(provider: WalletProvider, address: string, tokenId: string)

  /** The lookups, pushed one per box item in item order. */
  method LookupRequests(items: seq<BoxItemRef>, chainId: int) returns (requests: seq<LookupRequest>)
    ensures |requests| == |items|
    ensures forall i :: 0 <= i < |items| ==>
      requests[i] == LookupRequest(LookupProvider(chainId), items[i].collectionId, items[i].tokenId)
  {
    requests := [];
    var provider := if chainId == EthereumMainnet then Api else TheGraph;
    var i := 0;
    while i < |items|
      invariant 0 <= i <= |items|
      invariant |requests| == i
      invariant forall j :: 0 <= j < i ==>
        requests[j] == LookupRequest(LookupProvider(chainId), items[j].collectionId, items[j].tokenId)
    {
      requests := requests + [LookupRequest(provider, items[i].collectionId, items[i].tokenId)];
      i := i + 1;
    }
  }

  /**
   * `getBoxMetadata`.  `box` is the box record (`None` makes the function
   * throw), `boxToken` the metadata the contract lookup of the box token
   * builds (`None` when that lookup rejects; when it resolves it always
   * carries metadata), and `lookup` answers the item lookups (null for an
   * NFT not found).  A rejection of either read is a rejection (`None`).
   */
  function GetBoxMetadata(boxId: nat, boxAddress: string, box: Option<BoxRecord>, boxToken: Option<Metadata>,
                          lookup: (string, string) -> Option<Erc721Item>): (r: Option<BoxAsset>)
    ensures r.None? <==> box.None? || boxToken.None?
    ensures r.Some? ==>
      (r.value.nftCount == |box.value.items| && |r.value.nfts| == |box.value.items|
       && r.value.boxId == boxId && r.value.boxAddress == boxAddress && r.value.ownerOf == box.value.owner)
    ensures r.Some? ==> forall i :: 0 <= i < |box.value.items| ==>
      r.value.nfts[i] == BoxItemOf(lookup(box.value.items[i].collectionId, box.value.items[i].tokenId))
    ensures r.Some? ==>
      (r.value.name == OrEmpty(boxToken.value.name) && r.value.author == OrEmpty(boxToken.value.author)
       && r.value.description == OrEmpty(boxToken.value.description) && r.value.image == OrEmpty(boxToken.value.image)
       && r.value.socials == boxToken.value.socials)
  {
    if box.None? || boxToken.None? then None
    else
      var items := box.value.items;
      var m := boxToken.value;
      Some(BoxAsset(
        OrEmpty(m.name), OrEmpty(m.author), box.value.owner, OrEmpty(m.description), OrEmpty(m.image), m.socials,
        boxId, boxAddress, |items|,
        seq(|items|, i requires 0 <= i < |items| => BoxItemOf(lookup(items[i].collectionId, items[i].tokenId)))))
  }

  /** No entry of an assembled box is loading. */
  lemma BoxItemsNotLoading(boxId: nat, boxAddress: string, box: BoxRecord, boxToken: Metadata,
                           lookup: (string, string) -> Option<Erc721Item>, i: int)
    requires 0 <= i < |box.items|
    ensures !GetBoxMetadata(boxId, boxAddress, Some(box), Some(boxToken), lookup).value.nfts[i].loading
  {
  }

  /** What `getBoxItems` resolves to: the boxes, or (from its error path) the error object. */
  datatype BoxList = Boxes(boxes: seq<BoxAsset>) | ReturnedError

  /**
   * `getBoxItems`: the owner's box ids (`None` when the query throws) and
   * the metadata of each box (`None` when assembling it throws).
   */
  method GetBoxItems(boxIds: Option<seq<nat>>, metadataOf: nat -> Option<BoxAsset>) returns (r: BoxList)
    ensures r.ReturnedError? <==>
      boxIds.None? || exists i :: 0 <= i < |boxIds.value| && metadataOf(boxIds.value[i]).None?
    ensures r.Boxes? ==>
      (|r.boxes| == |boxIds.value|
       && forall i :: 0 <= i < |boxIds.value| ==> r.boxes[i] == metadataOf(boxIds.value[i]).value)
  {
    if boxIds.None? {
      return ReturnedError;
    }
    var ids := boxIds.value;
    var listBox: seq<BoxAsset> := [];
    var i := 0;
    while i < |ids|
      invariant 0 <= i <= |ids|
      invariant |listBox| == i
      invariant forall j :: 0 <= j < i ==> metadataOf(ids[j]).Some? && listBox[j] == metadataOf(ids[j]).value
    {
      var box := metadataOf(ids[i]);
      if box.None? {
        return ReturnedError;
      }
      listBox := listBox + [box.value];
      i := i + 1;
    }
    r := Boxes(listBox);
  }

  // ---------------------------------------------------------------------
  // Adding and removing items
  // ---------------------------------------------------------------------

  const UnlockedNotice: string := "Contract NFTs unlocked successfully"
  const AddedNotice: string := "NFT added in box"
  const RemovedNotice: string := "NFT removed from box"

  /**
   * What an `addedNftInBox` run did.  `rejected` says the function rejected
   * part-way, after raising the notices listed.
   */
  datatype AddRun = AddRun(approvalRequested: bool, addSent: bool, added: bool, rejected: bool, notices: seq<string>)

  /**
   * Whether one of the approved-for-all reads `addedNftInBox` awaits rejects.
   * `isApprovedForAllErc721` returns the read's promise from inside its
   * `try` without awaiting it, so a rejection escapes the wrapper.  The
   * read after the approval request happens only when that request is made.
   */
  predicate ApprovalReadRejects(approvedBefore: Option<bool>, approvedAfterRequest: Option<bool>, approvedFinal: Option<bool>)
  {
    approvedBefore.None? || (!approvedBefore.value && approvedAfterRequest.None?) || approvedFinal.None?
  }

  /**
   * `addedNftInBox`.  The ledger's approved-for-all answers are parameters
   * (`None` for a rejected read): before, after the approval request (read
   * only when that request is made), and the final check.
   * `approvalSendFails` says whether sending `setApprovalForAll` fails,
   * which its wrapper catches with an error notice of its own;
   * `sendThrows` says whether sending `boxAddItem` throws.
   */
  method AddedNftInBox(approvedBefore: Option<bool>, approvalSendFails: bool, approvedAfterRequest: Option<bool>,
                       approvedFinal: Option<bool>, sendThrows: bool)
    returns (run: AddRun)
    ensures run.rejected <==> ApprovalReadRejects(approvedBefore, approvedAfterRequest, approvedFinal)
    ensures run.approvalRequested <==> approvedBefore == Some(false)
    ensures run.addSent <==> !run.rejected && approvedFinal == Some(true)
    ensures run.added <==> run.addSent && !sendThrows
    ensures run.notices ==
      (if approvedBefore != Some(false) then []
       else (if approvalSendFails then [ErrorNotice] else [])
            + (if approvedAfterRequest.None? then [] else [if approvedAfterRequest.value then UnlockedNotice else ErrorNotice]))
      + (if run.addSent then [if sendThrows then ErrorNotice else AddedNotice] else [])
    ensures approvedBefore == Some(false) && approvalSendFails && approvedAfterRequest == Some(false) ==>
      |run.notices| >= 2 && run.notices[0] == ErrorNotice && run.notices[1] == ErrorNotice
  {
    var notices: seq<string> := [];
    var requested := false;
    if approvedBefore.None? {
      return AddRun(false, false, false, true, notices);
    }
    if !approvedBefore.value {
      requested := true;
      if approvalSendFails {
        notices := notices + [ErrorNotice];
      }
      if approvedAfterRequest.None? {
        return AddRun(requested, false, false, true, notices);
      }
      var contractApproved := approvedAfterRequest.value;
      notices := notices + [if contractApproved then UnlockedNotice else ErrorNotice];
    }
    if approvedFinal.None? {
      return AddRun(requested, false, false, true, notices);
    }
    var isApprovedForAll2 := approvedFinal.value;
    if isApprovedForAll2 {
      if sendThrows {
        notices := notices + [ErrorNotice];
        return AddRun(requested, true, false, false, notices);
      }
      notices := notices + [AddedNotice];
      return AddRun(requested, true, true, false, notices);
    }
    run := AddRun(requested, false, false, false, notices);
  }

  /** `removeNftInBox`: true iff sending `boxRemoveItem` does not throw, with a matching notice. */
  function RemoveNftInBox(sendThrows: bool): (r: (bool, string))
    ensures r.0 <==> !sendThrows
    ensures r.1 == (if sendThrows then ErrorNotice else RemovedNotice)
  {
    if sendThrows then (false, ErrorNotice) else (true, RemovedNotice)
  }
}
