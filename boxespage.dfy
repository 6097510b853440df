/**
 * The boxes page: the wallet's boxes as cards with up to three thumbnails
 * (or two and a "+ n" badge), the "add a first NFT" action for an empty
 * box, the empty-state card, and the unsupported-network alert.
 */
module BoxesPage {
  import opened Common
  import opened BoxService

  /** The thumbnails a card shows and the count on its badge, if any. */
  datatype CardSummary = CardSummary(thumbnails: seq<NftBoxItem>, badge: Option<int>)

  function Thumbnails(box: BoxAsset): (s: CardSummary)
    ensures box.nftCount <= 3 ==> s == CardSummary(box.nfts, None)
    ensures box.nftCount > 3 ==>
      (s.thumbnails == box.nfts[..if |box.nfts| < 2 then |box.nfts| else 2] && s.badge == Some(box.nftCount - 2))
  {
    if box.nftCount <= 3 then CardSummary(box.nfts, None)
    else CardSummary(box.nfts[..if |box.nfts| < 2 then |box.nfts| else 2], Some(box.nftCount - 2))
  }

  /**
   * For a box whose list matches its count (as `getBoxMetadata` builds it),
   * at most three thumbnails are shown, each a box entry in order, and the
   * thumbnails plus the badge account for every NFT of the box.
   */
  lemma ThumbnailsAccountForAll(box: BoxAsset)
    requires |box.nfts| == box.nftCount
    ensures |Thumbnails(box).thumbnails| <= 3
    ensures Thumbnails(box).thumbnails <= box.nfts
    ensures |Thumbnails(box).thumbnails| + (if Thumbnails(box).badge.Some? then Thumbnails(box).badge.value else 0)
            == box.nftCount
    ensures Thumbnails(box).badge.Some? ==> Thumbnails(box).badge.value >= 2
  {
  }

  /** "Add a first NFT" appears exactly on an empty box. */
  predicate AddFirstShown(box: BoxAsset)
  {
    box.nftCount == 0
  }

  /** An empty box shows no thumbnail, no badge, and the add-first action. */
  lemma EmptyBoxCard(box: BoxAsset)
    requires |box.nfts| == box.nftCount && box.nftCount == 0
    ensures Thumbnails(box) == CardSummary([], None) && AddFirstShown(box)
  {
  }

  /** What the page keeps as its boxes: the list, or the error object `getBoxItems` resolves to on failure. */
  datatype BoxesValue = BoxesList(boxes: seq<BoxAsset>) | ErrorObject

  function ValueOf(r: BoxList): (v: BoxesValue)
    ensures r.Boxes? <==> v.BoxesList?
    ensures r.Boxes? ==> v.boxes == r.boxes
  {
    if r.Boxes? then BoxesList(r.boxes) else ErrorObject
  }

  /** The cards rendered: only a real, non-empty list, once loaded, with an account. */
  predicate CardsShown(loading: bool, account: Option<string>, boxes: BoxesValue)
  {
    !loading && Truthy(account) && boxes.BoxesList? && |boxes.boxes| > 0
  }

  /** The empty-state card: loaded, an account, and no boxes (the error object has no length). */
  predicate EmptyCardShown(loading: bool, account: Option<string>, boxes: BoxesValue)
  {
    !loading && Truthy(account) && (boxes.ErrorObject? || |boxes.boxes| == 0)
  }

  /** Once loaded with an account, exactly one of the cards and the empty card is rendered. */
  lemma CardsOrEmpty(loading: bool, account: Option<string>, boxes: BoxesValue)
    requires !loading && Truthy(account)
    ensures CardsShown(loading, account, boxes) != EmptyCardShown(loading, account, boxes)
  {
  }

  class BoxesPageState {
    var alertNetwork: bool
    var loading: bool
    var boxes: BoxesValue

    constructor()
      ensures !alertNetwork && !loading && boxes == BoxesList([])
    {
      alertNetwork := false;
      loading := false;
      boxes := BoxesList([]);
    }

    /** The chain effect: alert exactly when the chain is not allowed. */
    method CheckChain(chainId: int, allowedChains: seq<int>)
      modifies this
      ensures alertNetwork == UnsupportedChain(chainId, allowedChains)
      ensures loading == old(loading) && boxes == old(boxes)
    {
      if chainId !in allowedChains || chainId == 0 {
        alertNetwork := true;
        return;
      }
      alertNetwork := false;
    }

    /**
     * The list effect.  Returns whether the boxes were requested; `result`
     * is what `getBoxItems` resolves to.  Without an account the page stays
     * in its loading state.
     */
    method GetListBox(account: Option<string>, boxModal: bool, result: BoxList) returns (requested: bool)
      modifies this
      ensures requested <==> Truthy(account) && !boxModal
      ensures requested ==> boxes == ValueOf(result) && !loading
      ensures !requested ==> boxes == old(boxes)
      ensures !Truthy(account) ==> loading
      ensures Truthy(account) ==> !loading
      ensures alertNetwork == old(alertNetwork)
    {
      requested := false;
      loading := true;
      if Truthy(account) {
        if !boxModal {
          requested := true;
          boxes := ValueOf(result);
          loading := false;
        } else {
          loading := false;
        }
      }
    }
  }
}
