/**
 * The "create a box" form: when it may mint, the media size limit, the
 * metadata document it uploads, and the decision to send the mint after
 * the upload.
 */
module MintBox {
  import opened Common
  import opened IpfsService

  /** A chosen media file: its size in bytes and the data URL the reader produces. */
  datatype MediaFile = MediaFile(name: string, size: nat, dataUrl: string)

  /** Minting needs a media file, a title and an author. */
  predicate IsReadyToMint(image: Option<MediaFile>, title: Option<string>, author: Option<string>)
  {
    image.Some? && Truthy(title) && Truthy(author)
  }

  const MaxImageBytes: nat := 10 * 1024 * 1024

  /** The size test as written, in megabytes: `size / 1024 / 1024 > 10`. */
  predicate TooBig(size: nat)
  {
    size as real / 1024.0 / 1024.0 > 10.0
  }

  /** A file is refused exactly when it is larger than 10 MiB. */
  lemma TooBigBytes(size: nat)
    ensures TooBig(size) <==> size > MaxImageBytes
  {
    var x := size as real;
    assert x / 1024.0 / 1024.0 == x / 1048576.0;
    assert x / 1048576.0 > 10.0 <==> x > 10485760.0;
  }

  // ---------------------------------------------------------------------
  // Metadata
  // ---------------------------------------------------------------------

  datatype Property = Property(kind: string, description: string)

  /** The properties object, as key/value pairs in insertion order. */
  function Properties(title: Option<string>, description: Option<string>, createdAt: string): (ps: seq<(string, Property)>)
    ensures |ps| >= 3 && ps[0] == ("name", Property("string", OrElse(title, "")))
    ensures ps[1] == ("created_at", Property("string", createdAt))
    ensures ps[2] == ("preview_media_file_type", Property("string", "image/png,image/jpeg"))
    ensures |ps| == 4 <==> Truthy(description)
    ensures |ps| == 4 ==> ps[3] == ("description", Property("string", description.value))
  {
    [("name", Property("string", OrElse(title, ""))),
     ("created_at", Property("string", createdAt)),
     ("preview_media_file_type", Property("string", "image/png,image/jpeg"))]
    + (if Truthy(description) then [("description", Property("string", description.value))] else [])
  }

  /** The metadata document uploaded for the box. */
  datatype BoxMetadata = BoxMetadata(
    name: string, description: string, author: string, webSiteUrl: string, twitter: string, telegram: string,
    discord: string, instagram: string, sensitiveContent: string, properties: seq<(string, Property)>,
    image: string, externalUrl: string)

  /** The form's text fields, each possibly unset. */
  datatype FormText = FormText(
    title: Option<string>, description: Option<string>, author: Option<string>, webSiteUrl: Option<string>,
    twitter: Option<string>, telegram: Option<string>, discord: Option<string>, instagram: Option<string>)

  function BoolText(b: bool): string
  {
    if b then "true" else "false"
  }

  const MediaPlaceholder: string := "$media-uri"

  /**
   * The metadata: every text defaults to '', the sensitive-content flag is
   * the text "true" or "false", the image is the media placeholder and the
   * external URL is empty.
   */
  function BuildMetadata(f: FormText, isSensitiveContent: bool, createdAt: string): (m: BoxMetadata)
    ensures m.name == OrElse(f.title, "") && m.description == OrElse(f.description, "") && m.author == OrElse(f.author, "")
    ensures m.webSiteUrl == OrElse(f.webSiteUrl, "") && m.twitter == OrElse(f.twitter, "")
    ensures m.telegram == OrElse(f.telegram, "") && m.discord == OrElse(f.discord, "") && m.instagram == OrElse(f.instagram, "")
    ensures m.sensitiveContent == (if isSensitiveContent then "true" else "false")
    ensures m.properties == Properties(f.title, f.description, createdAt)
    ensures m.image == MediaPlaceholder && m.externalUrl == ""
  {
    BoxMetadata(OrElse(f.title, ""), OrElse(f.description, ""), OrElse(f.author, ""), OrElse(f.webSiteUrl, ""),
                OrElse(f.twitter, ""), OrElse(f.telegram, ""), OrElse(f.discord, ""), OrElse(f.instagram, ""),
                BoolText(isSensitiveContent), Properties(f.title, f.description, createdAt), MediaPlaceholder, "")
  }

  /** The name property and the name field agree, and the description property exists only for a description. */
  lemma MetadataConsistent(f: FormText, isSensitiveContent: bool, createdAt: string)
    ensures BuildMetadata(f, isSensitiveContent, createdAt).properties[0].1.description
            == BuildMetadata(f, isSensitiveContent, createdAt).name
    ensures |BuildMetadata(f, isSensitiveContent, createdAt).properties| == 4 ==>
      BuildMetadata(f, isSensitiveContent, createdAt).properties[3].1.description
      == BuildMetadata(f, isSensitiveContent, createdAt).description
  {
  }

  /**
   * A form that is ready to mint uploads metadata with a non-empty name and
   * author, and the name property repeats the title.
   */
  lemma ReadyFormNamesTheBox(image: Option<MediaFile>, f: FormText, isSensitiveContent: bool, createdAt: string)
    requires IsReadyToMint(image, f.title, f.author)
    ensures BuildMetadata(f, isSensitiveContent, createdAt).name == f.title.value != ""
    ensures BuildMetadata(f, isSensitiveContent, createdAt).author == f.author.value != ""
    ensures BuildMetadata(f, isSensitiveContent, createdAt).properties[0].1.description == f.title.value
  {
  }

  // ---------------------------------------------------------------------
  // Mint decision
  // ---------------------------------------------------------------------

  datatype MintRequest = MintRequest(cid: string, account: string, chainId: int)


  /**
   * After the upload: no result (there was no image) or an error reported
   * means a notice and no mint; otherwise the mint is sent iff both an
   * account and a cid exist.
   */
  function MintDecision(upload: Option<UploadResponse>, account: Option<string>, chainId: int): (r: (Option<MintRequest>, Option<string>))
    ensures r.0.Some? <==> upload.Some? && !Truthy(upload.value.error) && Truthy(account) && Truthy(upload.value.cid)
    ensures r.0.Some? ==> r.0.value == MintRequest(upload.value.cid.value, account.value, chainId)
    ensures r.1.Some? <==> upload.None? || Truthy(upload.value.error)
    ensures r.1.Some? ==> r.1.value == (if upload.Some? then upload.value.error.value else ErrorNotice)
  {
    if upload.None? || Truthy(upload.value.error) then
      (None, Some(if upload.Some? && Truthy(upload.value.error) then upload.value.error.value else ErrorNotice))
    else if Truthy(account) && Truthy(upload.value.cid) then
      (Some(MintRequest(upload.value.cid.value, account.value, chainId)), None)
    else (None, None)
  }

  /** With the upload result as written, no box is ever minted. */
  lemma AsWrittenNeverMints(body: Option<ResponseData>, account: Option<string>, chainId: int)
    ensures MintDecision(Some(UploadResultAsWritten(body)), account, chainId).0.None?
  {
    AsWrittenAlwaysReportsError(body);
  }

  /** With the body's own fields, a body with a cid and no error mints for a connected account. */
  lemma CorrectedMints(cid: string, account: string, chainId: int)
    requires cid != "" && account != ""
    ensures MintDecision(Some(UploadResult(Some(ResponseData(Some(cid), None)))), Some(account), chainId).0
            == Some(MintRequest(cid, account, chainId))
  {
  }

  class MintBoxForm {
    var isLoading: bool
    var nftImageUrl: Option<string>
    var nftImage: Option<MediaFile>
    var notices: seq<string>

    constructor()
      ensures !isLoading && nftImageUrl.None? && nftImage.None? && notices == []
    {
      isLoading := false;
      nftImageUrl := None;
      nftImage := None;
      notices := [];
    }

    /**
     * The upload handler: a file over the limit is refused with a notice;
     * otherwise it is kept and previewed.  It always returns false (the file
     * is never uploaded by the picker itself).
     */
    method HandleImageUpload(file: MediaFile) returns (upload: bool)
      modifies this
      ensures !upload
      ensures TooBig(file.size) ==>
        nftImageUrl.None? && nftImage == old(nftImage)
        && notices == old(notices) + ["The media file must be equal or smaller than 10MB"]
      ensures !TooBig(file.size) ==> nftImageUrl == Some(file.dataUrl) && nftImage == Some(file) && notices == old(notices)
      ensures isLoading == old(isLoading)
    {
      nftImageUrl := None;
      if TooBig(file.size) {
        notices := notices + ["The media file must be equal or smaller than 10MB"];
        return false;
      }
      nftImageUrl := Some(file.dataUrl);
      nftImage := Some(file);
      return false;
    }

    /**
     * `mintNft`.  The upload happens only with an image; `uploaded` is what it
     * settles to (`None` for a rejection of the request, which nothing
     * catches: the form stays loading, and nothing is notified or minted).
     * Returns the metadata uploaded and the mint sent, if any.
     */
    method MintNft(f: FormText, isSensitiveContent: bool, createdAt: string, account: Option<string>, chainId: int,
                   uploaded: Option<UploadResponse>) returns (metadata: Option<BoxMetadata>, mint: Option<MintRequest>)
      modifies this
      ensures metadata.Some? <==> old(nftImage).Some?
      ensures metadata.Some? ==> metadata.value == BuildMetadata(f, isSensitiveContent, createdAt)
      ensures old(nftImage).Some? && uploaded.None? ==> isLoading && mint.None? && notices == old(notices)
      ensures !(old(nftImage).Some? && uploaded.None?) ==>
        var d := MintDecision(if old(nftImage).Some? then uploaded else None, account, chainId);
        !isLoading && mint == d.0 && notices == old(notices) + (if d.1.Some? then [d.1.value] else [])
      ensures nftImage == old(nftImage) && nftImageUrl == old(nftImageUrl)
    {
      isLoading := true;
      var nftMetadataJson := BuildMetadata(f, isSensitiveContent, createdAt);
      var nftMetadata: Option<UploadResponse> := None;
      metadata := None;
      if nftImage.Some? {
        metadata := Some(nftMetadataJson);
        if uploaded.None? {
          return metadata, None;
        }
        nftMetadata := uploaded;
      }
      if nftMetadata.None? || Truthy(nftMetadata.value.error) {
        notices := notices + [if nftMetadata.Some? && Truthy(nftMetadata.value.error) then nftMetadata.value.error.value else ErrorNotice];
        isLoading := false;
        return metadata, None;
      }
      mint := None;
      if Truthy(account) && Truthy(nftMetadata.value.cid) {
        mint := Some(MintRequest(nftMetadata.value.cid.value, account.value, chainId));
      }
      isLoading := false;
    }
  }
}
