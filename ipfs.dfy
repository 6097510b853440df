/**
 * The IPFS pinning upload: which multipart form fields are sent for the
 * metadata and the media files, and what the upload reports back.
 */
module IpfsService {
  import opened Common

  /** One multipart form field: its key and the file (or blob) it carries. */
  datatype Part = Part(key: string, content: string)

  /** The form `uploadToIpfs` fills, by its successive conditional appends. */
  method FormFields(data: string, image: Option<string>, video: Option<string>, audio: Option<string>)
    returns (formData: seq<Part>)
    ensures formData == FormFieldsOf(data, image, video, audio)
  {
    formData := [Part("metadata", data)];
    if image.Some? && video.None? && audio.None? {
      formData := formData + [Part("media", image.value)];
    }
    if image.Some? && audio.Some? {
      formData := formData + [Part("preview", image.value)];
      formData := formData + [Part("media", audio.value)];
    }
    if image.Some? && video.Some? {
      formData := formData + [Part("preview", image.value)];
      formData := formData + [Part("video", video.value)];
    }
  }

  function FormFieldsOf(data: string, image: Option<string>, video: Option<string>, audio: Option<string>): seq<Part>
  {
    [Part("metadata", data)]
    + (if image.Some? && video.None? && audio.None? then [Part("media", image.value)] else [])
    + (if image.Some? && audio.Some? then [Part("preview", image.value), Part("media", audio.value)] else [])
    + (if image.Some? && video.Some? then [Part("preview", image.value), Part("video", video.value)] else [])
  }

  /**
   * The five shapes of the form: the metadata always first; an image alone
   * as the media; with audio the image as preview and the audio as media;
   * with video the image as preview and the video; with both, the preview
   * twice.  Without an image only the metadata is sent.
   */
  lemma FormFieldsCases(data: string, image: Option<string>, video: Option<string>, audio: Option<string>)
    ensures FormFieldsOf(data, image, video, audio)[0] == Part("metadata", data)
    ensures image.None? ==> FormFieldsOf(data, image, video, audio) == [Part("metadata", data)]
    ensures image.Some? && video.None? && audio.None? ==>
      FormFieldsOf(data, image, video, audio) == [Part("metadata", data), Part("media", image.value)]
    ensures image.Some? && video.None? && audio.Some? ==>
      FormFieldsOf(data, image, video, audio)
      == [Part("metadata", data), Part("preview", image.value), Part("media", audio.value)]
    ensures image.Some? && video.Some? && audio.None? ==>
      FormFieldsOf(data, image, video, audio)
      == [Part("metadata", data), Part("preview", image.value), Part("video", video.value)]
    ensures image.Some? && video.Some? && audio.Some? ==>
      FormFieldsOf(data, image, video, audio)
      == [Part("metadata", data), Part("preview", image.value), Part("media", audio.value),
          Part("preview", image.value), Part("video", video.value)]
  {
  }

  /** The number of fields with a given key. */
  function CountKey(form: seq<Part>, key: string): nat
  {
    if form == [] then 0 else (if form[0].key == key then 1 else 0) + CountKey(form[1..], key)
  }

  lemma {:induction false} CountKeyAppend(a: seq<Part>, b: seq<Part>, key: string)
    ensures CountKey(a + b, key) == CountKey(a, key) + CountKey(b, key)
  {
    if a != [] {
      assert (a + b)[0] == a[0];
      assert (a + b)[1..] == a[1..] + b;
      CountKeyAppend(a[1..], b, key);
    } else {
      assert a + b == b;
    }
  }

  lemma CountKeySmall(p: Part, q: Part, key: string)
    ensures CountKey([], key) == 0
    ensures CountKey([p], key) == (if p.key == key then 1 else 0)
    ensures CountKey([p, q], key) == (if p.key == key then 1 else 0) + (if q.key == key then 1 else 0)
  {
    assert [p][1..] == [];
    assert [p, q][1..] == [q];
    assert [q][1..] == [];
  }

  /** The metadata is sent once, and at most one media file per upload. */
  lemma FormFieldCounts(data: string, image: Option<string>, video: Option<string>, audio: Option<string>)
    ensures CountKey(FormFieldsOf(data, image, video, audio), "metadata") == 1
    ensures CountKey(FormFieldsOf(data, image, video, audio), "media") <= 1
    ensures CountKey(FormFieldsOf(data, image, video, audio), "preview")
            == (if image.Some? then (if audio.Some? then 1 else 0) + (if video.Some? then 1 else 0) else 0)
  {
    var m := [Part("metadata", data)];
    var a := if image.Some? && video.None? && audio.None? then [Part("media", image.value)] else [];
    var b := if image.Some? && audio.Some? then [Part("preview", image.value), Part("media", audio.value)] else [];
    var c := if image.Some? && video.Some? then [Part("preview", image.value), Part("video", video.value)] else [];
    assert FormFieldsOf(data, image, video, audio) == m + a + b + c;
    var x := Part("preview", "");
    var keys := ["metadata", "media", "preview"];
    forall k | k in keys
      ensures CountKey(m, k) == (if k == "metadata" then 1 else 0)
      ensures CountKey(a, k) == (if a != [] && k == "media" then 1 else 0)
      ensures CountKey(b, k) == (if b != [] && (k == "preview" || k == "media") then 1 else 0)
      ensures CountKey(c, k) == (if c != [] && k == "preview" then 1 else 0)
    {
      CountKeySmall(Part("metadata", data), x, k);
      if a != [] { CountKeySmall(a[0], x, k); }
      if b != [] { CountKeySmall(b[0], b[1], k); }
      if c != [] { CountKeySmall(c[0], c[1], k); }
    }
    CountKeyAppend(m, a, "metadata");
    CountKeyAppend(m + a, b, "metadata");
    CountKeyAppend(m + a + b, c, "metadata");
    CountKeyAppend(m, a, "media");
    CountKeyAppend(m + a, b, "media");
    CountKeyAppend(m + a + b, c, "media");
    CountKeyAppend(m, a, "preview");
    CountKeyAppend(m + a, b, "preview");
    CountKeyAppend(m + a + b, c, "preview");
  }

  // ---------------------------------------------------------------------
  // Upload result
  // ---------------------------------------------------------------------

  /** The pinning service's answer body: absent, or carrying a cid and/or an error. */
  datatype ResponseData = ResponseData(cid: Option<string>, error: Option<string>)

  datatype UploadResponse = UploadResponse(cid: Option<string>, error: Option<string>)

  const RequestFailed: string := "Request failed"

  /**
   * `uploadToIpfs`'s result as written: for any body it returns the two
   * literal strings "uploadResponse.cid" and "uploadResponse.error".
   */
  function UploadResultAsWritten(body: Option<ResponseData>): (r: UploadResponse)
    ensures body.None? ==> r == UploadResponse(None, Some(RequestFailed))
    ensures body.Some? ==> r == UploadResponse(Some("uploadResponse.cid"), Some("uploadResponse.error"))
  {
    if body.None? then UploadResponse(None, Some(RequestFailed))
    else UploadResponse(Some("uploadResponse.cid"), Some("uploadResponse.error"))
  }

  /** Every upload reports an error, even one whose body carries a cid and no error. */
  lemma AsWrittenAlwaysReportsError(body: Option<ResponseData>)
    ensures Truthy(UploadResultAsWritten(body).error)
    ensures body == Some(ResponseData(Some("bafy"), None)) ==> UploadResultAsWritten(body).cid != Some("bafy")
  {
  }

  /** The result with the body's own fields. */
  function UploadResult(body: Option<ResponseData>): (r: UploadResponse)
    ensures body.None? ==> r == UploadResponse(None, Some(RequestFailed))
    ensures body.Some? ==> r.cid == body.value.cid && r.error == body.value.error
  {
    if body.None? then UploadResponse(None, Some(RequestFailed))
    else UploadResponse(body.value.cid, body.value.error)
  }

  /** A failed request is still reported as an error, and a successful body passes through unchanged. */
  lemma UploadResultReportsBody(body: Option<ResponseData>)
    ensures Truthy(UploadResult(body).error) <==> body.None? || Truthy(body.value.error)
    ensures body.Some? ==> UploadResult(body).cid == body.value.cid
  {
  }
}
