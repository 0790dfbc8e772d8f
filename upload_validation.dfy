/** The upload service's input validators: title, user ID, the uploaded file's size,
    extension and declared content type, and the probed video's duration, resolution and
    codec. A failure names the offending field and a message. */
module UploadValidation {
  import opened Results
  import opened Strings
  import opened Paths

  const MaxTitleLength := 100
  const MinTitleLength := 1
  const MaxFileSize := 1024 * 1024 * 1024 * 5
  const MinFileSize := 1024
  const MaxVideoDuration := 3600
  const MinVideoDuration := 1
  const MaxVideoResolution := 4320
  const MinVideoResolution := 144

  /** A validator's answer: nil, or a `ValidationError` with its field and message. */
  datatype Verdict = Accepted | Rejected(field: string, message: string)

  /** `ValidationError.Error()`: the field, a colon and the message. */
  function ErrorText(v: Verdict): (text: string)
    requires v.Rejected?
    ensures HasPrefix(text, v.field + ": ")
  {
    v.field + ": " + v.message
  }

  /** `ValidateTitle`: the trimmed title must be 1 to 100 long; too long is checked first.
      Go's `len` counts bytes, here one per character. */
  function ValidateTitle(title: string): (v: Verdict)
    ensures v.Accepted? <==> MinTitleLength <= |TrimSpace(title)| <= MaxTitleLength
    ensures |TrimSpace(title)| > MaxTitleLength ==> v == Rejected("title", "title must be at most 100 characters")
    ensures |TrimSpace(title)| == 0 ==> v == Rejected("title", "title must be at least 1 character")
  {
    var trimmed := TrimSpace(title);
    if |trimmed| > MaxTitleLength then Rejected("title", "title must be at most 100 characters")
    else if |trimmed| < MinTitleLength then Rejected("title", "title must be at least 1 character")
    else Accepted
  }

  /** White space around a title changes nothing. */
  lemma TitleIgnoresPadding(title: string)
    ensures ValidateTitle(TrimSpace(title)) == ValidateTitle(title)
  {
    TrimSpaceIdempotent(title);
  }

  /** `ValidateUserID`: present, and starting with `test_user_` or `google_`. */
  function ValidateUserID(userID: string): (v: Verdict)
    ensures v.Accepted? <==> userID != "" && (HasPrefix(userID, "test_user_") || HasPrefix(userID, "google_"))
    ensures userID == "" ==> v == Rejected("user_id", "user ID is required")
    ensures v.Rejected? ==> v.field == "user_id"
  {
    if userID == "" then Rejected("user_id", "user ID is required")
    else if !HasPrefix(userID, "test_user_") && !HasPrefix(userID, "google_") then
      Rejected("user_id", "user ID must start with 'test_user_' or 'google_'")
    else Accepted
  }

  /** The upload handler's placeholder user never passes. */
  lemma AnonymousRejected()
    ensures ValidateUserID("anonymous") == Rejected("user_id", "user ID must start with 'test_user_' or 'google_'")
  {
    var u := "anonymous";
    assert u[..7] != "google_" by { assert u[0] != 'g'; }
  }

  /** The MIME type each supported extension stands for. */
  const ValidExtensions: map<string, string> := map[".mp4" := "video/mp4", ".mov" := "video/quicktime", ".webm" := "video/webm"]

  /** The supported extensions, in a fixed order; Go lists them in map order. */
  const ExtensionKeys: seq<string> := [".mp4", ".mov", ".webm"]

  /** Whether the declared content type fits the extension's MIME type: unset and
      `application/octet-stream` always do, anything else must match exactly. */
  predicate ContentTypeFits(contentType: string, mimeType: string)
  {
    contentType == "" || contentType == "application/octet-stream" || contentType == mimeType
  }

  /** `ValidateVideoFile`: the size bounds, then opening and sniffing the content (whose
      outcomes are given), then the lower-cased extension and the declared content type.
      `order` is the order the map of extensions is listed in. */
  function ValidateVideoFile(size: int, open: Outcome, sniffed: Result<string>, filename: string,
                             contentType: string, order: seq<string>): (v: Verdict)
    requires Listing(order, ExtensionKeys)
    ensures v.Accepted? <==>
      && MinFileSize <= size <= MaxFileSize && open.Pass? && sniffed.Ok? && HasPrefix(sniffed.value, "video/")
      && ToLower(Ext(filename)) in ValidExtensions
      && ContentTypeFits(contentType, ValidExtensions[ToLower(Ext(filename))])
    ensures v.Rejected? ==> v.field == "file"
    ensures size > MaxFileSize ==> v == Rejected("file", "file size must be at most 5120 MB")
    ensures size <= MaxFileSize && size < MinFileSize ==> v == Rejected("file", "file size must be at least 1 KB")
  {
    if size > MaxFileSize then Rejected("file", "file size must be at most 5120 MB")
    else if size < MinFileSize then Rejected("file", "file size must be at least 1 KB")
    else if open.Fail? then Rejected("file", "failed to open file")
    else if sniffed.Err? || !HasPrefix(sniffed.value, "video/") then Rejected("file", "invalid file type")
    else
      var ext := ToLower(Ext(filename));
      if ext !in ValidExtensions then
        Rejected("file", "unsupported file extension. Supported extensions: " + JoinWith(order, ", "))
      else if !ContentTypeFits(contentType, ValidExtensions[ext]) then
        Rejected("file", "invalid content type. Expected " + ValidExtensions[ext] + ", got " + contentType)
      else Accepted
  }

  /** Both size bounds are inclusive: exactly 1 KiB and exactly 5 GiB pass the size checks. */
  lemma SizeBoundsInclusive(open: Outcome, sniffed: Result<string>, filename: string, contentType: string, order: seq<string>)
    requires Listing(order, ExtensionKeys)
    ensures ValidateVideoFile(MinFileSize, open, sniffed, filename, contentType, order)
         == ValidateVideoFile(MaxFileSize, open, sniffed, filename, contentType, order)
    ensures ValidateVideoFile(MinFileSize - 1, open, sniffed, filename, contentType, order).Rejected?
    ensures ValidateVideoFile(MaxFileSize + 1, open, sniffed, filename, contentType, order).Rejected?
  {
  }

  /** The extension is compared case-insensitively, the content type case-sensitively:
      `.MP4` with `video/mp4` passes, `.mp4` with `Video/MP4` does not. */
  lemma ExtensionCaseFolded(size: int, open: Outcome, sniffed: Result<string>, order: seq<string>)
    requires Listing(order, ExtensionKeys)
    requires MinFileSize <= size <= MaxFileSize && open.Pass? && sniffed.Ok? && HasPrefix(sniffed.value, "video/")
    ensures ValidateVideoFile(size, open, sniffed, "clip.MP4", "video/mp4", order).Accepted?
    ensures ValidateVideoFile(size, open, sniffed, "clip.mp4", "Video/MP4", order).Rejected?
  {
    LowerMp4();
    var mime := ValidExtensions[".mp4"];
    assert mime == "video/mp4";
    assert ContentTypeFits("video/mp4", mime);
    assert !ContentTypeFits("Video/MP4", mime) by {
      assert "Video/MP4"[0] != mime[0];
    }
  }

  /** Both spellings of the MP4 extension lower-case to `.mp4`. */
  lemma LowerMp4()
    ensures ToLower(Ext("clip.MP4")) == ".mp4" && ToLower(Ext("clip.mp4")) == ".mp4"
  {
    ClipExtensions();
    var up, low := ToLower(".MP4"), ToLower(".mp4");
    assert up[0] == '.' && up[1] == 'm' && up[2] == 'p' && up[3] == '4';
    assert low[0] == '.' && low[1] == 'm' && low[2] == 'p' && low[3] == '4';
  }

  /** `clip.MP4` and `clip.mp4` keep their extensions' case. */
  lemma ClipExtensions()
    ensures Ext("clip.MP4") == ".MP4" && Ext("clip.mp4") == ".mp4"
  {
    assert "clip.MP4" == "clip" + "." + "MP4";
    ExtOfSuffix("clip", "MP4");
    assert "clip.mp4" == "clip" + "." + "mp4";
    ExtOfSuffix("clip", "mp4");
  }

  /** The codecs the service accepts, with the MIME types each may appear in. */
  const SupportedFormats: map<string, seq<string>> :=
    map["h264" := ["video/mp4", "video/quicktime"], "vp8" := ["video/webm"], "vp9" := ["video/webm"],
        "av1" := ["video/mp4", "video/webm"]]

  const CodecKeys: seq<string> := ["h264", "vp8", "vp9", "av1"]

  /** Go's `max(width, height)`. */
  function MaxDimension(width: int, height: int): (m: int)
    ensures m >= width && m >= height && (m == width || m == height)
  {
    if width > height then width else height
  }

  /** `ValidateVideoMetadata`: duration, then the larger dimension, then both dimensions
      positive, then the codec; `order` is the order the codec map is listed in. */
  function ValidateVideoMetadata(duration: real, width: int, height: int, codec: string, order: seq<string>): (v: Verdict)
    requires Listing(order, CodecKeys)
    ensures v.Accepted? <==>
      && MinVideoDuration as real <= duration <= MaxVideoDuration as real
      && MinVideoResolution <= MaxDimension(width, height) <= MaxVideoResolution
      && width > 0 && height > 0 && codec in SupportedFormats
  {
    if duration > MaxVideoDuration as real then
      Rejected("duration", "video duration must be at most 3600 seconds")
    else if duration < MinVideoDuration as real then
      Rejected("duration", "video duration must be at least 1 second")
    else if MaxDimension(width, height) > MaxVideoResolution then
      Rejected("resolution", "video resolution must be at most 4320p")
    else if MaxDimension(width, height) < MinVideoResolution then
      Rejected("resolution", "video resolution must be at least 144p")
    else if width <= 0 || height <= 0 then Rejected("resolution", "invalid video dimensions")
    else if codec !in SupportedFormats then
      Rejected("codec", "unsupported video codec. Supported codecs: " + JoinWith(order, ", "))
    else Accepted
  }

  /** A degenerate 0x1080 video passes the resolution bounds and fails only on its
      dimensions. */
  lemma ZeroWidthFailsOnDimensions(duration: real, codec: string, order: seq<string>)
    requires Listing(order, CodecKeys)
    requires 1.0 <= duration <= 3600.0
    ensures ValidateVideoMetadata(duration, 0, 1080, codec, order) == Rejected("resolution", "invalid video dimensions")
  {
  }

  /** Exactly four codecs are supported, compared exactly: `H264` is not `h264`. */
  lemma SupportedCodecs(codec: string)
    ensures codec in SupportedFormats <==> codec == "h264" || codec == "vp8" || codec == "vp9" || codec == "av1"
    ensures "H264" !in SupportedFormats
  {
  }
}
