/** The streaming service's object lookups: ordered searches over candidate keys of the
    processed bucket, the generated master playlist, and the rewriting of a variant
    playlist's segment lines into presigned URLs. The bucket is given by what a stat,
    a read and a presign of each key return. */
module StreamingStorage {
  import opened Results
  import opened Strings
  import opened Paths

  /** What a stat of one key reports: the object, or the store's error code and message. */
  datatype StatResult = Found | StatFailed(code: string, message: string)

  /** The processed bucket as seen through the object-store client. */
  datatype Bucket = Bucket(stat: string -> StatResult, content: string -> Result<string>,
                           presign: string -> Result<string>)

  datatype MinIOStorage = MinIOStorage(bucketName: string, hlsPrefix: string, mp4Prefix: string,
                                       thumbnailPrefix: string, urlExpiry: int, baseURL: string)

  /** `objectExists`: a missing key is `false` without error; any other stat failure is
      `false` with the error. */
  function ObjectExists(b: Bucket, key: string): (r: Result<bool>)
    ensures r == Ok(true) <==> b.stat(key).Found?
    ensures r == Ok(false) <==> b.stat(key).StatFailed? && b.stat(key).code == "NoSuchKey"
    ensures r.Err? ==> r.error == b.stat(key).message
  {
    match b.stat(key)
    case Found => Ok(true)
    case StatFailed(code, message) => if code == "NoSuchKey" then Ok(false) else Err(message)
  }

  /** How every lookup reads `objectExists`: an error counts as absent. */
  predicate Present(b: Bucket, key: string)
  {
    var r := ObjectExists(b, key);
    r.Ok? && r.value
  }

  /** `GeneratePresignedURL`, with the store's failure wrapped. */
  function GeneratePresignedURL(b: Bucket, key: string): (r: Result<string>)
    ensures r.Ok? <==> b.presign(key).Ok?
    ensures r.Ok? ==> r.value == b.presign(key).value
    ensures r.Err? ==> r.error == "failed to generate presigned URL: " + b.presign(key).error
  {
    var url := b.presign(key);
    if url.Err? then Err("failed to generate presigned URL: " + url.error) else Ok(url.value)
  }

  /** `GetHLSObjectPath`: `<hlsPrefix>/<videoID>/<relativePath>`. */
  function GetHLSObjectPath(s: MinIOStorage, videoID: string, relativePath: string): string
  {
    Join(Join(s.hlsPrefix, videoID), relativePath)
  }

  /** The index of the first key that is present, or `|keys|` when none is. */
  function FirstPresent(b: Bucket, keys: seq<string>): (k: nat)
    ensures k <= |keys|
    ensures forall j :: 0 <= j < k ==> !Present(b, keys[j])
    ensures k < |keys| ==> Present(b, keys[k])
  {
    if |keys| == 0 then 0
    else if Present(b, keys[0]) then 0
    else 1 + FirstPresent(b, keys[1..])
  }

  /** A present key with no present key before it is the first present one. */
  lemma FirstPresentUnique(b: Bucket, keys: seq<string>)
    ensures forall i :: 0 <= i < |keys| && Present(b, keys[i]) && (forall j :: 0 <= j < i ==> !Present(b, keys[j])) ==>
      i == FirstPresent(b, keys)
  {
  }

  /** The candidate loop shared by every lookup: stop at the first key that exists. */
  method FindFirst(b: Bucket, keys: seq<string>) returns (k: nat)
    ensures k == FirstPresent(b, keys)
  {
    k := 0;
    while k < |keys|
      invariant k <= FirstPresent(b, keys)
    {
      var found := ObjectExists(b, keys[k]);
      if found.Ok? && found.value {
        return;
      }
      k := k + 1;
    }
  }

  // ---- HLS master playlist ----

  /** The renditions the streaming side looks for, highest first; 4k is not among them. */
  const Resolutions: seq<string> := ["1080p", "720p", "480p", "360p", "240p"]

  /** The bandwidth advertised for a rendition (a missing map key reads as 0). */
  function Bandwidth(res: string): int
  {
    if res == "1080p" then 5000000 else if res == "720p" then 3000000
    else if res == "480p" then 1500000 else if res == "360p" then 800000
    else if res == "240p" then 400000 else 0
  }

  /** The resolution advertised for a rendition (a missing map key reads as ""). */
  function Dimensions(res: string): string
  {
    if res == "1080p" then "1920x1080" else if res == "720p" then "1280x720"
    else if res == "480p" then "854x480" else if res == "360p" then "640x360"
    else if res == "240p" then "426x240" else ""
  }

  function MasterKey(s: MinIOStorage, videoID: string): string
  {
    Join(Join(s.hlsPrefix, videoID), "master.m3u8")
  }

  function PlaylistKey(s: MinIOStorage, videoID: string, res: string): string
  {
    Join(Join(Join(s.hlsPrefix, videoID), res), "playlist.m3u8")
  }

  /** The single playlists tried when no rendition playlist exists, in order. */
  function FallbackKeys(s: MinIOStorage, videoID: string): (keys: seq<string>)
    ensures |keys| == 2
  {
    [Join(Join(s.hlsPrefix, videoID), "playlist.m3u8"), Join(Join(s.hlsPrefix, videoID), "index.m3u8")]
  }

  /** The renditions of `rs` whose playlist exists, in the order of `rs`. */
  function Available(b: Bucket, s: MinIOStorage, videoID: string, rs: seq<string>): (avail: seq<string>)
    ensures |avail| <= |rs|
  {
    if |rs| == 0 then []
    else
      var last := rs[|rs| - 1];
      Available(b, s, videoID, rs[..|rs| - 1]) + (if Present(b, PlaylistKey(s, videoID, last)) then [last] else [])
  }

  /** The `EXT-X-STREAM-INF` line of a rendition in the generated master. */
  function VariantLine(res: string): string
  {
    "#EXT-X-STREAM-INF:BANDWIDTH=" + IntToString(Bandwidth(res)) + ",RESOLUTION=" + Dimensions(res)
  }

  /** The presigned URL of each rendition's playlist. */
  function VariantUrls(b: Bucket, s: MinIOStorage, videoID: string): string -> Result<string>
  {
    res => GeneratePresignedURL(b, GetHLSObjectPath(s, videoID, Join(res, "playlist.m3u8")))
  }

  /** The step of the generation loop: sign one rendition's playlist. */
  function Signing(url: string -> Result<string>): string -> Outcome
  {
    res => AsOutcome(url(res))
  }

  /** The two lines a rendition adds to the generated master. */
  function Entry(line: string -> string, url: string -> Result<string>): string -> seq<string>
  {
    res => [line(res), ValueOr(url(res), "")]
  }

  const MasterHeader: seq<string> := ["#EXTM3U", "#EXT-X-VERSION:3"]

  /** A master generated from the available renditions: stops at the first playlist that
      cannot be signed. */
  function Generated(avail: seq<string>, line: string -> string, url: string -> Result<string>): (r: Result<string>)
  {
    var n := FirstFailure(avail, Signing(url));
    if n < |avail| then Err("failed to generate signed URL for playlist: " + Signing(url)(avail[n]).error)
    else Ok(JoinWith(MasterHeader + ConcatMap(Entry(line, url), avail), "\n"))
  }

  /** The stored single playlist read when nothing else exists. */
  function Fallback(b: Bucket, s: MinIOStorage, videoID: string): Result<string>
  {
    var k := FirstPresent(b, FallbackKeys(s, videoID));
    if k < 2 then b.content(FallbackKeys(s, videoID)[k])
    else Err("no HLS manifest found for video ID " + videoID)
  }

  /** What `GetHLSManifest` returns: a stored master verbatim; otherwise a master generated
      from the rendition playlists that exist; otherwise a stored single playlist. */
  function HlsManifest(b: Bucket, s: MinIOStorage, videoID: string): Result<string>
  {
    if Present(b, MasterKey(s, videoID)) then b.content(MasterKey(s, videoID))
    else
      var avail := Available(b, s, videoID, Resolutions);
      if |avail| == 0 then Fallback(b, s, videoID)
      else Generated(avail, VariantLine, VariantUrls(b, s, videoID))
  }

  /** The rendition loop. */
  method CollectAvailable(b: Bucket, s: MinIOStorage, videoID: string, resolutions: seq<string>)
    returns (avail: seq<string>)
    ensures avail == Available(b, s, videoID, resolutions)
  {
    avail := [];
    for i := 0 to |resolutions|
      invariant avail == Available(b, s, videoID, resolutions[..i])
    {
      assert resolutions[..i + 1][..i] == resolutions[..i];
      var found := ObjectExists(b, PlaylistKey(s, videoID, resolutions[i]));
      if found.Ok? && found.value {
        avail := avail + [resolutions[i]];
      }
    }
    assert resolutions[..|resolutions|] == resolutions;
  }

  /** The generation loop: a line and a presigned URL per rendition, stopping at the first
      URL that cannot be signed. */
  method GenerateMaster(avail: seq<string>, line: string -> string, url: string -> Result<string>)
    returns (r: Result<string>)
    ensures r == Generated(avail, line, url)
  {
    var lines := MasterHeader;
    var n := 0;
    while n < |avail|
      invariant n <= FirstFailure(avail, Signing(url))
      invariant lines == MasterHeader + ConcatMap(Entry(line, url), avail[..n])
    {
      var res := avail[n];
      var playlistURL := url(res);
      if playlistURL.Err? {
        FirstFailureHere(avail, Signing(url), n);
        return Err("failed to generate signed URL for playlist: " + playlistURL.error);
      }
      FirstFailurePast(avail, Signing(url), n);
      assert avail[..n + 1][..n] == avail[..n];
      lines := lines + [line(res), playlistURL.value];
      n := n + 1;
    }
    assert avail[..n] == avail;
    FirstFailureAt(avail, Signing(url), n);
    return Ok(JoinWith(lines, "\n"));
  }

  /** `GetHLSManifest`. */
  method GetHLSManifest(b: Bucket, s: MinIOStorage, videoID: string) returns (r: Result<string>)
    ensures r == HlsManifest(b, s, videoID)
  {
    var masterPath := MasterKey(s, videoID);
    var masterExists := ObjectExists(b, masterPath);
    if masterExists.Ok? && masterExists.value {
      return b.content(masterPath);
    }
    var avail := CollectAvailable(b, s, videoID, Resolutions);
    if |avail| == 0 {
      var fallbackPaths := FallbackKeys(s, videoID);
      var k := FindFirst(b, fallbackPaths);
      if k < |fallbackPaths| {
        return b.content(fallbackPaths[k]);
      }
      return Err("no HLS manifest found for video ID " + videoID);
    }
    r := GenerateMaster(avail, VariantLine, VariantUrls(b, s, videoID));
  }

  /** A rendition is available exactly when it is one of `rs` and its playlist exists. */
  lemma {:induction false} AvailableMembers(b: Bucket, s: MinIOStorage, videoID: string, rs: seq<string>, res: string)
    ensures res in Available(b, s, videoID, rs) <==> res in rs && Present(b, PlaylistKey(s, videoID, res))
    decreases |rs|
  {
    if |rs| > 0 {
      var init := rs[..|rs| - 1];
      AvailableMembers(b, s, videoID, init, res);
      assert rs == init + [rs[|rs| - 1]];
    }
  }

  /** Available renditions keep the order of `rs`: an earlier available one comes from an
      earlier position. */
  lemma {:induction false} AvailableOrder(b: Bucket, s: MinIOStorage, videoID: string, rs: seq<string>, i: nat, j: nat)
    requires i < j < |Available(b, s, videoID, rs)|
    ensures exists p, q :: 0 <= p < q < |rs| && rs[p] == Available(b, s, videoID, rs)[i]
                                           && rs[q] == Available(b, s, videoID, rs)[j]
    decreases |rs|
  {
    var init := rs[..|rs| - 1];
    var a := Available(b, s, videoID, init);
    var avail := Available(b, s, videoID, rs);
    if j < |a| {
      AvailableOrder(b, s, videoID, init, i, j);
      var p, q :| 0 <= p < q < |init| && init[p] == a[i] && init[q] == a[j];
      assert avail[i] == a[i] && avail[j] == a[j];
      assert rs[p] == init[p] && rs[q] == init[q];
    } else {
      assert avail[i] == a[i] && avail[j] == rs[|rs| - 1];
      AvailableMembers(b, s, videoID, init, a[i]);
      var p :| 0 <= p < |init| && init[p] == a[i];
      assert rs[p] == init[p];
    }
  }

  /** 4k renditions are never looked for when a master is generated. */
  lemma NoFourK(b: Bucket, s: MinIOStorage, videoID: string)
    ensures "4k" !in Available(b, s, videoID, Resolutions)
  {
    AvailableMembers(b, s, videoID, Resolutions, "4k");
  }

  /** With no master and no rendition playlist, `playlist.m3u8` is read, else `index.m3u8`,
      and only when neither exists is the manifest not found. */
  lemma ManifestFallback(b: Bucket, s: MinIOStorage, videoID: string)
    requires !Present(b, MasterKey(s, videoID))
    requires forall res :: res in Resolutions ==> !Present(b, PlaylistKey(s, videoID, res))
    ensures HlsManifest(b, s, videoID) ==
      if Present(b, FallbackKeys(s, videoID)[0]) then b.content(FallbackKeys(s, videoID)[0])
      else if Present(b, FallbackKeys(s, videoID)[1]) then b.content(FallbackKeys(s, videoID)[1])
      else Err("no HLS manifest found for video ID " + videoID)
  {
    var avail := Available(b, s, videoID, Resolutions);
    if |avail| > 0 {
      AvailableMembers(b, s, videoID, Resolutions, avail[0]);
    }
    var keys := FallbackKeys(s, videoID);
    if !Present(b, keys[0]) {
      assert keys[1..][1..] == [];
    }
  }

  /** A generated master is the two header lines, then for each rendition, in order, its
      line and its URL; every line is joined by "\n" with no newline after the last. It
      fails with the first URL that cannot be signed. */
  lemma GeneratedLines(avail: seq<string>, line: string -> string, url: string -> Result<string>, i: nat)
    requires i < |avail|
    ensures Generated(avail, line, url).Ok? <==> forall j :: 0 <= j < |avail| ==> url(avail[j]).Ok?
    ensures Generated(avail, line, url).Ok? ==>
      var lines := MasterHeader + ConcatMap(Entry(line, url), avail);
      && Generated(avail, line, url).value == JoinWith(lines, "\n")
      && |lines| == 2 + 2 * |avail|
      && lines[2 + 2 * i] == line(avail[i])
      && Ok(lines[3 + 2 * i]) == url(avail[i])
  {
    var n := FirstFailure(avail, Signing(url));
    if n == |avail| {
      forall j | 0 <= j < |avail| ensures url(avail[j]).Ok? {
        assert Signing(url)(avail[j]).Pass?;
      }
      ConcatMapPairs(Entry(line, url), avail, i);
      assert Signing(url)(avail[i]).Pass?;
    } else {
      assert Signing(url)(avail[n]).Fail?;
    }
  }

  /** Without a stored master, a master is generated from the available renditions
      whenever there is one; its lines are as `GeneratedLines` states, with each
      rendition's `STREAM-INF` line and the presigned URL of `<res>/playlist.m3u8`. */
  lemma ManifestGenerated(b: Bucket, s: MinIOStorage, videoID: string)
    requires !Present(b, MasterKey(s, videoID))
    requires exists res :: res in Resolutions && Present(b, PlaylistKey(s, videoID, res))
    ensures HlsManifest(b, s, videoID)
         == Generated(Available(b, s, videoID, Resolutions), VariantLine, VariantUrls(b, s, videoID))
  {
    var res :| res in Resolutions && Present(b, PlaylistKey(s, videoID, res));
    AvailableMembers(b, s, videoID, Resolutions, res);
  }

  // ---- HLS segments ----

  /** The key tried for a segment under one rendition folder: the name as given when it
      already starts with `<res>/`, else the name under `<res>/`. */
  function SegmentCandidate(s: MinIOStorage, videoID: string, segmentName: string, res: string): string
  {
    if HasPrefix(segmentName, res + "/") then Join(Join(s.hlsPrefix, videoID), segmentName)
    else Join(Join(Join(s.hlsPrefix, videoID), res), segmentName)
  }

  function SegmentCandidates(s: MinIOStorage, videoID: string, segmentName: string): (keys: seq<string>)
    ensures |keys| == |Resolutions|
    ensures forall i :: 0 <= i < |keys| ==> keys[i] == SegmentCandidate(s, videoID, segmentName, Resolutions[i])
  {
    [SegmentCandidate(s, videoID, segmentName, "1080p"), SegmentCandidate(s, videoID, segmentName, "720p"),
     SegmentCandidate(s, videoID, segmentName, "480p"), SegmentCandidate(s, videoID, segmentName, "360p"),
     SegmentCandidate(s, videoID, segmentName, "240p")]
  }

  /** The key a segment is served from: the direct key if it exists, else the first
      rendition candidate that exists, else the direct key anyway. */
  function SegmentKey(b: Bucket, s: MinIOStorage, videoID: string, segmentName: string): (key: string)
    ensures key == GetHLSObjectPath(s, videoID, segmentName) || key in SegmentCandidates(s, videoID, segmentName)
    ensures Present(b, GetHLSObjectPath(s, videoID, segmentName)) ==> key == GetHLSObjectPath(s, videoID, segmentName)
    ensures key != GetHLSObjectPath(s, videoID, segmentName) ==> Present(b, key)
    ensures var cs := SegmentCandidates(s, videoID, segmentName);
      !Present(b, GetHLSObjectPath(s, videoID, segmentName)) ==>
        forall i :: 0 <= i < |cs| && Present(b, cs[i]) && (forall j :: 0 <= j < i ==> !Present(b, cs[j])) ==> key == cs[i]
    ensures var cs := SegmentCandidates(s, videoID, segmentName);
      (forall j :: 0 <= j < |cs| ==> !Present(b, cs[j])) ==> key == GetHLSObjectPath(s, videoID, segmentName)
  {
    var direct := GetHLSObjectPath(s, videoID, segmentName);
    if Present(b, direct) then direct
    else
      FirstPresentUnique(b, SegmentCandidates(s, videoID, segmentName));
      var k := FirstPresent(b, SegmentCandidates(s, videoID, segmentName));
      if k < |Resolutions| then SegmentCandidates(s, videoID, segmentName)[k] else direct
  }

  /** `GetHLSSegment`: a presigned URL of the chosen key; no lookup ever reports "not found". */
  method GetHLSSegment(b: Bucket, s: MinIOStorage, videoID: string, segmentName: string) returns (r: Result<string>)
    ensures r == GeneratePresignedURL(b, SegmentKey(b, s, videoID, segmentName))
    ensures r.Err? ==> HasPrefix(r.error, "failed to generate presigned URL: ")
  {
    var directObjectName := Join(Join(s.hlsPrefix, videoID), segmentName);
    var directExists := ObjectExists(b, directObjectName);
    if directExists.Ok? && directExists.value {
      return GeneratePresignedURL(b, directObjectName);
    }
    var candidates := SegmentCandidates(s, videoID, segmentName);
    var k := FindFirst(b, candidates);
    if k < |candidates| {
      return GeneratePresignedURL(b, candidates[k]);
    }
    return GeneratePresignedURL(b, directObjectName);
  }

  // ---- MP4 renditions ----

  /** `<mp4Prefix>/<videoID>/mp4/<file>`. */
  function Mp4ObjectKey(s: MinIOStorage, videoID: string, file: string): string
  {
    Join(Join(Join(s.mp4Prefix, videoID), "mp4"), file)
  }

  /** The default MP4 keys: 1080p down to 240p, then the generic `video.mp4`. */
  function Mp4Defaults(s: MinIOStorage, videoID: string): (keys: seq<string>)
    ensures |keys| == 6 && keys[5] == Mp4ObjectKey(s, videoID, "video.mp4")
  {
    [Mp4ObjectKey(s, videoID, "1080p.mp4"), Mp4ObjectKey(s, videoID, "720p.mp4"),
     Mp4ObjectKey(s, videoID, "480p.mp4"), Mp4ObjectKey(s, videoID, "360p.mp4"),
     Mp4ObjectKey(s, videoID, "240p.mp4"), Mp4ObjectKey(s, videoID, "video.mp4")]
  }

  /** The MP4 keys tried, in order: the requested quality (if any), then the defaults. */
  function Mp4Candidates(s: MinIOStorage, videoID: string, quality: string): (keys: seq<string>)
    ensures quality == "" ==> keys == Mp4Defaults(s, videoID)
    ensures quality != "" ==> keys == [Mp4ObjectKey(s, videoID, quality + ".mp4")] + Mp4Defaults(s, videoID)
  {
    (if quality != "" then [Mp4ObjectKey(s, videoID, quality + ".mp4")] else []) + Mp4Defaults(s, videoID)
  }

  /** The presigned URL of the first of `keys` that exists, or the error `missing` when
      none does. */
  function LookupFirst(b: Bucket, keys: seq<string>, missing: string): (r: Result<string>)
    ensures (forall i :: 0 <= i < |keys| ==> !Present(b, keys[i])) ==> r == Err(missing)
  {
    var k := FirstPresent(b, keys);
    if k < |keys| then GeneratePresignedURL(b, keys[k]) else Err(missing)
  }

  /** The lookup signs the key that exists when no earlier one does. */
  lemma LookupFirstAt(b: Bucket, keys: seq<string>, missing: string, i: nat)
    requires i < |keys| && Present(b, keys[i])
    requires forall j :: 0 <= j < i ==> !Present(b, keys[j])
    ensures LookupFirst(b, keys, missing) == GeneratePresignedURL(b, keys[i])
  {
  }

  /** A key that does not exist can be dropped from the front of a lookup. */
  lemma {:induction false} LookupSkip(b: Bucket, key: string, keys: seq<string>, missing: string)
    requires !Present(b, key)
    ensures LookupFirst(b, [key] + keys, missing) == LookupFirst(b, keys, missing)
  {
    assert ([key] + keys)[0] == key;
    assert ([key] + keys)[1..] == keys;
  }

  /** The error of an MP4 lookup that found nothing. */
  function Mp4NotFound(videoID: string): string
  {
    "no MP4 file found for video ID " + videoID + " after checking specific resolution and generic paths"
  }

  /** `GetMP4URLWithQuality`. */
  method GetMP4URLWithQuality(b: Bucket, s: MinIOStorage, videoID: string, quality: string) returns (r: Result<string>)
    ensures r == LookupFirst(b, Mp4Candidates(s, videoID, quality), Mp4NotFound(videoID))
  {
    var keys := Mp4Candidates(s, videoID, quality);
    var k := FindFirst(b, keys);
    if k < |keys| {
      return GeneratePresignedURL(b, keys[k]);
    }
    return Err(Mp4NotFound(videoID));
  }

  /** `GetMP4URL`: the same lookup with no requested quality. */
  method GetMP4URL(b: Bucket, s: MinIOStorage, videoID: string) returns (r: Result<string>)
    ensures r == LookupFirst(b, Mp4Defaults(s, videoID), Mp4NotFound(videoID))
  {
    r := GetMP4URLWithQuality(b, s, videoID, "");
  }

  /** An existing requested quality wins over every default rendition. */
  lemma RequestedQualityFirst(b: Bucket, s: MinIOStorage, videoID: string, quality: string)
    requires quality != "" && Present(b, Mp4ObjectKey(s, videoID, quality + ".mp4"))
    ensures LookupFirst(b, Mp4Candidates(s, videoID, quality), Mp4NotFound(videoID))
         == GeneratePresignedURL(b, Mp4ObjectKey(s, videoID, quality + ".mp4"))
  {
    LookupFirstAt(b, Mp4Candidates(s, videoID, quality), Mp4NotFound(videoID), 0);
  }

  /** A requested quality that does not exist falls back to exactly the unrequested lookup. */
  lemma MissingQualityFallsBack(b: Bucket, s: MinIOStorage, videoID: string, quality: string)
    requires quality != "" && !Present(b, Mp4ObjectKey(s, videoID, quality + ".mp4"))
    ensures LookupFirst(b, Mp4Candidates(s, videoID, quality), Mp4NotFound(videoID))
         == LookupFirst(b, Mp4Candidates(s, videoID, ""), Mp4NotFound(videoID))
  {
    LookupSkip(b, Mp4ObjectKey(s, videoID, quality + ".mp4"), Mp4Defaults(s, videoID), Mp4NotFound(videoID));
  }

  // ---- thumbnails ----

  /** The thumbnail keys tried: `<thumb>/<id>/thumbnail.jpg`, then `<thumb>/<id>.jpg`. */
  function ThumbnailKeys(s: MinIOStorage, videoID: string): (keys: seq<string>)
    ensures |keys| == 2
  {
    [Join(Join(s.thumbnailPrefix, videoID), "thumbnail.jpg"), Join(s.thumbnailPrefix, videoID + ".jpg")]
  }

  /** `GetThumbnailURL`. */
  method GetThumbnailURL(b: Bucket, s: MinIOStorage, videoID: string) returns (r: Result<string>)
    ensures r == LookupFirst(b, ThumbnailKeys(s, videoID), "no thumbnail found for video ID " + videoID)
  {
    var paths := ThumbnailKeys(s, videoID);
    var k := FindFirst(b, paths);
    if k < |paths| {
      return GeneratePresignedURL(b, paths[k]);
    }
    return Err("no thumbnail found for video ID " + videoID);
  }

  /** The new per-video layout is preferred; the old flat name is used only without it. */
  lemma ThumbnailOrder(b: Bucket, s: MinIOStorage, videoID: string)
    ensures var keys := ThumbnailKeys(s, videoID);
      var r := LookupFirst(b, keys, "no thumbnail found for video ID " + videoID);
      && (Present(b, keys[0]) ==> r == GeneratePresignedURL(b, keys[0]))
      && (!Present(b, keys[0]) && Present(b, keys[1]) ==> r == GeneratePresignedURL(b, keys[1]))
      && (!Present(b, keys[0]) && !Present(b, keys[1]) ==> r == Err("no thumbnail found for video ID " + videoID))
  {
    var keys := ThumbnailKeys(s, videoID);
    var missing := "no thumbnail found for video ID " + videoID;
    if Present(b, keys[0]) {
      LookupFirstAt(b, keys, missing, 0);
    } else if Present(b, keys[1]) {
      LookupFirstAt(b, keys, missing, 1);
    }
  }

  /** `CheckHealth`: only a failing probe is unhealthy; a bucket reported missing passes. */
  function CheckHealth(s: MinIOStorage, bucketExists: string -> Result<bool>): (o: Outcome)
    ensures o.Pass? <==> bucketExists(s.bucketName).Ok?
    ensures o.Fail? ==> o.error == "failed to check bucket existence: " + bucketExists(s.bucketName).error
  {
    var found := bucketExists(s.bucketName);
    if found.Err? then Fail("failed to check bucket existence: " + found.error) else Pass
  }

  // ---- variant playlist rewriting ----

  /** The segment pattern `[^/\n]+\.ts` occurs in the line. */
  predicate SegmentRef(line: string)
  {
    exists i :: 1 <= i < |line| - 2 && line[i] == '.' && line[i + 1] == 't' && line[i + 2] == 's'
                && line[i - 1] != '/' && line[i - 1] != '\n'
  }

  /** Whether a line is rewritten: not a tag or comment, and naming a segment. */
  predicate Rewrites(line: string)
  {
    !HasPrefix(line, "#") && SegmentRef(line)
  }

  /** The signed URL a rewritten line becomes. */
  function SignedLine(b: Bucket, s: MinIOStorage, videoID: string, resolution: string, line: string): Result<string>
  {
    GeneratePresignedURL(b, GetHLSObjectPath(s, videoID, Join(resolution, line)))
  }

  /** The signing of each line's segment. */
  function SegmentSigner(b: Bucket, s: MinIOStorage, videoID: string, resolution: string): string -> Result<string>
  {
    line => SignedLine(b, s, videoID, resolution, line)
  }

  /** The step of the rewriting loop: lines left alone always pass. */
  function LineSigning(rewrites: string -> bool, sign: string -> Result<string>): string -> Outcome
  {
    line => if rewrites(line) then AsOutcome(sign(line)) else Pass
  }

  /** A line after rewriting. */
  function RewrittenLine(rewrites: string -> bool, sign: string -> Result<string>, line: string): (out: string)
    ensures !rewrites(line) ==> out == line
    ensures rewrites(line) && sign(line).Ok? ==> out == sign(line).value
  {
    if rewrites(line) then ValueOr(sign(line), line) else line
  }

  /** The lines after rewriting, one for one. */
  function Rewritten(rewrites: string -> bool, sign: string -> Result<string>, lines: seq<string>): (out: seq<string>)
    ensures |out| == |lines|
    ensures forall i :: 0 <= i < |lines| ==> out[i] == RewrittenLine(rewrites, sign, lines[i])
  {
    if |lines| == 0 then []
    else Rewritten(rewrites, sign, lines[..|lines| - 1]) + [RewrittenLine(rewrites, sign, lines[|lines| - 1])]
  }

  /** The rewriting loop: overwrite, in place, every line to rewrite with its signed URL,
      stopping at the first that cannot be signed. */
  method RewriteLines(original: seq<string>, rewrites: string -> bool, sign: string -> Result<string>)
    returns (r: Result<seq<string>>)
    ensures var n := FirstFailure(original, LineSigning(rewrites, sign));
      && (r.Ok? <==> n == |original|)
      && (r.Ok? ==> r.value == Rewritten(rewrites, sign, original))
      && (r.Err? ==> r.error == sign(original[n]).error)
  {
    var lines := original;
    var i := 0;
    while i < |lines|
      invariant i <= |lines| == |original|
      invariant i <= FirstFailure(original, LineSigning(rewrites, sign))
      invariant forall j :: 0 <= j < i ==> lines[j] == RewrittenLine(rewrites, sign, original[j])
      invariant forall j :: i <= j < |lines| ==> lines[j] == original[j]
    {
      var line := lines[i];
      if rewrites(line) {
        var signedURL := sign(line);
        if signedURL.Err? {
          FirstFailureHere(original, LineSigning(rewrites, sign), i);
          return Err(signedURL.error);
        }
        lines := lines[i := signedURL.value];
      }
      FirstFailurePast(original, LineSigning(rewrites, sign), i);
      i := i + 1;
    }
    FirstFailureAt(original, LineSigning(rewrites, sign), i);
    assert lines == Rewritten(rewrites, sign, original);
    return Ok(lines);
  }

  /** `ProcessM3U8`: split the playlist into lines, rewrite every non-tag line that names a
      segment into the presigned URL of `<resolution>/<line>`, and join the lines again. */
  method ProcessM3U8(b: Bucket, s: MinIOStorage, content: string, videoID: string, resolution: string)
    returns (r: Result<string>)
    ensures var original := Split(content, '\n');
      var sign := SegmentSigner(b, s, videoID, resolution);
      var n := FirstFailure(original, LineSigning(Rewrites, sign));
      && (r.Ok? <==> n == |original|)
      && (r.Ok? ==> r.value == JoinWith(Rewritten(Rewrites, sign, original), "\n"))
      && (r.Err? ==> r.error == "failed to generate signed URL for segment: " + sign(original[n]).error)
  {
    var lines := Split(content, '\n');
    var rewritten := RewriteLines(lines, Rewrites, SegmentSigner(b, s, videoID, resolution));
    if rewritten.Err? {
      return Err("failed to generate signed URL for segment: " + rewritten.error);
    }
    return Ok(JoinWith(rewritten.value, "\n"));
  }

  /** When every segment could be signed: rewriting keeps every tag line and every line
      without a segment, and turns each segment line into the presigned URL of
      `<hls>/<id>/<resolution>/<line>`. */
  lemma RewrittenLines(b: Bucket, s: MinIOStorage, videoID: string, resolution: string, lines: seq<string>, i: nat)
    requires forall j :: 0 <= j < |lines| ==> LineSigning(Rewrites, SegmentSigner(b, s, videoID, resolution))(lines[j]).Pass?
    requires i < |lines|
    ensures var out := Rewritten(Rewrites, SegmentSigner(b, s, videoID, resolution), lines);
      && |out| == |lines|
      && (HasPrefix(lines[i], "#") ==> out[i] == lines[i])
      && (!SegmentRef(lines[i]) ==> out[i] == lines[i])
      && (Rewrites(lines[i]) ==> Ok(out[i]) == GeneratePresignedURL(b, Join(Join(s.hlsPrefix, videoID), Join(resolution, lines[i]))))
  {
    assert LineSigning(Rewrites, SegmentSigner(b, s, videoID, resolution))(lines[i]).Pass?;
  }
}
