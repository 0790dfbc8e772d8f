/** The transcoder's object storage: where originals are read from, where the HLS, MP4
    and thumbnail outputs are written to and with which content types, and the bucket
    health probe. Object-store calls are parameters giving their outcome. */
module TranscoderStorage {
  import opened Results
  import opened Strings
  import opened Paths

  /** The storage's buckets and key prefixes. */
  datatype MinIOStorage = MinIOStorage(bucketName: string, processedBucket: string, originalPrefix: string,
                                       hlsPrefix: string, mp4Prefix: string, thumbnailPrefix: string)

  /** One object upload: bucket, key, content type and the local file it copies. */
  datatype Put = Put(bucket: string, key: string, contentType: string, file: string)

  /** The key of an original: `<originalPrefix>/<videoID><ext>`. */
  function DownloadKey(s: MinIOStorage, videoID: string, fileExtension: string): string
  {
    Join(s.originalPrefix, videoID + fileExtension)
  }

  /** `DownloadVideo`: create the local directory and file, fetch the original from the
      raw bucket, copy it; the first step that fails ends the call with its error wrapped. */
  function DownloadVideo(s: MinIOStorage, videoID: string, fileExtension: string, localPath: string,
                         mkdirAll: string -> Outcome, create: string -> Outcome,
                         getObject: (string, string) -> Outcome, copy: Outcome): (o: Outcome)
    ensures o.Pass? <==> mkdirAll(Dir(localPath)).Pass? && create(localPath).Pass?
                         && getObject(s.bucketName, DownloadKey(s, videoID, fileExtension)).Pass? && copy.Pass?
    ensures mkdirAll(Dir(localPath)).Fail? ==> o == Fail("failed to create directory: " + mkdirAll(Dir(localPath)).error)
    ensures mkdirAll(Dir(localPath)).Pass? && create(localPath).Fail? ==>
            o == Fail("failed to create local file: " + create(localPath).error)
    ensures mkdirAll(Dir(localPath)).Pass? && create(localPath).Pass?
            && getObject(s.bucketName, DownloadKey(s, videoID, fileExtension)).Fail? ==>
            o == Fail("failed to get object from MinIO: " + getObject(s.bucketName, DownloadKey(s, videoID, fileExtension)).error)
    ensures mkdirAll(Dir(localPath)).Pass? && create(localPath).Pass?
            && getObject(s.bucketName, DownloadKey(s, videoID, fileExtension)).Pass? && copy.Fail? ==>
            o == Fail("failed to copy object to local file: " + copy.error)
  {
    var made := mkdirAll(Dir(localPath));
    if made.Fail? then Fail("failed to create directory: " + made.error)
    else
      var created := create(localPath);
      if created.Fail? then Fail("failed to create local file: " + created.error)
      else
        var got := getObject(s.bucketName, DownloadKey(s, videoID, fileExtension));
        if got.Fail? then Fail("failed to get object from MinIO: " + got.error)
        else if copy.Fail? then Fail("failed to copy object to local file: " + copy.error)
        else Pass
  }

  /** The content type of an HLS output, from its extension. */
  function HlsContentType(path: string): (ct: string)
    ensures ct == "application/vnd.apple.mpegurl" <==> Ext(path) == ".m3u8"
    ensures ct == "video/mp2t" <==> Ext(path) == ".ts"
    ensures ct != "application/vnd.apple.mpegurl" && ct != "video/mp2t" ==> ct == "application/octet-stream"
  {
    if Ext(path) == ".m3u8" then "application/vnd.apple.mpegurl"
    else if Ext(path) == ".ts" then "video/mp2t"
    else "application/octet-stream"
  }

  /** The upload of one file of the HLS directory, named by its path relative to it. */
  function HlsPut(s: MinIOStorage, videoID: string, localDir: string, relPath: string): Put
  {
    Put(s.processedBucket, Join(Join(s.hlsPrefix, videoID), relPath),
        HlsContentType(Join(localDir, relPath)), Join(localDir, relPath))
  }

  /** The uploads of an HLS directory's files. */
  function HlsUpload(s: MinIOStorage, videoID: string, localDir: string): string -> Put
  {
    relPath => HlsPut(s, videoID, localDir, relPath)
  }

  /** The key of one MP4 output: `<mp4Prefix>/<videoID>/<relPath>`, spelled out. */
  function Mp4Key(s: MinIOStorage, videoID: string, relPath: string): string
  {
    s.mp4Prefix + "/" + videoID + "/" + relPath
  }

  /** The upload of one file of the MP4 directory. */
  function Mp4Put(s: MinIOStorage, videoID: string, mp4Dir: string, relPath: string): Put
  {
    Put(s.processedBucket, Mp4Key(s, videoID, relPath), "video/mp4", Join(mp4Dir, relPath))
  }

  /** The uploads of an MP4 directory's files. */
  function Mp4Upload(s: MinIOStorage, videoID: string, mp4Dir: string): string -> Put
  {
    relPath => Mp4Put(s, videoID, mp4Dir, relPath)
  }

  /** A walk step: upload the file the relative path names. */
  function Uploading(put: Put -> Outcome, upload: string -> Put): string -> Outcome
  {
    relPath => put(upload(relPath))
  }

  /** The directory walk: the files, in walk order, are uploaded one by one until one
      upload fails; `n` is where it stopped and `puts` the uploads attempted. */
  method Walk(files: seq<string>, upload: string -> Put, put: Put -> Outcome) returns (n: nat, puts: seq<Put>)
    ensures n == FirstFailure(files, Uploading(put, upload))
    ensures |puts| == RanCount(n, |files|)
    ensures forall i :: 0 <= i < |puts| ==> puts[i] == upload(files[i])
  {
    puts := [];
    var i := 0;
    while i < |files|
      invariant i <= FirstFailure(files, Uploading(put, upload))
      invariant |puts| == i
      invariant forall j :: 0 <= j < i ==> puts[j] == upload(files[j])
    {
      var p := upload(files[i]);
      puts := puts + [p];
      if put(p).Fail? {
        FirstFailureHere(files, Uploading(put, upload), i);
        return i, puts;
      }
      FirstFailurePast(files, Uploading(put, upload), i);
      i := i + 1;
    }
    n := i;
  }

  /** `UploadHLSFiles`: every file of the directory goes to the processed bucket under
      `<hlsPrefix>/<videoID>`, which is returned; the first failed upload aborts the walk. */
  method UploadHLSFiles(s: MinIOStorage, videoID: string, localDir: string, files: seq<string>, put: Put -> Outcome)
    returns (r: Result<string>, puts: seq<Put>)
    ensures var n := FirstFailure(files, Uploading(put, HlsUpload(s, videoID, localDir)));
      && |puts| == RanCount(n, |files|)
      && (forall i :: 0 <= i < |puts| ==> puts[i] == HlsPut(s, videoID, localDir, files[i]))
      && (r.Ok? <==> n == |files|)
      && (r.Ok? ==> r.value == Join(s.hlsPrefix, videoID))
      && (r.Err? ==> r.error == "failed to upload HLS files: failed to upload file to MinIO: "
                                + put(HlsPut(s, videoID, localDir, files[n])).error)
  {
    var n;
    n, puts := Walk(files, HlsUpload(s, videoID, localDir), put);
    if n < |files| {
      var err := put(HlsPut(s, videoID, localDir, files[n])).error;
      return Err("failed to upload HLS files: failed to upload file to MinIO: " + err), puts;
    }
    return Ok(Join(s.hlsPrefix, videoID)), puts;
  }

  /** `UploadMP4Files`: every file of the directory goes to the processed bucket as
      `video/mp4` under `<mp4Prefix>/<videoID>`; the first failed upload aborts the walk. */
  method UploadMP4Files(s: MinIOStorage, videoID: string, mp4Dir: string, files: seq<string>, put: Put -> Outcome)
    returns (o: Outcome, puts: seq<Put>)
    ensures var n := FirstFailure(files, Uploading(put, Mp4Upload(s, videoID, mp4Dir)));
      && |puts| == RanCount(n, |files|)
      && (forall i :: 0 <= i < |puts| ==> puts[i] == Mp4Put(s, videoID, mp4Dir, files[i]))
      && (o.Pass? <==> n == |files|)
      && (o.Fail? ==> o.error == "failed to upload MP4 file " + files[n] + ": "
                                 + put(Mp4Put(s, videoID, mp4Dir, files[n])).error)
  {
    var n;
    n, puts := Walk(files, Mp4Upload(s, videoID, mp4Dir), put);
    if n < |files| {
      var err := put(Mp4Put(s, videoID, mp4Dir, files[n])).error;
      return Fail("failed to upload MP4 file " + files[n] + ": " + err), puts;
    }
    return Pass, puts;
  }

  /** The key of a thumbnail: `<thumbnailPrefix>/<videoID><ext of the local file>`. */
  function ThumbnailKey(s: MinIOStorage, videoID: string, localPath: string): string
  {
    Join(s.thumbnailPrefix, videoID + Ext(localPath))
  }

  /** `UploadThumbnail`: open and stat the file, upload it as `image/jpeg`, return its key. */
  function UploadThumbnail(s: MinIOStorage, videoID: string, localPath: string,
                           open: Outcome, stat: Outcome, put: Put -> Outcome): (r: Result<string>)
    ensures r.Ok? <==> open.Pass? && stat.Pass?
                       && put(Put(s.processedBucket, ThumbnailKey(s, videoID, localPath), "image/jpeg", localPath)).Pass?
    ensures r.Ok? ==> r.value == ThumbnailKey(s, videoID, localPath)
  {
    if open.Fail? then Err("failed to open file: " + open.error)
    else if stat.Fail? then Err("failed to get file stats: " + stat.error)
    else
      var key := ThumbnailKey(s, videoID, localPath);
      var uploaded := put(Put(s.processedBucket, key, "image/jpeg", localPath));
      if uploaded.Fail? then Err("failed to upload thumbnail to MinIO: " + uploaded.error)
      else Ok(key)
  }

  /** `CheckHealth`: the raw bucket must be reported as existing. */
  function CheckHealth(s: MinIOStorage, bucketExists: string -> Result<bool>): (o: Outcome)
    ensures o.Pass? <==> bucketExists(s.bucketName) == Ok(true)
    ensures bucketExists(s.bucketName).Err? ==>
      o == Fail("failed to check bucket existence: " + bucketExists(s.bucketName).error)
    ensures bucketExists(s.bucketName) == Ok(false) ==> o == Fail("bucket '" + s.bucketName + "' does not exist")
  {
    var found := bucketExists(s.bucketName);
    if found.Err? then Fail("failed to check bucket existence: " + found.error)
    else if !found.value then Fail("bucket '" + s.bucketName + "' does not exist")
    else Pass
  }

  /** The spelled-out MP4 key is the path join of prefix, video ID and relative path. */
  lemma Mp4KeyIsJoin(s: MinIOStorage, videoID: string, relPath: string)
    ensures Mp4Key(s, videoID, relPath) == Join(Join(s.mp4Prefix, videoID), relPath)
  {
  }

  /** The encoder's per-rung playlist `<name>/playlist.m3u8` is uploaded as a playlist. */
  lemma HlsPlaylistType(localDir: string, name: string)
    ensures HlsContentType(Join(localDir, Join(name, "playlist.m3u8"))) == "application/vnd.apple.mpegurl"
  {
    var file := "playlist" + "." + "m3u8";
    assert file == "playlist.m3u8";
    NestedExt(localDir, name, "playlist", "m3u8");
    PlaylistByExt(Join(localDir, Join(name, file)));
  }

  /** A path with the extension `.m3u8` is uploaded as a playlist. */
  lemma PlaylistByExt(path: string)
    requires Ext(path) == ".m3u8"
    ensures HlsContentType(path) == "application/vnd.apple.mpegurl"
  {
  }

  /** The encoder's segments `<name>/segment_NNN.ts` are uploaded as transport streams. */
  lemma HlsSegmentType(localDir: string, name: string, digits: string)
    requires '.' !in digits && '/' !in digits
    ensures HlsContentType(Join(localDir, Join(name, "segment_" + digits + ".ts"))) == "video/mp2t"
  {
    NotInAppend("segment_", digits, '/');
    assert "segment_" + digits + ".ts" == ("segment_" + digits) + "." + "ts";
    NestedExt(localDir, name, "segment_" + digits, "ts");
  }

  /** A file two levels below a directory keeps its own extension. */
  lemma NestedExt(localDir: string, name: string, stem: string, e: string)
    requires '/' !in stem && '.' !in e && '/' !in e
    ensures Ext(Join(localDir, Join(name, stem + "." + e))) == "." + e
  {
    assert Join(localDir, Join(name, stem + "." + e)) == Join(Join(localDir, name), stem + "." + e);
    ExtOfJoinedName(Join(localDir, name), stem, e);
  }

  /** A thumbnail written as `thumbnail.jpg` is stored as `<thumbnailPrefix>/<videoID>.jpg`. */
  lemma ThumbnailKeyOfJpeg(s: MinIOStorage, videoID: string, dir: string)
    ensures ThumbnailKey(s, videoID, Join(dir, "thumbnail.jpg")) == Join(s.thumbnailPrefix, videoID + ".jpg")
  {
    assert "thumbnail.jpg" == "thumbnail" + "." + "jpg";
    ExtOfJoinedName(dir, "thumbnail", "jpg");
  }
}
