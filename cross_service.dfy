/** How the services' object keys meet: where the upload service stores an original and
    where the transcoder and the metadata record look for it, and where the transcoder
    stores its outputs and where the streaming service looks for them. */
module CrossService {
  import opened Results
  import opened Strings
  import opened Paths
  import QualityLadder
  import UploadStorage
  import UploadService
  import MetadataService
  import TranscoderStorage
  import TranscoderJobs
  import StreamingStorage
  import FFmpeg

  /** The transcoder and the streaming service configured with the same output prefixes. */
  predicate SharedLayout(ts: TranscoderStorage.MinIOStorage, ss: StreamingStorage.MinIOStorage)
  {
    ts.hlsPrefix == ss.hlsPrefix && ts.mp4Prefix == ss.mp4Prefix && ts.thumbnailPrefix == ss.thumbnailPrefix
  }

  /** The master playlist the encoder writes at the top of its HLS directory is stored
      where the streaming service reads it. */
  lemma MasterFound(ts: TranscoderStorage.MinIOStorage, ss: StreamingStorage.MinIOStorage, videoID: string, hlsDir: string)
    requires SharedLayout(ts, ss)
    ensures TranscoderStorage.HlsPut(ts, videoID, hlsDir, "master.m3u8").key == StreamingStorage.MasterKey(ss, videoID)
  {
  }

  /** A rung's playlist `<name>/playlist.m3u8` is stored, as a playlist, under the key the
      streaming service tries for that rendition. */
  lemma PlaylistFound(ts: TranscoderStorage.MinIOStorage, ss: StreamingStorage.MinIOStorage, videoID: string,
                      hlsDir: string, res: string)
    requires SharedLayout(ts, ss)
    ensures var put := TranscoderStorage.HlsPut(ts, videoID, hlsDir, Join(res, "playlist.m3u8"));
      put.key == StreamingStorage.PlaylistKey(ss, videoID, res) && put.contentType == "application/vnd.apple.mpegurl"
  {
    TranscoderStorage.HlsPlaylistType(hlsDir, res);
  }

  /** A segment file of a rung is stored under the candidate key the streaming service
      builds for a bare segment name under that rendition. */
  lemma SegmentFound(ts: TranscoderStorage.MinIOStorage, ss: StreamingStorage.MinIOStorage, videoID: string,
                     hlsDir: string, res: string, segment: string)
    requires SharedLayout(ts, ss) && '/' !in segment && |res| > 0
    ensures TranscoderStorage.HlsPut(ts, videoID, hlsDir, Join(res, segment)).key
            == StreamingStorage.SegmentCandidate(ss, videoID, segment, res)
  {
    var base := Join(ss.hlsPrefix, videoID);
    assert TranscoderStorage.HlsPut(ts, videoID, hlsDir, Join(res, segment)).key == Join(base, Join(res, segment));
    JoinAssoc(base, res, segment);
    NoSeparatorPrefix(segment, res);
  }

  /** A name without separators does not start with a directory. */
  lemma NoSeparatorPrefix(name: string, dir: string)
    requires '/' !in name
    ensures !HasPrefix(name, dir + "/")
  {
    if |dir| + 1 <= |name| {
      assert name[|dir|] != '/' && (dir + "/")[|dir|] == '/';
    }
  }

  /** The MP4 of rung `l`: encoded into `<outputDir>/mp4/<name>.mp4`, walked from
      `outputDir` as `mp4/<name>.mp4`, and so stored under the key the streaming service
      tries for quality `<name>`. */
  lemma Mp4Found(ts: TranscoderStorage.MinIOStorage, ss: StreamingStorage.MinIOStorage, videoID: string,
                 outputDir: string, l: QualityLadder.QualityLevel)
    requires SharedLayout(ts, ss)
    ensures Join(Join(outputDir, "mp4"), l.name + ".mp4") == Join(outputDir, Join("mp4", l.name + ".mp4"))
    ensures TranscoderStorage.Mp4Put(ts, videoID, outputDir, Join("mp4", l.name + ".mp4")).key
            == StreamingStorage.Mp4ObjectKey(ss, videoID, l.name + ".mp4")
  {
  }

  /** A 4k rendition is stored but never among the default lookups: it is served only when
      asked for by name. */
  lemma FourKOnlyOnRequest(ss: StreamingStorage.MinIOStorage, videoID: string)
    ensures StreamingStorage.Mp4ObjectKey(ss, videoID, QualityLadder.Level4k.name + ".mp4")
            !in StreamingStorage.Mp4Defaults(ss, videoID)
    ensures StreamingStorage.Mp4Candidates(ss, videoID, "4k")[0]
            == StreamingStorage.Mp4ObjectKey(ss, videoID, QualityLadder.Level4k.name + ".mp4")
  {
    var keys := StreamingStorage.Mp4Defaults(ss, videoID);
    var fourK := StreamingStorage.Mp4ObjectKey(ss, videoID, "4k.mp4");
    forall i | 0 <= i < |keys| ensures keys[i] != fourK {
      assert |keys[i]| != |fourK|;
    }
  }

  /** The thumbnail the pipeline writes as `thumbnail.jpg` is stored under the streaming
      service's second, flat candidate, never under the per-video one it tries first. */
  lemma ThumbnailFound(ts: TranscoderStorage.MinIOStorage, ss: StreamingStorage.MinIOStorage, tempDir: string,
                       e: TranscoderJobs.VideoUploadEvent)
    requires SharedLayout(ts, ss)
    ensures var key := TranscoderStorage.ThumbnailKey(ts, e.videoID, TranscoderJobs.ThumbnailPath(tempDir, e));
      key == StreamingStorage.ThumbnailKeys(ss, e.videoID)[1] && key != StreamingStorage.ThumbnailKeys(ss, e.videoID)[0]
  {
    TranscoderStorage.ThumbnailKeyOfJpeg(ts, e.videoID, TranscoderJobs.VideoDir(tempDir, e));
  }

  /** The transcoder reads the original back exactly when the extension it guesses from the
      event's content type is the one the upload kept on the key. */
  lemma OriginalFound(ts: TranscoderStorage.MinIOStorage, videoID: string, originalFilename: string, contentType: string)
    requires ts.originalPrefix == "original"
    ensures TranscoderStorage.DownloadKey(ts, videoID, TranscoderJobs.SourceExtension(contentType))
            == UploadStorage.ObjectKey(videoID, UploadStorage.UploadExt(originalFilename))
            <==> UploadStorage.UploadExt(originalFilename) == TranscoderJobs.SourceExtension(contentType)
  {
    var x, y := UploadStorage.UploadExt(originalFilename), TranscoderJobs.SourceExtension(contentType);
    var p := "original/" + videoID;
    assert TranscoderStorage.DownloadKey(ts, videoID, y) == p + y;
    assert UploadStorage.ObjectKey(videoID, x) == p + x;
    if p + y == p + x {
      assert y == (p + y)[|p|..] && x == (p + x)[|p|..];
    }
  }

  /** A `.webm` file declared with any type but `video/webm` (a browser's
      `application/octet-stream`, say) is stored as `.webm` and looked for as `.mp4`. */
  lemma UndeclaredWebmLost(ts: TranscoderStorage.MinIOStorage, videoID: string, originalFilename: string,
                           contentType: string)
    requires ts.originalPrefix == "original"
    requires Ext(originalFilename) == ".webm" && contentType != "video/webm"
    ensures TranscoderStorage.DownloadKey(ts, videoID, TranscoderJobs.SourceExtension(contentType))
            != UploadStorage.ObjectKey(videoID, UploadStorage.UploadExt(originalFilename))
  {
    OriginalFound(ts, videoID, originalFilename, contentType);
  }

  /** Extensions are kept as written: an upper-case `.MOV` is never found, whatever type
      it was declared with. */
  lemma UpperCaseMovLost(ts: TranscoderStorage.MinIOStorage, videoID: string, originalFilename: string,
                         contentType: string)
    requires ts.originalPrefix == "original"
    requires Ext(originalFilename) == ".MOV"
    ensures TranscoderStorage.DownloadKey(ts, videoID, TranscoderJobs.SourceExtension(contentType))
            != UploadStorage.ObjectKey(videoID, UploadStorage.UploadExt(originalFilename))
  {
    OriginalFound(ts, videoID, originalFilename, contentType);
  }

  /** An extension-less upload declared as neither WebM nor QuickTime is stored and looked
      for as `.mp4`. */
  lemma ExtensionlessFound(ts: TranscoderStorage.MinIOStorage, videoID: string, originalFilename: string,
                           contentType: string)
    requires ts.originalPrefix == "original"
    requires Ext(originalFilename) == "" && contentType != "video/webm" && contentType != "video/quicktime"
    ensures TranscoderStorage.DownloadKey(ts, videoID, TranscoderJobs.SourceExtension(contentType))
            == UploadStorage.ObjectKey(videoID, UploadStorage.UploadExt(originalFilename))
  {
    OriginalFound(ts, videoID, originalFilename, contentType);
  }

  /** The metadata record's `minio_path` names the stored original exactly when the
      filename has an extension: an extension-less upload is stored as `.mp4` but recorded
      without one. */
  lemma RecordedPathMatches(s: UploadStorage.MinIOStorage, e: UploadService.VideoUploadEvent, originalFilename: string,
                            parseTime: string -> Result<string>)
    requires e.metadata.fileExtension == Ext(originalFilename)
    ensures MetadataService.ConvertUploadMetadata(e, parseTime).video.minioPath
            == UploadStorage.UploadPut(s, e.videoID, e.contentType, originalFilename).key
            <==> Ext(originalFilename) != ""
  {
    var p := "original/" + e.videoID;
    var recorded := MetadataService.ConvertUploadMetadata(e, parseTime).video.minioPath;
    var stored := UploadStorage.UploadPut(s, e.videoID, e.contentType, originalFilename).key;
    assert recorded == p + Ext(originalFilename);
    assert stored == p + UploadStorage.UploadExt(originalFilename);
    if Ext(originalFilename) == "" {
      assert |recorded| != |stored|;
    }
  }

  /** The encoder logs under the right video ID: the directory of the downloaded original
      is named after it. */
  lemma EncoderSeesVideoID(tempDir: string, e: TranscoderJobs.VideoUploadEvent)
    requires Segment(e.videoID)
    ensures FFmpeg.VideoIDOf(TranscoderJobs.VideoPath(tempDir, e)) == e.videoID
  {
    TranscoderJobs.DownloadTargetLayout(tempDir, e);
  }
}
