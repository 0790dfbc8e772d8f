/** The upload service's `HandleUpload`: validate, store the file while its metadata is
    extracted from a temporary copy, complete the metadata record, publish the upload
    event and report what went wrong without failing the upload. The temporary file, the
    generated UUID, the put, the extraction, the publisher and the clock are parameters. */
module UploadService {
  import opened Results
  import opened Strings
  import opened Paths
  import UploadValidation
  import UploadStorage
  import MetadataExtractor

  type VideoMetadata = MetadataExtractor.VideoMetadata

  datatype UploadService = UploadService(storage: UploadStorage.MinIOStorage, maxBytes: int)

  datatype UploadResult = UploadResult(videoID: string, warning: string, metadata: VideoMetadata)

  /** The event published to the upload topic. */
  datatype VideoUploadEvent = VideoUploadEvent(videoID: string, userID: string, title: string,
                                               contentType: string, size: int,
                                               metadata: VideoMetadata, uploadedAt: string)

  /** The checks made before anything is written: title, user ID, then the size limit. */
  predicate Admitted(s: UploadService, userID: string, title: string, size: int)
  {
    UploadValidation.ValidateTitle(title).Accepted? && UploadValidation.ValidateUserID(userID).Accepted?
    && size <= s.maxBytes
  }

  /** What the copying goroutine reports: a failed copy, a failed rewind, or the
      extractor's answer. */
  function MetadataOutcome(copied: Outcome, rewound: Outcome, extracted: Result<VideoMetadata>): (m: Result<VideoMetadata>)
    ensures m.Ok? <==> copied.Pass? && rewound.Pass? && extracted.Ok?
    ensures m.Ok? ==> m == extracted
    ensures copied.Fail? ==> m == Err("copy error: " + copied.error)
    ensures copied.Pass? && rewound.Fail? ==> m == Err("seek error: " + rewound.error)
  {
    if copied.Fail? then Err("copy error: " + copied.error)
    else if rewound.Fail? then Err("seek error: " + rewound.error)
    else extracted
  }

  /** The record kept when extraction gave nothing: only the size, the extension as the
      format, and the creation time. */
  function FallbackMetadata(size: int, originalFilename: string, createdAt: string): VideoMetadata
  {
    MetadataExtractor.VideoMetadata(0.0, 0, 0, Ext(originalFilename), 0, size, "", createdAt, "", 0.0, "",
                                    "", 0, 0, "", "", "", "")
  }

  /** The final record: the extracted one, or the fallback, with the original filename,
      its extension and its sanitised form filled in. */
  function Finalized(m: Result<VideoMetadata>, size: int, originalFilename: string,
                     createdAt: string, timestamp: string): (meta: VideoMetadata)
    ensures meta.originalFilename == originalFilename && meta.fileExtension == Ext(originalFilename)
    ensures meta.sanitizedFilename == MetadataExtractor.SanitizeFilename(originalFilename, timestamp)
    ensures m.Ok? ==> meta.duration == m.value.duration && meta.width == m.value.width
                      && meta.height == m.value.height && meta.codec == m.value.codec
                      && meta.fileSize == m.value.fileSize && meta.checksum == m.value.checksum
                      && meta.contentType == m.value.contentType
    ensures m.Err? ==> meta.fileSize == size && meta.format == Ext(originalFilename)
                       && meta.createdAt == createdAt && meta.duration == 0.0 && meta.checksum == ""
  {
    var base := if m.Ok? then m.value else FallbackMetadata(size, originalFilename, createdAt);
    base.(originalFilename := originalFilename, fileExtension := Ext(originalFilename),
          sanitizedFilename := MetadataExtractor.SanitizeFilename(originalFilename, timestamp))
  }

  /** The warning text: the extraction failure, the publishing failure, or both joined
      by "; ". */
  function Warning(m: Result<VideoMetadata>, published: Outcome): (w: string)
    ensures w == "" <==> m.Ok? && published.Pass?
    ensures m.Err? && published.Pass? ==> w == "failed to extract metadata: " + m.error
    ensures m.Ok? && published.Fail? ==> w == "video uploaded but event publishing failed: " + published.error
    ensures m.Err? && published.Fail? ==>
      w == "failed to extract metadata: " + m.error + "; " + "video uploaded but event publishing failed: " + published.error
  {
    var first := if m.Err? then "failed to extract metadata: " + m.error else "";
    if published.Pass? then first
    else if first == "" then "video uploaded but event publishing failed: " + published.error
    else first + "; " + "video uploaded but event publishing failed: " + published.error
  }

  /** `HandleUpload`. `tempFile` is the outcome of creating the temporary file, `videoID`
      the UUID the store generates, `copied`, `rewound` and `extracted` what the copying
      goroutine sees, `createdAt` and `uploadedAt` the two readings of the clock and
      `timestamp` the one the sanitised filename carries. */
  method HandleUpload(s: UploadService, userID: string, title: string, size: int, contentType: string,
                      originalFilename: string, tempFile: Outcome, videoID: string,
                      put: UploadStorage.Put -> Outcome, copied: Outcome, rewound: Outcome,
                      extracted: Result<VideoMetadata>, publish: VideoUploadEvent -> Outcome,
                      createdAt: string, uploadedAt: string, timestamp: string)
    returns (r: Result<UploadResult>)
    ensures var uploaded := UploadStorage.UploadVideo(s.storage, videoID, contentType, originalFilename, put);
      r.Ok? <==> Admitted(s, userID, title, size) && tempFile.Pass? && uploaded.Ok?
    ensures UploadValidation.ValidateTitle(title).Rejected? ==>
      r == Err(UploadValidation.ErrorText(UploadValidation.ValidateTitle(title)))
    ensures UploadValidation.ValidateTitle(title).Accepted? && UploadValidation.ValidateUserID(userID).Rejected? ==>
      r == Err(UploadValidation.ErrorText(UploadValidation.ValidateUserID(userID)))
    ensures UploadValidation.ValidateTitle(title).Accepted? && UploadValidation.ValidateUserID(userID).Accepted?
            && size > s.maxBytes ==>
      r == Err("file too large: max size is " + IntToString(s.maxBytes) + " bytes")
    ensures Admitted(s, userID, title, size) && tempFile.Fail? ==>
      r == Err("failed to create temporary file: " + tempFile.error)
    ensures var uploaded := UploadStorage.UploadVideo(s.storage, videoID, contentType, originalFilename, put);
      Admitted(s, userID, title, size) && tempFile.Pass? && uploaded.Err? ==>
      r == Err("failed to upload video: " + uploaded.error)
    ensures var m := MetadataOutcome(copied, rewound, extracted);
            var meta := Finalized(m, size, originalFilename, createdAt, timestamp);
      r.Ok? ==>
      && r.value.videoID == videoID
      && r.value.metadata == meta
      && r.value.warning
         == Warning(m, publish(VideoUploadEvent(videoID, userID, title, contentType, size, meta, uploadedAt)))
  {
    var titleCheck := UploadValidation.ValidateTitle(title);
    if titleCheck.Rejected? {
      return Err(UploadValidation.ErrorText(titleCheck));
    }
    var userCheck := UploadValidation.ValidateUserID(userID);
    if userCheck.Rejected? {
      return Err(UploadValidation.ErrorText(userCheck));
    }
    if size > s.maxBytes {
      return Err("file too large: max size is " + IntToString(s.maxBytes) + " bytes");
    }
    if tempFile.Fail? {
      return Err("failed to create temporary file: " + tempFile.error);
    }
    var uploaded := UploadStorage.UploadVideo(s.storage, videoID, contentType, originalFilename, put);
    var mResult := MetadataOutcome(copied, rewound, extracted);
    if uploaded.Err? {
      return Err("failed to upload video: " + uploaded.error);
    }
    var meta := if mResult.Ok? then mResult.value else FallbackMetadata(size, originalFilename, createdAt);
    meta := meta.(originalFilename := originalFilename, fileExtension := Ext(originalFilename),
                  sanitizedFilename := MetadataExtractor.SanitizeFilename(originalFilename, timestamp));
    var err := publish(VideoUploadEvent(uploaded.value, userID, title, contentType, size, meta, uploadedAt));
    var result := Report(uploaded.value, mResult, meta, err);
    return Ok(result);
  }

  /** The result assembled once the event was published (or not): the warning starts
      with the extraction failure and gains the publishing failure after "; ". */
  method Report(videoID: string, mResult: Result<VideoMetadata>, meta: VideoMetadata, err: Outcome)
    returns (result: UploadResult)
    ensures result == UploadResult(videoID, Warning(mResult, err), meta)
  {
    var warning := "";
    if mResult.Err? {
      warning := "failed to extract metadata: " + mResult.error;
    }
    result := UploadResult(videoID, "", meta);
    if warning != "" {
      result := result.(warning := warning);
    }
    if err.Fail? {
      if result.warning != "" {
        result := result.(warning := result.warning + "; ");
      }
      result := result.(warning := result.warning + "video uploaded but event publishing failed: " + err.error);
    }
  }

  /** A store failure reaches the caller prefixed twice, once by the store and once by
      the service. */
  lemma UploadErrorPrefixedTwice(s: UploadService, videoID: string, contentType: string,
                                 originalFilename: string, put: UploadStorage.Put -> Outcome)
    requires put(UploadStorage.UploadPut(s.storage, videoID, contentType, originalFilename)).Fail?
    ensures var uploaded := UploadStorage.UploadVideo(s.storage, videoID, contentType, originalFilename, put);
      "failed to upload video: " + uploaded.error
      == "failed to upload video: " + "failed to upload video: "
         + put(UploadStorage.UploadPut(s.storage, videoID, contentType, originalFilename)).error
  {
  }

  /** Without extracted metadata the record's format is the filename's extension (with
      its dot), not a container name, and an extension-less file gets an empty one even
      though it is stored as `.mp4`. */
  lemma FallbackFormatIsExtension(copied: Outcome, size: int, originalFilename: string, createdAt: string,
                                  timestamp: string, rewound: Outcome, extracted: Result<VideoMetadata>)
    requires copied.Fail?
    ensures var meta := Finalized(MetadataOutcome(copied, rewound, extracted), size, originalFilename, createdAt, timestamp);
      meta.format == meta.fileExtension == Ext(originalFilename) && meta.fileSize == size
    ensures Ext(originalFilename) == "" ==> UploadStorage.UploadExt(originalFilename) == ".mp4"
  {
  }

  /** The event carries the declared content type (see `HandleUpload`), the object the
      one the store settles on: an upload declared `application/octet-stream` is
      announced so but never stored so. */
  lemma OctetStreamNotStored(s: UploadService, videoID: string, originalFilename: string)
    ensures UploadStorage.UploadPut(s.storage, videoID, "application/octet-stream", originalFilename).contentType
            != "application/octet-stream"
  {
  }
}
