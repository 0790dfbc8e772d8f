/** The upload service's object store: where an upload is stored, under which content
    type, and the bucket probe. The UUID and the put are given. */
module UploadStorage {
  import opened Results
  import opened Strings
  import opened Paths

  datatype MinIOStorage = MinIOStorage(bucketName: string)

  /** One `PutObject` call: bucket, key, content type and the user metadata map. */
  datatype Put = Put(bucket: string, key: string, contentType: string, metadata: map<string, string>)

  /** The extension kept on the object: the filename's, or `.mp4` when it has none. */
  function UploadExt(originalFilename: string): (ext: string)
    ensures Ext(originalFilename) != "" ==> ext == Ext(originalFilename)
    ensures Ext(originalFilename) == "" ==> ext == ".mp4"
  {
    var fileExt := Ext(originalFilename);
    if fileExt == "" then ".mp4" else fileExt
  }

  /** The object key: `original/<videoID><ext>`. */
  function ObjectKey(videoID: string, ext: string): (key: string)
    ensures key == "original/" + videoID + ext
  {
    Join("original", videoID + ext)
  }

  /** The stored content type: the declared one unless it is unset or
      `application/octet-stream`, else inferred, case-sensitively, from the extension. */
  function StoredContentType(contentType: string, fileExt: string): (ct: string)
    ensures contentType != "" && contentType != "application/octet-stream" ==> ct == contentType
    ensures contentType == "" || contentType == "application/octet-stream" ==>
      ct == (if fileExt == ".webm" then "video/webm"
             else if fileExt == ".mov" || fileExt == ".qt" then "video/quicktime"
             else "video/mp4")
  {
    if contentType == "" || contentType == "application/octet-stream" then
      if fileExt == ".mp4" then "video/mp4"
      else if fileExt == ".webm" then "video/webm"
      else if fileExt == ".mov" || fileExt == ".qt" then "video/quicktime"
      else "video/mp4"
    else contentType
  }

  /** The put `UploadVideo` issues. */
  function UploadPut(s: MinIOStorage, videoID: string, contentType: string, originalFilename: string): Put
  {
    var fileExt := UploadExt(originalFilename);
    Put(s.bucketName, ObjectKey(videoID, fileExt), StoredContentType(contentType, fileExt),
        map["original-filename" := originalFilename])
  }

  /** `UploadVideo` with the freshly generated `videoID`: the bare ID on success. */
  function UploadVideo(s: MinIOStorage, videoID: string, contentType: string, originalFilename: string,
                       put: Put -> Outcome): (r: Result<string>)
    ensures r.Ok? <==> put(UploadPut(s, videoID, contentType, originalFilename)).Pass?
    ensures r.Ok? ==> r.value == videoID
    ensures r.Err? ==> r.error == "failed to upload video: " + put(UploadPut(s, videoID, contentType, originalFilename)).error
  {
    var err := put(UploadPut(s, videoID, contentType, originalFilename));
    if err.Fail? then Err("failed to upload video: " + err.error) else Ok(videoID)
  }

  /** The put goes to the service's bucket under `original/<id><ext>`, records the
      original filename, and never stores `application/octet-stream`. */
  lemma UploadPutLayout(s: MinIOStorage, videoID: string, contentType: string, originalFilename: string)
    ensures var p := UploadPut(s, videoID, contentType, originalFilename);
      && p.bucket == s.bucketName
      && p.key == "original/" + videoID + UploadExt(originalFilename)
      && p.metadata == map["original-filename" := originalFilename]
      && p.contentType != "application/octet-stream" && p.contentType != ""
  {
  }

  /** Inference is case-sensitive: `.MOV` is stored as `video/mp4`. */
  lemma UpperCaseExtensionIsMp4()
    ensures StoredContentType("", ".MOV") == "video/mp4"
  {
  }

  /** `CheckHealth`: the bucket must be reported as existing. The transcoder service's
      storage makes the same probe of its raw bucket (`TranscoderStorage.CheckHealth`). */
  function CheckHealth(s: MinIOStorage, bucketExists: string -> Result<bool>): (o: Outcome)
    ensures o.Pass? <==> bucketExists(s.bucketName) == Ok(true)
    ensures bucketExists(s.bucketName).Err? ==>
      o == Fail("failed to check bucket existence: " + bucketExists(s.bucketName).error)
    ensures bucketExists(s.bucketName) == Ok(false) ==> o == Fail("bucket '" + s.bucketName + "' does not exist")
  {
    var found := bucketExists(s.bucketName);
    if found.Err? then Fail("failed to check bucket existence: " + found.error)
    else if !found.value then Fail("bucket '" + s.bucketName + "' does not exist")
    else Pass
  }
}
