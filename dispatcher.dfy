/** The transcoder service's job table and per-video pipeline. The table maps each
    video ID being processed to the cancel function of its job context; the mutex and
    the job goroutine become atomic method calls. */
module TranscoderJobs {
  import opened Results
  import opened Paths

  /** The cancel function of one job's context, told apart by an identity. */
  datatype CancelToken = CancelToken(id: nat)

  /** The fields of the upload event the pipeline reads. */
  datatype VideoUploadEvent = VideoUploadEvent(videoID: string, userID: string, title: string,
                                               contentType: string, width: int, height: int)

  /** The event published when a video is fully processed. */
  datatype TranscodingCompleteEvent = TranscodingCompleteEvent(
    videoID: string, userID: string, title: string,
    hlsPath: string, mp4Path: string, thumbnailPath: string,
    status: string, completedAt: string)

  /** The storage, encoder and producer calls of the pipeline, as their outcomes on the
      arguments they are given. */
  datatype Adapters = Adapters(
    mkdir: string -> Outcome,
    download: (string, string, string) -> Outcome,
    transcodeHLS: (string, string, int, int) -> Outcome,
    transcodeMP4: (string, string, int, int) -> Outcome,
    generateThumbnail: (string, string) -> Outcome,
    uploadHLSFiles: (string, string) -> Result<string>,
    uploadMP4Files: (string, string) -> Outcome,
    uploadThumbnail: (string, string) -> Result<string>,
    mp4Prefix: string,
    publish: TranscodingCompleteEvent -> Outcome)

  /** The steps of `processVideo`, each of which can end it with an error. */
  datatype Stage = MakeVideoDir | Download | MakeHlsDir | MakeMp4Dir | EncodeHls | EncodeMp4
                 | Thumbnail | UploadHls | UploadMp4 | UploadThumbnail | Publish

  /** The steps in the order they run. */
  const Stages: seq<Stage> := [MakeVideoDir, Download, MakeHlsDir, MakeMp4Dir, EncodeHls, EncodeMp4,
                               Thumbnail, UploadHls, UploadMp4, UploadThumbnail, Publish]

  /** The extension of the downloaded original, chosen from the event's content type. */
  function SourceExtension(contentType: string): (ext: string)
    ensures ext in [".mp4", ".webm", ".mov"]
    ensures ext == ".webm" <==> contentType == "video/webm"
    ensures ext == ".mov" <==> contentType == "video/quicktime"
  {
    if contentType == "video/webm" then ".webm"
    else if contentType == "video/quicktime" then ".mov"
    else ".mp4"
  }

  /** The working directory of a video. */
  function VideoDir(tempDir: string, e: VideoUploadEvent): string { Join(tempDir, e.videoID) }

  /** Where the original is downloaded to: `<videoDir>/original<ext>`. */
  function VideoPath(tempDir: string, e: VideoUploadEvent): string
  {
    Join(VideoDir(tempDir, e), "original" + SourceExtension(e.contentType))
  }

  function HlsDir(tempDir: string, e: VideoUploadEvent): string { Join(VideoDir(tempDir, e), "hls") }

  function Mp4Dir(tempDir: string, e: VideoUploadEvent): string { Join(VideoDir(tempDir, e), "mp4") }

  function ThumbnailPath(tempDir: string, e: VideoUploadEvent): string { Join(VideoDir(tempDir, e), "thumbnail.jpg") }

  /** The completion event built from the upload event, the two upload results and the clock. */
  function CompletionEvent(a: Adapters, tempDir: string, e: VideoUploadEvent, now: string): TranscodingCompleteEvent
  {
    TranscodingCompleteEvent(e.videoID, e.userID, e.title,
                             ValueOr(a.uploadHLSFiles(e.videoID, HlsDir(tempDir, e)), ""),
                             Join(a.mp4Prefix, e.videoID),
                             ValueOr(a.uploadThumbnail(e.videoID, ThumbnailPath(tempDir, e)), ""),
                             "completed", now)
  }

  /** The outcome of each stage, in stage order, run on the arguments `processVideo` gives it. */
  function StageOutcomes(a: Adapters, tempDir: string, e: VideoUploadEvent, now: string): (os: seq<Outcome>)
    ensures |os| == |Stages|
  {
    [a.mkdir(VideoDir(tempDir, e)),
     a.download(e.videoID, SourceExtension(e.contentType), VideoPath(tempDir, e)),
     a.mkdir(HlsDir(tempDir, e)),
     a.mkdir(Mp4Dir(tempDir, e)),
     a.transcodeHLS(VideoPath(tempDir, e), HlsDir(tempDir, e), e.width, e.height),
     a.transcodeMP4(VideoPath(tempDir, e), Mp4Dir(tempDir, e), e.width, e.height),
     a.generateThumbnail(VideoPath(tempDir, e), ThumbnailPath(tempDir, e)),
     AsOutcome(a.uploadHLSFiles(e.videoID, HlsDir(tempDir, e))),
     a.uploadMP4Files(e.videoID, Mp4Dir(tempDir, e)),
     AsOutcome(a.uploadThumbnail(e.videoID, ThumbnailPath(tempDir, e))),
     a.publish(CompletionEvent(a, tempDir, e, now))]
  }

  /** An outcome as its own step. */
  function Itself(o: Outcome): Outcome { o }

  /** The error `processVideo` returns when a stage fails. */
  function StageError(s: Stage, err: string): string
  {
    match s
    case MakeVideoDir => "failed to create video directory: " + err
    case Download => "failed to download video: " + err
    case MakeHlsDir => "failed to create HLS directory: " + err
    case MakeMp4Dir => "failed to create MP4 directory: " + err
    case EncodeHls => "failed to transcode to HLS: " + err
    case EncodeMp4 => "failed to transcode to MP4: " + err
    case Thumbnail => "failed to generate thumbnail: " + err
    case UploadHls => "failed to upload HLS files: " + err
    case UploadMp4 => "failed to upload MP4 files: " + err
    case UploadThumbnail => "failed to upload thumbnail: " + err
    case Publish => "failed to publish completion event: " + err
  }

  /** The effect of one `processVideo` call: the stages that ran, in order, the event handed
      to the producer (if publishing was reached), whether the working directory was removed,
      and the returned error. */
  datatype PipelineRun = PipelineRun(ran: seq<Stage>, offered: Option<TranscodingCompleteEvent>,
                                     removedDir: bool, result: Outcome)

  /** The run that stopped at the failure of stage `k`, before publishing. */
  function Stopped(k: nat, err: string): (run: PipelineRun)
    requires k < 10
    ensures run.result == Fail(err) && run.offered == None
  {
    PipelineRun(Stages[..k + 1], None, k > 0, Fail(err))
  }

  /** The table after one event is offered: a duplicate or an event meeting a full table is
      refused and leaves it as it was, anything else is entered with its cancel function. */
  function Admit(table: map<string, CancelToken>, videoID: string, cancel: CancelToken, maxJobs: int): map<string, CancelToken>
  {
    if videoID in table || |table| >= maxJobs then table else table[videoID := cancel]
  }

  /** The table after the events are offered one after another, the last one last. */
  function AdmitAll(table: map<string, CancelToken>, videoIDs: seq<string>, cancels: seq<CancelToken>, maxJobs: int): map<string, CancelToken>
    requires |cancels| == |videoIDs|
    decreases |videoIDs|
  {
    if videoIDs == [] then table
    else
      var n := |videoIDs| - 1;
      Admit(AdmitAll(table, videoIDs[..n], cancels[..n], maxJobs), videoIDs[n], cancels[n], maxJobs)
  }

  class TranscoderService {
    const maxJobs: int
    const tempDir: string
    /** The job table: video ID to the cancel function of its context. */
    var activeJobs: map<string, CancelToken>
    /** The cancel functions called so far. */
    var cancelled: set<CancelToken>
    /** Whether the consumer and the producer were closed. */
    var closed: bool

    /** The table never holds more jobs than allowed. */
    predicate Valid()
      reads this
    {
      |activeJobs| == 0 || |activeJobs| <= maxJobs
    }

    constructor(maxJobs: int, tempDir: string)
      ensures this.maxJobs == maxJobs && this.tempDir == tempDir
      ensures activeJobs == map[] && cancelled == {} && !closed
      ensures Valid()
    {
      this.maxJobs := maxJobs;
      this.tempDir := tempDir;
      activeJobs := map[];
      cancelled := {};
      closed := false;
    }

    /** `handleVideoUpload`'s admission: a duplicate is refused first, then a full table;
        otherwise the job is entered with its cancel function. */
    method HandleVideoUpload(videoID: string, cancel: CancelToken) returns (o: Outcome)
      requires Valid()
      modifies this
      ensures Valid()
      ensures cancelled == old(cancelled) && closed == old(closed)
      ensures videoID in old(activeJobs) ==>
        o == Fail("job already exists for video " + videoID) && activeJobs == old(activeJobs)
      ensures videoID !in old(activeJobs) && |old(activeJobs)| >= maxJobs ==>
        o == Fail("maximum number of concurrent jobs reached") && activeJobs == old(activeJobs)
      ensures videoID !in old(activeJobs) && |old(activeJobs)| < maxJobs ==>
        o == Pass && activeJobs == old(activeJobs)[videoID := cancel]
    {
      if videoID in activeJobs {
        return Fail("job already exists for video " + videoID);
      }
      if |activeJobs| >= maxJobs {
        return Fail("maximum number of concurrent jobs reached");
      }
      activeJobs := activeJobs[videoID := cancel];
      return Pass;
    }

    /** The job goroutine's deferred cleanup: the entry is deleted and its cancel is not called. */
    method Complete(videoID: string)
      requires Valid()
      modifies this
      ensures Valid()
      ensures activeJobs == old(activeJobs) - {videoID}
      ensures cancelled == old(cancelled) && closed == old(closed)
    {
      activeJobs := activeJobs - {videoID};
    }

    /** `Stop`: every stored cancel is called, in an unspecified order; the consumer and
        producer are closed; the table is left as it is. */
    method Stop()
      requires Valid()
      modifies this
      ensures Valid()
      ensures activeJobs == old(activeJobs)
      ensures cancelled == old(cancelled) + activeJobs.Values
      ensures closed
    {
      var remaining := activeJobs.Values;
      while remaining != {}
        invariant remaining <= activeJobs.Values
        invariant cancelled + remaining == old(cancelled) + activeJobs.Values
        invariant activeJobs == old(activeJobs)
        decreases |remaining|
      {
        var cancel :| cancel in remaining;
        cancelled := cancelled + {cancel};
        remaining := remaining - {cancel};
      }
      closed := true;
    }

    /** The consumer loop: every event is offered for admission in turn, and a refused one
        is only logged, so later events are still offered. */
    method Consume(videoIDs: seq<string>, cancels: seq<CancelToken>)
      requires Valid() && |cancels| == |videoIDs|
      modifies this
      ensures Valid()
      ensures activeJobs == AdmitAll(old(activeJobs), videoIDs, cancels, maxJobs)
      ensures cancelled == old(cancelled) && closed == old(closed)
    {
      for i := 0 to |videoIDs|
        invariant Valid()
        invariant activeJobs == AdmitAll(old(activeJobs), videoIDs[..i], cancels[..i], maxJobs)
        invariant cancelled == old(cancelled) && closed == old(closed)
      {
        assert videoIDs[..i + 1][..i] == videoIDs[..i] && cancels[..i + 1][..i] == cancels[..i];
        var _ := HandleVideoUpload(videoIDs[i], cancels[i]);
      }
      assert videoIDs[..|videoIDs|] == videoIDs && cancels[..|cancels|] == cancels;
    }

    /** What a `processVideo` run reports: the stages before the first failure ran and
        passed, the failing one ran last and its error is returned wrapped, the completion
        event was offered only once every stage before publishing passed, and the working
        directory was removed exactly when it had been created. */
    ghost predicate Reports(run: PipelineRun, a: Adapters, e: VideoUploadEvent, now: string)
      reads this
    {
      var outcomes := StageOutcomes(a, tempDir, e, now);
      var n := FirstFailure(outcomes, Itself);
      && run.ran == Stages[..RanCount(n, |Stages|)]
      && (run.result.Pass? <==> n == |Stages|)
      && (run.result.Fail? ==> n < |Stages| && run.result == Fail(StageError(Stages[n], outcomes[n].error)))
      && (run.offered.Some? <==> n >= 10)
      && (run.offered.Some? ==> run.offered.value == CompletionEvent(a, tempDir, e, now))
      && (run.removedDir <==> n > 0)
    }

    /** `processVideo`: the stages in order, returning at the first failure. */
    method ProcessVideo(a: Adapters, e: VideoUploadEvent, now: string) returns (run: PipelineRun)
      ensures Reports(run, a, e, now)
    {
      ghost var outcomes := StageOutcomes(a, tempDir, e, now);
      var videoDir := VideoDir(tempDir, e);
      var o := a.mkdir(videoDir);
      assert outcomes[0] == o;
      if o.Fail? {
        FirstFailureHere(outcomes, Itself, 0);
        StoppedReports(this, a, e, now, 0);
        return Stopped(0, StageError(MakeVideoDir, o.error));
      }
      FirstFailurePast(outcomes, Itself, 0);
      var fileExtension := ".mp4";
      if e.contentType == "video/webm" {
        fileExtension := ".webm";
      } else if e.contentType == "video/quicktime" {
        fileExtension := ".mov";
      }
      assert fileExtension == SourceExtension(e.contentType);
      var videoPath := VideoPath(tempDir, e);
      o := a.download(e.videoID, fileExtension, videoPath);
      assert outcomes[1] == o;
      if o.Fail? {
        FirstFailureHere(outcomes, Itself, 1);
        StoppedReports(this, a, e, now, 1);
        return Stopped(1, StageError(Download, o.error));
      }
      FirstFailurePast(outcomes, Itself, 1);
      run := MakeOutputDirs(a, e, now);
    }

    /** The output directories of `processVideo`, once the original is downloaded. */
    method MakeOutputDirs(a: Adapters, e: VideoUploadEvent, now: string) returns (run: PipelineRun)
      requires 2 <= FirstFailure(StageOutcomes(a, tempDir, e, now), Itself)
      ensures Reports(run, a, e, now)
    {
      ghost var outcomes := StageOutcomes(a, tempDir, e, now);
      var hlsDir := HlsDir(tempDir, e);
      var mp4Dir := Mp4Dir(tempDir, e);
      var o := a.mkdir(hlsDir);
      assert outcomes[2] == o;
      if o.Fail? {
        FirstFailureHere(outcomes, Itself, 2);
        StoppedReports(this, a, e, now, 2);
        return Stopped(2, StageError(MakeHlsDir, o.error));
      }
      FirstFailurePast(outcomes, Itself, 2);
      o := a.mkdir(mp4Dir);
      assert outcomes[3] == o;
      if o.Fail? {
        FirstFailureHere(outcomes, Itself, 3);
        StoppedReports(this, a, e, now, 3);
        return Stopped(3, StageError(MakeMp4Dir, o.error));
      }
      FirstFailurePast(outcomes, Itself, 3);
      run := Encode(a, e, now);
    }

    /** The encoding stages of `processVideo`, once its output directories exist. */
    method Encode(a: Adapters, e: VideoUploadEvent, now: string) returns (run: PipelineRun)
      requires 4 <= FirstFailure(StageOutcomes(a, tempDir, e, now), Itself)
      ensures Reports(run, a, e, now)
    {
      ghost var outcomes := StageOutcomes(a, tempDir, e, now);
      var videoPath, hlsDir, mp4Dir := VideoPath(tempDir, e), HlsDir(tempDir, e), Mp4Dir(tempDir, e);
      var o := a.transcodeHLS(videoPath, hlsDir, e.width, e.height);
      assert outcomes[4] == o;
      if o.Fail? {
        FirstFailureHere(outcomes, Itself, 4);
        StoppedReports(this, a, e, now, 4);
        return Stopped(4, StageError(EncodeHls, o.error));
      }
      FirstFailurePast(outcomes, Itself, 4);
      o := a.transcodeMP4(videoPath, mp4Dir, e.width, e.height);
      assert outcomes[5] == o;
      if o.Fail? {
        FirstFailureHere(outcomes, Itself, 5);
        StoppedReports(this, a, e, now, 5);
        return Stopped(5, StageError(EncodeMp4, o.error));
      }
      FirstFailurePast(outcomes, Itself, 5);
      var localThumbnailPath := ThumbnailPath(tempDir, e);
      o := a.generateThumbnail(videoPath, localThumbnailPath);
      assert outcomes[6] == o;
      if o.Fail? {
        FirstFailureHere(outcomes, Itself, 6);
        StoppedReports(this, a, e, now, 6);
        return Stopped(6, StageError(Thumbnail, o.error));
      }
      FirstFailurePast(outcomes, Itself, 6);
      run := Upload(a, e, now);
    }

    /** The upload and publishing stages of `processVideo`, once every encode succeeded. */
    method Upload(a: Adapters, e: VideoUploadEvent, now: string) returns (run: PipelineRun)
      requires 7 <= FirstFailure(StageOutcomes(a, tempDir, e, now), Itself)
      ensures Reports(run, a, e, now)
    {
      ghost var outcomes := StageOutcomes(a, tempDir, e, now);
      var hlsDir, mp4Dir, localThumbnailPath := HlsDir(tempDir, e), Mp4Dir(tempDir, e), ThumbnailPath(tempDir, e);
      var hlsPath := a.uploadHLSFiles(e.videoID, hlsDir);
      assert outcomes[7] == AsOutcome(hlsPath);
      if hlsPath.Err? {
        FirstFailureHere(outcomes, Itself, 7);
        StoppedReports(this, a, e, now, 7);
        return Stopped(7, StageError(UploadHls, hlsPath.error));
      }
      FirstFailurePast(outcomes, Itself, 7);
      var mp4Path := Join(a.mp4Prefix, e.videoID);
      var o := a.uploadMP4Files(e.videoID, mp4Dir);
      assert outcomes[8] == o;
      if o.Fail? {
        FirstFailureHere(outcomes, Itself, 8);
        StoppedReports(this, a, e, now, 8);
        return Stopped(8, StageError(UploadMp4, o.error));
      }
      FirstFailurePast(outcomes, Itself, 8);
      var thumbnailPath := a.uploadThumbnail(e.videoID, localThumbnailPath);
      assert outcomes[9] == AsOutcome(thumbnailPath);
      if thumbnailPath.Err? {
        FirstFailureHere(outcomes, Itself, 9);
        StoppedReports(this, a, e, now, 9);
        return Stopped(9, StageError(UploadThumbnail, thumbnailPath.error));
      }
      FirstFailurePast(outcomes, Itself, 9);
      var completionEvent := TranscodingCompleteEvent(e.videoID, e.userID, e.title, hlsPath.value, mp4Path,
                                                      thumbnailPath.value, "completed", now);
      o := a.publish(completionEvent);
      assert outcomes[10] == o;
      if o.Fail? {
        FirstFailureHere(outcomes, Itself, 10);
        return PipelineRun(Stages, Some(completionEvent), true, Fail(StageError(Publish, o.error)));
      }
      FirstFailurePast(outcomes, Itself, 10);
      return PipelineRun(Stages, Some(completionEvent), true, Pass);
    }

    /** One job from admission to cleanup: the pipeline runs, and whatever it returns the
        video's entry is deleted and nothing else in the table changes. */
    method RunJob(a: Adapters, e: VideoUploadEvent, now: string) returns (run: PipelineRun)
      requires Valid()
      modifies this
      ensures Valid()
      ensures activeJobs == old(activeJobs) - {e.videoID}
      ensures cancelled == old(cancelled) && closed == old(closed)
      ensures Reports(run, a, e, now)
    {
      run := ProcessVideo(a, e, now);
      Complete(e.videoID);
    }
  }

  /** `NewTranscoderService`: the work directory is made before anything else. When that
      fails no service is built and the process panics with the message returned here;
      otherwise the service starts as the constructor leaves it. */
  method NewTranscoderService(maxJobs: int, tempDir: string, mkdirAll: Outcome) returns (r: Result<TranscoderService>)
    ensures r.Err? <==> mkdirAll.Fail?
    ensures r.Err? ==> r.error == "failed to create temp directory: " + mkdirAll.error
    ensures r.Ok? ==> fresh(r.value) && r.value.maxJobs == maxJobs && r.value.tempDir == tempDir
    ensures r.Ok? ==> r.value.activeJobs == map[] && r.value.cancelled == {} && !r.value.closed && r.value.Valid()
  {
    if mkdirAll.Fail? {
      return Err("failed to create temp directory: " + mkdirAll.error);
    }
    var s := new TranscoderService(maxJobs, tempDir);
    return Ok(s);
  }

  /** What the consumer loop leaves: the jobs already running keep their entries, every new
      entry is an offered event with its own cancel function, and an event is missing from the
      table only when the table it was offered to was already full; the bound is kept. */
  lemma {:induction false} ConsumeAdmission(table: map<string, CancelToken>, videoIDs: seq<string>,
                                            cancels: seq<CancelToken>, maxJobs: int)
    requires |cancels| == |videoIDs|
    requires |table| == 0 || |table| <= maxJobs
    ensures var after := AdmitAll(table, videoIDs, cancels, maxJobs);
      && (|after| == 0 || |after| <= maxJobs)
      && (forall k :: k in table ==> k in after && after[k] == table[k])
      && (forall k :: k in after && k !in table ==> exists i :: 0 <= i < |videoIDs| && videoIDs[i] == k && after[k] == cancels[i])
      && (forall i :: 0 <= i < |videoIDs| && videoIDs[i] !in after ==>
            |AdmitAll(table, videoIDs[..i], cancels[..i], maxJobs)| >= maxJobs)
    decreases |videoIDs|
  {
    AdmitAllKeeps(table, videoIDs, cancels, maxJobs);
    AdmitAllOffered(table, videoIDs, cancels, maxJobs);
    AdmitAllSkipped(table, videoIDs, cancels, maxJobs);
  }

  /** Offering events keeps every entry already there and the bound. */
  lemma {:induction false} AdmitAllKeeps(table: map<string, CancelToken>, videoIDs: seq<string>,
                                         cancels: seq<CancelToken>, maxJobs: int)
    requires |cancels| == |videoIDs|
    requires |table| == 0 || |table| <= maxJobs
    ensures var after := AdmitAll(table, videoIDs, cancels, maxJobs);
      && (|after| == 0 || |after| <= maxJobs)
      && (forall k :: k in table ==> k in after && after[k] == table[k])
    decreases |videoIDs|
  {
    if videoIDs != [] {
      var n := |videoIDs| - 1;
      AdmitAllKeeps(table, videoIDs[..n], cancels[..n], maxJobs);
    }
  }

  /** Every entry that offering events adds is an offered event with its own cancel. */
  lemma {:induction false} AdmitAllOffered(table: map<string, CancelToken>, videoIDs: seq<string>,
                                           cancels: seq<CancelToken>, maxJobs: int)
    requires |cancels| == |videoIDs|
    ensures var after := AdmitAll(table, videoIDs, cancels, maxJobs);
      forall k :: k in after && k !in table ==> exists i :: 0 <= i < |videoIDs| && videoIDs[i] == k && after[k] == cancels[i]
    decreases |videoIDs|
  {
    if videoIDs != [] {
      var n := |videoIDs| - 1;
      var ids, cs := videoIDs[..n], cancels[..n];
      var before := AdmitAll(table, ids, cs, maxJobs);
      var after := AdmitAll(table, videoIDs, cancels, maxJobs);
      AdmitAllOffered(table, ids, cs, maxJobs);
      assert after == Admit(before, videoIDs[n], cancels[n], maxJobs);
      forall k | k in after && k !in table
        ensures exists i :: 0 <= i < |videoIDs| && videoIDs[i] == k && after[k] == cancels[i]
      {
        if k in before {
          var i :| 0 <= i < |ids| && ids[i] == k && before[k] == cs[i];
          assert videoIDs[i] == k && after[k] == cancels[i];
        } else {
          assert videoIDs[n] == k && after[k] == cancels[n];
        }
      }
    }
  }

  /** An offered event missing from the final table met a full table when it was offered. */
  lemma {:induction false} AdmitAllSkipped(table: map<string, CancelToken>, videoIDs: seq<string>,
                                           cancels: seq<CancelToken>, maxJobs: int)
    requires |cancels| == |videoIDs|
    ensures var after := AdmitAll(table, videoIDs, cancels, maxJobs);
      forall i :: 0 <= i < |videoIDs| && videoIDs[i] !in after ==>
        |AdmitAll(table, videoIDs[..i], cancels[..i], maxJobs)| >= maxJobs
    decreases |videoIDs|
  {
    if videoIDs != [] {
      var n := |videoIDs| - 1;
      var ids, cs := videoIDs[..n], cancels[..n];
      var before := AdmitAll(table, ids, cs, maxJobs);
      var after := AdmitAll(table, videoIDs, cancels, maxJobs);
      AdmitAllSkipped(table, ids, cs, maxJobs);
      assert after == Admit(before, videoIDs[n], cancels[n], maxJobs);
      assert before.Keys <= after.Keys;
      forall i | 0 <= i < |videoIDs| && videoIDs[i] !in after
        ensures |AdmitAll(table, videoIDs[..i], cancels[..i], maxJobs)| >= maxJobs
      {
        if i < n {
          assert ids[i] == videoIDs[i] && ids[..i] == videoIDs[..i] && cs[..i] == cancels[..i];
        } else {
          assert ids == videoIDs[..i] && cs == cancels[..i];
        }
      }
    }
  }

  /** The event offered to the producer copies the upload event's identity, carries the paths
      the HLS and thumbnail uploads returned and the MP4 prefix joined with the video ID, and
      is marked completed; it is offered only when every stage before publishing passed. */
  lemma OfferedEvent(s: TranscoderService, run: PipelineRun, a: Adapters, e: VideoUploadEvent, now: string)
    requires s.Reports(run, a, e, now)
    ensures run.offered.Some? <==> forall i :: 0 <= i < 10 ==> StageOutcomes(a, s.tempDir, e, now)[i].Pass?
    ensures run.offered.Some? ==>
      var ev := run.offered.value;
      && ev.videoID == e.videoID && ev.userID == e.userID && ev.title == e.title
      && a.uploadHLSFiles(e.videoID, HlsDir(s.tempDir, e)) == Ok(ev.hlsPath)
      && ev.mp4Path == Join(a.mp4Prefix, e.videoID)
      && a.uploadThumbnail(e.videoID, ThumbnailPath(s.tempDir, e)) == Ok(ev.thumbnailPath)
      && ev.status == "completed" && ev.completedAt == now
  {
    var outcomes := StageOutcomes(a, s.tempDir, e, now);
    var n := FirstFailure(outcomes, Itself);
    if forall i :: 0 <= i < 10 ==> outcomes[i].Pass? {
      FirstFailurePastAll(outcomes, 10);
    }
    if run.offered.Some? {
      assert Itself(outcomes[7]).Pass? && Itself(outcomes[9]).Pass?;
    }
  }

  /** The run passed exactly when every stage passed, and then all of them ran. */
  lemma SuccessMeansAllStages(s: TranscoderService, run: PipelineRun, a: Adapters, e: VideoUploadEvent, now: string)
    requires s.Reports(run, a, e, now)
    ensures run.result.Pass? <==> forall i :: 0 <= i < |Stages| ==> StageOutcomes(a, s.tempDir, e, now)[i].Pass?
    ensures run.result.Pass? ==> run.ran == Stages && run.offered.Some?
  {
    var outcomes := StageOutcomes(a, s.tempDir, e, now);
    if forall i :: 0 <= i < |Stages| ==> outcomes[i].Pass? {
      FirstFailurePastAll(outcomes, |Stages|);
    }
  }

  /** A run stopped at the first failure, before publishing, reports that failure. */
  lemma StoppedReports(s: TranscoderService, a: Adapters, e: VideoUploadEvent, now: string, k: nat)
    requires k < 10 && FirstFailure(StageOutcomes(a, s.tempDir, e, now), Itself) == k
    ensures s.Reports(Stopped(k, StageError(Stages[k], StageOutcomes(a, s.tempDir, e, now)[k].error)), a, e, now)
  {
  }

  /** With every one of the first `k` outcomes passing, the first failure is at `k` or later. */
  lemma FirstFailurePastAll(outcomes: seq<Outcome>, k: nat)
    requires k <= |outcomes|
    requires forall i :: 0 <= i < k ==> outcomes[i].Pass?
    ensures k <= FirstFailure(outcomes, Itself)
  {
  }

  /** The original is downloaded to `<tempDir>/<videoID>/original<ext>`: the name's extension is
      the one chosen from the content type, and its directory's name is the video ID. */
  lemma DownloadTargetLayout(tempDir: string, e: VideoUploadEvent)
    requires Segment(e.videoID)
    ensures VideoPath(tempDir, e) == Join(Join(tempDir, e.videoID), "original" + SourceExtension(e.contentType))
    ensures Ext(VideoPath(tempDir, e)) == SourceExtension(e.contentType)
    ensures Base(Dir(VideoPath(tempDir, e))) == e.videoID
  {
    var ext := SourceExtension(e.contentType);
    var name := "original" + ext;
    assert ext == "." + ext[1..];
    assert name == "original" + "." + ext[1..];
    ExtOfSuffix("original", ext[1..]);
    assert '/' !in name;
    ExtJoin(Join(tempDir, e.videoID), name);
    BaseDirJoin(tempDir, e.videoID, name);
  }

  /** A table that keeps every key of another has at least as many entries. */
  lemma TableGrows<K, V>(before: map<K, V>, after: map<K, V>)
    requires before.Keys <= after.Keys
    ensures |before| <= |after|
  {
    assert after.Keys == before.Keys + (after.Keys - before.Keys);
  }
}
