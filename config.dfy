/** The transcoder service's configuration: its records, the defaults `Load` installs,
    the `JOB_TIMEOUT` fallback and `Validate`'s ordered checks. Durations are Go
    `time.Duration` values, in nanoseconds. */
module TranscoderConfig {
  import opened Results
  import FFmpeg

  datatype KafkaConfig = KafkaConfig(brokers: seq<string>, topic: string, groupID: string)

  datatype MinIOConfig = MinIOConfig(
    endpoint: string, accessKeyID: string, secretAccessKey: string, useSSL: bool,
    bucketName: string, processedBucket: string,
    originalPrefix: string, hlsPrefix: string, mp4Prefix: string, thumbnailPrefix: string)

  datatype FFmpegConfig = FFmpegConfig(
    path: string, threads: int, preset: string, crf: int, segmentLength: int,
    outputFormats: seq<string>, outputQualities: seq<string>)

  datatype ProcessingConfig = ProcessingConfig(maxConcurrentJobs: int, jobTimeout: int, tempDir: string)

  datatype Config = Config(port: string, kafka: KafkaConfig, minio: MinIOConfig,
                           ffmpeg: FFmpegConfig, processing: ProcessingConfig)

  const Minute: int := 60 * 1000 * 1000 * 1000

  /** The job timeout `Load` keeps: the parsed `JOB_TIMEOUT`, or 30 minutes when it does not parse. */
  function JobTimeout(parsed: Result<int>): (d: int)
    ensures parsed.Ok? ==> d == parsed.value
    ensures parsed.Err? ==> d == 30 * Minute && d > 0
  {
    if parsed.Ok? then parsed.value else 30 * Minute
  }

  /** The configuration `Load` builds when no variable is set and `"30m"` parses. */
  const Defaults: Config := Config(
    "8083",
    KafkaConfig(["localhost:29092"], "video-uploads", "transcoder-service"),
    MinIOConfig("localhost:9000", "minioadmin", "minioadmin", false, "rawvideos", "processedvideos",
                "original", "hls", "mp4", "thumbnails"),
    FFmpegConfig("ffmpeg", 4, "medium", 23, 10, ["h264"], ["1080p", "720p", "480p", "360p"]),
    ProcessingConfig(2, 30 * Minute, "/tmp/transcoder"))

  /** The number of conditions `Validate` checks. */
  const ConditionCount := 17

  /** The `i`-th condition `Validate` checks, in its order. */
  predicate Condition(c: Config, i: nat)
    requires i < ConditionCount
  {
    match i
    case 0 => |c.kafka.brokers| != 0
    case 1 => c.kafka.topic != ""
    case 2 => c.kafka.groupID != ""
    case 3 => c.minio.endpoint != ""
    case 4 => c.minio.accessKeyID != ""
    case 5 => c.minio.secretAccessKey != ""
    case 6 => c.minio.bucketName != ""
    case 7 => c.minio.processedBucket != ""
    case 8 => c.ffmpeg.path != ""
    case 9 => c.ffmpeg.threads > 0
    case 10 => 0 <= c.ffmpeg.crf <= 51
    case 11 => c.ffmpeg.segmentLength > 0
    case 12 => |c.ffmpeg.outputFormats| != 0
    case 13 => |c.ffmpeg.outputQualities| != 0
    case 14 => c.processing.maxConcurrentJobs > 0
    case 15 => c.processing.jobTimeout > 0
    case 16 => c.processing.tempDir != ""
  }

  /** The error reported when condition `i` is the first that fails. */
  const Messages: seq<string> := [
    "Kafka brokers cannot be empty",
    "Kafka topic cannot be empty",
    "Kafka group ID cannot be empty",
    "MinIO endpoint cannot be empty",
    "MinIO access key cannot be empty",
    "MinIO secret key cannot be empty",
    "MinIO bucket name cannot be empty",
    "MinIO processed bucket name cannot be empty",
    "FFmpeg path cannot be empty",
    "FFmpeg threads must be greater than 0",
    "FFmpeg CRF must be between 0 and 51",
    "FFmpeg segment length must be greater than 0",
    "FFmpeg output formats cannot be empty",
    "FFmpeg output qualities cannot be empty",
    "Max concurrent jobs must be greater than 0",
    "Job timeout must be greater than 0",
    "Temp directory cannot be empty"]

  /** A configuration every condition of which holds, stated field by field. */
  predicate WellFormed(c: Config)
  {
    && |c.kafka.brokers| > 0 && c.kafka.topic != "" && c.kafka.groupID != ""
    && c.minio.endpoint != "" && c.minio.accessKeyID != "" && c.minio.secretAccessKey != ""
    && c.minio.bucketName != "" && c.minio.processedBucket != ""
    && c.ffmpeg.path != "" && c.ffmpeg.threads >= 1 && 0 <= c.ffmpeg.crf && c.ffmpeg.crf <= 51
    && c.ffmpeg.segmentLength >= 1 && |c.ffmpeg.outputFormats| > 0 && |c.ffmpeg.outputQualities| > 0
    && c.processing.maxConcurrentJobs >= 1 && c.processing.jobTimeout >= 1 && c.processing.tempDir != ""
  }

  /** `Validate`: the conditions in order, returning the first failing one's error. */
  function Validate(c: Config): (r: Outcome)
  {
    if |c.kafka.brokers| == 0 then Fail("Kafka brokers cannot be empty")
    else if c.kafka.topic == "" then Fail("Kafka topic cannot be empty")
    else if c.kafka.groupID == "" then Fail("Kafka group ID cannot be empty")
    else if c.minio.endpoint == "" then Fail("MinIO endpoint cannot be empty")
    else if c.minio.accessKeyID == "" then Fail("MinIO access key cannot be empty")
    else if c.minio.secretAccessKey == "" then Fail("MinIO secret key cannot be empty")
    else if c.minio.bucketName == "" then Fail("MinIO bucket name cannot be empty")
    else if c.minio.processedBucket == "" then Fail("MinIO processed bucket name cannot be empty")
    else if c.ffmpeg.path == "" then Fail("FFmpeg path cannot be empty")
    else if c.ffmpeg.threads <= 0 then Fail("FFmpeg threads must be greater than 0")
    else if c.ffmpeg.crf < 0 || c.ffmpeg.crf > 51 then Fail("FFmpeg CRF must be between 0 and 51")
    else if c.ffmpeg.segmentLength <= 0 then Fail("FFmpeg segment length must be greater than 0")
    else if |c.ffmpeg.outputFormats| == 0 then Fail("FFmpeg output formats cannot be empty")
    else if |c.ffmpeg.outputQualities| == 0 then Fail("FFmpeg output qualities cannot be empty")
    else if c.processing.maxConcurrentJobs <= 0 then Fail("Max concurrent jobs must be greater than 0")
    else if c.processing.jobTimeout <= 0 then Fail("Job timeout must be greater than 0")
    else if c.processing.tempDir == "" then Fail("Temp directory cannot be empty")
    else Pass
  }

  /** `Validate` passes exactly on the well-formed configurations, and then every one of
      the seventeen conditions holds. */
  lemma ValidateAccepts(c: Config)
    ensures Validate(c).Pass? <==> WellFormed(c)
    ensures Validate(c).Pass? <==> forall i :: 0 <= i < ConditionCount ==> Condition(c, i)
  {
    if forall i :: 0 <= i < ConditionCount ==> Condition(c, i) {
      AllConditions(c);
    }
  }

  /** When all seventeen conditions hold, `Validate` passes. */
  lemma AllConditions(c: Config)
    requires forall i :: 0 <= i < ConditionCount ==> Condition(c, i)
    ensures Validate(c).Pass?
  {
    assert Condition(c, 0) && Condition(c, 1) && Condition(c, 2) && Condition(c, 3);
    assert Condition(c, 4) && Condition(c, 5) && Condition(c, 6) && Condition(c, 7);
    assert Condition(c, 8) && Condition(c, 9) && Condition(c, 10) && Condition(c, 11);
    assert Condition(c, 12) && Condition(c, 13) && Condition(c, 14) && Condition(c, 15);
    assert Condition(c, 16);
  }

  /** The error returned is that of the first condition that fails. */
  lemma ValidateReportsFirst(c: Config, k: nat)
    requires k < ConditionCount && !Condition(c, k)
    requires forall j :: 0 <= j < k ==> Condition(c, j)
    ensures Validate(c) == Fail(Messages[k])
  {
    if k > 0 { assert Condition(c, 0); }
    if k > 1 { assert Condition(c, 1); }
    if k > 2 { assert Condition(c, 2); }
    if k > 3 { assert Condition(c, 3); }
    if k > 4 { assert Condition(c, 4); }
    if k > 5 { assert Condition(c, 5); }
    if k > 6 { assert Condition(c, 6); }
    if k > 7 { assert Condition(c, 7); }
    if k > 8 { assert Condition(c, 8); }
    if k > 9 { assert Condition(c, 9); }
    if k > 10 { assert Condition(c, 10); }
    if k > 11 { assert Condition(c, 11); }
    if k > 12 { assert Condition(c, 12); }
    if k > 13 { assert Condition(c, 13); }
    if k > 14 { assert Condition(c, 14); }
    if k > 15 { assert Condition(c, 15); }
  }

  /** CRF is accepted exactly on 0..51, when every earlier condition holds. */
  lemma CrfRange(c: Config)
    requires forall j :: 0 <= j < 10 ==> Condition(c, j)
    ensures Validate(c) == Fail("FFmpeg CRF must be between 0 and 51") <==> c.ffmpeg.crf < 0 || c.ffmpeg.crf > 51
  {
    if c.ffmpeg.crf < 0 || c.ffmpeg.crf > 51 {
      ValidateReportsFirst(c, 10);
    } else {
      assert Condition(c, 0) && Condition(c, 1) && Condition(c, 2) && Condition(c, 3) && Condition(c, 4);
      assert Condition(c, 5) && Condition(c, 6) && Condition(c, 7) && Condition(c, 8) && Condition(c, 9);
    }
  }

  /** Validation never reads the port or the four object prefixes. */
  lemma ValidateIgnoresPortAndPrefixes(c: Config, port: string, o: string, h: string, m: string, t: string)
    ensures Validate(c.(port := port, minio := c.minio.(originalPrefix := o, hlsPrefix := h, mp4Prefix := m, thumbnailPrefix := t)))
         == Validate(c)
  {
  }

  /** The defaults pass validation, and every default quality is one the encoder accepts. */
  lemma DefaultsValid()
    ensures Validate(Defaults) == Pass
    ensures FFmpeg.ParseQualities(Defaults.ffmpeg.outputQualities).Ok?
  {
    FFmpeg.ParseQualitiesMeaning(Defaults.ffmpeg.outputQualities);
    FFmpeg.CatalogKbps();
  }
}
