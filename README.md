# youtube-clone-platform, modelled in Dafny

This project models the deterministic core of a video platform built from Go services:

- an API gateway that routes requests to the other services through reverse proxies;
- an upload service that validates a video, stores it in MinIO and announces it on Kafka;
- a transcoder that builds a quality ladder, encodes HLS and MP4 renditions with ffmpeg, uploads them and reports completion;
- a streaming service that finds the stored renditions and hands out presigned URLs;
- a metadata service that keeps the video records and de-duplicated view counts.

Everything these services ask of the outside world becomes a parameter whose answer is given: MinIO, Kafka, SQL, ffmpeg and ffprobe, presigning, JWT checking, MIME sniffing, clocks, UUIDs and Go's map iteration order. A bucket is a set of existing keys. A Go map that the code ranges over comes with a sequence that lists its keys in the order the range visits them.

Each Go file of the core has one Dafny module:

| module | file | Go source |
|---|---|---|
| `QualityLadder` | `ladder.dfy` | the quality catalogue and `getQualityLevels` of `transcoder/ffmpeg.go` |
| `Playlists` | `m3u8.dfy` | the HLS playlist text (section 4.3.4.2 of RFC 8216, `EXT-X-STREAM-INF`) |
| `FFmpeg` | `ffmpeg.dfy` | `transcoder/ffmpeg.go`: quality parsing, argument vectors, the HLS and MP4 loops |
| `LegacyTranscoder` | `legacy.dfy` | `transcoder/transcoder.go`, including `NewTranscoder` |
| `TranscoderJobs` | `dispatcher.dfy` | `service/transcoder.go`: the job table and `processVideo` |
| `TranscoderHealth` | `health.dfy` | `handler/health.go` and the start-up check in `cmd/main.go` |
| `TranscoderConfig` | `config.dfy` | `config/config.go`: `Validate`, the defaults and `JOB_TIMEOUT` |
| `TranscoderStorage` | `tstorage.dfy` | the transcoder's `storage/minio.go` |
| `StreamingStorage` | `streaming.dfy` | the streaming service's `storage/minio.go` |
| `UploadValidation` | `upload_validation.dfy` | `validation/validation.go` |
| `MetadataExtractor` | `extractor.dfy` | `metadata/extractor.go` |
| `UploadStorage` | `upload_storage.dfy` | the upload service's `storage/minio.go` |
| `UploadService` | `upload_service.dfy` | `service/service.go` |
| `MetadataService` | `metadata_service.dfy` | the metadata service's `service/metadata.go` |
| `GatewayRouter` | `router.dfy` | `route/router.go` |
| `RouteDefinitions` | `definitions.dfy` | `route/definitions.go` |
| `GatewayProxy` | `proxy.dfy` | `proxy/proxy.go` |
| `UnifiedProxy` | `unified_proxy.dfy` | `proxy/unified_proxy.go` |
| `Gateway` | `gateway.dfy` | `service/gateway.go` |
| `CrossService` | `cross_service.dfy` | lemmas relating one service's object keys to another's lookups |

The helper modules are:

- `Results`: `Option`, `Result`, `Outcome` and the first-failure index of a sequence of outcomes;
- `Strings`: decimal text, splitting, joining, trimming, lower-casing and replacing;
- `Paths`: `path.Join`, `path.Ext`, `path.Base` and `path.Dir`;
- `Headers`: `http.Header` with `Add`, `Set`, `Get` and the copy loop;
- `ProxyRequests`: the incoming request and the outgoing request a director edits.

State that the Go code updates in place is modelled by classes:

- the transcoder's job table (`TranscoderJobs.TranscoderService`);
- the gateway's router and service configurations (`GatewayRouter.RouterConfig`, `GatewayRouter.ServiceConfig`);
- the request a proxy director rewrites (`ProxyRequests.Outgoing`);
- the metadata service's view store (`MetadataService.ViewStore`).

Loops in the source are methods with loop invariants, and each is proved equal to a specification function. Examples are the ladder filter, the encode loops, the directory walks, the fallback lookups, the M3U8 rewrite, the header copy and route registration.

## Model

| member | source | states |
|---|---|---|
| TranscoderConfig.JobTimeout | transcoder-service/internal/config/config.go:100-104 | a `JOB_TIMEOUT` that parses is kept; one that does not parse falls back to 30 minutes |
| TranscoderConfig.ValidateAccepts | transcoder-service/internal/config/config.go:143-213 | `Validate` passes iff the configuration is well formed field by field, iff all seventeen conditions hold |
| TranscoderConfig.AllConditions | transcoder-service/internal/config/config.go:143-213 | when every one of the seventeen conditions holds, `Validate` returns nil |
| TranscoderConfig.ValidateReportsFirst | transcoder-service/internal/config/config.go:144-210 | when condition `k` is the first to fail, `Validate` returns exactly the `k`-th error message |
| TranscoderConfig.CrfRange | transcoder-service/internal/config/config.go:184-186 | with every earlier condition holding, the CRF error is reported iff CRF lies outside 0..51 |
| TranscoderConfig.ValidateIgnoresPortAndPrefixes | transcoder-service/internal/config/config.go:143-213 | changing the port or any of the four MinIO prefixes never changes the verdict of `Validate` |
| TranscoderConfig.DefaultsValid | transcoder-service/internal/config/config.go:72-95 | the default configuration passes `Validate` and every default output quality is accepted by the encoder's quality parser |
| TranscoderJobs.SourceExtension | transcoder-service/internal/service/transcoder.go:119-125 | the extension is one of `.mp4`, `.webm`, `.mov`; `.webm` iff the content type is `video/webm`, `.mov` iff it is `video/quicktime` |
| TranscoderJobs.StageOutcomes | transcoder-service/internal/service/transcoder.go:111-198 | one outcome per stage of `processVideo`, in the order the stages run, each on the arguments the code passes |
| TranscoderJobs.Stopped | transcoder-service/internal/service/transcoder.go:114-179 | a run stopped before publishing returns its error and offers no event |
| TranscoderJobs.NewTranscoderService | transcoder-service/internal/service/transcoder.go:30-53 | a failed `MkdirAll` of the work directory builds no service and yields the panic message "failed to create temp directory: " with its error; otherwise a fresh service with an empty job table, its job limit and work directory |
| TranscoderJobs.TranscoderService.constructor | transcoder-service/internal/service/transcoder.go:43-52 | a new service has an empty job table, nothing cancelled, and keeps its job limit and work directory |
| TranscoderJobs.TranscoderService.HandleVideoUpload | transcoder-service/internal/service/transcoder.go:76-108 | a video already in the table is refused with "job already exists for video <id>" first; else a full table is refused with "maximum number of concurrent jobs reached"; else exactly that video enters the table with its cancel, and the table never exceeds the limit |
| TranscoderJobs.TranscoderService.Complete | transcoder-service/internal/service/transcoder.go:96-100 | the job's entry is deleted, no other entry changes, and no cancel function is called |
| TranscoderJobs.TranscoderService.Stop | transcoder-service/internal/service/transcoder.go:63-73 | every stored cancel is called, the table is left as it was, and the consumer and producer are closed |
| TranscoderJobs.TranscoderService.Consume | transcoder-service/internal/events/consumer.go:117-147 | the table after the loop is exactly the admission rule of `handleVideoUpload` applied to each event in turn, a refused event being skipped |
| TranscoderJobs.ConsumeAdmission | transcoder-service/internal/events/consumer.go:117-147 | after offering the events in turn: running jobs keep their entries, each new entry is an offered event with its own cancel, an event missing from the table met a table already full when it was offered, and the bound is kept |
| TranscoderJobs.TranscoderService.ProcessVideo | transcoder-service/internal/service/transcoder.go:111-198 | the stages run in order up to the first failure, whose wrapped error is returned; the completion event is offered only when every earlier stage passed; the work directory is removed once created |
| TranscoderJobs.TranscoderService.MakeOutputDirs | transcoder-service/internal/service/transcoder.go:137-145 | the two output directories are created in order, the same report as `processVideo` from that point |
| TranscoderJobs.TranscoderService.Encode | transcoder-service/internal/service/transcoder.go:147-161 | HLS, MP4 and thumbnail encodes run in order, stopping at the first failure |
| TranscoderJobs.TranscoderService.Upload | transcoder-service/internal/service/transcoder.go:163-197 | the uploads and the publish run in order, stopping at the first failure; the event carries the upload results |
| TranscoderJobs.TranscoderService.RunJob | transcoder-service/internal/service/transcoder.go:95-105 | the job goroutine: whatever the pipeline returns, the entry is deleted afterwards and nothing is cancelled |
| TranscoderJobs.OfferedEvent | transcoder-service/internal/service/transcoder.go:181-193 | an event is offered iff the ten stages before publishing passed; it copies VideoID, UserID and Title, carries the HLS and thumbnail upload results, `Join(mp4Prefix, videoID)` and status "completed" |
| TranscoderJobs.SuccessMeansAllStages | transcoder-service/internal/service/transcoder.go:111-198 | `processVideo` returns nil iff every stage passed, and then all eleven ran and the event was offered |
| TranscoderJobs.StoppedReports | transcoder-service/internal/service/transcoder.go:114-195 | the first failing stage ends the run with that stage's own wrapped error and no later stage runs |
| TranscoderJobs.FirstFailurePastAll | transcoder-service/internal/service/transcoder.go:111-198 | when the first `k` stages pass, the first failure is at `k` or later |
| TranscoderJobs.DownloadTargetLayout | transcoder-service/internal/service/transcoder.go:113-128 | the download target is `<tempDir>/<videoID>/original<ext>`; its extension is the one chosen from the content type and its directory's base is the video ID |
| MetadataExtractor.GreatestCommonDivisor | video-upload-service/internal/metadata/extractor.go:267-272 | on non-negative inputs the loop `a, b = b, a % b` (Go's truncating `%`) ends with the gcd of the inputs |
| MetadataExtractor.GcdDivides | video-upload-service/internal/metadata/extractor.go:267-272 | unless both inputs are zero, the gcd is positive and divides both |
| MetadataExtractor.GcdGreatest | video-upload-service/internal/metadata/extractor.go:267-272 | every common divisor of the inputs divides the gcd |
| MetadataExtractor.CoprimeParts | video-upload-service/internal/metadata/extractor.go:177-179 | dividing positive width and height by their gcd is exact and leaves coprime parts |
| MetadataExtractor.AspectRatio | video-upload-service/internal/metadata/extractor.go:174-183 | ffprobe's display ratio is kept when given; without it, a non-positive width or height gives "unknown" |
| MetadataExtractor.AspectRatioReduced | video-upload-service/internal/metadata/extractor.go:177-179 | for positive dimensions the derived ratio is `x:y` with `x`, `y` positive, coprime and in the video's proportions |
| MetadataExtractor.FirstOfKind | video-upload-service/internal/metadata/extractor.go:128-137 | the position found is of the requested kind and no earlier stream is |
| MetadataExtractor.SelectStreams | video-upload-service/internal/metadata/extractor.go:128-137 | the loop finds the first video stream and the first audio stream |
| MetadataExtractor.PickIsFirst | video-upload-service/internal/metadata/extractor.go:128-141 | nothing is picked iff no stream has the kind; a picked stream has the kind and no stream before it does |
| MetadataExtractor.AudioFields | video-upload-service/internal/metadata/extractor.go:193-203 | without an audio stream the audio fields are 0, 0 and ""; with one, channels and codec are copied and an unparsable bit rate reads 0 |
| MetadataExtractor.ContentTypeByCodec | video-upload-service/internal/metadata/extractor.go:250-264 | the codec fallback is `video/webm` exactly for vp8 and vp9, and `video/mp4` for everything else |
| MetadataExtractor.FirstContained | video-upload-service/internal/metadata/extractor.go:243-248 | the key found is the first in visiting order that the format name contains |
| MetadataExtractor.ContentTypeObeysRule | video-upload-service/internal/metadata/extractor.go:230-265 | whatever order the format map is visited in, the type is that of some key the lower-cased format contains, or the codec fallback when it contains none; it is one of the five MIME types |
| MetadataExtractor.StripExt | video-upload-service/internal/metadata/extractor.go:277 | the stem followed by the extension is the file name again |
| MetadataExtractor.Underscored | video-upload-service/internal/metadata/extractor.go:280 | the length is kept and no space remains |
| MetadataExtractor.KeepNameChars | video-upload-service/internal/metadata/extractor.go:283-284 | the result is no longer than its input and holds only ASCII letters, digits, `_` and `-` |
| MetadataExtractor.SanitizeFilename | video-upload-service/internal/metadata/extractor.go:275-293 | the result ends in `_` followed by the timestamp |
| MetadataExtractor.SanitizedStemClean | video-upload-service/internal/metadata/extractor.go:275-287 | the sanitised stem is drawn from `[a-z0-9_-]` and is no longer than the stem |
| MetadataExtractor.KeepsClean | video-upload-service/internal/metadata/extractor.go:283-284 | a string already of lower-case name characters is left as it is |
| MetadataExtractor.CleanStemKept | video-upload-service/internal/metadata/extractor.go:275-287 | a stem already in `[a-z0-9_-]` comes through unchanged |
| MetadataExtractor.ExtractOnce | video-upload-service/internal/metadata/extractor.go:94-228 | succeeds iff ffprobe's output parsed, has a video stream, a parsable duration and size, and the checksum ran; a probe error is returned as it is; then "no video stream found in file", "invalid duration: ", "invalid file size: " and "failed to calculate checksum: " in that order; on success duration, size and checksum are the parsed values, the bit rate defaults to 0, format, codec, size and frame rate come from the first video stream and the format, audio from the first audio stream, the content type is `determineContentType`'s, created-at is the clock, and the name, extension and sanitised name come from the path |
| MetadataExtractor.ExtractMetadata | video-upload-service/internal/metadata/extractor.go:78-92 | at most three attempts, stopping at the first success, which is returned; after three failures the error is "failed after 3 attempts: " and the last error |
| FFmpeg.ParseQuality | transcoder-service/internal/transcoder/ffmpeg.go:61-76 | accepts exactly `1080p`, `720p`, `480p`, `360p` and `240p`, keeping the name; anything else is the error "unknown quality: <q>" |
| FFmpeg.ParseKbps | transcoder-service/internal/transcoder/ffmpeg.go:162-163 | a value read back from kbit/s text ends in `k` |
| FFmpeg.KbpsRoundTrip | transcoder-service/internal/transcoder/ffmpeg.go:162-163 | the `%dk` text of a bit rate reads back as the same number |
| FFmpeg.ParseQualityMatchesCatalog | transcoder-service/internal/transcoder/ffmpeg.go:61-76 | of the catalogue rungs exactly `4k` is refused; every other rung parses to its own name, dimensions and `%dk` bit rate |
| FFmpeg.CatalogKbps | transcoder-service/internal/transcoder/ffmpeg.go:64-72 | the kbit/s text of the five accepted qualities is "5000k", "2800k", "1400k", "800k" and "400k" |
| FFmpeg.CheckQuality | transcoder-service/internal/transcoder/ffmpeg.go:41-44 | one configured name passes iff it parses, and otherwise fails with the parser's error |
| FFmpeg.ParseQualities | transcoder-service/internal/transcoder/ffmpeg.go:39-46 | a successful parse has one quality per configured name |
| FFmpeg.ParseQualitiesMeaning | transcoder-service/internal/transcoder/ffmpeg.go:39-46 | parsing succeeds iff every name is known, keeping every name in order; otherwise it fails with the error of the first unknown name |
| FFmpeg.NewFFmpegGoImpl | transcoder-service/internal/transcoder/ffmpeg.go:37-58 | construction fails iff some configured quality is unknown, with that error; otherwise every setting is kept and the qualities are the parsed list, same length and order |
| FFmpeg.OptionValueAppend | transcoder-service/internal/transcoder/ffmpeg.go:157-177 | how ffmpeg reads a flag from a command line made of whole flag/value pairs followed by more arguments |
| FFmpeg.OptionValueAt | transcoder-service/internal/transcoder/ffmpeg.go:157-177 | a flag at a pair position, not given earlier, is read with the value after it |
| FFmpeg.OptionValueAbsent | transcoder-service/internal/transcoder/ffmpeg.go:157-177 | a flag at no pair position is not read |
| FFmpeg.OptionValueParts | transcoder-service/internal/transcoder/ffmpeg.go:157-177 | reading across consecutive parts of a command line |
| FFmpeg.SourceArgsReads | transcoder-service/internal/transcoder/ffmpeg.go:158-161 | the input options set `-i` to the input path and none of the later flags |
| FFmpeg.RateArgsReads | transcoder-service/internal/transcoder/ffmpeg.go:162-164 | `-maxrate` is the rung's bit rate in kbit/s, `-bufsize` twice that, `-vf` is `scale=W:H` |
| FFmpeg.RateArgsLack | transcoder-service/internal/transcoder/ffmpeg.go:162-164 | the rate options set no other flag |
| FFmpeg.AudioArgsLack | transcoder-service/internal/transcoder/ffmpeg.go:165-168 | the audio options set no flag but the four audio ones |
| FFmpeg.HlsFormatArgsReads | transcoder-service/internal/transcoder/ffmpeg.go:169-175 | `-hls_time` is the segment length and `-hls_segment_filename` is `<qualityDir>/segment_%03d.ts` |
| FFmpeg.EncodeArgsReads | transcoder-service/internal/transcoder/ffmpeg.go:157-168 | whatever follows, the source, rate and audio options fix the input, rates and scale ffmpeg reads |
| FFmpeg.MuxerArgReads | transcoder-service/internal/transcoder/ffmpeg.go:169-175 | a muxer flag is read from the muxer options, not from the options before them |
| FFmpeg.HlsCommandReads | transcoder-service/internal/transcoder/ffmpeg.go:157-177 | the HLS command reads the input, `-maxrate`, `-bufsize` twice it, `scale=W:H`, the segment length, `<qualityDir>/segment_%03d.ts`, and ends with `<qualityDir>/playlist.m3u8` |
| FFmpeg.Mp4CommandReads | transcoder-service/internal/transcoder/ffmpeg.go:250-269 | the MP4 command reads the input, the rates, the scale and `+faststart`, and ends with `<mp4Dir>/<name>.mp4` |
| FFmpeg.BufsizeTwiceMaxrate | transcoder-service/internal/transcoder/ffmpeg.go:162-163 | the buffer size ffmpeg reads is twice the maximum rate it reads, both in kbit/s |
| FFmpeg.VariantFiles | transcoder-service/internal/transcoder/ffmpeg.go:142-154 | one media playlist per rung given, rung i's at index i |
| FFmpeg.WrittenPlaylists | transcoder-service/internal/transcoder/ffmpeg.go:133-154 | a loop stopped after `done` good rungs wrote their playlists in order, plus that of the rung it stopped at exactly when that rung's file was made |
| FFmpeg.ProcessOutcome | transcoder-service/internal/transcoder/ffmpeg.go:182-214 | a process passes iff it exited cleanly; otherwise "failed to create progress pipe: ", "failed to start ffmpeg: " or "failed to transcode video: " with its error |
| FFmpeg.HlsRungOutcome | transcoder-service/internal/transcoder/ffmpeg.go:136-216 | a rung passes iff its directory and playlist file are made and its process exits cleanly; "failed to create quality directory: " and "failed to create playlist: " come before any process error |
| FFmpeg.StartFailureReported | transcoder-service/internal/transcoder/ffmpeg.go:191-194 | a process that cannot start, as with a missing binary, ends the loop at the first rung with "failed to start ffmpeg: " |
| FFmpeg.TranscodeToHLS | transcoder-service/internal/transcoder/ffmpeg.go:99-225 | a failed log-file set-up, output directory or master playlist file returns "failed to setup logging: ", "failed to create output directory: " or "failed to create master playlist: " before any rung; otherwise, over the ladder of the input size, passes iff every rung passes and fails with the first failing rung's own error, which is the last rung reached; the master playlist lists exactly the rungs before it; the media playlists written are those of the rungs whose files were made |
| FFmpeg.Appended | transcoder-service/internal/transcoder/ffmpeg.go:128-220 | an appended text starts with its header |
| FFmpeg.AppendedOf | transcoder-service/internal/transcoder/ffmpeg.go:128-220 | a text grown by one entry per rung is the header followed by the entries |
| FFmpeg.MasterPlaylistAppended | transcoder-service/internal/transcoder/ffmpeg.go:128-220 | the master playlist is its header followed by one entry per rung, in order |
| FFmpeg.EncodeHls | transcoder-service/internal/transcoder/ffmpeg.go:133-221 | the HLS loop: stops at the first rung whose directory, playlist file or process fails, with that error; the master text gains an entry only after a run succeeds; a rung's playlist is written before its process starts |
| FFmpeg.MasterEntryText | transcoder-service/internal/transcoder/ffmpeg.go:219-220 | an entry is `#EXT-X-STREAM-INF:BANDWIDTH=<bitrate*1000>,RESOLUTION=<W>x<H>` and `<name>/playlist.m3u8`, each ending in a newline |
| FFmpeg.TranscodeToMP4 | transcoder-service/internal/transcoder/ffmpeg.go:228-314 | a failed log-file set-up or MP4 directory returns "failed to setup logging: " or "failed to create MP4 directory: " before any rung; otherwise, over the ladder into `<outputDir>/mp4`, passes iff every process exits cleanly and fails with the first failing process's error, no later rung being reached |
| FFmpeg.EncodeMp4 | transcoder-service/internal/transcoder/ffmpeg.go:249-308 | the MP4 loop stops at the first process whose pipe, start or wait fails, with that error, and reaches exactly the rungs up to it |
| QualityLadder.GetQualityLevels | transcoder-service/internal/transcoder/ffmpeg.go:317-349 | the selection loop returns the ladder of the input size, which always has at least two rungs |
| QualityLadder.FilterFitsMembers | transcoder-service/internal/transcoder/ffmpeg.go:329-334 | a rung survives the filter iff it is in the list and no wider and no taller than the input |
| QualityLadder.FilteredIsCatalogSuffix | transcoder-service/internal/transcoder/ffmpeg.go:319-334 | before the floor the ladder is the catalogue from its largest fitting rung on, in catalogue (descending) order |
| QualityLadder.FilterThreshold | transcoder-service/internal/transcoder/ffmpeg.go:329-334 | when the fitting rungs are exactly a suffix, the filter keeps that suffix |
| QualityLadder.FirstFit | transcoder-service/internal/transcoder/ffmpeg.go:319-334 | the index of the largest fitting rung: no rung before it fits and every rung from it on does |
| QualityLadder.LadderAtLeastTwo | transcoder-service/internal/transcoder/ffmpeg.go:336-346 | every input gets at least two rungs |
| QualityLadder.FloorExactly | transcoder-service/internal/transcoder/ffmpeg.go:336-346 | the floor fires iff 360p does not fit, and then the ladder is exactly `[240p, 360p]`; otherwise it is the filtered list |
| QualityLadder.LadderMembersWithoutFloor | transcoder-service/internal/transcoder/ffmpeg.go:329-334 | when 360p fits, a rung is on the ladder iff it is a catalogue rung that fits |
| QualityLadder.LadderDistinct | transcoder-service/internal/transcoder/ffmpeg.go:319-346 | at most six rungs, no rung name repeated, strictly decreasing widths when the floor does not fire |
| QualityLadder.CatalogSuffixDistinct | transcoder-service/internal/transcoder/ffmpeg.go:319-326 | every suffix of the catalogue has distinct names and strictly decreasing widths |
| QualityLadder.FilterMonotone | transcoder-service/internal/transcoder/ffmpeg.go:329-334 | a larger input keeps every rung a smaller one gets before the floor |
| QualityLadder.FilteredFitInput | transcoder-service/internal/transcoder/ffmpeg.go:329-334 | every rung kept by the filter is no wider and no taller than the input, so a portrait input is capped by its width |
| QualityLadder.PortraitExample | transcoder-service/internal/transcoder/ffmpeg.go:319-346 | a 1080x1920 portrait input gets exactly 480p, 360p and 240p |
| Playlists.MasterHeaderText | transcoder-service/internal/transcoder/ffmpeg.go:129-130 | the master playlist of no rungs is exactly `#EXTM3U\n#EXT-X-VERSION:3\n` |
| Playlists.MasterPlaylistSnoc | transcoder-service/internal/transcoder/ffmpeg.go:218-220 | listing one more rung appends exactly that rung's entry |
| Playlists.AllEntryLinesAt | transcoder-service/internal/transcoder/ffmpeg.go:219-220 | entry line `2i` is rung `i`'s stream line and line `2i+1` its playlist URI |
| Playlists.StreamInfSingleLine | transcoder-service/internal/transcoder/ffmpeg.go:219 | a stream line holds no line break |
| Playlists.EntryLinesSingle | transcoder-service/internal/transcoder/ffmpeg.go:219-220 | neither line of an entry holds a line break when the rung name has none |
| Playlists.AllEntryLinesSingle | transcoder-service/internal/transcoder/ffmpeg.go:219-220 | no entry line holds a line break |
| Playlists.MasterPlaylistLines | transcoder-service/internal/transcoder/ffmpeg.go:128-220 | split on line breaks, the master playlist is the two header lines, the entry lines in rung order, and a final empty line |
| Playlists.ParseStreamInf | transcoder-service/internal/transcoder/ffmpeg.go:219 | a line read as a stream line starts with `#EXT-X-STREAM-INF:BANDWIDTH=` (section 4.3.4.2 of RFC 8216) |
| Playlists.StreamInfLayout | transcoder-service/internal/transcoder/ffmpeg.go:219 | after its tag a stream line is the bandwidth, a comma and `RESOLUTION=<W>x<H>` |
| Playlists.ResolutionRoundTrip | transcoder-service/internal/transcoder/ffmpeg.go:219 | the resolution attribute reads back to its width and height |
| Playlists.StreamInfRoundTrip | transcoder-service/internal/transcoder/ffmpeg.go:219 | every stream line written for non-negative values reads back to those values |
| Playlists.MasterPlaylistReadBack | transcoder-service/internal/transcoder/ffmpeg.go:128-220 | each listed rung reads back from its master playlist: bandwidth `bitrate*1000`, its resolution, and `<name>/playlist.m3u8` on the next line |
| Playlists.StreamLineOfMaster | transcoder-service/internal/transcoder/ffmpeg.go:219 | line `2i+2` of the master playlist is rung `i`'s stream line |
| Playlists.UriLineOfMaster | transcoder-service/internal/transcoder/ffmpeg.go:220 | line `2i+3` of the master playlist is `<name>/playlist.m3u8` of rung `i` |
| Playlists.VariantHeaderTargetDuration | transcoder-service/internal/transcoder/ffmpeg.go:151-154 | the media playlist header is four lines and its third declares the configured target duration, which reads back |
| LegacyTranscoder.NewTranscoder | transcoder-service/internal/transcoder/transcoder.go:51-71 | always the live encoder's constructor with every argument forwarded in order: it fails iff some quality name is unknown, with that error, and otherwise keeps every setting |
| LegacyTranscoder.GetQualityLevels | transcoder-service/internal/transcoder/transcoder.go:74-106 | the legacy method returns the same ladder as the package-level selection for every input size |
| LegacyTranscoder.BuildMaster | transcoder-service/internal/transcoder/transcoder.go:113-117 | the master text built up front is the header followed by the entry of every rung |
| LegacyTranscoder.LegacyHlsFormatArgsReads | transcoder-service/internal/transcoder/transcoder.go:149-152 | `-hls_time` is the segment length and `-hls_segment_filename` is `<qualityDir>/segment_%03d.ts` |
| LegacyTranscoder.LegacyHlsCommandReads | transcoder-service/internal/transcoder/transcoder.go:137-155 | the legacy HLS command reads the input, `-maxrate`, `-bufsize` twice it, `scale=W:H`, the segment settings, and ends with the rung's playlist |
| LegacyTranscoder.LegacyMp4CommandReads | transcoder-service/internal/transcoder/transcoder.go:178-196 | the legacy MP4 command reads the input, the rates, the scale and `+faststart`, and ends with `<mp4Dir>/<name>.mp4` |
| LegacyTranscoder.FailedRun | transcoder-service/internal/transcoder/transcoder.go:158-160 | a failed run's error starts with "ffmpeg failed: " and ends with the command's combined output |
| LegacyTranscoder.LegacyHlsRungOutcome | transcoder-service/internal/transcoder/transcoder.go:124-161 | a rung passes iff its directory is made, its playlist written and ffmpeg passes; "failed to create quality directory: " and "failed to create quality playlist: " come first, then "ffmpeg failed: " with the output |
| LegacyTranscoder.TranscodeToHLS | transcoder-service/internal/transcoder/transcoder.go:109-164 | a failed write of the master returns "failed to create master playlist: " before any rung; otherwise the master lists every rung whatever happens later, the run passes iff every rung passes, the first failing rung ends it with its own error, and each rung whose files were made got the media header `#EXTM3U`, `#EXT-X-VERSION:3`, `#EXT-X-TARGETDURATION:<segmentLength>`, `#EXT-X-MEDIA-SEQUENCE:0` |
| LegacyTranscoder.EncodeLegacyHls | transcoder-service/internal/transcoder/transcoder.go:124-161 | the legacy HLS loop stops at the first rung whose directory, playlist write or ffmpeg run fails, with that error; the rungs up to it are the ones reached and their playlists those written |
| LegacyTranscoder.TranscodeToMP4 | transcoder-service/internal/transcoder/transcoder.go:167-205 | a failed MP4 directory returns "failed to create MP4 directory: " before any rung; otherwise passes iff every run passes, the first failure ending the loop with its error and output and no later rung reached |
| LegacyTranscoder.EncodeLegacyMp4 | transcoder-service/internal/transcoder/transcoder.go:177-202 | the legacy MP4 loop stops at the first failed run |
| LegacyTranscoder.ThumbnailArgsReads | transcoder-service/internal/transcoder/transcoder.go:209-216 | the thumbnail command reads the input, a fixed seek of `00:00:05`, a single frame, and ends with the output path |
| LegacyTranscoder.GenerateThumbnail | transcoder-service/internal/transcoder/transcoder.go:208-224 | passes iff the one ffmpeg run passes, and otherwise fails with its error and output |
| LegacyTranscoder.AppendedPrefix | transcoder-service/internal/transcoder/transcoder.go:113-117 | the text of a prefix of the rungs is a prefix of the text of all of them |
| LegacyTranscoder.AppendedLonger | transcoder-service/internal/transcoder/transcoder.go:113-117 | with non-empty entries, a strict prefix of the rungs gives a strictly shorter text |
| LegacyTranscoder.LiveMasterIsPrefixOfLegacy | transcoder-service/internal/transcoder/transcoder.go:113-121 | when an encode fails at rung `n`, the live master (rungs before `n`) is a strict prefix of the legacy master, which lists them all |
| LegacyTranscoder.MasterEntryNonEmpty | transcoder-service/internal/transcoder/transcoder.go:115-116 | every master entry adds text |
| TranscoderHealth.CheckKafka | transcoder-service/internal/handler/health.go:83-110 | passes iff dialling the first broker and creating the topic with three partitions and replication 1 both pass; a failed dial gives "failed to connect to Kafka: " and its error |
| TranscoderHealth.DependencyState | transcoder-service/internal/handler/health.go:49-63 | a dependency reads "ok" iff its probe passed, and otherwise "error: " followed by the probe's error |
| TranscoderHealth.RunHealthCheck | transcoder-service/internal/handler/health.go:40-67 | status is "ok" iff both probes pass and "degraded" otherwise; the dependencies are exactly "minio" and "kafka", each with its own probe's state, so both probes always run; timestamp and version "1.0.0" are reported |
| TranscoderHealth.HandleHealthCheck | transcoder-service/internal/handler/health.go:70-73 | the answer is always HTTP 200, whatever the status |
| TranscoderHealth.InitialHealthCheck | transcoder-service/cmd/main.go:113-123 | the service starts iff the raw bucket exists, the broker dials and the topic is created |
| TranscoderStorage.DownloadVideo | transcoder-service/internal/storage/minio.go:68-98 | passes iff the directory and file are created and the original at `<originalPrefix>/<videoID><ext>` is fetched from the raw bucket and copied; the first failing step gives its own message: "failed to create directory: ", "failed to create local file: ", "failed to get object from MinIO: " or "failed to copy object to local file: " |
| TranscoderStorage.HlsContentType | transcoder-service/internal/storage/minio.go:138-144 | `.m3u8` iff `application/vnd.apple.mpegurl`, `.ts` iff `video/mp2t`, anything else `application/octet-stream` |
| TranscoderStorage.Walk | transcoder-service/internal/storage/minio.go:106-155 | the files are uploaded in walk order up to and including the first failed upload, and no further |
| TranscoderStorage.UploadHLSFiles | transcoder-service/internal/storage/minio.go:101-162 | every file goes to the processed bucket at `Join(<hlsPrefix>/<videoID>, relPath)` with its content type; succeeds iff every upload does, returning `<hlsPrefix>/<videoID>`; otherwise the first failure's wrapped error, with no later upload |
| TranscoderStorage.UploadMP4Files | transcoder-service/internal/storage/minio.go:170-195 | every file goes to the processed bucket at `<mp4Prefix>/<videoID>/<relPath>` as `video/mp4`; the first failure ends the walk with "failed to upload MP4 file <relPath>: " and its error |
| TranscoderStorage.UploadThumbnail | transcoder-service/internal/storage/minio.go:198-225 | succeeds iff open, stat and the `image/jpeg` upload to `<thumbnailPrefix>/<videoID><ext>` pass, and then returns that key |
| TranscoderStorage.CheckHealth | transcoder-service/internal/storage/minio.go:228-238 | passes iff the bucket query succeeds and reports the raw bucket existing; a missing bucket gives "bucket '<name>' does not exist" |
| TranscoderStorage.Mp4KeyIsJoin | transcoder-service/internal/storage/minio.go:185 | the spelled-out MP4 key is the path join of prefix, video ID and relative path |
| TranscoderStorage.HlsPlaylistType | transcoder-service/internal/storage/minio.go:138-144 | an encoder playlist `<name>/playlist.m3u8` is uploaded as `application/vnd.apple.mpegurl` |
| TranscoderStorage.PlaylistByExt | transcoder-service/internal/storage/minio.go:140-141 | any `.m3u8` path is uploaded as a playlist |
| TranscoderStorage.HlsSegmentType | transcoder-service/internal/storage/minio.go:142-143 | an encoder segment `<name>/segment_NNN.ts` is uploaded as `video/mp2t` |
| TranscoderStorage.NestedExt | transcoder-service/internal/storage/minio.go:140-143 | a file two levels below the directory keeps its own extension |
| TranscoderStorage.ThumbnailKeyOfJpeg | transcoder-service/internal/storage/minio.go:213 | the thumbnail written as `thumbnail.jpg` is stored at `<thumbnailPrefix>/<videoID>.jpg` |
| StreamingStorage.ObjectExists | streaming-service/internal/storage/minio.go:282-292 | `true` iff the stat finds the object; `false` without error iff the store answers `NoSuchKey`; any other failure is its error |
| StreamingStorage.GeneratePresignedURL | streaming-service/internal/storage/minio.go:315-322 | succeeds iff the store signs the key, with that URL; otherwise "failed to generate presigned URL: " and the store's error |
| StreamingStorage.FirstPresent | streaming-service/internal/storage/minio.go:98-108 | the index found is the first candidate that exists; no earlier one does |
| StreamingStorage.FindFirst | streaming-service/internal/storage/minio.go:302-308 | the candidate loop stops at the first key that exists, treating an errored check as absent |
| StreamingStorage.FallbackKeys | streaming-service/internal/storage/minio.go:114-117 | two single-playlist fallbacks |
| StreamingStorage.Available | streaming-service/internal/storage/minio.go:93-108 | at most one available rendition per rendition looked for |
| StreamingStorage.CollectAvailable | streaming-service/internal/storage/minio.go:98-108 | the rendition loop keeps exactly the renditions whose playlist exists, in order |
| StreamingStorage.GenerateMaster | streaming-service/internal/storage/minio.go:152-178 | the generation loop yields the generated master: header, then one line and one signed URL per rendition, or the first signing error |
| StreamingStorage.GetHLSManifest | streaming-service/internal/storage/minio.go:74-179 | a stored master is returned verbatim; else a master generated from the rendition playlists that exist; else the first single playlist that exists; else "no HLS manifest found for video ID <id>" |
| StreamingStorage.AvailableMembers | streaming-service/internal/storage/minio.go:98-108 | a rendition is available iff it is looked for and its playlist exists |
| StreamingStorage.AvailableOrder | streaming-service/internal/storage/minio.go:98-108 | available renditions keep the order in which they are looked for |
| StreamingStorage.NoFourK | streaming-service/internal/storage/minio.go:93 | a 4k rendition is never listed in a generated master |
| StreamingStorage.ManifestFallback | streaming-service/internal/storage/minio.go:112-133 | with no master and no rendition playlist, `playlist.m3u8` is read, else `index.m3u8`, and only without both is the manifest not found |
| StreamingStorage.GeneratedLines | streaming-service/internal/storage/minio.go:152-178 | the generated master succeeds iff every playlist URL is signed; then it is the two header lines and, per rendition in order, its `STREAM-INF` line and its URL, joined with "\n" |
| StreamingStorage.ManifestGenerated | streaming-service/internal/storage/minio.go:91-178 | without a stored master and with some rendition playlist, the manifest is the master generated from the available renditions |
| StreamingStorage.SegmentCandidates | streaming-service/internal/storage/minio.go:194-205 | one nested candidate per rendition, in order: the name as given when it already starts with `<res>/`, else `<res>/<name>` |
| StreamingStorage.SegmentKey | streaming-service/internal/storage/minio.go:185-216 | the direct key when it exists; else the first nested candidate that exists; else the direct key again |
| StreamingStorage.GetHLSSegment | streaming-service/internal/storage/minio.go:182-217 | a presigned URL of the chosen key; the only error is a signing failure, never "not found" |
| StreamingStorage.Mp4Defaults | streaming-service/internal/storage/minio.go:243-265 | six default keys, the last being the generic `video.mp4` |
| StreamingStorage.Mp4Candidates | streaming-service/internal/storage/minio.go:224-265 | the requested quality's key first when one is requested, then the defaults |
| StreamingStorage.LookupFirst | streaming-service/internal/storage/minio.go:243-272 | when no candidate exists the lookup fails with its not-found error |
| StreamingStorage.LookupFirstAt | streaming-service/internal/storage/minio.go:243-265 | the existing candidate with no existing one before it is the one signed |
| StreamingStorage.LookupSkip | streaming-service/internal/storage/minio.go:243-265 | a candidate that does not exist does not change the lookup |
| StreamingStorage.GetMP4URLWithQuality | streaming-service/internal/storage/minio.go:220-273 | the first existing of the requested quality, 1080p..240p and `video.mp4` is signed; none gives the not-found error |
| StreamingStorage.GetMP4URL | streaming-service/internal/storage/minio.go:277-279 | the same lookup with no requested quality |
| StreamingStorage.RequestedQualityFirst | streaming-service/internal/storage/minio.go:225-233 | an existing requested quality wins over every default |
| StreamingStorage.MissingQualityFallsBack | streaming-service/internal/storage/minio.go:233-243 | a requested quality that does not exist gives exactly the unrequested lookup |
| StreamingStorage.ThumbnailKeys | streaming-service/internal/storage/minio.go:297-300 | two thumbnail candidates |
| StreamingStorage.GetThumbnailURL | streaming-service/internal/storage/minio.go:295-312 | the first existing thumbnail key is signed; none gives "no thumbnail found for video ID <id>" |
| StreamingStorage.ThumbnailOrder | streaming-service/internal/storage/minio.go:297-311 | `<thumb>/<id>/thumbnail.jpg` is preferred, `<thumb>/<id>.jpg` is used only without it, and neither gives the not-found error |
| StreamingStorage.CheckHealth | streaming-service/internal/storage/minio.go:325-331 | passes iff the bucket query itself succeeds, even when the bucket is reported missing |
| StreamingStorage.RewrittenLine | streaming-service/internal/storage/minio.go:355-371 | a line not rewritten is kept, and a rewritten one becomes its signed URL |
| StreamingStorage.Rewritten | streaming-service/internal/storage/minio.go:355-371 | the lines after rewriting, one for one |
| StreamingStorage.RewriteLines | streaming-service/internal/storage/minio.go:355-372 | the in-place loop succeeds iff every line to rewrite is signed, giving the rewritten lines; otherwise it stops at the first signing error |
| StreamingStorage.ProcessM3U8 | streaming-service/internal/storage/minio.go:349-375 | the playlist is split on "\n", every non-`#` line naming a `.ts` segment is replaced by its signed URL, and the lines are joined again; the first signing failure gives "failed to generate signed URL for segment: " |
| StreamingStorage.RewrittenLines | streaming-service/internal/storage/minio.go:357-370 | tag lines and lines with no segment are kept; each segment line becomes the presigned URL of `<hls>/<id>/<resolution>/<line>` |
| UploadValidation.ErrorText | video-upload-service/internal/validation/validation.go:48-50 | a validation error's text starts with its field followed by `: ` |
| UploadValidation.ValidateTitle | video-upload-service/internal/validation/validation.go:53-68 | accepted iff the trimmed title is 1 to 100 characters long; a title over 100 gets the "at most" message, an empty or blank one the "at least" message |
| UploadValidation.TitleIgnoresPadding | video-upload-service/internal/validation/validation.go:54 | trimming the title first never changes the verdict |
| UploadValidation.ValidateUserID | video-upload-service/internal/validation/validation.go:71-85 | accepted iff the ID is non-empty and starts with `test_user_` or `google_`; the empty ID gets "user ID is required"; every rejection names the `user_id` field |
| UploadValidation.AnonymousRejected | video-upload-service/internal/handler/upload.go:48 | the handler's default user `anonymous` is always rejected with the prefix message |
| UploadValidation.ValidateVideoFile | video-upload-service/internal/validation/validation.go:88-144 | accepted iff the size is within 1 KiB..5 GiB, the file opens, the sniffed type starts with `video/`, the lower-cased extension is supported and the declared content type is unset, octet-stream or the extension's type; oversize is reported before undersize, and every rejection names the `file` field |
| UploadValidation.SizeBoundsInclusive | video-upload-service/internal/validation/validation.go:90-101 | exactly 1 KiB and exactly 5 GiB pass the size checks; one byte less or more fails them |
| UploadValidation.ExtensionCaseFolded | video-upload-service/internal/validation/validation.go:122-141 | `clip.MP4` with `video/mp4` is accepted, `clip.mp4` with `Video/MP4` is rejected: the extension is case-folded, the content type is not |
| UploadValidation.MaxDimension | video-upload-service/internal/validation/validation.go:208-213 | the result is one of the two arguments and at least both |
| UploadValidation.ValidateVideoMetadata | video-upload-service/internal/validation/validation.go:147-198 | accepted iff the duration is within 1..3600 s, the larger dimension within 144..4320, both dimensions positive and the codec one of the supported ones |
| UploadValidation.ZeroWidthFailsOnDimensions | video-upload-service/internal/validation/validation.go:163-183 | a 0x1080 video passes the resolution bounds and is rejected only as having invalid dimensions |
| UploadValidation.SupportedCodecs | video-upload-service/internal/validation/validation.go:36-41 | exactly `h264`, `vp8`, `vp9` and `av1` are supported, compared case-sensitively |
| UploadStorage.UploadExt | video-upload-service/internal/storage/minio.go:43-47 | the stored extension is the filename's own, or `.mp4` when it has none |
| UploadStorage.ObjectKey | video-upload-service/internal/storage/minio.go:50 | the joined key is `original/` followed by the ID and the extension |
| UploadStorage.StoredContentType | video-upload-service/internal/storage/minio.go:53-63 | a declared type other than unset or octet-stream is kept; otherwise `.webm` gives `video/webm`, `.mov`/`.qt` give `video/quicktime` and everything else `video/mp4` |
| UploadStorage.UploadVideo | video-upload-service/internal/storage/minio.go:38-81 | succeeds iff the put succeeds, returning the bare video ID; a failed put is reported with the `failed to upload video:` prefix |
| UploadStorage.UploadPutLayout | video-upload-service/internal/storage/minio.go:50-71 | the put targets the service's bucket under `original/<id><ext>`, records the original filename and never stores an empty or octet-stream content type |
| UploadStorage.UpperCaseExtensionIsMp4 | video-upload-service/internal/storage/minio.go:55-62 | with no declared type a `.MOV` file is stored as `video/mp4` |
| UploadStorage.CheckHealth | video-upload-service/internal/storage/minio.go:84-94 | healthy iff the bucket is reported to exist; a failed probe and a missing bucket get their own messages |
| UploadService.MetadataOutcome | video-upload-service/internal/service/service.go:82-100 | the copying goroutine yields metadata iff the copy, the rewind and the extraction all succeed; a failed copy is reported as a copy error, a failed rewind as a seek error |
| UploadService.Finalized | video-upload-service/internal/service/service.go:118-131 | the record always carries the original filename, its extension and its sanitised form; with extracted metadata its measurements are kept, without it only the size, the extension as format and the creation time are set |
| UploadService.Warning | video-upload-service/internal/service/service.go:113-157 | the warning is empty iff extraction and publishing both succeeded; otherwise it names the extraction failure, the publishing failure, or both joined by `; ` |
| UploadService.HandleUpload | video-upload-service/internal/service/service.go:38-160 | succeeds iff title, user ID and size pass, the temporary file is created and the store accepts the object; each earlier failure is returned with its own message in the source's order; on success the result carries the stored ID, the finalised record and the warning for the event actually published |
| UploadService.Report | video-upload-service/internal/service/service.go:144-157 | the result holds the video ID, the record and exactly the warning `Warning` defines |
| UploadService.UploadErrorPrefixedTwice | video-upload-service/internal/service/service.go:106-108 | a store failure reaches the caller with the `failed to upload video:` prefix twice |
| UploadService.FallbackFormatIsExtension | video-upload-service/internal/service/service.go:118-123 | without extracted metadata the format is the extension with its dot, and an extension-less file gets an empty format though it is stored as `.mp4` |
| UploadService.OctetStreamNotStored | video-upload-service/internal/storage/minio.go:53-63 | an upload declared `application/octet-stream`, which the event announces so, is never stored under that content type |
| MetadataService.NullIfEmpty | metadata-service/internal/service/metadata.go:86 | the nullable column is set iff the string is non-empty, and then holds it |
| MetadataService.NullIfZero | metadata-service/internal/service/metadata.go:87-88 | the nullable column is set iff the number is non-zero, and then holds it |
| MetadataService.ConvertUploadMetadata | metadata-service/internal/service/metadata.go:65-103 | the record takes ID, user and title from the event, status `processing`, path `original/<id><ext>`, no description, views, tags or rendition paths; each audio column is null exactly when its value is empty or zero and otherwise holds that value; an unparsable creation time becomes the zero time |
| MetadataService.ConvertKeepsMeasurements | metadata-service/internal/service/metadata.go:75-92 | every extracted field reaches the record unchanged: duration, width, height, format, bit rate, file size, checksum, codec, frame rate, aspect ratio, content type, original, extension and sanitised file names; audio codec, bit rate and channels as nullable columns holding the extracted value, null when it is empty or zero |
| MetadataService.CreateVideoMetadata | metadata-service/internal/service/metadata.go:106-144 | a tag list that does not marshal fails with its own message; otherwise the row inserted carries the JSON tags, always non-null, and the insert's outcome is returned |
| MetadataService.StrictTags | metadata-service/internal/service/metadata.go:152-158 | null or empty tag text gives no tags; other text gives its decoding, or the unmarshal error |
| MetadataService.LenientTags | metadata-service/internal/service/metadata.go:277-284 | null tag text, and text that does not decode, give no tags |
| MetadataService.TagDecodingsDiffer | metadata-service/internal/service/metadata.go:152-284 | the reads by ID and by listing agree wherever the tags decode; the read by ID fails exactly on non-empty text that does not decode, which a listing shows with no tags |
| MetadataService.GetVideoMetadata | metadata-service/internal/service/metadata.go:147-191 | a failed read is wrapped in its message; the result is the row with strictly decoded tags, and it fails iff the read or the decoding does |
| MetadataService.Converted | metadata-service/internal/service/metadata.go:275-318 | one record per row, in order, each with its row's columns |
| MetadataService.ConvertVideos | metadata-service/internal/service/metadata.go:275-318 | the loop builds exactly the converted listing |
| MetadataService.ListingKeepsRows | metadata-service/internal/service/metadata.go:279-284 | a listing drops no row, and a row whose tags do not decode is listed with no tags |
| MetadataService.SearchParamsFor | metadata-service/internal/service/metadata.go:243-249 | title, description and tags are searched with the same pattern, the query wrapped in `%` |
| MetadataService.ListRows | metadata-service/internal/service/metadata.go:232-239 | a failed query is wrapped in the caller's message; otherwise its rows are converted |
| MetadataService.GetRecentVideos | metadata-service/internal/service/metadata.go:232-239 | the recent rows, converted, or the query's error wrapped in `failed to get recent videos:` |
| MetadataService.SearchVideos | metadata-service/internal/service/metadata.go:242-257 | the search with the `%query%` pattern, converted, or its error wrapped in `failed to search videos:` |
| MetadataService.GetVideosByUser | metadata-service/internal/service/metadata.go:260-272 | the user's rows, converted, or the error wrapped in `failed to get user videos:` |
| MetadataService.TranscodingCompleteParamsOf | metadata-service/internal/service/metadata.go:321-332 | the update copies ID and status, and each rendition path is set iff the event's is non-empty |
| MetadataService.Viewed | metadata-service/internal/service/metadata.go:203-229 | succeeds iff the check works and the view was already recorded or both writes work; a repeat view changes nothing; a new view is recorded when its insert works and counted when the increment works too |
| MetadataService.ViewIdempotent | metadata-service/internal/service/metadata.go:212-227 | after a successful view, the same user viewing again changes nothing, whatever fails |
| MetadataService.LostIncrement | metadata-service/internal/service/metadata.go:215-225 | when the increment fails after the view was recorded, the count is lost for good: a later successful call does not add it |
| MetadataService.ViewersAfterRecording | metadata-service/internal/service/metadata.go:215-220 | recording a new view adds exactly that user to that video's viewers and changes no other video's |
| MetadataService.ViewedKeepsBound | metadata-service/internal/service/metadata.go:203-229 | every call, failed or not, keeps each video's count at most its number of distinct viewers |
| MetadataService.ViewStore.constructor | metadata-service/internal/service/metadata.go:57-62 | the store starts with no views and no counts |
| MetadataService.ViewStore.IncrementViews | metadata-service/internal/service/metadata.go:203-229 | the new state and outcome are exactly `Viewed` of the old state, and the count bound is kept |
| GatewayRouter.EffectiveAuth | api-gateway/internal/service/route/router.go:96-99 | an endpoint needs a token by its own flag when it has one, otherwise by its service's default |
| GatewayRouter.ServiceConfig.constructor | api-gateway/internal/service/route/router.go:50-54 | a service starts with its base URL, its default and no endpoints |
| GatewayRouter.ServiceConfig.AddEndpoint | api-gateway/internal/service/route/router.go:60-69 | the endpoint is appended after the existing ones, and base URL and default stay |
| GatewayRouter.EndpointRoute | api-gateway/internal/service/route/router.go:92-108 | an endpoint is registered under `/<service><path>` with its method and service's base URL, rate limited, behind the token check iff its effective flag is set |
| GatewayRouter.EndpointRoutes | api-gateway/internal/service/route/router.go:92-109 | one route per endpoint of the service, in declaration order |
| GatewayRouter.DirectRoutes | api-gateway/internal/service/route/router.go:80-82 | one catch-all route per service, in the map's order |
| GatewayRouter.EndpointRegistered | api-gateway/internal/service/route/router.go:85-110 | every endpoint of every service is among the API routes |
| GatewayRouter.ApiRoutesSound | api-gateway/internal/service/route/router.go:85-110 | every API route is some service's endpoint route, and is rate limited |
| GatewayRouter.RouterConfig.constructor | api-gateway/internal/service/route/router.go:42-46 | a router starts with no services |
| GatewayRouter.RouterConfig.AddService | api-gateway/internal/service/route/router.go:49-57 | a fresh service with no endpoints is stored under the name, replacing any earlier one, and the other services stay |
| GatewayRouter.RouterConfig.Table | api-gateway/internal/service/route/router.go:49-57 | the table has exactly the router's service names |
| GatewayRouter.RouterConfig.RegisterHandlers | api-gateway/internal/service/route/router.go:72-111 | the registered routes are the catch-alls in one map order followed by all endpoint routes in another |
| GatewayRouter.RouterConfig.RegisterDirect | api-gateway/internal/service/route/router.go:80-82 | the first loop registers exactly the catch-all routes |
| GatewayRouter.RouterConfig.RegisterApi | api-gateway/internal/service/route/router.go:85-110 | the second loop registers exactly the API routes, service by service |
| GatewayRouter.RouterConfig.RegisterService | api-gateway/internal/service/route/router.go:92-109 | the inner loop registers exactly the service's endpoint routes, resolving each flag as `EffectiveAuth` does |
| RouteDefinitions.ConfigValue | api-gateway/internal/service/route/definitions.go:13-17 | a configured key gives its value, a missing one the empty base URL |
| RouteDefinitions.ConfigureAuthRoutes | api-gateway/internal/service/route/definitions.go:23-34 | the router gains a fresh `auth` service, public by default, with its five endpoints of which refresh and logout need a token; the other services stay |
| RouteDefinitions.ConfigureStreamingRoutes | api-gateway/internal/service/route/definitions.go:37-56 | the router gains a fresh `streaming` service with its nine public endpoints; the other services stay |
| RouteDefinitions.ConfigureMetadataRoutes | api-gateway/internal/service/route/definitions.go:59-75 | the router gains a fresh `metadata` service with its eight public endpoints; the other services stay |
| RouteDefinitions.ConfigureUploadRoutes | api-gateway/internal/service/route/definitions.go:78-87 | the router gains a fresh `upload` service, protected by default, with a public health check and two endpoints inheriting the default; the other services stay |
| RouteDefinitions.ConfigureTranscoderRoutes | api-gateway/internal/service/route/definitions.go:90-100 | the router gains a fresh `transcoder` service, protected by default, with public health and status endpoints and two inheriting job endpoints; the other services stay |
| RouteDefinitions.ConfigureRoutes | api-gateway/internal/service/route/definitions.go:9-20 | the router built holds exactly the five definitions, each with the base URL configured for it |
| RouteDefinitions.TableOfServices | api-gateway/internal/service/route/definitions.go:9-20 | a router holding exactly the five configured services has the definitions as its table |
| RouteDefinitions.FiveServices | api-gateway/internal/service/route/definitions.go:9-100 | the table has exactly the five service names, each with its configured base URL, with 5, 9, 8, 3 and 4 endpoints |
| RouteDefinitions.SixProtectedEndpoints | api-gateway/internal/service/route/definitions.go:23-100 | exactly six endpoints need a token: refresh, logout, the two upload posts and the two job endpoints |
| RouteDefinitions.AuthProtected | api-gateway/internal/service/route/definitions.go:23-34 | in the auth service exactly refresh and logout need a token |
| RouteDefinitions.StreamingProtected | api-gateway/internal/service/route/definitions.go:37-56 | no streaming endpoint needs a token |
| RouteDefinitions.MetadataProtected | api-gateway/internal/service/route/definitions.go:59-75 | no metadata endpoint needs a token, the writes included |
| RouteDefinitions.UploadProtected | api-gateway/internal/service/route/definitions.go:78-87 | in the upload service exactly the two posts need a token |
| RouteDefinitions.TranscoderProtected | api-gateway/internal/service/route/definitions.go:90-100 | in the transcoder service exactly the two job endpoints need a token |
| RouteDefinitions.HealthOptsOut | api-gateway/internal/service/route/definitions.go:78-95 | the upload and transcoder services are protected by default, but their health (and the transcoder's status) endpoints opt out |
| ProxyRequests.ParamValue | api-gateway/internal/service/proxy/unified_proxy.go:57 | a key no parameter has gives ""; otherwise the value of the first parameter with that key |
| ProxyRequests.Outgoing.constructor | api-gateway/internal/service/proxy/proxy.go:30-38 | the proxy's copy of the request keeps the incoming method, host, query and headers, with scheme, host and path as the standard director set them |
| GatewayProxy.SubstitutePath | api-gateway/internal/service/proxy/proxy.go:41-46 | the loop replaces every `:<key>` of the template by its value, parameter by parameter in route order |
| GatewayProxy.NoPlaceholders | api-gateway/internal/service/proxy/proxy.go:41-46 | a template without `:` becomes the outgoing path unchanged whatever the parameters |
| GatewayProxy.OnePlaceholder | api-gateway/internal/service/proxy/proxy.go:44-46 | a single placeholder between placeholder-free parts is replaced by its parameter's value |
| GatewayProxy.Director | api-gateway/internal/service/proxy/proxy.go:36-65 | the outgoing path is the substituted template, the method the incoming one, the headers the incoming ones added to the copy, then the three forwarding headers set; host, scheme, target host and query stay |
| GatewayProxy.ForwardedHeaders | api-gateway/internal/service/proxy/proxy.go:54-64 | since the copy already holds the incoming headers, the director leaves on the outgoing request every other incoming value twice and each forwarding header once |
| UnifiedProxy.ServiceName | api-gateway/internal/service/proxy/unified_proxy.go:44-53 | the service name never contains a separator |
| UnifiedProxy.ServiceNameOf | api-gateway/internal/service/proxy/unified_proxy.go:44-53 | a path `/api/v1/<svc>` followed by nothing or a new segment names `svc` |
| UnifiedProxy.NamedServicePrefix | api-gateway/internal/service/proxy/unified_proxy.go:44-53 | conversely, a rooted path that names a service starts with `/api/v1/<svc>` |
| UnifiedProxy.RewrittenPath | api-gateway/internal/service/proxy/unified_proxy.go:56-58 | with no service named the path stays; with one, the result starts with that service's prefix, the path staying if it had it and becoming prefix plus the `path` parameter if not |
| UnifiedProxy.RewriteIdleOnOwnPath | api-gateway/internal/service/proxy/unified_proxy.go:56-58 | when the outgoing path is still the incoming one the rewrite never fires |
| UnifiedProxy.ClientIP | api-gateway/internal/service/proxy/unified_proxy.go:118-133 | gin's answer when non-empty, else the host part of the remote address, else the remote address itself |
| UnifiedProxy.EmptyClientIP | api-gateway/internal/service/proxy/unified_proxy.go:118-133 | an empty client IP arises only from an empty gin answer and an empty host part or address |
| UnifiedProxy.ProtoOrHttp | api-gateway/internal/service/proxy/unified_proxy.go:102-105 | the forwarded protocol is never empty, and is the incoming one when there is one |
| UnifiedProxy.ForwardedChain | api-gateway/internal/service/proxy/unified_proxy.go:110-114 | the forwarded-for value always ends with the client IP |
| UnifiedProxy.WithProxyHeaders | api-gateway/internal/service/proxy/unified_proxy.go:99-115 | the four proxy headers are set, under their canonical keys, to one value each (so a client's own `X-Real-Ip` is replaced by the client IP), the chain extended, and every other header kept |
| UnifiedProxy.AddProxyHeaders | api-gateway/internal/service/proxy/unified_proxy.go:99-115 | the request's headers become `WithProxyHeaders` of the old ones, and nothing else changes |
| UnifiedProxy.Director | api-gateway/internal/service/proxy/unified_proxy.go:35-75 | the target's scheme and host, the rewritten path, the incoming query and a fresh copy of the incoming headers with the proxy headers added; method and host stay |
| UnifiedProxy.UnifiedHeaders | api-gateway/internal/service/proxy/unified_proxy.go:65-74 | the director leaves on the outgoing request every non-proxy incoming header exactly once, the client IP appended to any incoming forwarded-for chain, the incoming protocol or `http`, the incoming host, and the client IP as the only `X-Real-Ip` value |
| Gateway.Cors | api-gateway/internal/service/gateway.go:84-94 | the three allow headers are set on every response with their fixed values; the chain stops with 204 iff the method is `OPTIONS` |
| Gateway.Served | api-gateway/internal/service/gateway.go:89-93 | a preflight ends with 204 whatever the route, any other request with its handler's status |
| Gateway.ProxyDirector | api-gateway/internal/service/gateway.go:154-176 | the two forwarding headers are set before the incoming headers are added, the method becomes the incoming one and the path gains `/api/v1`; host, query, scheme and target host stay |
| Gateway.ProxyForwardedFirst | api-gateway/internal/service/gateway.go:161-172 | the director leaves on the outgoing request the gateway's host and `http` first in the two forwarding headers, then what the client sent for them, and every other incoming value twice |
| Gateway.AuthDirector | api-gateway/internal/service/gateway.go:201-223 | after the two forwarding headers are set the request's headers are added to themselves; method, path, host, query, scheme and target host stay |
| Gateway.AuthForwarded | api-gateway/internal/service/gateway.go:208-209 | the two forwarding headers hold one value each and every other header is kept |
| Gateway.AuthForwardingDoubled | api-gateway/internal/service/gateway.go:208-219 | the director leaves on the outgoing request the gateway's host and `http` twice each in the two forwarding headers |
| Gateway.AuthHeadersDoubled | api-gateway/internal/service/gateway.go:215-219 | the director leaves on the outgoing request every other incoming header's values twice |
| Gateway.AuthGate | api-gateway/internal/service/gateway.go:242-275 | paths other than refresh and logout are forwarded; on those, a missing header, a header not of the form `Bearer <token>` and an invalid token each get their 401 message, and the request is forwarded iff the token is valid |
| Gateway.BearerAccepted | api-gateway/internal/service/gateway.go:250-272 | `Bearer <token>` is forwarded iff the token is valid, and otherwise refused as an invalid token |
| Gateway.LowercaseBearerRejected | api-gateway/internal/service/gateway.go:250-254 | `bearer <token>` is refused as a bad format before the token is looked at |
| Gateway.DoubleSpaceRejected | api-gateway/internal/service/gateway.go:250-254 | two spaces after `Bearer` give three parts and are refused as a bad format |
| CrossService.MasterFound | streaming-service/internal/storage/minio.go:79 | with shared prefixes, the master playlist the transcoder uploads is stored under the key the streaming service reads |
| CrossService.PlaylistFound | streaming-service/internal/storage/minio.go:99 | a rendition's playlist is stored, typed as a playlist, under the key the streaming service tries for that rendition |
| CrossService.SegmentFound | streaming-service/internal/storage/minio.go:196-204 | a rendition's segment is stored under the key the streaming service builds for a bare segment name in that rendition |
| CrossService.Mp4Found | streaming-service/internal/storage/minio.go:227 | a rung's MP4, encoded under `mp4/` and walked from the output directory, is stored under the key the streaming service tries for that quality |
| CrossService.FourKOnlyOnRequest | streaming-service/internal/storage/minio.go:220-273 | the 4k MP4 is never among the default lookups but is the first candidate when asked for by name |
| CrossService.ThumbnailFound | streaming-service/internal/storage/minio.go:297-300 | the transcoder's thumbnail is stored under the streaming service's second, flat candidate and never under the first |
| CrossService.OriginalFound | transcoder-service/internal/storage/minio.go:82 | the transcoder finds the original iff the extension it guesses from the content type is the one the upload kept on the key |
| CrossService.UndeclaredWebmLost | transcoder-service/internal/service/transcoder.go:119-125 | a `.webm` upload declared with any type but `video/webm` is stored as `.webm` and looked for as another extension |
| CrossService.UpperCaseMovLost | transcoder-service/internal/service/transcoder.go:119-125 | an upper-case `.MOV` upload is never found, whatever its declared type |
| CrossService.ExtensionlessFound | video-upload-service/internal/storage/minio.go:43-50 | an extension-less upload declared as neither WebM nor QuickTime is stored and looked for as `.mp4` |
| CrossService.RecordedPathMatches | metadata-service/internal/service/metadata.go:95 | the recorded path names the stored original iff the filename has an extension |
| CrossService.EncoderSeesVideoID | transcoder-service/internal/transcoder/ffmpeg.go:229-230 | the ID the encoder recovers from the downloaded file's directory is the event's video ID |
| Headers.CopyHeaders | api-gateway/internal/service/proxy/proxy.go:55-59 | the nested copy loop adds every value of every source key, key by key in map order, exactly as `AddAll` describes |
| Headers.AddAllAppends | api-gateway/internal/service/proxy/proxy.go:55-59 | copying appends each copied key's values after the target's own and leaves every other key alone |
| Headers.CopyIntoEmpty | api-gateway/internal/service/proxy/unified_proxy.go:65-70 | copying into a fresh header gives an exact copy of the source |
| Headers.CopyIntoItself | api-gateway/internal/service/gateway.go:215-219 | copying a header into itself doubles every key's value list |

## Left out

- Process execution: running ffmpeg and ffprobe, the progress goroutines, and the contents of the ffmpeg log files. Each probe and thumbnail frame is a given outcome. Each live encoder process is a given outcome of creating its progress pipe, starting it and waiting for it; making the log file is a given outcome.
- The per-job timeout: `jobTimeout` is not kept by the service, and the job context's deadline is not modelled. A job that runs out of time shows only as a failing stage outcome.
- Concurrency: the job table's mutex and job goroutine, the pipe and two goroutines of `HandleUpload`, and the parallel gateway health probes. Each is modelled as atomic steps in the order the code waits for them.
- Floating point: duration, bit rate and frame-rate parsing in the extractor (a given `parseFloat`), the duration bounds (compared as reals, so NaN is not modelled) and the seek-time arithmetic of the live `GenerateThumbnail`, which is a given outcome in the pipeline.
- Kafka clients: the consumers, producers and publishers are network I/O with retries. Publishing is a given outcome, and the event structs are datatypes.
- MinIO, SQL and sqlc calls: buckets are sets of keys, puts and stats are given outcomes, and the view store is a set of (video, user) pairs with a count map. `UpdateVideoStatus` is a single store call with nothing to model.
- Foreign libraries: presigning, JWT/RSA/PEM parsing (`loadPublicKey` and the token check, a given `tokenValid`), MIME sniffing (a given result), the rate limiter and `httputil.ReverseProxy`. For the proxy this means its internals, its own forwarded-for append, the clone of the request and `User-Agent` handling; the outgoing request starts from what the standard director set.
- Configuration loading through viper, and every `cmd/main.go` except the transcoder's start-up health check. This transcoder `main` never calls `Config.Validate`. `Validate` is modelled, but nothing in the model applies it at start-up.
- The HTTP handlers, Swagger stubs and route wiring in `routes.go`, the proxies' error handlers and response logging, and all `fmt.Printf` logging.
- Header keys are taken to be in canonical form already; Go's canonicalisation of header names is not modelled. Keys the code sets itself are written in that canonical form (`X-Real-Ip` for the code's `"X-Real-IP"`).
- `Paths.Join` is plain `/`-concatenation. It agrees with `path.Join` and `filepath.Join` only for components that are non-empty and have no leading, trailing or doubled slashes and no `.` or `..`. The lemmas that compare keys across services assume such components where it matters.
- Time and UUIDs are parameters: each clock reading in `HandleUpload` and the sanitised filename's timestamp, the RFC 3339 parse in the metadata service, and the generated video ID.
- The retry delay of `ExtractMetadata` is not modelled; only the bound of three attempts and the first success are.
- UploadValidation.ValidateTitle: Dafny strings are sequences of characters, so the 1 to 100 bound counts characters where Go's `len` counts UTF-8 bytes. Trimming covers the ASCII white-space characters only.
- Strings.ToLower: folds ASCII letters only, where Go's `strings.ToLower` folds all of Unicode. This affects the extension check of `UploadValidation.ValidateVideoFile` and the matching in `MetadataExtractor.DetermineContentType` for non-ASCII input.
- TranscoderHealth.CheckKafka: requires a non-empty broker list, because Go indexes the first broker and panics on an empty list.
- TranscoderHealth.RunHealthCheck: requires a non-empty broker list, for the same reason.
- TranscoderHealth.HandleHealthCheck: requires a non-empty broker list, for the same reason.
- TranscoderHealth.InitialHealthCheck: requires a non-empty broker list, for the same reason.
- TranscoderStorage.UploadHLSFiles: the files of the directory are given, in walk order. The walk's own failures are not modelled: an unreadable entry, a relative path that cannot be computed, or a file that cannot be opened or stat-ed. Only a failed put stops the walk.
- TranscoderStorage.UploadMP4Files: the same simplification of the walk as for `UploadHLSFiles`.

## Behaviour of the code worth knowing

These are properties of the code as written. Each is proved as a lemma of the model, and the model follows the code.

- The upload service keeps the file's own extension on the object key (`original/<id>.webm`). The transcoder guesses the extension from the declared content type. A `.webm` declared with any other type is therefore never found (`CrossService.UndeclaredWebmLost`), and neither is an upper-case `.MOV` (`CrossService.UpperCaseMovLost`).
- The metadata record's `minio_path` uses the filename's extension, but an extension-less upload is stored as `.mp4`. The recorded path then names no object (`CrossService.RecordedPathMatches`).
- The transcoder stores the thumbnail as `<thumbnails>/<id>.jpg`. That is the streaming service's second, older candidate; its first choice is never written (`CrossService.ThumbnailFound`).
- The 4k rendition is encoded and stored, but the streaming side serves it only when asked for by name (`CrossService.FourKOnlyOnRequest`, `StreamingStorage.NoFourK`).
- The per-route proxy and the gateway's `/api/v1` proxy add every incoming header to the proxy's copy of the same headers, so the director leaves each value twice on the outgoing request (`GatewayProxy.ForwardedHeaders`, `Gateway.ProxyForwardedFirst`). The auth proxy adds the request's headers to themselves, doubling its own forwarding headers too (`Gateway.AuthForwardingDoubled`, `Gateway.AuthHeadersDoubled`). These lemmas state what the director leaves; `httputil.ReverseProxy` then removes the hop-by-hop headers and folds `X-Forwarded-For` into one value with the remote address appended, so those two kinds of header do not reach the backend doubled.
- A failed store write in the upload service reaches the caller with the `failed to upload video:` prefix twice (`UploadService.UploadErrorPrefixedTwice`).
- A failed view-count increment, after the view is recorded, loses that view for good (`MetadataService.LostIncrement`), though no count ever exceeds the number of distinct viewers (`MetadataService.ViewedKeepsBound`).
- The streaming service's `CheckHealth` passes when the bucket is reported missing; only a failing probe is unhealthy.
- The live HLS encoder lists a rendition in the master playlist only after it encodes. The older implementation writes the whole master first, so after a failure its master lists renditions that do not exist (`LegacyTranscoder.LiveMasterIsPrefixOfLegacy`).
