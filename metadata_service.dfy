/** The metadata service: turning an upload event into a video record, the parameters of
    the transcoding-complete update and of the queries, decoding stored tags, and the
    per-user de-duplication of view counts. The database is a parameter or, for views, a
    store of (video, user) pairs and a count per video. */
module MetadataService {
  import opened Results
  import opened Strings
  import UploadService

  type UploadEvent = UploadService.VideoUploadEvent

  /** A video row without its tags. Nullable columns are `Option`s. */
  datatype Video = Video(
    id: string, userID: string, title: string, description: Option<string>, duration: real,
    width: int, height: int, format: string, bitrate: int, fileSize: int, checksum: string,
    createdAt: string, codec: string, frameRate: real, aspectRatio: string,
    audioCodec: Option<string>, audioBitrate: Option<int>, audioChannels: Option<int>,
    contentType: string, originalFilename: string, fileExtension: string,
    sanitizedFilename: string, views: Option<int>, status: string, minioPath: string,
    hlsPath: Option<string>, thumbnailPath: Option<string>, mp4Path: Option<string>)

  /** The service's record: the row's columns with the tags decoded. */
  datatype VideoMetadata = VideoMetadata(video: Video, tags: seq<string>)

  /** A stored row: the tags are a nullable JSON text. */
  datatype Row = Row(video: Video, tags: Option<string>)

  /** The zero `time.Time`, which a creation time that does not parse becomes. */
  const ZeroTime := "0001-01-01T00:00:00Z"

  /** A string column that is null when empty. */
  function NullIfEmpty(s: string): (n: Option<string>)
    ensures n.Some? <==> s != ""
    ensures n.Some? ==> n.value == s
  {
    if s == "" then None else Some(s)
  }

  /** An integer column that is null when zero. */
  function NullIfZero(i: int): (n: Option<int>)
    ensures n.Some? <==> i != 0
    ensures n.Some? ==> n.value == i
  {
    if i == 0 then None else Some(i)
  }

  /** `ConvertUploadMetadata`; `parseTime` is RFC 3339 parsing, whose error is ignored. */
  function ConvertUploadMetadata(event: UploadEvent, parseTime: string -> Result<string>): (m: VideoMetadata)
    ensures m.video.id == event.videoID && m.video.userID == event.userID && m.video.title == event.title
    ensures m.video.status == "processing"
    ensures m.video.minioPath == "original/" + event.videoID + event.metadata.fileExtension
    ensures m.video.description.None? && m.video.views.None? && m.tags == []
    ensures m.video.hlsPath.None? && m.video.thumbnailPath.None? && m.video.mp4Path.None?
    ensures m.video.audioCodec.Some? <==> event.metadata.audioCodec != ""
    ensures m.video.audioBitrate.Some? <==> event.metadata.audioBitrate != 0
    ensures m.video.audioChannels.Some? <==> event.metadata.audioChannels != 0
    ensures m.video.audioCodec.Some? ==> m.video.audioCodec.value == event.metadata.audioCodec
    ensures m.video.audioBitrate.Some? ==> m.video.audioBitrate.value == event.metadata.audioBitrate
    ensures m.video.audioChannels.Some? ==> m.video.audioChannels.value == event.metadata.audioChannels
    ensures parseTime(event.metadata.createdAt).Err? ==> m.video.createdAt == ZeroTime
    ensures parseTime(event.metadata.createdAt).Ok? ==> m.video.createdAt == parseTime(event.metadata.createdAt).value
  {
    var md := event.metadata;
    VideoMetadata(
      Video(event.videoID, event.userID, event.title, None, md.duration, md.width, md.height,
            md.format, md.bitrate, md.fileSize, md.checksum, ValueOr(parseTime(md.createdAt), ZeroTime),
            md.codec, md.frameRate, md.aspectRatio, NullIfEmpty(md.audioCodec),
            NullIfZero(md.audioBitrate), NullIfZero(md.audioChannels), md.contentType,
            md.originalFilename, md.fileExtension, md.sanitizedFilename, None, "processing",
            "original/" + event.videoID + md.fileExtension, None, None, None),
      [])
  }

  /** The extracted fields reach the record unchanged; the audio ones as nullable columns
      that are null exactly when the extractor left them empty or zero. */
  lemma ConvertKeepsMeasurements(event: UploadEvent, parseTime: string -> Result<string>)
    ensures var v := ConvertUploadMetadata(event, parseTime).video;
      && v.duration == event.metadata.duration && v.width == event.metadata.width
      && v.height == event.metadata.height && v.codec == event.metadata.codec
      && v.format == event.metadata.format && v.bitrate == event.metadata.bitrate
      && v.frameRate == event.metadata.frameRate && v.aspectRatio == event.metadata.aspectRatio
      && v.fileSize == event.metadata.fileSize && v.checksum == event.metadata.checksum
      && v.contentType == event.metadata.contentType
      && v.originalFilename == event.metadata.originalFilename
      && v.fileExtension == event.metadata.fileExtension
      && v.sanitizedFilename == event.metadata.sanitizedFilename
      && v.audioCodec == NullIfEmpty(event.metadata.audioCodec)
      && v.audioBitrate == NullIfZero(event.metadata.audioBitrate)
      && v.audioChannels == NullIfZero(event.metadata.audioChannels)
  {
  }

  /** `CreateVideoMetadata`: the tags are stored as JSON, always non-null; the insert has
      no views column, so the row starts with null views. */
  function CreateVideoMetadata(m: VideoMetadata, marshal: seq<string> -> Result<string>, create: Row -> Outcome): (o: Outcome)
    ensures marshal(m.tags).Err? ==> o == Fail("failed to marshal tags: " + marshal(m.tags).error)
    ensures marshal(m.tags).Ok? ==> o == create(Row(m.video.(views := None), Some(marshal(m.tags).value)))
  {
    var tagsJSON := marshal(m.tags);
    if tagsJSON.Err? then Fail("failed to marshal tags: " + tagsJSON.error)
    else create(Row(m.video.(views := None), Some(tagsJSON.value)))
  }

  /** Tag decoding in `GetVideoMetadata`: null and empty text give no tags, and text that
      is not a JSON list of strings is an error. */
  function StrictTags(tags: Option<string>, unmarshal: string -> Result<seq<string>>): (r: Result<seq<string>>)
    ensures tags.None? || tags == Some("") ==> r == Ok([])
    ensures tags.Some? && tags.value != "" ==>
      r == (if unmarshal(tags.value).Err? then Err("failed to unmarshal tags: " + unmarshal(tags.value).error)
            else unmarshal(tags.value))
  {
    if tags.Some? && tags.value != "" then
      var decoded := unmarshal(tags.value);
      if decoded.Err? then Err("failed to unmarshal tags: " + decoded.error) else decoded
    else Ok([])
  }

  /** Tag decoding in `convertVideos`: text that does not decode gives no tags. */
  function LenientTags(tags: Option<string>, unmarshal: string -> Result<seq<string>>): (r: seq<string>)
    ensures tags.None? ==> r == []
    ensures tags.Some? ==> r == ValueOr(unmarshal(tags.value), [])
  {
    if tags.Some? then ValueOr(unmarshal(tags.value), []) else []
  }

  /** The two decodings agree on every row whose tags decode and differ exactly on rows
      whose non-empty tag text does not: one read fails where a listing shows no tags. */
  lemma TagDecodingsDiffer(tags: Option<string>, unmarshal: string -> Result<seq<string>>)
    requires tags != Some("") || unmarshal("").Err?
    ensures StrictTags(tags, unmarshal).Ok? ==> StrictTags(tags, unmarshal).value == LenientTags(tags, unmarshal)
    ensures StrictTags(tags, unmarshal).Err? <==> tags.Some? && tags.value != "" && unmarshal(tags.value).Err?
    ensures StrictTags(tags, unmarshal).Err? ==> LenientTags(tags, unmarshal) == []
  {
  }

  /** `GetVideoMetadata`: the row by ID, with strictly decoded tags. */
  function GetVideoMetadata(id: string, get: string -> Result<Row>, unmarshal: string -> Result<seq<string>>): (r: Result<VideoMetadata>)
    ensures get(id).Err? ==> r == Err("failed to get video metadata: " + get(id).error)
    ensures r.Ok? <==> get(id).Ok? && StrictTags(get(id).value.tags, unmarshal).Ok?
    ensures r.Ok? ==> r.value == VideoMetadata(get(id).value.video, StrictTags(get(id).value.tags, unmarshal).value)
  {
    var row := get(id);
    if row.Err? then Err("failed to get video metadata: " + row.error)
    else
      var tags := StrictTags(row.value.tags, unmarshal);
      if tags.Err? then Err(tags.error) else Ok(VideoMetadata(row.value.video, tags.value))
  }

  /** The listing of rows, each with leniently decoded tags. */
  function Converted(rows: seq<Row>, unmarshal: string -> Result<seq<string>>): (ms: seq<VideoMetadata>)
    ensures |ms| == |rows|
    ensures forall i :: 0 <= i < |rows| ==> ms[i].video == rows[i].video
  {
    seq(|rows|, i requires 0 <= i < |rows| => VideoMetadata(rows[i].video, LenientTags(rows[i].tags, unmarshal)))
  }

  /** `convertVideos`: one record per row, in order; it never fails. */
  method ConvertVideos(rows: seq<Row>, unmarshal: string -> Result<seq<string>>) returns (result: seq<VideoMetadata>)
    ensures result == Converted(rows, unmarshal)
  {
    result := [];
    for i := 0 to |rows|
      invariant |result| == i
      invariant forall j :: 0 <= j < i ==> result[j] == VideoMetadata(rows[j].video, LenientTags(rows[j].tags, unmarshal))
    {
      var tags := LenientTags(rows[i].tags, unmarshal);
      result := result + [VideoMetadata(rows[i].video, tags)];
    }
  }

  /** A listing keeps every row, and a row whose tags a read rejects is listed without tags. */
  lemma ListingKeepsRows(rows: seq<Row>, unmarshal: string -> Result<seq<string>>, i: nat)
    requires i < |rows| && rows[i].tags.Some? && unmarshal(rows[i].tags.value).Err?
    ensures |Converted(rows, unmarshal)| == |rows|
    ensures Converted(rows, unmarshal)[i] == VideoMetadata(rows[i].video, [])
  {
  }

  /** The search parameters: the same `%query%` pattern for title, description and tags. */
  datatype SearchParams = SearchParams(title: string, description: Option<string>, tags: Option<string>, limit: int)

  function SearchParamsFor(query: string, limit: int): (p: SearchParams)
    ensures p.description == Some(p.title) && p.tags == Some(p.title) && p.limit == limit
    ensures |p.title| == |query| + 2 && p.title[0] == '%' && p.title[|p.title| - 1] == '%'
            && p.title[1..|p.title| - 1] == query
  {
    var pattern := "%" + query + "%";
    SearchParams(pattern, Some(pattern), Some(pattern), limit)
  }

  /** A query's rows, listed; `message` is the text its failure is wrapped in. */
  method ListRows(rows: Result<seq<Row>>, message: string, unmarshal: string -> Result<seq<string>>)
    returns (r: Result<seq<VideoMetadata>>)
    ensures rows.Err? ==> r == Err(message + rows.error)
    ensures rows.Ok? ==> r == Ok(Converted(rows.value, unmarshal))
  {
    if rows.Err? {
      return Err(message + rows.error);
    }
    var listed := ConvertVideos(rows.value, unmarshal);
    return Ok(listed);
  }

  /** `GetRecentVideos`. */
  method GetRecentVideos(limit: int, recent: int -> Result<seq<Row>>, unmarshal: string -> Result<seq<string>>)
    returns (r: Result<seq<VideoMetadata>>)
    ensures recent(limit).Err? ==> r == Err("failed to get recent videos: " + recent(limit).error)
    ensures recent(limit).Ok? ==> r == Ok(Converted(recent(limit).value, unmarshal))
  {
    r := ListRows(recent(limit), "failed to get recent videos: ", unmarshal);
  }

  /** `SearchVideos`. */
  method SearchVideos(query: string, limit: int, search: SearchParams -> Result<seq<Row>>,
                      unmarshal: string -> Result<seq<string>>)
    returns (r: Result<seq<VideoMetadata>>)
    ensures var found := search(SearchParamsFor(query, limit));
      && (found.Err? ==> r == Err("failed to search videos: " + found.error))
      && (found.Ok? ==> r == Ok(Converted(found.value, unmarshal)))
  {
    r := ListRows(search(SearchParamsFor(query, limit)), "failed to search videos: ", unmarshal);
  }

  datatype UserVideosParams = UserVideosParams(userID: string, limit: int)

  /** `GetVideosByUser`. */
  method GetVideosByUser(userID: string, limit: int, byUser: UserVideosParams -> Result<seq<Row>>,
                         unmarshal: string -> Result<seq<string>>)
    returns (r: Result<seq<VideoMetadata>>)
    ensures var found := byUser(UserVideosParams(userID, limit));
      && (found.Err? ==> r == Err("failed to get user videos: " + found.error))
      && (found.Ok? ==> r == Ok(Converted(found.value, unmarshal)))
  {
    r := ListRows(byUser(UserVideosParams(userID, limit)), "failed to get user videos: ", unmarshal);
  }

  /** The event the transcoder sends when a video's renditions are ready. */
  datatype TranscodingCompleteEvent = TranscodingCompleteEvent(
    videoID: string, userID: string, title: string, hlsPath: string, mp4Path: string,
    thumbnailPath: string, status: string, completedAt: string)

  datatype TranscodingCompleteParams = TranscodingCompleteParams(
    id: string, status: string, hlsPath: Option<string>, thumbnailPath: Option<string>, mp4Path: Option<string>)

  /** The update `UpdateVideoFromTranscodingComplete` issues: ID and status copied, each
      path null when empty. */
  function TranscodingCompleteParamsOf(e: TranscodingCompleteEvent): (p: TranscodingCompleteParams)
    ensures p.id == e.videoID && p.status == e.status
    ensures p.hlsPath.Some? <==> e.hlsPath != ""
    ensures p.thumbnailPath.Some? <==> e.thumbnailPath != ""
    ensures p.mp4Path.Some? <==> e.mp4Path != ""
    ensures p.hlsPath.Some? ==> p.hlsPath.value == e.hlsPath
    ensures p.thumbnailPath.Some? ==> p.thumbnailPath.value == e.thumbnailPath
    ensures p.mp4Path.Some? ==> p.mp4Path.value == e.mp4Path
  {
    TranscodingCompleteParams(e.videoID, e.status, NullIfEmpty(e.hlsPath), NullIfEmpty(e.thumbnailPath),
                              NullIfEmpty(e.mp4Path))
  }

  /** The store's state as far as views go: who has viewed what, and each video's count. */
  datatype ViewState = ViewState(views: set<(string, string)>, counts: map<string, nat>)

  /** Which of the three store calls fail, and with what error. */
  datatype ViewFaults = ViewFaults(check: Option<string>, create: Option<string>, increment: Option<string>)

  datatype ViewStep = ViewStep(state: ViewState, outcome: Outcome)

  function CountOf(counts: map<string, nat>, videoID: string): nat
  {
    if videoID in counts then counts[videoID] else 0
  }

  /** The users who have viewed a video. */
  function ViewersOf(views: set<(string, string)>, videoID: string): set<string>
  {
    set p | p in views && p.0 == videoID :: p.1
  }

  /** `IncrementViews` on the store's state. */
  function Viewed(st: ViewState, videoID: string, userID: string, f: ViewFaults): (r: ViewStep)
    ensures r.outcome.Pass? <==> f.check.None? && ((videoID, userID) in st.views || (f.create.None? && f.increment.None?))
    ensures f.check.Some? ==> r == ViewStep(st, Fail("failed to check existing view: " + f.check.value))
    ensures (videoID, userID) in st.views || f.check.Some? || f.create.Some? ==> r.state == st
    ensures (videoID, userID) !in st.views && f.check.None? && f.create.None? ==>
      && r.state.views == st.views + {(videoID, userID)}
      && (f.increment.None? ==> r.state.counts == st.counts[videoID := CountOf(st.counts, videoID) + 1])
      && (f.increment.Some? ==> r.state.counts == st.counts)
  {
    if f.check.Some? then ViewStep(st, Fail("failed to check existing view: " + f.check.value))
    else if (videoID, userID) in st.views then ViewStep(st, Pass)
    else if f.create.Some? then ViewStep(st, Fail("failed to create view record: " + f.create.value))
    else
      var recorded := st.(views := st.views + {(videoID, userID)});
      if f.increment.Some? then ViewStep(recorded, Fail("failed to increment view count: " + f.increment.value))
      else ViewStep(recorded.(counts := st.counts[videoID := CountOf(st.counts, videoID) + 1]), Pass)
  }

  /** Once a user's view of a video has been recorded, further views by that user change
      nothing, whatever fails. */
  lemma ViewIdempotent(st: ViewState, videoID: string, userID: string, f: ViewFaults, g: ViewFaults)
    requires Viewed(st, videoID, userID, f).outcome.Pass?
    ensures var once := Viewed(st, videoID, userID, f).state;
      Viewed(once, videoID, userID, g).state == once
  {
  }

  /** A failed increment loses that user's view for good: the view is recorded, the count
      is not, and a later successful call does not make up for it. */
  lemma LostIncrement(st: ViewState, videoID: string, userID: string, msg: string)
    requires (videoID, userID) !in st.views
    ensures var after := Viewed(st, videoID, userID, ViewFaults(None, None, Some(msg))).state;
      && (videoID, userID) in after.views
      && Viewed(after, videoID, userID, ViewFaults(None, None, None)).state.counts == st.counts
  {
  }

  /** The invariant of the view store: no video counts more views than it has viewers. */
  ghost predicate CountsBounded(st: ViewState)
  {
    forall v :: CountOf(st.counts, v) <= |ViewersOf(st.views, v)|
  }

  /** Recording a new viewer adds exactly that user to the video's viewers and leaves
      every other video's viewers as they were. */
  lemma ViewersAfterRecording(views: set<(string, string)>, videoID: string, userID: string, w: string)
    requires (videoID, userID) !in views
    ensures w == videoID ==> ViewersOf(views + {(videoID, userID)}, w) == ViewersOf(views, w) + {userID}
    ensures w == videoID ==> userID !in ViewersOf(views, w)
    ensures w != videoID ==> ViewersOf(views + {(videoID, userID)}, w) == ViewersOf(views, w)
  {
  }

  /** Every call of `IncrementViews`, failed or not, keeps the invariant. */
  lemma {:induction false} ViewedKeepsBound(st: ViewState, videoID: string, userID: string, f: ViewFaults)
    requires CountsBounded(st)
    ensures CountsBounded(Viewed(st, videoID, userID, f).state)
  {
    var after := Viewed(st, videoID, userID, f).state;
    if (videoID, userID) !in st.views && f.check.None? && f.create.None? {
      forall v
        ensures CountOf(after.counts, v) <= |ViewersOf(after.views, v)|
      {
        ViewersAfterRecording(st.views, videoID, userID, v);
        assert CountOf(st.counts, v) <= |ViewersOf(st.views, v)|;
      }
    }
  }

  /** The view store. */
  class ViewStore {
    var views: set<(string, string)>
    var counts: map<string, nat>

    ghost predicate Valid()
      reads this
    {
      CountsBounded(ViewState(views, counts))
    }

    constructor ()
      ensures Valid() && views == {} && counts == map[]
    {
      views := {};
      counts := map[];
    }

    /** `IncrementViews`: check for an earlier view, record this one, bump the count; each
        store call may fail with the error `faults` gives it. */
    method IncrementViews(videoID: string, userID: string, faults: ViewFaults) returns (o: Outcome)
      requires Valid()
      modifies this
      ensures Valid()
      ensures ViewStep(ViewState(views, counts), o) == Viewed(ViewState(old(views), old(counts)), videoID, userID, faults)
    {
      ViewedKeepsBound(ViewState(views, counts), videoID, userID, faults);
      if faults.check.Some? {
        return Fail("failed to check existing view: " + faults.check.value);
      }
      if (videoID, userID) !in views {
        if faults.create.Some? {
          return Fail("failed to create view record: " + faults.create.value);
        }
        views := views + {(videoID, userID)};
        if faults.increment.Some? {
          return Fail("failed to increment view count: " + faults.increment.value);
        }
        counts := counts[videoID := CountOf(counts, videoID) + 1];
      }
      return Pass;
    }
  }
}
