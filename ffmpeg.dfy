/** The live encoder (`ffmpegGoImpl`): quality parsing at construction, the ffmpeg
    command lines for each rung, and the HLS and MP4 encode loops, with each ffmpeg
    run given as an outcome per command line. */
module FFmpeg {
  import opened Results
  import opened Strings
  import opened Paths
  import opened QualityLadder
  import opened Playlists

  /** A configured output quality; the bitrate is kept as ffmpeg text such as "5000k". */
  datatype Quality = Quality(name: string, width: int, height: int, bitrate: string)

  /** The quality names construction accepts. */
  const KnownQualities: seq<string> := ["1080p", "720p", "480p", "360p", "240p"]

  /** The fixed settings of each named quality; any other name is an error. */
  function ParseQuality(q: string): (r: Result<Quality>)
    ensures r.Ok? <==> q in KnownQualities
    ensures r.Ok? ==> r.value.name == q
    ensures r.Err? ==> r.error == "unknown quality: " + q
  {
    if q == "1080p" then Ok(Quality("1080p", 1920, 1080, "5000k"))
    else if q == "720p" then Ok(Quality("720p", 1280, 720, "2800k"))
    else if q == "480p" then Ok(Quality("480p", 854, 480, "1400k"))
    else if q == "360p" then Ok(Quality("360p", 640, 360, "800k"))
    else if q == "240p" then Ok(Quality("240p", 426, 240, "400k"))
    else Err("unknown quality: " + q)
  }

  /** `ffmpeg`'s kbit/s notation: the number followed by 'k'. */
  function Kbps(n: int): string
  {
    IntToString(n) + "k"
  }

  /** Reads a kbit/s value back. */
  function ParseKbps(s: string): (r: Option<nat>)
    ensures r.Some? ==> HasSuffix(s, "k")
  {
    if HasSuffix(s, "k") then ParseNat(s[..|s| - 1]) else None
  }

  lemma KbpsRoundTrip(n: nat)
    ensures ParseKbps(Kbps(n)) == Some(n)
  {
    assert Kbps(n)[..|Kbps(n)| - 1] == NatToString(n);
    ParseNatToString(n);
  }

  /** Every quality `ParseQuality` accepts is the catalogue rung of the same name, with
      its dimensions and its video bitrate in kbit/s; "4k" is in the catalogue but rejected. */
  lemma ParseQualityMatchesCatalog(l: QualityLevel)
    requires l in Catalog
    ensures l.name == "4k" <==> ParseQuality(l.name).Err?
    ensures l.name != "4k" ==> ParseQuality(l.name) == Ok(Quality(l.name, l.width, l.height, Kbps(l.bitrate)))
  {
    CatalogKbps();
  }

  /** The kbit/s text of the catalogue's video bitrates below 4k. */
  lemma CatalogKbps()
    ensures Kbps(5000) == "5000k" && Kbps(2800) == "2800k" && Kbps(1400) == "1400k"
    ensures Kbps(800) == "800k" && Kbps(400) == "400k"
  {
    assert Kbps(5000) == "5000k" && Kbps(2800) == "2800k" && Kbps(1400) == "1400k";
  }

  /** The check `NewFFmpegGoImpl` makes of one configured quality name. */
  function CheckQuality(q: string): (o: Outcome)
    ensures o == (if ParseQuality(q).Ok? then Pass else Fail(ParseQuality(q).error))
  {
    if q in KnownQualities then Pass else Fail("unknown quality: " + q)
  }

  /** The qualities in order, or the error of the first unknown one. */
  function ParseQualities(qs: seq<string>): (r: Result<seq<Quality>>)
    ensures r.Ok? ==> |r.value| == |qs|
    decreases |qs|
  {
    if |qs| == 0 then Ok([])
    else
      match ParseQuality(qs[0])
      case Err(e) => Err(e)
      case Ok(q) =>
        match ParseQualities(qs[1..])
        case Err(e) => Err(e)
        case Ok(rest) => Ok([q] + rest)
  }

  /** Parsing succeeds exactly when every name is known, and then keeps each parsed name in
      place; otherwise it reports the first unknown name. */
  lemma {:induction false} ParseQualitiesMeaning(qs: seq<string>)
    ensures var r := ParseQualities(qs);
      var k := FirstFailure(qs, CheckQuality);
      && (r.Ok? <==> k == |qs|)
      && (r.Ok? <==> forall i :: 0 <= i < |qs| ==> qs[i] in KnownQualities)
      && (r.Ok? ==> forall i :: 0 <= i < |qs| ==> r.value[i] == ParseQuality(qs[i]).value)
      && (r.Err? ==> k < |qs| && r.error == "unknown quality: " + qs[k])
    decreases |qs|
  {
    if |qs| > 0 {
      var tail := qs[1..];
      ParseQualitiesMeaning(tail);
      assert forall i :: 1 <= i < |qs| ==> qs[i] == tail[i - 1];
      if ParseQuality(qs[0]).Ok? {
        var r := ParseQualities(qs);
        if r.Ok? {
          assert forall i :: 1 <= i < |qs| ==> r.value[i] == ParseQualities(tail).value[i - 1];
        }
      }
    }
  }

  /** The encoder's settings, fixed at construction. */
  datatype FFmpegGoImpl = FFmpegGoImpl(
    ffmpegPath: string,
    ffmpegThreads: int,
    ffmpegPreset: string,
    ffmpegCRF: int,
    ffmpegSegmentLength: int,
    outputFormats: seq<string>,
    outputQualities: seq<Quality>,
    tempDir: string)

  /** Construction: parses the configured qualities in order, failing on the first unknown one;
      every other setting is stored as given. */
  method NewFFmpegGoImpl(ffmpegPath: string, ffmpegThreads: int, ffmpegPreset: string, ffmpegCRF: int,
                         ffmpegSegmentLength: int, outputFormats: seq<string>, outputQualities: seq<string>,
                         tempDir: string)
    returns (r: Result<FFmpegGoImpl>)
    ensures r.Ok? <==> ParseQualities(outputQualities).Ok?
    ensures r.Err? ==> r.error == ParseQualities(outputQualities).error
    ensures r.Ok? ==> r.value == FFmpegGoImpl(ffmpegPath, ffmpegThreads, ffmpegPreset, ffmpegCRF,
                                              ffmpegSegmentLength, outputFormats,
                                              ParseQualities(outputQualities).value, tempDir)
  {
    ParseQualitiesMeaning(outputQualities);
    var qualities: seq<Quality> := [];
    var i := 0;
    while i < |outputQualities|
      invariant 0 <= i <= |outputQualities|
      invariant i <= FirstFailure(outputQualities, CheckQuality)
      invariant |qualities| == i
      invariant forall j :: 0 <= j < i ==> qualities[j] == ParseQuality(outputQualities[j]).value
    {
      var quality := ParseQuality(outputQualities[i]);
      if quality.Err? {
        FirstFailureAt(outputQualities, CheckQuality, i);
        return Err(quality.error);
      }
      FirstFailurePast(outputQualities, CheckQuality, i);
      qualities := qualities + [quality.value];
      i := i + 1;
    }
    FirstFailureAt(outputQualities, CheckQuality, i);
    return Ok(FFmpegGoImpl(ffmpegPath, ffmpegThreads, ffmpegPreset, ffmpegCRF, ffmpegSegmentLength,
                           outputFormats, qualities, tempDir));
  }

  /** The value ffmpeg reads for `flag` on a command line: options are read as flag/value
      pairs from the front, and the first occurrence of a flag wins. */
  function OptionValue(args: seq<string>, flag: string): Option<string>
    decreases |args|
  {
    if |args| < 2 then None
    else if args[0] == flag then Some(args[1])
    else OptionValue(args[2..], flag)
  }

  /** Reading from a run of whole pairs followed by more arguments: the run wins when the flag is in it. */
  lemma {:induction false} OptionValueAppend(a: seq<string>, b: seq<string>, flag: string)
    requires |a| % 2 == 0
    ensures OptionValue(a + b, flag) == if OptionValue(a, flag).Some? then OptionValue(a, flag) else OptionValue(b, flag)
    decreases |a|
  {
    if |a| == 0 {
      assert a + b == b;
    } else {
      assert (a + b)[2..] == a[2..] + b;
      OptionValueAppend(a[2..], b, flag);
    }
  }

  /** A flag at pair position `k`, not given earlier, is read with the value after it. */
  lemma {:induction false} OptionValueAt(args: seq<string>, k: nat, flag: string)
    requires k % 2 == 0 && k + 1 < |args| && args[k] == flag
    requires forall j :: 0 <= j < k && j % 2 == 0 ==> args[j] != flag
    ensures OptionValue(args, flag) == Some(args[k + 1])
    decreases k
  {
    if k > 0 {
      assert args[k] == args[2..][k - 2];
      OptionValueAt(args[2..], k - 2, flag);
    }
  }

  /** A flag at no pair position of a run of whole pairs is not read from it. */
  lemma {:induction false} OptionValueAbsent(args: seq<string>, flag: string)
    requires |args| % 2 == 0
    requires forall j :: 0 <= j < |args| && j % 2 == 0 ==> args[j] != flag
    ensures OptionValue(args, flag) == None
    decreases |args|
  {
    if |args| > 0 {
      assert forall j :: 0 <= j < |args| - 2 && j % 2 == 0 ==> args[2..][j] == args[j + 2];
      OptionValueAbsent(args[2..], flag);
    }
  }

  /** Reading across four consecutive parts of a command line, the first three made of whole pairs. */
  lemma OptionValueParts(s: seq<string>, r: seq<string>, a: seq<string>, x: seq<string>, flag: string)
    requires |s| % 2 == 0 && |r| % 2 == 0 && |a| % 2 == 0
    ensures OptionValue(s + (r + (a + x)), flag) ==
      if OptionValue(s, flag).Some? then OptionValue(s, flag)
      else if OptionValue(r, flag).Some? then OptionValue(r, flag)
      else if OptionValue(a, flag).Some? then OptionValue(a, flag)
      else OptionValue(x, flag)
  {
    OptionValueAppend(a, x, flag);
    OptionValueAppend(r, a + x, flag);
    OptionValueAppend(s, r + (a + x), flag);
  }

  /** The input and video codec options. */
  function SourceArgs(inputPath: string, preset: string, crf: int): seq<string>
  {
    ["-i", inputPath, "-c:v", "libx264", "-preset", preset, "-crf", IntToString(crf)]
  }

  /** The rate-control and scaling options of a rung. */
  function RateArgs(l: QualityLevel): seq<string>
  {
    ["-maxrate", Kbps(l.bitrate), "-bufsize", Kbps(l.bitrate * 2),
     "-vf", "scale=" + IntToString(l.width) + ":" + IntToString(l.height)]
  }

  /** The audio options of a rung. */
  function AudioArgs(l: QualityLevel): seq<string>
  {
    ["-c:a", "aac", "-b:a", Kbps(l.audioBitrate), "-ar", "48000", "-ac", "2"]
  }

  /** The HLS muxer options, segments named in `qualityDir`. */
  function HlsFormatArgs(t: FFmpegGoImpl, qualityDir: string): seq<string>
  {
    ["-f", "hls", "-hls_time", IntToString(t.ffmpegSegmentLength), "-hls_list_size", "0",
     "-hls_segment_filename", Join(qualityDir, "segment_%03d.ts"), "-hls_flags", "independent_segments",
     "-threads", IntToString(t.ffmpegThreads), "-progress", "pipe:1"]
  }

  /** The MP4 muxer options. */
  function Mp4FormatArgs(t: FFmpegGoImpl): seq<string>
  {
    ["-movflags", "+faststart", "-threads", IntToString(t.ffmpegThreads), "-progress", "pipe:1"]
  }

  /** The command line encoding one rung to HLS in `qualityDir`: the options, then the rung's playlist. */
  function HlsCommand(t: FFmpegGoImpl, inputPath: string, qualityDir: string, l: QualityLevel): seq<string>
  {
    SourceArgs(inputPath, t.ffmpegPreset, t.ffmpegCRF)
    + (RateArgs(l) + (AudioArgs(l) + (HlsFormatArgs(t, qualityDir) + [Join(qualityDir, "playlist.m3u8")])))
  }

  /** The command line encoding one rung to `<mp4Dir>/<name>.mp4`. */
  function Mp4Command(t: FFmpegGoImpl, inputPath: string, mp4Dir: string, l: QualityLevel): seq<string>
  {
    SourceArgs(inputPath, t.ffmpegPreset, t.ffmpegCRF)
    + (RateArgs(l) + (AudioArgs(l) + (Mp4FormatArgs(t) + [Join(mp4Dir, l.name + ".mp4")])))
  }

  /** The input options give the input path and none of the later options. */
  lemma SourceArgsReads(inputPath: string, preset: string, crf: int, flag: string)
    requires flag !in ["-i", "-c:v", "-preset", "-crf"]
    ensures OptionValue(SourceArgs(inputPath, preset, crf), "-i") == Some(inputPath)
    ensures OptionValue(SourceArgs(inputPath, preset, crf), flag) == None
  {
    OptionValueAt(SourceArgs(inputPath, preset, crf), 0, "-i");
    OptionValueAbsent(SourceArgs(inputPath, preset, crf), flag);
  }

  /** The rate options give a maximum rate of the rung's bitrate, a buffer of twice that, and a
      scale filter to the rung's size. */
  lemma RateArgsReads(l: QualityLevel)
    ensures OptionValue(RateArgs(l), "-maxrate") == Some(Kbps(l.bitrate))
    ensures OptionValue(RateArgs(l), "-bufsize") == Some(Kbps(2 * l.bitrate))
    ensures OptionValue(RateArgs(l), "-vf") == Some("scale=" + IntToString(l.width) + ":" + IntToString(l.height))
  {
    OptionValueAt(RateArgs(l), 0, "-maxrate");
    OptionValueAt(RateArgs(l), 2, "-bufsize");
    OptionValueAt(RateArgs(l), 4, "-vf");
  }

  lemma RateArgsLack(l: QualityLevel, flag: string)
    requires flag !in ["-maxrate", "-bufsize", "-vf"]
    ensures OptionValue(RateArgs(l), flag) == None
  {
    OptionValueAbsent(RateArgs(l), flag);
  }

  lemma AudioArgsLack(l: QualityLevel, flag: string)
    requires flag !in ["-c:a", "-b:a", "-ar", "-ac"]
    ensures OptionValue(AudioArgs(l), flag) == None
  {
    OptionValueAbsent(AudioArgs(l), flag);
  }

  /** The HLS options give the segment length and the segment file pattern. */
  lemma HlsFormatArgsReads(t: FFmpegGoImpl, qualityDir: string)
    ensures OptionValue(HlsFormatArgs(t, qualityDir), "-hls_time") == Some(IntToString(t.ffmpegSegmentLength))
    ensures OptionValue(HlsFormatArgs(t, qualityDir), "-hls_segment_filename") == Some(Join(qualityDir, "segment_%03d.ts"))
  {
    OptionValueAt(HlsFormatArgs(t, qualityDir), 2, "-hls_time");
    OptionValueAt(HlsFormatArgs(t, qualityDir), 6, "-hls_segment_filename");
  }

  /** The rate and scale options ffmpeg reads from a command line made of the source, rate and
      audio options followed by anything. */
  lemma EncodeArgsReads(inputPath: string, preset: string, crf: int, l: QualityLevel, x: seq<string>)
    ensures var args := SourceArgs(inputPath, preset, crf) + (RateArgs(l) + (AudioArgs(l) + x));
      && OptionValue(args, "-i") == Some(inputPath)
      && OptionValue(args, "-maxrate") == Some(Kbps(l.bitrate))
      && OptionValue(args, "-bufsize") == Some(Kbps(2 * l.bitrate))
      && OptionValue(args, "-vf") == Some("scale=" + IntToString(l.width) + ":" + IntToString(l.height))
  {
    var s, r, a := SourceArgs(inputPath, preset, crf), RateArgs(l), AudioArgs(l);
    OptionValueParts(s, r, a, x, "-i");
    OptionValueParts(s, r, a, x, "-maxrate");
    OptionValueParts(s, r, a, x, "-bufsize");
    OptionValueParts(s, r, a, x, "-vf");
    SourceArgsReads(inputPath, preset, crf, "-maxrate");
    SourceArgsReads(inputPath, preset, crf, "-bufsize");
    SourceArgsReads(inputPath, preset, crf, "-vf");
    RateArgsReads(l);
  }

  /** A muxer option that none of the source, rate and audio options set is read from what follows them. */
  lemma MuxerArgReads(inputPath: string, preset: string, crf: int, l: QualityLevel, x: seq<string>, flag: string)
    requires flag in ["-hls_time", "-hls_segment_filename", "-movflags"]
    ensures OptionValue(SourceArgs(inputPath, preset, crf) + (RateArgs(l) + (AudioArgs(l) + x)), flag) == OptionValue(x, flag)
  {
    OptionValueParts(SourceArgs(inputPath, preset, crf), RateArgs(l), AudioArgs(l), x, flag);
    SourceArgsReads(inputPath, preset, crf, flag);
    RateArgsLack(l, flag);
    AudioArgsLack(l, flag);
  }

  /** What ffmpeg reads from an HLS command line: the input, the rate limits, the scale
      filter, the segment length and segment names, and the rung's playlist as output. */
  lemma HlsCommandReads(t: FFmpegGoImpl, inputPath: string, qualityDir: string, l: QualityLevel)
    ensures var args := HlsCommand(t, inputPath, qualityDir, l);
      && OptionValue(args, "-i") == Some(inputPath)
      && OptionValue(args, "-maxrate") == Some(Kbps(l.bitrate))
      && OptionValue(args, "-bufsize") == Some(Kbps(2 * l.bitrate))
      && OptionValue(args, "-vf") == Some("scale=" + IntToString(l.width) + ":" + IntToString(l.height))
      && OptionValue(args, "-hls_time") == Some(IntToString(t.ffmpegSegmentLength))
      && OptionValue(args, "-hls_segment_filename") == Some(Join(qualityDir, "segment_%03d.ts"))
      && args[|args| - 1] == Join(qualityDir, "playlist.m3u8")
  {
    var h := HlsFormatArgs(t, qualityDir);
    var x := h + [Join(qualityDir, "playlist.m3u8")];
    EncodeArgsReads(inputPath, t.ffmpegPreset, t.ffmpegCRF, l, x);
    MuxerArgReads(inputPath, t.ffmpegPreset, t.ffmpegCRF, l, x, "-hls_time");
    MuxerArgReads(inputPath, t.ffmpegPreset, t.ffmpegCRF, l, x, "-hls_segment_filename");
    HlsFormatArgsReads(t, qualityDir);
    OptionValueAppend(h, [Join(qualityDir, "playlist.m3u8")], "-hls_time");
    OptionValueAppend(h, [Join(qualityDir, "playlist.m3u8")], "-hls_segment_filename");
  }

  /** What ffmpeg reads from an MP4 command line. */
  lemma Mp4CommandReads(t: FFmpegGoImpl, inputPath: string, mp4Dir: string, l: QualityLevel)
    ensures var args := Mp4Command(t, inputPath, mp4Dir, l);
      && OptionValue(args, "-i") == Some(inputPath)
      && OptionValue(args, "-maxrate") == Some(Kbps(l.bitrate))
      && OptionValue(args, "-bufsize") == Some(Kbps(2 * l.bitrate))
      && OptionValue(args, "-vf") == Some("scale=" + IntToString(l.width) + ":" + IntToString(l.height))
      && OptionValue(args, "-movflags") == Some("+faststart")
      && args[|args| - 1] == Join(mp4Dir, l.name + ".mp4")
  {
    var m := Mp4FormatArgs(t);
    var x := m + [Join(mp4Dir, l.name + ".mp4")];
    EncodeArgsReads(inputPath, t.ffmpegPreset, t.ffmpegCRF, l, x);
    MuxerArgReads(inputPath, t.ffmpegPreset, t.ffmpegCRF, l, x, "-movflags");
    OptionValueAt(m, 0, "-movflags");
    OptionValueAppend(m, [Join(mp4Dir, l.name + ".mp4")], "-movflags");
  }

  /** The buffer size ffmpeg reads is twice the maximum rate it reads, both in kbit/s. */
  lemma BufsizeTwiceMaxrate(t: FFmpegGoImpl, inputPath: string, qualityDir: string, l: QualityLevel)
    requires l.bitrate >= 0
    ensures var args := HlsCommand(t, inputPath, qualityDir, l);
      && OptionValue(args, "-maxrate").Some? && OptionValue(args, "-bufsize").Some?
      && ParseKbps(OptionValue(args, "-maxrate").value).Some?
      && ParseKbps(OptionValue(args, "-bufsize").value)
         == Some(2 * ParseKbps(OptionValue(args, "-maxrate").value).value)
  {
    HlsCommandReads(t, inputPath, qualityDir, l);
    KbpsRoundTrip(l.bitrate);
    KbpsRoundTrip(2 * l.bitrate);
  }

  /** A file the encoder writes and its full text. */
  datatype FileWrite = FileWrite(path: string, content: string)

  /** The file-system calls of the live encoder, as their outcomes on the path they are
      given: `os.MkdirAll` and `os.Create`. */
  datatype FileSystem = FileSystem(mkdirAll: string -> Outcome, create: string -> Outcome)

  /** One ffmpeg process of the live encoder: creating its progress pipe, starting it or
      waiting for it failed, or it exited cleanly. */
  datatype Process = PipeFailed(error: string) | StartFailed(error: string) | WaitFailed(error: string) | Exited

  /** The error the live encoder returns for one ffmpeg process. */
  function ProcessOutcome(p: Process): (o: Outcome)
    ensures o.Pass? <==> p.Exited?
    ensures p.PipeFailed? ==> o == Fail("failed to create progress pipe: " + p.error)
    ensures p.StartFailed? ==> o == Fail("failed to start ffmpeg: " + p.error)
    ensures p.WaitFailed? ==> o == Fail("failed to transcode video: " + p.error)
  {
    match p
    case PipeFailed(e) => Fail("failed to create progress pipe: " + e)
    case StartFailed(e) => Fail("failed to start ffmpeg: " + e)
    case WaitFailed(e) => Fail("failed to transcode video: " + e)
    case Exited => Pass
  }

  /** The HLS command line of each rung, encoding into `<outputDir>/<name>`. */
  function HlsCommandFor(t: FFmpegGoImpl, inputPath: string, outputDir: string): QualityLevel -> seq<string>
  {
    (l: QualityLevel) => HlsCommand(t, inputPath, Join(outputDir, l.name), l)
  }

  /** The MP4 command line of each rung, encoding into `mp4Dir`. */
  function Mp4CommandFor(t: FFmpegGoImpl, inputPath: string, mp4Dir: string): QualityLevel -> seq<string>
  {
    (l: QualityLevel) => Mp4Command(t, inputPath, mp4Dir, l)
  }

  /** The media playlist file of one rung: `<outputDir>/<name>/playlist.m3u8` holding `header`. */
  function VariantFile(outputDir: string, header: string, l: QualityLevel): FileWrite
  {
    FileWrite(Join(Join(outputDir, l.name), "playlist.m3u8"), header)
  }

  /** The media playlist file of every rung, in order. */
  function VariantFiles(outputDir: string, header: string, levels: seq<QualityLevel>): (files: seq<FileWrite>)
    ensures |files| == |levels|
    ensures forall i :: 0 <= i < |levels| ==> files[i] == VariantFile(outputDir, header, levels[i])
  {
    if |levels| == 0 then [] else VariantFiles(outputDir, header, levels[..|levels| - 1]) + [VariantFile(outputDir, header, levels[|levels| - 1])]
  }

  /** The media playlists an encode loop that stopped after `done` good rungs wrote: those
      of the good rungs, and that of the rung it stopped at when its file was `made`. */
  function WrittenPlaylists(outputDir: string, header: string, levels: seq<QualityLevel>, done: nat,
                            made: QualityLevel -> bool): (files: seq<FileWrite>)
    requires done <= |levels|
    ensures |files| == (if done < |levels| && made(levels[done]) then done + 1 else done)
    ensures forall i :: 0 <= i < |files| ==> files[i] == VariantFile(outputDir, header, levels[i])
  {
    VariantFiles(outputDir, header, levels[..done])
      + (if done < |levels| && made(levels[done]) then [VariantFile(outputDir, header, levels[done])] else [])
  }

  /** Whether a rung's directory and media playlist file were both created. */
  function PlaylistMade(fs: FileSystem, outputDir: string): QualityLevel -> bool
  {
    (l: QualityLevel) => fs.mkdirAll(Join(outputDir, l.name)).Pass?
                         && fs.create(Join(Join(outputDir, l.name), "playlist.m3u8")).Pass?
  }

  /** One rung of the live HLS loop: its directory, then its media playlist file, then the
      ffmpeg process on its command line; the first of them that fails is the error. */
  function HlsRungOutcome(fs: FileSystem, outputDir: string, command: QualityLevel -> seq<string>,
                          ffmpeg: seq<string> -> Process, l: QualityLevel): (o: Outcome)
    ensures o.Pass? <==> PlaylistMade(fs, outputDir)(l) && ffmpeg(command(l)).Exited?
    ensures fs.mkdirAll(Join(outputDir, l.name)).Fail? ==>
      o == Fail("failed to create quality directory: " + fs.mkdirAll(Join(outputDir, l.name)).error)
    ensures fs.mkdirAll(Join(outputDir, l.name)).Pass? && fs.create(Join(Join(outputDir, l.name), "playlist.m3u8")).Fail? ==>
      o == Fail("failed to create playlist: " + fs.create(Join(Join(outputDir, l.name), "playlist.m3u8")).error)
    ensures PlaylistMade(fs, outputDir)(l) ==> o == ProcessOutcome(ffmpeg(command(l)))
  {
    var qualityDir := Join(outputDir, l.name);
    var made := fs.mkdirAll(qualityDir);
    if made.Fail? then Fail("failed to create quality directory: " + made.error)
    else
      var created := fs.create(Join(qualityDir, "playlist.m3u8"));
      if created.Fail? then Fail("failed to create playlist: " + created.error)
      else ProcessOutcome(ffmpeg(command(l)))
  }

  /** The rung outcomes of the live HLS loop. */
  function HlsRung(fs: FileSystem, outputDir: string, command: QualityLevel -> seq<string>,
                   ffmpeg: seq<string> -> Process): QualityLevel -> Outcome
  {
    (l: QualityLevel) => HlsRungOutcome(fs, outputDir, command, ffmpeg, l)
  }

  /** The rung outcomes of the live MP4 loop: one ffmpeg process each. */
  function Mp4Rung(command: QualityLevel -> seq<string>, ffmpeg: seq<string> -> Process): QualityLevel -> Outcome
  {
    (l: QualityLevel) => ProcessOutcome(ffmpeg(command(l)))
  }

  /** The effect of an HLS encode: the master playlist text (none when the file was never
      created), the media playlist files written, the rungs the loop reached, and the
      returned error. */
  datatype HlsRun = HlsRun(master: Option<string>, playlists: seq<FileWrite>, attempted: seq<QualityLevel>, result: Outcome)

  /** Whether the live encoder's set-up before its rung loop succeeds: the log file, then for
      HLS the output directory and the master playlist file. */
  predicate HlsSetUp(t: FFmpegGoImpl, inputPath: string, outputDir: string, setupLogging: (string, string) -> Outcome,
                     fs: FileSystem)
  {
    && setupLogging(VideoIDOf(inputPath), t.tempDir).Pass?
    && fs.mkdirAll(outputDir).Pass?
    && fs.create(Join(outputDir, "master.m3u8")).Pass?
  }

  /** HLS encoding. The log file, the output directory and the master playlist file are made
      first, each failure returning its own error before any rung. Then, for each rung of the
      ladder, its directory and media playlist are made and ffmpeg runs; the first failure
      returns at once, so no later rung is reached; a rung enters the master playlist only
      after its run succeeds. `setupLogging` is the outcome of making the log file of a video
      ID in a temporary directory. */
  method TranscodeToHLS(t: FFmpegGoImpl, inputPath: string, outputDir: string, inputWidth: int, inputHeight: int,
                        setupLogging: (string, string) -> Outcome, fs: FileSystem, ffmpeg: seq<string> -> Process)
    returns (run: HlsRun)
    ensures var logging := setupLogging(VideoIDOf(inputPath), t.tempDir);
      logging.Fail? ==> run == HlsRun(None, [], [], Fail("failed to setup logging: " + logging.error))
    ensures setupLogging(VideoIDOf(inputPath), t.tempDir).Pass? && fs.mkdirAll(outputDir).Fail? ==>
      run == HlsRun(None, [], [], Fail("failed to create output directory: " + fs.mkdirAll(outputDir).error))
    ensures setupLogging(VideoIDOf(inputPath), t.tempDir).Pass? && fs.mkdirAll(outputDir).Pass?
            && fs.create(Join(outputDir, "master.m3u8")).Fail? ==>
      run == HlsRun(None, [], [], Fail("failed to create master playlist: " + fs.create(Join(outputDir, "master.m3u8")).error))
    ensures HlsSetUp(t, inputPath, outputDir, setupLogging, fs) ==>
      var levels := Ladder(inputWidth, inputHeight);
      var step := HlsRung(fs, outputDir, HlsCommandFor(t, inputPath, outputDir), ffmpeg);
      var n := FirstFailure(levels, step);
      && (run.result.Pass? <==> n == |levels|)
      && (run.result.Fail? ==> n < |levels| && run.result == step(levels[n]))
      && run.master == Some(MasterPlaylist(levels[..n]))
      && run.attempted == levels[..RanCount(n, |levels|)]
      && run.playlists == WrittenPlaylists(outputDir, VariantHeader(t.ffmpegSegmentLength), levels, n,
                                           PlaylistMade(fs, outputDir))
  {
    var videoID := VideoIDOf(inputPath);
    var o := setupLogging(videoID, t.tempDir);
    if o.Fail? {
      return HlsRun(None, [], [], Fail("failed to setup logging: " + o.error));
    }
    var levels := GetQualityLevels(inputWidth, inputHeight);
    o := fs.mkdirAll(outputDir);
    if o.Fail? {
      return HlsRun(None, [], [], Fail("failed to create output directory: " + o.error));
    }
    o := fs.create(Join(outputDir, "master.m3u8"));
    if o.Fail? {
      return HlsRun(None, [], [], Fail("failed to create master playlist: " + o.error));
    }
    MasterHeaderText();
    run := EncodeHls(outputDir, "#EXTM3U\n" + "#EXT-X-VERSION:3\n", VariantHeader(t.ffmpegSegmentLength), MasterEntry,
                     levels, HlsCommandFor(t, inputPath, outputDir), fs, ffmpeg);
    MasterPlaylistAppended(levels[..FirstFailure(levels, HlsRung(fs, outputDir, HlsCommandFor(t, inputPath, outputDir), ffmpeg))]);
  }

  /** The text `header` followed by the `entry` of each rung, in order. */
  function Appended(header: string, entry: QualityLevel -> string, levels: seq<QualityLevel>): (text: string)
    ensures HasPrefix(text, header)
  {
    if |levels| == 0 then header
    else Appended(header, entry, levels[..|levels| - 1]) + entry(levels[|levels| - 1])
  }

  /** A text built by appending one `entry` per rung is an `Appended` text. */
  lemma {:induction false} AppendedOf(text: seq<QualityLevel> -> string, entry: QualityLevel -> string,
                                      levels: seq<QualityLevel>)
    requires forall ls :: |ls| > 0 ==> text(ls) == text(ls[..|ls| - 1]) + entry(ls[|ls| - 1])
    ensures text(levels) == Appended(text([]), entry, levels)
    decreases |levels|
  {
    if |levels| > 0 {
      AppendedOf(text, entry, levels[..|levels| - 1]);
    }
  }

  /** The master playlist is its header followed by one master entry per rung. */
  lemma MasterPlaylistAppended(levels: seq<QualityLevel>)
    ensures MasterPlaylist(levels) == Appended(MasterPlaylist([]), MasterEntry, levels)
  {
    forall ls: seq<QualityLevel> | |ls| > 0
      ensures MasterPlaylist(ls) == MasterPlaylist(ls[..|ls| - 1]) + MasterEntry(ls[|ls| - 1])
    {
      MasterPlaylistSnoc(ls);
    }
    AppendedOf(MasterPlaylist, MasterEntry, levels);
  }

  /** The HLS encode loop over the given rungs: the master text starts as `masterHeader` and
      gains the `entry` of each rung that encodes; each rung's directory is made and its media
      playlist started with `mediaHeader`; each rung is encoded with its `command` line. */
  method EncodeHls(outputDir: string, masterHeader: string, mediaHeader: string, entry: QualityLevel -> string,
                   levels: seq<QualityLevel>, command: QualityLevel -> seq<string>, fs: FileSystem,
                   ffmpeg: seq<string> -> Process)
    returns (run: HlsRun)
    ensures var step := HlsRung(fs, outputDir, command, ffmpeg);
      var n := FirstFailure(levels, step);
      && (run.result.Pass? <==> n == |levels|)
      && (run.result.Fail? ==> n < |levels| && run.result == step(levels[n]))
      && run.master == Some(Appended(masterHeader, entry, levels[..n]))
      && run.attempted == levels[..RanCount(n, |levels|)]
      && run.playlists == WrittenPlaylists(outputDir, mediaHeader, levels, n, PlaylistMade(fs, outputDir))
  {
    ghost var step := HlsRung(fs, outputDir, command, ffmpeg);
    var master := masterHeader;
    assert levels[..0] == [];
    var playlists: seq<FileWrite> := [];
    var i := 0;
    while i < |levels|
      invariant 0 <= i <= |levels|
      invariant i <= FirstFailure(levels, step)
      invariant master == Appended(masterHeader, entry, levels[..i])
      invariant playlists == VariantFiles(outputDir, mediaHeader, levels[..i])
    {
      var quality := levels[i];
      var o, written := EncodeHlsRung(outputDir, mediaHeader, quality, command, fs, ffmpeg);
      assert step(quality) == o;
      playlists := playlists + written;
      if o.Fail? {
        FirstFailureAt(levels, step, i);
        assert playlists == WrittenPlaylists(outputDir, mediaHeader, levels, i, PlaylistMade(fs, outputDir));
        return HlsRun(Some(master), playlists, levels[..i + 1], o);
      }
      EncodedSnoc(outputDir, mediaHeader, masterHeader, entry, levels, i);
      master := master + entry(quality);
      FirstFailurePast(levels, step, i);
      i := i + 1;
    }
    FirstFailureAt(levels, step, i);
    AllEncoded(outputDir, mediaHeader, levels, PlaylistMade(fs, outputDir));
    return HlsRun(Some(master), playlists, levels, Pass);
  }

  /** One more good rung extends both the master text and the media playlists by that rung. */
  lemma EncodedSnoc(outputDir: string, mediaHeader: string, masterHeader: string, entry: QualityLevel -> string,
                    levels: seq<QualityLevel>, i: nat)
    requires i < |levels|
    ensures Appended(masterHeader, entry, levels[..i + 1]) == Appended(masterHeader, entry, levels[..i]) + entry(levels[i])
    ensures VariantFiles(outputDir, mediaHeader, levels[..i + 1])
            == VariantFiles(outputDir, mediaHeader, levels[..i]) + [VariantFile(outputDir, mediaHeader, levels[i])]
  {
    assert levels[..i + 1][..i] == levels[..i];
  }

  /** One more good rung extends the media playlists by that rung's. */
  lemma VariantFilesSnoc(outputDir: string, mediaHeader: string, levels: seq<QualityLevel>, i: nat)
    requires i < |levels|
    ensures VariantFiles(outputDir, mediaHeader, levels[..i + 1])
            == VariantFiles(outputDir, mediaHeader, levels[..i]) + [VariantFile(outputDir, mediaHeader, levels[i])]
  {
    assert levels[..i + 1][..i] == levels[..i];
  }

  /** A loop that encoded every rung wrote the media playlists of all of them. */
  lemma AllEncoded(outputDir: string, mediaHeader: string, levels: seq<QualityLevel>, made: QualityLevel -> bool)
    ensures levels[..|levels|] == levels
    ensures WrittenPlaylists(outputDir, mediaHeader, levels, |levels|, made) == VariantFiles(outputDir, mediaHeader, levels)
  {
    assert levels[..|levels|] == levels;
  }

  /** One rung of the HLS loop: its directory is made, then its media playlist is created and
      started with `mediaHeader`, then ffmpeg runs on its command line; the first failure is
      returned. `written` is the playlist file, when it was created. */
  method EncodeHlsRung(outputDir: string, mediaHeader: string, quality: QualityLevel, command: QualityLevel -> seq<string>,
                       fs: FileSystem, ffmpeg: seq<string> -> Process)
    returns (o: Outcome, written: seq<FileWrite>)
    ensures o == HlsRungOutcome(fs, outputDir, command, ffmpeg, quality)
    ensures written == if PlaylistMade(fs, outputDir)(quality) then [VariantFile(outputDir, mediaHeader, quality)] else []
  {
    var qualityDir := Join(outputDir, quality.name);
    o := fs.mkdirAll(qualityDir);
    if o.Fail? {
      return Fail("failed to create quality directory: " + o.error), [];
    }
    var playlistPath := Join(qualityDir, "playlist.m3u8");
    o := fs.create(playlistPath);
    if o.Fail? {
      return Fail("failed to create playlist: " + o.error), [];
    }
    written := [FileWrite(playlistPath, mediaHeader)];
    var args := command(quality);
    var p := ffmpeg(args);
    match p
    case PipeFailed(e) => o := Fail("failed to create progress pipe: " + e);
    case StartFailed(e) => o := Fail("failed to start ffmpeg: " + e);
    case WaitFailed(e) => o := Fail("failed to transcode video: " + e);
    case Exited => o := Pass;
  }

  /** The two lines of a master entry, as the encoder writes them. */
  lemma MasterEntryText(l: QualityLevel)
    ensures MasterEntry(l) == StreamInf(l.bitrate * 1000, l.width, l.height) + "\n" + (l.name + "/playlist.m3u8\n")
  {
    var e := EntryLines(l);
    assert e[1..][1..] == [];
    assert Lines(e[1..]) == e[1] + "\n";
  }

  /** A process that cannot be started, as when the ffmpeg binary is missing, ends the HLS
      loop at the first rung whose files were made, with `failed to start ffmpeg:`. */
  lemma StartFailureReported(fs: FileSystem, outputDir: string, command: QualityLevel -> seq<string>,
                             ffmpeg: seq<string> -> Process, levels: seq<QualityLevel>, e: string)
    requires |levels| > 0 && PlaylistMade(fs, outputDir)(levels[0])
    requires ffmpeg(command(levels[0])) == StartFailed(e)
    ensures var step := HlsRung(fs, outputDir, command, ffmpeg);
      && FirstFailure(levels, step) == 0
      && step(levels[0]) == Fail("failed to start ffmpeg: " + e)
      && levels[..RanCount(0, |levels|)] == [levels[0]]
  {
    var step := HlsRung(fs, outputDir, command, ffmpeg);
    assert step(levels[0]) == ProcessOutcome(StartFailed(e));
    FirstFailureAt(levels, step, 0);
  }

  /** The effect of an MP4 encode: the rungs the loop reached and the returned error. */
  datatype Mp4Run = Mp4Run(attempted: seq<QualityLevel>, result: Outcome)

  /** MP4 encoding into `<outputDir>/mp4/<name>.mp4`. The log file and the MP4 directory are
      made first, each failure returning its own error before any rung; then one ffmpeg
      process per rung of the ladder, stopping at the first failure. */
  method TranscodeToMP4(t: FFmpegGoImpl, inputPath: string, outputDir: string, inputWidth: int, inputHeight: int,
                        setupLogging: (string, string) -> Outcome, fs: FileSystem, ffmpeg: seq<string> -> Process)
    returns (run: Mp4Run)
    ensures var logging := setupLogging(VideoIDOf(inputPath), t.tempDir);
      logging.Fail? ==> run == Mp4Run([], Fail("failed to setup logging: " + logging.error))
    ensures setupLogging(VideoIDOf(inputPath), t.tempDir).Pass? && fs.mkdirAll(Join(outputDir, "mp4")).Fail? ==>
      run == Mp4Run([], Fail("failed to create MP4 directory: " + fs.mkdirAll(Join(outputDir, "mp4")).error))
    ensures setupLogging(VideoIDOf(inputPath), t.tempDir).Pass? && fs.mkdirAll(Join(outputDir, "mp4")).Pass? ==>
      var levels := Ladder(inputWidth, inputHeight);
      var step := Mp4Rung(Mp4CommandFor(t, inputPath, Join(outputDir, "mp4")), ffmpeg);
      var n := FirstFailure(levels, step);
      && (run.result.Pass? <==> n == |levels|)
      && (run.result.Fail? ==> n < |levels| && run.result == step(levels[n]))
      && run.attempted == levels[..RanCount(n, |levels|)]
  {
    var videoID := VideoIDOf(inputPath);
    var o := setupLogging(videoID, t.tempDir);
    if o.Fail? {
      return Mp4Run([], Fail("failed to setup logging: " + o.error));
    }
    var levels := GetQualityLevels(inputWidth, inputHeight);
    var mp4Dir := Join(outputDir, "mp4");
    o := fs.mkdirAll(mp4Dir);
    if o.Fail? {
      return Mp4Run([], Fail("failed to create MP4 directory: " + o.error));
    }
    run := EncodeMp4(levels, Mp4CommandFor(t, inputPath, mp4Dir), ffmpeg);
  }

  /** The MP4 encode loop over the given rungs, each encoded with its `command` line. */
  method EncodeMp4(levels: seq<QualityLevel>, command: QualityLevel -> seq<string>, ffmpeg: seq<string> -> Process)
    returns (run: Mp4Run)
    ensures var step := Mp4Rung(command, ffmpeg);
      var n := FirstFailure(levels, step);
      && (run.result.Pass? <==> n == |levels|)
      && (run.result.Fail? ==> n < |levels| && run.result == step(levels[n]))
      && run.attempted == levels[..RanCount(n, |levels|)]
  {
    ghost var step := Mp4Rung(command, ffmpeg);
    var i := 0;
    while i < |levels|
      invariant 0 <= i <= FirstFailure(levels, step) && i <= |levels|
    {
      var quality := levels[i];
      var args := command(quality);
      var p := ffmpeg(args);
      assert step(quality) == ProcessOutcome(p);
      if !p.Exited? {
        FirstFailureAt(levels, step, i);
        return Mp4Run(levels[..i + 1], ProcessOutcome(p));
      }
      FirstFailurePast(levels, step, i);
      i := i + 1;
    }
    FirstFailureAt(levels, step, i);
    assert levels[..i] == levels;
    return Mp4Run(levels, Pass);
  }

  /** The video ID the encoder logs under: the name of the input file's directory. */
  function VideoIDOf(inputPath: string): string
  {
    Base(Dir(inputPath))
  }
}
