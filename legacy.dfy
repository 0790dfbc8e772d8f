/** The older `FFmpegTranscoder`: its own copy of the ladder selection, a master
    playlist written before any rung is encoded, leaner ffmpeg command lines, the
    thumbnail command, and `NewTranscoder`, which builds the live encoder instead. */
module LegacyTranscoder {
  import opened Results
  import opened Strings
  import opened Paths
  import opened QualityLadder
  import opened Playlists
  import opened FFmpeg

  /** The legacy encoder's settings. */
  datatype FFmpegTranscoder = FFmpegTranscoder(
    ffmpegPath: string,
    ffmpegThreads: int,
    ffmpegPreset: string,
    ffmpegCRF: int,
    segmentLength: int,
    outputFormats: seq<string>,
    outputQualities: seq<string>)

  /** `NewTranscoder`: hands every argument, in order, to the live encoder's constructor. */
  method NewTranscoder(ffmpegPath: string, ffmpegThreads: int, ffmpegPreset: string, ffmpegCRF: int,
                       segmentLength: int, outputFormats: seq<string>, outputQualities: seq<string>,
                       tempDir: string)
    returns (r: Result<FFmpegGoImpl>)
    ensures r.Ok? <==> ParseQualities(outputQualities).Ok?
    ensures r.Ok? <==> forall i :: 0 <= i < |outputQualities| ==> outputQualities[i] in KnownQualities
    ensures r.Err? ==> r.error == ParseQualities(outputQualities).error
    ensures r.Ok? ==> r.value == FFmpegGoImpl(ffmpegPath, ffmpegThreads, ffmpegPreset, ffmpegCRF,
                                              segmentLength, outputFormats,
                                              ParseQualities(outputQualities).value, tempDir)
  {
    ParseQualitiesMeaning(outputQualities);
    r := NewFFmpegGoImpl(ffmpegPath, ffmpegThreads, ffmpegPreset, ffmpegCRF, segmentLength,
                         outputFormats, outputQualities, tempDir);
  }

  /** The legacy selection loop over its own six-rung table. */
  method GetQualityLevels(inputWidth: int, inputHeight: int) returns (levels: seq<QualityLevel>)
    ensures levels == Ladder(inputWidth, inputHeight)
  {
    var allLevels := [QualityLevel("4k", 3840, 2160, 15000, 192), QualityLevel("1080p", 1920, 1080, 5000, 192),
                      QualityLevel("720p", 1280, 720, 2800, 128), QualityLevel("480p", 854, 480, 1400, 128),
                      QualityLevel("360p", 640, 360, 800, 96), QualityLevel("240p", 426, 240, 400, 64)];
    assert allLevels == Catalog;
    levels := [];
    for i := 0 to |allLevels|
      invariant levels == FilterFits(allLevels[..i], inputWidth, inputHeight)
    {
      assert allLevels[..i + 1][..i] == allLevels[..i];
      var level := allLevels[i];
      if level.width <= inputWidth && level.height <= inputHeight {
        levels := levels + [level];
      }
    }
    assert allLevels[..|allLevels|] == Catalog;
    if |levels| < 2 {
      if inputWidth < 426 || inputHeight < 240 {
        levels := levels + [allLevels[5]];
      }
      if inputWidth < 640 || inputHeight < 360 {
        levels := levels + [allLevels[4]];
      }
    }
  }

  /** The master text accumulated before encoding: `header`, then the `entry` of every rung. */
  method BuildMaster(header: string, entry: QualityLevel -> string, levels: seq<QualityLevel>)
    returns (text: string)
    ensures text == Appended(header, entry, levels)
  {
    text := header;
    for i := 0 to |levels|
      invariant text == Appended(header, entry, levels[..i])
    {
      assert levels[..i + 1][..i] == levels[..i];
      text := text + entry(levels[i]);
    }
    assert levels[..|levels|] == levels;
  }

  /** The legacy HLS muxer options: no segment flags and no progress pipe. */
  function LegacyHlsFormatArgs(t: FFmpegTranscoder, qualityDir: string): seq<string>
  {
    ["-f", "hls", "-hls_time", IntToString(t.segmentLength), "-hls_list_size", "0",
     "-hls_segment_filename", Join(qualityDir, "segment_%03d.ts"), "-threads", IntToString(t.ffmpegThreads)]
  }

  /** The legacy MP4 muxer options. */
  function LegacyMp4FormatArgs(t: FFmpegTranscoder): seq<string>
  {
    ["-movflags", "+faststart", "-threads", IntToString(t.ffmpegThreads)]
  }

  /** The legacy HLS command line of one rung encoded into `qualityDir`. */
  function LegacyHlsCommand(t: FFmpegTranscoder, inputPath: string, qualityDir: string, l: QualityLevel): seq<string>
  {
    SourceArgs(inputPath, t.ffmpegPreset, t.ffmpegCRF)
    + (RateArgs(l) + (AudioArgs(l) + (LegacyHlsFormatArgs(t, qualityDir) + [Join(qualityDir, "playlist.m3u8")])))
  }

  /** The legacy MP4 command line of one rung, written to `<mp4Dir>/<name>.mp4`. */
  function LegacyMp4Command(t: FFmpegTranscoder, inputPath: string, mp4Dir: string, l: QualityLevel): seq<string>
  {
    SourceArgs(inputPath, t.ffmpegPreset, t.ffmpegCRF)
    + (RateArgs(l) + (AudioArgs(l) + (LegacyMp4FormatArgs(t) + [Join(mp4Dir, l.name + ".mp4")])))
  }

  lemma LegacyHlsFormatArgsReads(t: FFmpegTranscoder, qualityDir: string)
    ensures OptionValue(LegacyHlsFormatArgs(t, qualityDir), "-hls_time") == Some(IntToString(t.segmentLength))
    ensures OptionValue(LegacyHlsFormatArgs(t, qualityDir), "-hls_segment_filename") == Some(Join(qualityDir, "segment_%03d.ts"))
  {
    OptionValueAt(LegacyHlsFormatArgs(t, qualityDir), 2, "-hls_time");
    OptionValueAt(LegacyHlsFormatArgs(t, qualityDir), 6, "-hls_segment_filename");
  }

  /** What ffmpeg reads from a legacy HLS command line. */
  lemma LegacyHlsCommandReads(t: FFmpegTranscoder, inputPath: string, qualityDir: string, l: QualityLevel)
    ensures var args := LegacyHlsCommand(t, inputPath, qualityDir, l);
      && OptionValue(args, "-i") == Some(inputPath)
      && OptionValue(args, "-maxrate") == Some(Kbps(l.bitrate))
      && OptionValue(args, "-bufsize") == Some(Kbps(2 * l.bitrate))
      && OptionValue(args, "-vf") == Some("scale=" + IntToString(l.width) + ":" + IntToString(l.height))
      && OptionValue(args, "-hls_time") == Some(IntToString(t.segmentLength))
      && OptionValue(args, "-hls_segment_filename") == Some(Join(qualityDir, "segment_%03d.ts"))
      && args[|args| - 1] == Join(qualityDir, "playlist.m3u8")
  {
    var h := LegacyHlsFormatArgs(t, qualityDir);
    var x := h + [Join(qualityDir, "playlist.m3u8")];
    EncodeArgsReads(inputPath, t.ffmpegPreset, t.ffmpegCRF, l, x);
    MuxerArgReads(inputPath, t.ffmpegPreset, t.ffmpegCRF, l, x, "-hls_time");
    MuxerArgReads(inputPath, t.ffmpegPreset, t.ffmpegCRF, l, x, "-hls_segment_filename");
    LegacyHlsFormatArgsReads(t, qualityDir);
    OptionValueAppend(h, [Join(qualityDir, "playlist.m3u8")], "-hls_time");
    OptionValueAppend(h, [Join(qualityDir, "playlist.m3u8")], "-hls_segment_filename");
  }

  /** What ffmpeg reads from a legacy MP4 command line. */
  lemma LegacyMp4CommandReads(t: FFmpegTranscoder, inputPath: string, mp4Dir: string, l: QualityLevel)
    ensures var args := LegacyMp4Command(t, inputPath, mp4Dir, l);
      && OptionValue(args, "-i") == Some(inputPath)
      && OptionValue(args, "-maxrate") == Some(Kbps(l.bitrate))
      && OptionValue(args, "-bufsize") == Some(Kbps(2 * l.bitrate))
      && OptionValue(args, "-vf") == Some("scale=" + IntToString(l.width) + ":" + IntToString(l.height))
      && OptionValue(args, "-movflags") == Some("+faststart")
      && args[|args| - 1] == Join(mp4Dir, l.name + ".mp4")
  {
    var m := LegacyMp4FormatArgs(t);
    var x := m + [Join(mp4Dir, l.name + ".mp4")];
    EncodeArgsReads(inputPath, t.ffmpegPreset, t.ffmpegCRF, l, x);
    MuxerArgReads(inputPath, t.ffmpegPreset, t.ffmpegCRF, l, x, "-movflags");
    OptionValueAt(m, 0, "-movflags");
    OptionValueAppend(m, [Join(mp4Dir, l.name + ".mp4")], "-movflags");
  }

  /** The legacy HLS command line of each rung, encoding into `<outputDir>/<name>`. */
  function LegacyHlsCommandFor(t: FFmpegTranscoder, inputPath: string, outputDir: string): QualityLevel -> seq<string>
  {
    (l: QualityLevel) => LegacyHlsCommand(t, inputPath, Join(outputDir, l.name), l)
  }

  /** The legacy MP4 command line of each rung, encoding into `mp4Dir`. */
  function LegacyMp4CommandFor(t: FFmpegTranscoder, inputPath: string, mp4Dir: string): QualityLevel -> seq<string>
  {
    (l: QualityLevel) => LegacyMp4Command(t, inputPath, mp4Dir, l)
  }

  /** The error of a failed ffmpeg run, carrying its combined output. */
  function FailedRun(err: string, output: string): (e: string)
    ensures HasPrefix(e, "ffmpeg failed: ") && HasSuffix(e, output)
  {
    "ffmpeg failed: " + err + "\nOutput: " + output
  }

  /** The file-system calls of the legacy encoder, as their outcomes: `os.MkdirAll` of a
      path, and `os.WriteFile` of a path with a text. */
  datatype LegacyFileSystem = LegacyFileSystem(mkdirAll: string -> Outcome, writeFile: (string, string) -> Outcome)

  /** Whether a rung's directory was made and its media playlist `header` written. */
  function LegacyPlaylistMade(fs: LegacyFileSystem, outputDir: string, header: string): QualityLevel -> bool
  {
    (l: QualityLevel) => fs.mkdirAll(Join(outputDir, l.name)).Pass?
                         && fs.writeFile(Join(Join(outputDir, l.name), "playlist.m3u8"), header).Pass?
  }

  /** One rung of the legacy HLS loop: its directory, then its media playlist holding
      `header`, then ffmpeg on its command line; the first of them that fails is the error. */
  function LegacyHlsRungOutcome(fs: LegacyFileSystem, outputDir: string, header: string,
                                command: QualityLevel -> seq<string>, ffmpeg: seq<string> -> Outcome,
                                output: seq<string> -> string, l: QualityLevel): (o: Outcome)
    ensures o.Pass? <==> LegacyPlaylistMade(fs, outputDir, header)(l) && ffmpeg(command(l)).Pass?
    ensures fs.mkdirAll(Join(outputDir, l.name)).Fail? ==>
      o == Fail("failed to create quality directory: " + fs.mkdirAll(Join(outputDir, l.name)).error)
    ensures var playlist := Join(Join(outputDir, l.name), "playlist.m3u8");
      fs.mkdirAll(Join(outputDir, l.name)).Pass? && fs.writeFile(playlist, header).Fail? ==>
      o == Fail("failed to create quality playlist: " + fs.writeFile(playlist, header).error)
    ensures LegacyPlaylistMade(fs, outputDir, header)(l) && ffmpeg(command(l)).Fail? ==>
      o == Fail(FailedRun(ffmpeg(command(l)).error, output(command(l))))
  {
    var qualityDir := Join(outputDir, l.name);
    var made := fs.mkdirAll(qualityDir);
    if made.Fail? then Fail("failed to create quality directory: " + made.error)
    else
      var written := fs.writeFile(Join(qualityDir, "playlist.m3u8"), header);
      if written.Fail? then Fail("failed to create quality playlist: " + written.error)
      else
        var run := ffmpeg(command(l));
        if run.Fail? then Fail(FailedRun(run.error, output(command(l)))) else Pass
  }

  /** The rung outcomes of the legacy HLS loop. */
  function LegacyHlsRung(fs: LegacyFileSystem, outputDir: string, header: string, command: QualityLevel -> seq<string>,
                         ffmpeg: seq<string> -> Outcome, output: seq<string> -> string): QualityLevel -> Outcome
  {
    (l: QualityLevel) => LegacyHlsRungOutcome(fs, outputDir, header, command, ffmpeg, output, l)
  }

  /** The rung outcomes of the legacy MP4 loop: one `CombinedOutput` run each. */
  function LegacyMp4Rung(command: QualityLevel -> seq<string>, ffmpeg: seq<string> -> Outcome,
                         output: seq<string> -> string): QualityLevel -> Outcome
  {
    (l: QualityLevel) => if ffmpeg(command(l)).Pass? then Pass else Fail(FailedRun(ffmpeg(command(l)).error, output(command(l))))
  }

  /** Legacy HLS encoding: the master playlist listing every rung is written first, and a
      failed write returns before any rung; then each rung's directory is made, its media
      playlist written and ffmpeg run, stopping at the first failure. */
  method TranscodeToHLS(t: FFmpegTranscoder, inputPath: string, outputDir: string, inputWidth: int, inputHeight: int,
                        fs: LegacyFileSystem, ffmpeg: seq<string> -> Outcome, output: seq<string> -> string)
    returns (run: HlsRun)
    ensures var levels := Ladder(inputWidth, inputHeight);
      var written := fs.writeFile(Join(outputDir, "master.m3u8"), MasterPlaylist(levels));
      && (written.Fail? ==> run == HlsRun(None, [], [], Fail("failed to create master playlist: " + written.error)))
      && (written.Pass? ==>
            var header := VariantHeader(t.segmentLength);
            var step := LegacyHlsRung(fs, outputDir, header, LegacyHlsCommandFor(t, inputPath, outputDir), ffmpeg, output);
            var n := FirstFailure(levels, step);
            && run.master == Some(MasterPlaylist(levels))
            && (run.result.Pass? <==> n == |levels|)
            && (run.result.Fail? ==> n < |levels| && run.result == step(levels[n]))
            && run.attempted == levels[..RanCount(n, |levels|)]
            && run.playlists == WrittenPlaylists(outputDir, header, levels, n, LegacyPlaylistMade(fs, outputDir, header)))
  {
    var qualityLevels := GetQualityLevels(inputWidth, inputHeight);
    MasterHeaderText();
    var masterPlaylist := BuildMaster("#EXTM3U\n" + "#EXT-X-VERSION:3\n", MasterEntry, qualityLevels);
    MasterPlaylistAppended(qualityLevels);
    var o := fs.writeFile(Join(outputDir, "master.m3u8"), masterPlaylist);
    if o.Fail? {
      return HlsRun(None, [], [], Fail("failed to create master playlist: " + o.error));
    }
    var encoded := EncodeLegacyHls(outputDir, VariantHeader(t.segmentLength), qualityLevels,
                                   LegacyHlsCommandFor(t, inputPath, outputDir), fs, ffmpeg, output);
    run := HlsRun(Some(masterPlaylist), encoded.playlists, encoded.attempted, encoded.result);
  }

  /** The legacy HLS encode loop: each rung's directory is made, its media playlist written
      with `mediaHeader`, and the rung encoded with its `command` line. It writes no master. */
  method EncodeLegacyHls(outputDir: string, mediaHeader: string, levels: seq<QualityLevel>,
                         command: QualityLevel -> seq<string>, fs: LegacyFileSystem, ffmpeg: seq<string> -> Outcome,
                         output: seq<string> -> string)
    returns (run: HlsRun)
    ensures var step := LegacyHlsRung(fs, outputDir, mediaHeader, command, ffmpeg, output);
      var n := FirstFailure(levels, step);
      && run.master == None
      && (run.result.Pass? <==> n == |levels|)
      && (run.result.Fail? ==> n < |levels| && run.result == step(levels[n]))
      && run.attempted == levels[..RanCount(n, |levels|)]
      && run.playlists == WrittenPlaylists(outputDir, mediaHeader, levels, n, LegacyPlaylistMade(fs, outputDir, mediaHeader))
  {
    ghost var step := LegacyHlsRung(fs, outputDir, mediaHeader, command, ffmpeg, output);
    assert levels[..0] == [];
    var playlists: seq<FileWrite> := [];
    var i := 0;
    while i < |levels|
      invariant 0 <= i <= |levels|
      invariant i <= FirstFailure(levels, step)
      invariant playlists == VariantFiles(outputDir, mediaHeader, levels[..i])
    {
      var level := levels[i];
      var o, written := EncodeLegacyHlsRung(outputDir, mediaHeader, level, command, fs, ffmpeg, output);
      assert step(level) == o;
      playlists := playlists + written;
      if o.Fail? {
        FirstFailureAt(levels, step, i);
        assert playlists == WrittenPlaylists(outputDir, mediaHeader, levels, i, LegacyPlaylistMade(fs, outputDir, mediaHeader));
        return HlsRun(None, playlists, levels[..i + 1], o);
      }
      VariantFilesSnoc(outputDir, mediaHeader, levels, i);
      FirstFailurePast(levels, step, i);
      i := i + 1;
    }
    FirstFailureAt(levels, step, i);
    AllEncoded(outputDir, mediaHeader, levels, LegacyPlaylistMade(fs, outputDir, mediaHeader));
    return HlsRun(None, playlists, levels, Pass);
  }

  /** One rung of the legacy HLS loop: its directory is made, its media playlist written with
      `mediaHeader`, then ffmpeg runs on its command line; the first failure is returned.
      `written` is the playlist file, when it was written. */
  method EncodeLegacyHlsRung(outputDir: string, mediaHeader: string, level: QualityLevel,
                             command: QualityLevel -> seq<string>, fs: LegacyFileSystem,
                             ffmpeg: seq<string> -> Outcome, output: seq<string> -> string)
    returns (o: Outcome, written: seq<FileWrite>)
    ensures o == LegacyHlsRungOutcome(fs, outputDir, mediaHeader, command, ffmpeg, output, level)
    ensures written == if LegacyPlaylistMade(fs, outputDir, mediaHeader)(level) then [VariantFile(outputDir, mediaHeader, level)] else []
  {
    var qualityDir := Join(outputDir, level.name);
    o := fs.mkdirAll(qualityDir);
    if o.Fail? {
      return Fail("failed to create quality directory: " + o.error), [];
    }
    var playlistPath := Join(qualityDir, "playlist.m3u8");
    o := fs.writeFile(playlistPath, mediaHeader);
    if o.Fail? {
      return Fail("failed to create quality playlist: " + o.error), [];
    }
    written := [FileWrite(playlistPath, mediaHeader)];
    var args := command(level);
    o := ffmpeg(args);
    if o.Fail? {
      o := Fail(FailedRun(o.error, output(args)));
    }
  }

  /** Legacy MP4 encoding into `<outputDir>/mp4/<name>.mp4`: the MP4 directory is made first,
      a failure returning before any rung; then one ffmpeg run per rung, stopping at the
      first failure. */
  method TranscodeToMP4(t: FFmpegTranscoder, inputPath: string, outputDir: string, inputWidth: int, inputHeight: int,
                        mkdirAll: string -> Outcome, ffmpeg: seq<string> -> Outcome, output: seq<string> -> string)
    returns (run: Mp4Run)
    ensures mkdirAll(Join(outputDir, "mp4")).Fail? ==>
      run == Mp4Run([], Fail("failed to create MP4 directory: " + mkdirAll(Join(outputDir, "mp4")).error))
    ensures mkdirAll(Join(outputDir, "mp4")).Pass? ==>
      var levels := Ladder(inputWidth, inputHeight);
      var command := LegacyMp4CommandFor(t, inputPath, Join(outputDir, "mp4"));
      var step := LegacyMp4Rung(command, ffmpeg, output);
      var n := FirstFailure(levels, step);
      && (run.result.Pass? <==> n == |levels|)
      && (run.result.Fail? ==> n < |levels| && run.result == Fail(FailedRun(ffmpeg(command(levels[n])).error, output(command(levels[n])))))
      && run.attempted == levels[..RanCount(n, |levels|)]
  {
    var qualityLevels := GetQualityLevels(inputWidth, inputHeight);
    var mp4Dir := Join(outputDir, "mp4");
    var o := mkdirAll(mp4Dir);
    if o.Fail? {
      return Mp4Run([], Fail("failed to create MP4 directory: " + o.error));
    }
    run := EncodeLegacyMp4(qualityLevels, LegacyMp4CommandFor(t, inputPath, mp4Dir), ffmpeg, output);
  }

  /** The legacy MP4 encode loop over the given rungs. */
  method EncodeLegacyMp4(levels: seq<QualityLevel>, command: QualityLevel -> seq<string>,
                         ffmpeg: seq<string> -> Outcome, output: seq<string> -> string)
    returns (run: Mp4Run)
    ensures var step := LegacyMp4Rung(command, ffmpeg, output);
      var n := FirstFailure(levels, step);
      && (run.result.Pass? <==> n == |levels|)
      && (run.result.Fail? ==> n < |levels| && run.result == Fail(FailedRun(ffmpeg(command(levels[n])).error, output(command(levels[n])))))
      && run.attempted == levels[..RanCount(n, |levels|)]
  {
    ghost var step := LegacyMp4Rung(command, ffmpeg, output);
    var i := 0;
    while i < |levels|
      invariant 0 <= i <= FirstFailure(levels, step) && i <= |levels|
    {
      var args := command(levels[i]);
      var outcome := ffmpeg(args);
      assert step(levels[i]).Fail? <==> outcome.Fail?;
      if outcome.Fail? {
        FirstFailureAt(levels, step, i);
        return Mp4Run(levels[..i + 1], Fail(FailedRun(outcome.error, output(args))));
      }
      FirstFailurePast(levels, step, i);
      i := i + 1;
    }
    FirstFailureAt(levels, step, i);
    assert levels[..i] == levels;
    return Mp4Run(levels, Pass);
  }

  /** The thumbnail command line: a single frame at a fixed five-second seek. */
  function ThumbnailArgs(inputPath: string, outputPath: string): seq<string>
  {
    ["-i", inputPath, "-ss", "00:00:05", "-vframes", "1", "-q:v", "2", "-y", outputPath]
  }

  /** What ffmpeg reads from the thumbnail command line. */
  lemma ThumbnailArgsReads(inputPath: string, outputPath: string)
    ensures var args := ThumbnailArgs(inputPath, outputPath);
      && OptionValue(args, "-i") == Some(inputPath)
      && OptionValue(args, "-ss") == Some("00:00:05")
      && OptionValue(args, "-vframes") == Some("1")
      && args[|args| - 1] == outputPath
  {
    var args := ThumbnailArgs(inputPath, outputPath);
    OptionValueAt(args, 0, "-i");
    OptionValueAt(args, 2, "-ss");
    OptionValueAt(args, 4, "-vframes");
  }

  /** `GenerateThumbnail`: one ffmpeg run on the thumbnail command line. */
  method GenerateThumbnail(inputPath: string, outputPath: string, ffmpeg: seq<string> -> Outcome,
                           output: seq<string> -> string)
    returns (o: Outcome)
    ensures var args := ThumbnailArgs(inputPath, outputPath);
      o == if ffmpeg(args).Pass? then Pass else Fail(FailedRun(ffmpeg(args).error, output(args)))
  {
    var args := ThumbnailArgs(inputPath, outputPath);
    var outcome := ffmpeg(args);
    if outcome.Fail? {
      return Fail(FailedRun(outcome.error, output(args)));
    }
    return Pass;
  }

  /** The text `header` plus the entries of a prefix of the rungs is a prefix of the
      text with the entries of all of them. */
  lemma {:induction false} AppendedPrefix(header: string, entry: QualityLevel -> string, levels: seq<QualityLevel>, n: nat)
    requires n <= |levels|
    ensures HasPrefix(Appended(header, entry, levels), Appended(header, entry, levels[..n]))
    decreases |levels|
  {
    if n < |levels| {
      var init := levels[..|levels| - 1];
      assert init[..n] == levels[..n];
      AppendedPrefix(header, entry, init, n);
    } else {
      assert levels[..n] == levels;
    }
  }

  /** Each entry adds text, so the entries of a strict prefix give a strictly shorter text. */
  lemma AppendedLonger(header: string, entry: QualityLevel -> string, levels: seq<QualityLevel>, n: nat)
    requires n < |levels|
    requires forall l :: |entry(l)| > 0
    ensures |Appended(header, entry, levels[..n])| < |Appended(header, entry, levels)|
  {
    var init := levels[..|levels| - 1];
    assert init[..n] == levels[..n];
    AppendedPrefix(header, entry, init, n);
  }

  /** When an encode fails, the legacy master text lists every rung while the live encoder's
      lists only the rungs before the failure: the live text is a strictly shorter prefix. */
  lemma LiveMasterIsPrefixOfLegacy(levels: seq<QualityLevel>, n: nat)
    requires n < |levels|
    ensures HasPrefix(MasterPlaylist(levels), MasterPlaylist(levels[..n]))
    ensures |MasterPlaylist(levels[..n])| < |MasterPlaylist(levels)|
  {
    MasterPlaylistAppended(levels);
    MasterPlaylistAppended(levels[..n]);
    AppendedPrefix(MasterPlaylist([]), MasterEntry, levels, n);
    forall l: QualityLevel
      ensures |MasterEntry(l)| > 0
    {
      MasterEntryNonEmpty(l);
    }
    AppendedLonger(MasterPlaylist([]), MasterEntry, levels, n);
  }

  lemma MasterEntryNonEmpty(l: QualityLevel)
    ensures |MasterEntry(l)| > 0
  {
    var e := EntryLines(l);
    assert MasterEntry(l) == e[0] + "\n" + Lines(e[1..]);
  }
}
