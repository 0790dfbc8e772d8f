/** Text of the HLS playlists the transcoder writes: the master playlist with one
    `EXT-X-STREAM-INF` entry per rendition (section 4.3.4.2 of RFC 8216) and the
    header of each rendition's media playlist. */
module Playlists {
  import opened Results
  import opened Strings
  import opened QualityLadder

  /** The first two lines of the master playlist. */
  const HeaderLines: seq<string> := ["#EXTM3U", "#EXT-X-VERSION:3"]

  const StreamInfPrefix: string := "#EXT-X-STREAM-INF:BANDWIDTH="
  const ResolutionKey: string := "RESOLUTION="

  /** `#EXT-X-STREAM-INF:BANDWIDTH=<b>,RESOLUTION=<w>x<h>` */
  function StreamInf(bandwidth: int, width: int, height: int): string
  {
    StreamInfPrefix + IntToString(bandwidth) + "," + ResolutionKey + IntToString(width) + "x" + IntToString(height)
  }

  /** The master-playlist entry of one rung: its stream line (bandwidth in bit/s)
      and the relative URI of its media playlist. */
  function EntryLines(l: QualityLevel): seq<string>
  {
    [StreamInf(l.bitrate * 1000, l.width, l.height), l.name + "/playlist.m3u8"]
  }

  /** The entry lines of every rung, in order. */
  function AllEntryLines(levels: seq<QualityLevel>): seq<string>
  {
    ConcatMap(EntryLines, levels)
  }

  /** The text appended to the master playlist for one rung. */
  function MasterEntry(l: QualityLevel): string
  {
    Lines(EntryLines(l))
  }

  /** The master playlist listing `levels`: the header and each rung's entry, every line
      terminated by a line break. */
  function MasterPlaylist(levels: seq<QualityLevel>): string
  {
    Lines(HeaderLines + AllEntryLines(levels))
  }

  /** The header text, written as the transcoder writes it. */
  lemma MasterHeaderText()
    ensures MasterPlaylist([]) == "#EXTM3U\n" + "#EXT-X-VERSION:3\n"
  {
    assert HeaderLines + AllEntryLines([]) == HeaderLines;
  }

  /** The master playlist of some rungs is that of all but the last, followed by the last one's entry. */
  lemma MasterPlaylistSnoc(levels: seq<QualityLevel>)
    requires |levels| > 0
    ensures MasterPlaylist(levels) == MasterPlaylist(levels[..|levels| - 1]) + MasterEntry(levels[|levels| - 1])
  {
    var init, e := AllEntryLines(levels[..|levels| - 1]), EntryLines(levels[|levels| - 1]);
    assert AllEntryLines(levels) == init + e;
    assert HeaderLines + AllEntryLines(levels) == (HeaderLines + init) + e;
    LinesAppend(HeaderLines + init, e);
  }

  /** The header written to each rendition's media playlist before it is encoded. */
  function VariantHeader(segmentLength: int): string
  {
    Lines(VariantHeaderLines(segmentLength))
  }

  function VariantHeaderLines(segmentLength: int): seq<string>
  {
    ["#EXTM3U", "#EXT-X-VERSION:3", "#EXT-X-TARGETDURATION:" + IntToString(segmentLength), "#EXT-X-MEDIA-SEQUENCE:0"]
  }

  /** True when no rung name contains a line break. */
  predicate SingleLineNames(levels: seq<QualityLevel>)
  {
    forall i :: 0 <= i < |levels| ==> '\n' !in levels[i].name
  }

  /** Line `2i` of the entries is rung `i`'s stream line and line `2i+1` its playlist URI. */
  lemma AllEntryLinesAt(levels: seq<QualityLevel>, i: nat)
    requires i < |levels|
    ensures |AllEntryLines(levels)| == 2 * |levels|
    ensures AllEntryLines(levels)[2 * i] == EntryLines(levels[i])[0]
    ensures AllEntryLines(levels)[2 * i + 1] == EntryLines(levels[i])[1]
  {
    ConcatMapPairs(EntryLines, levels, i);
  }

  /** A stream line has no line break. */
  lemma StreamInfSingleLine(b: int, w: int, h: int)
    ensures '\n' !in StreamInf(b, w, h)
  {
    var s1, s2, s3 := IntToString(b), IntToString(w), IntToString(h);
    IntToStringFree(b, '\n');
    IntToStringFree(w, '\n');
    IntToStringFree(h, '\n');
    NotInAppend(StreamInfPrefix, s1, '\n');
    NotInAppend(StreamInfPrefix + s1, ",", '\n');
    NotInAppend(StreamInfPrefix + s1 + ",", ResolutionKey, '\n');
    NotInAppend(StreamInfPrefix + s1 + "," + ResolutionKey, s2, '\n');
    NotInAppend(StreamInfPrefix + s1 + "," + ResolutionKey + s2, "x", '\n');
    NotInAppend(StreamInfPrefix + s1 + "," + ResolutionKey + s2 + "x", s3, '\n');
  }

  /** Neither line of the entry of a rung with a single-line name has a line break. */
  lemma EntryLinesSingle(l: QualityLevel)
    requires '\n' !in l.name
    ensures forall k :: 0 <= k < |EntryLines(l)| ==> '\n' !in EntryLines(l)[k]
  {
    StreamInfSingleLine(l.bitrate * 1000, l.width, l.height);
    NotInAppend(l.name, "/playlist.m3u8", '\n');
  }

  /** No entry line has a line break. */
  lemma AllEntryLinesSingle(levels: seq<QualityLevel>)
    requires SingleLineNames(levels)
    ensures forall k :: 0 <= k < |AllEntryLines(levels)| ==> '\n' !in AllEntryLines(levels)[k]
  {
    forall j | 0 <= j < |levels|
      ensures forall k :: 0 <= k < |EntryLines(levels[j])| ==> '\n' !in EntryLines(levels[j])[k]
    {
      EntryLinesSingle(levels[j]);
    }
    ConcatMapFree(EntryLines, levels, '\n');
  }

  /** A reader splitting the master playlist on line breaks sees the two header lines,
      then for every rung its stream line and its playlist URI, then the empty rest
      after the final line break. */
  lemma MasterPlaylistLines(levels: seq<QualityLevel>)
    requires SingleLineNames(levels)
    ensures Split(MasterPlaylist(levels), '\n') == HeaderLines + AllEntryLines(levels) + [""]
  {
    AllEntryLinesSingle(levels);
    var all := HeaderLines + AllEntryLines(levels);
    assert forall k :: 0 <= k < |all| ==> '\n' !in all[k] by {
      forall k | 0 <= k < |all|
        ensures '\n' !in all[k]
      {
        if k >= 2 {
          assert all[k] == AllEntryLines(levels)[k - 2];
        }
      }
    }
    SplitLines(all);
  }

  /** The attributes of a stream line. */
  datatype StreamAttrs = StreamAttrs(bandwidth: nat, width: nat, height: nat)

  /** Reads `BANDWIDTH` and `RESOLUTION` back from a stream line. */
  function ParseStreamInf(line: string): (r: Option<StreamAttrs>)
    ensures r.Some? ==> HasPrefix(line, StreamInfPrefix)
  {
    if !HasPrefix(line, StreamInfPrefix) then None
    else
      var parts := Split(line[|StreamInfPrefix|..], ',');
      if |parts| != 2 || !HasPrefix(parts[1], ResolutionKey) then None
      else
        var dims := Split(parts[1][|ResolutionKey|..], 'x');
        if |dims| != 2 then None
        else
          match (ParseNat(parts[0]), ParseNat(dims[0]), ParseNat(dims[1]))
          case (Some(b), Some(w), Some(h)) => Some(StreamAttrs(b, w, h))
          case _ => None
  }

  /** After its prefix, a stream line is the bandwidth, a comma and the resolution attribute. */
  lemma StreamInfLayout(b: nat, w: nat, h: nat)
    ensures HasPrefix(StreamInf(b, w, h), StreamInfPrefix)
    ensures StreamInf(b, w, h)[|StreamInfPrefix|..] == NatToString(b) + [','] + (ResolutionKey + (NatToString(w) + ['x'] + NatToString(h)))
  {
  }

  /** The resolution attribute reads back to its width and height. */
  lemma ResolutionRoundTrip(w: nat, h: nat)
    ensures var res := ResolutionKey + (NatToString(w) + ['x'] + NatToString(h));
      && HasPrefix(res, ResolutionKey)
      && Split(res[|ResolutionKey|..], 'x') == [NatToString(w), NatToString(h)]
  {
    var ws, hs := NatToString(w), NatToString(h);
    assert (ResolutionKey + (ws + ['x'] + hs))[|ResolutionKey|..] == ws + ['x'] + hs;
    IntToStringFree(w, 'x');
    IntToStringFree(h, 'x');
    SplitPair(ws, hs, 'x');
  }

  /** Every stream line the transcoder writes for non-negative values reads back to those values. */
  lemma StreamInfRoundTrip(b: nat, w: nat, h: nat)
    ensures ParseStreamInf(StreamInf(b, w, h)) == Some(StreamAttrs(b, w, h))
  {
    var bs := NatToString(b);
    var res := ResolutionKey + (NatToString(w) + ['x'] + NatToString(h));
    StreamInfLayout(b, w, h);
    IntToStringFree(b, ',');
    assert ',' !in res by {
      IntToStringFree(w, ',');
      IntToStringFree(h, ',');
      NotInAppend(NatToString(w), ['x'], ',');
      NotInAppend(NatToString(w) + ['x'], NatToString(h), ',');
      NotInAppend(ResolutionKey, NatToString(w) + ['x'] + NatToString(h), ',');
    }
    SplitPair(bs, res, ',');
    ResolutionRoundTrip(w, h);
    ParseNatToString(b);
    ParseNatToString(w);
    ParseNatToString(h);
  }

  /** Each rung listed in a master playlist can be read back from it: its stream line
      carries the rung's bandwidth (bit/s) and resolution. */
  lemma MasterPlaylistReadBack(levels: seq<QualityLevel>, i: nat)
    requires SingleLineNames(levels)
    requires i < |levels|
    requires levels[i].bitrate >= 0 && levels[i].width >= 0 && levels[i].height >= 0
    ensures 2 * i + 3 < |Split(MasterPlaylist(levels), '\n')|
    ensures ParseStreamInf(Split(MasterPlaylist(levels), '\n')[2 * i + 2])
         == Some(StreamAttrs(levels[i].bitrate * 1000, levels[i].width, levels[i].height))
    ensures Split(MasterPlaylist(levels), '\n')[2 * i + 3] == levels[i].name + "/playlist.m3u8"
  {
    StreamLineOfMaster(levels, i);
    UriLineOfMaster(levels, i);
    var l := levels[i];
    var bw: nat := l.bitrate * 1000;
    StreamInfRoundTrip(bw, l.width, l.height);
  }

  lemma StreamLineOfMaster(levels: seq<QualityLevel>, i: nat)
    requires SingleLineNames(levels)
    requires i < |levels|
    ensures 2 * i + 3 < |Split(MasterPlaylist(levels), '\n')|
    ensures Split(MasterPlaylist(levels), '\n')[2 * i + 2] == StreamInf(levels[i].bitrate * 1000, levels[i].width, levels[i].height)
  {
    MasterPlaylistLines(levels);
    AllEntryLinesAt(levels, i);
    var el := AllEntryLines(levels);
    var lines := HeaderLines + el + [""];
    assert lines[2 * i + 2] == el[2 * i];
  }

  lemma UriLineOfMaster(levels: seq<QualityLevel>, i: nat)
    requires SingleLineNames(levels)
    requires i < |levels|
    ensures 2 * i + 3 < |Split(MasterPlaylist(levels), '\n')|
    ensures Split(MasterPlaylist(levels), '\n')[2 * i + 3] == levels[i].name + "/playlist.m3u8"
  {
    MasterPlaylistLines(levels);
    AllEntryLinesAt(levels, i);
    var el := AllEntryLines(levels);
    var lines := HeaderLines + el + [""];
    assert lines[2 * i + 3] == el[2 * i + 1];
  }

  /** A media playlist header declares the configured target duration on its third line. */
  lemma VariantHeaderTargetDuration(segmentLength: nat)
    ensures Split(VariantHeader(segmentLength), '\n') == VariantHeaderLines(segmentLength) + [""]
    ensures ParseNat(VariantHeaderLines(segmentLength)[2][|"#EXT-X-TARGETDURATION:"|..]) == Some(segmentLength)
  {
    IntToStringFree(segmentLength, '\n');
    SplitLines(VariantHeaderLines(segmentLength));
    ParseNatToString(segmentLength);
    assert VariantHeaderLines(segmentLength)[2][|"#EXT-X-TARGETDURATION:"|..] == NatToString(segmentLength);
  }
}
