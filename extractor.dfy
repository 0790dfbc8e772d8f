/** The upload service's metadata extraction: the gcd loop and the aspect ratio built on
    it, the choice of the first video and audio streams in ffprobe's output, the audio
    defaults, the content-type rule, the file-name sanitiser and the three-attempt retry.
    Running ffprobe and md5sum and parsing numbers are done outside and given. */
module MetadataExtractor {
  import opened Results
  import opened Strings
  import opened Paths

  // ---- greatest common divisor ----

  /** `d` divides `n`. */
  predicate Divides(d: nat, n: nat) { d > 0 && n % d == 0 }

  /** Euclid's recursion, the specification of the loop. */
  function Gcd(a: nat, b: nat): nat
    decreases b
  {
    if b == 0 then a else Gcd(b, a % b)
  }

  /** Go's `%` on `int`: truncated toward zero, so the sign follows the dividend. */
  function GoRem(a: int, b: int): (r: int)
    requires b != 0
    ensures -(if b < 0 then -b else b) < r < (if b < 0 then -b else b)
    ensures a >= 0 && b > 0 ==> r == a % b
  {
    var m := if b < 0 then -b else b;
    if a >= 0 then a % m else -((-a) % m)
  }

  /** `greatestCommonDivisor`: `a, b = b, a % b` until `b` is zero. It stops for every
      input, and on non-negative inputs it computes the gcd. */
  method GreatestCommonDivisor(a0: int, b0: int) returns (g: int)
    ensures a0 >= 0 && b0 >= 0 ==> g >= 0 && g == Gcd(a0, b0)
  {
    var a, b := a0, b0;
    while b != 0
      invariant a0 >= 0 && b0 >= 0 ==> a >= 0 && b >= 0 && Gcd(a, b) == Gcd(a0, b0)
      decreases if b < 0 then -b else b
    {
      a, b := b, GoRem(a, b);
    }
    g := a;
  }

  /** A product of non-negative numbers is non-negative, and at least either factor when
      the other is positive. */
  lemma MulBounds(x: int, y: int)
    requires x >= 0 && y >= 0
    ensures x * y >= 0
    ensures y >= 1 ==> x * y >= x
  {
  }

  /** Division is exact on multiples. */
  lemma MulMod(d: nat, k: nat)
    requires d > 0
    ensures (d * k) % d == 0 && (d * k) / d == k
  {
    var n := d * k;
    var q, r := n / d, n % d;
    assert d * (k - q) == r;
    if k - q >= 1 {
      MulBounds(d, k - q);
    } else if k - q <= -1 {
      MulBounds(d, q - k);
    }
  }

  /** A divisor of `x` and `y` divides `q * y + x`. */
  lemma DividesCombination(d: nat, x: nat, y: nat, q: nat)
    requires Divides(d, x) && Divides(d, y)
    ensures Divides(d, q * y + x)
  {
    var i, j := x / d, y / d;
    assert x == d * i && y == d * j;
    assert q * y + x == d * (q * j + i) by {
      assert q * (d * j) == d * (q * j);
    }
    MulMod(d, q * j + i);
  }

  /** A divisor of `q * y + x` and of `y` divides `x`. */
  lemma DividesDifference(d: nat, x: nat, y: nat, q: nat)
    requires Divides(d, q * y + x) && Divides(d, y)
    ensures Divides(d, x)
  {
    var i, j := (q * y + x) / d, y / d;
    assert q * y + x == d * i && y == d * j;
    assert q * y == d * (q * j) by {
      assert q * (d * j) == d * (q * j);
    }
    assert x == d * (i - q * j);
    assert i - q * j >= 0 by {
      if i - q * j < 0 {
        MulBounds(d, q * j - i);
      }
    }
    MulMod(d, i - q * j);
  }

  /** Quotient and remainder put back together give the dividend. */
  lemma DivisionParts(a: nat, b: nat)
    requires b > 0
    ensures a == (a / b) * b + a % b
  {
  }

  /** The gcd divides both inputs, unless both are zero. */
  lemma {:induction false} GcdDivides(a: nat, b: nat)
    requires a > 0 || b > 0
    ensures Gcd(a, b) > 0 && Divides(Gcd(a, b), a) && Divides(Gcd(a, b), b)
    decreases b
  {
    if b > 0 {
      GcdDivides(b, a % b);
      var g := Gcd(a, b);
      assert g == Gcd(b, a % b);
      DivisionParts(a, b);
      DividesCombination(g, a % b, b, a / b);
    }
  }

  /** Every common divisor divides the gcd. */
  lemma {:induction false} GcdGreatest(a: nat, b: nat, d: nat)
    requires Divides(d, a) && Divides(d, b)
    ensures Gcd(a, b) % d == 0
    decreases b
  {
    if b > 0 {
      DivisionParts(a, b);
      DividesDifference(d, a % b, b, a / b);
      GcdGreatest(b, a % b, d);
    }
  }

  /** A multiple `g * x` of `x` is divisible by `g * h` when `h` divides `x`. */
  lemma DividesScaled(g: nat, h: nat, x: nat)
    requires g > 0 && Divides(h, x)
    ensures Divides(g * h, g * x)
  {
    var p := x / h;
    assert x == h * p;
    assert g * x == (g * h) * p by { assert g * (h * p) == (g * h) * p; }
    MulBounds(g, h);
    MulMod(g * h, p);
  }

  /** A positive multiple is at least its divisor. */
  lemma DivisorBound(d: nat, n: nat)
    requires n > 0 && Divides(d, n)
    ensures d <= n
  {
    var m := n / d;
    assert n == d * m;
    if m > 0 {
      MulBounds(d, m);
    }
  }

  /** The quotient of a positive multiple is positive. */
  lemma QuotientPositive(n: nat, d: nat)
    requires n > 0 && Divides(d, n)
    ensures n == d * (n / d) && n / d > 0
  {
  }

  /** Only 1 scales a positive number into a divisor of itself. */
  lemma FactorOne(g: nat, h: nat)
    requires g > 0 && h > 0 && g % (g * h) == 0
    ensures h == 1
  {
    MulBounds(g, h);
    DivisorBound(g * h, g);
    if h >= 2 {
      MulBounds(g, h - 1);
    }
  }

  /** Dividing two positive numbers by their gcd leaves coprime parts. */
  lemma CoprimeParts(a: nat, b: nat)
    requires a > 0 && b > 0
    ensures var g := Gcd(a, b); g > 0 && a % g == 0 && b % g == 0 && Gcd(a / g, b / g) == 1
  {
    GcdDivides(a, b);
    var g := Gcd(a, b);
    var x, y := a / g, b / g;
    QuotientPositive(a, g);
    QuotientPositive(b, g);
    GcdDivides(x, y);
    var h := Gcd(x, y);
    DividesScaled(g, h, x);
    DividesScaled(g, h, y);
    GcdGreatest(a, b, g * h);
    FactorOne(g, h);
  }

  /** The aspect ratio: ffprobe's display ratio when it gives one, else `W/g:H/g` for
      positive dimensions, else "unknown". */
  function AspectRatio(display: string, width: int, height: int): (r: string)
    ensures display != "" ==> r == display
    ensures display == "" && (width <= 0 || height <= 0) ==> r == "unknown"
  {
    if display != "" then display
    else if width > 0 && height > 0 then
      var g := Gcd(width, height);
      if g == 0 then "unknown" else IntToString(width / g) + ":" + IntToString(height / g)
    else "unknown"
  }

  /** A derived ratio is a pair of coprime numbers with the video's proportions. */
  lemma AspectRatioReduced(width: nat, height: nat)
    requires width > 0 && height > 0
    ensures exists x: nat, y: nat :: x > 0 && y > 0 && Gcd(x, y) == 1 && x * height == y * width
                                  && AspectRatio("", width, height) == IntToString(x) + ":" + IntToString(y)
  {
    CoprimeParts(width, height);
    var g := Gcd(width, height);
    var x, y := width / g, height / g;
    QuotientPositive(width, g);
    QuotientPositive(height, g);
    SameProportions(g, x, y);
    assert AspectRatio("", width, height) == IntToString(x) + ":" + IntToString(y);
  }

  /** Scaling both parts of a ratio by the same factor keeps its proportions. */
  lemma SameProportions(g: nat, x: nat, y: nat)
    ensures x * (g * y) == y * (g * x)
  {
    assert x * (g * y) == (x * g) * y == (g * x) * y == y * (g * x);
  }

  // ---- stream selection ----

  /** The fields of an ffprobe stream the extractor reads. */
  datatype Stream = Stream(codecType: string, codecName: string, width: int, height: int,
                           rFrameRate: string, channels: int, bitRate: string, displayAspectRatio: string)

  /** The position of the first stream of a kind, or `|streams|`. */
  function FirstOfKind(streams: seq<Stream>, kind: string): (k: nat)
    ensures k <= |streams|
    ensures forall j :: 0 <= j < k ==> streams[j].codecType != kind
    ensures k < |streams| ==> streams[k].codecType == kind
  {
    if |streams| == 0 then 0
    else if streams[0].codecType == kind then 0
    else 1 + FirstOfKind(streams[1..], kind)
  }

  /** The first stream of a kind, if any. */
  function Pick(streams: seq<Stream>, kind: string): Option<Stream>
  {
    var k := FirstOfKind(streams, kind);
    if k < |streams| then Some(streams[k]) else None
  }

  /** The selection loop: the first video stream and the first audio stream, in order. */
  method SelectStreams(streams: seq<Stream>) returns (video: Option<Stream>, audio: Option<Stream>)
    ensures video == Pick(streams, "video")
    ensures audio == Pick(streams, "audio")
  {
    video, audio := None, None;
    for i := 0 to |streams|
      invariant video.None? <==> forall j :: 0 <= j < i ==> streams[j].codecType != "video"
      invariant video.Some? ==> FirstOfKind(streams, "video") < i && video == Pick(streams, "video")
      invariant audio.None? <==> forall j :: 0 <= j < i ==> streams[j].codecType != "audio"
      invariant audio.Some? ==> FirstOfKind(streams, "audio") < i && audio == Pick(streams, "audio")
    {
      var stream := streams[i];
      if stream.codecType == "video" && video.None? {
        video := Some(stream);
      } else if stream.codecType == "audio" && audio.None? {
        audio := Some(stream);
      }
    }
  }

  /** A picked stream is of its kind, and none before it is; nothing is picked only when
      no stream is of that kind. */
  lemma PickIsFirst(streams: seq<Stream>, kind: string)
    ensures Pick(streams, kind).None? <==> forall j :: 0 <= j < |streams| ==> streams[j].codecType != kind
    ensures Pick(streams, kind).Some? ==>
      exists k :: 0 <= k < |streams| && Pick(streams, kind) == Some(streams[k]) && streams[k].codecType == kind
                  && forall j :: 0 <= j < k ==> streams[j].codecType != kind
  {
    var k := FirstOfKind(streams, kind);
    if k == |streams| {
    } else {
      assert Pick(streams, kind) == Some(streams[k]);
    }
  }

  // ---- audio, content type ----

  datatype Audio = Audio(bitrate: int, channels: int, codec: string)

  /** The audio fields: zero and empty without an audio stream; an unparsable bitrate is 0. */
  function AudioFields(audio: Option<Stream>, parseInt: string -> Result<int>): (a: Audio)
    ensures audio.None? ==> a == Audio(0, 0, "")
    ensures audio.Some? ==> a.channels == audio.value.channels && a.codec == audio.value.codecName
    ensures audio.Some? ==> a.bitrate == (if parseInt(audio.value.bitRate).Ok? then parseInt(audio.value.bitRate).value else 0)
  {
    if audio.None? then Audio(0, 0, "")
    else
      var bitrate := parseInt(audio.value.bitRate);
      Audio(if bitrate.Ok? then bitrate.value else 0, audio.value.channels, audio.value.codecName)
  }

  const FormatMap: map<string, string> :=
    map["mp4" := "video/mp4", "mov" := "video/quicktime", "webm" := "video/webm",
        "matroska" := "video/x-matroska", "avi" := "video/x-msvideo"]

  const FormatKeys: seq<string> := ["mp4", "mov", "webm", "matroska", "avi"]

  /** The codec fallback: VP8 and VP9 are WebM, everything else is MP4. */
  function ContentTypeByCodec(codec: string): (ct: string)
    ensures ct == "video/webm" <==> codec == "vp8" || codec == "vp9"
    ensures ct == "video/webm" || ct == "video/mp4"
  {
    if codec in {"h264", "hevc", "h265", "mpeg4", "avc", "aac"} then "video/mp4"
    else if codec == "vp8" || codec == "vp9" then "video/webm"
    else "video/mp4"
  }

  /** The first key of `order` the format name contains. */
  function FirstContained(format: string, order: seq<string>): (k: nat)
    ensures k <= |order|
    ensures forall j :: 0 <= j < k ==> !Contains(format, order[j])
    ensures k < |order| ==> Contains(format, order[k])
  {
    if |order| == 0 then 0
    else if Contains(format, order[0]) then 0
    else 1 + FirstContained(format, order[1..])
  }

  /** A visiting order of the format map lists only keys of the map. */
  lemma ListedKeysMapped(order: seq<string>)
    requires Listing(order, FormatKeys)
    ensures forall key :: key in order ==> key in FormatMap
  {
    forall key | key in order ensures key in FormatMap {
      assert key in multiset(order);
      assert key in multiset(FormatKeys);
    }
  }

  /** `determineContentType` when the format map is visited in `order`. */
  function DetermineContentType(format: string, codec: string, order: seq<string>): string
    requires Listing(order, FormatKeys)
  {
    ListedKeysMapped(order);
    var f := ToLower(format);
    var k := FirstContained(f, order);
    if k < |order| then FormatMap[order[k]] else ContentTypeByCodec(ToLower(codec))
  }

  /** What any visiting order may return: the type of some key the lower-cased format
      contains, or, when it contains none, the codec fallback. */
  predicate ContentTypeRule(format: string, codec: string, ct: string)
  {
    var f := ToLower(format);
    if exists key :: key in FormatMap && Contains(f, key) then
      exists key :: key in FormatMap && Contains(f, key) && ct == FormatMap[key]
    else ct == ContentTypeByCodec(ToLower(codec))
  }

  /** Whatever the map order, the result obeys the rule and is one of five MIME types. */
  lemma ContentTypeObeysRule(format: string, codec: string, order: seq<string>)
    requires Listing(order, FormatKeys)
    ensures ContentTypeRule(format, codec, DetermineContentType(format, codec, order))
    ensures DetermineContentType(format, codec, order) in
      {"video/mp4", "video/quicktime", "video/webm", "video/x-matroska", "video/x-msvideo"}
  {
    var f := ToLower(format);
    var k := FirstContained(f, order);
    forall key | key in order ensures key in FormatMap {
      assert key in multiset(FormatKeys);
    }
    if k < |order| {
      assert order[k] in order;
    } else {
      forall key | key in FormatMap ensures !Contains(f, key) {
        assert key in multiset(order) by { assert key in multiset(FormatKeys); }
      }
    }
  }

  // ---- file names ----

  /** The characters the sanitiser keeps: ASCII letters, digits, `_` and `-`. */
  predicate NameChar(c: char) { 'a' <= c <= 'z' || 'A' <= c <= 'Z' || '0' <= c <= '9' || c == '_' || c == '-' }

  /** `strings.TrimSuffix(filename, filepath.Ext(filename))`. */
  function StripExt(filename: string): (stem: string)
    ensures stem + Ext(filename) == filename
  {
    filename[..|filename| - |Ext(filename)|]
  }

  /** `strings.ReplaceAll(name, " ", "_")`. */
  function Underscored(s: string): (r: string)
    ensures |r| == |s| && ' ' !in r
  {
    seq(|s|, i requires 0 <= i < |s| => if s[i] == ' ' then '_' else s[i])
  }

  /** Deleting every match of `[^a-zA-Z0-9_-]`. */
  function KeepNameChars(s: string): (r: string)
    ensures |r| <= |s|
    ensures forall i :: 0 <= i < |r| ==> NameChar(r[i])
  {
    if |s| == 0 then ""
    else KeepNameChars(s[..|s| - 1]) + (if NameChar(s[|s| - 1]) then [s[|s| - 1]] else "")
  }

  /** The sanitised stem: extension dropped, spaces to `_`, other characters deleted,
      lower-cased. */
  function SanitizedStem(filename: string): string
  {
    ToLower(KeepNameChars(Underscored(StripExt(filename))))
  }

  /** `SanitizeFilename`, with the `20060102_150405` timestamp given. */
  function SanitizeFilename(filename: string, timestamp: string): (r: string)
    ensures HasSuffix(r, "_" + timestamp)
  {
    SanitizedStem(filename) + "_" + timestamp
  }

  /** The lower-case name characters. */
  predicate CleanChar(c: char) { 'a' <= c <= 'z' || '0' <= c <= '9' || c == '_' || c == '-' }

  /** A sanitised stem is drawn from `[a-z0-9_-]` and is no longer than the stem. */
  lemma SanitizedStemClean(filename: string)
    ensures |SanitizedStem(filename)| <= |StripExt(filename)|
    ensures forall i :: 0 <= i < |SanitizedStem(filename)| ==> CleanChar(SanitizedStem(filename)[i])
  {
    var kept := KeepNameChars(Underscored(StripExt(filename)));
    forall i | 0 <= i < |kept| ensures CleanChar(LowerChar(kept[i])) {
      assert NameChar(kept[i]);
    }
  }

  /** Characters that are not name characters are deleted, and nothing else is. */
  lemma {:induction false} KeepsClean(s: string)
    requires forall i :: 0 <= i < |s| ==> CleanChar(s[i])
    ensures KeepNameChars(s) == s
  {
    if |s| > 0 {
      KeepsClean(s[..|s| - 1]);
      assert s == s[..|s| - 1] + [s[|s| - 1]];
    }
  }

  /** A stem already in `[a-z0-9_-]` is kept as it is. */
  lemma CleanStemKept(filename: string)
    requires forall i :: 0 <= i < |StripExt(filename)| ==> CleanChar(StripExt(filename)[i])
    ensures SanitizedStem(filename) == StripExt(filename)
  {
    var stem := StripExt(filename);
    assert Underscored(stem) == stem;
    KeepsClean(stem);
    assert ToLower(stem) == stem;
  }

  // ---- metadata record and retries ----

  /** The record the extractor fills. Durations, bit rates and frame rates are real numbers. */
  datatype VideoMetadata = VideoMetadata(
    duration: real, width: int, height: int, format: string, bitrate: int, fileSize: int,
    checksum: string, createdAt: string, codec: string, frameRate: real, aspectRatio: string,
    audioCodec: string, audioBitrate: int, audioChannels: int, contentType: string,
    originalFilename: string, fileExtension: string, sanitizedFilename: string)

  /** The format fields of ffprobe's output that the extractor reads. */
  datatype ProbeFormat = ProbeFormat(duration: string, formatName: string, size: string, bitRate: string)

  datatype ProbeOutput = ProbeOutput(format: ProbeFormat, streams: seq<Stream>)

  /** The frame rate `num/den`: numbers that do not parse read as 0, and a zero
      denominator or a rate not of two parts gives 0. */
  function FrameRate(rate: string, parseFloat: string -> Result<real>): real
  {
    if rate == "" then 0.0
    else
      var parts := Split(rate, '/');
      if |parts| != 2 then 0.0
      else
        var num := ValueOr(parseFloat(parts[0]), 0.0);
        var den := ValueOr(parseFloat(parts[1]), 0.0);
        if den != 0.0 then num / den else 0.0
  }

  /** `extractMetadataOnce` after ffprobe has run: `probe` is its parsed output, or the
      error of finding, running or parsing it; `checksum` is the first field of md5sum's
      output, or its error. */
  function ExtractOnce(filePath: string, probe: Result<ProbeOutput>, parseFloat: string -> Result<real>,
                       parseInt: string -> Result<int>, checksum: Result<string>, order: seq<string>,
                       now: string, timestamp: string): (r: Result<VideoMetadata>)
    requires Listing(order, FormatKeys)
    ensures r.Ok? <==> probe.Ok? && Pick(probe.value.streams, "video").Some?
                       && parseFloat(probe.value.format.duration).Ok? && parseInt(probe.value.format.size).Ok?
                       && checksum.Ok?
    ensures probe.Err? ==> r == Err(probe.error)
    ensures probe.Ok? && Pick(probe.value.streams, "video").None? ==> r == Err("no video stream found in file")
    ensures probe.Ok? && Pick(probe.value.streams, "video").Some? ==>
      var duration := parseFloat(probe.value.format.duration);
      var size := parseInt(probe.value.format.size);
      && (duration.Err? ==> r == Err("invalid duration: " + duration.error))
      && (duration.Ok? && size.Err? ==> r == Err("invalid file size: " + size.error))
      && (duration.Ok? && size.Ok? && checksum.Err? ==> r == Err("failed to calculate checksum: " + checksum.error))
    ensures r.Ok? ==> var video := Pick(probe.value.streams, "video").value;
      && parseFloat(probe.value.format.duration) == Ok(r.value.duration)
      && parseInt(probe.value.format.size) == Ok(r.value.fileSize)
      && checksum == Ok(r.value.checksum) && r.value.createdAt == now
      && r.value.format == probe.value.format.formatName
      && r.value.frameRate == FrameRate(video.rFrameRate, parseFloat)
      && r.value.contentType == DetermineContentType(probe.value.format.formatName, video.codecName, order)
      && r.value.sanitizedFilename == SanitizeFilename(Base(filePath), timestamp)
      && r.value.width == video.width && r.value.height == video.height && r.value.codec == video.codecName
      && r.value.aspectRatio == AspectRatio(video.displayAspectRatio, video.width, video.height)
      && Audio(r.value.audioBitrate, r.value.audioChannels, r.value.audioCodec)
           == AudioFields(Pick(probe.value.streams, "audio"), parseInt)
      && r.value.bitrate == ValueOr(parseInt(probe.value.format.bitRate), 0)
      && r.value.originalFilename == Base(filePath) && r.value.fileExtension == Ext(Base(filePath))
  {
    if probe.Err? then Err(probe.error)
    else
      var out := probe.value;
      var video := Pick(out.streams, "video");
      var audio := Pick(out.streams, "audio");
      if video.None? then Err("no video stream found in file")
      else
        var duration := parseFloat(out.format.duration);
        if duration.Err? then Err("invalid duration: " + duration.error)
        else
          var size := parseInt(out.format.size);
          if size.Err? then Err("invalid file size: " + size.error)
          else if checksum.Err? then Err("failed to calculate checksum: " + checksum.error)
          else
            var v := video.value;
            var a := AudioFields(audio, parseInt);
            var name := Base(filePath);
            Ok(VideoMetadata(duration.value, v.width, v.height, out.format.formatName,
                             ValueOr(parseInt(out.format.bitRate), 0), size.value, checksum.value, now,
                             v.codecName, FrameRate(v.rFrameRate, parseFloat),
                             AspectRatio(v.displayAspectRatio, v.width, v.height),
                             a.codec, a.bitrate, a.channels,
                             DetermineContentType(out.format.formatName, v.codecName, order),
                             name, Ext(name), SanitizeFilename(name, timestamp)))
  }

  const MaxRetries := 3

  /** `ExtractMetadata`: up to three attempts, returning the first success; `attempt(i)`
      is what the `i`-th attempt yields. It reports how many attempts ran. */
  method ExtractMetadata(attempt: nat -> Result<VideoMetadata>) returns (r: Result<VideoMetadata>, ran: nat)
    ensures 1 <= ran <= MaxRetries
    ensures forall j :: 0 <= j < ran - 1 ==> attempt(j).Err?
    ensures r.Ok? ==> r == attempt(ran - 1)
    ensures r.Ok? <==> exists j :: 0 <= j < MaxRetries && attempt(j).Ok?
    ensures r.Err? ==> ran == MaxRetries && r.error == "failed after 3 attempts: " + attempt(MaxRetries - 1).error
  {
    var lastErr := "";
    ran := 0;
    while ran < MaxRetries
      invariant ran <= MaxRetries
      invariant forall j :: 0 <= j < ran ==> attempt(j).Err?
      invariant ran > 0 ==> lastErr == attempt(ran - 1).error
    {
      var metadata := attempt(ran);
      ran := ran + 1;
      if metadata.Ok? {
        return metadata, ran;
      }
      lastErr := metadata.error;
    }
    r := Err("failed after 3 attempts: " + lastErr);
  }
}
