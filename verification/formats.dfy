/**
 * The quality menu's sizes: each line of the extractor's format listing,
 * already parsed, is classified into a quality bucket by its frame height
 * (the first line seen for a bucket gives its size) and the largest
 * audio-only stream gives the size shown for "mp3".
 */
module Formats {
  import opened Text

  /** The size text a listing line carries ("12.3MiB"); the pattern that finds it needs a digit. */
  type SizeText = s: string | |s| > 0 witness "0"

  /** A line that shows a `WIDTHxHEIGHT` resolution and a size. */
  datatype VideoMatch = VideoMatch(height: nat, size: SizeText)

  /** An "audio only" line: its size text and the byte count that text stands for. */
  datatype AudioMatch = AudioMatch(size: SizeText, bytes: nat)

  /** One listing line, as the two patterns see it. */
  datatype FormatLine = FormatLine(video: Option<VideoMatch>, audio: Option<AudioMatch>)

  const Buckets: seq<string> := ["4K", "1080p", "720p", "480p"]
  const Mp3: string := "mp3"

  /** The least height that lands in each bucket. */
  function Threshold(q: string): nat
  {
    if q == "4K" then 2160 else if q == "1080p" then 1080 else if q == "720p" then 720 else 480
  }

  /** The bucket of a frame height: the highest one whose threshold it reaches, none below 480. */
  function QualityOf(height: nat): (r: Option<string>)
    ensures r.Some? <==> height >= 480
    ensures r.Some? ==> r.value in Buckets && Threshold(r.value) <= height
    ensures r.Some? ==> forall q :: q in Buckets && Threshold(q) <= height ==> Threshold(q) <= Threshold(r.value)
  {
    if height >= 2160 then Some("4K")
    else if height >= 1080 then Some("1080p")
    else if height >= 720 then Some("720p")
    else if height >= 480 then Some("480p")
    else None
  }

  /** The loop's variables: the size map so far, and the best audio bytes and size. */
  datatype Scan = Scan(sizes: map<string, string>, bestBytes: nat, bestSize: Option<string>)

  /** One iteration of the loop. */
  function Step(s: Scan, line: FormatLine): Scan
  {
    var sizes :=
      match line.video
      case Some(v) =>
        (match QualityOf(v.height)
         case Some(q) => if q in s.sizes then s.sizes else s.sizes[q := v.size]
         case None => s.sizes)
      case None => s.sizes;
    match line.audio
    case Some(a) =>
      if a.bytes > s.bestBytes then Scan(sizes, a.bytes, Some(a.size))
      else Scan(sizes, s.bestBytes, s.bestSize)
    case None => Scan(sizes, s.bestBytes, s.bestSize)
  }

  /** The loop's variables after the given lines. */
  function ScanLines(lines: seq<FormatLine>): Scan
  {
    if lines == [] then Scan(map[], 0, None)
    else Step(ScanLines(lines[..|lines| - 1]), lines[|lines| - 1])
  }

  /** The map `getFormatSizes` resolves with. */
  function FormatSizes(lines: seq<FormatLine>): map<string, string>
  {
    var s := ScanLines(lines);
    if s.bestSize.Some? then s.sizes[Mp3 := s.bestSize.value] else s.sizes
  }

  /**
   * The parsing loop of `getFormatSizes`, over the listing's lines in order.
   * Process spawning and the patterns themselves are outside the model.
   */
  method GetFormatSizes(lines: seq<FormatLine>) returns (sizes: map<string, string>)
    ensures sizes == FormatSizes(lines)
  {
    sizes := map[];
    var bestAudioSize: Option<string> := None;
    var bestAudioBytes: nat := 0;
    for i := 0 to |lines|
      invariant ScanLines(lines[..i]) == Scan(sizes, bestAudioBytes, bestAudioSize)
    {
      assert lines[..i + 1][..i] == lines[..i];
      var line := lines[i];
      if line.video.Some? {
        var quality := QualityOf(line.video.value.height);
        if quality.Some? && quality.value !in sizes {
          sizes := sizes[quality.value := line.video.value.size];
        }
      }
      if line.audio.Some? {
        if line.audio.value.bytes > bestAudioBytes {
          bestAudioBytes := line.audio.value.bytes;
          bestAudioSize := Some(line.audio.value.size);
        }
      }
    }
    assert lines[..|lines|] == lines;
    if bestAudioSize.Some? {
      sizes := sizes[Mp3 := bestAudioSize.value];
    }
  }

  // ---------------------------------------------------------------------------
  // Video buckets

  /** `line` shows a resolution that lands in bucket `q`. */
  ghost predicate ShowsQuality(line: FormatLine, q: string) {
    line.video.Some? && QualityOf(line.video.value.height) == Some(q)
  }

  /** The size map holds only quality buckets, and a bucket exactly when some line shows it. */
  lemma {:induction false} ScanBuckets(lines: seq<FormatLine>)
    ensures forall q :: q in ScanLines(lines).sizes ==> q in Buckets
    ensures forall q :: q in ScanLines(lines).sizes <==> exists i :: 0 <= i < |lines| && ShowsQuality(lines[i], q)
  {
    if lines != [] {
      var init := lines[..|lines| - 1];
      ScanBuckets(init);
      forall q ensures q in ScanLines(lines).sizes <==> exists i :: 0 <= i < |lines| && ShowsQuality(lines[i], q) {
        if q in ScanLines(lines).sizes && !ShowsQuality(lines[|lines| - 1], q) {
          var i :| 0 <= i < |init| && ShowsQuality(init[i], q);
          assert ShowsQuality(lines[i], q);
        }
        if exists i :: 0 <= i < |lines| && ShowsQuality(lines[i], q) {
          var i :| 0 <= i < |lines| && ShowsQuality(lines[i], q);
          if i < |init| {
            assert ShowsQuality(init[i], q);
          }
        }
      }
    }
  }

  /** The first line that shows a bucket gives that bucket's size; later lines never overwrite it. */
  lemma {:induction false} FirstLineWins(lines: seq<FormatLine>, i: nat, q: string)
    requires i < |lines| && ShowsQuality(lines[i], q)
    requires forall j :: 0 <= j < i ==> !ShowsQuality(lines[j], q)
    ensures q in ScanLines(lines).sizes && ScanLines(lines).sizes[q] == lines[i].video.value.size
  {
    var init := lines[..|lines| - 1];
    if i == |lines| - 1 {
      ScanBuckets(init);
    } else {
      FirstLineWins(init, i, q);
    }
  }

  /** What the menu sees for a video bucket. */
  lemma BucketInFormatSizes(lines: seq<FormatLine>, q: string)
    requires q in Buckets
    ensures q in FormatSizes(lines) <==> exists i :: 0 <= i < |lines| && ShowsQuality(lines[i], q)
    ensures q in FormatSizes(lines) ==> FormatSizes(lines)[q] == ScanLines(lines).sizes[q]
  {
    ScanBuckets(lines);
  }

  // ---------------------------------------------------------------------------
  // The audio entry

  /** The byte count a line contributes to the audio comparison (none: 0). */
  function AudioBytes(line: FormatLine): nat
  {
    if line.audio.Some? then line.audio.value.bytes else 0
  }

  /**
   * The best byte count bounds every line's, is attained by some line unless
   * it is 0, and a best size is recorded exactly when it is positive.
   */
  lemma {:induction false} ScanBestBytes(lines: seq<FormatLine>)
    ensures forall j :: 0 <= j < |lines| ==> AudioBytes(lines[j]) <= ScanLines(lines).bestBytes
    ensures ScanLines(lines).bestBytes == 0 ||
            exists j :: 0 <= j < |lines| && AudioBytes(lines[j]) == ScanLines(lines).bestBytes
    ensures ScanLines(lines).bestSize.Some? <==> ScanLines(lines).bestBytes > 0
  {
    if lines != [] {
      var init := lines[..|lines| - 1];
      ScanBestBytes(init);
      var s := ScanLines(lines);
      forall j | 0 <= j < |lines| ensures AudioBytes(lines[j]) <= s.bestBytes {
        if j < |init| { assert lines[j] == init[j]; }
      }
      if s.bestBytes != 0 && s.bestBytes != AudioBytes(lines[|lines| - 1]) {
        var j :| 0 <= j < |init| && AudioBytes(init[j]) == ScanLines(init).bestBytes;
        assert lines[j] == init[j];
      }
    }
  }

  /**
   * The "mp3" entry is the size of the line with the strictly largest byte
   * count: on a tie the earliest of those lines wins.
   */
  lemma {:induction false} FirstLargestAudioWins(lines: seq<FormatLine>, i: nat)
    requires i < |lines| && lines[i].audio.Some? && lines[i].audio.value.bytes > 0
    requires forall j :: 0 <= j < |lines| ==> AudioBytes(lines[j]) <= AudioBytes(lines[i])
    requires forall j :: 0 <= j < i ==> AudioBytes(lines[j]) < AudioBytes(lines[i])
    ensures ScanLines(lines).bestSize == Some(lines[i].audio.value.size)
    ensures ScanLines(lines).bestBytes == lines[i].audio.value.bytes
  {
    var init := lines[..|lines| - 1];
    if i == |lines| - 1 {
      ScanBestBytes(init);
      if ScanLines(init).bestBytes != 0 {
        var j :| 0 <= j < |init| && AudioBytes(init[j]) == ScanLines(init).bestBytes;
        assert lines[j] == init[j];
      }
    } else {
      forall j | 0 <= j < |init| ensures AudioBytes(init[j]) <= AudioBytes(init[i]) {
        assert init[j] == lines[j];
      }
      FirstLargestAudioWins(init, i);
    }
  }

  /** "mp3" is offered exactly when some audio-only line has a positive byte count. */
  lemma Mp3Offered(lines: seq<FormatLine>)
    ensures Mp3 in FormatSizes(lines) <==> exists j :: 0 <= j < |lines| && AudioBytes(lines[j]) > 0
  {
    ScanBestBytes(lines);
    ScanBuckets(lines);
    assert Mp3 !in Buckets;
  }

  /** The "mp3" entry of the final map, for the first strictly largest audio line. */
  lemma Mp3Size(lines: seq<FormatLine>, i: nat)
    requires i < |lines| && lines[i].audio.Some? && lines[i].audio.value.bytes > 0
    requires forall j :: 0 <= j < |lines| ==> AudioBytes(lines[j]) <= AudioBytes(lines[i])
    requires forall j :: 0 <= j < i ==> AudioBytes(lines[j]) < AudioBytes(lines[i])
    ensures Mp3 in FormatSizes(lines) && FormatSizes(lines)[Mp3] == lines[i].audio.value.size
  {
    FirstLargestAudioWins(lines, i);
  }
}
