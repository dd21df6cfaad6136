/**
 * Downloading: the output file name for each selected quality, the argument
 * lists handed to the video-extraction tool, and the loop that keeps the
 * successful downloads in the order they were asked for.
 */
module Download {
  import opened Text

  // ---------------------------------------------------------------------------
  // Output file names

  /** `filename.replace(/\.mp4$/, '')`: one trailing ".mp4" is removed. */
  function StripMp4(filename: string): (base: string)
    ensures EndsWith(filename, ".mp4") ==> base + ".mp4" == filename
    ensures !EndsWith(filename, ".mp4") ==> base == filename
  {
    if EndsWith(filename, ".mp4") then filename[..|filename| - 4] else filename
  }

  /**
   * The file a quality is saved to: "base.mp3" for the audio track,
   * "base_QUALITY.mp4" for any video quality.
   */
  function OutputFilename(filename: string, quality: string): (r: string)
    ensures quality == "mp3" ==> r == StripMp4(filename) + ".mp3"
    ensures quality != "mp3" ==> r == StripMp4(filename) + "_" + quality + ".mp4"
  {
    StripMp4(filename) + (if quality == "mp3" then "" else "_" + quality)
      + (if quality == "mp3" then ".mp3" else ".mp4")
  }

  /** Two different qualities never write to the same file. */
  lemma OutputFilenameInjective(filename: string, q1: string, q2: string)
    requires q1 != q2
    ensures OutputFilename(filename, q1) != OutputFilename(filename, q2)
  {
    var base := StripMp4(filename);
    var a, b := OutputFilename(filename, q1), OutputFilename(filename, q2);
    if q1 == "mp3" || q2 == "mp3" {
      assert a[|a| - 1] != b[|b| - 1];
    } else if |q1| != |q2| {
      assert |a| != |b|;
    } else if a == b {
      assert forall k :: 0 <= k < |q1| ==> q1[k] == a[|base| + 1 + k] == q2[k];
      assert false;
    }
  }

  /** A name already ending in ".mp4" keeps its stem: "clip.mp4" at 720p is "clip_720p.mp4". */
  lemma OutputFilenameExample()
    ensures OutputFilename("clip.mp4", "720p") == "clip_720p.mp4"
    ensures OutputFilename("clip.mp4", "mp3") == "clip.mp3"
    ensures OutputFilename("clip", "4K") == "clip_4K.mp4"
  {
    assert EndsWith("clip.mp4", ".mp4");
    assert "clip.mp4"[..4] == "clip";
    assert !EndsWith("clip", ".mp4");
  }

  // ---------------------------------------------------------------------------
  // Argument lists

  const CookiesFlag: string := "--cookies-from-browser"

  /** The frame height a quality is capped at: anything unrecognised is capped at 480. */
  function HeightFor(quality: string): (h: string)
    ensures h == "2160" <==> quality == "4K"
    ensures h == "1080" <==> quality == "1080p"
    ensures h == "720" <==> quality == "720p"
    ensures h == "480" <==> quality != "4K" && quality != "1080p" && quality != "720p"
  {
    if quality == "4K" then "2160"
    else if quality == "1080p" then "1080"
    else if quality == "720p" then "720"
    else "480"
  }

  /** The height filter, as it appears in each alternative of the selector. */
  function HeightCap(h: string): string
  {
    "[height<=" + h + "]"
  }

  /**
   * The selector `sel` falls into three "/"-separated alternatives at `i` and
   * `j`: two video-plus-audio ones and a single file, each capped at `h`.
   */
  ghost predicate CappedAlternatives(sel: string, h: string, i: int, j: int)
  {
    && 0 < i < j < |sel| && sel[i] == '/' && sel[j] == '/'
    && StartsWith(sel[..i], "bestvideo" + HeightCap(h))
    && StartsWith(sel[i + 1..j], "bestvideo" + HeightCap(h))
    && sel[j + 1..] == "best" + HeightCap(h)
  }

  /**
   * The format selector: best mp4 video with m4a audio, else best video with
   * best audio, else the best single file, each capped at the height.
   */
  function FormatSelector(h: string): (sel: string)
    ensures StartsWith(sel, "bestvideo" + HeightCap(h))
    ensures exists i, j :: CappedAlternatives(sel, h, i, j)
  {
    var a1 := "bestvideo" + HeightCap(h) + "[ext=mp4]+bestaudio[ext=m4a]";
    var a2 := "bestvideo" + HeightCap(h) + "+bestaudio";
    var a3 := "best" + HeightCap(h);
    var sel := a1 + "/" + a2 + "/" + a3;
    assert sel[..|a1|] == a1;
    assert sel[|a1| + 1..|a1| + 1 + |a2|] == a2;
    assert sel[|a1| + 1 + |a2| + 1..] == a3;
    assert CappedAlternatives(sel, h, |a1|, |a1| + 1 + |a2|);
    sel
  }

  /** The length of "bestvideo[height<=", after which the selector spells out the height. */
  const CapStart: nat := 18

  /** The selector spells out the height right after "bestvideo[height<=", followed by "]". */
  lemma SelectorSpellsHeight(h: string)
    ensures var sel := FormatSelector(h);
            && CapStart + |h| < |sel| && sel[CapStart + |h|] == ']'
            && forall k :: 0 <= k < |h| ==> sel[CapStart + k] == h[k]
  {
    var sel := FormatSelector(h);
    var p := "bestvideo" + HeightCap(h);
    assert sel[..|p|] == p;
    assert p == "bestvideo[height<=" + h + "]";
  }

  /** Different height caps (without a "]") give different selectors. */
  lemma FormatSelectorInjective(h1: string, h2: string)
    requires h1 != h2 && ']' !in h1 && ']' !in h2
    ensures FormatSelector(h1) != FormatSelector(h2)
  {
    var s1, s2 := FormatSelector(h1), FormatSelector(h2);
    SelectorSpellsHeight(h1);
    SelectorSpellsHeight(h2);
    if |h1| < |h2| {
      assert s2[CapStart + |h1|] == h2[|h1|] != ']';
    } else if |h2| < |h1| {
      assert s1[CapStart + |h2|] == h1[|h2|] != ']';
    } else {
      var k :| 0 <= k < |h1| && h1[k] != h2[k];
      assert s1[CapStart + k] != s2[CapStart + k];
    }
  }

  /** The arguments `getVideoInfo` runs the extractor with. */
  method InfoArgs(url: string, browser: string) returns (args: seq<string>)
    ensures browser != "" ==> args == ["--dump-json", CookiesFlag, browser, url]
    ensures browser == "" ==> args == ["--dump-json", url]
  {
    args := ["--dump-json"];
    if browser != "" {
      args := args + [CookiesFlag, browser];
    }
    args := args + [url];
  }

  /** The arguments `getFormatSizes` runs the extractor with. */
  method FormatListArgs(url: string, browser: string) returns (args: seq<string>)
    ensures browser != "" ==> args == ["--list-formats", "--no-warnings", CookiesFlag, browser, url]
    ensures browser == "" ==> args == ["--list-formats", "--no-warnings", url]
  {
    args := ["--list-formats", "--no-warnings"];
    if browser != "" {
      args := args + [CookiesFlag, browser];
    }
    args := args + [url];
  }

  /**
   * The arguments `downloadSingleFile` runs the extractor with: progress
   * options, the browser cookies when a browser is set, then either the audio
   * extraction options at the configured bitrate or a height-capped format
   * selector, then the output path and the page URL.
   */
  method DownloadArgs(quality: string, browser: string, mp3Bitrate: nat, fullpath: string, url: string)
    returns (args: seq<string>)
    ensures |args| >= 8 && args[..3] == ["--no-warnings", "--newline", "--progress"]
    ensures args[|args| - 3..] == ["--output", fullpath, url]
    ensures browser != "" <==> args[3] == CookiesFlag
    ensures browser != "" ==> args[4] == browser
    ensures var c := if browser != "" then 5 else 3;
            && (quality == "mp3" ==>
                  && |args| == c + 10
                  && args[c..c + 7] == ["--extract-audio", "--audio-format", "mp3", "--audio-quality",
                                        NatToString(mp3Bitrate) + "K", "--embed-thumbnail", "--add-metadata"])
            && (quality != "mp3" ==>
                  && |args| == c + 5
                  && args[c..c + 2] == ["--format", FormatSelector(HeightFor(quality))])
  {
    args := ["--no-warnings", "--newline", "--progress"];
    if browser != "" {
      args := args + [CookiesFlag, browser];
    }
    if quality == "mp3" {
      args := args + ["--extract-audio", "--audio-format", "mp3"];
      args := args + ["--audio-quality", NatToString(mp3Bitrate) + "K"];
      args := args + ["--embed-thumbnail"];
      args := args + ["--add-metadata"];
    } else {
      var height := HeightFor(quality);
      args := args + ["--format", FormatSelector(height)];
    }
    args := args + ["--output", fullpath];
    args := args + [url];
  }

  /** The audio bitrate argument reads back as the configured bitrate. */
  lemma AudioQualityReadsBack(mp3Bitrate: nat)
    ensures var a := NatToString(mp3Bitrate) + "K";
            a[|a| - 1] == 'K' && DigitsValue(a[..|a| - 1]) == mp3Bitrate
  {
    var a := NatToString(mp3Bitrate) + "K";
    assert a[..|a| - 1] == NatToString(mp3Bitrate);
    NatToStringRoundTrip(mp3Bitrate);
  }

  /** The arguments for fetching the cover image next to the downloads. */
  method CoverArgs(browser: string, outputStem: string, url: string) returns (args: seq<string>)
    ensures |args| >= 7 && args[..4] == ["--write-thumbnail", "--skip-download", "--convert-thumbnails", "jpg"]
    ensures browser != "" ==> args[4..] == [CookiesFlag, browser, "--output", outputStem, url]
    ensures browser == "" ==> args[4..] == ["--output", outputStem, url]
  {
    args := ["--write-thumbnail", "--skip-download", "--convert-thumbnails", "jpg"];
    if browser != "" {
      args := args + [CookiesFlag, browser];
    }
    args := args + ["--output", outputStem];
    args := args + [url];
  }

  /** The arguments for fetching the video description next to the downloads. */
  method DescriptionArgs(browser: string, outputStem: string, url: string) returns (args: seq<string>)
    ensures |args| >= 5 && args[..2] == ["--write-description", "--skip-download"]
    ensures browser != "" ==> args[2..] == [CookiesFlag, browser, "--output", outputStem, url]
    ensures browser == "" ==> args[2..] == ["--output", outputStem, url]
  {
    args := ["--write-description", "--skip-download"];
    if browser != "" {
      args := args + [CookiesFlag, browser];
    }
    args := args + ["--output", outputStem];
    args := args + [url];
  }

  // ---------------------------------------------------------------------------
  // Collecting results

  /** How one download ended: its exit status and the size of the file written (in MB). */
  datatype Attempt = Attempt(success: bool, sizeMb: real)

  /** One entry of the summary shown after downloading. */
  datatype DownloadResult = DownloadResult(filename: string, quality: string, sizeMb: real)

  /** The summary for the first `|qualities|` downloads: the successful ones, in order. */
  function Collected(filename: string, qualities: seq<string>, attempts: seq<Attempt>): seq<DownloadResult>
    requires |attempts| == |qualities|
  {
    if qualities == [] then []
    else
      var n := |qualities| - 1;
      var before := Collected(filename, qualities[..n], attempts[..n]);
      if attempts[n].success
      then before + [DownloadResult(OutputFilename(filename, qualities[n]), qualities[n], attempts[n].sizeMb)]
      else before
  }

  /**
   * The video loop of `downloadVideo`: quality `qualities[i]` is downloaded
   * with outcome `attempts[i]`, and a successful one is appended to the
   * results, named after its quality.
   */
  method CollectResults(filename: string, qualities: seq<string>, attempts: seq<Attempt>)
    returns (results: seq<DownloadResult>)
    requires |attempts| == |qualities|
    ensures results == Collected(filename, qualities, attempts)
    ensures |results| <= |qualities|
    ensures forall r :: r in results ==> r.quality in qualities && r.filename == OutputFilename(filename, r.quality)
  {
    results := [];
    for i := 0 to |qualities|
      invariant results == Collected(filename, qualities[..i], attempts[..i])
      invariant |results| <= i
      invariant forall r :: r in results ==> r.quality in qualities[..i] && r.filename == OutputFilename(filename, r.quality)
    {
      assert qualities[..i + 1][..i] == qualities[..i];
      assert attempts[..i + 1][..i] == attempts[..i];
      var quality := qualities[i];
      var name := OutputFilename(filename, quality);
      if attempts[i].success {
        results := results + [DownloadResult(name, quality, attempts[i].sizeMb)];
      }
    }
    assert qualities[..|qualities|] == qualities;
    assert attempts[..|attempts|] == attempts;
  }

  /** When every download succeeds, there is one result per quality, in the order asked. */
  lemma {:induction false} AllSucceeded(filename: string, qualities: seq<string>, attempts: seq<Attempt>)
    requires |attempts| == |qualities|
    requires forall i :: 0 <= i < |attempts| ==> attempts[i].success
    ensures |Collected(filename, qualities, attempts)| == |qualities|
    ensures forall i :: 0 <= i < |qualities| ==> Collected(filename, qualities, attempts)[i].quality == qualities[i]
  {
    if qualities != [] {
      var n := |qualities| - 1;
      AllSucceeded(filename, qualities[..n], attempts[..n]);
    }
  }

  /** When every download fails, the summary is empty. */
  lemma {:induction false} NoneSucceeded(filename: string, qualities: seq<string>, attempts: seq<Attempt>)
    requires |attempts| == |qualities|
    requires forall i :: 0 <= i < |attempts| ==> !attempts[i].success
    ensures Collected(filename, qualities, attempts) == []
  {
    if qualities != [] {
      var n := |qualities| - 1;
      NoneSucceeded(filename, qualities[..n], attempts[..n]);
    }
  }

  /** No two results name the same file. */
  ghost predicate DistinctNames(rs: seq<DownloadResult>) {
    forall i, j :: 0 <= i < j < |rs| ==> rs[i].filename != rs[j].filename
  }

  /** Distinct qualities give results with pairwise distinct file names. */
  lemma {:induction false} DistinctFilenames(filename: string, qualities: seq<string>, attempts: seq<Attempt>)
    requires |attempts| == |qualities|
    requires forall i, j :: 0 <= i < j < |qualities| ==> qualities[i] != qualities[j]
    ensures DistinctNames(Collected(filename, qualities, attempts))
  {
    if qualities != [] {
      var n := |qualities| - 1;
      DistinctFilenames(filename, qualities[..n], attempts[..n]);
      CollectedQualities(filename, qualities[..n], attempts[..n]);
      var before := Collected(filename, qualities[..n], attempts[..n]);
      var rs := Collected(filename, qualities, attempts);
      if attempts[n].success {
        var last := DownloadResult(OutputFilename(filename, qualities[n]), qualities[n], attempts[n].sizeMb);
        assert rs == before + [last];
        forall i, j | 0 <= i < j < |rs| ensures rs[i].filename != rs[j].filename {
          if j == |before| {
            assert rs[i] == before[i] && before[i] in before;
            assert before[i].quality in qualities[..n];
            var k :| 0 <= k < n && qualities[..n][k] == before[i].quality;
            assert qualities[k] != qualities[n];
            OutputFilenameInjective(filename, before[i].quality, qualities[n]);
          } else {
            assert rs[i] == before[i] && rs[j] == before[j];
          }
        }
      } else {
        assert rs == before;
      }
    }
  }

  lemma {:induction false} CollectedQualities(filename: string, qualities: seq<string>, attempts: seq<Attempt>)
    requires |attempts| == |qualities|
    ensures forall r :: r in Collected(filename, qualities, attempts) ==>
              r.quality in qualities && r.filename == OutputFilename(filename, r.quality)
  {
    if qualities != [] {
      var n := |qualities| - 1;
      CollectedQualities(filename, qualities[..n], attempts[..n]);
    }
  }
}
