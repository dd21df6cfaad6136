/**
 * The display helpers of the command-line front end: home-directory
 * expansion of a typed path, title truncation at a word boundary, the
 * fixed-width download progress bar and the bold quality label.
 */
module Display {
  import opened Text

  const Ellipsis: char := '\U{2026}'
  const FullBlock: char := '\U{2588}'
  const LightBlock: char := '\U{2591}'
  const Escape: char := '\U{1B}'

  // ---------------------------------------------------------------------------
  // expandPath

  /** `expandPath`: a path written "~/…" has its "~" replaced by the home directory. */
  function ExpandPath(input: string, home: string): (r: string)
    ensures StartsWith(input, "~/") ==> r == home + input[1..]
    ensures !StartsWith(input, "~/") ==> r == input
  {
    if StartsWith(input, "~/") then home + input[1..] else input
  }

  /**
   * Expanding twice is expanding once, as long as the home directory does not
   * itself start with "~": what comes out never starts with "~/".
   */
  lemma ExpandPathIdempotent(input: string, home: string)
    requires home == [] || home[0] != '~'
    ensures !StartsWith(ExpandPath(input, home), "~/")
    ensures ExpandPath(ExpandPath(input, home), home) == ExpandPath(input, home)
  {
    var r := ExpandPath(input, home);
    if StartsWith(input, "~/") {
      assert input[1] == '/';
      if home == [] {
        assert r[0] == input[1];
      } else {
        assert r[0] == home[0];
      }
    }
  }

  // ---------------------------------------------------------------------------
  // truncateTitle

  /** The default width of a title on the download line. */
  const DefaultTitleLength: nat := 75

  /**
   * `truncateTitle`: a title that fits is kept; a longer one is cut to
   * `maxLength` characters, then back to the last space of that cut when the
   * space is not the first character, and an ellipsis is appended.
   */
  function TruncateTitle(title: string, maxLength: nat): (r: string)
    ensures |title| <= maxLength ==> r == title
    ensures |title| > maxLength ==>
      && |r| >= 1 && r[|r| - 1] == Ellipsis && |r| <= maxLength + 1
      && var body := r[..|r| - 1];
         && body == title[..|body|]
         && (|body| == maxLength || (0 < |body| < maxLength && title[|body|] == ' '))
         && (forall j :: |body| < j < maxLength ==> title[j] != ' ')
         && (|body| == maxLength ==> forall j :: 0 < j < maxLength ==> title[j] != ' ')
  {
    if |title| <= maxLength then title
    else
      var truncated := title[..maxLength];
      var lastSpaceIndex := LastIndexOf(truncated, ' ');
      if lastSpaceIndex > 0 then truncated[..lastSpaceIndex] + [Ellipsis]
      else truncated + [Ellipsis]
  }

  /** On the download line a title takes at most 75 characters and the ellipsis. */
  lemma DownloadLineTitle(title: string)
    ensures |TruncateTitle(title, DefaultTitleLength)| <= 76
  {
    TruncateTitleBound(title, DefaultTitleLength);
  }

  /** A truncated title is never longer than the limit plus the ellipsis. */
  lemma TruncateTitleBound(title: string, maxLength: nat)
    ensures |TruncateTitle(title, maxLength)| <= if |title| <= maxLength then |title| else maxLength + 1
    ensures |title| > maxLength ==> |TruncateTitle(title, maxLength)| <= |title|
  {
  }

  // ---------------------------------------------------------------------------
  // createProgressBar

  /** JavaScript's `Math.round`: the nearest integer, halves rounded up. */
  function Round(x: real): (n: int)
    ensures n as real - 0.5 <= x < n as real + 0.5
  {
    (x + 0.5).Floor
  }

  /** The default width of the progress bar. */
  const DefaultBarWidth: nat := 20

  /**
   * `createProgressBar(percent, width)`: `round(percent / 100 * width)` full
   * blocks, then light blocks up to `width`. `String.repeat` throws on a
   * negative count, so a fill outside 0..width gives None.
   */
  function CreateProgressBar(percent: real, width: nat): (r: Option<string>)
    ensures 0.0 <= percent <= 100.0 ==> r.Some?
    ensures r.Some? ==>
      && |r.value| == width
      && exists filled: nat ::
           && filled <= width
           && r.value == Bar(filled, width)
           && filled as real - 0.5 <= percent / 100.0 * width as real < filled as real + 0.5
  {
    var filled := Filled(percent, width);
    var empty := width - filled;
    ScaledBetween(percent, width);
    if filled < 0 || empty < 0 then None
    else Some(Bar(filled, width))
  }

  lemma ScaledBetween(percent: real, width: nat)
    ensures 0.0 <= percent <= 100.0 ==> 0.0 <= percent / 100.0 * width as real <= width as real
  {
    if 0.0 <= percent <= 100.0 {
      var f := percent / 100.0;
      assert 0.0 <= f <= 1.0;
      assert f * width as real <= 1.0 * width as real;
    }
  }

  /** The download line's bar is 20 cells wide for any percentage in 0..100. */
  lemma DownloadLineBar(percent: real)
    requires 0.0 <= percent <= 100.0
    ensures CreateProgressBar(percent, DefaultBarWidth).Some?
    ensures |CreateProgressBar(percent, DefaultBarWidth).value| == 20
  {
    BarFor(percent, DefaultBarWidth);
  }

  /** A bar for a percentage in 0..100 has its full blocks first and its light blocks after. */
  lemma ProgressBarShape(percent: real, width: nat, i: nat, j: nat)
    requires 0.0 <= percent <= 100.0
    requires i < j < width
    ensures var bar := CreateProgressBar(percent, width).value;
            && (bar[j] == FullBlock ==> bar[i] == FullBlock)
            && (bar[i] == FullBlock || bar[i] == LightBlock)
  {
    BarFor(percent, width);
    var filled := Filled(percent, width);
    BarAt(filled, width, i);
    BarAt(filled, width, j);
  }

  /** For a percentage in 0..100 the bar is the one with `Filled` full blocks, and that count is in 0..width. */
  lemma BarFor(percent: real, width: nat)
    requires 0.0 <= percent <= 100.0
    ensures 0 <= Filled(percent, width) <= width
    ensures CreateProgressBar(percent, width) == Some(Bar(Filled(percent, width), width))
  {
    ScaledBetween(percent, width);
  }

  /** The number of full blocks `createProgressBar` asks for. */
  function Filled(percent: real, width: nat): int
  {
    Round(percent / 100.0 * width as real)
  }

  /** A larger percentage never asks for fewer full blocks. */
  lemma FilledMonotone(p: real, q: real, width: nat)
    requires p <= q
    ensures Filled(p, width) <= Filled(q, width)
  {
    ScaleMonotone(p, q, width);
    RoundMonotone(p / 100.0 * width as real, q / 100.0 * width as real);
  }

  /** A larger percentage never gives fewer full blocks. */
  lemma ProgressBarMonotone(p: real, q: real, width: nat, i: nat)
    requires 0.0 <= p <= q <= 100.0
    requires i < width && CreateProgressBar(p, width).value[i] == FullBlock
    ensures CreateProgressBar(q, width).value[i] == FullBlock
  {
    FilledMonotone(p, q, width);
    BarFor(p, width);
    BarFor(q, width);
    var fp, fq := Filled(p, width), Filled(q, width);
    BarAt(fp, width, i);
    BarAt(fq, width, i);
  }

  lemma ScaleMonotone(p: real, q: real, width: nat)
    requires p <= q
    ensures p / 100.0 * width as real <= q / 100.0 * width as real
  {
    var d := q / 100.0 - p / 100.0;
    assert d >= 0.0;
    assert q / 100.0 * width as real == p / 100.0 * width as real + d * width as real;
  }

  lemma RoundMonotone(x: real, y: real)
    requires x <= y
    ensures Round(x) <= Round(y)
  {
    assert (Round(x) as real) < (Round(y) as real) + 1.0;
  }

  /** The bar with `filled` full blocks out of `width`. */
  function Bar(filled: nat, width: nat): string
    requires filled <= width
  {
    Repeat(FullBlock, filled) + Repeat(LightBlock, width - filled)
  }

  lemma BarAt(filled: nat, width: nat, i: nat)
    requires filled <= width && i < width
    ensures |Bar(filled, width)| == width
    ensures Bar(filled, width)[i] == if i < filled then FullBlock else LightBlock
  {
  }

  // ---------------------------------------------------------------------------
  // formatQualityLabel

  const BoldOn: string := [Escape] + "[1m"
  const BoldOff: string := [Escape] + "[0m"

  /**
   * `formatQualityLabel`: the quality in capitals and brackets, wrapped in the
   * terminal's bold-on and reset sequences.
   */
  function FormatQualityLabel(quality: string): (r: string)
    ensures |r| == |quality| + 10
    ensures r[..5] == BoldOn + "[" && r[|r| - 5..] == "]" + BoldOff
    ensures forall i :: 0 <= i < |quality| ==>
              !IsLowerAscii(r[5 + i]) && LowerChar(r[5 + i]) == LowerChar(quality[i])
  {
    var upper := ToUpper(quality);
    forall i | 0 <= i < |quality| ensures LowerChar(upper[i]) == LowerChar(quality[i]) {
      CaseRoundTrip(quality[i]);
    }
    BoldOn + "[" + upper + "]" + BoldOff
  }

  /** Upper-casing then lower-casing a character is lower-casing it. */
  lemma CaseRoundTrip(c: char)
    ensures LowerChar(UpperChar(c)) == LowerChar(c)
  {
  }
}
