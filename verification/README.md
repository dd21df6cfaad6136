# video-downloader core, modelled in Dafny

video-downloader is an interactive command-line front end to the yt-dlp
video extractor and the ffmpeg transcoder. This project models the parts of
it that decide things rather than talk to the user or the operating system.

- **Translations** (`src/i18n/index.ts`). The catalogue of nested tables, one
  per language, is a `Translation` tree. The module covers:
  - the dot-separated key path and the walk `getNestedValue` performs,
    including JavaScript's indexing of a string leaf;
  - the single-pass `{name}` placeholder substitution;
  - the fallback chain of `t`: chosen language, then English, then the key;
  - detection of the system language;
  - the guarded current-language state, an `I18nState` class.
- **Display helpers** (`src/index.ts`): home-directory expansion, title
  truncation at a word boundary, the progress bar and the bold quality label.
- **Format sizes** (`src/index.ts`): the loop of `getFormatSizes`, which runs
  over the already-parsed lines of the format listing. It fills the
  "4K/1080p/720p/480p" buckets (the first line seen wins) and the "mp3" entry
  (the first strictly largest audio-only line wins).
- **Downloading** (`src/index.ts`):
  - the output file name of each quality;
  - every argument list handed to yt-dlp;
  - the loop of `downloadVideo` that keeps the successful downloads, with
    each download's outcome as data;
  - the settings merge of `loadSettings`.
- **Dependencies** (`src/dependencies.ts`):
  - platform detection and executable names;
  - the download locations;
  - the command `extractArchive` chooses;
  - the recursive search `findFfmpegBinary` over an abstract directory tree,
    and the two installers;
  - the order in which `ensureDependencies` tries its sources.

  The search path, the file system, downloads and exit codes are parameters.
  One proved consequence: on macOS the transcoder download is a `.7z`
  archive, which is never unpacked, so the automatic installation of ffmpeg
  always fails there.

Modules: `Text` (string helpers), `I18n`, `Display`, `Formats`, `Download`,
`Settings`, `Dependencies`. `DependencyPaths` is a datatype; the two getters
`getYtDlpCommand` and `getFfmpegCommand` (`src/dependencies.ts:318-324`) are
its field accessors.

## Model

| member | source | states |
|---|---|---|
| I18n.IsValidLanguage | src/i18n/index.ts:118-120 | true exactly for "en" and "ru" |
| I18n.LoadTranslations | src/i18n/index.ts:40-42 | English gets the English table and Russian the Russian one |
| I18n.GetSystemLanguage | src/i18n/index.ts:25-35 | the first non-empty one of LANG, LANGUAGE, LC_ALL decides; the result is "ru" iff that value contains "r" followed by "u", ignoring case, and "en" otherwise |
| I18n.LowerIncludesRu | src/i18n/index.ts:29 | lower-casing and then searching for "ru" is the same as finding an adjacent r, u in any case |
| I18n.SplitDot | src/i18n/index.ts:48 | splitting a path gives at least one piece, and no piece contains a dot |
| I18n.JoinSplit | src/i18n/index.ts:48 | joining the pieces of a split path with dots gives the path back |
| I18n.SplitJoin | src/i18n/index.ts:48 | splitting dot-joined, dot-free pieces gives the same pieces back |
| I18n.WalkAppend | src/i18n/index.ts:51-56 | walking a concatenated path is walking the first part, then the second from where the first ended; a missing key stops the walk |
| I18n.BelowLeafNotFound | src/i18n/index.ts:51-58 | a path that continues past a string with a key that is not an index finds nothing |
| I18n.BelowLeafIndex | src/i18n/index.ts:51-58 | a path that continues past a string with index n yields the one-character string at n, or nothing when n is out of range |
| I18n.EndOnNodeNotFound | src/i18n/index.ts:51-58 | a path whose walk ends on a nested table rather than a string finds nothing |
| I18n.DottedKeyLookup | src/i18n/index.ts:47-59 | looking up the dot-joined form of dot-free segments looks up exactly those segments |
| I18n.GetNestedValue | src/i18n/index.ts:47-59 | the loop returns the string reached by walking the split path, and nothing when a key is missing or the walk ends on a table |
| I18n.PlaceholderAtIff | src/i18n/index.ts:67 | a placeholder is recognised exactly when the text starts with "{", one or more word characters, and "}" |
| I18n.Interpolate | src/i18n/index.ts:64-71 | without a value map the template is returned unchanged |
| I18n.SubstPlaceholder | src/i18n/index.ts:67-70 | a placeholder is replaced by its value, or kept verbatim when its name has no value, and scanning resumes after it |
| I18n.SubstPlainText | src/i18n/index.ts:67-70 | text without "{" is copied through unchanged |
| I18n.SubstNoValues | src/i18n/index.ts:64-71 | an empty value map leaves every template unchanged |
| I18n.NoRescan | src/i18n/index.ts:67-70 | an inserted value is not scanned again: "{a}" with a = "{b}" and b = "x" gives "{b}" |
| I18n.Translate | src/i18n/index.ts:76-94 | a non-empty entry of the chosen language is interpolated; otherwise, for a language other than English, a non-empty English entry is interpolated; otherwise the key itself is returned uninterpolated |
| I18n.EnglishIgnoresRussian | src/i18n/index.ts:76-94 | a translation requested in English does not depend on the Russian table |
| I18n.I18nState.constructor | src/i18n/index.ts:97 | the current language starts as the default, English |
| I18n.I18nState.GetCurrentLanguage | src/i18n/index.ts:102-104 | returns the stored language |
| I18n.I18nState.SetCurrentLanguage | src/i18n/index.ts:109-113 | an available language is stored; any other string leaves the current language unchanged |
| I18n.I18nState.T | src/i18n/index.ts:76-94 | translating against the state, walking the tables with GetNestedValue, gives Translate for the current language |
| Display.ExpandPath | src/index.ts:12-17 | a path starting with "~/" has its "~" replaced by the home directory; any other path is returned unchanged |
| Display.ExpandPathIdempotent | src/index.ts:12-17 | when the home directory does not start with "~", an expanded path never starts with "~/", so expanding it again changes nothing |
| Display.TruncateTitle | src/index.ts:268-282 | a title that fits is kept. A longer one becomes a prefix of the title plus an ellipsis, at most maxLength+1 characters. The cut is at the last space within the first maxLength characters when that space is not at index 0, and at maxLength otherwise |
| Display.TruncateTitleBound | src/index.ts:268-282 | a truncated title is never longer than the limit plus one, nor than the original |
| Display.DownloadLineTitle | src/index.ts:303 | with the default limit of 75, a title on the download line takes at most 76 characters |
| Display.Round | src/index.ts:263 | Math.round: the result lies within half a unit of the argument, with halves rounded up |
| Display.CreateProgressBar | src/index.ts:262-266 | for percent 0..100 a bar exists; a bar has exactly width characters, round(percent/100·width) full blocks followed by light blocks; a negative block count (String.repeat throws) gives none |
| Display.BarFor | src/index.ts:262-266 | for a percentage in 0..100 the full-block count lies between 0 and the width, and the bar is that many full blocks followed by light blocks |
| Display.ProgressBarShape | src/index.ts:262-266 | for a percentage in 0..100, every cell is a full or light block, and full blocks come before light ones |
| Display.FilledMonotone | src/index.ts:263 | a larger percentage never gives fewer full blocks |
| Display.ProgressBarMonotone | src/index.ts:262-266 | for percentages in 0..100, a cell that is full at some percentage is full at every larger one |
| Display.DownloadLineBar | src/index.ts:361 | with the default width of 20, the download line's bar exists and is 20 cells wide for any percentage in 0..100 |
| Display.FormatQualityLabel | src/index.ts:284-288 | the label is bold-on, "[", the quality in capitals, "]", reset: 10 characters longer than the quality, with no lower-case ASCII letter inside and equal to the quality ignoring case |
| Formats.QualityOf | src/index.ts:202-209 | a height gets a bucket iff it is at least 480, and then the highest bucket whose threshold it reaches |
| Formats.GetFormatSizes | src/index.ts:194-245 | the loop over the listing's lines computes FormatSizes: the bucket sizes plus "mp3" for the best audio line |
| Formats.ScanBuckets | src/index.ts:198-214 | the map holds only quality buckets, and holds a bucket exactly when some line shows it |
| Formats.FirstLineWins | src/index.ts:211-213 | a bucket's size is that of the first line showing it; later lines never overwrite it |
| Formats.BucketInFormatSizes | src/index.ts:198-245 | a video bucket is in the result iff some line shows that quality |
| Formats.ScanBestBytes | src/index.ts:217-237 | the best audio byte count bounds every line's, is attained by some line unless it is 0, and a best size is recorded iff it is positive |
| Formats.FirstLargestAudioWins | src/index.ts:232-235 | the recorded audio size is that of the first line with the largest byte count |
| Formats.Mp3Offered | src/index.ts:240-243 | "mp3" is offered iff some audio-only line has a positive byte count |
| Formats.Mp3Size | src/index.ts:217-243 | the "mp3" entry is the size text of the first strictly largest audio line |
| Download.StripMp4 | src/index.ts:400 | one trailing ".mp4" is removed; a name without it is kept |
| Download.OutputFilename | src/index.ts:404 | "mp3" is saved as base.mp3 and any other quality as base_QUALITY.mp4 |
| Download.OutputFilenameInjective | src/index.ts:404 | two different qualities are never saved to the same file |
| Download.OutputFilenameExample | src/index.ts:400-404 | "clip.mp4" at 720p is "clip_720p.mp4", as mp3 it is "clip.mp3"; "clip" at 4K is "clip_4K.mp4" |
| Download.HeightFor | src/index.ts:322 | 4K caps at 2160, 1080p at 1080, 720p at 720, and anything else at 480 |
| Download.FormatSelector | src/index.ts:323 | the selector has three "/"-separated alternatives, each capped at the height: the first two are video selections that begin "bestvideo[height<=H]", and the last is exactly "best[height<=H]" |
| Download.FormatSelectorInjective | src/index.ts:322-323 | different height caps give different selectors |
| Download.InfoArgs | src/index.ts:107-111 | --dump-json, the cookie option only when a browser is set, then the URL |
| Download.FormatListArgs | src/index.ts:171-175 | --list-formats --no-warnings, the cookie option only when a browser is set, then the URL |
| Download.DownloadArgs | src/index.ts:309-327 | the progress options; the cookie option iff a browser is set; for mp3 the audio extraction options with the bitrate followed by "K"; otherwise the height-capped format selector; then --output, the path and the URL |
| Download.AudioQualityReadsBack | src/index.ts:318 | the bitrate argument ends in "K" and its digits read back as the configured bitrate |
| Download.CoverArgs | src/index.ts:428-433 | the thumbnail options, the cookie option only when a browser is set, --output with the stem, then the URL |
| Download.DescriptionArgs | src/index.ts:449-454 | the description options, the cookie option only when a browser is set, --output with the stem, then the URL |
| Download.CollectResults | src/index.ts:399-421 | the loop keeps exactly the successful downloads, in order. There are no more results than qualities, and each result names one of the qualities and that quality's file |
| Download.AllSucceeded | src/index.ts:403-421 | when every download succeeds there is one result per quality, in the order asked |
| Download.NoneSucceeded | src/index.ts:403-421 | when every download fails the result list is empty |
| Download.DistinctFilenames | src/index.ts:403-421 | distinct qualities give results with pairwise distinct file names |
| Download.CollectedQualities | src/index.ts:403-421 | every result names one of the requested qualities and that quality's file |
| Settings.LoadSettings | src/index.ts:54-66 | without a settings file the defaults (system language included); with one, every field the file sets overrides the default and every other field keeps it |
| Settings.DefaultSettings | src/index.ts:42-52 | the defaults: empty path, filename and browser, quality "highest", cover and description on, debug off, bitrate 128, and the detected system language |
| Settings.SaveLoadRoundTrip | src/index.ts:54-70 | settings saved with every field load back unchanged, whatever the system language |
| Dependencies.GetPlatform | src/dependencies.ts:15-20 | "darwin" and "win32" are recognised; every other platform is Linux |
| Dependencies.GetExecutableName | src/dependencies.ts:22-28 | ".exe" is appended on Windows only |
| Dependencies.DependencyDir | src/dependencies.ts:13 | the private directory is exactly the home directory followed by "/.video-downloader/bin" |
| Dependencies.YtDlpUrl | src/dependencies.ts:132-139 | the latest-release asset: yt-dlp.exe on Windows, yt-dlp_macos on macOS, yt-dlp elsewhere |
| Dependencies.FfmpegUrl | src/dependencies.ts:174-182 | the transcoder download for each platform ends in that platform's archive extension: ".7z" on macOS, ".tar.xz" on Linux, ".zip" on Windows |
| Dependencies.FfmpegArchiveName | src/dependencies.ts:171-182 | the archive is saved as "ffmpeg" plus the extension of the platform's download URL; the name is exactly "ffmpeg.7z" on macOS, "ffmpeg.tar.xz" on Linux and "ffmpeg.zip" on Windows |
| Dependencies.ExtractCommand | src/dependencies.ts:84-112 | ".zip" runs unzip, or PowerShell's Expand-Archive on Windows; ".tar.xz"/".txz" runs tar, except on Windows where nothing is run; any other suffix runs nothing |
| Dependencies.ExtractArchive | src/dependencies.ts:84-122 | unpacking succeeds exactly when a command was chosen and it exited with status 0 |
| Dependencies.SevenZipNotExtracted | src/dependencies.ts:84-110 | an archive named "ffmpeg.7z" is never unpacked, on any platform |
| Dependencies.SevenZipHasNoCommand | src/dependencies.ts:90-110 | no unpacking command is chosen for "ffmpeg.7z" |
| Dependencies.FindFfmpegBinary | src/dependencies.ts:242-266 | the loop with recursion returns FindIn: the first file named ffmpeg (ffmpeg.exe on Windows) in depth-first order. An unreadable directory gives nothing and its parent goes on; an entry that cannot be stat'ed abandons its directory |
| Dependencies.FindIsFirstInDepthFirstOrder | src/dependencies.ts:242-266 | on a tree without failures, the result is the first file of the right name in the depth-first listing, and nothing when there is none |
| Dependencies.FindIsSound | src/dependencies.ts:242-266 | on any tree, a returned path is the path of a file of the right name |
| Dependencies.InstallYtDlp | src/dependencies.ts:124-154 | the private executable path iff the download succeeded |
| Dependencies.InstallFfmpeg | src/dependencies.ts:156-240 | a path is returned exactly when the download succeeded, the archive "temp/ffmpeg.<ext>" was unpacked into "temp", the search found a binary there and the copy raised no error; the path is the private executable path |
| Dependencies.MacFfmpegInstallAlwaysFails | src/dependencies.ts:174-206 | on macOS installing ffmpeg fails whatever the outside steps do |
| Dependencies.FirstSuccessIsFirst | src/dependencies.ts:274-301 | resolution fails iff every source fails; otherwise it yields some source's path and every earlier source failed |
| Dependencies.ResolveInOrder | src/dependencies.ts:274-301 | the sources are tried in order: the name on the search path, the ".exe" name on the search path, the private copy, then the installer |
| Dependencies.LocateTool | src/dependencies.ts:274-301 | the check for one tool returns its resolution in source order, and runs the installer exactly when the tool is neither on the search path (plain or ".exe") nor privately installed |
| Dependencies.EnsureDependencies | src/dependencies.ts:268-316 | with the private directory under the given home directory, the result is absent iff yt-dlp resolves to nothing; otherwise it holds yt-dlp's resolved path and ffmpeg's, or "ffmpeg" when ffmpeg resolved to nothing. Each installer runs iff its tool is neither on the search path nor privately installed |
| Dependencies.MacFreshMachine | src/dependencies.ts:268-316 | on a bare macOS machine yt-dlp can still be installed, but ffmpeg never resolves |

## Left out

- Process spawning, the `which`/`where` probe (`checkCommand`) and `downloadFile` are not modelled. Their outcomes are parameters: the set of commands on the search path, the set of existing files, download success and exit statuses.
- Spinners, log lines, `mkdirSync` and `chmodSync` are not modelled.
- `main`, `downloadVideoFlow`, `configureSettings`, `askForLanguageOnFirstRun` and `installGlobally` are interactive prompt flows and installer scripts, and are not modelled.
- `saveSettings` is modelled only through the set of fields it writes (`Settings.Saved`). YAML text is outside the model.
- `getVideoInfo`'s JSON parsing is outside the model; only its argument list is modelled.
- In `downloadSingleFile`, the progress-line parsing, `formatBytes`, file-size reading and rounding to megabytes are outside the model. Each download's outcome and size enter `CollectResults` as data.
- The asynchronous, event-driven structure is not modelled. Each operation is a sequential function or method.
- Formats.GetFormatSizes: the two regular expressions are not modelled. Each line enters already matched: a height and size text for a resolution line, and a size text and byte count for an "audio only" line.
- Formats.GetFormatSizes: audio byte counts are natural numbers, while the source compares floating-point byte counts. Only their order matters.
- Formats.GetFormatSizes: an audio line of 0 bytes never becomes the "mp3" entry. The source compares with `>` against an initial 0, and the model follows the code, not a reading where any audio line offers mp3.
- I18n.Child: of a string's properties only canonical indices are modelled. `length`, methods and other prototype properties of strings and tables are treated as absent.
- I18n.Interpolate: values are strings. `String(number)` formatting of numeric values is not modelled.
- I18n.Interpolate: a placeholder whose name is inherited by every object (`constructor`, `toString`, `__proto__`, …) is treated as absent and kept verbatim. The source would insert the text of the inherited property, for instance `"function Object() { [native code] }"` for `{constructor}`.
- I18n.GetSystemLanguage, Display.FormatQualityLabel: case mapping is ASCII only. Non-ASCII letters are left unchanged.
- Display.TruncateTitle: lengths count characters, not UTF-16 code units.
- Display.ExpandPath: the home directory is inserted literally. `String.replace` would interpret `$` patterns in it.
- Display.CreateProgressBar: the percentage is a real number. NaN and infinities are not modelled.
- Dependencies.Join: `path.join` is modelled as `dir + "/" + name`, without normalisation of "..", "." or repeated separators.
- Download.DownloadArgs: the bitrate is a natural number. A fractional or negative value from the settings file is not modelled.
- Settings.LoadSettings: a file's fields are assumed to have the right types. YAML values of another type, `null` fields and extra keys are not modelled. The language read from the file is any string, which `SetCurrentLanguage` filters.
- Dependencies.InstallFfmpeg: the copy of `ffprobe.exe` on Windows and the `chmod` elsewhere are folded into one "copy succeeded" outcome. The unknown-platform branch cannot arise, because the platform is one of three.
- `loadTranslations` falls back to English for a language without a table. Both languages have a table, so that branch is not modelled.
