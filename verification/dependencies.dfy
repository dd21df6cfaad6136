/**
 * Locating the two external tools: the host platform, executable names, the
 * download locations, the command that unpacks a downloaded archive, the
 * depth-first search for the transcoder inside an unpacked archive, and the
 * fixed order in which each tool is looked for (on the search path, then the
 * private copy, then a fresh install). The outside world (the search-path
 * probe, the file system, downloads and exit codes) is passed in as data.
 */
module Dependencies {
  import opened Text

  datatype Platform = Darwin | Win32 | Linux

  /** `getPlatform`: macOS and Windows are recognised, everything else is treated as Linux. */
  function GetPlatform(os: string): (p: Platform)
    ensures p == Darwin <==> os == "darwin"
    ensures p == Win32 <==> os == "win32"
    ensures p == Linux <==> os != "darwin" && os != "win32"
  {
    if os == "darwin" then Darwin else if os == "win32" then Win32 else Linux
  }

  /** `getExecutableName`: Windows executables carry ".exe". */
  function GetExecutableName(name: string, plat: Platform): (r: string)
    ensures plat == Win32 ==> r == name + ".exe"
    ensures plat != Win32 ==> r == name
  {
    if plat == Win32 then name + ".exe" else name
  }

  /** `path.join(dir, name)` for a plain file name (no normalisation). */
  function Join(dir: string, name: string): (r: string)
    ensures EndsWith(r, name) && |r| > |name|
  {
    var r := dir + "/" + name;
    assert r[|r| - |name|..] == name;
    r
  }

  /** The private directory the tools are installed into (`DEPENDENCY_DIR`). */
  function DependencyDir(home: string): (dir: string)
    ensures dir == home + "/.video-downloader/bin"
    ensures StartsWith(dir, home) && EndsWith(dir, "/.video-downloader/bin")
  {
    assert Join(Join(home, ".video-downloader"), "bin") == home + "/.video-downloader/bin";
    Join(Join(home, ".video-downloader"), "bin")
  }

  // ---------------------------------------------------------------------------
  // Download locations

  const YtDlpRelease: string := "https://github.com/yt-dlp/yt-dlp/releases/latest/download/"

  /** The release asset `installYtDlp` downloads for each platform. */
  function YtDlpUrl(plat: Platform): (url: string)
    ensures StartsWith(url, YtDlpRelease)
    ensures plat == Win32 ==> url[|YtDlpRelease|..] == "yt-dlp.exe"
    ensures plat == Darwin ==> url[|YtDlpRelease|..] == "yt-dlp_macos"
    ensures plat == Linux ==> url[|YtDlpRelease|..] == "yt-dlp"
  {
    YtDlpRelease + (match plat case Win32 => "yt-dlp.exe" case Darwin => "yt-dlp_macos" case Linux => "yt-dlp")
  }

  /** The extension of each platform's transcoder download. */
  function FfmpegExtension(plat: Platform): string
  {
    match plat
    case Darwin => ".7z"
    case Linux => ".tar.xz"
    case Win32 => ".zip"
  }

  /** The archive build `installFfmpeg` downloads for each platform; it ends in the platform's extension. */
  function FfmpegUrl(plat: Platform): (url: string)
    ensures EndsWith(url, FfmpegExtension(plat))
  {
    var stem := match plat
      case Darwin => "https://evermeet.cx/pub/ffmpeg/snapshots/ffmpeg-110645-g60dd5aba48"
      case Linux => "https://github.com/BtbN/FFmpeg-Builds/releases/download/latest/ffmpeg-master-latest-linux64-gpl"
      case Win32 => "https://www.gyan.dev/ffmpeg/builds/ffmpeg-release-essentials";
    var ext := FfmpegExtension(plat);
    EndsWithAppend(stem, ext, ext);
    stem + ext
  }

  /** The name the downloaded transcoder archive is saved under: "ffmpeg" and the download's extension. */
  function FfmpegArchiveName(plat: Platform): (name: string)
    ensures plat == Darwin ==> name == "ffmpeg.7z"
    ensures plat == Linux ==> name == "ffmpeg.tar.xz"
    ensures plat == Win32 ==> name == "ffmpeg.zip"
    ensures StartsWith(name, "ffmpeg.") && EndsWith(FfmpegUrl(plat), name[6..])
  {
    var name := "ffmpeg" + FfmpegExtension(plat);
    assert name[6..] == FfmpegExtension(plat);
    name
  }

  // ---------------------------------------------------------------------------
  // Unpacking

  /** A child process to run: program and arguments. */
  datatype Command = Command(program: string, args: seq<string>)

  function ExpandArchiveScript(archivePath: string, destDir: string): string
  {
    "Expand-Archive -Path '" + archivePath + "' -DestinationPath '" + destDir + "' -Force"
  }

  /**
   * The command `extractArchive` runs, by archive suffix: ".zip" with unzip
   * (PowerShell's Expand-Archive on Windows), ".tar.xz"/".txz" with tar (not
   * on Windows); None when it gives up without running anything.
   */
  function ExtractCommand(archivePath: string, destDir: string, plat: Platform): (r: Option<Command>)
    ensures EndsWith(archivePath, ".zip") ==>
      r == Some(if plat == Win32
                then Command("powershell", ["-Command", ExpandArchiveScript(archivePath, destDir)])
                else Command("unzip", ["-o", archivePath, "-d", destDir]))
    ensures !EndsWith(archivePath, ".zip") && (EndsWith(archivePath, ".tar.xz") || EndsWith(archivePath, ".txz")) ==>
      r == (if plat == Win32 then None else Some(Command("tar", ["-xf", archivePath, "-C", destDir])))
    ensures !EndsWith(archivePath, ".zip") && !EndsWith(archivePath, ".tar.xz") && !EndsWith(archivePath, ".txz") ==>
      r == None
  {
    if EndsWith(archivePath, ".zip") then
      if plat == Win32 then Some(Command("powershell", ["-Command", ExpandArchiveScript(archivePath, destDir)]))
      else Some(Command("unzip", ["-o", archivePath, "-d", destDir]))
    else if EndsWith(archivePath, ".tar.xz") || EndsWith(archivePath, ".txz") then
      if plat == Win32 then None
      else Some(Command("tar", ["-xf", archivePath, "-C", destDir]))
    else None
  }

  /**
   * `extractArchive`: true exactly when a command was chosen and it exited
   * with status 0 (`exit` is None when the process could not be started).
   */
  function ExtractArchive(archivePath: string, destDir: string, plat: Platform, exit: Option<int>): (ok: bool)
    ensures ok <==> ExtractCommand(archivePath, destDir, plat).Some? && exit == Some(0)
  {
    match ExtractCommand(archivePath, destDir, plat)
    case None => false
    case Some(_) => exit == Some(0)
  }

  lemma EndsWithAppend(a: string, b: string, suffix: string)
    requires |suffix| <= |b|
    ensures EndsWith(a + b, suffix) <==> EndsWith(b, suffix)
  {
    assert (a + b)[|a + b| - |suffix|..] == b[|b| - |suffix|..];
  }

  /** A ".7z" archive, the one downloaded for macOS, is never unpacked. */
  lemma SevenZipNotExtracted(dir: string, destDir: string, plat: Platform, exit: Option<int>)
    ensures !ExtractArchive(Join(dir, "ffmpeg.7z"), destDir, plat, exit)
  {
    SevenZipHasNoCommand(dir, destDir, plat);
  }

  /** No unpacking command is chosen for an archive named "ffmpeg.7z". */
  lemma SevenZipHasNoCommand(dir: string, destDir: string, plat: Platform)
    ensures ExtractCommand(Join(dir, "ffmpeg.7z"), destDir, plat) == None
  {
    var p := Join(dir, "ffmpeg.7z");
    SevenZipSuffixes();
    assert p == (dir + "/") + "ffmpeg.7z";
    EndsWithAppend(dir + "/", "ffmpeg.7z", ".zip");
    EndsWithAppend(dir + "/", "ffmpeg.7z", ".tar.xz");
    EndsWithAppend(dir + "/", "ffmpeg.7z", ".txz");
  }

  lemma SevenZipSuffixes()
    ensures !EndsWith("ffmpeg.7z", ".zip") && !EndsWith("ffmpeg.7z", ".tar.xz") && !EndsWith("ffmpeg.7z", ".txz")
  {
    assert "ffmpeg.7z"[9 - 4..][0] == 'g';
    assert "ffmpeg.7z"[9 - 7..][0] == 'm';
  }

  // ---------------------------------------------------------------------------
  // Searching an unpacked archive

  /**
   * A directory entry: a file, a subdirectory with its listing, or an entry
   * whose `stat` fails.
   */
  datatype Entry = File(name: string) | Dir(name: string, listing: Listing) | Unstattable(name: string)

  /** A directory's listing in `readdir` order, or a directory that cannot be read. */
  datatype Listing = Entries(entries: seq<Entry>) | Unreadable

  function FfmpegName(plat: Platform): string
  {
    if plat == Win32 then "ffmpeg.exe" else "ffmpeg"
  }

  /** What `findFfmpegBinary(dir, plat)` returns for a directory with this listing. */
  function FindIn(dir: string, listing: Listing, plat: Platform): Option<string>
    decreases listing
  {
    match listing
    case Unreadable => None
    case Entries(es) => FindEntries(dir, es, plat)
  }

  /** The loop over the entries: the first hit returns, a failing `stat` abandons the directory. */
  function FindEntries(dir: string, es: seq<Entry>, plat: Platform): Option<string>
    decreases es
  {
    if es == [] then None
    else match es[0]
      case File(n) => if n == FfmpegName(plat) then Some(Join(dir, n)) else FindEntries(dir, es[1..], plat)
      case Dir(n, sub) =>
        var r := FindIn(Join(dir, n), sub, plat);
        if r.Some? then r else FindEntries(dir, es[1..], plat)
      case Unstattable(_) => None
  }

  /**
   * `findFfmpegBinary`: walk the entries in order, descend into each
   * subdirectory before looking at later siblings, and return the path of the
   * first file named "ffmpeg" ("ffmpeg.exe" on Windows).
   */
  method FindFfmpegBinary(dir: string, listing: Listing, plat: Platform) returns (r: Option<string>)
    ensures r == FindIn(dir, listing, plat)
    decreases listing
  {
    if listing.Unreadable? {
      return None;
    }
    var files := listing.entries;
    var i := 0;
    while i < |files|
      invariant 0 <= i <= |files|
      invariant FindEntries(dir, files, plat) == FindEntries(dir, files[i..], plat)
    {
      match files[i] {
        case Unstattable(_) =>
          return None;
        case Dir(n, sub) =>
          var result := FindFfmpegBinary(Join(dir, n), sub, plat);
          if result.Some? {
            return result;
          }
        case File(n) =>
          if n == FfmpegName(plat) {
            return Some(Join(dir, n));
          }
      }
      assert files[i..][1..] == files[i + 1..];
      i := i + 1;
    }
    return None;
  }

  /** Every file of a listing as (path, name), in depth-first order; failing entries contribute nothing. */
  function Files(dir: string, listing: Listing): seq<(string, string)>
    decreases listing
  {
    match listing
    case Unreadable => []
    case Entries(es) => FilesIn(dir, es)
  }

  function FilesIn(dir: string, es: seq<Entry>): seq<(string, string)>
    decreases es
  {
    if es == [] then []
    else
      (match es[0]
       case File(n) => [(Join(dir, n), n)]
       case Dir(n, sub) => Files(Join(dir, n), sub)
       case Unstattable(_) => [])
      + FilesIn(dir, es[1..])
  }

  /** The path of the first file in `fs` with the given name. */
  function FirstNamed(fs: seq<(string, string)>, name: string): Option<string>
  {
    if fs == [] then None
    else if fs[0].1 == name then Some(fs[0].0)
    else FirstNamed(fs[1..], name)
  }

  /** A listing in which every directory can be read and every entry stat'ed. */
  ghost predicate Clean(listing: Listing)
    decreases listing
  {
    listing.Entries? && CleanEntries(listing.entries)
  }

  ghost predicate CleanEntries(es: seq<Entry>)
    decreases es
  {
    es == [] ||
    (&& !es[0].Unstattable?
     && (es[0].Dir? ==> Clean(es[0].listing))
     && CleanEntries(es[1..]))
  }

  lemma {:induction false} FirstNamedAppend(a: seq<(string, string)>, b: seq<(string, string)>, name: string)
    ensures FirstNamed(a + b, name) == if FirstNamed(a, name).Some? then FirstNamed(a, name) else FirstNamed(b, name)
  {
    if a == [] {
      assert a + b == b;
    } else {
      assert (a + b)[0] == a[0] && (a + b)[1..] == a[1..] + b;
      FirstNamedAppend(a[1..], b, name);
    }
  }

  /**
   * On a listing without failures the search returns exactly the first file
   * of the right name in depth-first order, and None when there is none.
   */
  lemma {:induction false} FindIsFirstInDepthFirstOrder(dir: string, listing: Listing, plat: Platform)
    requires Clean(listing)
    ensures FindIn(dir, listing, plat) == FirstNamed(Files(dir, listing), FfmpegName(plat))
    decreases listing
  {
    FindEntriesIsFirst(dir, listing.entries, plat);
  }

  lemma {:induction false} FindEntriesIsFirst(dir: string, es: seq<Entry>, plat: Platform)
    requires CleanEntries(es)
    ensures FindEntries(dir, es, plat) == FirstNamed(FilesIn(dir, es), FfmpegName(plat))
    decreases es
  {
    if es != [] {
      var name := FfmpegName(plat);
      FindEntriesIsFirst(dir, es[1..], plat);
      match es[0]
      case File(n) =>
        FirstNamedAppend([(Join(dir, n), n)], FilesIn(dir, es[1..]), name);
      case Dir(n, sub) =>
        FindIsFirstInDepthFirstOrder(Join(dir, n), sub, plat);
        FirstNamedAppend(Files(Join(dir, n), sub), FilesIn(dir, es[1..]), name);
    }
  }

  /** Whatever the listing, a path the search returns is that of a file of the right name. */
  lemma {:induction false} FindIsSound(dir: string, listing: Listing, plat: Platform)
    ensures FindIn(dir, listing, plat).Some? ==>
              (FindIn(dir, listing, plat).value, FfmpegName(plat)) in Files(dir, listing)
    decreases listing
  {
    if listing.Entries? {
      FindEntriesIsSound(dir, listing.entries, plat);
    }
  }

  lemma {:induction false} FindEntriesIsSound(dir: string, es: seq<Entry>, plat: Platform)
    ensures FindEntries(dir, es, plat).Some? ==>
              (FindEntries(dir, es, plat).value, FfmpegName(plat)) in FilesIn(dir, es)
    decreases es
  {
    if es != [] {
      FindEntriesIsSound(dir, es[1..], plat);
      match es[0]
      case File(n) =>
      case Dir(n, sub) =>
        FindIsSound(Join(dir, n), sub, plat);
      case Unstattable(_) =>
    }
  }

  // ---------------------------------------------------------------------------
  // Installing

  /**
   * `installYtDlp`: the installed path when the download succeeded.
   * `downloaded` is the outcome of fetching `YtDlpUrl(plat)` to that path.
   */
  function InstallYtDlp(plat: Platform, depDir: string, downloaded: bool): (r: Option<string>)
    ensures r.Some? <==> downloaded
    ensures r.Some? ==> r.value == Join(depDir, GetExecutableName("yt-dlp", plat))
  {
    if downloaded then Some(Join(depDir, GetExecutableName("yt-dlp", plat))) else None
  }

  /** The outcomes of the outside steps of an ffmpeg installation. */
  datatype FfmpegInstall = FfmpegInstall(
    downloaded: bool,          // the archive download exited with 0
    extractExit: Option<int>,  // exit status of the unpacking command, None if it could not start
    unpacked: Listing,         // what the temporary directory holds afterwards
    copied: bool)              // the copy into place (with ffprobe.exe on Windows, when present) raised no error

  /**
   * `installFfmpeg`: download the platform's archive into "temp", unpack it,
   * search the unpacked tree, and copy the binary found into the private
   * directory; any failing step gives None.
   */
  function InstallFfmpeg(plat: Platform, depDir: string, o: FfmpegInstall): (r: Option<string>)
    ensures var tempDir := Join(depDir, "temp");
            r.Some? <==>
              && o.downloaded
              && ExtractArchive(Join(tempDir, FfmpegArchiveName(plat)), tempDir, plat, o.extractExit)
              && FindIn(tempDir, o.unpacked, plat).Some?
              && o.copied
    ensures r.Some? ==> r.value == Join(depDir, GetExecutableName("ffmpeg", plat))
  {
    var tempDir := Join(depDir, "temp");
    var archivePath := Join(tempDir, FfmpegArchiveName(plat));
    if !o.downloaded then None
    else if !ExtractArchive(archivePath, tempDir, plat, o.extractExit) then None
    else if FindIn(tempDir, o.unpacked, plat).None? then None
    else if !o.copied then None
    else Some(Join(depDir, GetExecutableName("ffmpeg", plat)))
  }

  /** On macOS the downloaded archive is a ".7z", which is never unpacked, so installing always fails. */
  lemma MacFfmpegInstallAlwaysFails(depDir: string, o: FfmpegInstall)
    ensures InstallFfmpeg(Darwin, depDir, o) == None
  {
    SevenZipNotExtracted(Join(depDir, "temp"), Join(depDir, "temp"), Darwin, o.extractExit);
  }

  // ---------------------------------------------------------------------------
  // Resolution order

  datatype DependencyPaths = DependencyPaths(ytDlp: string, ffmpeg: string)

  /** Where a tool may come from, in the order `ensureDependencies` tries them. */
  datatype Source = OnSearchPath(command: string) | LocalFile(path: string) | Installer

  /** The probes' answers: which commands `which`/`where` finds, which files exist. */
  datatype Environment = Environment(onPath: set<string>, existing: set<string>)

  function Sources(tool: string, plat: Platform, depDir: string): seq<Source>
  {
    [OnSearchPath(tool), OnSearchPath(tool + ".exe"), LocalFile(Join(depDir, GetExecutableName(tool, plat))), Installer]
  }

  /** What one source yields; `installed` is what the installer returns if it is run. */
  function TrySource(s: Source, env: Environment, installed: Option<string>): Option<string>
  {
    match s
    case OnSearchPath(c) => if c in env.onPath then Some(c) else None
    case LocalFile(p) => if p in env.existing then Some(p) else None
    case Installer => installed
  }

  /** The first source that yields a path. */
  function FirstSuccess(ss: seq<Source>, env: Environment, installed: Option<string>): Option<string>
  {
    if ss == [] then None
    else match TrySource(ss[0], env, installed)
      case Some(p) => Some(p)
      case None => FirstSuccess(ss[1..], env, installed)
  }

  /** The result is the first source that yields a path: every source before it yielded nothing. */
  lemma {:induction false} FirstSuccessIsFirst(ss: seq<Source>, env: Environment, installed: Option<string>)
    ensures FirstSuccess(ss, env, installed).None? <==>
              forall i :: 0 <= i < |ss| ==> TrySource(ss[i], env, installed).None?
    ensures FirstSuccess(ss, env, installed).Some? ==>
              exists i :: 0 <= i < |ss| && TrySource(ss[i], env, installed) == FirstSuccess(ss, env, installed)
                       && forall j :: 0 <= j < i ==> TrySource(ss[j], env, installed).None?
  {
    if ss != [] {
      FirstSuccessIsFirst(ss[1..], env, installed);
      if TrySource(ss[0], env, installed).None? {
        if FirstSuccess(ss, env, installed).Some? {
          var i :| 0 <= i < |ss[1..]| && TrySource(ss[1..][i], env, installed) == FirstSuccess(ss, env, installed)
                   && forall j :: 0 <= j < i ==> TrySource(ss[1..][j], env, installed).None?;
          assert TrySource(ss[i + 1], env, installed) == FirstSuccess(ss, env, installed);
          forall j | 0 <= j < i + 1 ensures TrySource(ss[j], env, installed).None? {
            if j > 0 { assert ss[j] == ss[1..][j - 1]; }
          }
        } else {
          forall i | 0 <= i < |ss| ensures TrySource(ss[i], env, installed).None? {
            if i > 0 { assert ss[i] == ss[1..][i - 1]; }
          }
        }
      } else {
        assert TrySource(ss[0], env, installed) == FirstSuccess(ss, env, installed);
      }
    }
  }

  /** The path a tool resolves to, if any. */
  function Resolve(tool: string, plat: Platform, depDir: string, env: Environment, installed: Option<string>): Option<string>
  {
    FirstSuccess(Sources(tool, plat, depDir), env, installed)
  }

  /** The four sources, tried in turn. */
  lemma ResolveInOrder(tool: string, plat: Platform, depDir: string, env: Environment, installed: Option<string>)
    ensures Resolve(tool, plat, depDir, env, installed) ==
      if tool in env.onPath then Some(tool)
      else if tool + ".exe" in env.onPath then Some(tool + ".exe")
      else if Join(depDir, GetExecutableName(tool, plat)) in env.existing then Some(Join(depDir, GetExecutableName(tool, plat)))
      else installed
  {
    var local := Join(depDir, GetExecutableName(tool, plat));
    var ss := Sources(tool, plat, depDir);
    assert ss[1..] == [OnSearchPath(tool + ".exe"), LocalFile(local), Installer];
    assert ss[1..][1..] == [LocalFile(local), Installer];
    assert ss[1..][1..][1..] == [Installer];
    assert ss[1..][1..][1..][1..] == [];
    assert FirstSuccess(ss[1..][1..][1..], env, installed) == installed;
    assert FirstSuccess(ss[1..][1..], env, installed) ==
      if local in env.existing then Some(local) else installed;
    assert FirstSuccess(ss[1..], env, installed) ==
      if tool + ".exe" in env.onPath then Some(tool + ".exe")
      else if local in env.existing then Some(local) else installed;
    assert ss[0] == OnSearchPath(tool);
  }

  /** The installer is run only when the tool is neither on the search path nor installed locally. */
  predicate NeedsInstall(tool: string, plat: Platform, depDir: string, env: Environment)
  {
    && tool !in env.onPath
    && tool + ".exe" !in env.onPath
    && Join(depDir, GetExecutableName(tool, plat)) !in env.existing
  }

  /**
   * `ensureDependencies`: each tool is taken from the first source that has
   * it; the result is None exactly when the video extractor could not be
   * found, and a missing transcoder falls back to the plain name "ffmpeg".
   * The private directory lies under the home directory `home`;
   * `ytDlpDownloaded` and `ffmpegSteps` are the outcomes the installers would
   * meet; the returned flags tell whether each installer was run.
   */
  method EnsureDependencies(plat: Platform, home: string, env: Environment,
                            ytDlpDownloaded: bool, ffmpegSteps: FfmpegInstall)
    returns (result: Option<DependencyPaths>, ranYtDlpInstaller: bool, ranFfmpegInstaller: bool)
    ensures var depDir := DependencyDir(home);
            var ytDlp := Resolve("yt-dlp", plat, depDir, env, InstallYtDlp(plat, depDir, ytDlpDownloaded));
            var ffmpeg := Resolve("ffmpeg", plat, depDir, env, InstallFfmpeg(plat, depDir, ffmpegSteps));
            && (result.None? <==> ytDlp.None?)
            && (result.Some? ==> result.value.ytDlp == ytDlp.value)
            && (result.Some? ==> result.value.ffmpeg == if ffmpeg.Some? then ffmpeg.value else "ffmpeg")
    ensures ranYtDlpInstaller <==> NeedsInstall("yt-dlp", plat, DependencyDir(home), env)
    ensures ranFfmpegInstaller <==> NeedsInstall("ffmpeg", plat, DependencyDir(home), env)
  {
    var depDir := DependencyDir(home);
    var ytDlpPath, ffmpegPath;
    ytDlpPath, ranYtDlpInstaller := LocateTool("yt-dlp", plat, depDir, env, InstallYtDlp(plat, depDir, ytDlpDownloaded));
    ffmpegPath, ranFfmpegInstaller := LocateTool("ffmpeg", plat, depDir, env, InstallFfmpeg(plat, depDir, ffmpegSteps));
    if ytDlpPath.None? {
      return None, ranYtDlpInstaller, ranFfmpegInstaller;
    }
    result := Some(DependencyPaths(ytDlpPath.value, if ffmpegPath.Some? then ffmpegPath.value else "ffmpeg"));
  }

  /**
   * The check `ensureDependencies` makes for one tool: the plain name on the
   * search path, the ".exe" name on the search path, the private copy, and
   * only then the installer, whose outcome is `installed`.
   */
  method LocateTool(tool: string, plat: Platform, depDir: string, env: Environment, installed: Option<string>)
    returns (path: Option<string>, ranInstaller: bool)
    ensures path == Resolve(tool, plat, depDir, env, installed)
    ensures ranInstaller <==> NeedsInstall(tool, plat, depDir, env)
  {
    ResolveInOrder(tool, plat, depDir, env, installed);
    ranInstaller := false;
    if tool in env.onPath {
      path := Some(tool);
    } else if tool + ".exe" in env.onPath {
      path := Some(tool + ".exe");
    } else {
      var local := Join(depDir, GetExecutableName(tool, plat));
      if local in env.existing {
        path := Some(local);
      } else {
        path := installed;
        ranInstaller := true;
      }
    }
  }

  /** With no tool on the search path and nothing installed, macOS still gets the extractor but never the transcoder. */
  lemma MacFreshMachine(depDir: string, ffmpegSteps: FfmpegInstall)
    ensures Resolve("ffmpeg", Darwin, depDir, Environment({}, {}), InstallFfmpeg(Darwin, depDir, ffmpegSteps)) == None
    ensures Resolve("yt-dlp", Darwin, depDir, Environment({}, {}), InstallYtDlp(Darwin, depDir, true))
         == Some(Join(depDir, "yt-dlp"))
  {
    MacFfmpegInstallAlwaysFails(depDir, ffmpegSteps);
    ResolveInOrder("ffmpeg", Darwin, depDir, Environment({}, {}), InstallFfmpeg(Darwin, depDir, ffmpegSteps));
    ResolveInOrder("yt-dlp", Darwin, depDir, Environment({}, {}), InstallYtDlp(Darwin, depDir, true));
  }
}
