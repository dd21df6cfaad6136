/**
 * User settings: the defaults, and the merge `loadSettings` performs, where
 * every field present in the settings file overrides the default and every
 * absent one keeps it.
 */
module Settings {
  import opened Text
  import I18n

  datatype Settings = Settings(
    defaultDownloadPath: string,
    defaultFilename: string,
    preferredQuality: string,
    downloadCover: bool,
    downloadDescription: bool,
    debug: bool,
    browser: string,
    mp3Bitrate: nat,
    language: string)

  /** The fields a parsed settings file holds; an absent key is None. */
  datatype SettingsFile = SettingsFile(
    defaultDownloadPath: Option<string>,
    defaultFilename: Option<string>,
    preferredQuality: Option<string>,
    downloadCover: Option<bool>,
    downloadDescription: Option<bool>,
    debug: Option<bool>,
    browser: Option<string>,
    mp3Bitrate: Option<nat>,
    language: Option<string>)

  /** `DEFAULT_SETTINGS`, whose language is the one detected from the environment. */
  function DefaultSettings(systemLanguage: I18n.Language): (d: Settings)
    ensures d.defaultDownloadPath == "" && d.defaultFilename == "" && d.browser == ""
    ensures d.preferredQuality == "highest" && d.mp3Bitrate == 128
    ensures d.downloadCover && d.downloadDescription && !d.debug
    ensures d.language == systemLanguage
  {
    Settings("", "", "highest", true, true, false, "", 128, systemLanguage)
  }

  function Pick<T>(present: Option<T>, default: T): T
  {
    if present.Some? then present.value else default
  }

  /** Each field of `s` comes from the file when the file has it, and from `d` otherwise. */
  ghost predicate Overlays(s: Settings, d: Settings, f: SettingsFile) {
    && s.defaultDownloadPath == Pick(f.defaultDownloadPath, d.defaultDownloadPath)
    && s.defaultFilename == Pick(f.defaultFilename, d.defaultFilename)
    && s.preferredQuality == Pick(f.preferredQuality, d.preferredQuality)
    && s.downloadCover == Pick(f.downloadCover, d.downloadCover)
    && s.downloadDescription == Pick(f.downloadDescription, d.downloadDescription)
    && s.debug == Pick(f.debug, d.debug)
    && s.browser == Pick(f.browser, d.browser)
    && s.mp3Bitrate == Pick(f.mp3Bitrate, d.mp3Bitrate)
    && s.language == Pick(f.language, d.language)
  }

  /** `{ ...DEFAULT_SETTINGS, ...settings }`. */
  function Merge(d: Settings, f: SettingsFile): Settings
  {
    Settings(
      Pick(f.defaultDownloadPath, d.defaultDownloadPath),
      Pick(f.defaultFilename, d.defaultFilename),
      Pick(f.preferredQuality, d.preferredQuality),
      Pick(f.downloadCover, d.downloadCover),
      Pick(f.downloadDescription, d.downloadDescription),
      Pick(f.debug, d.debug),
      Pick(f.browser, d.browser),
      Pick(f.mp3Bitrate, d.mp3Bitrate),
      Pick(f.language, d.language))
  }

  /**
   * `loadSettings`: without a settings file the defaults; with one, the
   * defaults overlaid by the fields the file sets.
   */
  function LoadSettings(file: Option<SettingsFile>, systemLanguage: I18n.Language): (r: Settings)
    ensures file.None? ==> r == DefaultSettings(systemLanguage)
    ensures file.Some? ==> Overlays(r, DefaultSettings(systemLanguage), file.value)
  {
    match file
    case None => DefaultSettings(systemLanguage)
    case Some(f) => Merge(DefaultSettings(systemLanguage), f)
  }

  /** What `saveSettings` writes: every field. */
  function Saved(s: Settings): SettingsFile
  {
    SettingsFile(Some(s.defaultDownloadPath), Some(s.defaultFilename), Some(s.preferredQuality),
                 Some(s.downloadCover), Some(s.downloadDescription), Some(s.debug),
                 Some(s.browser), Some(s.mp3Bitrate), Some(s.language))
  }

  /** Saved settings load back unchanged, whatever the detected language. */
  lemma SaveLoadRoundTrip(s: Settings, systemLanguage: I18n.Language)
    ensures LoadSettings(Some(Saved(s)), systemLanguage) == s
  {
  }
}
