/** The configuration records of the desktop application and their defaults, and the two tables the
    configuration is validated against: the Whisper models and the transcription languages.
    Timestamps (`DateTime`) are abstract integers supplied by the caller. */
module Models {
  import opened Wrappers

  const DefaultWhisperModel: string := "base"
  const DefaultLanguage: string := "de"
  const DefaultTheme: string := "midnight"
  const DefaultHotkeyDisplay: string := "Win+D"
  const DefaultHotkeyKey: string := "D"
  const DefaultHotkeyVkCode: int := 0x44
  const MaxHistoryEntries: nat := 200

  datatype HotkeyConfig = HotkeyConfig(
    ctrl: bool, shift: bool, alt: bool, win: bool, key: string, vkCode: int)

  datatype StatsConfig = StatsConfig(totalRecordings: int, totalWords: int)

  datatype NoteEntry = NoteEntry(id: int, text: string, createdAt: int, editedAt: Option<int>)

  datatype HistoryEntry = HistoryEntry(text: string, timestamp: int, duration: int, language: Option<string>)

  datatype AppConfig = AppConfig(
    setupComplete: bool,
    whisperModel: string,
    language: string,
    appLanguage: string,
    hotkey: HotkeyConfig,
    hotkeyDisplay: string,
    toggleMode: bool,
    autoPaste: bool,
    showFloatingBar: bool,
    theme: string,
    hasDonated: bool,
    modelPath: Option<string>,
    stats: StatsConfig,
    notes: seq<NoteEntry>)

  /** `new HotkeyConfig()`: Win+D. */
  function DefaultHotkey(): (h: HotkeyConfig)
    ensures h.win && !h.ctrl && !h.shift && !h.alt
    ensures h.key == "D" && h.vkCode == 0x44
  {
    HotkeyConfig(false, false, false, true, DefaultHotkeyKey, DefaultHotkeyVkCode)
  }

  /** `new StatsConfig()`: nothing counted yet. */
  function DefaultStats(): (s: StatsConfig)
    ensures s.totalRecordings == 0 && s.totalWords == 0
  {
    StatsConfig(0, 0)
  }

  /** `new AppConfig()`. */
  function DefaultConfig(): (c: AppConfig)
    ensures c.whisperModel == "base" && c.language == "de" && c.appLanguage == "de"
    ensures c.hotkey == DefaultHotkey() && c.hotkeyDisplay == "Win+D"
    ensures c.autoPaste && c.showFloatingBar
    ensures !c.toggleMode && !c.setupComplete && !c.hasDonated
    ensures c.theme == "midnight" && c.modelPath == None
    ensures c.stats == DefaultStats() && c.notes == []
  {
    AppConfig(false, DefaultWhisperModel, DefaultLanguage, DefaultLanguage, DefaultHotkey(),
              DefaultHotkeyDisplay, false, true, true, DefaultTheme, false, None, DefaultStats(), [])
  }

  datatype GgmlType = Tiny | TinyEn | Base | BaseEn | Small | SmallEn | Medium | MediumEn | LargeV3 | LargeV3Turbo

  datatype WhisperModelInfo = WhisperModelInfo(
    name: string, displayName: string, ggmlType: GgmlType,
    approxSize: string, vramRequired: string, speed: string, quality: string)

  /** `WhisperModelInfo.All`. */
  const AllModels: seq<WhisperModelInfo> := [
    WhisperModelInfo("tiny", "Tiny", Tiny, "~75 MB", "~1 GB", "~10x", "Basic"),
    WhisperModelInfo("tiny.en", "Tiny (English)", TinyEn, "~75 MB", "~1 GB", "~10x", "Basic"),
    WhisperModelInfo("base", "Base", Base, "~142 MB", "~1 GB", "~7x", "Good"),
    WhisperModelInfo("base.en", "Base (English)", BaseEn, "~142 MB", "~1 GB", "~7x", "Good"),
    WhisperModelInfo("small", "Small", Small, "~466 MB", "~2 GB", "~4x", "Better"),
    WhisperModelInfo("small.en", "Small (English)", SmallEn, "~466 MB", "~2 GB", "~4x", "Better"),
    WhisperModelInfo("medium", "Medium", Medium, "~1.5 GB", "~5 GB", "~2x", "Great"),
    WhisperModelInfo("medium.en", "Medium (English)", MediumEn, "~1.5 GB", "~5 GB", "~2x", "Great"),
    WhisperModelInfo("large-v3", "Large", LargeV3, "~2.9 GB", "~10 GB", "1x", "Best"),
    WhisperModelInfo("large-v3-turbo", "Large Turbo", LargeV3Turbo, "~1.5 GB", "~6 GB", "~8x", "Best")
  ]

  /** The codes of `LanguageOption.All`, in table order (the display names are GUI text). */
  const LanguageCodes: seq<string> := [
    "auto", "de", "en", "sq", "ar", "zh", "hr", "cs", "da", "nl", "fi", "fr", "hi", "hu", "it",
    "ja", "ko", "no", "pl", "pt", "ro", "ru", "sr", "sk", "sl", "es", "sv", "tr", "uk"
  ]
}
