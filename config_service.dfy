/** The configuration store: validation of a loaded configuration (`Sanitize`) and the in-memory
    current configuration that `Load`, `Save` and `Update` replace. The JSON file itself is a
    parameter: `None` stands for a missing, unreadable or empty file. */
module ConfigService {
  import opened Wrappers
  import opened Text
  import opened Models

  /** Ordinal case-insensitive string equality, with ASCII case folding. */
  predicate EqualsIgnoreCase(a: string, b: string) { UpperAscii(a) == UpperAscii(b) }

  /** `xs` holds a string equal to `x` up to case. */
  predicate MemberIgnoreCase(x: string, xs: seq<string>)
  {
    |xs| > 0 && (EqualsIgnoreCase(xs[0], x) || MemberIgnoreCase(x, xs[1..]))
  }

  /** The names of `WhisperModelInfo.All`, in table order. */
  const ModelNames: seq<string> := [
    "tiny", "tiny.en", "base", "base.en", "small", "small.en", "medium", "medium.en",
    "large-v3", "large-v3-turbo"
  ]

  /** `ModelNames` is the name column of the catalogue. */
  lemma ModelNamesAreCatalogue()
    ensures |ModelNames| == |AllModels|
    ensures forall i :: 0 <= i < |AllModels| ==> ModelNames[i] == AllModels[i].name
  {
  }

  /** Membership in `ValidModelNames`, a set built from `WhisperModelInfo.All` with
      `StringComparer.OrdinalIgnoreCase`. */
  predicate IsValidModelName(name: string) { MemberIgnoreCase(name, ModelNames) }

  /** Membership in `ValidLanguageCodes`, built from `LanguageOption.All` the same way. */
  predicate IsValidLanguage(code: string) { MemberIgnoreCase(code, LanguageCodes) }

  predicate IsValidVkCode(vk: int) { 0 <= vk <= 255 }

  predicate IsSane(c: AppConfig)
  {
    IsValidModelName(c.whisperModel) && IsValidLanguage(c.language) && IsValidVkCode(c.hotkey.vkCode)
  }

  /** The model `Sanitize` keeps: the configured one when it is in the catalogue, else "base". */
  function SanitizedModel(name: string): (r: string)
    ensures IsValidModelName(name) ==> r == name
    ensures !IsValidModelName(name) ==> r == DefaultWhisperModel
  {
    if IsValidModelName(name) then name else DefaultWhisperModel
  }

  /** The language `Sanitize` keeps: the configured one when it is a known code, else "de". */
  function SanitizedLanguage(code: string): (r: string)
    ensures IsValidLanguage(code) ==> r == code
    ensures !IsValidLanguage(code) ==> r == DefaultLanguage
  {
    if IsValidLanguage(code) then code else DefaultLanguage
  }

  /** The virtual-key code `Sanitize` keeps: the configured one when it is in 0..255, else 0x44. */
  function SanitizedVkCode(vk: int): (r: int)
    ensures IsValidVkCode(vk) ==> r == vk
    ensures !IsValidVkCode(vk) ==> r == DefaultHotkeyVkCode
  {
    if IsValidVkCode(vk) then vk else DefaultHotkeyVkCode
  }

  /** `Sanitize`: an unknown model becomes "base", an unknown language "de", a virtual-key code
      outside 0..255 becomes 0x44; every other field is kept, and a configuration that needs no
      repair comes back unchanged (the source returns the same instance then; records are values
      here, so the rebuilt record is that value). */
  function Sanitize(c: AppConfig): (r: AppConfig)
    ensures r == c.(whisperModel := SanitizedModel(c.whisperModel), language := SanitizedLanguage(c.language),
                    hotkey := c.hotkey.(vkCode := SanitizedVkCode(c.hotkey.vkCode)))
    ensures IsSane(c) ==> r == c
  {
    var sanitizedModel := SanitizedModel(c.whisperModel);
    var sanitizedVkCode := SanitizedVkCode(c.hotkey.vkCode);
    var sanitizedLanguage := SanitizedLanguage(c.language);
    if sanitizedModel == c.whisperModel && sanitizedVkCode == c.hotkey.vkCode && sanitizedLanguage == c.language
    then c
    else c.(whisperModel := sanitizedModel, language := sanitizedLanguage,
            hotkey := c.hotkey.(vkCode := sanitizedVkCode))
  }

  /** The replacement values `Sanitize` uses pass its own checks. */
  lemma DefaultsAreValid()
    ensures IsValidModelName(DefaultWhisperModel)
    ensures IsValidLanguage(DefaultLanguage)
    ensures IsValidVkCode(DefaultHotkeyVkCode)
  {
    var names := ModelNames;
    assert names[2] == "base";
    assert MemberIgnoreCase(DefaultWhisperModel, names[2..]);
    assert names[1..][1..] == names[2..];
    assert MemberIgnoreCase(DefaultWhisperModel, names[1..]);
    assert MemberIgnoreCase(DefaultLanguage, LanguageCodes[1..]);
  }

  /** Whatever comes in, the sanitized configuration passes every check. */
  lemma SanitizeIsSane(c: AppConfig)
    ensures IsSane(Sanitize(c))
  {
    DefaultsAreValid();
  }

  /** Sanitizing twice changes nothing more than sanitizing once. */
  lemma SanitizeIdempotent(c: AppConfig)
    ensures Sanitize(Sanitize(c)) == Sanitize(c)
  {
    SanitizeIsSane(c);
  }

  /** The default configuration is already sane. */
  lemma DefaultConfigIsSane()
    ensures Sanitize(DefaultConfig()) == DefaultConfig()
  {
    DefaultsAreValid();
  }

  /** A value is not in a table when the upper-cased first characters differ from every entry's. */
  lemma {:induction false} NotMemberByFirstChar(x: string, xs: seq<string>)
    requires |x| > 0
    requires forall i :: 0 <= i < |xs| ==> |xs[i]| > 0 && AsciiUpper(xs[i][0]) != AsciiUpper(x[0])
    ensures !MemberIgnoreCase(x, xs)
  {
    if |xs| > 0 {
      assert UpperAscii(xs[0])[0] != UpperAscii(x)[0];
      NotMemberByFirstChar(x, xs[1..]);
    }
  }

  lemma TraversalIsNoModel()
    ensures !IsValidModelName("../../etc/hosts")
  {
    NotMemberByFirstChar("../../etc/hosts", ModelNames);
  }

  lemma SmallIsModel()
    ensures IsValidModelName("small")
  {
    var names := ModelNames;
    assert names[4..][0] == "small";
    assert MemberIgnoreCase("small", names[4..]);
    assert names[3..][1..] == names[4..] && names[2..][1..] == names[3..] && names[1..][1..] == names[2..];
  }

  lemma EnglishIsLanguage()
    ensures IsValidLanguage("en")
  {
    assert LanguageCodes[2..][0] == "en";
    assert MemberIgnoreCase("en", LanguageCodes[2..]);
    assert LanguageCodes[1..][1..] == LanguageCodes[2..];
  }

  lemma LongNameIsNoLanguage()
    ensures !IsValidLanguage("not-a-language")
  {
    var lang := "not-a-language";
    forall i | 0 <= i < |LanguageCodes| ensures UpperAscii(LanguageCodes[i]) != UpperAscii(lang) {
      assert |LanguageCodes[i]| <= 4;
    }
    NotMemberWhenAllDiffer(lang, LanguageCodes);
  }

  /** The unit tests' tampered and valid configurations. */
  lemma SanitizeExamples()
    ensures Sanitize(DefaultConfig().(whisperModel := "../../etc/hosts")).whisperModel == "base"
    ensures Sanitize(DefaultConfig().(hotkey := DefaultHotkey().(vkCode := 99999))).hotkey.vkCode == 0x44
    ensures Sanitize(DefaultConfig().(language := "not-a-language")).language == "de"
    ensures var valid := DefaultConfig().(whisperModel := "small", hotkey := DefaultHotkey().(vkCode := 0x41));
            Sanitize(valid) == valid
    ensures var valid := DefaultConfig().(language := "en"); Sanitize(valid) == valid
  {
    DefaultsAreValid();
    TraversalIsNoModel();
    SmallIsModel();
    EnglishIsLanguage();
    LongNameIsNoLanguage();
  }

  /** A value is not in a table whose entries all differ from it up to case. */
  lemma {:induction false} NotMemberWhenAllDiffer(x: string, xs: seq<string>)
    requires forall i :: 0 <= i < |xs| ==> UpperAscii(xs[i]) != UpperAscii(x)
    ensures !MemberIgnoreCase(x, xs)
  {
    if |xs| > 0 {
      assert UpperAscii(xs[0]) != UpperAscii(x);
      NotMemberWhenAllDiffer(x, xs[1..]);
    }
  }

  /** What `Load` makes current: the sanitized file contents, or the defaults. */
  function Loaded(file: Option<AppConfig>): (c: AppConfig)
    ensures IsSane(c)
    ensures file.None? ==> c == DefaultConfig()
  {
    DefaultsAreValid();
    match file
    case Some(fromFile) => SanitizeIsSane(fromFile); Sanitize(fromFile)
    case None => DefaultConfig()
  }

  class JsonConfigService {
    var current: AppConfig
    /** The records passed to `ConfigChanged` subscribers, oldest first. */
    ghost var notified: seq<AppConfig>

    /** The service loads the file once when it is created. */
    constructor (file: Option<AppConfig>)
      ensures current == Loaded(file) && notified == []
    {
      current := Loaded(file);
      notified := [];
    }

    method Load(file: Option<AppConfig>) returns (c: AppConfig)
      modifies this
      ensures c == Loaded(file) && current == c
      ensures notified == old(notified)
    {
      match file {
        case Some(fromFile) =>
          current := Sanitize(fromFile);
        case None =>
          current := DefaultConfig();
      }
      c := current;
    }

    /** `Save` writes the file, makes the saved record current and raises `ConfigChanged` with it. */
    method Save(config: AppConfig)
      modifies this
      ensures current == config
      ensures notified == old(notified) + [config]
    {
      current := config;
      notified := notified + [config];
    }

    /** `Update` applies the updater to the current record; the result is saved and becomes current. */
    method Update(updater: AppConfig -> AppConfig) returns (updated: AppConfig)
      modifies this
      ensures updated == updater(old(current)) && current == updated
      ensures notified == old(notified) + [updated]
    {
      updated := updater(current);
      Save(updated);
    }
  }

  /** An Update after a Load returns the changed record and leaves the record Load returned as it was. */
  method UpdateKeepsEarlierRecord() returns (original: AppConfig, updated: AppConfig)
    ensures original == DefaultConfig() && original.whisperModel == "base"
    ensures updated == original.(whisperModel := "small")
  {
    DefaultsAreValid();
    var service := new JsonConfigService(None);
    original := service.Load(None);
    updated := service.Update((c: AppConfig) => c.(whisperModel := "small"));
    assert service.current == updated && service.notified == [updated];
  }
}
