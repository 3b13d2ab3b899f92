# WhisperVoice hotkey engine and application rules, in Dafny

WhisperVoice is a push-to-talk dictation tool. A global hotkey starts and stops a recording.
Whisper transcribes the audio, and the text is pasted into the window that had the focus.
The repository ships two front ends:

- an Avalonia desktop application in C#;
- an Electron shell (`src/main.js`) with a small native helper (`helper/Program.cs`) that runs the
  low-level keyboard hook for it.

This project models the parts of both that decide things:

- the low-level hotkey engines: the desktop `Win32HotkeyService`, the helper's hook and line
  protocol, and the shell's own push-to-talk handlers;
- the key tables: key names, virtual-key codes and the "Ctrl+Shift+Alt+Win+Key" label;
- the configuration record, its defaults and the sanitizing load;
- the model-file path guard;
- the dictation controller and the floating bar;
- the notes list;
- the release script's version bump;
- the shell's CUDA index selection and package update check.

The model has three layers:

- Pure logic is written as datatypes and functions.
- Objects the source updates in place (the hook services, the helper, the view models, the
  configuration service, the shell's hotkey state) are classes. Their fields mirror the source's
  fields, and each method ensures that the new state equals a specification function of the old
  state.
- Lemmas prove what the source promises about those functions: the round-trips, the alternation of
  press and release events, the conditions under which keys are swallowed, the invariants the
  operations keep, and the unit tests' examples.

Modules, one per source concern:

| module | file | models |
|---|---|---|
| `Wrappers`, `Text` | wrappers.dfy, text.dfy | Option/Result; the string operations the source calls (`Split`, `Join`, `Trim`, `int.TryParse`, JavaScript `parseInt`, decimal formatting) |
| `Keys` | keys.dfy | window messages, virtual-key codes, the modifier flags |
| `Models` | models.dfy | `AppConfig`, `HotkeyConfig`, `StatsConfig`, the model and language catalogues, `AppConstants` |
| `ConfigService` | config_service.dfy | `JsonConfigService` |
| `ModelManager` | model_manager.dfy | `ModelManager` |
| `KeyNames` | key_names.dfy | the static key tables of `Win32HotkeyService` and its display label |
| `HotkeyService` | hotkey_service.dfy | `Win32HotkeyService` |
| `Helper` | helper.dfy | `helper/Program.cs` |
| `MainProtocol` | main_protocol.dfy | the shell's side of the helper protocol (`src/main.js`) |
| `PushToTalk` | push_to_talk.dfy | the shell's own key handlers and `startRecording`/`stopRecording` |
| `CudaIndex` | cuda_index.dfy | the shell's choice of PyTorch CUDA wheel index |
| `PackageVersions` | package_versions.dfy | the shell's package update check |
| `Dictation` | dictation.dfy | `MainViewModel` |
| `FloatingBar` | floating_bar.dfy | `FloatingBarViewModel` |
| `Notes` | notes.dfy | `NotesViewModel` |
| `Release` | release.dfy | `release.js` |

Whatever reaches outside the process is an input parameter or is left out. That covers the
clock, the foreground window, files, sockets, the clipboard, the network, pip and nvidia-smi.
Each case is listed below.

## Model

| member | source | states |
|---|---|---|
| Keys.TransitionOf | src/WhisperVoice/Services/Win32HotkeyService.cs:103-105 | a message is a key-down exactly for WM_KEYDOWN/WM_SYSKEYDOWN and a key-up exactly for WM_KEYUP/WM_SYSKEYUP |
| Keys.ModifierOf | src/WhisperVoice/Services/Win32HotkeyService.cs:116-137 | each modifier flag is driven by exactly its left, right and generic codes (Win has no generic code) |
| Keys.Mods.Set | src/WhisperVoice/Services/Win32HotkeyService.cs:116-137 | setting one modifier flag changes that flag and no other |
| Keys.Mods.Count | src/WhisperVoice/Services/Win32HotkeyService.cs:164 | the modifier count is at most four and is zero exactly when no flag is set |
| Keys.MatchIsNotMissing | src/WhisperVoice/Services/Win32HotkeyService.cs:235-245 | `ModifiersMatch` holds exactly when every required modifier is held, and `ModifierMissing` is its exact complement |
| KeyNames.HexDigitUpper | src/WhisperVoice/Services/Win32HotkeyService.cs:80 | an `X2` digit is an upper-case hexadecimal digit of the given value |
| KeyNames.HexString | src/WhisperVoice/Services/Win32HotkeyService.cs:80 | the hexadecimal numeral is non-empty, has only hexadecimal digits, and its value is the number |
| KeyNames.HexValueLeadingZero | src/WhisperVoice/Services/Win32HotkeyService.cs:80 | the zero padding of `X2` keeps the value |
| KeyNames.Hex2 | src/WhisperVoice/Services/Win32HotkeyService.cs:80 | `X2` writes at least two hexadecimal digits whose value is the code, a negative code as its 32-bit two's complement |
| KeyNames.GetKeyName | src/WhisperVoice/Services/Win32HotkeyService.cs:74-81 | a key name is never empty and never contains "+" or "," |
| KeyNames.FunctionKeyNameRoundTrip | src/WhisperVoice/Services/Win32HotkeyService.cs:78 | the name "F1".."F12" reads back to its code |
| KeyNames.HexKeyNameRoundTrip | src/WhisperVoice/Services/Win32HotkeyService.cs:80 | the "0x.." name of any other 32-bit code reads back to that code |
| KeyNames.KeyNameRoundTrip | src/WhisperVoice/Services/Win32HotkeyService.cs:74-81 | every 32-bit code's name reads back to the code |
| KeyNames.KeyNameInjective | src/WhisperVoice/Services/Win32HotkeyService.cs:74-81 | two 32-bit codes with the same name are equal |
| KeyNames.GetKeyNameExamples | tests/WhisperVoice.Tests/Services/HotkeyServiceTests.cs:9-20 | the names the unit tests expect: A, Z, 0, 9, F1, F12, Space |
| KeyNames.IsModifierKey | src/WhisperVoice/Services/Win32HotkeyService.cs:83-87 | the modifier-key test holds exactly for the codes that drive a modifier flag |
| KeyNames.IsModifierKeyExamples | tests/WhisperVoice.Tests/Services/HotkeyServiceTests.cs:22-31 | LWIN, RWIN and LCTRL are modifiers; A and D are not |
| KeyNames.UpperInvariant | src/WhisperVoice/Services/Win32HotkeyService.cs:89 | `ToUpperInvariant` maps the name character by character through the culture's upper-case table |
| KeyNames.UpperInvariantOfAscii | src/WhisperVoice/Services/Win32HotkeyService.cs:89 | on an ASCII name, under the ASCII rules every culture keeps for ASCII, it is the ASCII upper-casing |
| KeyNames.GetVirtualKeyCode | src/WhisperVoice/Services/Win32HotkeyService.cs:89-94 | a name whose invariant upper case is "SPACE" or " " gives Space; a name of one UTF-16 unit that is a letter or digit in the Unicode tables gives the code of its `char.ToUpper`; any other single character (including one that needs a surrogate pair) and any name of another length gives 0x44 |
| KeyNames.GetVirtualKeyCodeOfAscii | src/WhisperVoice/Services/Win32HotkeyService.cs:89-94 | on an ASCII name, the code is Space, a digit or an upper-case letter, and a lower-case letter maps to its upper-case code |
| KeyNames.GetVirtualKeyCodeNonAscii | src/WhisperVoice/Services/Win32HotkeyService.cs:89-94 | non-ASCII letters and digits keep their Unicode code: "é" gives 0xC9 and the Arabic-Indic digit three gives 0x663 |
| KeyNames.GetVirtualKeyCodeSurrogatePair | src/WhisperVoice/Services/Win32HotkeyService.cs:89-94 | a letter beyond the Basic Multilingual Plane (U+1D400) is two UTF-16 units, so its name falls back to 0x44 |
| KeyNames.VirtualKeyOfKeyName | src/WhisperVoice/Services/Win32HotkeyService.cs:74-94 | under the ASCII case rules, looking up the name of a letter, digit or Space gives back its code |
| KeyNames.GetVirtualKeyCodeExamples | tests/WhisperVoice.Tests/Services/HotkeyServiceTests.cs:33-39 | under the ASCII case rules, "D", "A" and "Space" give 0x44, 0x41 and 0x20; a name such as "F5" falls back to 0x44 |
| KeyNames.ModifierLabels | src/WhisperVoice/Services/Win32HotkeyService.cs:250-253 | one modifier name per captured flag |
| KeyNames.ModifierLabelsNames | src/WhisperVoice/Services/Win32HotkeyService.cs:250-253 | each modifier name appears exactly when its flag is captured |
| KeyNames.KeyNameIsNoModifierName | src/WhisperVoice/Services/Win32HotkeyService.cs:74-81 | no key name is "Ctrl", "Shift", "Alt" or "Win" |
| KeyNames.LabelSplit | src/WhisperVoice/Services/Win32HotkeyService.cs:247-256 | splitting a non-empty display label on "+" gives back its parts |
| KeyNames.DecodeDisplayLabel | src/WhisperVoice/Services/Win32HotkeyService.cs:247-256 | a display label determines the captured modifiers and the key it was built from (round-trip) |
| KeyNames.DecodeKeyLabel | src/WhisperVoice/Services/Win32HotkeyService.cs:247-256 | the round-trip for labels with a key |
| KeyNames.DecodeModifiersLabel | src/WhisperVoice/Services/Win32HotkeyService.cs:247-256 | the round-trip for modifiers-only labels |
| KeyNames.LabelOfTwo | src/WhisperVoice/Services/Win32HotkeyService.cs:255 | two parts are joined as first + "+" + second |
| KeyNames.AltF5Label | src/WhisperVoice/Services/Win32HotkeyService.cs:247-256 | captured Alt with F5 is labelled "Alt+F5" |
| KeyNames.CtrlWinLabel | src/WhisperVoice/Services/Win32HotkeyService.cs:160-173 | the modifiers-only Ctrl+Win combination is labelled "Ctrl+Win" |
| KeyNames.WinDLabel | src/WhisperVoice/AppConstants.cs:28-30 | the default Win with D is labelled "Win+D", the default display text |
| Text.Split | helper/Program.cs:175 | splitting gives at least one piece and no piece contains the separator |
| Text.JoinSplit | helper/Program.cs:175 | joining the pieces with the separator gives back the string |
| Text.SplitJoin | src/WhisperVoice/Services/Win32HotkeyService.cs:255 | splitting a join of separator-free parts gives back the parts |
| Text.NatToString | release.js:26 | decimal formatting gives non-empty digits without a leading zero |
| Text.NatToStringValue | release.js:26 | the decimal numeral of n has the value n |
| Text.IntToString | src/main.js:1029-1030 | decimal formatting of an integer is non-empty and has no "," or "+" |
| Text.TryParseInt32 | helper/Program.cs:182 | a successful `int.TryParse` gives a 32-bit value |
| Text.Wrap32 | src/WhisperVoice/ViewModels/MainViewModel.cs:129-130 | C# `int` addition: the result is a 32-bit value congruent to the exact sum modulo 2^32, and equal to it when it fits |
| Text.Wrap32Overflow | src/WhisperVoice/ViewModels/MainViewModel.cs:129 | one more than `int.MaxValue` wraps to `int.MinValue` |
| Text.TryParseIntToString | helper/Program.cs:182 | `int.TryParse` reads back any integer C# writes: the value when it fits in 32 bits, a failure otherwise |
| Text.TryParseSigned | helper/Program.cs:94 | a run of digits, signed or not, parses to its value exactly when the value fits |
| Text.JsParseIntToString | src/main.js:1029-1030 | `parseInt` reads back any integer a template string writes |
| Text.JsParseIntPositive | src/main.js:1029-1030 | a plain run of decimal digits is read as its value |
| Text.JsParseIntNegative | src/main.js:1029-1030 | a '-' followed by decimal digits is read as the negated value |
| Text.Trim | src/WhisperVoice/ViewModels/NotesViewModel.cs:37 | trimming leaves no white space at either end |
| Text.TrimEmpty | src/WhisperVoice/ViewModels/NotesViewModel.cs:37-38 | a text is empty after trimming exactly when it is all white space |
| Text.UpperAscii | src/WhisperVoice/Services/Win32HotkeyService.cs:89 | upper-casing keeps the length and maps each character by itself |
| Models.DefaultHotkey | src/WhisperVoice/Models/AppConfig.cs:24-32 | the default hotkey is Win+D with code 0x44 and no other modifier |
| Models.DefaultStats | src/WhisperVoice/Models/AppConfig.cs:34-38 | the default statistics count nothing |
| Models.DefaultConfig | src/WhisperVoice/Models/AppConfig.cs:6-22 | every default the unit tests check: model "base", language and UI language "de", Win+D and its display text, auto-paste and floating bar on, toggle mode, setup and donation off, theme "midnight", no model path, no notes |
| ConfigService.ModelNamesAreCatalogue | src/WhisperVoice/Services/JsonConfigService.cs:56-57 | the valid model names are exactly the catalogue's name column |
| ConfigService.SanitizedModel | src/WhisperVoice/Services/JsonConfigService.cs:64-66 | a known model name is kept, any other becomes "base" |
| ConfigService.SanitizedLanguage | src/WhisperVoice/Services/JsonConfigService.cs:68-70 | a known language code is kept, any other becomes "de" |
| ConfigService.SanitizedVkCode | src/WhisperVoice/Services/JsonConfigService.cs:72-74 | a code in 0..255 is kept, any other becomes 0x44 |
| ConfigService.Sanitize | src/WhisperVoice/Services/JsonConfigService.cs:62-87 | exactly the model, the language and the hotkey code are repaired, every other field is kept, and a configuration needing no repair is returned unchanged |
| ConfigService.DefaultsAreValid | src/WhisperVoice/AppConstants.cs:25-30 | the replacement values pass the sanitizer's own checks |
| ConfigService.SanitizeIsSane | src/WhisperVoice/Services/JsonConfigService.cs:62-87 | whatever comes in, the result passes every check |
| ConfigService.SanitizeIdempotent | src/WhisperVoice/Services/JsonConfigService.cs:62-87 | sanitizing twice equals sanitizing once |
| ConfigService.DefaultConfigIsSane | src/WhisperVoice/Services/JsonConfigService.cs:52 | the default configuration needs no repair |
| ConfigService.NotMemberByFirstChar | src/WhisperVoice/Services/JsonConfigService.cs:56-60 | a value whose upper-cased first character matches no entry's is not in a case-insensitive table |
| ConfigService.TraversalIsNoModel | tests/WhisperVoice.Tests/Services/JsonConfigServiceTests.cs:59-67 | "../../etc/hosts" is not a model name |
| ConfigService.SmallIsModel | tests/WhisperVoice.Tests/Services/JsonConfigServiceTests.cs:81-93 | "small" is a model name |
| ConfigService.EnglishIsLanguage | tests/WhisperVoice.Tests/Services/JsonConfigServiceTests.cs:108-116 | "en" is a language code |
| ConfigService.LongNameIsNoLanguage | tests/WhisperVoice.Tests/Services/JsonConfigServiceTests.cs:97-105 | "not-a-language" is not a language code |
| ConfigService.SanitizeExamples | tests/WhisperVoice.Tests/Services/JsonConfigServiceTests.cs:59-116 | the tests' tampered configurations are repaired to "base", 0x44 and "de", and their valid ones come back unchanged |
| ConfigService.NotMemberWhenAllDiffer | src/WhisperVoice/Services/JsonConfigService.cs:56-60 | a value that differs from every entry up to case is not in the table |
| ConfigService.Loaded | src/WhisperVoice/Services/JsonConfigService.cs:32-54 | the loaded configuration is always sane, and the defaults when there is no readable file |
| ConfigService.JsonConfigService.constructor | src/WhisperVoice/Services/JsonConfigService.cs:26-30 | creating the service loads the file and makes the result current |
| ConfigService.JsonConfigService.Load | src/WhisperVoice/Services/JsonConfigService.cs:32-54 | the returned configuration is the sanitized file contents or the defaults, and it becomes current |
| ConfigService.JsonConfigService.Save | src/WhisperVoice/Services/JsonConfigService.cs:89-117 | the saved configuration becomes current and is passed to the `ConfigChanged` subscribers, once |
| ConfigService.JsonConfigService.Update | src/WhisperVoice/Services/JsonConfigService.cs:97-117 | the updater is applied to the current configuration, and the result is returned, becomes current and is passed to the `ConfigChanged` subscribers, once |
| ConfigService.UpdateKeepsEarlierRecord | tests/WhisperVoice.Tests/Services/JsonConfigServiceTests.cs:48-56 | after loading the defaults, an update to "small" returns the changed record while the loaded record still names "base" |
| ModelManager.AfterLastSeparator | src/WhisperVoice/Services/ModelManager.cs:27 | the position after the last separator: a separator precedes it and none follows |
| ModelManager.GetFileName | src/WhisperVoice/Services/ModelManager.cs:27 | a file name is no longer than its path |
| ModelManager.FileNameOfBareName | src/WhisperVoice/Services/ModelManager.cs:27-30 | a name is its own file name exactly when it has no separator and no drive prefix |
| ModelManager.FileNameOfCombine | src/WhisperVoice/Services/ModelManager.cs:32-33 | the file name of a combined path is the appended file |
| ModelManager.LastSeparatorOfAppend | src/WhisperVoice/Services/ModelManager.cs:32-33 | appending a bare file name puts the last separator just before it |
| ModelManager.PrefixIgnoringCase | src/WhisperVoice/Services/ModelManager.cs:38 | a path starting with the directory still does so after upper-casing both, so the case-insensitive check passes |
| ModelManager.CombineStartsWithDirectory | src/WhisperVoice/Services/ModelManager.cs:32-36 | a combined path starts with its directory |
| ModelManager.ModelFileIsBare | src/WhisperVoice/Services/ModelManager.cs:33 | "ggml-<name>.bin" of a bare name is bare and has no drive prefix |
| ModelManager.GetModelPathSpec | src/WhisperVoice/Services/ModelManager.cs:25-42 | a name is accepted exactly when it has no separator and no drive prefix; an accepted path lies inside the models directory and is named "ggml-<name>.bin"; any other name is refused with "Invalid model name" |
| ModelManager.GetModelPathAcceptsBase | tests/WhisperVoice.Tests/Services/ModelManagerTests.cs:18-25 | "base" is accepted |
| ModelManager.GetModelPathRejectsSeparator | tests/WhisperVoice.Tests/Services/ModelManagerTests.cs:38-44 | a name with a separator is refused with its own name in the error |
| ModelManager.GetModelPathRejectsParentPath | tests/WhisperVoice.Tests/Services/ModelManagerTests.cs:27-36 | "../../etc/hosts" is refused |
| ModelManager.GetModelPathRejectsWindowsParentPath | tests/WhisperVoice.Tests/Services/ModelManagerTests.cs:27-36 | "..\\..\\Windows\\System32\\cmd" is refused |
| ModelManager.GetModelPathRejectsSubdirectory | tests/WhisperVoice.Tests/Services/ModelManagerTests.cs:38-44 | "sub/base" is refused |
| ModelManager.GetAvailableModels | src/WhisperVoice/Services/ModelManager.cs:44-45 | the catalogue in table order: the ten names "tiny" … "large-v3-turbo" listed literally, each once, with their display names, GGML types and approximate sizes |
| HotkeyService.TrackSpec | src/WhisperVoice/Services/Win32HotkeyService.cs:116-138 | a modifier event sets exactly its own held flag to whether it is a key-down, captures only that modifier and only on a key-down while recording, and any other key changes nothing |
| HotkeyService.RecordStep | src/WhisperVoice/Services/Win32HotkeyService.cs:140-179 | recording changes neither the held nor the captured modifiers, the active flag or the configured hotkey |
| HotkeyService.ModifiersOnlyStep | src/WhisperVoice/Services/Win32HotkeyService.cs:185-198 | the modifiers-only matcher changes only the active flag |
| HotkeyService.KeyHotkeyStep | src/WhisperVoice/Services/Win32HotkeyService.cs:199-230 | the key matcher changes only the active flag |
| HotkeyService.MatchStep | src/WhisperVoice/Services/Win32HotkeyService.cs:181-233 | the matcher changes only the active flag |
| HotkeyService.Callback | src/WhisperVoice/Services/Win32HotkeyService.cs:96-114 | a negative hook code is passed on with no effect; otherwise the held flags are those after tracking; the configured hotkey never changes |
| HotkeyService.MatcherEvents | src/WhisperVoice/Services/Win32HotkeyService.cs:36-37 | the Pressed and Released events of a sequence are no more than the sequence and are all Pressed or Released |
| HotkeyService.MatcherEventsAppend | src/WhisperVoice/Services/Win32HotkeyService.cs:36-37 | picking out the Pressed and Released events distributes over concatenation |
| HotkeyService.CallbackMatcherShape | src/WhisperVoice/Services/Win32HotkeyService.cs:181-233 | one call raises no matcher event, a Pressed only from inactive to active, or a Released only from active to inactive |
| HotkeyService.MatchStepShape | src/WhisperVoice/Services/Win32HotkeyService.cs:181-233 | the same three shapes for the matcher alone, which raises only Pressed and Released |
| HotkeyService.BalancedAppend | src/WhisperVoice/Services/Win32HotkeyService.cs:188-223 | appending a Pressed while inactive or a Released while active keeps the trace alternating |
| HotkeyService.CallbackKeepsBalance | src/WhisperVoice/Services/Win32HotkeyService.cs:96-114 | every call keeps the Pressed/Released trace alternating in step with the active flag |
| HotkeyService.Run | src/WhisperVoice/Services/Win32HotkeyService.cs:96-114 | a run of hook calls never changes the configured hotkey |
| HotkeyService.RunHeld | src/WhisperVoice/Services/Win32HotkeyService.cs:116-137 | after any run, each held flag is the down/up state of the latest event for one of its codes, or its old value when there was none |
| HotkeyService.RunBalanced | src/WhisperVoice/Services/Win32HotkeyService.cs:181-233 | over any run from an inactive state, Pressed and Released alternate starting with Pressed, so auto-repeat never raises a second Pressed |
| HotkeyService.KeyModePressed | src/WhisperVoice/Services/Win32HotkeyService.cs:208-218 | in key mode, Pressed is raised exactly on a key-down of the configured key with every required modifier held, at least one modifier required, and the hotkey inactive |
| HotkeyService.KeyModeReleased | src/WhisperVoice/Services/Win32HotkeyService.cs:201-224 | in key mode, Released is raised exactly on a key-up while active that is the configured key or leaves a required modifier up |
| HotkeyService.ModifiersOnlyMode | src/WhisperVoice/Services/Win32HotkeyService.cs:185-198 | in modifiers-only mode, Pressed is raised exactly on a modifier key-down that completes the required set while inactive, and Released exactly on a modifier key-up that breaks it while active |
| HotkeyService.SuppressOnlyWhen | src/WhisperVoice/Services/Win32HotkeyService.cs:157-232 | an event is swallowed exactly when recording completes a key combination with Win captured, or, in key mode with Win required, when it is the configured key and Win is held |
| HotkeyService.RecordingIsolatesMatcher | src/WhisperVoice/Services/Win32HotkeyService.cs:110-111 | while recording, no Pressed or Released is raised and the active flag is untouched |
| HotkeyService.RecordingEmits | src/WhisperVoice/Services/Win32HotkeyService.cs:140-179 | while recording, a configuration is emitted, ending the recording, in exactly two cases: a non-modifier key-down with a modifier captured, or a modifier key-up that releases the last held modifier with two or more captured; otherwise nothing is emitted and recording goes on |
| HotkeyService.KeyComboIsCanonical | src/WhisperVoice/Services/Win32HotkeyService.cs:143-155 | a recorded key combination's display label decodes to exactly its configuration, and its key field is the key's name |
| HotkeyService.ModifiersComboIsCanonical | src/WhisperVoice/Services/Win32HotkeyService.cs:161-175 | a recorded modifiers-only combination has key "" and code 0, and its label decodes to exactly its modifiers |
| HotkeyService.RecordStepIsCanonical | src/WhisperVoice/Services/Win32HotkeyService.cs:140-179 | every configuration the recorder emits agrees with its display label |
| HotkeyService.RecordedConfigIsCanonical | src/WhisperVoice/Services/Win32HotkeyService.cs:96-179 | every configuration the hook emits agrees with its display label |
| HotkeyService.RunSnoc | src/WhisperVoice/Services/Win32HotkeyService.cs:96-114 | a run extended by one input is the run followed by one hook call |
| HotkeyService.RecordAltF5 | src/WhisperVoice/Services/Win32HotkeyService.cs:143-157 | recording Alt then F5 emits "Alt+F5" with F5's code, ends recording, and passes the F5 press on |
| HotkeyService.RecordCtrlWin | src/WhisperVoice/Services/Win32HotkeyService.cs:160-175 | recording Ctrl and Win and releasing both emits the modifiers-only "Ctrl+Win" and ends recording |
| HotkeyService.DefaultHotkeyPressAndRelease | src/WhisperVoice/Services/Win32HotkeyService.cs:199-229 | with the default Win+D, holding D raises one Pressed (with the foreground window) and releasing it one Released, and the D events are swallowed while Win is held |
| HotkeyService.Win32HotkeyService.constructor | src/WhisperVoice/Services/Win32HotkeyService.cs:12-34 | the field initialisers: nothing held, not recording, inactive, Win required |
| HotkeyService.Win32HotkeyService.Start | src/WhisperVoice/Services/Win32HotkeyService.cs:40-49 | starting installs the configured hotkey |
| HotkeyService.Win32HotkeyService.UpdateHotkey | src/WhisperVoice/Services/Win32HotkeyService.cs:51-58 | the required modifiers and the key code are taken from the configuration, and nothing else changes |
| HotkeyService.Win32HotkeyService.StartRecording | src/WhisperVoice/Services/Win32HotkeyService.cs:60-67 | recording starts with nothing captured |
| HotkeyService.Win32HotkeyService.CancelRecording | src/WhisperVoice/Services/Win32HotkeyService.cs:69-72 | recording stops and nothing else changes |
| HotkeyService.Win32HotkeyService.HookCallback | src/WhisperVoice/Services/Win32HotkeyService.cs:96-114 | the new state, the raised events and the verdict are those of the callback specification; the Pressed/Released trace grows by exactly the matcher events and keeps alternating with the active flag |
| HotkeyService.Win32HotkeyService.TrackModifier | src/WhisperVoice/Services/Win32HotkeyService.cs:116-138 | the held and captured modifiers become those of the tracking specification |
| HotkeyService.Win32HotkeyService.HandleRecordingMode | src/WhisperVoice/Services/Win32HotkeyService.cs:140-179 | the recording flag, the emitted events and the verdict are those of the recording specification |
| HotkeyService.Win32HotkeyService.HandleHotkeyMode | src/WhisperVoice/Services/Win32HotkeyService.cs:181-233 | the active flag, the events and the verdict are those of the matcher specification |
| HotkeyService.Win32HotkeyService.HandleModifiersOnly | src/WhisperVoice/Services/Win32HotkeyService.cs:185-198 | the active flag, the events and the verdict are those of the modifiers-only matcher |
| HotkeyService.Win32HotkeyService.HandleKeyHotkey | src/WhisperVoice/Services/Win32HotkeyService.cs:199-230 | the active flag, the events and the verdict are those of the key matcher |
| HotkeyService.Win32HotkeyService.BuildDisplayString | src/WhisperVoice/Services/Win32HotkeyService.cs:247-256 | the display string is the label of the captured modifiers and the key |
| Helper.HelperInitialState | helper/Program.cs:35-53 | the field initialisers: nothing held, the default Win+D hotkey, not pressed, not recording |
| Helper.StartupState | helper/Program.cs:91-97 | a first argument that parses as an integer replaces the key code, otherwise the code stays 0x44; nothing else changes |
| Helper.SetKeyFields | helper/Program.cs:173-194 | a `setkey:` line with five or more fields sets the four required flags to whether their fields are "1" and takes the key code from the fifth when it parses, keeping the old code otherwise; a shorter line and every other field leave the state alone |
| Helper.RecordCommandsMatchService | helper/Program.cs:195-209 | `record` and `cancelrecord` do what the desktop service's StartRecording and CancelRecording do |
| Helper.OtherMessagesChangeNothing | helper/Program.cs:170-214 | any line that is not `setkey:`, `record` or `cancelrecord` leaves the hook state alone |
| Helper.RecordedLine | helper/Program.cs:320-352 | a recorded line starts with "recorded:" |
| Helper.CombosAreDisplayLabels | helper/Program.cs:308-349 | the helper's combination text is the desktop service's display label, for key and modifiers-only combinations |
| Helper.Wire | helper/Program.cs:320-436 | each event is sent as one line, in order |
| Helper.HelperRecordStep | helper/Program.cs:301-359 | the recording block changes only the recording flag |
| Helper.HelperModifiersOnlyStep | helper/Program.cs:366-396 | the modifiers-only block changes only the pressed flag |
| Helper.HelperKeyHotkeyStep | helper/Program.cs:397-445 | the key block changes only the pressed flag |
| Helper.HelperMatchStep | helper/Program.cs:361-446 | the normal hotkey block changes only the pressed flag |
| Helper.HelperCallback | helper/Program.cs:267-450 | a negative hook code is passed on with no effect, and the configured hotkey never changes |
| Helper.MatchMirrorsService | helper/Program.cs:361-446 | the helper's matcher is the desktop service's, with Pressed sent as `keydown` and Released as `keyup` |
| Helper.ModifiersOnlyMirrorsService | helper/Program.cs:366-396 | the modifiers-only matcher is the desktop service's, sent as lines |
| Helper.KeyHotkeyMirrorsService | helper/Program.cs:397-445 | the key matcher is the desktop service's, sent as lines |
| Helper.CallbackMirrorsService | helper/Program.cs:267-450 | outside recording, a helper hook call does exactly what the desktop service's does |
| Helper.RecordMirrorsService | helper/Program.cs:301-359 | the recording block has the desktop service's guards and state changes, and sends its Recorded event as a `recorded:` line |
| Helper.KeyComboWire | helper/Program.cs:320 | a recorded key combination is sent as flags, code and label |
| Helper.ModifiersComboWire | helper/Program.cs:352 | a recorded modifiers-only combination is sent with code 0 |
| Helper.RecordingFallsThrough | helper/Program.cs:300-362 | while recording, the helper does what the desktop service does, except that after a recording that ends without Win captured the same event goes on to the matcher |
| Helper.RecordThenPressExample | helper/Program.cs:304-432 | with Ctrl+D configured and Ctrl captured, pressing D records "Ctrl+D" and, in the helper only, also sends `keydown` |
| Helper.CtrlDRecordedLine | helper/Program.cs:320 | the recorded line for Ctrl+D is "recorded:1,0,0,0,68,Ctrl+D" |
| Helper.CtrlDLabel | helper/Program.cs:308-317 | the helper's text and the desktop label for Ctrl+D are both "Ctrl+D" |
| Helper.Signals | helper/Program.cs:378-436 | picking out the `keydown`/`keyup` lines gives no more lines than there were |
| Helper.SignalsAppend | helper/Program.cs:378-436 | picking out the signals distributes over concatenation |
| Helper.MatchSignalShape | helper/Program.cs:361-446 | the matcher sends no signal, a `keydown` only from released to pressed, or a `keyup` only from pressed to released |
| Helper.RecordSignals | helper/Program.cs:301-359 | the recording block sends no `keydown` or `keyup` |
| Helper.CallbackSignalShape | helper/Program.cs:267-450 | one hook call sends at most one signal, a `keydown` only from released to pressed and a `keyup` only from pressed to released |
| Helper.SignalsBalancedAppend | helper/Program.cs:374-443 | appending a well-shaped signal keeps the signal trace alternating |
| Helper.CallbackKeepsSignalsBalanced | helper/Program.cs:267-450 | every hook call keeps `keydown` and `keyup` alternating in step with the pressed flag |
| Helper.WhisperHelper.constructor | helper/Program.cs:35-97 | the field initialisers followed by the argument handling of `Main` |
| Helper.WhisperHelper.ProcessMessage | helper/Program.cs:170-214 | the state after a line is that of the message specification, and `quit` is the only line that asks to exit |
| Helper.WhisperHelper.HookCallback | helper/Program.cs:267-450 | the lines sent, the verdict and the new state are those of the callback specification, and the signal trace keeps alternating |
| Helper.WhisperHelper.TrackModifiers | helper/Program.cs:278-298 | the held and captured modifiers become those of the tracking specification |
| Helper.WhisperHelper.RecordThenMatch | helper/Program.cs:300-446 | the recording block followed, when recording is then off, by the normal hotkey block |
| Helper.WhisperHelper.HandleRecording | helper/Program.cs:301-359 | the recording flag, the lines and the verdict are those of the recording specification |
| Helper.WhisperHelper.HandleMatching | helper/Program.cs:361-446 | the pressed flag, the lines and the verdict are those of the matcher specification |
| Helper.WhisperHelper.MatchKeyHotkey | helper/Program.cs:397-445 | the pressed flag, the lines and the verdict are those of the key matcher |
| MainProtocol.VkMapSingle | src/main.js:974-983 | the one-character keys of the shell's table are exactly the upper-case letters, the digits and the space, each mapped to its own character code |
| MainProtocol.VkMapSingleEntries | src/main.js:974-983 | a one-character key in the table is a letter, a digit or the space, and maps to its character code |
| MainProtocol.VkMapFirstLetters | src/main.js:975-977 | the letters A to M are in the table |
| MainProtocol.VkMapLastLetters | src/main.js:977-979 | the letters N to Z are in the table |
| MainProtocol.VkMapDigits | src/main.js:980-982 | the digits and the space are in the table |
| MainProtocol.VkMapLong | src/main.js:982 | the only longer key is "SPACE" |
| MainProtocol.JsVirtualKeyCodeAgrees | src/main.js:973-985 | the shell's `getVirtualKeyCode` and the desktop application's `GetVirtualKeyCode` agree on every ASCII key name |
| MainProtocol.NonAsciiKeysDisagree | src/main.js:973-985 | on a non-ASCII letter or digit of the Basic Multilingual Plane whose upper case is not ASCII (such as "é") the two disagree: the desktop application keeps the character's code, the shell falls back to 0x44 |
| MainProtocol.VkToSend | src/main.js:1087 | the code sent is never undefined: the stored code, or the one looked up from the key name |
| MainProtocol.JsVkText | src/main.js:1092 | the written key code contains no comma |
| MainProtocol.SetKeyLine | src/main.js:1084-1094 | the line starts with "setkey:" |
| MainProtocol.TryParseJsVk | helper/Program.cs:182 | the helper reads back exactly the key codes the shell writes that fit in 32 bits, and fails on "NaN" |
| MainProtocol.TryParseNaN | helper/Program.cs:182 | "NaN" does not parse as an integer |
| MainProtocol.SetKeyRoundTrip | src/main.js:1084-1094 | reading the shell's `setkey:` line, the helper takes over the four modifier flags and the key code (when it fits in 32 bits) and changes nothing else |
| MainProtocol.SetKeyLineFields | src/main.js:1092 | the fields of a `setkey:` line are the four 1/0 flags and the key code |
| MainProtocol.SplitFourFields | src/main.js:1092 | four comma-free fields at the front of a line split off one by one |
| MainProtocol.DefaultSetKeyLine | src/main.js:1084-1094 | the default Win+D hotkey goes out as "setkey:0,0,0,1,68" |
| MainProtocol.RecordedRoundTrip | src/main.js:1020-1032 | the shell parses a helper's `recorded:` line back to its flags, key code and combination text, even when that text contains commas |
| MainProtocol.ParseRecordedFields | src/main.js:1022-1032 | a `recorded:` line with six or more fields is read field by field, and the text is the rest joined with commas |
| MainProtocol.RecordedLineFields | helper/Program.cs:320-352 | the fields of a recorded line are the four flags, the key code and the pieces of the combination text |
| MainProtocol.SplitFiveFields | src/main.js:1022 | five comma-free fields at the front of a line split off one by one |
| MainProtocol.RecordedHotkeyReachesHelper | src/main.js:1020-1047 | a recorded combination travels through the shell and back: the shell stores the flags, the code and the label with the mode suffix, and its next `setkey:` line makes the helper require exactly the recorded modifiers and key |
| MainProtocol.RewriteDisplaySwapsSuffix | src/main.js:1364-1366 | a label without either suffix, carrying either one, comes out with exactly the suffix of the new mode |
| MainProtocol.ToggleTwiceRestoresDisplay | src/main.js:1358-1366 | switching the mode and switching it back restores the configuration and its display |
| Dictation.HotkeyActionSpec | src/WhisperVoice/ViewModels/MainViewModel.cs:70-94 | the press/release policy never starts a running recording nor stops a stopped one; in toggle mode every press acts and releases do nothing; in push-to-talk mode a press starts exactly when not recording and never stops, and a release stops exactly when recording and never starts |
| Dictation.RecordingFollowsSignals | src/WhisperVoice/ViewModels/MainViewModel.cs:70-94 | in push-to-talk mode the recording follows the key: after signals ending in a press it records, after one ending in a release it does not; in toggle mode an even number of presses restores the recording state |
| Dictation.NonEmptyCount | src/WhisperVoice/ViewModels/MainViewModel.cs:130 | the count of non-empty pieces is at most the number of pieces |
| Dictation.NonEmptyCountAll | src/WhisperVoice/ViewModels/MainViewModel.cs:130 | pieces that are all non-empty are all counted |
| Dictation.CountWordsOfWords | src/WhisperVoice/ViewModels/MainViewModel.cs:130 | words joined by single spaces count one each |
| Dictation.CountWordsLeadingSpace | src/WhisperVoice/ViewModels/MainViewModel.cs:130 | leading spaces add no words |
| Dictation.CappedHistorySpec | src/WhisperVoice/ViewModels/MainViewModel.cs:125-127 | the newest entry comes first, the older ones follow in order, at most 200 are kept, and only entries beyond the cap are dropped |
| Dictation.MainViewModel.constructor | src/WhisperVoice/ViewModels/MainViewModel.cs:38-59 | the hint, the totals and the model name come from the configuration; nothing is recording, processing or transcribing; the history is empty |
| Dictation.MainViewModel.SetFloatingBar | src/WhisperVoice/ViewModels/MainViewModel.cs:35 | only the floating bar reference changes: the flags, status, history, totals, last transcription and paste target stay |
| Dictation.MainViewModel.SyncBar | src/WhisperVoice/ViewModels/MainViewModel.cs:104-116 | the bar, when there is one, mirrors the recording and processing flags and the status |
| Dictation.MainViewModel.StartRecording | src/WhisperVoice/ViewModels/MainViewModel.cs:96-105 | during a transcription nothing changes; otherwise the controller records, the status says so, the bar mirrors it, and the paste target is the window the hotkey named, or the foreground window when it named none; either way the history, totals and last transcription stay |
| Dictation.MainViewModel.BeginStop | src/WhisperVoice/ViewModels/MainViewModel.cs:107-116 | unless a transcription is already running, the recording ends, processing begins and the bar mirrors it; a second stop during a transcription does nothing; the paste target, history, totals and last transcription always stay |
| Dictation.MainViewModel.AddToHistory | src/WhisperVoice/ViewModels/MainViewModel.cs:125-127 | the history becomes the capped history with the entry in front, and nothing else changes |
| Dictation.MainViewModel.CompleteStop | src/WhisperVoice/ViewModels/MainViewModel.cs:118-165 | a failed transcription only shows its error; a successful one becomes the last transcription and the newest history entry, adds one recording and its words to the totals (with 32-bit wrap-around) and writes them to the configuration, which raises one `ConfigChanged` (a failure raises none), then the status reads ready or shows the delivery error; processing always ends and the bar mirrors it |
| Dictation.MainViewModel.MicButtonClick | src/WhisperVoice/ViewModels/MainViewModel.cs:61-68 | while recording the button stops: processing starts, the status reads processing and the bar mirrors it; during a transcription it does nothing; otherwise it starts recording for the foreground window with the recording status, and the bar mirrors it; the history, totals and last transcription always stay |
| Dictation.MainViewModel.OnHotkeyPressed | src/WhisperVoice/ViewModels/MainViewModel.cs:70-85 | a press does what the policy says for the current mode: start (for the window the event named, with the recording status), stop (with the processing status), or nothing, in which case the recording, transcription and processing flags and the status stay; after acting the bar mirrors the controller, and the history, totals and last transcription always stay |
| Dictation.MainViewModel.OnHotkeyReleased | src/WhisperVoice/ViewModels/MainViewModel.cs:87-94 | a release stops a running recording in push-to-talk mode (the status reads processing and the bar mirrors it) and does nothing otherwise (the recording, transcription and processing flags and the status stay); the paste target, history, totals and last transcription always stay |
| FloatingBar.SyncedStatusSpec | src/WhisperVoice/ViewModels/FloatingBarViewModel.cs:41-43 | the bar shows the caller's text while busy and the idle text built from the hint otherwise; a status text that does not end in " to dictate" is shown exactly when the bar is busy |
| FloatingBar.FloatingBarViewModel.HotkeyInfo | src/WhisperVoice/ViewModels/FloatingBarViewModel.cs:27 | the hotkey line is the "Hotkey: " prefix followed by the hint |
| FloatingBar.FloatingBarViewModel.ModelInfo | src/WhisperVoice/ViewModels/FloatingBarViewModel.cs:28 | the model line is the "Model: " prefix followed by the model name |
| FloatingBar.FloatingBarViewModel.constructor | src/WhisperVoice/ViewModels/FloatingBarViewModel.cs:30-35 | the hint and the model come from the configuration, and the bar starts idle with the idle text |
| FloatingBar.FloatingBarViewModel.Sync | src/WhisperVoice/ViewModels/FloatingBarViewModel.cs:37-44 | both flags are copied, the status settles to the synced text, the hint and model stay, and the bar is idle exactly when neither flag is set |
| Notes.IndexOfId | src/WhisperVoice/ViewModels/NotesViewModel.cs:42 | the first position holding the id, or -1 exactly when no note has it |
| Notes.EditedNotesSpec | src/WhisperVoice/ViewModels/NotesViewModel.cs:40-47 | editing keeps the length and every other note, and changes only the text and edit time of the first note with the id; when the id is gone nothing changes |
| Notes.RemoveFirstSpec | src/WhisperVoice/ViewModels/NotesViewModel.cs:81 | removal takes out exactly one copy of a present note (one fewer, the same multiset less that note) and leaves the list alone otherwise |
| Notes.RemoveFirstCutsOne | src/WhisperVoice/ViewModels/NotesViewModel.cs:81 | removal keeps the order: the result is the list with the first occurrence cut out |
| Notes.MatchingMember | src/WhisperVoice/ViewModels/NotesViewModel.cs:100-101 | a note is shown exactly when it is in the list and its text contains the query, ignoring case |
| Notes.MatchingConcat | src/WhisperVoice/ViewModels/NotesViewModel.cs:100-101 | filtering keeps the order of the list |
| Notes.MatchingEmptyQuery | src/WhisperVoice/ViewModels/NotesViewModel.cs:98-99 | the empty-query shortcut shows what the filter would show |
| Notes.FilterNotesSpec | src/WhisperVoice/ViewModels/NotesViewModel.cs:94-104 | the filtered list is the ordered sublist of exactly the matching notes |
| Notes.NotesViewModel.constructor | src/WhisperVoice/ViewModels/NotesViewModel.cs:24-30 | the notes come from the configuration, and nothing is being edited or searched |
| Notes.NotesViewModel.SetSearchText | src/WhisperVoice/ViewModels/NotesViewModel.cs:32 | changing the search text refilters the list with the trimmed text |
| Notes.NotesViewModel.SaveNote | src/WhisperVoice/ViewModels/NotesViewModel.cs:34-60 | a blank editor does nothing; otherwise the edited note is updated, or a new note is put first, the editor is cleared, editing ends, and the list is persisted and refiltered, with one `ConfigChanged` for a non-blank save and none for a blank one |
| Notes.NotesViewModel.EditNote | src/WhisperVoice/ViewModels/NotesViewModel.cs:62-68 | the note's text goes into the editor and its id is remembered |
| Notes.NotesViewModel.CancelEdit | src/WhisperVoice/ViewModels/NotesViewModel.cs:70-76 | editing ends with an empty editor |
| Notes.NotesViewModel.DeleteNote | src/WhisperVoice/ViewModels/NotesViewModel.cs:78-87 | the note is removed, editing ends when it was the note being edited, and the list is persisted (one `ConfigChanged`) and refiltered |
| Notes.NotesViewModel.PersistNotes | src/WhisperVoice/ViewModels/NotesViewModel.cs:89-92 | the configuration gets the current list, its other settings stay, and `ConfigChanged` is raised once with the new record |
| Notes.NotesViewModel.ApplyFilter | src/WhisperVoice/ViewModels/NotesViewModel.cs:94-104 | the filtered list becomes the notes matching the trimmed search text, in order |
| Release.ParseBumpTypeSpec | release.js:5-14 | the default is a patch release, exactly "patch", "minor" and "major" are accepted, each selects its own bump, and anything else is refused with the usage message |
| Release.Numbers | release.js:22 | one number per piece, each the `Number` of its piece, in order |
| Release.Texts | release.js:26 | one text per part, each the text `join` writes for it, in order |
| Release.BumpVersion | release.js:21-26 | the new version is the one the bump specification gives for the old version string |
| Release.ToNumberOfNat | release.js:22 | `Number` reads a decimal numeral back as its value |
| Release.VersionTextSplit | release.js:22 | a plain version splits on "." into its three numerals |
| Release.BumpPlainVersion | release.js:21-26 | bumping a plain "a.b.c" gives the plain text of the next version: patch increments c, minor increments b and zeroes c, major increments a and zeroes b and c |
| Release.BumpedTexts | release.js:23-26 | the bumped parts, written out, are the numerals of the next version |
| Release.JoinThree | release.js:26 | three parts joined with "." |
| Release.BumpExamples | release.js:10-12 | the script's usage examples: 1.0.0 becomes 1.0.1, 1.1.0 or 2.0.0 |
| Release.SmallNumerals | release.js:10-12 | the numerals of 0, 1 and 2 |
| CudaIndex.IndexUrl | src/main.js:580-581 | an index URL is the PyTorch wheel base followed by the tag "cu<major><minor>" |
| CudaIndex.UrlsConcat | src/main.js:581 | the URLs of a concatenation are the URLs of its parts, in order |
| CudaIndex.GenerateCudaIndexCandidates | src/main.js:567-586 | the nested loops produce exactly the URLs of the candidate list |
| CudaIndex.PushRow | src/main.js:576-581 | the inner loop appends the URLs of one major's minors, from the start minor down to the end minor, in that order |
| CudaIndex.RowMember | src/main.js:577-582 | a row holds exactly its major's minors from the start minor down to the end minor |
| CudaIndex.RowsMember | src/main.js:573-583 | the rows from a major down to 11 hold exactly the versions between 11.8 and the start, minors 0 to 9 below the detected major |
| CudaIndex.CandidatesMember | src/main.js:567-586 | a version is a candidate exactly when it lies between 11.8 and the detected version, with minors above 9 only for the detected major |
| CudaIndex.DescendingConcat | src/main.js:573-583 | two descending lists whose boundary descends make a descending list |
| CudaIndex.RowDescending | src/main.js:577 | a row is listed newest first |
| CudaIndex.RowsDescending | src/main.js:573 | the rows are listed newest first |
| CudaIndex.CandidatesDescending | src/main.js:566-586 | the candidates are listed newest first, without repetition |
| CudaIndex.CandidatesEnds | src/main.js:573-575 | there is no candidate below 11.8; otherwise the list starts at the detected version and ends at 11.8 |
| CudaIndex.FirstAvailable | src/main.js:597-605 | the probe returns a listed URL that answers, and nothing exactly when none answers |
| CudaIndex.PytorchCudaIndexUrlAsync | src/main.js:589-610 | no version gives no index; otherwise the first candidate whose index answers, and cu118 when none does |
| CudaIndex.FirstAvailableNewest | src/main.js:597-605 | on a newest-first list, the probe finds the newest version whose index answers |
| CudaIndex.TableBuild | src/main.js:620-636 | the fixed table's choice is one of its six known builds |
| CudaIndex.NatToStringLength | src/main.js:580 | numerals below 10 have one digit, and those from 10 to 99 have two |
| CudaIndex.IndexUrlInjective | src/main.js:580-581 | for majors from 10 to 99 and one-digit minors, no two versions share an index URL |
| CudaIndex.KnownUrls | src/main.js:622-635 | the six literal URLs of the fixed table are the index URLs of cu130, cu128, cu126, cu124, cu121 and cu118 |
| CudaIndex.KnownIndexUrl | src/main.js:622-635 | a candidate's index is one of the table's exactly when it is a known build |
| CudaIndex.TableMatchesProbe | src/main.js:612-637 | the fixed table and the probing loop pick the same index for every detected version, when the known builds are exactly the indexes that answer |
| CudaIndex.ProbeFindsTableBuild | src/main.js:589-637 | when the table's build is a candidate, the probe finds it first |
| CudaIndex.ProbeFindsNothing | src/main.js:589-637 | when the table's build is not a candidate, the table falls back to 11.8 and the probe finds no known index |
| PackageVersions.MatchBase | src/main.js:1723 | a match has three digit groups, the first two non-empty |
| PackageVersions.GetBaseVersion | src/main.js:1720-1728 | the base version always has three numbers |
| PackageVersions.IsUpdateAvailable | src/main.js:1731-1745 | the loop answers whether both versions are present, the installed one is not a nightly build, and its base version is lexicographically below the latest one's |
| PackageVersions.LexLessStrictOrder | src/main.js:1740-1744 | the comparison is a strict total order: irreflexive, asymmetric, transitive and total |
| PackageVersions.NoUpdateToSelfOrFromNightly | src/main.js:1732-1744 | a version is never an update of itself, and a nightly installation is never offered an update |
| PackageVersions.UpdateOneWay | src/main.js:1731-1745 | of two present, non-nightly versions with different base versions, exactly one direction offers an update |
| PackageVersions.DigitPrefixStops | src/main.js:1723 | a run of digits ends at the first character that is not a digit |
| PackageVersions.MatchBaseParts | src/main.js:1723 | the match of "d1.d2" followed by a non-digit: the two runs and the digits after an optional dot |
| PackageVersions.MatchBaseOf | src/main.js:1723 | the match consists of the two digit runs found at the front, with a dot between them, and the digits after an optional dot |
| PackageVersions.BaseOfThreeNumbers | src/main.js:1720-1728 | "a.b.c" followed by anything not starting with a digit (such as ".dev20260107+cu126") has base version [a, b, c] |
| PackageVersions.BaseOfTwoNumbers | src/main.js:1725 | "a.b" reads its missing third number as 0 |
| PackageVersions.BaseOfMatch | src/main.js:1724-1725 | a matching version's base is its three groups read as numbers, with an empty group read as 0 |
| PackageVersions.NumeralValue | src/main.js:1725 | `parseInt(d) \|\| 0` of a decimal numeral is its value |
| PackageVersions.BaseOfNonMatching | src/main.js:1727 | a version that does not start with a digit has base version [0, 0, 0] |
| PackageVersions.ContainsFirstChar | src/main.js:1716 | a string containing a pattern contains the pattern's first character |
| PackageVersions.ContainsInside | src/main.js:1716 | a string contains whatever is placed inside it |
| PackageVersions.PlainVersionNotNightly | src/main.js:1714-1717 | a plain "a.b.c" release is not a nightly build |
| PackageVersions.NightlyMarkers | src/main.js:1714-1717 | a version with a "+" or "dev" anywhere in it is a nightly build |
| PushToTalk.Track | src/main.js:1186-1243 | each of the Ctrl, Shift and Alt flags follows the event's direction when the code is that modifier's left or right key and stays otherwise; the key flag does the same for the configured key (a present, non-zero code); an event for any other key changes nothing, and the Win flag is never touched |
| PushToTalk.TrackIdempotent | src/main.js:1184-1201 | a repeated event for the same key (auto-repeat) changes the flags no further |
| PushToTalk.ShellHotkeys.constructor | src/main.js:48-58 | the globals start with nothing held, the trigger latch open, and not recording |
| PushToTalk.ShellHotkeys.StartRecording | src/main.js:1269-1275 | a no-op while recording; otherwise it records and sends one start message |
| PushToTalk.ShellHotkeys.StopRecording | src/main.js:1277-1283 | a no-op while not recording; otherwise it stops and sends one stop message |
| PushToTalk.ShellHotkeys.TrackKey | src/main.js:1186-1243 | the key flags become those of the tracking specification, and nothing else changes |
| PushToTalk.ShellHotkeys.OnKeyDown | src/main.js:1184-1223 | the new state and the messages sent are those of the key-down specification |
| PushToTalk.ShellHotkeys.OnKeyUp | src/main.js:1226-1262 | the new state and the messages sent are those of the key-up specification |
| PushToTalk.ShellHotkeys.OnHelperMessage | src/main.js:999-1017 | a `keydown` or `keyup` line from the helper changes the recording as the desktop controller's press/release policy says; exactly one message is sent when the recording changes, `start-recording` when it starts and `stop-recording` when it stops, and none otherwise; other lines change nothing |
| PushToTalk.ShellHotkeys.RecordingComplete | src/main.js:1410-1413 | the recording flag is cleared, and nothing else changes |
| PushToTalk.MissingKeyIsNotAllPressed | src/main.js:1204-1250 | `missingKey` is exactly the negation of `allPressed` |
| PushToTalk.LatchStaysValid | src/main.js:1184-1262 | under fixed settings, key-downs and key-ups keep the trigger latch closed only while the whole hotkey is down |
| PushToTalk.KeyDownLatch | src/main.js:1210-1223 | a key-down with the latch closed keeps it closed and neither starts, stops nor sends anything |
| PushToTalk.FiresAtMostOnce | src/main.js:1210-1223 | holding keys (auto-repeat included) fires the hotkey at most once, and not at all once it has fired, until a key-up opens the latch |
| PushToTalk.KeyUpEffect | src/main.js:1245-1262 | a key-up opens the latch exactly when part of the hotkey is up; in push-to-talk mode it then stops a running recording; no key-up ever starts one |
| PushToTalk.FiringEffect | src/main.js:1210-1223 | when the hotkey fires, toggle mode flips the recording and push-to-talk mode makes it record, with one message exactly when the state changes |
| PushToTalk.StartStopIdempotent | src/main.js:1269-1283 | starting and stopping twice is the same as once, and a message is sent exactly when the state changes |

## Left out

- Native Windows calls are not modelled. This covers hook installation and removal (`SetWindowsHookExW`, `UnhookWindowsHookEx`), `CallNextHookEx`, the helper's message loop, the clipboard, synthetic key presses, focus forcing and the settle delays. `GetForegroundWindow` is an input, and passing an event on is the `Forward` answer.
- Sockets, processes and framing are left out. This covers the helper's TCP connection, its reader and writer, the shell's server, `spawn`/`execSync`, and how received data is trimmed and split into lines. The protocol functions work on one line each.
- Audio capture, the Whisper engines, the Python scripts and GPU probing are left out. A transcription is an input `Result`, and the detected CUDA version is an input. The HTTPS probe of an index is modelled as the set of index URLs that answer.
- `nvidia-smi` parsing (`detectCudaVersion`), pip calls and downloads are left out. The installed and latest package versions are inputs.
- File I/O is left out: the configuration file, `package.json` and the model files. `JsonConfigService` takes the parsed file as an `Option` input, and `SaveInternal`'s write and lock are not modelled. The `ConfigChanged` event is a ghost trace of the records passed to it; its subscribers are not modelled. The same holds for `ModelManager.IsModelDownloaded`, which checks a file, and `DownloadModelAsync`, which streams from the network.
- Thread safety is not modelled: the configuration lock and the dispatcher posts and awaits of `MainViewModel`. `StopAndTranscribeAsync` is split at its `await` into `BeginStop` and `CompleteStop`.
- The renderer window, the floating-bar window, the tray and menus, `saveConfig` and console logging of the shell are left out. What the shell sends to the renderer is a ghost trace of messages.
- The GUI views, settings, setup and donate pages, the theme tables and `Dispose` methods are left out, because they are GUI wiring.
- The uiohook key table (`UiohookKey` and `getKeyCode`) is not modelled. The modifier codes and the configured key's code are inputs of the shell's handlers.
- HotkeyService.Win32HotkeyService: the twelve boolean fields `_ctrlPressed` … `_recordWin` are held as three `Mods` records (live, required, captured), one flag per modifier, with the same meaning field for field.
- ModelManager.GetModelPath: `Path.GetFullPath` is taken as the identity. The models directory and the combined path are taken to be already in full form, so `..` segments are not resolved; the separator check on the name still rejects every name that contains one.
- ConfigService.SanitizedModel: case-insensitive comparison folds ASCII letters only. The same holds for `Text.UpperAscii`, `ConfigService.MemberIgnoreCase`, the notes search (`Text.ContainsIgnoreCase`) and the shell's key-name lookup. The .NET and JavaScript invariant-culture folding of other letters is not modelled.
- KeyNames.GetVirtualKeyCode: the culture's `ToUpperInvariant`, `char.ToUpper` and `char.IsLetterOrDigit` tables are inputs (`CharTables`). The ASCII lemmas assume only that they treat ASCII as ASCII (`AsciiRules`), which a Turkish current culture does not, because it maps "i" to "İ". A Dafny string holds Unicode scalar values, so the tables are read per scalar value rather than per UTF-16 unit; `key.Length == 1` is modelled by `IsOneUtf16Unit`.
- MainProtocol.JsGetVirtualKeyCode: JavaScript `toUpperCase` folds ASCII letters only here, so "ı" (dotless i, which JavaScript upper-cases to "I") and "ſ" (long s, upper-cased to "S") fall back to 0x44 instead of giving 0x49 and 0x53.
- MainProtocol.FromCharCode: a lone UTF-16 surrogate unit gives the empty string, because a Dafny `char` cannot hold it.
- Text.JsParseInt: only decimal digits and the `0x` prefix are read, with exact integers. Floating-point rounding of very long numerals is not modelled. The same holds for the other JavaScript `Number` forms (hexadecimal, fractions, exponents, `Infinity`) in `Release.ToNumber`: they become NaN here.
- Release.BumpVersion: requires at least three dot-separated parts. For a shorter version the script writes past the end of its array (`undefined++` gives NaN), and that is not modelled.
- Dictation.MainViewModel.CompleteStop: requires a transcription to be running, because it is the continuation of `BeginStop` after the `await`, and only `BeginStop` starts one.
- CudaIndex.IndexUrlInjective: proved only for a two-digit major and a one-digit minor on one side, because other tags collide (CUDA 12.10 and 121.0 both give `cu1210`).
- Release.BumpExamples: the script's usage examples are stated on `Version` values. `BumpPlainVersion` carries them over to strings.
- The ready-with-hint status text uses an em dash. The copy of `Strings.cs` shows that character garbled.
- PushToTalk.ShellHotkeys: the transcription handler's and `recording-complete` handler's clearing of `isRecording` is `RecordingComplete`. Their messages to the renderer and the floating bar are left out. The `win` flag of `keysPressed` is never set by the handlers, and so it is never set here.
- Helper.WhisperHelper.ProcessMessage: `quit` is reported to the caller, and ending the process is left out.
