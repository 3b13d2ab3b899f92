/** The Electron shell's side of the helper protocol and the pure hotkey rules of the shell: the
    key-name table, the `setkey:` line it writes, the `recorded:` line it parses, what a recorded
    hotkey does to the shell's configuration, and the " (halten)"/" (tippen)" display suffix.
    JavaScript values that matter here are modelled explicitly: a key code can be a number, NaN
    (from a failed `parseInt`) or undefined (in a configuration written before key codes were
    stored). Line framing on the socket (the trailing newline, splitting and trimming of received
    data) is left out: the functions work on one line. */
module MainProtocol {
  import opened Wrappers
  import opened Text
  import opened Keys
  import opened KeyNames
  import opened Models
  import opened HotkeyService
  import opened Helper

  // ---------------------------------------------------------------- key names

  /** The `vkMap` table of `getVirtualKeyCode`. */
  const VkMap: map<string, int> := map[
    "A" := 0x41, "B" := 0x42, "C" := 0x43, "D" := 0x44, "E" := 0x45, "F" := 0x46,
    "G" := 0x47, "H" := 0x48, "I" := 0x49, "J" := 0x4A, "K" := 0x4B, "L" := 0x4C,
    "M" := 0x4D, "N" := 0x4E, "O" := 0x4F, "P" := 0x50, "Q" := 0x51, "R" := 0x52,
    "S" := 0x53, "T" := 0x54, "U" := 0x55, "V" := 0x56, "W" := 0x57, "X" := 0x58,
    "Y" := 0x59, "Z" := 0x5A,
    "0" := 0x30, "1" := 0x31, "2" := 0x32, "3" := 0x33, "4" := 0x34,
    "5" := 0x35, "6" := 0x36, "7" := 0x37, "8" := 0x38, "9" := 0x39,
    " " := 0x20, "SPACE" := 0x20]

  /** `vkMap[key.toUpperCase()] || 0x44`. */
  function JsGetVirtualKeyCode(key: string): int
  {
    var upper := UpperAscii(key);
    if upper in VkMap then VkMap[upper] else DefaultHotkeyVkCode
  }

  /** The single-character entries of the table: exactly the upper-case letters, the digits and
      the space, each mapped to its own character code. */
  lemma VkMapSingle(c: char)
    ensures [c] in VkMap <==> 'A' <= c <= 'Z' || '0' <= c <= '9' || c == ' '
    ensures [c] in VkMap ==> VkMap[[c]] == c as int
  {
    if [c] in VkMap {
      VkMapSingleEntries(c);
    }
    if 'A' <= c <= 'M' {
      VkMapFirstLetters(c);
    } else if 'N' <= c <= 'Z' {
      VkMapLastLetters(c);
    } else if '0' <= c <= '9' || c == ' ' {
      VkMapDigits(c);
    }
  }

  lemma VkMapSingleEntries(c: char)
    requires [c] in VkMap
    ensures 'A' <= c <= 'Z' || '0' <= c <= '9' || c == ' '
    ensures VkMap[[c]] == c as int
  {
  }

  lemma VkMapFirstLetters(c: char)
    requires 'A' <= c <= 'M'
    ensures [c] in VkMap
  {
    if c == 'A' {
      assert [c] == "A";
    }
    else if c == 'B' {
      assert [c] == "B";
    }
    else if c == 'C' {
      assert [c] == "C";
    }
    else if c == 'D' {
      assert [c] == "D";
    }
    else if c == 'E' {
      assert [c] == "E";
    }
    else if c == 'F' {
      assert [c] == "F";
    }
    else if c == 'G' {
      assert [c] == "G";
    }
    else if c == 'H' {
      assert [c] == "H";
    }
    else if c == 'I' {
      assert [c] == "I";
    }
    else if c == 'J' {
      assert [c] == "J";
    }
    else if c == 'K' {
      assert [c] == "K";
    }
    else if c == 'L' {
      assert [c] == "L";
    }
    else {
      assert c == 'M' && [c] == "M";
    }
  }

  lemma VkMapLastLetters(c: char)
    requires 'N' <= c <= 'Z'
    ensures [c] in VkMap
  {
    if c == 'N' {
      assert [c] == "N";
    }
    else if c == 'O' {
      assert [c] == "O";
    }
    else if c == 'P' {
      assert [c] == "P";
    }
    else if c == 'Q' {
      assert [c] == "Q";
    }
    else if c == 'R' {
      assert [c] == "R";
    }
    else if c == 'S' {
      assert [c] == "S";
    }
    else if c == 'T' {
      assert [c] == "T";
    }
    else if c == 'U' {
      assert [c] == "U";
    }
    else if c == 'V' {
      assert [c] == "V";
    }
    else if c == 'W' {
      assert [c] == "W";
    }
    else if c == 'X' {
      assert [c] == "X";
    }
    else if c == 'Y' {
      assert [c] == "Y";
    }
    else {
      assert c == 'Z' && [c] == "Z";
    }
  }

  lemma VkMapDigits(c: char)
    requires '0' <= c <= '9' || c == ' '
    ensures [c] in VkMap
  {
    if c == '0' {
      assert [c] == "0";
    }
    else if c == '1' {
      assert [c] == "1";
    }
    else if c == '2' {
      assert [c] == "2";
    }
    else if c == '3' {
      assert [c] == "3";
    }
    else if c == '4' {
      assert [c] == "4";
    }
    else if c == '5' {
      assert [c] == "5";
    }
    else if c == '6' {
      assert [c] == "6";
    }
    else if c == '7' {
      assert [c] == "7";
    }
    else if c == '8' {
      assert [c] == "8";
    }
    else if c == ' ' {
      assert [c] == " ";
    }
    else {
      assert c == '9' && [c] == "9";
    }
  }

  /** On ASCII key names the shell's table and the desktop application's `GetVirtualKeyCode`
      agree: space under either spelling, a single letter or digit in either case, and D
      otherwise. */
  lemma JsVirtualKeyCodeAgrees(t: CharTables, key: string)
    requires AsciiRules(t) && AllAscii(key)
    ensures JsGetVirtualKeyCode(key) == GetVirtualKeyCode(t, key)
  {
    var upper := UpperAscii(key);
    UpperInvariantOfAscii(t, key);
    if |key| == 1 {
      assert IsAscii(key[0]);
      assert upper == [AsciiUpper(key[0])];
      VkMapSingle(AsciiUpper(key[0]));
    } else {
      VkMapLong(upper);
    }
  }

  /** Outside ASCII the two lookups part: a single letter or digit of the Basic Multilingual Plane
      whose upper case is not ASCII
      (such as "é", whose upper case "É" is not in the shell's table) is its own code on the
      desktop and D in the shell. */
  lemma NonAsciiKeysDisagree(t: CharTables, c: char)
    requires t.isLetterOrDigit(c) && !IsAscii(c) && c as int < 0x10000 && t.upperInvariant(c) != ' ' && !IsAscii(t.upper(c))
    ensures GetVirtualKeyCode(t, [c]) == t.upper(c) as int
    ensures JsGetVirtualKeyCode([c]) == DefaultHotkeyVkCode != GetVirtualKeyCode(t, [c])
  {
    assert [c][0] == c;
    assert UpperAscii([c]) == [c];
    VkMapSingle(c);
  }

  /** The only longer entry is "SPACE". */
  lemma VkMapLong(u: string)
    requires |u| != 1
    ensures u in VkMap <==> u == "SPACE"
  {
  }

  // ---------------------------------------------------------------- the setkey: line

  /** A JavaScript key code: a number, NaN, or absent. */
  datatype JsVk = Undefined | NaN | Num(value: int)

  /** `CONFIG.hotkey` in the shell. */
  datatype JsHotkey = JsHotkey(ctrl: bool, shift: bool, alt: bool, win: bool, key: string, vkCode: JsVk)

  /** `CONFIG.hotkey.vkCode !== undefined ? CONFIG.hotkey.vkCode : getVirtualKeyCode(CONFIG.hotkey.key)`. */
  function VkToSend(h: JsHotkey): (v: JsVk)
    ensures !v.Undefined?
  {
    if h.vkCode.Undefined? then Num(JsGetVirtualKeyCode(h.key)) else h.vkCode
  }

  /** How a template string writes a key code. */
  function JsVkText(v: JsVk): (s: string)
    ensures ',' !in s
  {
    match v
    case Undefined => "undefined"
    case NaN => "NaN"
    case Num(n) => IntToString(n)
  }

  /** The line `sendHotkeyToHelper` writes: `setkey:c,s,a,w,vk` with 1/0 flags. */
  function SetKeyLine(h: JsHotkey): (line: string)
    ensures StartsWith(line, SetKeyPrefix)
  {
    SetKeyPrefix + Flag(h.ctrl) + "," + Flag(h.shift) + "," + Flag(h.alt) + "," + Flag(h.win) + ","
    + JsVkText(VkToSend(h))
  }

  /** The helper's key code after reading a key code the shell sent: a number in the 32-bit
      range replaces it, NaN or a number out of range leaves it. */
  function HelperVkAfter(previous: int, v: JsVk): int
  {
    if v.Num? && Int32Min <= v.value <= Int32Max then v.value else previous
  }

  /** `Int32.TryParse` reads back exactly the numbers a template string writes that fit 32 bits,
      and fails on "NaN". */
  lemma TryParseJsVk(v: JsVk)
    requires !v.Undefined?
    ensures TryParseInt32(JsVkText(v)) == if v.Num? && Int32Min <= v.value <= Int32Max then Some(v.value) else None
  {
    if v.Num? {
      TryParseIntToString(v.value);
    } else {
      TryParseNaN();
    }
  }

  lemma TryParseNaN()
    ensures TryParseInt32("NaN") == None
  {
    assert !IsNumberWhite('N');
    assert TrimNumberWhite("NaN") == "NaN";
    assert !IsDigit("NaN"[0]);
  }

  /** The helper, reading the line the shell writes for a hotkey, takes over the four modifier
      flags and the key code (when it is a 32-bit number) and changes nothing else. */
  lemma SetKeyRoundTrip(s: ServiceState, h: JsHotkey)
    ensures ProcessMessageSpec(s, SetKeyLine(h)) ==
      s.(required := Mods(h.ctrl, h.shift, h.alt, h.win), hotkeyVk := HelperVkAfter(s.hotkeyVk, VkToSend(h)))
  {
    SetKeyLineFields(h);
    TryParseJsVk(VkToSend(h));
  }

  /** The fields of the line after its prefix are the four flags and the key code. */
  lemma SetKeyLineFields(h: JsHotkey)
    ensures Split(SetKeyLine(h)[|SetKeyPrefix|..], ',') ==
      [Flag(h.ctrl), Flag(h.shift), Flag(h.alt), Flag(h.win), JsVkText(VkToSend(h))]
  {
    var P, k := SetKeyPrefix, |SetKeyPrefix|;
    var c, sh, a, w := Flag(h.ctrl), Flag(h.shift), Flag(h.alt), Flag(h.win);
    var vkText := JsVkText(VkToSend(h));
    assert P[k..] + c == c;
    DropFront(P, c, k);
    DropFront(P + c, ",", k);
    DropFront(P + c + ",", sh, k);
    DropFront(P + c + "," + sh, ",", k);
    DropFront(P + c + "," + sh + ",", a, k);
    DropFront(P + c + "," + sh + "," + a, ",", k);
    DropFront(P + c + "," + sh + "," + a + ",", w, k);
    DropFront(P + c + "," + sh + "," + a + "," + w, ",", k);
    DropFront(P + c + "," + sh + "," + a + "," + w + ",", vkText, k);
    assert SetKeyLine(h)[k..] == c + "," + sh + "," + a + "," + w + "," + vkText;
    SplitFourFields(c, sh, a, w, vkText);
    SplitNone(vkText, ',');
  }

  /** Dropping a front part of a string before appending to it. */
  lemma DropFront(x: string, y: string, k: nat)
    requires k <= |x|
    ensures (x + y)[k..] == x[k..] + y
  {
  }

  /** Four comma-free fields at the front of a line split off one by one. */
  lemma SplitFourFields(a: string, b: string, c: string, d: string, rest: string)
    requires ',' !in a && ',' !in b && ',' !in c && ',' !in d
    ensures Split(a + "," + b + "," + c + "," + d + "," + rest, ',') == [a, b, c, d] + Split(rest, ',')
  {
    var r3 := d + [','] + rest;
    var r2 := c + [','] + r3;
    var r1 := b + [','] + r2;
    assert a + "," + b + "," + c + "," + d + "," + rest == a + [','] + r1;
    SplitPrefix(d, ',', rest);
    SplitPrefix(c, ',', r3);
    SplitPrefix(b, ',', r2);
    SplitPrefix(a, ',', r1);
  }

  /** The default hotkey (Win+D, key code 0x44) goes out as `setkey:0,0,0,1,68`; once the key code
      is stored, the key name plays no part in the line. */
  lemma DefaultSetKeyLine(key: string)
    ensures SetKeyLine(JsHotkey(false, false, false, true, key, Num(0x44))) == "setkey:0,0,0,1,68"
  {
    var h := JsHotkey(false, false, false, true, key, Num(0x44));
    assert JsVkText(VkToSend(h)) == "68" by {
      assert NatToString(6) == [DigitChar(6)] == "6";
      assert DigitChar(8) == '8';
      assert NatToString(0x44) == "68";
    }
    assert Flag(false) == "0" && Flag(true) == "1";
  }

  // ---------------------------------------------------------------- the recorded: line

  /** What the shell takes from a `recorded:` line. */
  datatype RecordedHotkey = RecordedHotkey(
    ctrl: bool, shift: bool, alt: bool, win: bool, key: string, vkCode: JsVk, display: string)

  /** `parseInt(s)`, with NaN for a failure. */
  function ParseVk(s: string): JsVk
  {
    match JsParseInt(s)
    case None => NaN
    case Some(n) => Num(n)
  }

  /** `String.fromCharCode(v)`: the UTF-16 code unit `v` modulo 2^16 (NaN gives 0). A lone
      surrogate unit has no character of its own here and gives the empty string. */
  function FromCharCode(v: JsVk): string
  {
    var unit := if v.Num? then v.value % 0x1_0000 else 0;
    if 0xD800 <= unit <= 0xDFFF then "" else [unit as char]
  }

  /** The `recorded:` branch of the socket handler: at least six comma fields after the prefix;
      each flag is set exactly when its field is "1"; key and key code come from `parseInt` of
      the fifth field; the display is the rest of the line, commas included. */
  function ParseRecorded(msg: string): Option<RecordedHotkey>
  {
    if !StartsWith(msg, RecordedPrefix) then None
    else
      var parts := Split(msg[|RecordedPrefix|..], ',');
      if |parts| < 6 then None
      else
        var vk := ParseVk(parts[4]);
        Some(RecordedHotkey(parts[0] == "1", parts[1] == "1", parts[2] == "1", parts[3] == "1",
                            FromCharCode(vk), vk, Join(",", parts[5..])))
  }

  /** A line the helper sends parses back to the flags, the key code and the combination text it
      was built from, even when that text contains commas. */
  lemma RecordedRoundTrip(flags: Mods, vk: int, combo: string)
    ensures ParseRecorded(RecordedLine(flags, vk, combo)) ==
      Some(RecordedHotkey(flags.ctrl, flags.shift, flags.alt, flags.win, FromCharCode(Num(vk)), Num(vk), combo))
  {
    var line := RecordedLine(flags, vk, combo);
    RecordedLineFields(flags, vk, combo);
    var parts := Split(line[|RecordedPrefix|..], ',');
    assert parts[0] == parts[..5][0] && parts[1] == parts[..5][1] && parts[2] == parts[..5][2];
    assert parts[3] == parts[..5][3] && parts[4] == parts[..5][4];
    JsParseIntToString(vk);
    JoinSplit(combo, ',');
    ParseRecordedFields(line, parts);
  }

  /** `ParseRecorded` on a line with the prefix and at least six fields, field by field. */
  lemma ParseRecordedFields(msg: string, parts: seq<string>)
    requires StartsWith(msg, RecordedPrefix) && parts == Split(msg[|RecordedPrefix|..], ',') && |parts| >= 6
    ensures ParseRecorded(msg) ==
      Some(RecordedHotkey(parts[0] == "1", parts[1] == "1", parts[2] == "1", parts[3] == "1",
                          FromCharCode(ParseVk(parts[4])), ParseVk(parts[4]), Join(",", parts[5..])))
  {
  }

  /** The fields of a recorded line after its prefix: the four flags, the key code, and the
      pieces of the combination text. */
  lemma RecordedLineFields(flags: Mods, vk: int, combo: string)
    ensures var parts := Split(RecordedLine(flags, vk, combo)[|RecordedPrefix|..], ',');
      |parts| >= 6 && parts[..5] == [Flag(flags.ctrl), Flag(flags.shift), Flag(flags.alt), Flag(flags.win), IntToString(vk)] &&
      parts[5..] == Split(combo, ',')
  {
    var P, k := RecordedPrefix, |RecordedPrefix|;
    var c, s, a, w, v := Flag(flags.ctrl), Flag(flags.shift), Flag(flags.alt), Flag(flags.win), IntToString(vk);
    assert P[k..] + c == c;
    DropFront(P, c, k);
    DropFront(P + c, ",", k);
    DropFront(P + c + ",", s, k);
    DropFront(P + c + "," + s, ",", k);
    DropFront(P + c + "," + s + ",", a, k);
    DropFront(P + c + "," + s + "," + a, ",", k);
    DropFront(P + c + "," + s + "," + a + ",", w, k);
    DropFront(P + c + "," + s + "," + a + "," + w, ",", k);
    DropFront(P + c + "," + s + "," + a + "," + w + ",", v, k);
    DropFront(P + c + "," + s + "," + a + "," + w + "," + v, ",", k);
    DropFront(P + c + "," + s + "," + a + "," + w + "," + v + ",", combo, k);
    var body := c + "," + s + "," + a + "," + w + "," + v + "," + combo;
    assert RecordedLine(flags, vk, combo)[k..] == body;
    SplitFiveFields(c, s, a, w, v, combo);
  }

  /** Five comma-free fields at the front of a line split off one by one. */
  lemma SplitFiveFields(a: string, b: string, c: string, d: string, e: string, rest: string)
    requires ',' !in a && ',' !in b && ',' !in c && ',' !in d && ',' !in e
    ensures Split(a + "," + b + "," + c + "," + d + "," + e + "," + rest, ',') == [a, b, c, d, e] + Split(rest, ',')
  {
    var r4 := e + [','] + rest;
    assert a + "," + b + "," + c + "," + d + "," + e + "," + rest == a + "," + b + "," + c + "," + d + "," + r4;
    SplitFourFields(a, b, c, d, r4);
    SplitPrefix(e, ',', rest);
  }

  // ---------------------------------------------------------------- the shell's configuration

  const HoldSuffix: string := " (halten)"
  const TapSuffix: string := " (tippen)"

  /** The suffix that tells the user how to use the hotkey: tap in toggle mode, hold otherwise. */
  function ModeSuffix(toggleMode: bool): string
  {
    if toggleMode then TapSuffix else HoldSuffix
  }

  /** The part of the shell's `CONFIG` these rules touch. */
  datatype JsConfig = JsConfig(toggleMode: bool, hotkey: JsHotkey, hotkeyDisplay: string)

  /** What a parsed `recorded:` line does to `CONFIG`: the new hotkey, and the display with the
      suffix of the current mode. */
  function ApplyRecorded(config: JsConfig, r: RecordedHotkey): JsConfig
  {
    config.(hotkey := JsHotkey(r.ctrl, r.shift, r.alt, r.win, r.key, r.vkCode),
            hotkeyDisplay := r.display + ModeSuffix(config.toggleMode))
  }

  /** The socket handler for one line that starts with `recorded:`; a line it cannot parse
      changes nothing. */
  function HandleRecordedMessage(config: JsConfig, msg: string): JsConfig
  {
    match ParseRecorded(msg)
    case None => config
    case Some(r) => ApplyRecorded(config, r)
  }

  /** A combination recorded by the helper travels through the shell and back: the shell stores
      the flags, the key code and the label with the mode suffix, and the `setkey:` line it then
      sends makes the helper require exactly the recorded modifiers and key. */
  lemma RecordedHotkeyReachesHelper(config: JsConfig, s: ServiceState, flags: Mods, vk: int, combo: string)
    requires Int32Min <= vk <= Int32Max
    ensures var config' := HandleRecordedMessage(config, RecordedLine(flags, vk, combo));
      config'.hotkey.vkCode == Num(vk) &&
      Mods(config'.hotkey.ctrl, config'.hotkey.shift, config'.hotkey.alt, config'.hotkey.win) == flags &&
      config'.hotkeyDisplay == combo + ModeSuffix(config.toggleMode) &&
      config'.toggleMode == config.toggleMode &&
      ProcessMessageSpec(s, SetKeyLine(config'.hotkey)) == s.(required := flags, hotkeyVk := vk)
  {
    RecordedRoundTrip(flags, vk, combo);
    var config' := HandleRecordedMessage(config, RecordedLine(flags, vk, combo));
    SetKeyRoundTrip(s, config'.hotkey);
  }

  /** The display rewrite after a toggle-mode change: the first " (halten)" and then the first
      " (tippen)" are removed, and the suffix of the new mode is appended. */
  function RewriteDisplay(display: string, toggleMode: bool): string
  {
    ReplaceFirst(ReplaceFirst(display, HoldSuffix, ""), TapSuffix, "") + ModeSuffix(toggleMode)
  }

  /** `update-config` for its effect on the mode and the display: the display is rewritten only
      when a new mode is given and differs from the current one. */
  function UpdateToggleMode(config: JsConfig, newToggleMode: Option<bool>): JsConfig
  {
    if newToggleMode.Some? && newToggleMode.value != config.toggleMode then
      config.(toggleMode := newToggleMode.value, hotkeyDisplay := RewriteDisplay(config.hotkeyDisplay, newToggleMode.value))
    else if newToggleMode.Some? then config.(toggleMode := newToggleMode.value)
    else config
  }

  /** A label that holds neither suffix, carrying either suffix, comes out of the rewrite with
      exactly the suffix of the new mode. */
  lemma RewriteDisplaySwapsSuffix(base: string, oldMode: bool, newMode: bool)
    requires !Contains(base, HoldSuffix) && !Contains(base, TapSuffix)
    ensures RewriteDisplay(base + ModeSuffix(oldMode), newMode) == base + ModeSuffix(newMode)
  {
    assert UniqueHead(HoldSuffix) && UniqueHead(TapSuffix);
    if oldMode {
      assert TapSuffix[..|HoldSuffix|] != HoldSuffix by {
        assert TapSuffix[2] != HoldSuffix[2];
      }
      assert !Contains(TapSuffix[1..], HoldSuffix);
      assert !Contains(TapSuffix, HoldSuffix);
      ContainsConcat(base, TapSuffix, HoldSuffix);
      ReplaceFirstAbsent(base + TapSuffix, HoldSuffix, "");
      ReplaceFirstSuffix(base, TapSuffix);
    } else {
      ReplaceFirstSuffix(base, HoldSuffix);
      ReplaceFirstAbsent(base, TapSuffix, "");
    }
  }

  /** Switching the mode and switching it back restores the display of a recorded hotkey. */
  lemma ToggleTwiceRestoresDisplay(config: JsConfig, base: string)
    requires !Contains(base, HoldSuffix) && !Contains(base, TapSuffix)
    requires config.hotkeyDisplay == base + ModeSuffix(config.toggleMode)
    ensures var flipped := UpdateToggleMode(config, Some(!config.toggleMode));
      flipped.hotkeyDisplay == base + ModeSuffix(!config.toggleMode) &&
      UpdateToggleMode(flipped, Some(config.toggleMode)) == config
  {
    RewriteDisplaySwapsSuffix(base, config.toggleMode, !config.toggleMode);
    RewriteDisplaySwapsSuffix(base, !config.toggleMode, config.toggleMode);
  }
}
