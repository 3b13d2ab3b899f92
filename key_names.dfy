/** The pure key tables of the hotkey service: key names for virtual-key codes, the modifier-key
    test, the reverse lookup from a key name, and the "Ctrl+Shift+Alt+Win+Key" display label. */
module KeyNames {
  import opened Wrappers
  import opened Text
  import opened Keys
  import opened Models

  // ---------------------------------------------------------------- hexadecimal formatting

  const TwoTo32: int := 0x1_0000_0000

  /** An upper-case hexadecimal digit. */
  function HexDigitUpper(d: nat): (ch: char)
    requires d < 16
    ensures IsHexDigit(ch) && HexDigitValue(ch) == d
    ensures !('a' <= ch <= 'z') && ch != '+' && ch != ','
  {
    if d < 10 then DigitChar(d) else ('A' as int + (d - 10)) as char
  }

  /** The shortest upper-case hexadecimal numeral of `n`. */
  function HexString(n: nat): (s: string)
    ensures |s| >= 1
    ensures forall i :: 0 <= i < |s| ==> IsHexDigit(s[i]) && s[i] != '+' && s[i] != ','
    ensures HexValue(s) == n
    decreases n
  {
    if n < 16 then [HexDigitUpper(n)]
    else
      var s := HexString(n / 16) + [HexDigitUpper(n % 16)];
      assert s[..|s| - 1] == HexString(n / 16);
      s
  }

  /** A leading zero does not change the value of a hexadecimal numeral. */
  lemma {:induction false} HexValueLeadingZero(s: string)
    requires forall i :: 0 <= i < |s| ==> IsHexDigit(s[i])
    ensures HexValue("0" + s) == HexValue(s)
  {
    if |s| > 0 {
      var t := "0" + s;
      assert t[..|t| - 1] == "0" + s[..|s| - 1];
      HexValueLeadingZero(s[..|s| - 1]);
    }
  }

  /** The `X2` format of a 32-bit integer: upper-case hexadecimal, at least two digits, and a
      negative value written as its two's complement. */
  function Hex2(v: int): (s: string)
    ensures |s| >= 2
    ensures forall i :: 0 <= i < |s| ==> IsHexDigit(s[i]) && s[i] != '+' && s[i] != ','
    ensures HexValue(s) == if v < 0 then v % TwoTo32 else v
  {
    var u: nat := if v < 0 then v % TwoTo32 else v;
    var h := HexString(u);
    if |h| < 2 then HexValueLeadingZero(h); "0" + h else h
  }

  // ---------------------------------------------------------------- key names

  /** `GetKeyName`: A-Z and 0-9 name themselves, 0x70-0x7B are F1-F12, 0x20 is "Space", and any
      other code is "0x" with two or more upper-case hexadecimal digits. */
  function GetKeyName(vk: int): (name: string)
    ensures |name| > 0 && '+' !in name && ',' !in name
  {
    if VK_A <= vk <= VK_Z then [vk as char]
    else if VK_0 <= vk <= VK_9 then [vk as char]
    else if VK_F1 <= vk <= VK_F12 then "F" + NatToString(vk - VK_F1_OFFSET)
    else if vk == VK_SPACE then "Space"
    else "0x" + Hex2(vk)
  }

  /** Reads a key name back to its virtual-key code; the partner of `GetKeyName`. */
  function ParseKeyName(name: string): Option<int>
  {
    if |name| == 1 && ('A' <= name[0] <= 'Z' || IsDigit(name[0])) then Some(name[0] as int)
    else if name == "Space" then Some(VK_SPACE)
    else if |name| >= 2 && name[0] == 'F' && AllDigits(name[1..]) then Some(VK_F1_OFFSET + DigitsValue(name[1..]))
    else if |name| >= 3 && name[..2] == "0x" && (forall i :: 2 <= i < |name| ==> IsHexDigit(name[i])) then
      var digits := name[2..];
      assert forall i :: 0 <= i < |digits| ==> IsHexDigit(digits[i]) by {
        forall i | 0 <= i < |digits| ensures IsHexDigit(digits[i]) {
          assert digits[i] == name[i + 2];
        }
      }
      var u := HexValue(digits);
      Some(if u > Int32Max then u - TwoTo32 else u)
    else None
  }

  lemma FunctionKeyNameRoundTrip(vk: int)
    requires VK_F1 <= vk <= VK_F12
    ensures ParseKeyName(GetKeyName(vk)) == Some(vk)
  {
    var name := GetKeyName(vk);
    var n: nat := vk - VK_F1_OFFSET;
    assert name == "F" + NatToString(n);
    assert name[1..] == NatToString(n);
    NatToStringValue(n);
  }

  lemma HexKeyNameRoundTrip(vk: int)
    requires Int32Min <= vk <= Int32Max
    requires !(VK_A <= vk <= VK_Z) && !(VK_0 <= vk <= VK_9) && !(VK_F1 <= vk <= VK_F12) && vk != VK_SPACE
    ensures ParseKeyName(GetKeyName(vk)) == Some(vk)
  {
    var name := GetKeyName(vk);
    var h := Hex2(vk);
    assert name == "0x" + h;
    assert name[..2] == "0x" && name[2..] == h;
    assert forall i :: 2 <= i < |name| ==> IsHexDigit(name[i]) by {
      forall i | 2 <= i < |name| ensures IsHexDigit(name[i]) {
        assert name[i] == h[i - 2];
      }
    }
    assert name[0] == '0' && name != "Space";
  }

  /** Every 32-bit virtual-key code is named uniquely: its name reads back to it. */
  lemma KeyNameRoundTrip(vk: int)
    requires Int32Min <= vk <= Int32Max
    ensures ParseKeyName(GetKeyName(vk)) == Some(vk)
  {
    if VK_F1 <= vk <= VK_F12 {
      FunctionKeyNameRoundTrip(vk);
    } else if !(VK_A <= vk <= VK_Z) && !(VK_0 <= vk <= VK_9) && vk != VK_SPACE {
      HexKeyNameRoundTrip(vk);
    }
  }

  /** Two codes with the same name are the same code. */
  lemma KeyNameInjective(a: int, b: int)
    requires Int32Min <= a <= Int32Max && Int32Min <= b <= Int32Max
    requires GetKeyName(a) == GetKeyName(b)
    ensures a == b
  {
    KeyNameRoundTrip(a);
    KeyNameRoundTrip(b);
  }

  /** The names the unit tests expect. */
  lemma GetKeyNameExamples()
    ensures GetKeyName(0x41) == "A" && GetKeyName(0x5A) == "Z"
    ensures GetKeyName(0x30) == "0" && GetKeyName(0x39) == "9"
    ensures GetKeyName(0x70) == "F1" && GetKeyName(0x7B) == "F12"
    ensures GetKeyName(0x20) == "Space"
  {
    assert NatToString(1) == "1";
    assert NatToString(12) == NatToString(1) + [DigitChar(2)];
  }

  /** `IsModifierKey`: exactly the eleven Win, Ctrl, Shift and Alt codes (left, right, generic;
      Win has no generic code). */
  function IsModifierKey(vk: int): (r: bool)
    ensures r <==> ModifierOf(vk).Some?
  {
    vk == VK_LWIN || vk == VK_RWIN
    || vk == VK_LCTRL || vk == VK_RCTRL || vk == VK_CTRL
    || vk == VK_LSHIFT || vk == VK_RSHIFT || vk == VK_SHIFT
    || vk == VK_LALT || vk == VK_RALT || vk == VK_ALT
  }

  /** The codes the unit tests check. */
  lemma IsModifierKeyExamples()
    ensures IsModifierKey(0x5B) && IsModifierKey(0x5C) && IsModifierKey(0xA2)
    ensures !IsModifierKey(0x41) && !IsModifierKey(0x44)
  {
  }

  predicate IsAsciiLetterOrDigit(ch: char) { IsAsciiLetter(ch) || IsDigit(ch) }

  /** The .NET character tables `GetVirtualKeyCode` consults: the invariant culture's upper case of
      one character (`ToUpperInvariant`), the current culture's upper case (`char.ToUpper`) and
      `char.IsLetterOrDigit`. They are Unicode tables outside this model, so they are inputs. A
      Dafny string holds Unicode scalar values, while a .NET string holds UTF-16 units, so the
      tables are read per scalar value; the only place the unit count matters is `key.Length`,
      which `IsOneUtf16Unit` models. */
  datatype CharTables = CharTables(upperInvariant: char -> char, upper: char -> char, isLetterOrDigit: char -> bool)

  /** Tables that follow the ASCII rules on ASCII characters, as the invariant culture does and
      every current culture except the Turkic ones (which upper-case 'i' to U+0130). */
  predicate AsciiRules(t: CharTables)
  {
    forall ch: char :: IsAscii(ch) ==>
      t.upperInvariant(ch) == AsciiUpper(ch) && t.upper(ch) == AsciiUpper(ch) &&
      t.isLetterOrDigit(ch) == IsAsciiLetterOrDigit(ch)
  }

  /** `s.ToUpperInvariant()`. */
  function UpperInvariant(t: CharTables, s: string): (r: string)
    ensures |r| == |s| && forall i :: 0 <= i < |s| ==> r[i] == t.upperInvariant(s[i])
  {
    if |s| == 0 then "" else [t.upperInvariant(s[0])] + UpperInvariant(t, s[1..])
  }

  /** On ASCII text the invariant upper case is the ASCII one. */
  lemma UpperInvariantOfAscii(t: CharTables, s: string)
    requires AsciiRules(t) && AllAscii(s)
    ensures UpperInvariant(t, s) == UpperAscii(s)
  {
    var r, u := UpperInvariant(t, s), UpperAscii(s);
    forall i | 0 <= i < |s|
      ensures r[i] == u[i]
    {
      assert IsAscii(s[i]);
    }
  }

  /** `key.Length == 1` for a .NET string: one character of the Basic Multilingual Plane. A
      character beyond it takes two UTF-16 units (a surrogate pair). */
  predicate IsOneUtf16Unit(key: string)
  {
    |key| == 1 && key[0] as int < 0x10000
  }

  /** `GetVirtualKeyCode`: "Space" in any case or a single blank is 0x20, a single letter or digit
      is its upper-case code, and anything else falls back to 0x44 (D). */
  function GetVirtualKeyCode(t: CharTables, key: string): (vk: int)
    ensures UpperInvariant(t, key) == "SPACE" || UpperInvariant(t, key) == " " ==> vk == VK_SPACE
    ensures IsOneUtf16Unit(key) && t.isLetterOrDigit(key[0]) && t.upperInvariant(key[0]) != ' ' ==>
      vk == t.upper(key[0]) as int
    ensures |key| == 1 && !t.isLetterOrDigit(key[0]) && t.upperInvariant(key[0]) != ' ' ==> vk == DefaultHotkeyVkCode
    ensures |key| == 1 && !IsOneUtf16Unit(key) && t.upperInvariant(key[0]) != ' ' ==> vk == DefaultHotkeyVkCode
    ensures UpperInvariant(t, key) != "SPACE" && UpperInvariant(t, key) != " " && |key| != 1 ==> vk == DefaultHotkeyVkCode
  {
    var upper := UpperInvariant(t, key);
    if upper == "SPACE" || upper == " " then VK_SPACE
    else if IsOneUtf16Unit(key) && t.isLetterOrDigit(key[0]) then t.upper(key[0]) as int
    else DefaultHotkeyVkCode
  }

  /** Under the ASCII rules an ASCII key name gives Space, a digit or an upper-case letter, and a
      lower-case letter gives the code of its upper case. */
  lemma GetVirtualKeyCodeOfAscii(t: CharTables, key: string)
    requires AsciiRules(t) && AllAscii(key)
    ensures var vk := GetVirtualKeyCode(t, key);
      (vk == VK_SPACE || VK_0 <= vk <= VK_9 || VK_A <= vk <= VK_Z) &&
      (|key| == 1 && 'a' <= key[0] <= 'z' ==> vk == key[0] as int - 32)
  {
    UpperInvariantOfAscii(t, key);
    if |key| == 1 {
      assert IsAscii(key[0]);
    }
  }

  /** Looking up the name of a letter, digit or space key gives back its code. */
  lemma VirtualKeyOfKeyName(t: CharTables, vk: int)
    requires AsciiRules(t)
    requires VK_A <= vk <= VK_Z || VK_0 <= vk <= VK_9 || vk == VK_SPACE
    ensures GetVirtualKeyCode(t, GetKeyName(vk)) == vk
  {
    var name := GetKeyName(vk);
    if vk == VK_SPACE {
      assert AllAscii(name);
      UpperInvariantOfAscii(t, name);
      assert UpperAscii("Space") == "SPACE";
    } else {
      assert |name| == 1 && IsAscii(name[0]);
      UpperInvariantOfAscii(t, name);
      assert UpperAscii(name) == [AsciiUpper(name[0])];
    }
  }

  /** The keys the unit tests look up, and the fallback. */
  lemma GetVirtualKeyCodeExamples(t: CharTables)
    requires AsciiRules(t)
    ensures GetVirtualKeyCode(t, "D") == 0x44 && GetVirtualKeyCode(t, "A") == 0x41
    ensures GetVirtualKeyCode(t, "Space") == 0x20 && GetVirtualKeyCode(t, "F5") == 0x44
  {
    VirtualKeyOfKeyName(t, 0x44);
    VirtualKeyOfKeyName(t, 0x41);
    VirtualKeyOfKeyName(t, 0x20);
    assert AllAscii("F5");
    UpperInvariantOfAscii(t, "F5");
    assert UpperAscii("F5") == "F5";
  }

  /** Outside ASCII the key is classified by the Unicode tables: a single letter such as "é"
      (upper case "É", U+00C9) gives 0xC9, and a caseless digit such as U+0663 gives 0x663. */
  lemma GetVirtualKeyCodeNonAscii(t: CharTables)
    requires t.isLetterOrDigit('é') && t.upperInvariant('é') == 'É' && t.upper('é') == 'É'
    requires t.isLetterOrDigit('\U{0663}') && t.upperInvariant('\U{0663}') == '\U{0663}' && t.upper('\U{0663}') == '\U{0663}'
    ensures GetVirtualKeyCode(t, "é") == 0xC9 && GetVirtualKeyCode(t, "\U{0663}") == 0x663
  {
    assert "é"[0] == 'é';
    assert "\U{0663}"[0] == '\U{0663}';
  }

  /** A letter beyond the Basic Multilingual Plane, such as U+1D400 (mathematical bold capital A),
      is two UTF-16 units, so its name is no single character and falls back to 0x44. */
  lemma GetVirtualKeyCodeSurrogatePair(t: CharTables)
    requires t.isLetterOrDigit('\U{1D400}') && t.upperInvariant('\U{1D400}') == '\U{1D400}'
    ensures GetVirtualKeyCode(t, "\U{1D400}") == DefaultHotkeyVkCode
  {
    assert "\U{1D400}"[0] == '\U{1D400}';
  }

  // ---------------------------------------------------------------- display label

  predicate IsModifierName(s: string) { s == "Ctrl" || s == "Shift" || s == "Alt" || s == "Win" }

  /** The names of the set flags, in the order Ctrl, Shift, Alt, Win. */
  function ModifierLabels(m: Mods): (names: seq<string>)
    ensures |names| == m.Count()
    ensures forall i :: 0 <= i < |names| ==> IsModifierName(names[i])
  {
    (if m.ctrl then ["Ctrl"] else []) + (if m.shift then ["Shift"] else [])
    + (if m.alt then ["Alt"] else []) + (if m.win then ["Win"] else [])
  }

  /** Each modifier's name is among the labels exactly when the modifier is set. */
  lemma ModifierLabelsNames(m: Mods)
    ensures "Ctrl" in ModifierLabels(m) <==> m.ctrl
    ensures "Shift" in ModifierLabels(m) <==> m.shift
    ensures "Alt" in ModifierLabels(m) <==> m.alt
    ensures "Win" in ModifierLabels(m) <==> m.win
  {
    var c: seq<string> := if m.ctrl then ["Ctrl"] else [];
    var s: seq<string> := if m.shift then ["Shift"] else [];
    var a: seq<string> := if m.alt then ["Alt"] else [];
    var w: seq<string> := if m.win then ["Win"] else [];
    assert ModifierLabels(m) == c + s + a + w;
    assert forall x :: x in c + s + a + w <==> x in c || x in s || x in a || x in w;
  }

  /** The parts of a display label: the captured modifiers, then the key name unless vk is 0. */
  function LabelParts(captured: Mods, vk: int): seq<string>
  {
    ModifierLabels(captured) + (if vk != 0 then [GetKeyName(vk)] else [])
  }

  /** `BuildDisplayString`: the parts joined with "+". */
  function DisplayLabel(captured: Mods, vk: int): string
  {
    Join("+", LabelParts(captured, vk))
  }

  /** Reads a display label back into the modifiers and key it names; the partner of `DisplayLabel`. */
  function DecodeLabel(text: string): (Mods, int)
  {
    var parts := Split(text, '+');
    var mods := Mods("Ctrl" in parts, "Shift" in parts, "Alt" in parts, "Win" in parts);
    var last := parts[|parts| - 1];
    (mods, if IsModifierName(last) then 0 else ParseKeyName(last).GetOr(0))
  }

  /** No key name is also a modifier name. */
  lemma KeyNameIsNoModifierName(vk: int)
    ensures !IsModifierName(GetKeyName(vk))
  {
    var name := GetKeyName(vk);
    if VK_F1 <= vk <= VK_F12 || !(VK_A <= vk <= VK_Z || VK_0 <= vk <= VK_9 || vk == VK_SPACE) {
      assert name[0] == 'F' || name[0] == '0';
    }
  }

  /** The label splits on "+" into exactly its parts. */
  lemma LabelSplit(captured: Mods, vk: int)
    requires captured.Any() || vk != 0
    ensures Split(DisplayLabel(captured, vk), '+') == LabelParts(captured, vk)
  {
    var parts := LabelParts(captured, vk);
    assert forall i :: 0 <= i < |parts| ==> '+' !in parts[i];
    SplitJoin(parts, '+');
  }

  /** A display label names exactly the combination it was built from: the captured modifiers
      and the key (0 for a modifiers-only combination). */
  lemma DecodeDisplayLabel(captured: Mods, vk: int)
    requires Int32Min <= vk <= Int32Max
    ensures DecodeLabel(DisplayLabel(captured, vk)) == (captured, vk)
  {
    if vk != 0 {
      DecodeKeyLabel(captured, vk);
    } else if captured.Any() {
      DecodeModifiersLabel(captured);
    } else {
      assert LabelParts(captured, vk) == [];
      assert Split("", '+') == [""];
    }
  }

  lemma DecodeKeyLabel(captured: Mods, vk: int)
    requires Int32Min <= vk <= Int32Max && vk != 0
    ensures DecodeLabel(DisplayLabel(captured, vk)) == (captured, vk)
  {
    var parts := LabelParts(captured, vk);
    var names := ModifierLabels(captured);
    ModifierLabelsNames(captured);
    LabelSplit(captured, vk);
    KeyNameIsNoModifierName(vk);
    KeyNameRoundTrip(vk);
    assert parts == names + [GetKeyName(vk)];
    assert parts[|parts| - 1] == GetKeyName(vk);
    assert "Ctrl" in parts <==> "Ctrl" in names;
    assert "Shift" in parts <==> "Shift" in names;
    assert "Alt" in parts <==> "Alt" in names;
    assert "Win" in parts <==> "Win" in names;
  }

  lemma DecodeModifiersLabel(captured: Mods)
    requires captured.Any()
    ensures DecodeLabel(DisplayLabel(captured, 0)) == (captured, 0)
  {
    var parts := LabelParts(captured, 0);
    ModifierLabelsNames(captured);
    LabelSplit(captured, 0);
    assert parts == ModifierLabels(captured);
    assert IsModifierName(parts[|parts| - 1]);
  }

  /** Two parts joined with "+". */
  lemma LabelOfTwo(captured: Mods, vk: int, first: string, second: string)
    requires LabelParts(captured, vk) == [first, second]
    ensures DisplayLabel(captured, vk) == first + "+" + second
  {
    assert [first, second][1..] == [second];
    assert Join("+", [second]) == second;
  }

  /** The label of the documented Alt+F5 combination. */
  lemma AltF5Label()
    ensures DisplayLabel(Mods(false, false, true, false), 0x74) == "Alt+F5"
  {
    assert NatToString(5) == "5";
    assert GetKeyName(0x74) == "F5";
    assert ModifierLabels(Mods(false, false, true, false)) == ["Alt"];
    LabelOfTwo(Mods(false, false, true, false), 0x74, "Alt", "F5");
  }

  /** The label of the documented modifiers-only Ctrl+Win combination. */
  lemma CtrlWinLabel()
    ensures DisplayLabel(Mods(true, false, false, true), 0) == "Ctrl+Win"
  {
    assert ModifierLabels(Mods(true, false, false, true)) == ["Ctrl", "Win"];
    LabelOfTwo(Mods(true, false, false, true), 0, "Ctrl", "Win");
  }

  /** The label of the default Win+D hotkey. */
  lemma WinDLabel()
    ensures DisplayLabel(Mods(false, false, false, true), 0x44) == "Win+D"
  {
    assert GetKeyName(0x44) == "D";
    assert ModifierLabels(Mods(false, false, false, true)) == ["Win"];
    LabelOfTwo(Mods(false, false, false, true), 0x44, "Win", "D");
  }
}
