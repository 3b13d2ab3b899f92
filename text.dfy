/** String handling shared by the C# and JavaScript parts of the system: joining and splitting on a
    separator, decimal formatting, the two integer parsers the wire protocol relies on (.NET
    Int32.TryParse and JavaScript parseInt), trimming, ASCII case folding and substring search. */
module Text {
  import opened Wrappers

  // ---------------------------------------------------------------- join and split

  /** `string.Join(sep, parts)` in C#, `parts.join(sep)` in JavaScript. */
  function Join(sep: string, parts: seq<string>): string
  {
    if |parts| == 0 then ""
    else if |parts| == 1 then parts[0]
    else parts[0] + sep + Join(sep, parts[1..])
  }

  /** `s.Split(c)` in C#, `s.split(c)` in JavaScript: every separator ends one piece, so the
      result always has one more piece than `s` has separators, and pieces may be empty. */
  function Split(s: string, c: char): (r: seq<string>)
    ensures |r| >= 1
    ensures forall i :: 0 <= i < |r| ==> c !in r[i]
  {
    if |s| == 0 then [""]
    else if s[0] == c then [""] + Split(s[1..], c)
    else var rest := Split(s[1..], c); [[s[0]] + rest[0]] + rest[1..]
  }

  /** A prefix without separators splits off as exactly one piece. */
  lemma {:induction false} SplitPrefix(a: string, c: char, b: string)
    requires c !in a
    ensures Split(a + [c] + b, c) == [a] + Split(b, c)
  {
    if |a| == 0 {
      assert a + [c] + b == [c] + b;
      assert ([c] + b)[1..] == b;
    } else {
      assert (a + [c] + b)[0] == a[0];
      assert (a + [c] + b)[1..] == a[1..] + [c] + b;
      SplitPrefix(a[1..], c, b);
      assert [a[0]] + a[1..] == a;
    }
  }

  /** A string without the separator is one piece. */
  lemma {:induction false} SplitNone(s: string, c: char)
    requires c !in s
    ensures Split(s, c) == [s]
  {
    if |s| > 0 {
      SplitNone(s[1..], c);
      assert [s[0]] + s[1..] == s;
    }
  }

  /** Joining the pieces again with the separator gives back the original string. */
  lemma {:induction false} JoinSplit(s: string, c: char)
    ensures Join([c], Split(s, c)) == s
  {
    if |s| > 0 {
      JoinSplit(s[1..], c);
      var rest := Split(s[1..], c);
      if s[0] == c {
        assert Split(s, c) == [""] + rest;
        assert ([""] + rest)[1..] == rest;
        assert Join([c], [""] + rest) == "" + [c] + Join([c], rest);
      } else {
        var r := [[s[0]] + rest[0]] + rest[1..];
        assert Split(s, c) == r;
        if |rest| == 1 {
          assert Join([c], r) == [s[0]] + rest[0];
        } else {
          assert r[1..] == rest[1..];
          assert Join([c], r) == [s[0]] + rest[0] + [c] + Join([c], rest[1..]);
          assert Join([c], rest) == rest[0] + [c] + Join([c], rest[1..]);
        }
        assert [s[0]] + s[1..] == s;
      }
    }
  }

  /** Splitting a join gives back the parts, as long as no part contains the separator. */
  lemma {:induction false} SplitJoin(parts: seq<string>, c: char)
    requires |parts| >= 1
    requires forall i :: 0 <= i < |parts| ==> c !in parts[i]
    ensures Split(Join([c], parts), c) == parts
  {
    if |parts| == 1 {
      SplitNone(parts[0], c);
    } else {
      SplitJoin(parts[1..], c);
      assert Join([c], parts) == parts[0] + [c] + Join([c], parts[1..]);
      SplitPrefix(parts[0], c, Join([c], parts[1..]));
      assert [parts[0]] + parts[1..] == parts;
    }
  }

  /** A piece of a join of separator-free parts is separator-free, so a joined string contains the
      separator only where Join put it. */
  lemma {:induction false} JoinNoSep(parts: seq<string>, sep: string, c: char)
    requires c !in sep
    requires forall i :: 0 <= i < |parts| ==> c !in parts[i]
    ensures c !in Join(sep, parts)
  {
    if |parts| > 1 {
      JoinNoSep(parts[1..], sep, c);
    }
  }

  // ---------------------------------------------------------------- decimal digits

  predicate IsDigit(ch: char) { '0' <= ch <= '9' }

  predicate AllDigits(s: string) { forall i :: 0 <= i < |s| ==> IsDigit(s[i]) }

  function DigitChar(d: nat): (ch: char)
    requires d < 10
    ensures IsDigit(ch) && ch as int - '0' as int == d
  {
    ('0' as int + d) as char
  }

  /** The value of a run of decimal digits, most significant first. */
  function DigitsValue(ds: string): nat
    requires AllDigits(ds)
  {
    if |ds| == 0 then 0
    else DigitsValue(ds[..|ds| - 1]) * 10 + (ds[|ds| - 1] as int - '0' as int)
  }

  /** Decimal formatting of a natural number, as C# interpolation and JavaScript template strings do it. */
  function NatToString(n: nat): (s: string)
    ensures |s| >= 1 && AllDigits(s)
    ensures n >= 10 ==> s[0] != '0'
  {
    if n < 10 then [DigitChar(n)] else NatToString(n / 10) + [DigitChar(n % 10)]
  }

  /** Decimal formatting of an integer, with a leading '-' when negative. */
  function IntToString(i: int): (s: string)
    ensures |s| >= 1
    ensures ',' !in s && '+' !in s
  {
    if i < 0 then "-" + NatToString(-i) else NatToString(i)
  }

  lemma {:induction false} NatToStringValue(n: nat)
    ensures DigitsValue(NatToString(n)) == n
  {
    if n >= 10 {
      NatToStringValue(n / 10);
      var s := NatToString(n);
      assert s[..|s| - 1] == NatToString(n / 10);
    }
  }

  // ---------------------------------------------------------------- .NET Int32.TryParse

  /** The white space Int32.TryParse skips around a number (NumberStyles.Integer). */
  predicate IsNumberWhite(ch: char) { ch == ' ' || '\t' <= ch <= '\r' }

  function TrimNumberWhite(s: string): (t: string)
    ensures |t| <= |s|
    decreases |s|
  {
    if |s| > 0 && IsNumberWhite(s[0]) then TrimNumberWhite(s[1..])
    else if |s| > 0 && IsNumberWhite(s[|s| - 1]) then TrimNumberWhite(s[..|s| - 1])
    else s
  }

  const Int32Min: int := -0x8000_0000
  const Int32Max: int := 0x7FFF_FFFF

  /** Unchecked 32-bit `int` arithmetic: the result taken modulo 2^32 into the signed range. */
  function Wrap32(x: int): (r: int)
    ensures Int32Min <= r <= Int32Max
    ensures (r - x) % 0x1_0000_0000 == 0
    ensures Int32Min <= x <= Int32Max ==> r == x
  {
    (x - Int32Min) % 0x1_0000_0000 + Int32Min
  }

  /** Counting past the largest `int` wraps to the smallest. */
  lemma Wrap32Overflow()
    ensures Wrap32(Int32Max + 1) == Int32Min
  {
  }

  /** `int.TryParse(s, out v)`: optional white space around an optional sign and at least one decimal
      digit; a value outside the 32-bit range fails. */
  function TryParseInt32(s: string): (r: Option<int>)
    ensures r.Some? ==> Int32Min <= r.value <= Int32Max
  {
    var t := TrimNumberWhite(s);
    var neg := |t| > 0 && t[0] == '-';
    var ds := if |t| > 0 && (t[0] == '-' || t[0] == '+') then t[1..] else t;
    if |ds| == 0 || !AllDigits(ds) then None
    else
      var v: int := if neg then 0 - DigitsValue(ds) else DigitsValue(ds);
      if Int32Min <= v <= Int32Max then Some(v) else None
  }

  /** What C# writes for an int is what Int32.TryParse reads back. */
  lemma TryParseIntToString(v: int)
    ensures TryParseInt32(IntToString(v)) == if Int32Min <= v <= Int32Max then Some(v) else None
  {
    if v < 0 {
      var ds := NatToString(-v);
      NatToStringValue(-v);
      TryParseNegative(ds);
      assert IntToString(v) == "-" + ds;
    } else {
      var ds := NatToString(v);
      NatToStringValue(v);
      TryParsePositive(ds);
      assert IntToString(v) == ds;
    }
  }

  /** A run of digits, with or without a leading '-', parses to its value when that value fits. */
  lemma TryParseSigned(ds: string, neg: bool)
    requires |ds| > 0 && AllDigits(ds)
    ensures var v := if neg then 0 - DigitsValue(ds) else DigitsValue(ds);
            TryParseInt32((if neg then "-" else "") + ds) == if Int32Min <= v <= Int32Max then Some(v) else None
  {
    if neg {
      TryParseNegative(ds);
    } else {
      TryParsePositive(ds);
      assert "" + ds == ds;
    }
  }

  lemma TryParsePositive(ds: string)
    requires |ds| > 0 && AllDigits(ds)
    ensures TryParseInt32(ds) == if DigitsValue(ds) <= Int32Max then Some(DigitsValue(ds)) else None
  {
    TrimNumberWhiteNoop(ds);
    assert IsDigit(ds[0]);
  }

  lemma TryParseNegative(ds: string)
    requires |ds| > 0 && AllDigits(ds)
    ensures TryParseInt32("-" + ds) == if Int32Min <= 0 - DigitsValue(ds) then Some(0 - DigitsValue(ds)) else None
  {
    var s := "-" + ds;
    assert s[0] == '-' && s[|s| - 1] == ds[|ds| - 1] && s[1..] == ds;
    TrimNumberWhiteNoop(s);
    TryParseMinus(s, ds);
  }

  /** `Int32.TryParse` of an untrimmed "-" followed by decimal digits, given its digits. */
  lemma TryParseMinus(s: string, ds: string)
    requires TrimNumberWhite(s) == s && |s| > 0 && s[0] == '-' && s[1..] == ds
    requires |ds| > 0 && AllDigits(ds)
    ensures TryParseInt32(s) == if Int32Min <= 0 - DigitsValue(ds) then Some(0 - DigitsValue(ds)) else None
  {
  }

  /** A string with no white space at either end is its own trimmed form. */
  lemma TrimNumberWhiteNoop(s: string)
    requires |s| > 0 && !IsNumberWhite(s[0]) && !IsNumberWhite(s[|s| - 1])
    ensures TrimNumberWhite(s) == s
  {
  }

  // ---------------------------------------------------------------- JavaScript parseInt

  /** JavaScript white space and line terminators (what `trim` and `parseInt` skip). */
  predicate IsJsWhite(ch: char)
  {
    var c := ch as int;
    c == 0x20 || 0x09 <= c <= 0x0D || c == 0xA0 || c == 0x1680 || 0x2000 <= c <= 0x200A
    || c == 0x2028 || c == 0x2029 || c == 0x202F || c == 0x205F || c == 0x3000 || c == 0xFEFF
  }

  function TrimStartJs(s: string): (t: string)
    ensures |t| <= |s|
  {
    if |s| > 0 && IsJsWhite(s[0]) then TrimStartJs(s[1..]) else s
  }

  function TrimJs(s: string): (t: string)
    decreases |s|
  {
    if |s| > 0 && IsJsWhite(s[0]) then TrimJs(s[1..])
    else if |s| > 0 && IsJsWhite(s[|s| - 1]) then TrimJs(s[..|s| - 1])
    else s
  }

  /** The longest prefix of `s` made of decimal digits. */
  function DigitPrefix(s: string): (p: string)
    ensures |p| <= |s| && p == s[..|p|] && AllDigits(p)
    ensures |p| < |s| ==> !IsDigit(s[|p|])
  {
    if |s| > 0 && IsDigit(s[0]) then [s[0]] + DigitPrefix(s[1..]) else ""
  }

  lemma {:induction false} DigitPrefixAll(s: string)
    requires AllDigits(s)
    ensures DigitPrefix(s) == s
  {
    if |s| > 0 {
      DigitPrefixAll(s[1..]);
      assert [s[0]] + s[1..] == s;
    }
  }

  predicate IsHexDigit(ch: char) { IsDigit(ch) || 'a' <= ch <= 'f' || 'A' <= ch <= 'F' }

  function HexDigitValue(ch: char): nat
    requires IsHexDigit(ch)
  {
    if IsDigit(ch) then ch as int - '0' as int
    else if 'a' <= ch <= 'f' then ch as int - 'a' as int + 10
    else ch as int - 'A' as int + 10
  }

  function HexPrefix(s: string): (p: string)
    ensures |p| <= |s| && forall i :: 0 <= i < |p| ==> IsHexDigit(p[i])
  {
    if |s| > 0 && IsHexDigit(s[0]) then [s[0]] + HexPrefix(s[1..]) else ""
  }

  function HexValue(ds: string): nat
    requires forall i :: 0 <= i < |ds| ==> IsHexDigit(ds[i])
  {
    if |ds| == 0 then 0 else HexValue(ds[..|ds| - 1]) * 16 + HexDigitValue(ds[|ds| - 1])
  }

  /** `parseInt(s)` with no radix: leading white space, an optional sign, then hexadecimal digits
      after "0x"/"0X" or else decimal digits, read as far as they go; `None` is NaN (no digit). */
  function JsParseInt(s: string): (r: Option<int>)
  {
    var t := TrimStartJs(s);
    var neg := |t| > 0 && t[0] == '-';
    var u := if |t| > 0 && (t[0] == '-' || t[0] == '+') then t[1..] else t;
    if |u| >= 2 && u[0] == '0' && (u[1] == 'x' || u[1] == 'X') then
      var h := HexPrefix(u[2..]);
      if |h| == 0 then None else Some(if neg then 0 - HexValue(h) else HexValue(h))
    else
      var d := DigitPrefix(u);
      if |d| == 0 then None else Some(if neg then 0 - DigitsValue(d) else DigitsValue(d))
  }

  /** What a template string writes for an integer is what parseInt reads back. */
  lemma JsParseIntToString(v: int)
    ensures JsParseInt(IntToString(v)) == Some(v)
  {
    if v < 0 {
      var u := NatToString(-v);
      assert JsParseInt("-" + u) == Some(v) by {
        NatToStringValue(-v);
        JsParseIntNegative(u);
      }
      assert IntToString(v) == "-" + u;
    } else {
      var u := NatToString(v);
      assert JsParseInt(u) == Some(v) by {
        NatToStringValue(v);
        JsParseIntPositive(u);
      }
      assert IntToString(v) == u;
    }
  }

  /** A plain run of decimal digits that does not start "0x" reads as its value. */
  lemma JsParseIntPositive(u: string)
    requires |u| > 0 && AllDigits(u)
    ensures JsParseInt(u) == Some(DigitsValue(u))
  {
    DigitPrefixAll(u);
    JsParseIntDigits(u);
  }

  /** `parseInt` of decimal digits that do not start "0x", given that they are their own digit prefix. */
  lemma JsParseIntDigits(u: string)
    requires |u| > 0 && IsDigit(u[0]) && (|u| >= 2 ==> IsDigit(u[1])) && DigitPrefix(u) == u
    ensures JsParseInt(u) == Some(DigitsValue(u))
  {
    assert !IsJsWhite(u[0]);
    assert TrimStartJs(u) == u;
    assert u[0] != '-' && u[0] != '+';
    assert !(|u| >= 2 && u[0] == '0' && (u[1] == 'x' || u[1] == 'X'));
  }

  lemma JsParseIntNegative(u: string)
    requires |u| > 0 && AllDigits(u)
    ensures JsParseInt("-" + u) == Some(0 - DigitsValue(u))
  {
    var s := "-" + u;
    DigitPrefixAll(u);
    assert s[0] == '-' && s[1..] == u;
    JsParseIntSigned(s, u);
  }

  /** `parseInt` of a "-" followed by decimal digits, given the pieces it reads. */
  lemma JsParseIntSigned(s: string, u: string)
    requires |s| > 0 && s[0] == '-' && s[1..] == u
    requires |u| > 0 && IsDigit(u[0]) && (|u| >= 2 ==> IsDigit(u[1])) && DigitPrefix(u) == u
    ensures JsParseInt(s) == Some(0 - DigitsValue(u))
  {
    assert TrimStartJs(s) == s;
  }

  // ---------------------------------------------------------------- .NET Trim

  /** `char.IsWhiteSpace`: Unicode space separators, line and paragraph separators, and the control
      characters U+0009 to U+000D and U+0085. */
  predicate IsDotNetWhite(ch: char)
  {
    var c := ch as int;
    c == 0x20 || 0x09 <= c <= 0x0D || c == 0x85 || c == 0xA0 || c == 0x1680 || 0x2000 <= c <= 0x200A
    || c == 0x2028 || c == 0x2029 || c == 0x202F || c == 0x205F || c == 0x3000
  }

  /** `string.Trim()`: white space removed at both ends. */
  function Trim(s: string): (t: string)
    ensures |t| <= |s|
    ensures |t| > 0 ==> !IsDotNetWhite(t[0]) && !IsDotNetWhite(t[|t| - 1])
    decreases |s|
  {
    if |s| > 0 && IsDotNetWhite(s[0]) then Trim(s[1..])
    else if |s| > 0 && IsDotNetWhite(s[|s| - 1]) then Trim(s[..|s| - 1])
    else s
  }

  /** A string is empty after trimming exactly when it is all white space. */
  lemma {:induction false} TrimEmpty(s: string)
    ensures Trim(s) == "" <==> forall i :: 0 <= i < |s| ==> IsDotNetWhite(s[i])
    decreases |s|
  {
    if |s| > 0 && IsDotNetWhite(s[0]) {
      TrimEmpty(s[1..]);
      assert forall i :: 1 <= i < |s| ==> s[i] == s[1..][i - 1];
    } else if |s| > 0 && IsDotNetWhite(s[|s| - 1]) {
      TrimEmpty(s[..|s| - 1]);
      assert forall i :: 0 <= i < |s| - 1 ==> s[i] == s[..|s| - 1][i];
    }
  }

  // ---------------------------------------------------------------- case folding and search

  function AsciiUpper(ch: char): char
  {
    if 'a' <= ch <= 'z' then (ch as int - 32) as char else ch
  }

  /** Upper-casing of ASCII letters, character by character; every other character is kept. */
  function UpperAscii(s: string): (r: string)
    ensures |r| == |s| && forall i :: 0 <= i < |s| ==> r[i] == AsciiUpper(s[i])
  {
    if |s| == 0 then "" else [AsciiUpper(s[0])] + UpperAscii(s[1..])
  }

  predicate IsAsciiLetter(ch: char) { 'A' <= ch <= 'Z' || 'a' <= ch <= 'z' }

  predicate IsAscii(ch: char) { ch as int < 0x80 }

  predicate AllAscii(s: string) { forall i :: 0 <= i < |s| ==> IsAscii(s[i]) }

  predicate StartsWith(s: string, prefix: string) { |prefix| <= |s| && s[..|prefix|] == prefix }

  /** `s` contains `pat` as a contiguous substring (`s.includes(pat)`, `s.Contains(pat)`). */
  predicate Contains(s: string, pat: string)
    decreases |s|
  {
    |pat| <= |s| && (s[..|pat|] == pat || (|s| > 0 && Contains(s[1..], pat)))
  }

  /** `s.Contains(pat, StringComparison.OrdinalIgnoreCase)` with ASCII case folding. */
  predicate ContainsIgnoreCase(s: string, pat: string)
  {
    Contains(UpperAscii(s), UpperAscii(pat))
  }

  /** JavaScript `s.replace(pat, rep)` with a string pattern: only the first occurrence is replaced. */
  function ReplaceFirst(s: string, pat: string, rep: string): string
    requires |pat| > 0
    decreases |s|
  {
    if |s| < |pat| then s
    else if s[..|pat|] == pat then rep + s[|pat|..]
    else [s[0]] + ReplaceFirst(s[1..], pat, rep)
  }

  lemma {:induction false} ReplaceFirstAbsent(s: string, pat: string, rep: string)
    requires |pat| > 0 && !Contains(s, pat)
    ensures ReplaceFirst(s, pat, rep) == s
    decreases |s|
  {
    if |s| >= |pat| {
      ReplaceFirstAbsent(s[1..], pat, rep);
      assert [s[0]] + s[1..] == s;
    }
  }

  /** A pattern whose first character occurs nowhere else in it cannot overlap the start of a
      following string that begins with that character. */
  predicate UniqueHead(pat: string) { |pat| > 0 && pat[0] !in pat[1..] }

  lemma {:induction false} ContainsConcat(b: string, c: string, pat: string)
    requires UniqueHead(pat) && |c| > 0 && c[0] == pat[0]
    requires !Contains(b, pat) && !Contains(c, pat)
    ensures !Contains(b + c, pat)
    decreases |b|
  {
    if |b| == 0 {
      assert b + c == c;
    } else {
      assert (b + c)[1..] == b[1..] + c;
      ContainsConcat(b[1..], c, pat);
      if |b| >= |pat| {
        assert (b + c)[..|pat|] == b[..|pat|];
      } else if |pat| <= |b + c| {
        assert (b + c)[|b|] == pat[0];
        assert pat[1..][|b| - 1] == pat[|b|];
      }
    }
  }

  lemma {:induction false} ReplaceFirstSuffix(b: string, pat: string)
    requires UniqueHead(pat) && !Contains(b, pat)
    ensures ReplaceFirst(b + pat, pat, "") == b
    decreases |b|
  {
    if |b| == 0 {
      assert b + pat == pat;
      assert pat[..|pat|] == pat;
    } else {
      assert (b + pat)[1..] == b[1..] + pat;
      ReplaceFirstSuffix(b[1..], pat);
      if |b| >= |pat| {
        assert (b + pat)[..|pat|] == b[..|pat|];
      } else {
        assert (b + pat)[|b|] == pat[0];
        assert pat[1..][|b| - 1] == pat[|b|];
      }
      assert [b[0]] + b[1..] == b;
    }
  }
}
