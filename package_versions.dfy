/** The update check of the installed Python packages: whether an installed version is a nightly
    or development build, the numeric base `major.minor.patch` of a version string, and whether the
    latest version is newer than the installed one. Asking pip for the installed and the latest
    version is left out: both versions are inputs, `None` where pip gave nothing. */
module PackageVersions {
  import opened Wrappers
  import opened Text

  /** JavaScript truthiness of a version: missing and empty versions are falsy. */
  predicate Present(version: Option<string>)
  {
    version.Some? && version.value != ""
  }

  /** `isNightlyVersion`: a present version containing "dev", "nightly" or "+". */
  predicate IsNightlyVersion(version: Option<string>)
  {
    Present(version) &&
    (Contains(version.value, "dev") || Contains(version.value, "nightly") || Contains(version.value, "+"))
  }

  /** `parseInt(d) || 0` for a run of digits: its value, and 0 for the empty run (NaN). */
  function DigitsOrZero(d: string): nat
    requires AllDigits(d)
  {
    if d == "" then 0 else DigitsValue(d)
  }

  /** The match of `^(\d+)\.(\d+)\.?(\d*)` at the start of `s`: the three digit groups, or `None`.
      Each group takes as many digits as there are; the optional dot is taken when present. */
  function MatchBase(s: string): (r: Option<(string, string, string)>)
    ensures r.Some? ==> AllDigits(r.value.0) && AllDigits(r.value.1) && AllDigits(r.value.2)
    ensures r.Some? ==> |r.value.0| > 0 && |r.value.1| > 0
  {
    var d1 := DigitPrefix(s);
    if |d1| == 0 || |d1| == |s| || s[|d1|] != '.' then None
    else
      var r1 := s[|d1| + 1..];
      var d2 := DigitPrefix(r1);
      if |d2| == 0 then None
      else
        var r2 := r1[|d2|..];
        var r3 := if |r2| > 0 && r2[0] == '.' then r2[1..] else r2;
        Some((d1, d2, DigitPrefix(r3)))
  }

  /** `getBaseVersion`: the three numbers of the match, a missing third one read as 0; `[0, 0, 0]`
      for a missing, empty or non-matching version. */
  function GetBaseVersion(version: Option<string>): (parts: seq<nat>)
    ensures |parts| == 3
  {
    if !Present(version) then [0, 0, 0]
    else
      match MatchBase(version.value)
      case None => [0, 0, 0]
      case Some((d1, d2, d3)) => [DigitsOrZero(d1), DigitsOrZero(d2), DigitsOrZero(d3)]
  }

  /** Lexicographic "less than" on equally long sequences of numbers. */
  predicate LexLess(a: seq<nat>, b: seq<nat>)
    requires |a| == |b|
  {
    |a| > 0 && (a[0] < b[0] || (a[0] == b[0] && LexLess(a[1..], b[1..])))
  }

  /** What `isUpdateAvailable` answers: both versions present, the installed one not a nightly
      build, and its base version lexicographically below the latest one's. */
  predicate UpdateAvailable(installed: Option<string>, latest: Option<string>)
  {
    Present(installed) && Present(latest) && !IsNightlyVersion(installed) &&
    LexLess(GetBaseVersion(installed), GetBaseVersion(latest))
  }

  /** `isUpdateAvailable`: compares the three base numbers from the first on and answers at the
      first that differs. */
  method IsUpdateAvailable(installed: Option<string>, latest: Option<string>) returns (r: bool)
    ensures r == UpdateAvailable(installed, latest)
  {
    if !Present(installed) || !Present(latest) {
      return false;
    }
    if IsNightlyVersion(installed) {
      return false;
    }
    var installedParts := GetBaseVersion(installed);
    var latestParts := GetBaseVersion(latest);
    for i := 0 to 3
      invariant LexLess(installedParts, latestParts) == LexLess(installedParts[i..], latestParts[i..])
    {
      assert installedParts[i..][1..] == installedParts[i + 1..];
      assert latestParts[i..][1..] == latestParts[i + 1..];
      if latestParts[i] > installedParts[i] {
        return true;
      }
      if latestParts[i] < installedParts[i] {
        return false;
      }
    }
    return false;
  }

  // ---------------------------------------------------------------- the order

  /** The comparison is a strict total order on base versions. */
  lemma {:induction false} LexLessStrictOrder(a: seq<nat>, b: seq<nat>, c: seq<nat>)
    requires |a| == |b| == |c|
    ensures !LexLess(a, a)
    ensures LexLess(a, b) ==> !LexLess(b, a)
    ensures LexLess(a, b) && LexLess(b, c) ==> LexLess(a, c)
    ensures a == b || LexLess(a, b) || LexLess(b, a)
  {
    if |a| > 0 {
      LexLessStrictOrder(a[1..], b[1..], c[1..]);
      if a[0] == b[0] && a[1..] == b[1..] {
        assert a == [a[0]] + a[1..] && b == [b[0]] + b[1..];
      }
    }
  }

  /** A version is never an update of itself, and a nightly installation is never offered one. */
  lemma NoUpdateToSelfOrFromNightly(installed: Option<string>, latest: Option<string>)
    ensures !UpdateAvailable(installed, installed)
    ensures IsNightlyVersion(installed) ==> !UpdateAvailable(installed, latest)
  {
    var p := GetBaseVersion(installed);
    LexLessStrictOrder(p, p, p);
  }

  /** Of two present, non-nightly versions with different base versions, exactly one direction
      offers an update. */
  lemma UpdateOneWay(x: Option<string>, y: Option<string>)
    requires Present(x) && Present(y) && !IsNightlyVersion(x) && !IsNightlyVersion(y)
    requires GetBaseVersion(x) != GetBaseVersion(y)
    ensures UpdateAvailable(x, y) != UpdateAvailable(y, x)
  {
    LexLessStrictOrder(GetBaseVersion(x), GetBaseVersion(y), GetBaseVersion(x));
  }

  // ---------------------------------------------------------------- reading versions

  /** The digits at the front of a string run up to the first character that is not a digit. */
  lemma {:induction false} DigitPrefixStops(d: string, rest: string)
    requires AllDigits(d)
    requires rest == "" || !IsDigit(rest[0])
    ensures DigitPrefix(d + rest) == d
  {
    if |d| > 0 {
      assert (d + rest)[1..] == d[1..] + rest;
      DigitPrefixStops(d[1..], rest);
      assert [d[0]] + d[1..] == d;
    } else {
      assert d + rest == rest;
    }
  }

  /** The match of a version that starts `d1.d2` and goes on with something other than a digit. */
  lemma MatchBaseParts(d1: string, d2: string, tail: string)
    requires |d1| > 0 && |d2| > 0 && AllDigits(d1) && AllDigits(d2)
    requires tail == "" || !IsDigit(tail[0])
    ensures MatchBase(d1 + "." + d2 + tail) ==
      Some((d1, d2, DigitPrefix(if |tail| > 0 && tail[0] == '.' then tail[1..] else tail)))
  {
    var r1 := d2 + tail;
    var s := d1 + ("." + r1);
    JoinAssoc(d1, ".", d2, tail);
    DigitPrefixStops(d1, "." + r1);
    SplitAfter(d1, "." + r1);
    SplitAfter(".", r1);
    assert s[|d1| + 1..] == r1 by {
      assert s[|d1|..] == "." + r1;
    }
    DigitPrefixStops(d2, tail);
    SplitAfter(d2, tail);
    MatchBaseOf(s, d1, r1, d2, tail);
  }

  /** `MatchBase` read off the pieces it finds. */
  lemma MatchBaseOf(s: string, d1: string, r1: string, d2: string, tail: string)
    requires DigitPrefix(s) == d1 && 0 < |d1| < |s| && s[|d1|] == '.' && s[|d1| + 1..] == r1
    requires DigitPrefix(r1) == d2 && 0 < |d2| <= |r1| && r1[|d2|..] == tail
    ensures MatchBase(s) == Some((d1, d2, DigitPrefix(if |tail| > 0 && tail[0] == '.' then tail[1..] else tail)))
  {
  }

  lemma JoinAssoc(a: string, b: string, c: string, d: string)
    ensures a + b + c + d == a + (b + (c + d))
  {
  }

  /** What follows a prefix. */
  lemma SplitAfter(a: string, b: string)
    ensures (a + b)[|a|..] == b
    ensures |b| > 0 ==> (a + b)[|a|] == b[0]
  {
  }

  /** A version written `a.b.c`, followed by anything that does not start with a digit (such as
      ".dev20260107+cu126"), has base version `[a, b, c]`. */
  lemma BaseOfThreeNumbers(a: nat, b: nat, c: nat, suffix: string)
    requires suffix == "" || !IsDigit(suffix[0])
    ensures GetBaseVersion(Some(NatToString(a) + "." + NatToString(b) + "." + NatToString(c) + suffix)) == [a, b, c]
  {
    var sa, sb, sc := NatToString(a), NatToString(b), NatToString(c);
    var rest := sc + suffix;
    var tail := "." + rest;
    assert sa + "." + sb + "." + sc + suffix == sa + "." + sb + tail by {
      JoinAssoc(sa + "." + sb, ".", sc, suffix);
      JoinAssoc(sa, ".", sb, tail);
    }
    MatchBaseParts(sa, sb, tail);
    SplitAfter(".", rest);
    DigitPrefixStops(sc, suffix);
    BaseOfMatch(sa + "." + sb + tail, sa, sb, sc);
    NumeralValue(a);
    NumeralValue(b);
    NumeralValue(c);
  }

  /** A two-part version `a.b` reads its missing third number as 0. */
  lemma BaseOfTwoNumbers(a: nat, b: nat)
    ensures GetBaseVersion(Some(NatToString(a) + "." + NatToString(b))) == [a, b, 0]
  {
    var sa, sb := NatToString(a), NatToString(b);
    assert sa + "." + sb + "" == sa + "." + sb;
    MatchBaseParts(sa, sb, "");
    assert DigitPrefix("") == "";
    BaseOfMatch(sa + "." + sb, sa, sb, "");
    NumeralValue(a);
    NumeralValue(b);
  }

  lemma BaseOfMatch(s: string, d1: string, d2: string, d3: string)
    requires s != "" && MatchBase(s) == Some((d1, d2, d3))
    ensures AllDigits(d1) && AllDigits(d2) && AllDigits(d3)
    ensures GetBaseVersion(Some(s)) == [DigitsOrZero(d1), DigitsOrZero(d2), DigitsOrZero(d3)]
  {
  }

  lemma NumeralValue(n: nat)
    ensures DigitsOrZero(NatToString(n)) == n
  {
    NatToStringValue(n);
  }

  /** A version without a leading `digits.digits` has the base version `[0, 0, 0]`. */
  lemma BaseOfNonMatching(version: string)
    requires |version| == 0 || !IsDigit(version[0])
    ensures GetBaseVersion(Some(version)) == [0, 0, 0]
  {
    assert DigitPrefix(version) == "";
  }

  // ---------------------------------------------------------------- nightly builds

  lemma {:induction false} ContainsFirstChar(s: string, pat: string)
    requires |pat| > 0 && Contains(s, pat)
    ensures pat[0] in s
    decreases |s|
  {
    if s[..|pat|] != pat {
      ContainsFirstChar(s[1..], pat);
    } else {
      assert s[0] == pat[0];
    }
  }

  lemma {:induction false} ContainsInside(a: string, pat: string, b: string)
    ensures Contains(a + pat + b, pat)
    decreases |a|
  {
    if |a| > 0 {
      assert (a + pat + b)[1..] == a[1..] + pat + b;
      ContainsInside(a[1..], pat, b);
    } else {
      assert a + pat + b == pat + b;
    }
  }

  /** A plain `a.b.c` release is not a nightly build. */
  lemma PlainVersionNotNightly(a: nat, b: nat, c: nat)
    ensures !IsNightlyVersion(Some(NatToString(a) + "." + NatToString(b) + "." + NatToString(c)))
  {
    var sa, sb, sc := NatToString(a), NatToString(b), NatToString(c);
    var s := sa + "." + sb + "." + sc;
    assert 'd' !in sa && 'd' !in sb && 'd' !in sc;
    assert 'n' !in sa && 'n' !in sb && 'n' !in sc;
    assert '+' !in sa && '+' !in sb && '+' !in sc;
    assert 'd' !in s && 'n' !in s && '+' !in s;
    if Contains(s, "dev") {
      ContainsFirstChar(s, "dev");
    }
    if Contains(s, "nightly") {
      ContainsFirstChar(s, "nightly");
    }
    if Contains(s, "+") {
      ContainsFirstChar(s, "+");
    }
  }

  /** A local version label ("+cu126") or a development release (".dev…") makes any version a
      nightly build. */
  lemma NightlyMarkers(base: string, rest: string)
    ensures IsNightlyVersion(Some(base + "+" + rest)) && IsNightlyVersion(Some(base + "dev" + rest))
  {
    ContainsInside(base, "+", rest);
    ContainsInside(base, "dev", rest);
  }
}
