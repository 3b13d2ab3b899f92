/** The release script's version arithmetic: the bump type taken from the command line and the new
    package version computed from the old one. Reading and writing package.json and running the
    build are left out; the old version is an input and the new one the output. */
module Release {
  import opened Wrappers
  import opened Text

  datatype BumpType = Patch | Minor | Major

  const UsageMessage: string := "Usage: node release.js [patch|minor|major]"

  function BumpTypeName(b: BumpType): string
  {
    match b
    case Patch => "patch"
    case Minor => "minor"
    case Major => "major"
  }

  /** `process.argv[2] || 'patch'` followed by the check against the three bump types: a missing or
      empty argument means "patch", and any other word stops the script with the usage text (Err). */
  function ParseBumpType(arg: Option<string>): Result<BumpType, string>
  {
    var name := if arg.None? || arg.value == "" then "patch" else arg.value;
    if name == "patch" then Ok(Patch)
    else if name == "minor" then Ok(Minor)
    else if name == "major" then Ok(Major)
    else Err(UsageMessage)
  }

  /** The default is a patch release, exactly the three names are accepted, and each name selects
      its own bump type. */
  lemma ParseBumpTypeSpec(arg: Option<string>)
    ensures arg.None? || arg == Some("") ==> ParseBumpType(arg) == Ok(Patch)
    ensures ParseBumpType(arg).Ok? <==> arg.None? || arg.value in {"", "patch", "minor", "major"}
    ensures ParseBumpType(arg).Err? ==> ParseBumpType(arg).error == UsageMessage
    ensures forall b :: ParseBumpType(Some(BumpTypeName(b))) == Ok(b)
  {
  }

  // ---------------------------------------------------------------- JavaScript numbers

  /** A JavaScript number as the version parts can hold it: an integer or NaN. */
  datatype JsNumber = NaN | Num(value: int)

  /** `Number(s)` for a piece of a version string: surrounding white space is ignored, an empty
      piece is 0, an optionally signed run of decimal digits is its value, anything else is NaN. */
  function ToNumber(s: string): JsNumber
  {
    var t := TrimJs(s);
    if t == "" then Num(0)
    else
      var neg := t[0] == '-';
      var ds := if t[0] == '-' || t[0] == '+' then t[1..] else t;
      if |ds| > 0 && AllDigits(ds) then Num(if neg then 0 - DigitsValue(ds) else DigitsValue(ds)) else NaN
  }

  /** How `join` writes a number. */
  function NumberText(n: JsNumber): string
  {
    match n
    case NaN => "NaN"
    case Num(v) => IntToString(v)
  }

  /** `x++`: NaN stays NaN. */
  function Increment(n: JsNumber): JsNumber
  {
    match n
    case NaN => NaN
    case Num(v) => Num(v + 1)
  }

  /** `split('.').map(Number)`: one number per piece, in order. */
  function Numbers(pieces: seq<string>): (r: seq<JsNumber>)
    ensures |r| == |pieces|
    ensures forall i :: 0 <= i < |pieces| ==> r[i] == ToNumber(pieces[i])
  {
    seq(|pieces|, i requires 0 <= i < |pieces| => ToNumber(pieces[i]))
  }

  /** The texts `join('.')` writes for the parts: one per part, in order. */
  function Texts(parts: seq<JsNumber>): (r: seq<string>)
    ensures |r| == |parts|
    ensures forall i :: 0 <= i < |parts| ==> r[i] == NumberText(parts[i])
  {
    seq(|parts|, i requires 0 <= i < |parts| => NumberText(parts[i]))
  }

  /** The three `if`s of the script applied to the parts. */
  function BumpedParts(parts: seq<JsNumber>, bump: BumpType): (r: seq<JsNumber>)
    requires |parts| >= 3
  {
    match bump
    case Patch => parts[2 := Increment(parts[2])]
    case Minor => parts[1 := Increment(parts[1])][2 := Num(0)]
    case Major => parts[0 := Increment(parts[0])][1 := Num(0)][2 := Num(0)]
  }

  predicate HasThreeParts(version: string) { |Split(version, '.')| >= 3 }

  /** The version the script writes for `oldVersion`. */
  function NewVersion(oldVersion: string, bump: BumpType): string
    requires HasThreeParts(oldVersion)
  {
    Join(".", Texts(BumpedParts(Numbers(Split(oldVersion, '.')), bump)))
  }

  /** The version bump of the script: split on ".", convert each piece with `Number`, change the
      parts in place, and join them with "." again. */
  method BumpVersion(oldVersion: string, bump: BumpType) returns (newVersion: string)
    requires HasThreeParts(oldVersion)
    ensures newVersion == NewVersion(oldVersion, bump)
  {
    var pieces := Split(oldVersion, '.');
    var parts := new JsNumber[|pieces|](i requires 0 <= i < |pieces| => ToNumber(pieces[i]));
    assert parts[..] == Numbers(pieces);
    if bump == Patch {
      parts[2] := Increment(parts[2]);
    }
    if bump == Minor {
      parts[1] := Increment(parts[1]);
      parts[2] := Num(0);
    }
    if bump == Major {
      parts[0] := Increment(parts[0]);
      parts[1] := Num(0);
      parts[2] := Num(0);
    }
    assert parts[..] == BumpedParts(Numbers(pieces), bump);
    newVersion := Join(".", Texts(parts[..]));
  }

  // ---------------------------------------------------------------- semantic versions

  /** A plain `major.minor.patch` version. */
  datatype Version = Version(major: nat, minor: nat, patch: nat)

  function VersionText(v: Version): string
  {
    NatToString(v.major) + "." + NatToString(v.minor) + "." + NatToString(v.patch)
  }

  /** The usual meaning of the three bump types: a patch release raises the third number, a minor
      release the second and resets the third, a major release the first and resets the others. */
  function NextVersion(v: Version, bump: BumpType): Version
  {
    match bump
    case Patch => v.(patch := v.patch + 1)
    case Minor => Version(v.major, v.minor + 1, 0)
    case Major => Version(v.major + 1, 0, 0)
  }

  /** A decimal numeral reads back as its value. */
  lemma ToNumberOfNat(n: nat)
    ensures ToNumber(NatToString(n)) == Num(n)
  {
    var s := NatToString(n);
    NatToStringValue(n);
    assert !IsJsWhite(s[0]) && !IsJsWhite(s[|s| - 1]);
    assert TrimJs(s) == s;
  }

  lemma VersionTextSplit(v: Version)
    ensures Split(VersionText(v), '.') == [NatToString(v.major), NatToString(v.minor), NatToString(v.patch)]
  {
    var parts := [NatToString(v.major), NatToString(v.minor), NatToString(v.patch)];
    JoinThree(parts[0], parts[1], parts[2]);
    forall i | 0 <= i < |parts| ensures '.' !in parts[i] {
      assert forall k :: 0 <= k < |parts[i]| ==> IsDigit(parts[i][k]);
    }
    SplitJoin(parts, '.');
  }

  /** Bumping a plain version gives the plain version the bump type means. */
  lemma {:induction false} BumpPlainVersion(v: Version, bump: BumpType)
    ensures HasThreeParts(VersionText(v)) && NewVersion(VersionText(v), bump) == VersionText(NextVersion(v, bump))
  {
    var pieces := Split(VersionText(v), '.');
    assert Numbers(pieces) == [Num(v.major), Num(v.minor), Num(v.patch)] by {
      VersionTextSplit(v);
      ToNumberOfNat(v.major);
      ToNumberOfNat(v.minor);
      ToNumberOfNat(v.patch);
    }
    var w := NextVersion(v, bump);
    var texts := Texts(BumpedParts(Numbers(pieces), bump));
    assert texts == [NatToString(w.major), NatToString(w.minor), NatToString(w.patch)] by {
      BumpedTexts(v, bump);
    }
    JoinThree(texts[0], texts[1], texts[2]);
  }

  /** The bumped parts of a plain version, written out, are the numerals of the next version. */
  lemma BumpedTexts(v: Version, bump: BumpType)
    ensures var w := NextVersion(v, bump);
      Texts(BumpedParts([Num(v.major), Num(v.minor), Num(v.patch)], bump)) ==
      [NatToString(w.major), NatToString(w.minor), NatToString(w.patch)]
  {
    var w := NextVersion(v, bump);
    var bumped := BumpedParts([Num(v.major), Num(v.minor), Num(v.patch)], bump);
    assert bumped == [Num(w.major), Num(w.minor), Num(w.patch)];
    assert Texts(bumped)[0] == NatToString(w.major);
    assert Texts(bumped)[1] == NatToString(w.minor);
    assert Texts(bumped)[2] == NatToString(w.patch);
  }

  lemma JoinThree(a: string, b: string, c: string)
    ensures Join(".", [a, b, c]) == a + "." + b + "." + c
  {
    assert [a, b, c][1..] == [b, c];
    assert [b, c][1..] == [c];
    assert Join(".", [b, c]) == b + "." + c;
    assert Join(".", [a, b, c]) == a + "." + (b + "." + c);
  }

  /** The script's own examples, on plain versions (their strings follow by `BumpPlainVersion`):
      1.0.0 becomes 1.0.1, 1.1.0 or 2.0.0. */
  lemma BumpExamples()
    ensures var one := Version(1, 0, 0);
      VersionText(one) == "1.0.0" &&
      VersionText(NextVersion(one, Patch)) == "1.0.1" &&
      VersionText(NextVersion(one, Minor)) == "1.1.0" &&
      VersionText(NextVersion(one, Major)) == "2.0.0"
  {
    SmallNumerals();
  }

  lemma SmallNumerals()
    ensures NatToString(0) == "0" && NatToString(1) == "1" && NatToString(2) == "2"
  {
  }
}
