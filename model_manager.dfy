/** Model files: the name check and file naming of `GetModelPath`, and the model catalogue.
    Paths use the Windows separators; `Path.GetFullPath` is taken as the identity, so the models
    directory is expected in its full form already. */
module ModelManager {
  import opened Wrappers
  import opened Text
  import opened Models

  const ModelFilePrefix: string := "ggml-"
  const ModelFileExtension: string := ".bin"

  predicate IsSeparator(ch: char) { ch == '\\' || ch == '/' }

  predicate HasSeparator(s: string) { exists i :: 0 <= i < |s| && IsSeparator(s[i]) }

  /** Length of a drive-relative root "X:" at the start of a path (roots that contain separators
      end at or before the last separator and need no length of their own here). */
  function DriveRootLength(path: string): nat
  {
    if |path| >= 2 && path[1] == ':' && IsAsciiLetter(path[0]) then 2 else 0
  }

  /** One past the last separator in `path`, or 0 when there is none. */
  function AfterLastSeparator(path: string): (k: nat)
    ensures k <= |path|
    ensures k > 0 ==> IsSeparator(path[k - 1])
    ensures forall i :: k <= i < |path| ==> !IsSeparator(path[i])
  {
    if |path| == 0 then 0
    else if IsSeparator(path[|path| - 1]) then |path|
    else AfterLastSeparator(path[..|path| - 1])
  }

  /** `Path.GetFileName`: the text after the last separator or after the root. */
  function GetFileName(path: string): (name: string)
    ensures |name| <= |path|
  {
    var root := DriveRootLength(path);
    var after := AfterLastSeparator(path);
    path[if after < root then root else after..]
  }

  /** `Path.Combine(dir, file)` for a file name that is not rooted. */
  function Combine(dir: string, file: string): string
  {
    if |dir| == 0 then file
    else if IsSeparator(dir[|dir| - 1]) then dir + file
    else dir + "\\" + file
  }

  function InvalidModelName(name: string): string { "Invalid model name: " + name }

  /** `GetModelPath`: the bare name check, the "ggml-<name>.bin" file in the models directory, and
      the check that the full path stays inside that directory (an `ArgumentException` is `Err`). */
  function GetModelPath(modelsDirectory: string, modelName: string): Result<string, string>
  {
    var safeName := GetFileName(modelName);
    if safeName != modelName then Err(InvalidModelName(modelName))
    else
      var fullPath := Combine(modelsDirectory, ModelFilePrefix + safeName + ModelFileExtension);
      var modelsFullPath := modelsDirectory;
      if !StartsWith(UpperAscii(fullPath), UpperAscii(modelsFullPath)) then Err(InvalidModelName(modelName))
      else Ok(fullPath)
  }

  /** A name is its own file name exactly when it has no separator and no drive prefix. */
  lemma {:induction false} FileNameOfBareName(name: string)
    ensures GetFileName(name) == name <==> !HasSeparator(name) && DriveRootLength(name) == 0
  {
    var k := AfterLastSeparator(name);
    if HasSeparator(name) {
      var i :| 0 <= i < |name| && IsSeparator(name[i]);
      assert k > i;
    }
  }

  /** The file name of a combined path is the file that was appended. */
  lemma {:induction false} FileNameOfCombine(dir: string, file: string)
    requires |file| >= 2 && file[1] != ':' && !HasSeparator(file)
    ensures GetFileName(Combine(dir, file)) == file
  {
    var p := Combine(dir, file);
    var prefix := p[..|p| - |file|];
    assert p == prefix + file;
    LastSeparatorOfAppend(prefix, file);
    if |dir| == 0 {
      assert prefix == "";
    } else {
      assert IsSeparator(prefix[|prefix| - 1]);
    }
  }

  lemma {:induction false} LastSeparatorOfAppend(prefix: string, file: string)
    requires !HasSeparator(file) && (|prefix| == 0 || IsSeparator(prefix[|prefix| - 1]))
    ensures AfterLastSeparator(prefix + file) == |prefix|
    decreases |file|
  {
    var p := prefix + file;
    if |file| == 0 {
      assert p == prefix;
    } else {
      assert p[..|p| - 1] == prefix + file[..|file| - 1];
      assert !IsSeparator(file[|file| - 1]);
      var shorter := file[..|file| - 1];
      assert !HasSeparator(shorter) by {
        forall i | 0 <= i < |shorter| ensures !IsSeparator(shorter[i]) {
          assert shorter[i] == file[i];
        }
      }
      LastSeparatorOfAppend(prefix, file[..|file| - 1]);
    }
  }

  /** A path that starts with the directory still does so after both are upper-cased, so the
      ordinal case-insensitive containment check accepts it. */
  lemma PrefixIgnoringCase(path: string, dir: string)
    requires StartsWith(path, dir)
    ensures StartsWith(UpperAscii(path), UpperAscii(dir))
  {
    var up := UpperAscii(path);
    var ud := UpperAscii(dir);
    forall i | 0 <= i < |dir| ensures up[i] == ud[i] {
      assert path[i] == dir[i];
    }
    assert up[..|dir|] == ud;
  }

  lemma CombineStartsWithDirectory(dir: string, file: string)
    ensures StartsWith(Combine(dir, file), dir)
  {
    assert Combine(dir, file)[..|dir|] == dir;
  }

  /** The model file of a bare name is itself bare and has no drive prefix. */
  lemma ModelFileIsBare(name: string)
    requires !HasSeparator(name)
    ensures var file := ModelFilePrefix + name + ModelFileExtension;
            |file| >= 2 && file[1] != ':' && !HasSeparator(file)
  {
    var file := ModelFilePrefix + name + ModelFileExtension;
    forall i | 0 <= i < |file| ensures !IsSeparator(file[i]) {
      if 5 <= i < 5 + |name| {
        assert file[i] == name[i - 5];
      }
    }
  }

  /** A bare model name is accepted, and the accepted path lies inside the models directory and
      is named "ggml-<name>.bin"; any other name is refused with "Invalid model name". */
  lemma GetModelPathSpec(modelsDirectory: string, modelName: string)
    ensures GetModelPath(modelsDirectory, modelName).Ok?
            <==> !HasSeparator(modelName) && DriveRootLength(modelName) == 0
    ensures GetModelPath(modelsDirectory, modelName).Err? ==>
              GetModelPath(modelsDirectory, modelName).error == InvalidModelName(modelName)
    ensures GetModelPath(modelsDirectory, modelName).Ok? ==>
              var path := GetModelPath(modelsDirectory, modelName).value;
              StartsWith(path, modelsDirectory)
              && GetFileName(path) == ModelFilePrefix + modelName + ModelFileExtension
  {
    FileNameOfBareName(modelName);
    if GetFileName(modelName) == modelName {
      var file := ModelFilePrefix + modelName + ModelFileExtension;
      var path := Combine(modelsDirectory, file);
      CombineStartsWithDirectory(modelsDirectory, file);
      PrefixIgnoringCase(path, modelsDirectory);
      ModelFileIsBare(modelName);
      FileNameOfCombine(modelsDirectory, file);
    }
  }

  /** A plain catalogue name is accepted. */
  lemma GetModelPathAcceptsBase(dir: string)
    ensures GetModelPath(dir, "base").Ok?
  {
    var name := "base";
    assert !HasSeparator(name) by {
      forall i | 0 <= i < |name| ensures !IsSeparator(name[i]) {
        assert name[i] in "base";
      }
    }
    GetModelPathSpec(dir, name);
  }

  /** A name with a separator at index `k` is refused. */
  lemma GetModelPathRejectsSeparator(dir: string, name: string, k: nat)
    requires k < |name| && IsSeparator(name[k])
    ensures GetModelPath(dir, name) == Err(InvalidModelName(name))
  {
    GetModelPathSpec(dir, name);
  }

  /** The traversal attempts of the unit tests are refused. */
  lemma GetModelPathRejectsParentPath(dir: string)
    ensures GetModelPath(dir, "../../etc/hosts").Err?
  {
    GetModelPathRejectsSeparator(dir, "../../etc/hosts", 2);
  }

  lemma GetModelPathRejectsWindowsParentPath(dir: string)
    ensures GetModelPath(dir, "..\\..\\Windows\\System32\\cmd").Err?
  {
    GetModelPathRejectsSeparator(dir, "..\\..\\Windows\\System32\\cmd", 2);
  }

  lemma GetModelPathRejectsSubdirectory(dir: string)
    ensures GetModelPath(dir, "sub/base").Err?
  {
    GetModelPathRejectsSeparator(dir, "sub/base", 3);
  }

  /** `GetAvailableModels`: the whole catalogue, in table order, each name once. */
  function GetAvailableModels(): (models: seq<WhisperModelInfo>)
    ensures seq(|models|, i requires 0 <= i < |models| => models[i].name) ==
      ["tiny", "tiny.en", "base", "base.en", "small", "small.en", "medium", "medium.en", "large-v3", "large-v3-turbo"]
    ensures seq(|models|, i requires 0 <= i < |models| => models[i].displayName) ==
      ["Tiny", "Tiny (English)", "Base", "Base (English)", "Small", "Small (English)", "Medium", "Medium (English)",
       "Large", "Large Turbo"]
    ensures seq(|models|, i requires 0 <= i < |models| => models[i].ggmlType) ==
      [Tiny, TinyEn, Base, BaseEn, Small, SmallEn, Medium, MediumEn, LargeV3, LargeV3Turbo]
    ensures seq(|models|, i requires 0 <= i < |models| => models[i].approxSize) ==
      ["~75 MB", "~75 MB", "~142 MB", "~142 MB", "~466 MB", "~466 MB", "~1.5 GB", "~1.5 GB", "~2.9 GB", "~1.5 GB"]
    ensures forall i, j :: 0 <= i < j < |models| ==> models[i].name != models[j].name
  {
    AllModels
  }
}
