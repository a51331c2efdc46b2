/**
 * File paths as Node's `path` module treats the ones the extension handles:
 * a directory plus a final name. Only dirname, basename (with and without a
 * suffix to strip), extname and join are used, and each is a function of
 * these two parts.
 */
module Paths {
  import opened JsText

  datatype FilePath = FilePath(dir: string, name: string)

  /** `process.platform` value that selects Windows naming. */
  const Win32: string := "win32"

  /** Index of the last c in s, or -1 when there is none. */
  function LastIndexOf(s: string, c: char): (k: int)
    ensures -1 <= k < |s|
    ensures k >= 0 ==> s[k] == c
    ensures forall j :: k < j < |s| ==> s[j] != c
  {
    if |s| == 0 then -1
    else if s[|s| - 1] == c then |s| - 1
    else LastIndexOf(s[..|s| - 1], c)
  }

  /**
   * path.extname of a file name: from the last '.' to the end, or "" when the
   * name has no '.', when its only leading '.' is the first character (a
   * dot-file such as ".bashrc"), or when the name is "..".
   */
  function Extname(name: string): (ext: string)
    ensures ext == [] || (ext[0] == '.' && |ext| < |name| && EndsWith(name, ext))
    ensures forall j :: 0 < j < |ext| ==> ext[j] != '.'
    ensures (exists j :: 0 < j < |name| && name[j] == '.') && name != ".." ==> ext != []
    ensures name == ".." ==> ext == []
  {
    var k := LastIndexOf(name, '.');
    if k <= 0 || name == ".." then "" else name[k..]
  }

  /**
   * path.basename(p, suffix) on a path whose directory part is not empty:
   * the name with the suffix removed when the name ends with it and is longer
   * than it, else the name unchanged.
   */
  function BasenameWithout(name: string, suffix: string): (stem: string)
    ensures |stem| <= |name| && StartsWith(name, stem)
    ensures stem != name <==> 0 < |suffix| < |name| && EndsWith(name, suffix)
    ensures stem != name ==> stem + suffix == name
  {
    if 0 < |suffix| < |name| && EndsWith(name, suffix) then name[..|name| - |suffix|] else name
  }

  /** A name made of a stem other than "" and ".", a dot and a dot-free tail has that dot and tail as its extension. */
  lemma ExtnameOfDotted(stem: string, tail: string)
    requires stem != "" && stem != "."
    requires forall j :: 0 <= j < |tail| ==> tail[j] != '.'
    ensures Extname(stem + "." + tail) == "." + tail
  {
    var name := stem + "." + tail;
    var k := LastIndexOf(name, '.');
    assert name[|stem|] == '.';
    assert k == |stem| by {
      forall j | |stem| < j < |name| ensures name[j] != '.' {
        assert name[j] == tail[j - |stem| - 1];
      }
    }
    assert name[..|stem|] == stem;
    assert name[k..] == "." + tail;
  }

  /** Stripping the extension path.extname reports and putting it back gives the name again. */
  lemma StemPlusExtname(name: string)
    ensures BasenameWithout(name, Extname(name)) + Extname(name) == name
  {
    var ext := Extname(name);
    if ext != [] {
      assert name[..|name| - |ext|] + name[|name| - |ext|..] == name;
    }
  }

  /** The executable name a compiler writes for a stem: `.exe` appended on win32 only. */
  function ExecutableName(stem: string, platform: string): string {
    if platform == Win32 then stem + ".exe" else stem
  }

  /** Inverse of ExecutableName: the stem a produced executable was named after. */
  function ExecutableStem(exeName: string, platform: string): string {
    if platform == Win32 && EndsWith(exeName, ".exe") then exeName[..|exeName| - 4] else exeName
  }

  lemma ExecutableNameRoundTrip(stem: string, platform: string)
    ensures ExecutableStem(ExecutableName(stem, platform), platform) == stem
  {
    if platform == Win32 {
      var n := stem + ".exe";
      assert n[|n| - 4..] == ".exe";
      assert n[..|n| - 4] == stem;
    }
  }
}
