/** The three `System.IO.Path` operations `SetOutputFile` uses, on paths with a
    single separator, and the suffixed path built from them. */
module Paths {
  import opened Wrappers
  import opened AsciiText

  const Separator: char := '\\'

  /** Where the file name starts: just after the last separator. */
  function NameStart(path: string): (k: nat)
    ensures k <= |path| && Separator !in path[k..]
    ensures k > 0 ==> path[k - 1] == Separator
    ensures k == 0 ==> Separator !in path
  {
    match LastIndexOf(path, Separator)
    case None => 0
    case Some(i) => i + 1
  }

  function GetFileName(path: string): string {
    path[NameStart(path)..]
  }

  /** `Path.GetDirectoryName`: everything before the last separator. A path
      without a separator has no directory (.NET returns the empty string,
      which `Path.Combine` ignores). */
  function GetDirectoryName(path: string): (r: Option<string>)
    ensures r.None? <==> Separator !in path
    ensures r.Some? ==> path == r.value + [Separator] + GetFileName(path)
  {
    var k := NameStart(path);
    if k == 0 then None
    else
      assert path == path[..k - 1] + [Separator] + path[k..];
      Some(path[..k - 1])
  }

  /** Where the stem of a file name ends: at its last '.', if any. */
  function StemEnd(name: string): (k: nat)
    ensures k <= |name|
    ensures k < |name| ==> name[k] == '.' && '.' !in name[k + 1..]
    ensures k == |name| ==> '.' !in name
  {
    match LastIndexOf(name, '.')
    case None => |name|
    case Some(i) => i
  }

  function Stem(name: string): string {
    name[..StemEnd(name)]
  }

  function Extension(name: string): string {
    var k := StemEnd(name);
    if k < |name| - 1 then name[k..] else ""
  }

  /** `Path.GetFileNameWithoutExtension`: the file name up to its last '.'. */
  function GetFileNameWithoutExtension(path: string): string {
    Stem(GetFileName(path))
  }

  /** `Path.GetExtension`: from the last '.' of the file name on, the point
      included; empty when there is no '.' or when it is the last character. */
  function GetExtension(path: string): string {
    Extension(GetFileName(path))
  }

  /** `Path.Combine` of a directory and a file name. */
  function Combine(directory: Option<string>, name: string): string {
    match directory
    case None => name
    case Some(d) => d + [Separator] + name
  }

  /** The output path of `SetOutputFile` for a non-empty suffix: the suffix
      goes between the file name's stem and its extension. */
  function SuffixedPath(path: string, suffix: string): string {
    Combine(GetDirectoryName(path), GetFileNameWithoutExtension(path) + suffix + GetExtension(path))
  }

  predicate EndsWithPoint(path: string) {
    var name := GetFileName(path);
    |name| > 0 && name[|name| - 1] == '.'
  }

  // ---------------------------------------------------------------------------
  // Properties

  /** Splitting a path into directory, stem and extension and joining them
      again gives the path back, unless its file name ends with '.'. */
  lemma SplitJoin(path: string)
    requires !EndsWithPoint(path)
    ensures Combine(GetDirectoryName(path), GetFileNameWithoutExtension(path) + GetExtension(path)) == path
  {
    var name := GetFileName(path);
    var k := StemEnd(name);
    assert name[..k] + (if k < |name| - 1 then name[k..] else "") == name;
  }

  lemma NameOfCombine(d: Option<string>, name: string)
    requires Separator !in name
    ensures GetFileName(Combine(d, name)) == name
    ensures GetDirectoryName(Combine(d, name)) == d
  {
    var p := Combine(d, name);
    if d.Some? {
      assert p[|d.value|] == Separator;
      assert p[|d.value| + 1..] == name;
      LastIndexOfIs(p, Separator, |d.value|);
      assert p[..|d.value|] == d.value;
    } else {
      assert LastIndexOf(p, Separator) == None;
    }
  }

  /** On a file name: inserting a suffix without '.' before the extension
      extends the stem and keeps the extension. */
  lemma SuffixedName(name: string, suffix: string)
    requires '.' !in suffix && !(|name| > 0 && name[|name| - 1] == '.')
    ensures Stem(Stem(name) + suffix + Extension(name)) == Stem(name) + suffix
    ensures Extension(Stem(name) + suffix + Extension(name)) == Extension(name)
  {
    var k := StemEnd(name);
    var stem, ext := Stem(name), Extension(name);
    var newName := stem + suffix + ext;
    if k < |name| {
      assert ext == name[k..];
      assert newName[|stem| + |suffix|] == '.';
      assert newName[|stem| + |suffix| + 1..] == name[k + 1..];
      LastIndexOfIs(newName, '.', |stem| + |suffix|);
      assert newName[..|stem| + |suffix|] == stem + suffix;
      assert newName[|stem| + |suffix|..] == ext;
    } else {
      assert ext == "" && newName == stem + suffix;
      assert '.' !in newName;
    }
  }

  /** The suffixed path keeps the directory and the extension and appends the
      suffix to the stem, when the suffix holds no separator and no '.', and
      the file name does not end with '.'. */
  lemma SuffixedPathKeepsParts(path: string, suffix: string)
    requires Separator !in suffix && '.' !in suffix && !EndsWithPoint(path)
    ensures var out := SuffixedPath(path, suffix);
            && GetDirectoryName(out) == GetDirectoryName(path)
            && GetFileNameWithoutExtension(out) == GetFileNameWithoutExtension(path) + suffix
            && GetExtension(out) == GetExtension(path)
  {
    var name := GetFileName(path);
    var newName := Stem(name) + suffix + Extension(name);
    assert Separator !in newName by {
      assert Separator !in name;
      assert forall ch | ch in Stem(name) :: ch in name;
      assert forall ch | ch in Extension(name) :: ch in name;
    }
    NameOfCombine(GetDirectoryName(path), newName);
    SuffixedName(name, suffix);
  }

  /** A file name ending with '.' loses that point: "file." with suffix "-x"
      becomes "file-x". */
  lemma TrailingPointIsDropped()
    ensures SuffixedPath("file.", "-x") == "file-x"
  {
    assert LastIndexOf("file.", Separator) == None;
    LastIndexOfIs("file.", '.', 4);
    assert GetFileNameWithoutExtension("file.") == "file";
  }
}
