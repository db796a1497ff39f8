/**
 * The `__FILENAME__` macro: the part of a source path after its last '/'
 * (what `strrchr(path, '/') + 1` points at), or the whole path when it has no '/'.
 * Only '/' separates directories; a '\' is an ordinary character.
 */
module Basename {
  import opened Options

  /** `strrchr(s, c)` as an index: the position of the last `c` in `s`, if any. */
  function LastIndexOf(s: string, c: char): (r: Option<nat>)
    ensures r.Some? ==> r.value < |s| && s[r.value] == c && c !in s[r.value + 1..]
    ensures r.None? ==> c !in s
    decreases |s|
  {
    if s == [] then None
    else if s[|s| - 1] == c then Some(|s| - 1)
    else LastIndexOf(s[..|s| - 1], c)
  }

  function FileName(path: string): (r: string)
    ensures |r| <= |path| && r == path[|path| - |r|..]
    ensures '/' !in r
    ensures '/' !in path ==> r == path
    ensures '/' in path ==> |r| < |path| && path[|path| - |r| - 1] == '/'
  {
    match LastIndexOf(path, '/')
    case None => path
    case Some(i) => path[i + 1..]
  }

  /**
   * The result is determined by the two facts above: the one suffix of
   * `dir + "/" + name` that follows a '/' and holds none is `name`.
   */
  lemma FileNameOfJoin(dir: string, name: string)
    requires '/' !in name
    ensures FileName(dir + "/" + name) == name
  {
    var p := dir + "/" + name;
    var r := FileName(p);
    assert p[|p| - |name| - 1] == '/';
    assert '/' in p;
    assert p[|p| - |name|..] == name;
  }

  /** Taking the file name of a file name changes nothing. */
  lemma FileNameIdempotent(path: string)
    ensures FileName(FileName(path)) == FileName(path)
  {
  }

  /** A Windows-style path comes back whole: '\' is not a separator. */
  lemma BackslashIsNotSeparator()
    ensures FileName("src\\main.cc") == "src\\main.cc"
    ensures FileName("src/app\\main.cc") == "app\\main.cc"
  {
    assert '/' !in "src\\main.cc";
    FileNameOfJoin("src", "app\\main.cc");
    assert "src" + "/" + "app\\main.cc" == "src/app\\main.cc";
  }
}
