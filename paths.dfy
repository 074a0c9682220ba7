/**
 * The few `std::path::Path` operations the editor relies on when it moves
 * frames between directories, on paths written as '/'-separated strings.
 */
module Paths {
  import opened Wrappers
  import opened Sheets

  /** The position of the last '/' in `p`, if any. */
  function LastSlash(p: Path): (r: Option<nat>)
    ensures r.Some? ==> r.value < |p| && p[r.value] == '/' && '/' !in p[r.value + 1..]
    ensures r.None? ==> '/' !in p
    decreases |p|
  {
    if p == [] then None
    else if p[|p| - 1] == '/' then Some(|p| - 1)
    else
      var r := LastSlash(p[..|p| - 1]);
      assert p == p[..|p| - 1] + [p[|p| - 1]];
      if r.Some? then
        assert p[r.value + 1..] == p[..|p| - 1][r.value + 1..] + [p[|p| - 1]];
        r
      else r
  }

  /**
   * `Path::parent`: none for the empty path and the root, the empty path
   * for a bare name, the root for a name under the root, and otherwise
   * everything before the last separator.
   */
  function Parent(p: Path): (r: Option<Path>)
    ensures r.None? <==> p == "" || p == "/"
  {
    if p == "" || p == "/" then None
    else match LastSlash(p)
      case None => Some("")
      case Some(0) => Some("/")
      case Some(i) => Some(p[..i])
  }

  /**
   * `Path::file_name`: the text after the last separator, unless it is
   * empty or the parent-directory marker "..".
   */
  function FileName(p: Path): (r: Option<string>)
    ensures r.Some? ==> r.value != "" && r.value != ".." && '/' !in r.value
  {
    var name := match LastSlash(p) case None => p case Some(i) => p[i + 1..];
    if name == "" || name == ".." then None else Some(name)
  }

  /** `Path::join` of a single file name onto a directory. */
  function Join(directory: Path, name: string): (r: Path)
    ensures |r| >= |directory| + |name|
  {
    if directory == "" then name
    else if directory[|directory| - 1] == '/' then directory + name
    else directory + "/" + name
  }

  /** `Path::is_absolute` on Unix: the path starts at the root. */
  predicate IsAbsolute(p: Path) {
    |p| > 0 && p[0] == '/'
  }

  /** A name `Path::file_name` can return: non-empty, not "..", without separator. */
  predicate IsFileName(name: string) {
    name != "" && name != ".." && '/' !in name
  }

  /** A directory `Path::parent` can return without a trailing separator, or the root. */
  predicate IsDirectory(directory: Path) {
    directory == "" || directory == "/" || directory[|directory| - 1] != '/'
  }

  /** Joining a file name onto a directory splits back into the two. */
  lemma JoinSplits(directory: Path, name: string)
    requires IsDirectory(directory) && IsFileName(name)
    ensures FileName(Join(directory, name)) == Some(name)
    ensures Parent(Join(directory, name)) == Some(directory)
  {
    var p := Join(directory, name);
    if directory == "" {
      assert LastSlash(p) == None;
    } else {
      var i := |p| - |name| - 1;
      assert p == p[..i] + ['/'] + name;
      assert p[i + 1..] == name;
      assert p[..i] == if directory == "/" then "" else directory;
      LastSlashBeforeName(p[..i], name);
    }
  }

  /** The last separator of `q + "/" + name` is the one before `name`. */
  lemma {:induction false} LastSlashBeforeName(q: Path, name: string)
    requires '/' !in name
    ensures LastSlash(q + "/" + name) == Some(|q|)
  {
    var p := q + "/" + name;
    if name == [] {
      assert p == q + "/";
    } else {
      var shorter := name[..|name| - 1];
      assert p == (q + "/" + shorter) + [name[|name| - 1]];
      LastSlashSkips(q + "/" + shorter, name[|name| - 1]);
      LastSlashBeforeName(q, shorter);
    }
  }

  /** A last character other than '/' does not move the last separator. */
  lemma LastSlashSkips(p: Path, c: char)
    requires c != '/'
    ensures LastSlash(p + [c]) == LastSlash(p)
  {
    assert (p + [c])[..|p|] == p;
  }
}
