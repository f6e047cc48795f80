/** Path strings as the POSIX flavour of Python's os.path handles them. */
module Paths {

  type Path = string

  const Sep: char := '/'

  /** os.path.join(dir, name) for two components (posixpath.join): an absolute
      second component replaces the first; otherwise a separator is inserted
      unless the first is empty or already ends with one. */
  function Join(dir: Path, name: string): Path
  {
    if |name| > 0 && name[0] == Sep then name
    else if dir == [] || dir[|dir| - 1] == Sep then dir + name
    else dir + [Sep] + name
  }

  /** A joined path ends with the name joined onto it. */
  lemma JoinEndsWithName(dir: Path, name: string)
    ensures var p := Join(dir, name);
      |name| <= |p| && p[|p| - |name|..] == name
  {
  }

  /** os.path.basename: everything after the last separator. */
  function BaseName(p: Path): (b: string)
    ensures Sep !in b
    ensures |b| <= |p| && p[|p| - |b|..] == b
  {
    if p == [] || p[|p| - 1] == Sep then []
    else BaseName(p[..|p| - 1]) + [p[|p| - 1]]
  }

  /** A plain file name: no directory component. */
  predicate IsPlainName(name: string)
  {
    Sep !in name
  }

  /** Appending a plain name to a prefix that is empty or ends in a
      separator makes that name the base name. */
  lemma {:induction false} BaseNameAfterSep(prefix: Path, name: string)
    requires prefix == [] || prefix[|prefix| - 1] == Sep
    requires IsPlainName(name)
    ensures BaseName(prefix + name) == name
  {
    if name == [] {
      assert prefix + name == prefix;
    } else {
      var init, c := name[..|name| - 1], name[|name| - 1];
      var q := prefix + name;
      assert c in name;
      assert q[|q| - 1] == c && c != Sep;
      assert q[..|q| - 1] == prefix + init;
      assert Sep !in init;
      BaseNameAfterSep(prefix, init);
      assert BaseName(q) == BaseName(prefix + init) + [c];
      assert init + [c] == name;
    }
  }

  /** Joining a directory with a plain file name yields a path whose base
      name is that file name, whatever the directory: this is why by-name
      grouping ignores directory differences. */
  lemma JoinBaseName(dir: Path, name: string)
    requires IsPlainName(name)
    ensures BaseName(Join(dir, name)) == name
  {
    assert |name| > 0 ==> name[0] in name;
    if dir == [] || dir[|dir| - 1] == Sep {
      BaseNameAfterSep(dir, name);
    } else {
      BaseNameAfterSep(dir + [Sep], name);
      assert dir + [Sep] + name == (dir + [Sep]) + name;
    }
  }
}
