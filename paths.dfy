/**
 * Host paths, as `Path::join` builds them on Windows: a child path is its
 * directory, one separator, and its name. Drive letters, `..` components and
 * the other rules of Windows path syntax play no part in the flashing code
 * and are not modelled.
 */
module Paths {

  const Separator: char := '\\'

  /** `dir.join(name)` for a plain file name. */
  function JoinPath(dir: string, name: string): string
  {
    dir + [Separator] + name
  }

  /** `path` lies inside the directory `dir`: it is `dir`, a separator, and more. */
  predicate Within(dir: string, path: string)
  {
    |dir| + 1 <= |path| && path[..|dir| + 1] == dir + [Separator]
  }

  /** The last component of `path`: everything after its last separator. */
  function FileName(path: string): (name: string)
    ensures Separator !in name
    ensures |name| <= |path|
    ensures name == path[|path| - |name|..]
  {
    if path == [] || path[|path| - 1] == Separator then []
    else FileName(path[..|path| - 1]) + [path[|path| - 1]]
  }

  /** Everything before the last separator of `path` (empty when there is none). */
  function Parent(path: string): (dir: string)
    ensures |dir| < |path| || path == []
  {
    if path == [] then []
    else if path[|path| - 1] == Separator then path[..|path| - 1]
    else Parent(path[..|path| - 1])
  }

  /** Joining a plain name to a directory can be undone: the parts come back unchanged. */
  lemma {:induction false} ParentAndFileNameOfJoin(dir: string, name: string)
    requires Separator !in name
    ensures Parent(JoinPath(dir, name)) == dir
    ensures FileName(JoinPath(dir, name)) == name
    decreases |name|
  {
    var path := JoinPath(dir, name);
    if name == [] {
      assert path[..|path| - 1] == dir;
    } else {
      var init := name[..|name| - 1];
      assert Separator !in init by {
        forall i | 0 <= i < |init| ensures init[i] != Separator {
          assert init[i] == name[i];
        }
      }
      assert path[..|path| - 1] == JoinPath(dir, init);
      assert path[|path| - 1] == name[|name| - 1];
      ParentAndFileNameOfJoin(dir, init);
      assert init + [name[|name| - 1]] == name;
    }
  }

  /** `JoinPath` is injective on plain names: distinct (directory, name) pairs give distinct paths. */
  lemma JoinPathInjective(dir1: string, name1: string, dir2: string, name2: string)
    requires Separator !in name1 && Separator !in name2
    requires JoinPath(dir1, name1) == JoinPath(dir2, name2)
    ensures dir1 == dir2 && name1 == name2
  {
    ParentAndFileNameOfJoin(dir1, name1);
    ParentAndFileNameOfJoin(dir2, name2);
  }
}
