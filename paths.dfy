/** Paths as sequences of components, with the three `std::path` operations the
    build driver relies on: `join`/`push` of one component, `parent` and `file_name`. */
module Paths {
  import opened Wrappers

  type Component = string

  /** An absolute path, listed from the root down; `[]` is the root itself. */
  type Path = seq<Component>

  /** The component `..`, for which `file_name` has no answer. */
  const ParentDir: Component := ".."

  /** `p.join(name)` / `p.push(name)` for a single relative component. */
  function Join(p: Path, name: Component): Path
  {
    p + [name]
  }

  /** `Path::parent`: the path without its last component; the root has none. */
  function Parent(p: Path): (r: Option<Path>)
    ensures r.None? <==> p == []
    ensures r.Some? ==> r.value < p && Join(r.value, p[|p| - 1]) == p
  {
    if p == [] then None else Some(p[..|p| - 1])
  }

  /** `Path::file_name`: the last component, unless the path is the root or ends in `..`. */
  function FileName(p: Path): (r: Option<Component>)
    ensures r.None? <==> p == [] || p[|p| - 1] == ParentDir
    ensures r.Some? ==> r.value != ParentDir && Parent(p).Some? && Join(Parent(p).value, r.value) == p
  {
    if p == [] || p[|p| - 1] == ParentDir then None else Some(p[|p| - 1])
  }

  /** `Parent` and `FileName` undo `Join`. */
  lemma JoinInverse(p: Path, name: Component)
    ensures Parent(Join(p, name)) == Some(p)
    ensures name != ParentDir ==> FileName(Join(p, name)) == Some(name)
  {
    assert Join(p, name)[..|p|] == p;
  }
}
