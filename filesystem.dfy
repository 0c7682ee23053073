/** An abstract filesystem: the set of paths that are regular files and the set of
    paths that are directories. The pure `Tree` value is what the classifier and
    the resolvers read; the `FileSystem` object is the one the staging steps change. */
module FileSystems {
  import opened Wrappers
  import opened Paths
  import opened Errors

  datatype Tree = Tree(files: set<Path>, dirs: set<Path>) {
    /** `Path::is_file` */
    predicate IsFile(p: Path) { p in files }

    /** `Path::is_dir`; the root is always a directory. */
    predicate IsDir(p: Path) { p == [] || p in dirs }

    /** `Path::exists`: a file or a directory. */
    predicate Exists(p: Path) { IsFile(p) || IsDir(p) }

    /** Nothing is both a file and a directory, the root is not a file, and every
        entry sits inside directories all the way up. */
    ghost predicate WellFormed() {
      && files !! dirs
      && [] !in files
      && (forall q, n | q in files && 0 < n < |q| :: q[..n] in dirs)
      && (forall q, n | q in dirs && 0 < n < |q| :: q[..n] in dirs)
    }

    /** `std::fs::create_dir`: fails if something already exists at `p` or if the
        parent of `p` is not a directory; otherwise adds exactly the directory `p`. */
    function CreateDir(p: Path): (r: Result<Tree, Error>)
      ensures r.Ok? <==> !Exists(p) && Parent(p).Some? && IsDir(Parent(p).value)
      ensures r.Err? && Exists(p) ==> r.error == Io(AlreadyExists, p)
      ensures r.Ok? ==> r.value.IsDir(p)
      ensures r.Ok? ==> forall q :: r.value.IsFile(q) == IsFile(q)
      ensures r.Ok? ==> forall q :: q != p ==> r.value.IsDir(q) == IsDir(q)
      ensures r.Ok? && WellFormed() ==> r.value.WellFormed()
    {
      if Exists(p) then Err(Io(AlreadyExists, p))
      else
        var parent := p[..|p| - 1];
        if IsDir(parent) then
          var r := Tree(files, dirs + {p});
          assert WellFormed() ==> r.WellFormed() by {
            if WellFormed() {
              forall n | 0 < n < |p|
                ensures p[..n] in r.dirs
              {
                if n < |parent| {
                  assert p[..n] == parent[..n];
                }
              }
            }
          }
          Ok(r)
        else if IsFile(parent) then Err(Io(NotADirectory, parent))
        else Err(Io(NotFound, parent))
    }

    /** `std::fs::remove_dir_all` on an existing directory other than the root:
        removes `p` and everything below it, and nothing else. */
    function RemoveDirAll(p: Path): (r: Tree)
      requires p != [] && IsDir(p)
      ensures !r.Exists(p)
      ensures forall q :: r.IsFile(q) <==> IsFile(q) && !(p <= q)
      ensures forall q :: r.IsDir(q) <==> IsDir(q) && !(p <= q)
      ensures WellFormed() ==> r.WellFormed()
    {
      var r := Tree(set q | q in files && !(p <= q), set q | q in dirs && !(p <= q));
      assert WellFormed() ==> r.WellFormed() by {
        if WellFormed() {
          forall q, n | q in r.files + r.dirs && 0 < n < |q|
            ensures q[..n] in r.dirs
          {
            if p <= q[..n] {
              PrefixOfPrefix(p, q, n);
            }
          }
        }
      }
      r
    }
  }

  /** A path below a prefix of `q` lies below `q`. */
  lemma PrefixOfPrefix(p: Path, q: Path, n: nat)
    requires n <= |q| && p <= q[..n]
    ensures p <= q
  {
  }

  /** The filesystem the staging steps act on, changed in place. */
  class FileSystem {
    var files: set<Path>
    var dirs: set<Path>

    /** The current contents as a value. */
    function State(): Tree
      reads this
    {
      Tree(files, dirs)
    }

    ghost predicate Valid()
      reads this
    {
      State().WellFormed()
    }

    constructor (t: Tree)
      requires t.WellFormed()
      ensures Valid() && State() == t
    {
      files, dirs := t.files, t.dirs;
    }

    /** `std::fs::create_dir(p)`: on success the state is `CreateDir`'s tree, on
        failure it is unchanged and the error is returned. */
    method CreateDir(p: Path) returns (e: Option<Error>)
      requires Valid()
      modifies this
      ensures Valid()
      ensures match old(State()).CreateDir(p)
              case Ok(t) => e == None && State() == t
              case Err(x) => e == Some(x) && State() == old(State())
    {
      var r := State().CreateDir(p);
      match r {
        case Ok(t) =>
          files, dirs := t.files, t.dirs;
          e := None;
        case Err(x) =>
          e := Some(x);
      }
    }

    /** `std::fs::remove_dir_all(p)` on a directory. */
    method RemoveDirAll(p: Path)
      requires Valid() && p != [] && State().IsDir(p)
      modifies this
      ensures Valid()
      ensures State() == old(State()).RemoveDirAll(p)
    {
      var t := State().RemoveDirAll(p);
      files, dirs := t.files, t.dirs;
    }
  }
}
