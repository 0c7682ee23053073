/** The fatal errors of the build driver, one constructor per way `build_and_pack`
    and `pack` can return early. */
module Errors {
  import opened Wrappers
  import opened Paths

  /** The `std::io::ErrorKind`s that `create_dir` can report on the abstract filesystem. */
  datatype IoKind = AlreadyExists | NotFound | NotADirectory

  datatype Error =
    /** A required resource exists in neither the manifest dir nor the out dir. */
    | Missing(fileName: Component, manifestDir: Path, outDir: Option<Path>)
    /** A resource exists in both search locations; there is no precedence rule. */
    | Ambiguous(fileName: Component, manifestDir: Path, outDir: Option<Path>)
    /** "built exe has no file name" */
    | NoFileName(executable: Path)
    /** "cargo manifest has no parent" */
    | NoParent(manifestPath: Path)
    /** A failed filesystem operation on `path`. */
    | Io(kind: IoKind, path: Path)
    /** The cargo subprocess could not be run or exited unsuccessfully. */
    | Cargo(message: string)
    /** The cargo metadata query failed. */
    | Metadata(message: string)
    /** The packaging collaborator (`AppBuilder`) failed. */
    | Packager(message: string)
}
