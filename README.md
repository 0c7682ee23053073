# cargo-acap-build: the decision layer of `build_and_pack`

`cargo acap-build` runs `cargo build` for one ACAP target architecture. It reads the
JSON messages cargo prints and turns every executable cargo built into an
artifact. An executable whose package has a `manifest.json` becomes an ACAP app:
it is staged under the target directory, its resources are resolved and it is
packaged into an `.eap` file. Any other executable is returned as it is.

This project models that decision layer in Dafny and proves its properties:

- the decode callback that keeps the lines that were read and decoded, in order;
- the single pass over the messages, with its map from package to build-script
  out dir (last write wins) and its list of artifacts;
- the app classifier (`is_app`);
- the two resource resolvers (`exactly_one`, `at_most_one`);
- the staging prelude of `pack` and the order in which `pack` resolves
  resources and calls the app builder.

The modules follow the pipeline:

- `Wrappers`: `Option` and `Result`.
- `Paths`: paths as sequences of components, with `join`, `parent` and
  `file_name`.
- `Errors`: every fatal error of the driver.
- `FileSystems`: an abstract filesystem. The value `Tree` is a set of file paths
  and a set of directory paths. The class `FileSystem` is the state that
  `create_dir` and `remove_dir_all` change.
- `Protocol`: cargo's four message kinds, `Artifact`, and the decode callback.
- `Resolver`: `is_app`, `exactly_one` and `at_most_one`.
- `Packing`: `pack`, split into the staging prelude (`Staging`) and the resolution
  and hand-off (`Assemble`).
- `Build`: the message walk (`Walk`, `Accumulate`) and `build_and_pack`.
- `Scenarios`: three whole-build consequences.

Each imperative method is proved against a function of its inputs and old state:

- `CollectMessages` against `Parsed`;
- `FileSystem.CreateDir` and `FileSystem.RemoveDirAll` against the `Tree`
  operations;
- `Pack` against `Packed`;
- `Accumulate` against `Walk`;
- `BuildAndPack` against `BuildOutcome`.

The lemmas state the properties of those functions.

Two details of `pack` and `is_app` are easy to miss, and the model keeps them:

- `pack` fails with "cargo manifest has no parent" when the manifest path has no
  parent (`NoParent`).
- The classifier looks for a regular file called `manifest.json`. The resolvers
  accept anything that exists, directories included.

## Model

| member | source | states |
|---|---|---|
| `Paths.Parent` | crates/cargo-acap-build/src/cargo_acap.rs:129-131 | only the root has no parent; a parent is a proper prefix that gives the path back when its last component is joined on |
| `Paths.FileName` | crates/cargo-acap-build/src/cargo_acap.rs:120-124 | there is no file name exactly for the root and for a path ending in `..`; otherwise joining the file name onto the parent gives the path back |
| `Paths.JoinInverse` | crates/cargo-acap-build/src/cargo_acap.rs:116-120 | `parent` and `file_name` undo `join`/`push` of one component |
| `FileSystems.Tree.CreateDir` | crates/cargo-acap-build/src/cargo_acap.rs:117-119 | `create_dir` succeeds iff nothing exists at the path and its parent is a directory; on success exactly that directory is added, and well-formedness is kept; an existing path gives `AlreadyExists` |
| `FileSystems.Tree.RemoveDirAll` | crates/cargo-acap-build/src/cargo_acap.rs:125-127 | `remove_dir_all` removes the directory and everything below it, and nothing else; well-formedness is kept |
| `FileSystems.FileSystem.CreateDir` | crates/cargo-acap-build/src/cargo_acap.rs:117-119 | the in-place filesystem takes the new state on success and is unchanged on failure, when the error is returned |
| `FileSystems.FileSystem.RemoveDirAll` | crates/cargo-acap-build/src/cargo_acap.rs:125-127 | the in-place filesystem becomes the tree with the directory removed |
| `Protocol.Parsed` | crates/cargo-acap-build/src/cargo_acap.rs:38-50 | there are never more kept messages than lines |
| `Protocol.ParsedSound` | crates/cargo-acap-build/src/cargo_acap.rs:38-50 | every kept message is the decoding of a line that was read |
| `Protocol.ParsedAppend` | crates/cargo-acap-build/src/cargo_acap.rs:38-50 | decoding goes line by line: the messages of two stretches of output are those of the first followed by those of the second |
| `Protocol.ResilientDecode` | crates/cargo-acap-build/src/cargo_acap.rs:40-47 | a line that cannot be read or decoded, between two decodable lines, costs neither of them its message |
| `Protocol.CollectMessages` | crates/cargo-acap-build/src/cargo_acap.rs:37-50 | the callback loop pushes exactly `Parsed(lines)`, in line order |
| `Resolver.Present` | crates/cargo-acap-build/src/cargo_acap.rs:171-174 | the existing candidates: a candidate is in the result exactly when it exists, and there are no more of them than candidates |
| `Resolver.ExactlyOne` | crates/cargo-acap-build/src/cargo_acap.rs:164-180 | success iff exactly one of the candidates (manifest dir, out dir if any) exists, and the result is that path; none gives `Missing` and two give `Ambiguous`, each naming the file and both directories |
| `Resolver.AtMostOne` | crates/cargo-acap-build/src/cargo_acap.rs:182-198 | success iff at most one candidate exists; the result is `None` when none exists and otherwise the one that does; two give `Ambiguous` |
| `Resolver.IsApp` | crates/cargo-acap-build/src/cargo_acap.rs:200-218 | true iff `manifest.json` is a regular file in the manifest's parent (when it has one) or in the out dir (when there is one) |
| `Resolver.AtMostOneAgreesWithExactlyOne` | crates/cargo-acap-build/src/cargo_acap.rs:164-198 | the two resolvers agree on every case except "found nowhere", which is `Missing` for one and `Ok(None)` for the other |
| `Resolver.NoOutDirNeverAmbiguous` | crates/cargo-acap-build/src/cargo_acap.rs:169-173 | without an out dir both resolvers answer from the manifest dir alone and never report an ambiguity |
| `Resolver.BothIsAmbiguous` | crates/cargo-acap-build/src/cargo_acap.rs:171-178 | there is no precedence rule: a resource in both places is an error for both resolvers, even when the two places coincide |
| `Resolver.IsAppFindsManifest` | crates/cargo-acap-build/src/cargo_acap.rs:200-218 | a package classified as an app never has its `manifest.json` reported missing by `exactly_one` |
| `Resolver.NotAppManifestIsDirectory` | crates/cargo-acap-build/src/cargo_acap.rs:171-173 | in a well-formed tree, a manifest that `exactly_one` finds for a package that is not an app is a directory (`exists` against `is_file`) |
| `Packing.Staging` | crates/cargo-acap-build/src/cargo_acap.rs:116-127 | success iff the staging directory is or can be made a directory and the executable has a file name; the destination is `target_dir/nickname/file_name`, after which the staging directory is a directory and no directory is at the destination; a `create_dir` failure returns its error with the filesystem unchanged, a missing file name gives `NoFileName`; no file is created, only the staging directory can appear, an entry can disappear only when it is at or below the destination and the destination was a directory, and well-formedness is kept |
| `Packing.StagingIdempotent` | crates/cargo-acap-build/src/cargo_acap.rs:116-127 | staging a second time for the same executable changes nothing and gives the same destination |
| `Packing.Optional` | crates/cargo-acap-build/src/cargo_acap.rs:147-158 | an optional resource succeeds exactly when `at_most_one` succeeds and the builder accepts what it found (if anything), and then gives that resolution; an ambiguity is that error, a refusal by the builder is `Packager` with its message |
| `Packing.Bundle` | crates/cargo-acap-build/src/cargo_acap.rs:133-158 | the complete builder inputs exist exactly when all five resources resolve, and they then hold those resolutions |
| `Packing.Assemble` | crates/cargo-acap-build/src/cargo_acap.rs:129-161 | no parent gives `NoParent`; then the first failure, in the source's order, is the result: `manifest.json`, `LICENSE`, `AppBuilder::new`, `additional-files`, `lib`, `html`, `build` (builder failures as `Packager` with the message); success holds exactly when all five resolutions succeed, `AppBuilder::new` accepts the required inputs, each found directory is accepted, and `build` succeeds on the complete inputs, and the result is then `build`'s path |
| `Packing.Pack` | crates/cargo-acap-build/src/cargo_acap.rs:108-162 | the in-place steps give the result and the filesystem of `Packed`, staging followed by `Assemble` |
| `Build.WalkAbortIsFinal` | crates/cargo-acap-build/src/cargo_acap.rs:71-78 | a `pack` failure aborts the whole pass: later messages do not change the outcome |
| `Build.WalkPrefix` | crates/cargo-acap-build/src/cargo_acap.rs:55-104 | a pass that succeeds succeeded on every prefix, and a prefix's artifacts begin the whole list |
| `Build.WalkArtifacts` | crates/cargo-acap-build/src/cargo_acap.rs:55-85 | one artifact per compiler artifact with an executable, in message order; an `Exe` keeps the executable's path unchanged and an `Eap` carries the target's name |
| `Build.WalkOutDirs` | crates/cargo-acap-build/src/cargo_acap.rs:94-101 | last write wins: a package has an out dir iff a build-script message named it, and it is the out dir of the last such message |
| `Build.WalkArtifactAt` | crates/cargo-acap-build/src/cargo_acap.rs:63-84 | the artifact of the executable at message k is decided by the state after the messages before k: an `Eap` iff `is_app` holds for the out dir known then, with the path `pack` returns on the filesystem as it was then |
| `Build.WalkScriptMessage` | crates/cargo-acap-build/src/cargo_acap.rs:94-101 | a build-script message sets its package's out dir, leaves every other package's alone, and adds no artifact and no filesystem change |
| `Build.WalkInertMessage` | crates/cargo-acap-build/src/cargo_acap.rs:63-93 | a compiler artifact without an executable, a compiler message and a build-finished message change nothing, so nothing is classified or packed for them |
| `Build.Handle` | crates/cargo-acap-build/src/cargo_acap.rs:56-103 | the loop body's in-place handling of one message gives the result and the filesystem of `Step` |
| `Build.Accumulate` | crates/cargo-acap-build/src/cargo_acap.rs:53-105 | the loop over the messages, with its map, its artifact list and the filesystem, gives the outcome of `Walk` |
| `Build.BuildAndPack` | crates/cargo-acap-build/src/cargo_acap.rs:24-106 | extra arguments may not contain `--target`; the result and the new filesystem are those of `BuildOutcome`: cargo's failure, then the metadata failure, then the pass over the decoded messages |
| `Scenarios.AppScenario` | crates/cargo-acap-build/src/cargo_acap.rs:67-80 | `manifest.json` and `LICENSE` beside `Cargo.toml`, with no build script, give one `.eap` named after the target, at the path the builder returns for the staged inputs |
| `Scenarios.PackWithoutOutDir` | crates/cargo-acap-build/src/cargo_acap.rs:116-161 | with the staging directory in place, no directory at the destination and the resources only beside `Cargo.toml`, `pack` leaves the filesystem as it is and returns the builder's path |
| `Scenarios.PlainExecutableScenario` | crates/cargo-acap-build/src/cargo_acap.rs:81-84 | without `manifest.json` the build gives one `Exe` with the executable's original path and leaves the filesystem untouched |
| `Scenarios.AmbiguousLicenseScenario` | crates/cargo-acap-build/src/cargo_acap.rs:135 | a `LICENSE` in both the manifest dir and the out dir fails the build with `Ambiguous` naming `LICENSE` and both directories |

## Left out

- Spawning `cargo`, its argument vector and `run_with_processed_stdout` are process I/O. The subprocess is an input: its output lines, or the message of its failure. The extra arguments are only checked for `--target`.
- `serde_json` decoding of `JsonMessage` is a foreign library. It is the `Decoder` parameter.
- `get_cargo_metadata` is an external query. Its outcome (the target directory or an error message) is an input.
- `ACAP_SDK_LOCATION` is the environment. It is the `sdk` parameter passed to `build`.
- `AppBuilder` is an external collaborator. It is a record of opaque functions, one per fallible call `pack` makes on it. What it writes to the filesystem is not modelled: after `pack` the filesystem is the staged one.
- The `Architecture` enumeration and its nickname table are defined in a file that is not part of this model. An architecture is its nickname.
- Every `debug!`, `warn!` and `error!` call is left out, including the warning on a discarded out dir. They carry no control flow.
- `Packing.Staging`: `remove_dir_all` is modelled as always succeeding on a directory. Its own I/O failures (permissions, races) are not modelled. `create_dir` fails only for an existing path or a missing parent.
- Paths are literal component lists. There is no normalisation of `.` and `..` and no symbolic links. Joining a component never replaces the path, as joining an absolute path would.
- Races between checking the filesystem and changing it are not modelled. The tree changes only through the model's own operations.
- crates/mdb/src/error.rs is not part of this model. It is an FFI wrapper over a foreign error handle and holds no logic.
