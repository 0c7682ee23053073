/** `pack`: prepare the per-architecture staging directory, resolve the app's
    resources and hand everything to the packaging collaborator (`AppBuilder`). */
module Packing {
  import opened Wrappers
  import opened Paths
  import opened Errors
  import opened FileSystems
  import opened Resolver

  /** The target architecture, reduced to the one thing `pack` reads from it: the
      nickname that names its staging directory. */
  datatype Architecture = Architecture(nickname: Component)

  /** Everything handed to the packaging collaborator for one app. */
  datatype BundleInputs = BundleInputs(
    stagingDir: Path, arch: Architecture, name: string,
    manifest: Path, executable: Path, license: Path,
    additionalFiles: Option<Path>, lib: Option<Path>, html: Option<Path>)

  /** The packaging collaborator, as opaque functions, one per fallible call that
      `pack` makes on it: `AppBuilder::new`, `additional`, `lib`, `html` (each
      `None` on success, the message on failure) and `build`, which also receives
      the SDK location override and returns the path of the `.eap` file. */
  datatype AppBuilder = AppBuilder(
    open: BundleInputs -> Option<string>,
    additional: Path -> Option<string>,
    lib: Path -> Option<string>,
    html: Path -> Option<string>,
    build: (BundleInputs, Option<Path>) -> Result<Path, string>)

  /** A result together with the filesystem it left behind. */
  datatype Staged<T> = Staged(result: Result<T, Error>, tree: Tree)

  /** The architecture's staging directory, `target_dir/nickname`. */
  function StagingRoot(targetDir: Path, arch: Architecture): Path
  {
    Join(targetDir, arch.nickname)
  }

  /** The staging prelude of `pack`: create the staging directory if it is not a
      directory yet, then compute `target_dir/nickname/file_name(executable)` and
      remove a directory left there by an earlier run. */
  function Staging(t: Tree, targetDir: Path, arch: Architecture, executable: Path): (r: Staged<Path>)
    ensures var root := StagingRoot(targetDir, arch);
      r.result.Ok? <==> (t.IsDir(root) || t.CreateDir(root).Ok?) && FileName(executable).Some?
    ensures var root := StagingRoot(targetDir, arch);
      !t.IsDir(root) && t.CreateDir(root).Err? ==> r == Staged(Err(t.CreateDir(root).error), t)
    ensures FileName(executable).None? && r.tree.IsDir(StagingRoot(targetDir, arch)) ==>
      r.result == Err(NoFileName(executable))
    ensures r.result.Ok? ==>
      && r.result.value == Join(StagingRoot(targetDir, arch), FileName(executable).value)
      && r.tree.IsDir(StagingRoot(targetDir, arch))
      && !r.tree.IsDir(r.result.value)
    ensures forall q :: r.tree.IsFile(q) ==> t.IsFile(q)
    ensures forall q :: r.tree.IsDir(q) ==> t.IsDir(q) || q == StagingRoot(targetDir, arch)
    ensures forall q :: t.Exists(q) && !r.tree.Exists(q) ==> r.result.Ok? && t.IsDir(r.result.value) && r.result.value <= q
    ensures t.WellFormed() ==> r.tree.WellFormed()
  {
    var root := StagingRoot(targetDir, arch);
    var created := if t.IsDir(root) then Ok(t) else t.CreateDir(root);
    match created
    case Err(e) => Staged(Err(e), t)
    case Ok(t1) =>
      match FileName(executable)
      case None => Staged(Err(NoFileName(executable)), t1)
      case Some(name) =>
        var dest := Join(root, name);
        if t1.IsDir(dest) then Staged(Ok(dest), t1.RemoveDirAll(dest))
        else Staged(Ok(dest), t1)
  }

  /** Staging twice in a row for the same executable does nothing the second time. */
  lemma StagingIdempotent(t: Tree, targetDir: Path, arch: Architecture, executable: Path)
    requires Staging(t, targetDir, arch, executable).result.Ok?
    ensures var s := Staging(t, targetDir, arch, executable);
      Staging(s.tree, targetDir, arch, executable) == s
  {
  }

  /** Whether a builder call accepts the directory found for an optional
      resource; a resource found nowhere is not handed to the builder at all. */
  predicate Accepted(call: Path -> Option<string>, found: Option<Path>)
  {
    found.None? || call(found.value).None?
  }

  /** One optional resource of `pack`: resolve it with `at_most_one` and, when it
      is found, hand it to the builder call (`additional`, `lib` or `html`). */
  function Optional(t: Tree, manifestDir: Path, outDir: Option<Path>, fileName: Component,
                    call: Path -> Option<string>): (r: Result<Option<Path>, Error>)
    ensures var found := AtMostOne(t, manifestDir, outDir, fileName);
      && (r.Ok? <==> found.Ok? && Accepted(call, found.value))
      && (r.Ok? ==> r.value == found.value)
      && (found.Err? ==> r == Err(found.error))
      && (found.Ok? && r.Err? ==> r == Err(Packager(call(found.value.value).value)))
  {
    match AtMostOne(t, manifestDir, outDir, fileName)
    case Err(e) => Err(e)
    case Ok(None) => Ok(None)
    case Ok(Some(d)) => if call(d).Some? then Err(Packager(call(d).value)) else Ok(Some(d))
  }

  /** The complete inputs of the builder, when all five resources resolve. */
  function Bundle(t: Tree, stagingDir: Path, arch: Architecture, name: string, manifestDir: Path,
                  executable: Path, outDir: Option<Path>): (r: Option<BundleInputs>)
    ensures r.Some? <==>
      && ExactlyOne(t, manifestDir, outDir, ManifestFile).Ok?
      && ExactlyOne(t, manifestDir, outDir, LicenseFile).Ok?
      && AtMostOne(t, manifestDir, outDir, AdditionalFilesDir).Ok?
      && AtMostOne(t, manifestDir, outDir, LibDir).Ok?
      && AtMostOne(t, manifestDir, outDir, HtmlDir).Ok?
    ensures r.Some? ==> r.value == BundleInputs(stagingDir, arch, name,
      ExactlyOne(t, manifestDir, outDir, ManifestFile).value, executable,
      ExactlyOne(t, manifestDir, outDir, LicenseFile).value,
      AtMostOne(t, manifestDir, outDir, AdditionalFilesDir).value,
      AtMostOne(t, manifestDir, outDir, LibDir).value,
      AtMostOne(t, manifestDir, outDir, HtmlDir).value)
  {
    match (ExactlyOne(t, manifestDir, outDir, ManifestFile), ExactlyOne(t, manifestDir, outDir, LicenseFile),
           AtMostOne(t, manifestDir, outDir, AdditionalFilesDir), AtMostOne(t, manifestDir, outDir, LibDir),
           AtMostOne(t, manifestDir, outDir, HtmlDir))
    case (Ok(manifest), Ok(license), Ok(additional), Ok(lib), Ok(html)) =>
      Some(BundleInputs(stagingDir, arch, name, manifest, executable, license, additional, lib, html))
    case _ => None
  }

  /** The rest of `pack` once the staging directory is ready: find the manifest
      dir, resolve `manifest.json` and `LICENSE` as required resources, open the
      builder on them, then resolve and hand over `additional-files`, `lib` and
      `html` as optional ones, and finally build the `.eap`. The first failure,
      in that order, is the result. */
  function Assemble(t: Tree, stagingDir: Path, arch: Architecture, name: string, manifestPath: Path,
                    executable: Path, outDir: Option<Path>, builder: AppBuilder, sdk: Option<Path>): (r: Result<Path, Error>)
    ensures Parent(manifestPath).None? ==> r == Err(NoParent(manifestPath))
    ensures Parent(manifestPath).Some? ==>
      var md := Parent(manifestPath).value;
      var manifest := ExactlyOne(t, md, outDir, ManifestFile);
      var license := ExactlyOne(t, md, outDir, LicenseFile);
      && (manifest.Err? ==> r == Err(manifest.error))
      && (manifest.Ok? && license.Err? ==> r == Err(license.error))
      && (manifest.Ok? && license.Ok? ==>
            var required := BundleInputs(stagingDir, arch, name, manifest.value, executable, license.value,
                                         None, None, None);
            var additional := Optional(t, md, outDir, AdditionalFilesDir, builder.additional);
            var lib := Optional(t, md, outDir, LibDir, builder.lib);
            var html := Optional(t, md, outDir, HtmlDir, builder.html);
            && (builder.open(required).Some? ==> r == Err(Packager(builder.open(required).value)))
            && (builder.open(required).None? && additional.Err? ==> r == Err(additional.error))
            && (builder.open(required).None? && additional.Ok? && lib.Err? ==> r == Err(lib.error))
            && (builder.open(required).None? && additional.Ok? && lib.Ok? && html.Err? ==> r == Err(html.error))
            && (builder.open(required).None? && additional.Ok? && lib.Ok? && html.Ok? ==>
                  var complete := required.(additionalFiles := additional.value, lib := lib.value, html := html.value);
                  && (builder.build(complete, sdk).Err? ==> r == Err(Packager(builder.build(complete, sdk).error)))
                  && (builder.build(complete, sdk).Ok? ==> r == Ok(builder.build(complete, sdk).value))))
    ensures r.Ok? <==>
      && Parent(manifestPath).Some?
      && var bundle := Bundle(t, stagingDir, arch, name, Parent(manifestPath).value, executable, outDir);
      && bundle.Some?
      && builder.open(bundle.value.(additionalFiles := None, lib := None, html := None)).None?
      && Accepted(builder.additional, bundle.value.additionalFiles)
      && Accepted(builder.lib, bundle.value.lib)
      && Accepted(builder.html, bundle.value.html)
      && builder.build(bundle.value, sdk).Ok?
    ensures r.Ok? ==>
      builder.build(Bundle(t, stagingDir, arch, name, Parent(manifestPath).value, executable, outDir).value, sdk)
        == Ok(r.value)
  {
    match Parent(manifestPath)
    case None => Err(NoParent(manifestPath))
    case Some(md) =>
      match ExactlyOne(t, md, outDir, ManifestFile)
      case Err(e) => Err(e)
      case Ok(manifest) =>
        match ExactlyOne(t, md, outDir, LicenseFile)
        case Err(e) => Err(e)
        case Ok(license) =>
          var inputs := BundleInputs(stagingDir, arch, name, manifest, executable, license, None, None, None);
          if builder.open(inputs).Some? then Err(Packager(builder.open(inputs).value))
          else
            match Optional(t, md, outDir, AdditionalFilesDir, builder.additional)
            case Err(e) => Err(e)
            case Ok(additional) =>
              match Optional(t, md, outDir, LibDir, builder.lib)
              case Err(e) => Err(e)
              case Ok(lib) =>
                match Optional(t, md, outDir, HtmlDir, builder.html)
                case Err(e) => Err(e)
                case Ok(html) =>
                  match builder.build(inputs.(additionalFiles := additional, lib := lib, html := html), sdk)
                  case Err(m) => Err(Packager(m))
                  case Ok(p) => Ok(p)
  }

  /** All of `pack`: staging followed, when it succeeds, by `Assemble` on the
      staged filesystem. */
  function Packed(t: Tree, targetDir: Path, arch: Architecture, name: string, manifestPath: Path,
                  executable: Path, outDir: Option<Path>, builder: AppBuilder, sdk: Option<Path>): Staged<Path>
  {
    var s := Staging(t, targetDir, arch, executable);
    match s.result
    case Err(e) => s
    case Ok(dest) => Staged(Assemble(s.tree, dest, arch, name, manifestPath, executable, outDir, builder, sdk), s.tree)
  }

  /** `pack`, step by step on the filesystem. */
  method Pack(fs: FileSystem, targetDir: Path, arch: Architecture, name: string, manifestPath: Path,
              executable: Path, outDir: Option<Path>, builder: AppBuilder, sdk: Option<Path>) returns (r: Result<Path, Error>)
    requires fs.Valid()
    modifies fs
    ensures fs.Valid()
    ensures var s := Packed(old(fs.State()), targetDir, arch, name, manifestPath, executable, outDir, builder, sdk);
      r == s.result && fs.State() == s.tree
  {
    var stagingDir := StagingRoot(targetDir, arch);
    if !fs.State().IsDir(stagingDir) {
      var e := fs.CreateDir(stagingDir);
      if e.Some? {
        return Err(e.value);
      }
    }
    var fileName := FileName(executable);
    if fileName.None? {
      return Err(NoFileName(executable));
    }
    stagingDir := Join(stagingDir, fileName.value);
    if fs.State().IsDir(stagingDir) {
      fs.RemoveDirAll(stagingDir);
    }
    r := Assemble(fs.State(), stagingDir, arch, name, manifestPath, executable, outDir, builder, sdk);
  }
}
